/**
 The scope test for changed files (isAllowedChange): a string-prefix test on
 normalised paths, against the meaning of a path as a walk through directories.
 */
module PathScope {
  import opened Prelude

  type Segment = string

  // ---------------------------------------------------------------- the source's test

  /** replaceAll('\\', '/') */
  function Slashes(path: string): string {
    seq(|path|, i requires 0 <= i < |path| => if path[i] == '\\' then '/' else path[i])
  }

  /** The pieces of a path between slashes; "" has one empty piece. */
  function Split(path: string): (segments: seq<Segment>)
    ensures segments != []
    ensures forall s :: s in segments ==> '/' !in s
  {
    if path == "" then [""]
    else
      var rest := Split(path[1..]);
      if path[0] == '/' then [""] + rest else [[path[0]] + rest[0]] + rest[1..]
  }

  function Join(segments: seq<Segment>): string {
    if segments == [] then ""
    else if |segments| == 1 then segments[0]
    else segments[0] + "/" + Join(segments[1..])
  }

  /** One segment of posix.normalize; `..` is kept only where a relative path leaves its start. */
  function NormalizeStep(stack: seq<Segment>, s: Segment, allowAboveRoot: bool): seq<Segment> {
    if s == "" || s == "." then stack
    else if s == ".." then
      if stack != [] && stack[|stack| - 1] != ".." then stack[..|stack| - 1]
      else if allowAboveRoot then stack + [".."]
      else stack
    else stack + [s]
  }

  function NormalizeSegments(segments: seq<Segment>, allowAboveRoot: bool): seq<Segment> {
    if segments == [] then []
    else NormalizeStep(NormalizeSegments(segments[..|segments| - 1], allowAboveRoot), segments[|segments| - 1],
                       allowAboveRoot)
  }

  predicate IsAbsolute(path: string) {
    path != "" && path[0] == '/'
  }

  predicate HasTrailingSlash(path: string) {
    path != "" && path[|path| - 1] == '/'
  }

  /** posix.normalize */
  function Normalize(path: string): string {
    if path == "" then "."
    else
      var absolute, trailing := IsAbsolute(path), HasTrailingSlash(path);
      var body := Join(NormalizeSegments(Split(path), !absolute));
      if body == "" then if absolute then "/" else if trailing then "./" else "."
      else (if absolute then "/" else "") + body + if trailing then "/" else ""
  }

  predicate IsAllowedChange(allowedScope: string, changedFile: string) {
    var scope, file := Normalize(Slashes(allowedScope)), Normalize(Slashes(changedFile));
    && scope != "." && file != "." && !IsAbsolute(scope) && !IsAbsolute(file)
    && scope != ".." && file != ".." && !("../" <= scope) && !("../" <= file)
    && (file == scope || scope + "/" <= file)
  }

  // ---------------------------------------------------------------- what a path means

  /** Walking the segments from some directory; None once the walk leaves that directory upwards. */
  function Walk(segments: seq<Segment>): Option<seq<Segment>> {
    if segments == [] then Some([])
    else
      match Walk(segments[..|segments| - 1])
      case None => None
      case Some(dir) =>
        var s := segments[|segments| - 1];
        if s == "" || s == "." then Some(dir)
        else if s != ".." then Some(dir + [s])
        else if dir == [] then None
        else Some(dir[..|dir| - 1])
  }

  function Target(path: string): Option<seq<Segment>> {
    Walk(Split(path))
  }

  predicate IsName(s: Segment) {
    s != "" && s != "." && s != ".." && '/' !in s
  }

  lemma {:induction false} WalkEndsInNames(segments: seq<Segment>)
    requires forall s :: s in segments ==> '/' !in s
    ensures Walk(segments).Some? ==> forall s :: s in Walk(segments).value ==> IsName(s)
    ensures Walk(segments).Some? ==> NormalizeSegments(segments, true) == Walk(segments).value
    ensures Walk(segments).None? ==>
      NormalizeSegments(segments, true) != [] && NormalizeSegments(segments, true)[0] == ".."
  {
    if segments == [] {
    } else {
      var init, s := segments[..|segments| - 1], segments[|segments| - 1];
      assert s in segments;
      WalkEndsInNames(init);
      if Walk(init).None? {
        StaysAbove(NormalizeSegments(init, true), s);
      } else if s == ".." && Walk(init).value != [] {
        var dir := Walk(init).value;
        assert dir[|dir| - 1] in dir;
      }
    }
  }

  lemma {:induction false} WalkOfNames(dir: seq<Segment>)
    requires forall s :: s in dir ==> IsName(s)
    ensures Walk(dir) == Some(dir)
  {
    if dir == [] {
    } else {
      WalkOfNames(dir[..|dir| - 1]);
      assert dir[|dir| - 1] in dir && dir == dir[..|dir| - 1] + [dir[|dir| - 1]];
    }
  }

  /** Once above its start, a normalised path stays there. */
  lemma StaysAbove(stack: seq<Segment>, s: Segment)
    requires stack != [] && stack[0] == ".."
    ensures NormalizeStep(stack, s, true) != [] && NormalizeStep(stack, s, true)[0] == ".."
  {
  }

  lemma {:induction false} SplitConcat(a: string, b: string)
    ensures Split(a + "/" + b) == Split(a) + Split(b)
  {
    if a == "" {
      assert (a + "/" + b)[1..] == b;
    } else {
      assert (a + "/" + b)[1..] == a[1..] + "/" + b;
      SplitConcat(a[1..], b);
    }
  }

  lemma {:induction false} SplitSegment(s: Segment)
    requires '/' !in s
    ensures Split(s) == [s]
  {
    if s == "" {
    } else {
      assert s[0] in s && forall c :: c in s[1..] ==> c in s;
      SplitSegment(s[1..]);
      assert [s[0]] + s[1..] == s;
    }
  }

  lemma {:induction false} SplitJoin(segments: seq<Segment>)
    requires segments != [] && forall s :: s in segments ==> '/' !in s
    ensures Split(Join(segments)) == segments
  {
    SplitSegment(segments[0]);
    if |segments| == 1 {
    } else {
      SplitJoin(segments[1..]);
      SplitConcat(segments[0], Join(segments[1..]));
    }
  }

  lemma {:induction false} JoinConcat(a: seq<Segment>, b: seq<Segment>)
    requires a != [] && b != []
    ensures Join(a + b) == Join(a) + "/" + Join(b)
  {
    if |a| > 1 {
      JoinConcat(a[1..], b);
      assert (a + b)[1..] == a[1..] + b;
      assert a[0] + "/" + (Join(a[1..]) + "/" + Join(b)) == a[0] + "/" + Join(a[1..]) + "/" + Join(b);
    } else {
      assert (a + b)[1..] == b;
    }
  }

  // ---------------------------------------------------------------- normal forms

  /** The normal form of a relative path that stays below its start. */
  function Canonical(dir: seq<Segment>, trailing: bool): string {
    (if dir == [] then "." else Join(dir)) + if trailing then "/" else ""
  }

  ghost predicate Names(dir: seq<Segment>) {
    forall s :: s in dir ==> IsName(s)
  }

  lemma CanonicalSplit(dir: seq<Segment>, trailing: bool)
    requires Names(dir)
    ensures Split(Canonical(dir, trailing)) ==
      (if dir == [] then ["."] else dir) + if trailing then [""] else []
  {
    if dir == [] { SplitSegment("."); } else { SplitJoin(dir); }
    var head := if dir == [] then "." else Join(dir);
    if trailing {
      SplitConcat(head, "");
      assert head + "/" + "" == head + "/";
    } else {
      assert head + "" == head;
    }
  }

  lemma NormalizeRelative(path: string)
    requires !IsAbsolute(path)
    ensures Target(path).Some? ==>
      Names(Target(path).value) && Normalize(path) == Canonical(Target(path).value, HasTrailingSlash(path))
    ensures Target(path).None? ==> Normalize(path) == ".." || "../" <= Normalize(path)
  {
    WalkEndsInNames(Split(path));
    if path == "" {
      assert Split(path) == [""] && Split(path)[..0] == [];
      assert Target(path) == Some([]);
    } else if Target(path).Some? {
      var dir := Target(path).value;
      if dir != [] {
        SplitJoin(dir);
        assert dir[0] in dir && Join(dir) != "" by { assert Split("") == [""]; }
        assert "" + Join(dir) == Join(dir);
      }
    } else {
      AboveStart(NormalizeSegments(Split(path), true));
      var body := Join(NormalizeSegments(Split(path), true));
      assert "" + body == body && body + "" == body;
    }
  }

  lemma AboveStart(segments: seq<Segment>)
    requires segments != [] && segments[0] == ".."
    ensures Join(segments) == ".." || "../" <= Join(segments)
  {
    if |segments| > 1 {
      assert Join(segments) == "../" + Join(segments[1..]);
    }
  }

  /** The forms of a path that the test rejects outright, and the ones it does not. */
  lemma Accepted(path: string)
    ensures var n := Normalize(path);
      (n != "." && !IsAbsolute(n) && n != ".." && !("../" <= n)) <==>
      (!IsAbsolute(path) && Target(path).Some? && (Target(path).value != [] || HasTrailingSlash(path)))
  {
    if !IsAbsolute(path) {
      NormalizeRelative(path);
      if Target(path).Some? {
        CanonicalFirst(Target(path).value, HasTrailingSlash(path));
      }
    }
  }

  lemma CanonicalFirst(dir: seq<Segment>, trailing: bool)
    requires Names(dir)
    ensures var n := Canonical(dir, trailing);
      n != ".." && !("../" <= n) && !IsAbsolute(n) && (n == "." <==> dir == [] && !trailing)
  {
    var n := Canonical(dir, trailing);
    CanonicalSplit(dir, trailing);
    SplitSegment("..");
    SplitSegment(".");
    if dir != [] {
      assert dir[0] in dir;
    }
    if IsAbsolute(n) {
      SplitAbsolute(n);
    }
    if "../" <= n {
      SplitAbove(n);
    }
  }

  lemma SplitAbsolute(path: string)
    requires IsAbsolute(path)
    ensures Split(path)[0] == ""
  {
  }

  lemma SplitAbove(path: string)
    requires "../" <= path
    ensures Split(path)[0] == ".."
  {
    SplitConcat("..", path[3..]);
    SplitSegment("..");
    assert path == ".." + "/" + path[3..];
  }

  /** On normal forms, the string-prefix test is the segment-prefix test. */
  lemma PrefixTest(scope: seq<Segment>, scopeTrailing: bool, file: seq<Segment>, fileTrailing: bool)
    requires Names(scope) && Names(file)
    requires scope != [] || scopeTrailing
    requires file != [] || fileTrailing
    ensures var s, f := Canonical(scope, scopeTrailing), Canonical(file, fileTrailing);
      (f == s || s + "/" <= f) <==>
      if scopeTrailing then fileTrailing && file == scope else scope <= file
  {
    var s, f := Canonical(scope, scopeTrailing), Canonical(file, fileTrailing);
    CanonicalSplit(scope, scopeTrailing);
    CanonicalSplit(file, fileTrailing);
    assert forall x :: x in scope ==> x != "" && x != ".";
    assert forall x :: x in file ==> x != "" && x != ".";
    if scope != [] && scope <= file && !scopeTrailing {
      BelowHasPrefix(scope, file, fileTrailing);
    }
    if f == s {
      SameForm(scope, scopeTrailing, file, fileTrailing);
    } else if s + "/" <= f {
      var rest := f[|s| + 1..];
      assert f == s + "/" + rest;
      SplitConcat(s, rest);
      PrefixForm(scope, scopeTrailing, file, fileTrailing, Split(rest));
    }
  }

  /** A path at or below a directory starts with the directory's path and a slash, or is that path. */
  lemma BelowHasPrefix(scope: seq<Segment>, file: seq<Segment>, trailing: bool)
    requires scope != [] && scope <= file
    ensures var s, f := Canonical(scope, false), Canonical(file, trailing); f == s || s + "/" <= f
  {
    var s, f := Canonical(scope, false), Canonical(file, trailing);
    assert s == Join(scope);
    if scope < file {
      var rest := file[|scope|..];
      JoinConcat(scope, rest);
      assert scope + rest == file;
      assert f[..|s| + 1] == s + "/";
    } else {
      assert scope == file;
    }
  }

  lemma SameForm(scope: seq<Segment>, scopeTrailing: bool, file: seq<Segment>, fileTrailing: bool)
    requires Names(scope) && Names(file)
    requires (if scope == [] then ["."] else scope) + (if scopeTrailing then [""] else [])
          == (if file == [] then ["."] else file) + (if fileTrailing then [""] else [])
    ensures scopeTrailing == fileTrailing && scope == file
  {
    var a, b := if scope == [] then ["."] else scope, if file == [] then ["."] else file;
    var whole := a + if scopeTrailing then [""] else [];
    assert a[|a| - 1] != "" && b[|b| - 1] != "" by {
      if scope != [] { assert scope[|scope| - 1] in scope; }
      if file != [] { assert file[|file| - 1] in file; }
    }
    assert scopeTrailing <==> whole[|whole| - 1] == "";
    assert a == whole[..|a|] && b == whole[..|b|];
    if scope != [] { assert scope[0] in scope; }
    if file != [] { assert file[0] in file; }
  }

  lemma PrefixForm(scope: seq<Segment>, scopeTrailing: bool, file: seq<Segment>, fileTrailing: bool,
                   rest: seq<Segment>)
    requires Names(scope) && Names(file) && rest != []
    requires scope != [] || scopeTrailing
    requires file != [] || fileTrailing
    requires (if file == [] then ["."] else file) + (if fileTrailing then [""] else [])
          == (if scope == [] then ["."] else scope) + (if scopeTrailing then [""] else []) + rest
    ensures !scopeTrailing && scope <= file
  {
    var a, b := if scope == [] then ["."] else scope, if file == [] then ["."] else file;
    var whole := b + if fileTrailing then [""] else [];
    assert |a| + |rest| <= |whole| <= |b| + 1;
    assert forall i :: 0 <= i < |b| ==> b[i] != "" by {
      assert forall i :: 0 <= i < |file| ==> file[i] in file;
    }
    assert |a| < |b| ==> b[|a|] == whole[|a|];
    assert a == whole[..|a|] == b[..|a|];
    assert scope[0] in scope;
  }

  /**
   The test, for every scope and every file. A scope with a trailing slash stands only for itself; any
   other scope stands for everything at or below it.
   */
  lemma IsAllowedChangeMeaning(allowedScope: string, changedFile: string)
    ensures IsAllowedChange(allowedScope, changedFile) <==>
      var scope, file := Slashes(allowedScope), Slashes(changedFile);
      && !IsAbsolute(scope) && !IsAbsolute(file)
      && Target(scope).Some? && Target(file).Some?
      && if HasTrailingSlash(scope) then HasTrailingSlash(file) && Target(file) == Target(scope)
         else Target(scope).value != [] && Target(scope).value <= Target(file).value
  {
    hide Normalize, Split, Walk, Canonical;
    var scope, file := Slashes(allowedScope), Slashes(changedFile);
    Accepted(scope);
    Accepted(file);
    if !IsAbsolute(scope) && !IsAbsolute(file) && Target(scope).Some? && Target(file).Some? {
      NormalizeRelative(scope);
      NormalizeRelative(file);
      var s, f := Target(scope).value, Target(file).value;
      if (s != [] || HasTrailingSlash(scope)) && (f != [] || HasTrailingSlash(file)) {
        PrefixTest(s, HasTrailingSlash(scope), f, HasTrailingSlash(file));
      }
    }
  }

  /** A scope written with a trailing slash shuts out the files below it. */
  lemma TrailingSlashShutsOut()
    ensures IsAllowedChange("src", "src/a") && !IsAllowedChange("src/", "src/a")
  {
    hide IsAllowedChange, Split, Walk;
    SplitConcat("src", "a");
    SplitSegment("src");
    SplitSegment("a");
    assert "src" + "/" + "a" == "src/a" && ["src"] + ["a"] == ["src", "a"];
    WalkOfNames(["src"]);
    WalkOfNames(["src", "a"]);
    assert Slashes("src") == "src" && Slashes("src/a") == "src/a" && Slashes("src/") == "src/";
    IsAllowedChangeMeaning("src", "src/a");
    IsAllowedChangeMeaning("src/", "src/a");
  }
}
