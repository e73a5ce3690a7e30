/**
 The canonical listing of a directory tree (filesBelow) and the text that hashDirectory
 hashes. A tree is given as enumerated, level by level; enumeration order is arbitrary.
 */
module Integrity {
  import opened Prelude
  import opened NulFields
  import PathScope

  datatype Node = File(content: string) | Dir(entries: seq<Entry>) | Special
  datatype Entry = Entry(name: string, node: Node)

  // ---------------------------------------------------------------- string order

  /** The default order of Array.prototype.sort on strings. */
  predicate Leq(a: string, b: string) {
    a == "" || (b != "" && (a[0] < b[0] || (a[0] == b[0] && Leq(a[1..], b[1..]))))
  }

  lemma {:induction false} LeqTotal(a: string, b: string)
    ensures Leq(a, b) || Leq(b, a)
    ensures Leq(a, b) && Leq(b, a) ==> a == b
  {
    if a == "" || b == "" {
    } else {
      LeqTotal(a[1..], b[1..]);
      assert a == [a[0]] + a[1..] && b == [b[0]] + b[1..];
    }
  }

  lemma {:induction false} LeqTransitive(a: string, b: string, c: string)
    requires Leq(a, b) && Leq(b, c)
    ensures Leq(a, c)
  {
    if a == "" || a[0] != b[0] || b[0] != c[0] {
    } else {
      LeqTransitive(a[1..], b[1..], c[1..]);
    }
  }

  lemma {:induction false} LeqOfSuffixes(p: string, a: string, b: string)
    ensures Leq(p + a, p + b) <==> Leq(a, b)
  {
    if p == "" {
      assert p + a == a && p + b == b;
    } else {
      assert (p + a)[1..] == p[1..] + a && (p + b)[1..] == p[1..] + b;
      LeqOfSuffixes(p[1..], a, b);
    }
  }

  predicate Sorted(xs: seq<string>) {
    forall i, j :: 0 <= i < j < |xs| ==> Leq(xs[i], xs[j])
  }

  function Insert(x: string, xs: seq<string>): seq<string> {
    if xs == [] then [x] else if Leq(x, xs[0]) then [x] + xs else [xs[0]] + Insert(x, xs[1..])
  }

  lemma {:induction false} InsertAdds(x: string, xs: seq<string>)
    ensures multiset(Insert(x, xs)) == multiset{x} + multiset(xs)
  {
    hide Leq;
    if xs == [] {
    } else {
      assert xs == [xs[0]] + xs[1..];
      InsertAdds(x, xs[1..]);
    }
  }

  lemma SortedCons(x: string, xs: seq<string>)
    requires Sorted(xs) && forall y :: y in xs ==> Leq(x, y)
    ensures Sorted([x] + xs)
  {
    hide Leq;
  }

  lemma {:induction false} InsertSorts(x: string, xs: seq<string>)
    requires Sorted(xs)
    ensures Sorted(Insert(x, xs)) && multiset(Insert(x, xs)) == multiset{x} + multiset(xs)
  {
    hide Leq;
    InsertAdds(x, xs);
    if xs == [] {
    } else {
      if Leq(x, xs[0]) {
        forall y | y in xs ensures Leq(x, y) {
          var j :| 0 <= j < |xs| && xs[j] == y;
          if j > 0 { LeqTransitive(x, xs[0], y); }
        }
        SortedCons(x, xs);
      } else {
        LeqTotal(x, xs[0]);
        InsertSorts(x, xs[1..]);
        forall y | y in Insert(x, xs[1..]) ensures Leq(xs[0], y) {
          assert y in multiset(Insert(x, xs[1..]));
        }
        SortedCons(xs[0], Insert(x, xs[1..]));
      }
    }
  }

  function Sort(xs: seq<string>): (r: seq<string>)
    ensures Sorted(r) && multiset(r) == multiset(xs)
  {
    if xs == [] then []
    else
      assert xs == [xs[0]] + xs[1..];
      InsertSorts(xs[0], Sort(xs[1..]));
      Insert(xs[0], Sort(xs[1..]))
  }

  // ---------------------------------------------------------------- the listing

  function PathJoin(directory: string, name: string): string {
    directory + "/" + name
  }

  /** filesBelow, on a directory whose enumeration is `entries`. */
  function FilesBelow(directory: string, entries: seq<Entry>): seq<string>
    decreases entries, 1
  {
    Sort(Flat(directory, entries))
  }

  function Flat(directory: string, entries: seq<Entry>): seq<string>
    decreases entries, 0
  {
    if entries == [] then [] else FilesOf(directory, entries[0]) + Flat(directory, entries[1..])
  }

  function FilesOf(directory: string, e: Entry): seq<string>
    decreases e, 2
  {
    var path := PathJoin(directory, e.name);
    match e.node
    case Dir(entries) => FilesBelow(path, entries)
    case File(_) => [path]
    case Special => []
  }

  // ---------------------------------------------------------------- what a tree contains

  /** Names are plain, and occur once per directory. */
  predicate WellFormed(entries: seq<Entry>) {
    && (forall i, j :: 0 <= i < j < |entries| ==> entries[i].name != entries[j].name)
    && (forall e :: e in entries ==> PlainName(e.name) && (e.node.Dir? ==> WellFormed(e.node.entries)))
  }

  predicate PlainName(name: string) {
    name != "" && name != "." && name != ".." && '/' !in name && NulFree(name)
  }

  /** The content of the regular file at a path of names, if there is one. */
  function Lookup(entries: seq<Entry>, path: seq<string>): Option<string> {
    if entries == [] || path == [] then None
    else if entries[0].name == path[0] then
      match entries[0].node
      case File(content) => if |path| == 1 then Some(content) else None
      case Dir(inner) => Lookup(inner, path[1..])
      case Special => None
    else Lookup(entries[1..], path)
  }

  ghost predicate SameFiles(t: seq<Entry>, u: seq<Entry>) {
    forall path :: Lookup(t, path) == Lookup(u, path)
  }

  // ---------------------------------------------------------------- the listing is exact

  function PathString(directory: string, path: seq<string>): string {
    directory + "/" + PathScope.Join(path)
  }

  ghost predicate Plain(path: seq<string>) {
    path != [] && forall s :: s in path ==> PlainName(s)
  }

  lemma {:induction false} FoundPathsArePlain(entries: seq<Entry>, path: seq<string>)
    requires WellFormed(entries) && Lookup(entries, path).Some?
    ensures Plain(path) && exists e :: e in entries && e.name == path[0]
    decreases entries, |path|
  {
    var e := entries[0];
    assert e in entries;
    if e.name == path[0] {
      if e.node.Dir? {
        FoundPathsArePlain(e.node.entries, path[1..]);
        assert path == [path[0]] + path[1..];
      }
    } else {
      WellFormedRest(entries);
      FoundPathsArePlain(entries[1..], path);
    }
  }

  lemma WellFormedRest(entries: seq<Entry>)
    requires WellFormed(entries) && entries != []
    ensures WellFormed(entries[1..]) && forall e :: e in entries[1..] ==> e.name != entries[0].name
  {
    assert forall e :: e in entries[1..] ==> e in entries;
  }

  /** A lookup that succeeds beyond the first entry is not shadowed by it. */
  lemma LookupRest(entries: seq<Entry>, path: seq<string>)
    requires WellFormed(entries) && entries != [] && Lookup(entries[1..], path).Some?
    ensures Lookup(entries, path) == Lookup(entries[1..], path)
  {
    WellFormedRest(entries);
    FoundPathsArePlain(entries[1..], path);
  }

  lemma PathStringInjective(directory: string, p: seq<string>, q: seq<string>)
    requires Plain(p) && Plain(q) && PathString(directory, p) == PathString(directory, q)
    ensures p == q
  {
    assert PathString(directory, p)[|directory| + 1..] == PathScope.Join(p);
    assert PathString(directory, q)[|directory| + 1..] == PathScope.Join(q);
    PathScope.SplitJoin(p);
    PathScope.SplitJoin(q);
  }

  lemma PathStringBelow(directory: string, name: string, path: seq<string>)
    requires path != []
    ensures PathString(PathJoin(directory, name), path) == PathString(directory, [name] + path)
  {
    assert ([name] + path)[1..] == path;
    assert directory + "/" + (name + "/" + PathScope.Join(path)) == directory + "/" + name + "/" + PathScope.Join(path);
  }

  /** Whatever is listed is the path of a regular file. */
  lemma {:induction false} ListedIsFile(directory: string, entries: seq<Entry>, p: string) returns (path: seq<string>)
    requires WellFormed(entries) && p in FilesBelow(directory, entries)
    ensures Lookup(entries, path).Some? && p == PathString(directory, path)
    decreases entries, 1
  {
    assert p in multiset(Flat(directory, entries));
    path := FlatIsFile(directory, entries, p);
  }

  lemma {:induction false} FlatIsFile(directory: string, entries: seq<Entry>, p: string) returns (path: seq<string>)
    requires WellFormed(entries) && p in Flat(directory, entries)
    ensures Lookup(entries, path).Some? && p == PathString(directory, path)
    decreases entries, 0
  {
    var e := entries[0];
    assert e in entries;
    if p in FilesOf(directory, e) {
      match e.node
      case File(_) =>
        path := [e.name];
      case Dir(inner) =>
        var below := ListedIsFile(PathJoin(directory, e.name), inner, p);
        FoundPathsArePlain(inner, below);
        PathStringBelow(directory, e.name, below);
        path := [e.name] + below;
        assert path[1..] == below;
      case Special =>
    } else {
      WellFormedRest(entries);
      path := FlatIsFile(directory, entries[1..], p);
      LookupRest(entries, path);
    }
  }

  /** Every regular file is listed. */
  lemma {:induction false} FileIsListed(directory: string, entries: seq<Entry>, path: seq<string>)
    requires WellFormed(entries) && Lookup(entries, path).Some?
    ensures PathString(directory, path) in FilesBelow(directory, entries)
    ensures PathString(directory, path) in Flat(directory, entries)
    decreases entries, |path|
  {
    var e := entries[0];
    assert e in entries;
    if e.name == path[0] {
      if e.node.Dir? {
        FoundPathsArePlain(e.node.entries, path[1..]);
        FileIsListed(PathJoin(directory, e.name), e.node.entries, path[1..]);
        PathStringBelow(directory, e.name, path[1..]);
        assert path == [e.name] + path[1..];
      }
      assert PathString(directory, path) in FilesOf(directory, e);
    } else {
      WellFormedRest(entries);
      FileIsListed(directory, entries[1..], path);
    }
    assert PathString(directory, path) in multiset(Flat(directory, entries));
    assert PathString(directory, path) in multiset(FilesBelow(directory, entries));
  }

  ghost predicate Once(xs: seq<string>) {
    forall x :: multiset(xs)[x] <= 1
  }

  lemma OnceConcat(xs: seq<string>, ys: seq<string>)
    requires Once(xs) && Once(ys) && forall x :: !(x in xs && x in ys)
    ensures Once(xs + ys)
  {
    forall x ensures multiset(xs + ys)[x] <= 1 {
      assert multiset(xs + ys)[x] == multiset(xs)[x] + multiset(ys)[x];
      assert x in xs <==> multiset(xs)[x] > 0;
      assert x in ys <==> multiset(ys)[x] > 0;
    }
  }

  /** No path is listed twice. */
  lemma {:induction false} ListedOnce(directory: string, entries: seq<Entry>)
    requires WellFormed(entries)
    ensures Once(Flat(directory, entries)) && Once(FilesBelow(directory, entries))
    decreases entries
  {
    if entries == [] {
    } else {
      var e, rest := entries[0], entries[1..];
      assert e in entries;
      WellFormedRest(entries);
      ListedOnce(directory, rest);
      if e.node.Dir? {
        ListedOnce(PathJoin(directory, e.name), e.node.entries);
      }
      var below, flat := FilesOf(directory, e), Flat(directory, rest);
      assert Once(below);
      forall p ensures !(p in below && p in flat) {
        ListedOnceSplit(directory, entries, p);
      }
      hide WellFormed, FilesOf;
      OnceConcat(below, flat);
    }
  }

  lemma ListedOnceSplit(directory: string, entries: seq<Entry>, p: string)
    requires WellFormed(entries) && entries != []
    ensures !(p in FilesOf(directory, entries[0]) && p in Flat(directory, entries[1..]))
  {
    var e, rest := entries[0], entries[1..];
    if p in FilesOf(directory, e) && p in Flat(directory, rest) {
      WellFormedRest(entries);
      assert WellFormed([e]) by { assert e in entries; }
      assert Flat(directory, [e]) == FilesOf(directory, e) + [] by { assert [e][1..] == []; }
      var first := FlatIsFile(directory, [e], p);
      var second := FlatIsFile(directory, rest, p);
      FoundPathsArePlain([e], first);
      FoundPathsArePlain(rest, second);
      PathStringInjective(directory, first, second);
    }
  }

  // ---------------------------------------------------------------- the listing is canonical

  predicate StrictlySorted(xs: seq<string>) {
    forall i, j :: 0 <= i < j < |xs| ==> Leq(xs[i], xs[j]) && xs[i] != xs[j]
  }

  lemma OnceAndSorted(xs: seq<string>)
    requires Once(xs) && Sorted(xs)
    ensures StrictlySorted(xs)
  {
    forall i, j | 0 <= i < j < |xs| ensures xs[i] != xs[j] {
      assert xs == xs[..j] + xs[j..];
      assert xs[i] in xs[..j] && xs[j] in xs[j..];
      assert multiset(xs)[xs[i]] <= 1;
      assert multiset(xs)[xs[i]] == multiset(xs[..j])[xs[i]] + multiset(xs[j..])[xs[i]];
    }
  }

  /** A strictly sorted sequence is determined by its elements. */
  lemma {:induction false} StrictlySortedUnique(xs: seq<string>, ys: seq<string>)
    requires StrictlySorted(xs) && StrictlySorted(ys)
    requires forall x :: x in xs <==> x in ys
    ensures xs == ys
  {
    assert ys != [] ==> ys[0] in ys;
    if xs == [] {
    } else {
      assert xs[0] in ys;
      LeqTotal(xs[0], ys[0]);
      HeadsEqual(xs, ys);
      forall x ensures x in xs[1..] <==> x in ys[1..] {
        TailWithoutHead(xs, x);
        TailWithoutHead(ys, x);
      }
      StrictlySortedUnique(xs[1..], ys[1..]);
      assert xs == [xs[0]] + xs[1..] && ys == [ys[0]] + ys[1..];
    }
  }

  lemma TailWithoutHead(xs: seq<string>, x: string)
    requires StrictlySorted(xs) && xs != []
    ensures x in xs[1..] <==> x in xs && x != xs[0]
  {
    assert xs == [xs[0]] + xs[1..];
  }

  lemma HeadsEqual(xs: seq<string>, ys: seq<string>)
    requires StrictlySorted(xs) && StrictlySorted(ys) && xs != [] && ys != []
    requires xs[0] in ys && ys[0] in xs
    ensures xs[0] == ys[0]
  {
    LeqTotal(xs[0], ys[0]);
    var i :| 0 <= i < |ys| && ys[i] == xs[0];
    var j :| 0 <= j < |xs| && xs[j] == ys[0];
    assert i > 0 ==> Leq(ys[0], xs[0]);
    assert j > 0 ==> Leq(xs[0], ys[0]);
  }

  /** path.relative(directory, path) for a path below the directory. */
  function Relative(directory: string, path: string): string {
    if |path| > |directory| then path[|directory| + 1..] else ""
  }

  function RelativeFiles(directory: string, entries: seq<Entry>): seq<string> {
    var files := FilesBelow(directory, entries);
    seq(|files|, i requires 0 <= i < |files| => Relative(directory, files[i]))
  }

  lemma RelativeIsPath(directory: string, entries: seq<Entry>, i: nat) returns (path: seq<string>)
    requires WellFormed(entries) && i < |FilesBelow(directory, entries)|
    ensures Lookup(entries, path).Some? && RelativeFiles(directory, entries)[i] == PathScope.Join(path)
    ensures FilesBelow(directory, entries)[i] == directory + "/" + PathScope.Join(path)
  {
    path := ListedIsFile(directory, entries, FilesBelow(directory, entries)[i]);
  }

  lemma FileIsRelative(directory: string, entries: seq<Entry>, path: seq<string>)
    requires WellFormed(entries) && Lookup(entries, path).Some?
    ensures PathScope.Join(path) in RelativeFiles(directory, entries)
  {
    hide Lookup, FilesBelow, WellFormed;
    FileIsListed(directory, entries, path);
    var files := FilesBelow(directory, entries);
    var i :| 0 <= i < |files| && files[i] == PathString(directory, path);
    assert RelativeFiles(directory, entries)[i] == PathScope.Join(path);
  }

  lemma RelativesSorted(directory: string, entries: seq<Entry>)
    requires WellFormed(entries)
    ensures StrictlySorted(RelativeFiles(directory, entries))
  {
    var files, rels := FilesBelow(directory, entries), RelativeFiles(directory, entries);
    ListedOnce(directory, entries);
    OnceAndSorted(files);
    hide Lookup, FilesBelow, WellFormed, Once;
    forall i, j | 0 <= i < j < |rels| ensures Leq(rels[i], rels[j]) && rels[i] != rels[j] {
      var p := RelativeIsPath(directory, entries, i);
      var q := RelativeIsPath(directory, entries, j);
      LeqOfSuffixes(directory + "/", rels[i], rels[j]);
      assert Leq(files[i], files[j]) && files[i] != files[j];
    }
  }

  /** `r` is the path of a regular file of the tree. */
  ghost predicate IsFilePath(entries: seq<Entry>, r: string) {
    exists path :: Lookup(entries, path).Some? && r == PathScope.Join(path)
  }

  /** The relative listing: strictly sorted, and exactly the paths of the regular files. */
  lemma ListingExact(directory: string, entries: seq<Entry>)
    requires WellFormed(entries)
    ensures StrictlySorted(RelativeFiles(directory, entries))
    ensures forall r :: r in RelativeFiles(directory, entries) <==> IsFilePath(entries, r)
  {
    RelativesSorted(directory, entries);
    hide Lookup, RelativeFiles, WellFormed, StrictlySorted;
    var rels := RelativeFiles(directory, entries);
    forall r ensures r in rels <==> IsFilePath(entries, r) {
      if r in rels {
        var i :| 0 <= i < |rels| && rels[i] == r;
        RelativesLength(directory, entries);
        var path := RelativeIsPath(directory, entries, i);
      }
      if IsFilePath(entries, r) {
        var path :| Lookup(entries, path).Some? && r == PathScope.Join(path);
        FileIsRelative(directory, entries, path);
      }
    }
  }

  lemma RelativesLength(directory: string, entries: seq<Entry>)
    ensures |RelativeFiles(directory, entries)| == |FilesBelow(directory, entries)|
  {
  }

  lemma SamePaths(t: seq<Entry>, u: seq<Entry>)
    requires SameFiles(t, u)
    ensures forall r :: IsFilePath(t, r) <==> IsFilePath(u, r)
  {
  }

  /** The listing depends only on the files of the tree, not on enumeration order nor on where the tree is. */
  lemma ListingIsCanonical(d: string, t: seq<Entry>, e: string, u: seq<Entry>)
    requires WellFormed(t) && WellFormed(u) && SameFiles(t, u)
    ensures RelativeFiles(d, t) == RelativeFiles(e, u)
  {
    hide WellFormed, RelativeFiles, Lookup;
    ListingExact(d, t);
    ListingExact(e, u);
    SamePaths(t, u);
    StrictlySortedUnique(RelativeFiles(d, t), RelativeFiles(e, u));
  }

  // ---------------------------------------------------------------- the hash input

  function ContentOf(entries: seq<Entry>, relative: string): string {
    var found := Lookup(entries, PathScope.Split(relative));
    if found.Some? then found.value else ""
  }

  /** Path, content, path, content, ... */
  function Fields(entries: seq<Entry>, rels: seq<string>): seq<string> {
    if rels == [] then []
    else Fields(entries, rels[..|rels| - 1]) + [rels[|rels| - 1], ContentOf(entries, rels[|rels| - 1])]
  }

  function HashInput(directory: string, entries: seq<Entry>): string {
    Encode(Fields(entries, RelativeFiles(directory, entries)))
  }

  /** hashDirectory up to the digest: the text fed to the hash object, update by update. */
  method HashDirectory(directory: string, entries: seq<Entry>) returns (fed: string)
    ensures fed == HashInput(directory, entries)
  {
    hide FilesBelow, ContentOf, WellFormed, Fields, Encode;
    var files := FilesBelow(directory, entries);
    ghost var rels := RelativeFiles(directory, entries);
    fed := "";
    assert Encode(Fields(entries, rels[..0])) == "" by { assert rels[..0] == []; FeedNothing(entries); }
    for i := 0 to |files|
      invariant fed == Encode(Fields(entries, rels[..i]))
    {
      var relative := Relative(directory, files[i]);
      FeedOne(entries, rels, i);
      fed := fed + relative;
      fed := fed + [NUL];
      fed := fed + ContentOf(entries, relative);
      fed := fed + [NUL];
    }
    assert rels[..|files|] == rels;
  }

  /** hashDirectory, for the digest function `hash`. */
  function DirectoryHash(hash: string -> string, directory: string, entries: seq<Entry>): string {
    hash(HashInput(directory, entries))
  }

  lemma FeedNothing(entries: seq<Entry>)
    ensures Encode(Fields(entries, [])) == ""
  {
  }

  lemma FeedOne(entries: seq<Entry>, rels: seq<string>, i: nat)
    requires i < |rels|
    ensures Encode(Fields(entries, rels[..i + 1])) ==
      Encode(Fields(entries, rels[..i])) + rels[i] + [NUL] + ContentOf(entries, rels[i]) + [NUL]
  {
    var before, content := Fields(entries, rels[..i]), ContentOf(entries, rels[i]);
    assert rels[..i + 1][..i] == rels[..i];
    EncodeConcat(before, [rels[i], content]);
    EncodePair(rels[i], content);
    assert Encode(before) + (rels[i] + [NUL] + content + [NUL]) == Encode(before) + rels[i] + [NUL] + content + [NUL];
  }

  lemma EncodePair(a: string, b: string)
    ensures Encode([a, b]) == a + [NUL] + b + [NUL]
  {
    assert [a, b][1..] == [b] && [b][1..] == [];
    assert Encode([]) == "" && Encode([b]) == b + [NUL] + "" && Encode([a, b]) == a + [NUL] + Encode([b]);
  }

  lemma {:induction false} FieldsOfSameFiles(t: seq<Entry>, u: seq<Entry>, rels: seq<string>)
    requires SameFiles(t, u)
    ensures Fields(t, rels) == Fields(u, rels)
  {
    if rels == [] {
    } else {
      FieldsOfSameFiles(t, u, rels[..|rels| - 1]);
    }
  }

  /** Equal files give equal hash inputs, wherever and in whatever order they are enumerated. */
  lemma HashDependsOnlyOnTree(d: string, t: seq<Entry>, e: string, u: seq<Entry>)
    requires WellFormed(t) && WellFormed(u) && SameFiles(t, u)
    ensures HashInput(d, t) == HashInput(e, u)
  {
    ListingIsCanonical(d, t, e, u);
    FieldsOfSameFiles(t, u, RelativeFiles(d, t));
  }

  ghost predicate NulFreeContents(entries: seq<Entry>) {
    forall path :: Lookup(entries, path).Some? ==> NulFree(Lookup(entries, path).value)
  }

  lemma LastPair<T>(xs: seq<T>, a: T, b: T, ys: seq<T>, c: T, d: T)
    requires xs + [a, b] == ys + [c, d]
    ensures xs == ys && a == c && b == d
  {
    var whole, n := xs + [a, b], |xs|;
    assert whole[..n] == xs && whole[n] == a && whole[n + 1] == b;
    assert (ys + [c, d])[..n] == ys && (ys + [c, d])[n] == c && (ys + [c, d])[n + 1] == d;
  }

  lemma FieldsSnoc(t: seq<Entry>, rs: seq<string>)
    requires rs != []
    ensures var init, r := rs[..|rs| - 1], rs[|rs| - 1]; Fields(t, rs) == Fields(t, init) + [r, ContentOf(t, r)]
  {
  }

  lemma {:induction false} FieldsDetermine(t: seq<Entry>, u: seq<Entry>, rs: seq<string>, ss: seq<string>)
    requires Fields(t, rs) == Fields(u, ss)
    ensures rs == ss && forall r :: r in rs ==> ContentOf(t, r) == ContentOf(u, r)
  {
    hide Fields, ContentOf;
    FieldsLength(t, rs);
    FieldsLength(u, ss);
    if rs == [] {
    } else {
      var r, s := rs[|rs| - 1], ss[|ss| - 1];
      var rInit, sInit := rs[..|rs| - 1], ss[..|ss| - 1];
      FieldsSnoc(t, rs);
      FieldsSnoc(u, ss);
      LastPair(Fields(t, rInit), r, ContentOf(t, r), Fields(u, sInit), s, ContentOf(u, s));
      FieldsDetermine(t, u, rInit, sInit);
      assert rs == rInit + [r] && ss == sInit + [s];
    }
  }

  lemma {:induction false} FieldsLength(entries: seq<Entry>, rels: seq<string>)
    ensures |Fields(entries, rels)| == 2 * |rels|
  {
    if rels == [] {
    } else {
      FieldsLength(entries, rels[..|rels| - 1]);
    }
  }

  lemma {:induction false} FieldsNulFree(entries: seq<Entry>, rels: seq<string>)
    requires NulFreeContents(entries) && forall r :: r in rels ==> NulFree(r)
    ensures forall f :: f in Fields(entries, rels) ==> NulFree(f)
  {
    if rels == [] {
    } else {
      FieldsNulFree(entries, rels[..|rels| - 1]);
    }
  }

  lemma {:induction false} JoinNulFree(path: seq<string>)
    requires forall s :: s in path ==> NulFree(s)
    ensures NulFree(PathScope.Join(path))
  {
    if path == [] {
    } else {
      assert path[0] in path && forall s :: s in path[1..] ==> s in path;
      JoinNulFree(path[1..]);
    }
  }

  lemma ListedNulFree(d: string, t: seq<Entry>)
    requires WellFormed(t)
    ensures forall r :: r in RelativeFiles(d, t) ==> NulFree(r)
  {
    ListingExact(d, t);
    forall r | r in RelativeFiles(d, t) ensures NulFree(r) {
      var path :| Lookup(t, path).Some? && r == PathScope.Join(path);
      FoundPathsArePlain(t, path);
      JoinNulFree(path);
    }
  }

  lemma FoundInBoth(d: string, t: seq<Entry>, e: string, u: seq<Entry>, path: seq<string>)
    requires WellFormed(t) && WellFormed(u) && RelativeFiles(d, t) == RelativeFiles(e, u)
    requires forall r :: r in RelativeFiles(d, t) ==> ContentOf(t, r) == ContentOf(u, r)
    requires Lookup(t, path).Some?
    ensures Lookup(u, path) == Lookup(t, path)
  {
    hide RelativeFiles, Lookup, WellFormed;
    ListingExact(d, t);
    ListingExact(e, u);
    var r := PathScope.Join(path);
    assert r in RelativeFiles(e, u);
    var path' :| Lookup(u, path').Some? && r == PathScope.Join(path');
    FoundPathsArePlain(t, path);
    FoundPathsArePlain(u, path');
    PathScope.SplitJoin(path);
    PathScope.SplitJoin(path');
  }

  lemma SameFieldsSameFiles(d: string, t: seq<Entry>, e: string, u: seq<Entry>)
    requires WellFormed(t) && WellFormed(u) && Fields(t, RelativeFiles(d, t)) == Fields(u, RelativeFiles(e, u))
    ensures SameFiles(t, u)
  {
    hide RelativeFiles, Lookup, WellFormed, ContentOf;
    FieldsDetermine(t, u, RelativeFiles(d, t), RelativeFiles(e, u));
    forall path ensures Lookup(t, path) == Lookup(u, path) {
      if Lookup(t, path).Some? {
        FoundInBoth(d, t, e, u, path);
      } else if Lookup(u, path).Some? {
        FoundInBoth(e, u, d, t, path);
      }
    }
  }

  /** For contents without NUL, equal hash inputs mean equal files. */
  lemma HashDeterminesTree(d: string, t: seq<Entry>, e: string, u: seq<Entry>)
    requires WellFormed(t) && WellFormed(u) && NulFreeContents(t) && NulFreeContents(u)
    ensures HashInput(d, t) == HashInput(e, u) <==> SameFiles(t, u)
  {
    if HashInput(d, t) == HashInput(e, u) {
      ListedNulFree(d, t);
      ListedNulFree(e, u);
      FieldsNulFree(t, RelativeFiles(d, t));
      FieldsNulFree(u, RelativeFiles(e, u));
      hide RelativeFiles, Lookup, WellFormed;
      EncodeIsInjective(Fields(t, RelativeFiles(d, t)), Fields(u, RelativeFiles(e, u)));
      SameFieldsSameFiles(d, t, e, u);
    }
    if SameFiles(t, u) {
      HashDependsOnlyOnTree(d, t, e, u);
    }
  }

  // ---------------------------------------------------------------- when the hash pins a tree

  /** No other tree has the hash input of `t`. */
  ghost predicate Pinned(d: string, t: seq<Entry>) {
    forall e, u :: WellFormed(u) && HashInput(e, u) == HashInput(d, t) ==> SameFiles(t, u)
  }

  /** The tree whose only file is at `path`. */
  function OnlyFile(path: seq<string>, content: string): seq<Entry>
    requires path != []
  {
    [Entry(path[0], if |path| == 1 then File(content) else Dir(OnlyFile(path[1..], content)))]
  }

  lemma {:induction false} OnlyFileIsWellFormed(path: seq<string>, content: string)
    requires Plain(path)
    ensures WellFormed(OnlyFile(path, content))
  {
    assert PlainName(path[0]);
    if |path| == 1 {
    } else {
      assert forall s :: s in path[1..] ==> s in path;
      OnlyFileIsWellFormed(path[1..], content);
    }
  }

  lemma {:induction false} OnlyFileFound(path: seq<string>, content: string, q: seq<string>)
    requires path != []
    ensures Lookup(OnlyFile(path, content), q) == if q == path then Some(content) else None
  {
    var tree := OnlyFile(path, content);
    assert Lookup(tree[1..], q) == None;
    if q == [] || q[0] != path[0] {
    } else {
      assert q == [q[0]] + q[1..] && path == [path[0]] + path[1..];
      if |path| > 1 {
        OnlyFileFound(path[1..], content, q[1..]);
      }
    }
  }

  lemma OneFileListing(d: string, t: seq<Entry>, path: seq<string>)
    requires WellFormed(t) && forall q :: Lookup(t, q).Some? <==> q == path
    ensures RelativeFiles(d, t) == [PathScope.Join(path)]
  {
    hide WellFormed, Lookup, RelativeFiles;
    ListingExact(d, t);
    assert Lookup(t, path).Some?;
    StrictlySortedUnique(RelativeFiles(d, t), [PathScope.Join(path)]);
  }

  lemma OnlyFileInput(d: string, path: seq<string>, content: string)
    requires Plain(path)
    ensures WellFormed(OnlyFile(path, content))
    ensures HashInput(d, OnlyFile(path, content)) == PathScope.Join(path) + [NUL] + content + [NUL]
  {
    hide WellFormed, Lookup, RelativeFiles, Encode;
    var tree, r := OnlyFile(path, content), PathScope.Join(path);
    OnlyFileIsWellFormed(path, content);
    forall q ensures Lookup(tree, q) == if q == path then Some(content) else None {
      OnlyFileFound(path, content, q);
    }
    OneFileListing(d, tree, path);
    PathScope.SplitJoin(path);
    assert [r][..0] == [] && Fields(tree, []) == [];
    assert Fields(tree, [r]) == [r, content];
    EncodePair(r, content);
  }

  lemma {:induction false} FieldsFirst(t: seq<Entry>, rels: seq<string>)
    requires rels != []
    ensures |Fields(t, rels)| >= 2 && Fields(t, rels)[0] == rels[0] && Fields(t, rels)[1] == ContentOf(t, rels[0])
  {
    hide ContentOf;
    if |rels| == 1 {
      assert Fields(t, rels[..0]) == [];
    } else {
      FieldsFirst(t, rels[..|rels| - 1]);
    }
  }

  lemma {:induction false} EncodeEndsInNul(fields: seq<string>)
    requires fields != []
    ensures Encode(fields) != "" && Encode(fields)[|Encode(fields)| - 1] == NUL
  {
    if |fields| == 1 {
      assert Encode(fields[1..]) == "";
    } else {
      EncodeEndsInNul(fields[1..]);
    }
  }

  /** Everything after the first path of a larger tree can pass as the content of one file. */
  lemma TwoFilesAreForgeable(d: string, t: seq<Entry>) returns (u: seq<Entry>)
    requires WellFormed(t) && |RelativeFiles(d, t)| >= 2
    ensures WellFormed(u) && HashInput(d, u) == HashInput(d, t) && !SameFiles(t, u)
  {
    hide WellFormed, Lookup, RelativeFiles, FilesBelow, Encode, ContentOf;
    var rels := RelativeFiles(d, t);
    RelativesLength(d, t);
    var path := RelativeIsPath(d, t, 0);
    var other := RelativeIsPath(d, t, 1);
    FoundPathsArePlain(t, path);
    RelativesSorted(d, t);
    var fields := Fields(t, rels);
    FieldsFirst(t, rels);
    EncodeEndsInNul(fields[1..]);
    var rest := Encode(fields[1..]);
    u := OnlyFile(path, rest[..|rest| - 1]);
    OnlyFileInput(d, path, rest[..|rest| - 1]);
    EncodeFirst(fields);
    assert rels[0] + [NUL] + rest[..|rest| - 1] + [NUL] == rels[0] + [NUL] + rest;
    OnlyFileFound(path, rest[..|rest| - 1], other);
    assert Lookup(t, other) != Lookup(u, other);
  }

  lemma EncodeFirst(fields: seq<string>)
    requires fields != []
    ensures Encode(fields) == fields[0] + [NUL] + Encode(fields[1..])
  {
  }

  lemma OnlyNothingIsEmpty(fields: seq<string>)
    ensures Encode(fields) == "" <==> fields == []
  {
  }

  // ---------------------------------------------------------------- trees of two files

  /** Neither path runs through the other. */
  predicate Beside(p: seq<string>, q: seq<string>) {
    !(p <= q) && !(q <= p)
  }

  lemma BesideBelow(p: seq<string>, q: seq<string>)
    requires Beside(p, q) && p[0] == q[0]
    ensures Beside(p[1..], q[1..])
  {
    assert p == [p[0]] + p[1..] && q == [q[0]] + q[1..];
  }

  function TwoFiles(p: seq<string>, a: string, q: seq<string>, b: string): seq<Entry>
    requires Beside(p, q)
  {
    if p[0] != q[0] then OnlyFile(p, a) + OnlyFile(q, b)
    else
      BesideBelow(p, q);
      [Entry(p[0], Dir(TwoFiles(p[1..], a, q[1..], b)))]
  }

  lemma {:induction false} TwoFilesAreWellFormed(p: seq<string>, a: string, q: seq<string>, b: string)
    requires Beside(p, q) && Plain(p) && Plain(q)
    ensures WellFormed(TwoFiles(p, a, q, b))
  {
    assert PlainName(p[0]) && PlainName(q[0]);
    if p[0] != q[0] {
      OnlyFileIsWellFormed(p, a);
      OnlyFileIsWellFormed(q, b);
      assert OnlyFile(p, a)[0] in OnlyFile(p, a) && OnlyFile(q, b)[0] in OnlyFile(q, b);
    } else {
      BesideBelow(p, q);
      assert (forall s :: s in p[1..] ==> s in p) && (forall s :: s in q[1..] ==> s in q);
      TwoFilesAreWellFormed(p[1..], a, q[1..], b);
    }
  }

  lemma {:induction false} TwoFilesFound(p: seq<string>, a: string, q: seq<string>, b: string, r: seq<string>)
    requires Beside(p, q)
    ensures Lookup(TwoFiles(p, a, q, b), r) == if r == p then Some(a) else if r == q then Some(b) else None
  {
    var tree := TwoFiles(p, a, q, b);
    if p[0] != q[0] {
      OnlyFileFound(p, a, r);
      OnlyFileFound(q, b, r);
      assert tree[0] == OnlyFile(p, a)[0] && tree[1..] == OnlyFile(q, b) && OnlyFile(p, a)[1..] == [];
    } else {
      BesideBelow(p, q);
      assert tree[1..] == [] && p == [p[0]] + p[1..] && q == [q[0]] + q[1..];
      if r != [] && r[0] == p[0] {
        assert r == [r[0]] + r[1..];
        TwoFilesFound(p[1..], a, q[1..], b, r[1..]);
      }
    }
  }

  lemma TwoFilesInput(d: string, p: seq<string>, a: string, q: seq<string>, b: string)
    requires Beside(p, q) && Plain(p) && Plain(q) && Leq(PathScope.Join(p), PathScope.Join(q))
    ensures var tree := TwoFiles(p, a, q, b);
      && WellFormed(tree)
      && HashInput(d, tree) ==
           PathScope.Join(p) + [NUL] + a + [NUL] + (PathScope.Join(q) + [NUL] + b + [NUL])
  {
    hide WellFormed, Lookup, RelativeFiles, Encode, TwoFiles;
    var tree := TwoFiles(p, a, q, b);
    var rels := [PathScope.Join(p), PathScope.Join(q)];
    TwoFilesAreWellFormed(p, a, q, b);
    forall r ensures Lookup(tree, r) == if r == p then Some(a) else if r == q then Some(b) else None {
      TwoFilesFound(p, a, q, b, r);
    }
    PathScope.SplitJoin(p);
    PathScope.SplitJoin(q);
    ListingExact(d, tree);
    assert IsFilePath(tree, rels[0]) && IsFilePath(tree, rels[1]) by { assert Lookup(tree, q).Some?; }
    StrictlySortedUnique(RelativeFiles(d, tree), rels);
    assert rels[..1] == [rels[0]] && rels[..1][..0] == [] && Fields(tree, []) == [];
    assert Fields(tree, rels[..1]) == [rels[0], a];
    assert Fields(tree, rels) == [rels[0], a] + [rels[1], b];
    EncodeConcat([rels[0], a], [rels[1], b]);
    EncodePair(rels[0], a);
    EncodePair(rels[1], b);
  }

  // ---------------------------------------------------------------- the exact condition

  /** `r` spells a path that can be listed after `path` in one tree. */
  predicate ListedAfter(path: seq<string>, r: string) {
    var q := PathScope.Split(r);
    (forall s :: s in q ==> PlainName(s)) && Beside(path, q) && Leq(PathScope.Join(path), r)
  }

  /** Between two of its NULs, the content of the file at `path` spells the path of a further file. */
  predicate SpellsFile(path: seq<string>, content: string) {
    exists i, j :: 0 <= i < j < |content| && content[i] == NUL && content[j] == NUL
      && ListedAfter(path, content[i + 1..j])
  }

  lemma {:induction false} JoinOfSplit(r: string)
    ensures PathScope.Join(PathScope.Split(r)) == r
  {
    if r == "" {
    } else {
      var rest := PathScope.Split(r[1..]);
      JoinOfSplit(r[1..]);
      if r[0] == '/' {
        assert ([""] + rest)[1..] == rest && r == "/" + r[1..];
      } else {
        assert ([[r[0]] + rest[0]] + rest[1..])[1..] == rest[1..];
        assert r == [r[0]] + r[1..];
      }
    }
  }

  lemma CutAtNuls(p: string, content: string, i: nat, j: nat)
    requires i < j < |content| && content[i] == NUL && content[j] == NUL
    ensures p + [NUL] + content[..i] + [NUL] + (content[i + 1..j] + [NUL] + content[j + 1..] + [NUL])
         == p + [NUL] + content + [NUL]
  {
    assert content == content[..i] + [NUL] + content[i + 1..j] + [NUL] + content[j + 1..];
  }

  /** A file whose content spells a further file has the hash input of the two. */
  lemma SpellingIsForgeable(d: string, t: seq<Entry>, path: seq<string>, content: string) returns (u: seq<Entry>)
    requires WellFormed(t) && Plain(path) && SpellsFile(path, content)
    requires HashInput(d, t) == PathScope.Join(path) + [NUL] + content + [NUL]
    requires forall q :: Lookup(t, q).Some? ==> q == path
    ensures WellFormed(u) && HashInput(d, u) == HashInput(d, t) && !SameFiles(t, u)
  {
    hide WellFormed, Lookup, HashInput, TwoFiles, Leq, PathScope.Split, PathScope.Join, PlainName;
    var i: nat, j: nat :| 0 <= i < j < |content| && content[i] == NUL && content[j] == NUL
      && ListedAfter(path, content[i + 1..j]);
    var a, r, b := content[..i], content[i + 1..j], content[j + 1..];
    var q := PathScope.Split(r);
    JoinOfSplit(r);
    assert q != path;
    u := TwoFiles(path, a, q, b);
    TwoFilesInput(d, path, a, q, b);
    CutAtNuls(PathScope.Join(path), content, i, j);
    TwoFilesFound(path, a, q, b, q);
    assert Lookup(u, q) != Lookup(t, q);
  }

  lemma {:induction false} FoundPathsAreBeside(t: seq<Entry>, p: seq<string>, q: seq<string>)
    requires WellFormed(t) && Lookup(t, p).Some? && Lookup(t, q).Some? && p <= q
    ensures p == q
    decreases t, |p|
  {
    var e := t[0];
    assert e in t;
    if e.name == p[0] {
      assert p == [p[0]] + p[1..] && q == [q[0]] + q[1..];
      if e.node.Dir? {
        assert p[1..] <= q[1..];
        FoundPathsAreBeside(e.node.entries, p[1..], q[1..]);
      }
    } else {
      WellFormedRest(t);
      FoundPathsAreBeside(t[1..], p, q);
    }
  }

  lemma PathAndContent(d: string, t: seq<Entry>, i: nat) returns (path: seq<string>)
    requires WellFormed(t) && i < |RelativeFiles(d, t)|
    ensures Plain(path) && RelativeFiles(d, t)[i] == PathScope.Join(path)
    ensures PathScope.Split(RelativeFiles(d, t)[i]) == path
    ensures Lookup(t, path) == Some(ContentOf(t, RelativeFiles(d, t)[i]))
  {
    hide RelativeFiles, Lookup, WellFormed;
    RelativesLength(d, t);
    path := RelativeIsPath(d, t, i);
    FoundPathsArePlain(t, path);
    PathScope.SplitJoin(path);
  }

  /** The second path of a listing can be listed after the first. */
  lemma SecondIsListedAfter(d: string, t: seq<Entry>)
    requires WellFormed(t) && |RelativeFiles(d, t)| >= 2
    ensures ListedAfter(PathScope.Split(RelativeFiles(d, t)[0]), RelativeFiles(d, t)[1])
  {
    hide RelativeFiles, Lookup, WellFormed, Leq, ContentOf, PathScope.Split;
    var p := PathAndContent(d, t, 0);
    var q := PathAndContent(d, t, 1);
    RelativesSorted(d, t);
    if p <= q {
      FoundPathsAreBeside(t, p, q);
    }
    if q <= p {
      FoundPathsAreBeside(t, q, p);
    }
  }

  lemma InputOfFields(d: string, t: seq<Entry>)
    requires RelativeFiles(d, t) != []
    ensures var rels := RelativeFiles(d, t); var fields := Fields(t, rels);
      && |fields| == 2 * |rels| && fields[0] == rels[0] && fields[1] == ContentOf(t, rels[0])
      && HashInput(d, t) == rels[0] + [NUL] + Encode(fields[1..])
  {
    hide RelativeFiles, ContentOf, Encode;
    var fields := Fields(t, RelativeFiles(d, t));
    FieldsFirst(t, RelativeFiles(d, t));
    FieldsLength(t, RelativeFiles(d, t));
    EncodeFirst(fields);
  }

  /** The two contents and the path between them, at the front of what follows the first path. */
  lemma SpelledInside(content: string, fields: seq<string>, path: seq<string>)
    requires |fields| >= 3 && Encode(fields) == content + [NUL] && ListedAfter(path, fields[1])
    ensures SpellsFile(path, content)
  {
    hide ListedAfter, Encode;
    EncodeFirst(fields);
    EncodeFirst(fields[1..]);
    EncodeEndsInNul(fields[1..][1..]);
    var i, j := |fields[0]|, |fields[0]| + 1 + |fields[1]|;
    var rest := Encode(fields[1..][1..]);
    assert content + [NUL] == fields[0] + [NUL] + (fields[1] + [NUL] + rest);
    var whole := content + [NUL];
    assert whole[i] == NUL && whole[j] == NUL && whole[i + 1..j] == fields[1] && j < |content|;
    assert content[i] == whole[i] && content[j] == whole[j] && content[i + 1..j] == whole[i + 1..j];
  }

  lemma FieldsLikeOneFile(d: string, t: seq<Entry>, e: string, u: seq<Entry>)
    requires WellFormed(t) && WellFormed(u) && |RelativeFiles(d, t)| == 1 && RelativeFiles(e, u) != []
    requires HashInput(e, u) == HashInput(d, t)
    requires var r := RelativeFiles(d, t)[0]; !SpellsFile(PathScope.Split(r), ContentOf(t, r))
    ensures Fields(t, RelativeFiles(d, t)) == Fields(u, RelativeFiles(e, u))
  {
    hide WellFormed, RelativeFiles, Encode, ContentOf, NulFree, SpellsFile, ListedAfter, HashInput, Fields,
      PathScope.Split;
    var xs, ys := Fields(t, RelativeFiles(d, t)), Fields(u, RelativeFiles(e, u));
    InputOfFields(d, t);
    InputOfFields(e, u);
    ListedNulFree(d, t);
    ListedNulFree(e, u);
    HeadIsUnique(xs[0], Encode(xs[1..]), ys[0], Encode(ys[1..]));
    assert xs[1..] == [xs[1]];
    EncodeOne(xs[1]);
    if |ys| > 2 {
      SecondPathField(e, u);
      SecondIsListedAfter(e, u);
      SpelledInside(xs[1], ys[1..], PathScope.Split(xs[0]));
    }
    assert ys[1..] == [ys[1]];
    EncodeOne(ys[1]);
    assert xs[1] == (xs[1] + [NUL])[..|xs[1]|] && ys[1] == (ys[1] + [NUL])[..|ys[1]|];
    assert |xs[1] + [NUL]| == |ys[1] + [NUL]|;
  }

  lemma {:induction false} FieldsPath(t: seq<Entry>, rels: seq<string>, i: nat)
    requires i < |rels|
    ensures |Fields(t, rels)| == 2 * |rels| && Fields(t, rels)[2 * i] == rels[i]
  {
    hide ContentOf;
    var init := rels[..|rels| - 1];
    FieldsLength(t, init);
    if i == |rels| - 1 {
    } else {
      FieldsPath(t, init, i);
    }
  }

  lemma SecondPathField(d: string, t: seq<Entry>)
    requires |Fields(t, RelativeFiles(d, t))| > 2
    ensures |RelativeFiles(d, t)| >= 2 && |Fields(t, RelativeFiles(d, t))| >= 4
    ensures Fields(t, RelativeFiles(d, t))[2] == RelativeFiles(d, t)[1]
  {
    hide RelativeFiles, ContentOf;
    FieldsLength(t, RelativeFiles(d, t));
    FieldsPath(t, RelativeFiles(d, t), 1);
  }

  lemma EncodeOne(a: string)
    ensures Encode([a]) == a + [NUL]
  {
    assert [a][1..] == [];
  }

  /** Nothing but the empty tree, or one file whose content spells no further file, is pinned by its hash. */
  ghost predicate Unforgeable(d: string, t: seq<Entry>) {
    var rels := RelativeFiles(d, t);
    rels == [] || (|rels| == 1 && !SpellsFile(PathScope.Split(rels[0]), ContentOf(t, rels[0])))
  }

  lemma UnforgeableIsPinned(d: string, t: seq<Entry>, e: string, u: seq<Entry>)
    requires WellFormed(t) && WellFormed(u) && Unforgeable(d, t) && HashInput(e, u) == HashInput(d, t)
    ensures SameFiles(t, u)
  {
    hide WellFormed, RelativeFiles, SpellsFile, ContentOf, Lookup, SameFiles, Fields, Encode;
    var rs, ss := RelativeFiles(d, t), RelativeFiles(e, u);
    FieldsLength(t, rs);
    FieldsLength(u, ss);
    OnlyNothingIsEmpty(Fields(t, rs));
    OnlyNothingIsEmpty(Fields(u, ss));
    if rs != [] && ss != [] {
      FieldsLikeOneFile(d, t, e, u);
    }
    SameFieldsSameFiles(d, t, e, u);
  }

  lemma OneFileIsForgeable(d: string, t: seq<Entry>) returns (u: seq<Entry>)
    requires WellFormed(t) && |RelativeFiles(d, t)| == 1 && !Unforgeable(d, t)
    ensures WellFormed(u) && HashInput(d, u) == HashInput(d, t) && !SameFiles(t, u)
  {
    hide WellFormed, RelativeFiles, SpellsFile, ContentOf, Lookup, SameFiles, Fields, Encode, HashInput,
      PathScope.Split;
    var r := RelativeFiles(d, t)[0];
    var path := PathAndContent(d, t, 0);
    InputOfFields(d, t);
    var fields := Fields(t, RelativeFiles(d, t));
    assert fields[1..] == [fields[1]];
    EncodeOne(fields[1]);
    assert r + [NUL] + (fields[1] + [NUL]) == r + [NUL] + fields[1] + [NUL];
    forall q | Lookup(t, q).Some? ensures q == path {
      FileIsRelative(d, t, q);
      FoundPathsArePlain(t, q);
      PathScope.SplitJoin(q);
    }
    u := SpellingIsForgeable(d, t, path, ContentOf(t, r));
  }

  /** For every tree: its hash input is no other tree's exactly when it is unforgeable. */
  lemma HashPinsTree(d: string, t: seq<Entry>)
    requires WellFormed(t)
    ensures Pinned(d, t) <==> Unforgeable(d, t)
  {
    hide WellFormed, Lookup, SameFiles, HashInput, Unforgeable;
    if Unforgeable(d, t) {
      forall e, u | WellFormed(u) && HashInput(e, u) == HashInput(d, t) ensures SameFiles(t, u) {
        UnforgeableIsPinned(d, t, e, u);
      }
    } else {
      ForgeableShapes(d, t);
      if |RelativeFiles(d, t)| == 1 {
        var u := OneFileIsForgeable(d, t);
      } else {
        var u := TwoFilesAreForgeable(d, t);
      }
    }
  }

  lemma ForgeableShapes(d: string, t: seq<Entry>)
    requires !Unforgeable(d, t)
    ensures |RelativeFiles(d, t)| == 1 || |RelativeFiles(d, t)| >= 2
  {
    hide RelativeFiles, SpellsFile;
  }

  /** Without NULs in its contents, a tree is pinned exactly when it has at most one regular file. */
  lemma TextTreePinned(d: string, t: seq<Entry>)
    requires WellFormed(t) && NulFreeContents(t)
    ensures Unforgeable(d, t) <==> |RelativeFiles(d, t)| <= 1
    ensures Pinned(d, t) <==> |RelativeFiles(d, t)| <= 1
  {
    hide WellFormed, RelativeFiles, Lookup, Pinned, ContentOf, PathScope.Split;
    HashPinsTree(d, t);
    if |RelativeFiles(d, t)| == 1 {
      var path := PathAndContent(d, t, 0);
      TextSpellsNothing(path, ContentOf(t, RelativeFiles(d, t)[0]));
    }
  }

  lemma TextSpellsNothing(path: seq<string>, content: string)
    requires NulFree(content)
    ensures !SpellsFile(path, content)
  {
    hide ListedAfter;
    forall k | 0 <= k < |content| ensures content[k] != NUL {
      assert content[k] in content;
    }
  }

  /** Two files without NULs, and one file that spells the second one out inside its content. */
  lemma HashCollision(d: string)
    ensures var t := [Entry("a", File("x")), Entry("b", File("y"))];
      var u := [Entry("a", File("x\0b\0y"))];
      && WellFormed(t) && WellFormed(u) && NulFreeContents(t)
      && HashInput(d, t) == HashInput(d, u) && !SameFiles(t, u)
  {
    hide RelativeFiles, Lookup, WellFormed, Fields, Encode, ContentOf;
    var t := [Entry("a", File("x")), Entry("b", File("y"))];
    assert TwoFiles(["a"], "x", ["b"], "y") == t;
    assert OnlyFile(["a"], "x\0b\0y") == [Entry("a", File("x\0b\0y"))];
    TwoFilesInput(d, ["a"], "x", ["b"], "y");
    OnlyFileInput(d, ["a"], "x\0b\0y");
    assert "a" + [NUL] + "x" + [NUL] + ("b" + [NUL] + "y" + [NUL]) == "a" + [NUL] + "x\0b\0y" + [NUL];
    forall q ensures Lookup(t, q) == if q == ["a"] then Some("x") else if q == ["b"] then Some("y") else None {
      TwoFilesFound(["a"], "x", ["b"], "y", q);
    }
    OnlyFileFound(["a"], "x\0b\0y", ["b"]);
  }
}
