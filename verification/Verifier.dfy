/**
 Independent verification of a worktree: reading git's status, the fingerprint of a patch and
 the verdict over the acceptance run.
 */
module Verifier {
  import opened Prelude
  import opened NulFields
  import opened PatchParts
  import opened PathScope
  import opened Integrity
  import J = JobManager

  // ---------------------------------------------------------------- git status -z

  /** One entry of `git status --porcelain=v1 --no-renames -z`: two status letters and a path. */
  datatype StatusEntry = StatusEntry(index: char, worktree: char, path: string)

  predicate GoodEntry(e: StatusEntry) {
    e.index != NUL && e.worktree != NUL && NulFree(e.path) && e.path != ""
  }

  predicate GoodEntries(entries: seq<StatusEntry>) {
    forall e :: e in entries ==> GoodEntry(e)
  }

  function Printed(e: StatusEntry): string {
    [e.index, e.worktree, ' '] + e.path
  }

  function Lines(entries: seq<StatusEntry>): seq<string> {
    if entries == [] then [] else [Printed(entries[0])] + Lines(entries[1..])
  }

  function PathsOf(entries: seq<StatusEntry>): seq<string> {
    if entries == [] then [] else [entries[0].path] + PathsOf(entries[1..])
  }

  predicate IsUntracked(e: StatusEntry) {
    e.index == '?' && e.worktree == '?'
  }

  function UntrackedPathsOf(entries: seq<StatusEntry>): seq<string> {
    if entries == [] then []
    else (if IsUntracked(entries[0]) then [entries[0].path] else []) + UntrackedPathsOf(entries[1..])
  }

  /** What git prints for `entries`. */
  function StatusOutput(entries: seq<StatusEntry>): string {
    Encode(Lines(entries))
  }

  // ---------------------------------------------------------------- parsing it back

  /** String.split on NUL. */
  function SplitNul(s: string): (fields: seq<string>)
    ensures |fields| > 0
    decreases |s|
  {
    var n := FirstNul(s);
    if n >= |s| then [s] else [s[..n]] + SplitNul(s[n + 1..])
  }

  /** entry.slice(3) */
  function AfterStatus(entry: string): string {
    if |entry| < 3 then "" else entry[3..]
  }

  function NonEmptyPaths(fields: seq<string>): seq<string> {
    if fields == [] then []
    else (if AfterStatus(fields[0]) != "" then [AfterStatus(fields[0])] else []) + NonEmptyPaths(fields[1..])
  }

  function UntrackedPaths(fields: seq<string>): seq<string> {
    if fields == [] then []
    else (if "?? " <= fields[0] then [AfterStatus(fields[0])] else []) + UntrackedPaths(fields[1..])
  }

  function ChangedFiles(output: string): seq<string> {
    NonEmptyPaths(SplitNul(output))
  }

  function UntrackedFiles(output: string): seq<string> {
    UntrackedPaths(SplitNul(output))
  }

  lemma PrintedIsField(e: StatusEntry)
    requires GoodEntry(e)
    ensures NulFree(Printed(e)) && Printed(e) != "" && AfterStatus(Printed(e)) == e.path
    ensures "?? " <= Printed(e) <==> IsUntracked(e)
  {
    var head := Printed(e)[..3];
    assert head[0] == e.index && head[1] == e.worktree && head[2] == ' ';
    assert "?? " <= Printed(e) <==> head == "?? ";
  }

  lemma {:induction false} SplitEncode(fields: seq<string>)
    requires forall f :: f in fields ==> NulFree(f)
    ensures SplitNul(Encode(fields)) == fields + [""]
  {
    if fields == [] {
    } else {
      var rest := Encode(fields[1..]);
      FirstNulAfter(fields[0], rest);
      assert Encode(fields)[..|fields[0]|] == fields[0] && Encode(fields)[|fields[0]| + 1..] == rest;
      SplitEncode(fields[1..]);
      assert fields == [fields[0]] + fields[1..];
    }
  }

  lemma {:induction false} LinesAreFields(entries: seq<StatusEntry>)
    requires GoodEntries(entries)
    ensures forall f :: f in Lines(entries) ==> NulFree(f) && f != ""
  {
    if entries == [] {
    } else {
      PrintedIsField(entries[0]);
      LinesAreFields(entries[1..]);
    }
  }

  lemma FieldsOf(first: string, rest: seq<string>)
    ensures NonEmptyPaths([first] + rest) ==
      (if AfterStatus(first) != "" then [AfterStatus(first)] else []) + NonEmptyPaths(rest)
    ensures UntrackedPaths([first] + rest) ==
      (if "?? " <= first then [AfterStatus(first)] else []) + UntrackedPaths(rest)
  {
    hide AfterStatus;
    assert ([first] + rest)[1..] == rest;
  }

  lemma {:induction false} PathsComeBack(entries: seq<StatusEntry>)
    requires GoodEntries(entries)
    ensures NonEmptyPaths(Lines(entries) + [""]) == PathsOf(entries)
    ensures UntrackedPaths(Lines(entries) + [""]) == UntrackedPathsOf(entries)
  {
    hide NonEmptyPaths, UntrackedPaths, Printed, IsUntracked;
    if entries == [] {
      assert Lines(entries) + [""] == [""] + [];
      FieldsOf("", []);
      NoFields();
    } else {
      PrintedIsField(entries[0]);
      PathsComeBack(entries[1..]);
      FieldsOf(Printed(entries[0]), Lines(entries[1..]) + [""]);
      assert Lines(entries) + [""] == [Printed(entries[0])] + (Lines(entries[1..]) + [""]);
    }
  }

  lemma NoFields()
    ensures NonEmptyPaths([]) == [] && UntrackedPaths([]) == []
  {
  }

  /** Parsing inverts printing: every changed path, and exactly the untracked ones for patchText. */
  lemma StatusRoundTrip(entries: seq<StatusEntry>)
    requires GoodEntries(entries)
    ensures ChangedFiles(StatusOutput(entries)) == PathsOf(entries)
    ensures UntrackedFiles(StatusOutput(entries)) == UntrackedPathsOf(entries)
  {
    LinesAreFields(entries);
    SplitEncode(Lines(entries));
    PathsComeBack(entries);
  }

  // ---------------------------------------------------------------- the patch and its fingerprint

  /** What stands before the content of an untracked file. */
  function Separator(path: string): string {
    "\n--- untracked " + path + "\n"
  }

  function Separators(paths: seq<string>): (seps: seq<string>)
    ensures |seps| == |paths|
  {
    if paths == [] then [] else [Separator(paths[0])] + Separators(paths[1..])
  }

  /** `contents` are the untracked files as read, in the order of `paths`. */
  function UntrackedText(paths: seq<string>, contents: seq<string>): string
    requires |contents| == |paths|
  {
    if paths == [] then "" else Separator(paths[0]) + contents[0] + UntrackedText(paths[1..], contents[1..])
  }

  /** The tracked diff followed by every untracked file in full. */
  function PatchText(diff: string, status: string, contents: seq<string>): string
    requires |contents| == |UntrackedFiles(status)|
  {
    diff + UntrackedText(UntrackedFiles(status), contents)
  }

  lemma {:induction false} PatchIsAssembled(diff: string, paths: seq<string>, contents: seq<string>)
    requires |contents| == |paths|
    ensures diff + UntrackedText(paths, contents) == Assemble([diff] + contents, Separators(paths))
    decreases |paths|
  {
    hide Separator;
    if paths == [] {
      assert diff + "" == diff;
    } else {
      PatchIsAssembled(contents[0], paths[1..], contents[1..]);
      assert ([diff] + contents)[1..] == [contents[0]] + contents[1..];
      assert diff + (Separator(paths[0]) + contents[0] + UntrackedText(paths[1..], contents[1..]))
          == diff + Separator(paths[0]) + (contents[0] + UntrackedText(paths[1..], contents[1..]));
    }
  }

  /** The patch text holds the tracked diff and each untracked file that git listed, once and in order. */
  lemma PatchShowsUntracked(entries: seq<StatusEntry>, diff: string, contents: seq<string>)
    requires GoodEntries(entries) && |contents| == |UntrackedPathsOf(entries)|
    ensures |UntrackedFiles(StatusOutput(entries))| == |contents|
    ensures PatchText(diff, StatusOutput(entries), contents)
         == Assemble([diff] + contents, Separators(UntrackedPathsOf(entries)))
  {
    hide UntrackedFiles, StatusOutput, Separators, Assemble, UntrackedText;
    StatusRoundTrip(entries);
    PatchIsAssembled(diff, UntrackedPathsOf(entries), contents);
  }

  function Preimage(status: string, patch: string): string {
    status + [NUL] + patch
  }

  ghost predicate Injective(hash: string -> string) {
    forall a, b :: hash(a) == hash(b) ==> a == b
  }

  lemma EncodeAfter(fields: seq<string>, patch: string)
    requires fields != []
    ensures Preimage(Encode(fields), patch) == fields[0] + [NUL] + Preimage(Encode(fields[1..]), patch)
  {
  }

  lemma {:induction false} FieldsAndPatchAreUnique(xs: seq<string>, p: string, ys: seq<string>, q: string)
    requires forall f :: f in xs || f in ys ==> NulFree(f) && f != ""
    requires Preimage(Encode(xs), p) == Preimage(Encode(ys), q)
    ensures xs == ys && p == q
  {
    assert NulFree("");
    assert Preimage("", p) == "" + [NUL] + p && Preimage("", q) == "" + [NUL] + q;
    if xs == [] {
    } else {
      EncodeAfter(xs, p);
    }
    if ys == [] {
    } else {
      EncodeAfter(ys, q);
    }
    HeadIsUnique(if xs == [] then "" else xs[0], if xs == [] then p else Preimage(Encode(xs[1..]), p),
                 if ys == [] then "" else ys[0], if ys == [] then q else Preimage(Encode(ys[1..]), q));
    if xs == [] || ys == [] {
    } else {
      FieldsAndPatchAreUnique(xs[1..], p, ys[1..], q);
      assert xs == [xs[0]] + xs[1..] && ys == [ys[0]] + ys[1..];
    }
  }

  lemma {:induction false} LinesAreInjective(xs: seq<StatusEntry>, ys: seq<StatusEntry>)
    requires Lines(xs) == Lines(ys)
    ensures xs == ys
  {
    if xs == [] || ys == [] {
    } else {
      assert Lines(xs)[1..] == Lines(xs[1..]) && Lines(ys)[1..] == Lines(ys[1..]);
      LinesAreInjective(xs[1..], ys[1..]);
      var p, q := Lines(xs)[0], Lines(ys)[0];
      assert p[0] == q[0] && p[1] == q[1] && p[3..] == xs[0].path && q[3..] == ys[0].path;
      assert xs == [xs[0]] + xs[1..] && ys == [ys[0]] + ys[1..];
    }
  }

  /** Equal fingerprints under an injective hash mean the same changed files and statuses, and the same patch. */
  lemma FingerprintDeterminesPatch(hash: string -> string, xs: seq<StatusEntry>, p: string,
                                   ys: seq<StatusEntry>, q: string)
    requires Injective(hash) && GoodEntries(xs) && GoodEntries(ys)
    ensures hash(Preimage(StatusOutput(xs), p)) == hash(Preimage(StatusOutput(ys), q)) <==> xs == ys && p == q
  {
    if hash(Preimage(StatusOutput(xs), p)) == hash(Preimage(StatusOutput(ys), q)) {
      LinesAreFields(xs);
      LinesAreFields(ys);
      FieldsAndPatchAreUnique(Lines(xs), p, Lines(ys), q);
      LinesAreInjective(xs, ys);
    }
  }

  /** The fingerprint of a worktree with these entries, diff and untracked contents. */
  function FingerprintText(entries: seq<StatusEntry>, diff: string, contents: seq<string>): string
    requires |contents| == |UntrackedPathsOf(entries)|
  {
    Preimage(StatusOutput(entries), Assemble([diff] + contents, Separators(UntrackedPathsOf(entries))))
  }

  /** No other worktree has this fingerprint. */
  ghost predicate WorktreePinned(hash: string -> string, entries: seq<StatusEntry>, diff: string, contents: seq<string>)
    requires |contents| == |UntrackedPathsOf(entries)|
  {
    forall ys: seq<StatusEntry>, d: string, cs: seq<string> ::
      GoodEntries(ys) && |cs| == |UntrackedPathsOf(ys)|
      && hash(FingerprintText(ys, d, cs)) == hash(FingerprintText(entries, diff, contents)) ==>
        ys == entries && d == diff && cs == contents
  }

  predicate Legible(entries: seq<StatusEntry>, diff: string, contents: seq<string>)
    requires |contents| == |UntrackedPathsOf(entries)|
  {
    var seps := Separators(UntrackedPathsOf(entries));
    !Ambiguous(Assemble([diff] + contents, seps), seps, 0)
  }

  /**
   A fingerprint fixes the tracked diff and the content of every untracked file exactly when no line that announces
   an untracked file also occurs after its leftmost place, with the later ones still to come.
   */
  lemma FingerprintPinsWorktree(hash: string -> string, entries: seq<StatusEntry>, diff: string, contents: seq<string>)
    requires Injective(hash) && GoodEntries(entries) && |contents| == |UntrackedPathsOf(entries)|
    ensures WorktreePinned(hash, entries, diff, contents) <==> Legible(entries, diff, contents)
  {
    hide StatusOutput, Separators, Assemble, Ambiguous, Injective, GoodEntries, UntrackedPathsOf, Preimage;
    var seps, parts := Separators(UntrackedPathsOf(entries)), [diff] + contents;
    PinnedMeansUnambiguous(parts, seps);
    if Legible(entries, diff, contents) {
      forall ys: seq<StatusEntry>, d: string, cs: seq<string> | GoodEntries(ys) && |cs| == |UntrackedPathsOf(ys)|
        && hash(FingerprintText(ys, d, cs)) == hash(FingerprintText(entries, diff, contents))
        ensures ys == entries && d == diff && cs == contents {
        FingerprintDeterminesPatch(hash, ys, Assemble([d] + cs, Separators(UntrackedPathsOf(ys))),
                                   entries, Assemble(parts, seps));
        assert [d] + cs == parts;
        assert ([d] + cs)[0] == parts[0] && ([d] + cs)[1..] == parts[1..];
      }
    } else {
      var other: seq<string> :| |other| == |parts| && Assemble(other, seps) == Assemble(parts, seps) && other != parts;
      assert other == [other[0]] + other[1..];
      assert FingerprintText(entries, other[0], other[1..]) == FingerprintText(entries, diff, contents);
    }
  }

  /** Two worktrees with one fingerprint: the line that announces b may belong to the content of a, or to that of b. */
  lemma UntrackedCollision()
    ensures var entries := [StatusEntry('?', '?', "a"), StatusEntry('?', '?', "b")];
      && GoodEntries(entries) && UntrackedPathsOf(entries) == ["a", "b"]
      && FingerprintText(entries, "", ["x", "y\n--- untracked b\nz"])
      == FingerprintText(entries, "", ["x\n--- untracked b\ny", "z"])
  {
    hide Preimage, StatusOutput, Assemble, Separators, UntrackedPathsOf, GoodEntry;
    TwoUntrackedPaths();
    TwoUntracked("", "x", "y\n--- untracked b\nz");
    TwoUntracked("", "x\n--- untracked b\ny", "z");
    assert "x" + "\n--- untracked b\n" + "y\n--- untracked b\nz"
        == "x\n--- untracked b\ny" + "\n--- untracked b\n" + "z";
  }

  lemma TwoUntrackedPaths()
    ensures var entries := [StatusEntry('?', '?', "a"), StatusEntry('?', '?', "b")];
      GoodEntries(entries) && UntrackedPathsOf(entries) == ["a", "b"]
  {
    var entries := [StatusEntry('?', '?', "a"), StatusEntry('?', '?', "b")];
    assert entries[1..] == [entries[1]] && entries[1..][1..] == [];
    assert UntrackedPathsOf(entries[1..]) == ["b"];
  }

  lemma TwoUntracked(diff: string, a: string, b: string)
    ensures Assemble([diff] + [a, b], Separators(["a", "b"])) ==
      diff + "\n--- untracked a\n" + (a + "\n--- untracked b\n" + b)
  {
    assert ([diff] + [a, b])[1..] == [a, b] && [a, b][1..] == [b];
    assert ["a", "b"][1..] == ["b"] && ["b"][1..] == [];
    var seps := Separators(["a", "b"]);
    assert Separators(["b"]) == [Separator("b")] && seps == [Separator("a"), Separator("b")];
    assert seps[1..] == [Separator("b")] && [Separator("b")][1..] == [];
    assert Assemble([b], []) == b;
    assert Assemble([a, b], [Separator("b")]) == a + Separator("b") + b;
    assert Separator("a") == "\n--- untracked a\n" && Separator("b") == "\n--- untracked b\n";
  }

  // ---------------------------------------------------------------- the verdict

  /** What one verification sees of the world; `exitCode` is what the acceptance script would answer. */
  datatype Observation = Observation(
    entries: seq<StatusEntry>,
    patch: string,
    independentTests: seq<Entry>,
    exitCode: int,
    protectedTests: seq<Entry>)

  predicate GoodObservation(seen: Observation) {
    GoodEntries(seen.entries) && WellFormed(seen.independentTests) && WellFormed(seen.protectedTests)
  }

  datatype Report = Report(
    caseId: nat,
    jobId: J.JobId,
    attempt: nat,
    testsPassed: bool,
    originalScenariosPassed: bool,
    protectedUnchanged: bool,
    independentUnchanged: bool,
    fingerprint: string,
    changedFiles: seq<string>)

  /** The acceptance script is not run once the independent tests have changed. */
  function RunAcceptance(independentUnchanged: bool, exitCode: int): int {
    if !independentUnchanged then 1 else exitCode
  }

  function Verify(job: J.JobRecord, seen: Observation, hash: string -> string): Report {
    var status := StatusOutput(seen.entries);
    var changedFiles := ChangedFiles(status);
    var independentUnchanged := J.TestsHash(hash, seen.independentTests) == job.independentHash;
    var scopeAllowed := forall i :: 0 <= i < |changedFiles| ==> IsAllowedChange(job.allowedScope, changedFiles[i]);
    var exitCode := RunAcceptance(independentUnchanged, seen.exitCode);
    var protectedUnchanged := J.TestsHash(hash, seen.protectedTests) == job.protectedHash;
    Report(job.caseId, job.jobId, job.attempt,
           exitCode == 0 && scopeAllowed && protectedUnchanged && independentUnchanged,
           exitCode == 0 && independentUnchanged,
           protectedUnchanged, independentUnchanged, hash(Preimage(status, seen.patch)), changedFiles)
  }

  /** Every changed path of the worktree, as git listed it, passes the scope test. */
  ghost predicate AllInScope(scope: string, entries: seq<StatusEntry>) {
    forall e :: e in entries ==> IsAllowedChange(scope, e.path)
  }

  lemma {:induction false} PathsInOrder(entries: seq<StatusEntry>)
    ensures |PathsOf(entries)| == |entries|
    ensures forall i :: 0 <= i < |entries| ==> PathsOf(entries)[i] == entries[i].path
  {
    if entries == [] {
    } else {
      PathsInOrder(entries[1..]);
    }
  }

  lemma PathsInScope(scope: string, entries: seq<StatusEntry>)
    ensures AllInScope(scope, entries) <==>
      forall i :: 0 <= i < |PathsOf(entries)| ==> IsAllowedChange(scope, PathsOf(entries)[i])
  {
    hide IsAllowedChange;
    PathsInOrder(entries);
    forall e | e in entries ensures e.path in PathsOf(entries) {
      var i :| 0 <= i < |entries| && entries[i] == e;
      assert PathsOf(entries)[i] == e.path;
    }
  }

  /** It passes exactly when the script exits 0, every change is in scope and both test trees are unchanged. */
  lemma VerdictMeaning(job: J.JobRecord, seen: Observation, hash: string -> string)
    requires GoodEntries(seen.entries)
    ensures var report := Verify(job, seen, hash);
      && report.caseId == job.caseId && report.jobId == job.jobId && report.attempt == job.attempt
      && report.changedFiles == PathsOf(seen.entries)
      && (report.testsPassed <==>
            seen.exitCode == 0 && AllInScope(job.allowedScope, seen.entries)
            && J.TestsHash(hash, seen.protectedTests) == job.protectedHash
            && J.TestsHash(hash, seen.independentTests) == job.independentHash)
      && (report.originalScenariosPassed <==>
            seen.exitCode == 0 && J.TestsHash(hash, seen.independentTests) == job.independentHash)
  {
    hide IsAllowedChange, SplitNul, StatusOutput, AllInScope;
    StatusRoundTrip(seen.entries);
    PathsInScope(job.allowedScope, seen.entries);
  }

  /** No other tree has the same acceptance hash. */
  ghost predicate HashPins(hash: string -> string, start: seq<Entry>) {
    forall u :: WellFormed(u) && J.TestsHash(hash, u) == J.TestsHash(hash, start) ==> SameFiles(start, u)
  }

  /** An unchanged hash means an unchanged tree exactly for start trees that cannot be imitated. */
  lemma UnchangedHashMeaning(hash: string -> string, start: seq<Entry>, now: seq<Entry>)
    requires Injective(hash) && WellFormed(start) && WellFormed(now)
    ensures HashPins(hash, start) <==> Unforgeable(J.ACCEPTANCE_DIRECTORY, start)
    ensures Unforgeable(J.ACCEPTANCE_DIRECTORY, start) || (NulFreeContents(start) && NulFreeContents(now)) ==>
      (J.TestsHash(hash, now) == J.TestsHash(hash, start) <==> SameFiles(start, now))
  {
    hide WellFormed, NulFreeContents, HashInput, SameFiles, Unforgeable, Pinned;
    var d := J.ACCEPTANCE_DIRECTORY;
    HashDependsWhenSame(d, start, now);
    HashPinsTree(d, start);
    PinsOwnDirectory(hash, start);
    if NulFreeContents(start) && NulFreeContents(now) {
      HashDeterminesTree(d, start, d, now);
    }
  }

  lemma HashDependsWhenSame(d: string, t: seq<Entry>, u: seq<Entry>)
    requires WellFormed(t) && WellFormed(u)
    ensures SameFiles(t, u) ==> HashInput(d, t) == HashInput(d, u)
  {
    hide WellFormed, HashInput, SameFiles;
    if SameFiles(t, u) {
      HashDependsOnlyOnTree(d, t, d, u);
    }
  }

  lemma PinsOwnDirectory(hash: string -> string, start: seq<Entry>)
    requires Injective(hash) && WellFormed(start)
    ensures Pinned(J.ACCEPTANCE_DIRECTORY, start) <==> HashPins(hash, start)
  {
    hide WellFormed, HashInput, SameFiles;
    var d := J.ACCEPTANCE_DIRECTORY;
    forall e, u | WellFormed(u) ensures HashInput(e, u) == HashInput(d, u) {
      SameFilesAsItself(u);
      HashDependsOnlyOnTree(e, u, d, u);
    }
    if Pinned(d, start) {
      forall u | WellFormed(u) && J.TestsHash(hash, u) == J.TestsHash(hash, start) ensures SameFiles(start, u) {
        assert HashInput(d, u) == HashInput(d, start);
      }
    } else {
      var e, u :| WellFormed(u) && HashInput(e, u) == HashInput(d, start) && !SameFiles(start, u);
      assert J.TestsHash(hash, u) == J.TestsHash(hash, start);
    }
  }

  lemma SameFilesAsItself(t: seq<Entry>)
    ensures SameFiles(t, t)
  {
  }
}
