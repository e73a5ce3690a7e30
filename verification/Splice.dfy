/**
 The collect-then-splice passes of rename-to-esm-files.js: replacements are collected
 left to right and then spliced in from right to left, against replacing all spans at once.
 */
module Splice {
  import opened Prelude

  datatype Replacement = Replacement(start: nat, end: nat, text: string)

  /** A regex match; `resolved` is the replacement text when the import could be resolved. */
  datatype Match = Match(start: nat, end: nat, hasExtension: bool, resolved: Option<string>)

  predicate Disjoint(rs: seq<Replacement>, n: nat) {
    && (forall i :: 0 <= i < |rs| ==> rs[i].start <= rs[i].end <= n)
    && (forall i, j :: 0 <= i < j < |rs| ==> rs[i].end <= rs[j].start)
  }

  predicate DisjointMatches(ms: seq<Match>, n: nat) {
    && (forall i :: 0 <= i < |ms| ==> ms[i].start <= ms[i].end <= n)
    && (forall i, j :: 0 <= i < j < |ms| ==> ms[i].end <= ms[j].start)
  }

  predicate Kept(m: Match) {
    !m.hasExtension && m.resolved.Some?
  }

  function Replacements(ms: seq<Match>): seq<Replacement> {
    if ms == [] then []
    else
      var m := ms[|ms| - 1];
      Replacements(ms[..|ms| - 1]) + if Kept(m) then [Replacement(m.start, m.end, m.resolved.value)] else []
  }

  /** The text from `from` on, with all spans replaced at once. */
  function Replaced(text: string, rs: seq<Replacement>, from: nat): string
    requires Disjoint(rs, |text|) && from <= |text| && (rs != [] ==> from <= rs[0].start)
    decreases |rs|
  {
    if rs == [] then text[from..]
    else
      text[from..rs[0].start] + rs[0].text + Replaced(text, rs[1..], rs[0].end)
  }

  // ---------------------------------------------------------------- the loops

  lemma {:induction false} ReplacementsDisjoint(ms: seq<Match>, n: nat)
    requires DisjointMatches(ms, n)
    ensures Disjoint(Replacements(ms), n)
    ensures ms != [] ==> forall r :: r in Replacements(ms) ==> r.end <= ms[|ms| - 1].end
  {
    if ms == [] {
    } else {
      var init := ms[..|ms| - 1];
      ReplacementsDisjoint(init, n);
    }
  }

  /** The replacements are the spans and texts of the matches found at `at`. */
  predicate Selected(ms: seq<Match>, rs: seq<Replacement>, at: seq<nat>) {
    && |at| == |rs|
    && (forall i, j :: 0 <= i < j < |at| ==> at[i] < at[j])
    && forall i :: 0 <= i < |at| ==>
         && at[i] < |ms|
         && rs[i].start == ms[at[i]].start && rs[i].end == ms[at[i]].end
         && ms[at[i]].resolved == Some(rs[i].text)
  }

  /** In order, exactly the matches without an extension whose import was resolved are replaced. */
  lemma {:induction false} ReplacedMatches(ms: seq<Match>) returns (at: seq<nat>)
    ensures Selected(ms, Replacements(ms), at)
    ensures forall k :: 0 <= k < |ms| ==> (k in at <==> !ms[k].hasExtension && ms[k].resolved.Some?)
  {
    if ms == [] {
      at := [];
    } else {
      var init, m := ms[..|ms| - 1], ms[|ms| - 1];
      var before := ReplacedMatches(init);
      assert forall i :: 0 <= i < |before| ==> before[i] < |init| && ms[before[i]] == init[before[i]];
      at := before + if Kept(m) then [|init|] else [];
      forall k | 0 <= k < |ms| ensures k in at <==> !ms[k].hasExtension && ms[k].resolved.Some? {
        assert k < |init| ==> ms[k] == init[k];
      }
    }
  }

  method Collect(ms: seq<Match>) returns (rs: seq<Replacement>)
    ensures rs == Replacements(ms)
  {
    rs := [];
    var i := 0;
    while i < |ms|
      invariant i <= |ms| && rs == Replacements(ms[..i])
    {
      var m := ms[i];
      assert ms[..i + 1][..i] == ms[..i];
      i := i + 1;
      if m.hasExtension { continue; }
      if m.resolved.Some? {
        rs := rs + [Replacement(m.start, m.end, m.resolved.value)];
      }
    }
    assert ms[..i] == ms;
  }

  function EndBefore(rs: seq<Replacement>, k: nat): nat
    requires k <= |rs|
  {
    if k == 0 then 0 else rs[k - 1].end
  }

  lemma SuffixDisjoint(rs: seq<Replacement>, k: nat, n: nat)
    requires Disjoint(rs, n) && k <= |rs|
    ensures Disjoint(rs[k..], n) && EndBefore(rs, k) <= n
    ensures k < |rs| ==> EndBefore(rs, k) <= rs[k].start <= rs[k].end <= n && rs[k..][0] == rs[k]
  {
  }

  /** The text with the replacements from the k-th on spliced in. */
  function Half(text: string, rs: seq<Replacement>, k: nat): string
    requires Disjoint(rs, |text|) && k <= |rs|
  {
    SuffixDisjoint(rs, k, |text|);
    text[..EndBefore(rs, k)] + Replaced(text, rs[k..], EndBefore(rs, k))
  }

  lemma SpliceStep(text: string, rs: seq<Replacement>, k: nat)
    requires Disjoint(rs, |text|) && 0 < k <= |rs|
    ensures var r := rs[k - 1];
      && r.start <= r.end <= |Half(text, rs, k)|
      && Half(text, rs, k)[..r.start] + r.text + Half(text, rs, k)[r.end..] == Half(text, rs, k - 1)
  {
    var r, from := rs[k - 1], EndBefore(rs, k - 1);
    SuffixDisjoint(rs, k, |text|);
    SuffixDisjoint(rs, k - 1, |text|);
    assert rs[k - 1..][1..] == rs[k..];
    var tail := Replaced(text, rs[k..], r.end);
    assert Replaced(text, rs[k - 1..], from) == text[from..r.start] + r.text + tail;
    hide Replaced, Disjoint;
    CutAndPaste(text, from, r.start, r.end, r.text, tail);
  }

  lemma CutAndPaste(text: string, from: nat, start: nat, end: nat, insert: string, tail: string)
    requires from <= start <= end <= |text|
    ensures (text[..end] + tail)[..start] + insert + (text[..end] + tail)[end..]
         == text[..from] + (text[from..start] + insert + tail)
  {
    assert (text[..end] + tail)[end..] == tail;
    assert (text[..end] + tail)[..start] == text[..from] + text[from..start];
  }

  /** for (const { start, end, replacement } of replacements.reverse()) ... */
  method SpliceAll(text: string, rs: seq<Replacement>) returns (spliced: string)
    requires Disjoint(rs, |text|)
    ensures spliced == Replaced(text, rs, 0)
  {
    spliced := text;
    var k: nat := |rs|;
    HalfEnds(text, rs);
    hide Replaced, Disjoint, Half;
    while k > 0
      invariant k <= |rs| && spliced == Half(text, rs, k)
    {
      SpliceStep(text, rs, k);
      var r := rs[k - 1];
      spliced := spliced[..r.start] + r.text + spliced[r.end..];
      k := k - 1;
    }
  }

  lemma HalfEnds(text: string, rs: seq<Replacement>)
    requires Disjoint(rs, |text|)
    ensures Half(text, rs, |rs|) == text && Half(text, rs, 0) == Replaced(text, rs, 0)
  {
    assert rs[0..] == rs && text[..0] == "";
  }

  /** One pass: collect, then splice. */
  function Pass(text: string, ms: seq<Match>): string
    requires DisjointMatches(ms, |text|)
  {
    ReplacementsDisjoint(ms, |text|);
    Replaced(text, Replacements(ms), 0)
  }

  /**
   updateFileContents on a file's text. `rename` is what the extension loop makes of it; the two extensionless
   passes each match the text as it then is.
   */
  method UpdateContents(content: string, rename: string -> string, findStatic: string -> seq<Match>,
                        findDynamic: string -> seq<Match>)
    returns (newContent: string, changed: bool)
    requires forall s :: DisjointMatches(findStatic(s), |s|) && DisjointMatches(findDynamic(s), |s|)
    ensures var renamed := rename(content); var afterStatic := Pass(renamed, findStatic(renamed));
      newContent == Pass(afterStatic, findDynamic(afterStatic))
    ensures changed <==> newContent != content
  {
    newContent := rename(content);
    var statics := Collect(findStatic(newContent));
    ReplacementsDisjoint(findStatic(newContent), |newContent|);
    newContent := SpliceAll(newContent, statics);
    var dynamics := Collect(findDynamic(newContent));
    ReplacementsDisjoint(findDynamic(newContent), |newContent|);
    newContent := SpliceAll(newContent, dynamics);
    changed := content != newContent;
  }

  // ---------------------------------------------------------------- where every character ends up

  /** How far the replacements that end at or before `i` move it. */
  function Shift(rs: seq<Replacement>, i: nat): int {
    if rs == [] then 0
    else
      (if rs[0].end <= i then |rs[0].text| - (rs[0].end - rs[0].start) else 0) + Shift(rs[1..], i)
  }

  predicate Outside(rs: seq<Replacement>, i: nat) {
    forall k :: 0 <= k < |rs| ==> i < rs[k].start || rs[k].end <= i
  }

  lemma {:induction false} ShiftBeforeAll(rs: seq<Replacement>, n: nat, i: nat)
    requires Disjoint(rs, n) && (rs != [] ==> i < rs[0].end)
    ensures Shift(rs, i) == 0
  {
    if |rs| <= 1 {
    } else {
      assert rs[1..][0] == rs[1];
      ShiftBeforeAll(rs[1..], n, i);
    }
  }

  lemma Beyond(head: string, tail: string, at: nat, n: nat)
    requires at + n <= |tail|
    ensures (head + tail)[|head| + at..|head| + at + n] == tail[at..at + n]
    ensures n > 0 ==> (head + tail)[|head| + at] == tail[at]
  {
  }

  lemma FirstSpan(text: string, rs: seq<Replacement>, from: nat)
    requires Disjoint(rs, |text|) && from <= |text| && rs != [] && from <= rs[0].start
    ensures rs[0].start <= rs[0].end <= |text| && Disjoint(rs[1..], |text|)
    ensures |rs| > 1 ==> rs[0].end <= rs[1..][0].start
    ensures Replaced(text, rs, from)
         == text[from..rs[0].start] + rs[0].text + Replaced(text, rs[1..], rs[0].end)
  {
  }

  lemma OutsideTheRest(rs: seq<Replacement>, i: nat)
    requires rs != [] && Outside(rs, i)
    ensures i < rs[0].start || rs[0].end <= i
    ensures Outside(rs[1..], i)
  {
    forall k | 0 <= k < |rs[1..]| ensures i < rs[1..][k].start || rs[1..][k].end <= i {
      assert rs[1..][k] == rs[k + 1];
    }
  }

  /** A character outside the spans is kept, moved by the length changes before it. */
  lemma {:induction false} OutsideIsKept(text: string, rs: seq<Replacement>, from: nat, i: nat)
    requires Disjoint(rs, |text|) && from <= i < |text| && (rs != [] ==> from <= rs[0].start) && Outside(rs, i)
    ensures 0 <= i - from + Shift(rs, i) < |Replaced(text, rs, from)|
    ensures Replaced(text, rs, from)[i - from + Shift(rs, i)] == text[i]
    decreases |rs|
  {
    if rs == [] {
    } else {
      hide Disjoint, Outside, Replaced;
      FirstSpan(text, rs, from);
      OutsideTheRest(rs, i);
      if i < rs[0].start {
        ShiftBeforeAll(rs, |text|, i);
      } else {
        OutsideIsKept(text, rs[1..], rs[0].end, i);
        var head, tail := text[from..rs[0].start] + rs[0].text, Replaced(text, rs[1..], rs[0].end);
        Beyond(head, tail, i - rs[0].end + Shift(rs[1..], i), 1);
      }
    }
  }

  /** Where the k-th replacement starts in the result. */
  function PlaceOf(rs: seq<Replacement>, from: nat, k: nat): int
    requires k < |rs|
  {
    rs[k].start - from + Shift(rs[..k], rs[k].start)
  }

  lemma PlaceOfLater(rs: seq<Replacement>, n: nat, from: nat, k: nat)
    requires Disjoint(rs, n) && 0 < k < |rs|
    ensures PlaceOf(rs, from, k) == rs[0].start - from + |rs[0].text| + PlaceOf(rs[1..], rs[0].end, k - 1)
  {
    assert rs[1..][k - 1] == rs[k] && rs[..k][1..] == rs[1..][..k - 1];
  }

  lemma FirstIsPlaced(text: string, rs: seq<Replacement>, from: nat)
    requires Disjoint(rs, |text|) && from <= |text| && rs != [] && from <= rs[0].start
    ensures var at, tail := PlaceOf(rs, from, 0), Replaced(text, rs[1..], rs[0].end);
      && at == rs[0].start - from
      && Replaced(text, rs, from) == text[from..rs[0].start] + rs[0].text + tail
  {
    assert rs[..0] == [];
  }

  /** Every replacement text appears whole where its span was. */
  lemma {:induction false} ReplacementIsPlaced(text: string, rs: seq<Replacement>, from: nat, k: nat)
    requires Disjoint(rs, |text|) && from <= |text| && (rs != [] ==> from <= rs[0].start) && k < |rs|
    ensures var at := PlaceOf(rs, from, k);
      && 0 <= at <= at + |rs[k].text| <= |Replaced(text, rs, from)|
      && Replaced(text, rs, from)[at..at + |rs[k].text|] == rs[k].text
    decreases |rs|
  {
    hide Replaced, PlaceOf;
    FirstIsPlaced(text, rs, from);
    var head, tail := text[from..rs[0].start] + rs[0].text, Replaced(text, rs[1..], rs[0].end);
    if k == 0 {
      assert head[rs[0].start - from..] == rs[0].text;
      Within(head, tail, rs[0].start - from);
    } else {
      ReplacementIsPlaced(text, rs[1..], rs[0].end, k - 1);
      PlaceOfLater(rs, |text|, from, k);
      Beyond(head, tail, PlaceOf(rs[1..], rs[0].end, k - 1), |rs[k].text|);
    }
  }

  lemma Within(head: string, tail: string, at: nat)
    requires at <= |head|
    ensures (head + tail)[at..|head|] == head[at..]
  {
  }

  /** Nothing else is added or lost. */
  lemma {:induction false} ReplacedLength(text: string, rs: seq<Replacement>, from: nat)
    requires Disjoint(rs, |text|) && from <= |text| && (rs != [] ==> from <= rs[0].start)
    ensures |Replaced(text, rs, from)| == |text| - from + Shift(rs, |text|)
    decreases |rs|
  {
    if rs == [] {
    } else {
      ReplacedLength(text, rs[1..], rs[0].end);
    }
  }

  /** Characters outside the spans keep their order. */
  lemma OutsideKeepsOrder(text: string, rs: seq<Replacement>, i: nat, j: nat)
    requires Disjoint(rs, |text|) && i < j < |text| && Outside(rs, i) && Outside(rs, j)
    ensures i + Shift(rs, i) < j + Shift(rs, j)
  {
    ShiftGrowth(text, rs, 0, i, j);
  }

  lemma {:induction false} ShiftGrowth(text: string, rs: seq<Replacement>, from: nat, i: nat, j: nat)
    requires Disjoint(rs, |text|) && from <= i < j < |text| && (rs != [] ==> from <= rs[0].start)
    requires Outside(rs, i) && Outside(rs, j)
    ensures i + Shift(rs, i) < j + Shift(rs, j)
    decreases |rs|
  {
    if rs == [] {
    } else {
      var r, rest := rs[0], rs[1..];
      assert forall k :: 0 <= k < |rest| ==> rest[k] == rs[k + 1];
      if r.end <= i {
        ShiftGrowth(text, rest, r.end, i, j);
      } else {
        ShiftBeforeAll(rs, |text|, i);
        if r.end <= j {
          OutsideIsKept(text, rest, r.end, j);
        } else {
          ShiftBeforeAll(rs, |text|, j);
        }
      }
    }
  }
}
