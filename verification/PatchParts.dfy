/**
 Texts put together from parts with given separators between them, and when the parts can be read back
 from the text alone.
 */
module PatchParts {
  import opened Prelude

  /** parts[0] + seps[0] + parts[1] + ... */
  function Assemble(parts: seq<string>, seps: seq<string>): string
    requires |parts| == |seps| + 1
  {
    if seps == [] then parts[0] else parts[0] + seps[0] + Assemble(parts[1..], seps[1..])
  }

  /** No other parts assemble to the same text. */
  ghost predicate PartsPinned(parts: seq<string>, seps: seq<string>)
    requires |parts| == |seps| + 1
  {
    forall other: seq<string> :: |other| == |parts| && Assemble(other, seps) == Assemble(parts, seps) ==> other == parts
  }

  // ---------------------------------------------------------------- cutting a text at its separators

  predicate OccursAt(text: string, sep: string, i: nat) {
    i + |sep| <= |text| && text[i..i + |sep|] == sep
  }

  /** The separators occur in order, without overlap and from `from` on, at the positions `at`. */
  predicate CutsAt(text: string, seps: seq<string>, from: nat, at: seq<nat>) {
    && |at| == |seps| && from <= |text|
    && (seps == []
        || (from <= at[0] && OccursAt(text, seps[0], at[0]) && CutsAt(text, seps[1..], at[0] + |seps[0]|, at[1..])))
  }

  function PartsAt(text: string, seps: seq<string>, from: nat, at: seq<nat>): (parts: seq<string>)
    requires CutsAt(text, seps, from, at)
    ensures |parts| == |seps| + 1
  {
    if seps == [] then [text[from..]]
    else [text[from..at[0]]] + PartsAt(text, seps[1..], at[0] + |seps[0]|, at[1..])
  }

  /** Where the separators stand when the parts are laid out from `from` on. */
  function CutsOf(parts: seq<string>, seps: seq<string>, from: nat): (at: seq<nat>)
    requires |parts| == |seps| + 1
    ensures |at| == |seps|
  {
    if seps == [] then []
    else [from + |parts[0]|] + CutsOf(parts[1..], seps[1..], from + |parts[0]| + |seps[0]|)
  }

  lemma {:induction false} PartsAreCut(text: string, parts: seq<string>, seps: seq<string>, from: nat)
    requires |parts| == |seps| + 1 && from <= |text| && text[from..] == Assemble(parts, seps)
    ensures CutsAt(text, seps, from, CutsOf(parts, seps, from))
    ensures PartsAt(text, seps, from, CutsOf(parts, seps, from)) == parts
  {
    if seps == [] {
    } else {
      var cut, rest := from + |parts[0]|, Assemble(parts[1..], seps[1..]);
      Halves(text, from, parts[0], seps[0], rest);
      PartsAreCut(text, parts[1..], seps[1..], cut + |seps[0]|);
      assert CutsOf(parts, seps, from)[1..] == CutsOf(parts[1..], seps[1..], cut + |seps[0]|);
    }
  }

  lemma Halves(text: string, from: nat, part: string, sep: string, rest: string)
    requires from <= |text| && text[from..] == part + sep + rest
    ensures var cut := from + |part|;
      OccursAt(text, sep, cut) && text[from..cut] == part && text[cut + |sep|..] == rest
  {
    var tail, cut := text[from..], from + |part|;
    assert |tail| == |part| + |sep| + |rest|;
    assert tail[..|part|] == part && tail[|part|..|part| + |sep|] == sep && tail[|part| + |sep|..] == rest;
    assert text[from..cut] == tail[..|part|] && text[cut..cut + |sep|] == tail[|part|..|part| + |sep|];
    assert text[cut + |sep|..] == tail[|part| + |sep|..];
  }

  lemma {:induction false} CutsAssemble(text: string, seps: seq<string>, from: nat, at: seq<nat>)
    requires CutsAt(text, seps, from, at)
    ensures Assemble(PartsAt(text, seps, from, at), seps) == text[from..]
    ensures CutsOf(PartsAt(text, seps, from, at), seps, from) == at
  {
    if seps == [] {
    } else {
      var next := at[0] + |seps[0]|;
      CutsAssemble(text, seps[1..], next, at[1..]);
      var parts := PartsAt(text, seps, from, at);
      assert parts[1..] == PartsAt(text, seps[1..], next, at[1..]);
      assert text[from..] == text[from..at[0]] + text[at[0]..next] + text[next..];
      assert at == [at[0]] + at[1..];
    }
  }

  // ---------------------------------------------------------------- the leftmost cut, and any other

  function First(text: string, sep: string, from: nat): (i: Option<nat>)
    ensures i.Some? ==> from <= i.value && OccursAt(text, sep, i.value)
    ensures forall k: nat :: from <= k && OccursAt(text, sep, k) ==> i.Some? && i.value <= k
    decreases |text| - from
  {
    if from + |sep| > |text| then None
    else if text[from..from + |sep|] == sep then Some(from)
    else First(text, sep, from + 1)
  }

  function Leftmost(text: string, seps: seq<string>, from: nat): (at: Option<seq<nat>>)
    ensures at.Some? ==> |at.value| == |seps|
  {
    if seps == [] then if from <= |text| then Some([]) else None
    else
      var i := First(text, seps[0], from);
      if i.None? then None
      else
        var rest := Leftmost(text, seps[1..], i.value + |seps[0]|);
        if rest.None? then None else Some([i.value] + rest.value)
  }

  /** The first separator also occurs after `i`, with room for the later ones behind it. */
  predicate CutsLater(text: string, seps: seq<string>, i: nat)
    requires seps != []
  {
    exists k :: i < k <= |text| && OccursAt(text, seps[0], k) && Leftmost(text, seps[1..], k + |seps[0]|).Some?
  }

  /** That holds for some separator at its leftmost place. */
  predicate Ambiguous(text: string, seps: seq<string>, from: nat) {
    seps != [] && First(text, seps[0], from).Some? &&
    var i := First(text, seps[0], from).value;
    CutsLater(text, seps, i) || Ambiguous(text, seps[1..], i + |seps[0]|)
  }

  lemma {:induction false} LeftmostCuts(text: string, seps: seq<string>, from: nat)
    requires Leftmost(text, seps, from).Some?
    ensures CutsAt(text, seps, from, Leftmost(text, seps, from).value)
  {
    if seps == [] {
    } else {
      var i, at := First(text, seps[0], from), Leftmost(text, seps, from).value;
      LeftmostCuts(text, seps[1..], i.value + |seps[0]|);
      assert at[1..] == Leftmost(text, seps[1..], i.value + |seps[0]|).value;
    }
  }

  lemma CutsEarlier(text: string, seps: seq<string>, from: nat, earlier: nat, at: seq<nat>)
    requires CutsAt(text, seps, from, at) && earlier <= from
    ensures CutsAt(text, seps, earlier, at)
  {
  }

  lemma {:induction false} LeftmostExists(text: string, seps: seq<string>, from: nat, at: seq<nat>)
    requires CutsAt(text, seps, from, at)
    ensures Leftmost(text, seps, from).Some?
  {
    if seps == [] {
    } else {
      var i := First(text, seps[0], from).value;
      CutsEarlier(text, seps[1..], at[0] + |seps[0]|, i + |seps[0]|, at[1..]);
      LeftmostExists(text, seps[1..], i + |seps[0]|, at[1..]);
    }
  }

  lemma {:induction false} OnlyOneCut(text: string, seps: seq<string>, from: nat, at: seq<nat>)
    requires CutsAt(text, seps, from, at) && !Ambiguous(text, seps, from)
    ensures Leftmost(text, seps, from) == Some(at)
  {
    hide OccursAt, First, CutsLater;
    if seps == [] {
    } else {
      NotLater(text, seps, from, at);
      OnlyOneCut(text, seps[1..], at[0] + |seps[0]|, at[1..]);
      assert at == [at[0]] + at[1..];
    }
  }

  lemma NotLater(text: string, seps: seq<string>, from: nat, at: seq<nat>)
    requires seps != [] && CutsAt(text, seps, from, at) && !Ambiguous(text, seps, from)
    ensures First(text, seps[0], from) == Some(at[0])
  {
    hide Leftmost;
    LeftmostExists(text, seps[1..], at[0] + |seps[0]|, at[1..]);
    var i := First(text, seps[0], from).value;
    assert !CutsLater(text, seps, i);
  }

  lemma {:induction false} AnotherCut(text: string, seps: seq<string>, from: nat) returns (at: seq<nat>)
    requires Leftmost(text, seps, from).Some? && Ambiguous(text, seps, from)
    ensures CutsAt(text, seps, from, at) && Leftmost(text, seps, from) != Some(at)
  {
    hide OccursAt, First, CutsLater;
    var i := First(text, seps[0], from).value;
    if Ambiguous(text, seps[1..], i + |seps[0]|) {
      var rest := AnotherCut(text, seps[1..], i + |seps[0]|);
      at := [i] + rest;
      assert at[1..] == rest;
    } else {
      at := LaterCut(text, seps, from, i);
    }
  }

  lemma LaterCut(text: string, seps: seq<string>, from: nat, i: nat) returns (at: seq<nat>)
    requires seps != [] && from <= i && CutsLater(text, seps, i)
    ensures CutsAt(text, seps, from, at) && at[0] > i
  {
    var k: nat :| i < k <= |text| && OccursAt(text, seps[0], k) && Leftmost(text, seps[1..], k + |seps[0]|).Some?;
    LaterCutAt(text, seps, from, k);
    at := [k] + Leftmost(text, seps[1..], k + |seps[0]|).value;
  }

  lemma LaterCutAt(text: string, seps: seq<string>, from: nat, k: nat)
    requires seps != [] && from <= k && OccursAt(text, seps[0], k) && Leftmost(text, seps[1..], k + |seps[0]|).Some?
    ensures CutsAt(text, seps, from, [k] + Leftmost(text, seps[1..], k + |seps[0]|).value)
  {
    hide Leftmost;
    LeftmostCuts(text, seps[1..], k + |seps[0]|);
    var rest := Leftmost(text, seps[1..], k + |seps[0]|).value;
    assert ([k] + rest)[1..] == rest;
  }

  /** The parts can be read back exactly when the text is unambiguous. */
  lemma PinnedMeansUnambiguous(parts: seq<string>, seps: seq<string>)
    requires |parts| == |seps| + 1
    ensures PartsPinned(parts, seps) <==> !Ambiguous(Assemble(parts, seps), seps, 0)
  {
    hide Assemble, CutsAt, PartsAt, CutsOf, Leftmost, Ambiguous;
    var text := Assemble(parts, seps);
    assert text[0..] == text;
    PartsAreCut(text, parts, seps, 0);
    var own := CutsOf(parts, seps, 0);
    if !Ambiguous(text, seps, 0) {
      OnlyOneCut(text, seps, 0, own);
      forall other: seq<string> | |other| == |parts| && Assemble(other, seps) == text ensures other == parts {
        PartsAreCut(text, other, seps, 0);
        OnlyOneCut(text, seps, 0, CutsOf(other, seps, 0));
      }
    } else {
      LeftmostExists(text, seps, 0, own);
      LeftmostCuts(text, seps, 0);
      var left := Leftmost(text, seps, 0).value;
      var at := AnotherCut(text, seps, 0);
      CutsAssemble(text, seps, 0, left);
      CutsAssemble(text, seps, 0, at);
      assert Assemble(PartsAt(text, seps, 0, left), seps) == Assemble(PartsAt(text, seps, 0, at), seps) == text;
    }
  }
}
