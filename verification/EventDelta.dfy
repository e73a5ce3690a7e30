/**
 Reassembly of a streamed model message: mergeEventDelta folds `model.message.delta`
 events into the base `model.message` with the same id.
 */
module EventDelta {
  import opened Prelude

  /** A field that is present may still be null, and then overwrites an earlier value with null. */
  datatype Nullable<T> = Null | Of(value: T)

  datatype ToolCall = ToolCall(id: string, name: string, args: string, toolInfo: nat, extra: Option<nat>)

  /** One tool-call piece of a delta; every field but the index may be missing. */
  datatype Fragment = Fragment(
    index: int,
    id: Option<string>,
    name: Option<string>,
    args: Option<string>,
    toolInfo: Option<nat>,
    extra: Option<nat>)

  datatype Delta = Delta(
    id: string,
    content: Option<string>,
    reasoning: Option<string>,
    refusal: Option<Nullable<string>>,
    finishReason: Option<Nullable<nat>>,
    usage: Option<nat>,
    toolCalls: seq<Fragment>)

  datatype Message = Message(
    id: string,
    content: Option<string>,
    reasoning: Option<string>,
    refusal: Option<Nullable<string>>,
    finishReason: Option<Nullable<nat>>,
    usage: Option<nat>,
    toolCalls: Option<seq<ToolCall>>)

  function Or<T>(a: Option<T>, b: Option<T>): Option<T> {
    if a.Some? then a else b
  }

  function Text(t: Option<string>): string {
    if t.Some? then t.value else ""
  }

  // ---------------------------------------------------------------- merging, on values

  /** Non-empty text is appended; missing and empty text is skipped. */
  function AppendText(base: Option<string>, delta: Option<string>): Option<string> {
    if delta.Some? && |delta.value| > 0 then Some(Text(base) + delta.value) else base
  }

  function Extended(call: ToolCall, f: Fragment): ToolCall {
    ToolCall(
      Or(f.id, Some(call.id)).value,
      Or(f.name, Some(call.name)).value,
      call.args + Text(f.args),
      Or(f.toolInfo, Some(call.toolInfo)).value,
      Or(f.extra, call.extra))
  }

  /** A fragment that may open a new tool call. */
  predicate Opens(f: Fragment) {
    f.id.Some? && f.name.Some? && f.toolInfo.Some?
  }

  function Opened(f: Fragment): ToolCall
    requires Opens(f)
  {
    ToolCall(f.id.value, f.name.value, Text(f.args), f.toolInfo.value, f.extra)
  }

  function MergeFragment(calls: seq<ToolCall>, f: Fragment): seq<ToolCall> {
    if 0 <= f.index < |calls| then calls[f.index := Extended(calls[f.index], f)]
    else if f.index == |calls| && Opens(f) then calls + [Opened(f)]
    else calls
  }

  function MergeFragments(calls: seq<ToolCall>, fs: seq<Fragment>): seq<ToolCall> {
    if fs == [] then calls
    else MergeFragment(MergeFragments(calls, fs[..|fs| - 1]), fs[|fs| - 1])
  }

  function MergeDelta(m: Message, d: Delta): Message {
    if m.id != d.id then m
    else
      Message(
        m.id,
        AppendText(m.content, d.content),
        AppendText(m.reasoning, d.reasoning),
        Or(d.refusal, m.refusal),
        Or(d.finishReason, m.finishReason),
        Or(d.usage, m.usage),
        if d.toolCalls == [] then m.toolCalls
        else Some(MergeFragments(if m.toolCalls.Some? then m.toolCalls.value else [], d.toolCalls)))
  }

  function Fold(m: Message, ds: seq<Delta>): Message {
    if ds == [] then m else MergeDelta(Fold(m, ds[..|ds| - 1]), ds[|ds| - 1])
  }

  // ---------------------------------------------------------------- the in-place merge

  class ModelMessage {
    const id: string
    var content: Option<string>
    var reasoning: Option<string>
    var refusal: Option<Nullable<string>>
    var finishReason: Option<Nullable<nat>>
    var usage: Option<nat>
    var toolCalls: Option<seq<ToolCall>>

    constructor (id: string)
      ensures View() == Empty(id)
    {
      this.id := id;
      content, reasoning, refusal, finishReason, usage, toolCalls := None, None, None, None, None, None;
    }

    function View(): Message
      reads this
    {
      Message(id, content, reasoning, refusal, finishReason, usage, toolCalls)
    }

    method MergeToolCallDelta(f: Fragment)
      requires toolCalls.Some?
      modifies this`toolCalls
      ensures toolCalls == Some(MergeFragment(old(toolCalls).value, f))
    {
      var calls := toolCalls.value;
      if 0 <= f.index < |calls| {
        var existing := calls[f.index];
        if f.id.Some? { existing := existing.(id := f.id.value); }
        if f.toolInfo.Some? { existing := existing.(toolInfo := f.toolInfo.value); }
        if f.extra.Some? { existing := existing.(extra := f.extra); }
        if f.name.Some? { existing := existing.(name := f.name.value); }
        if f.args.Some? { existing := existing.(args := existing.args + f.args.value); }
        assert existing == Extended(calls[f.index], f) by {
          assert calls[f.index].args + "" == calls[f.index].args;
        }
        toolCalls := Some(calls[f.index := existing]);
        return;
      }
      if f.index != |calls| { return; }
      if f.id.None? || f.name.None? || f.toolInfo.None? { return; }
      var args := if f.args.Some? then f.args.value else "";
      toolCalls := Some(calls + [ToolCall(f.id.value, f.name.value, args, f.toolInfo.value, f.extra)]);
    }

    method AppendTexts(d: Delta)
      modifies this`content, this`reasoning
      ensures content == AppendText(old(content), d.content)
      ensures reasoning == AppendText(old(reasoning), d.reasoning)
    {
      if d.content.Some? && |d.content.value| > 0 {
        content := Some(Text(content) + d.content.value);
      }
      if d.reasoning.Some? && |d.reasoning.value| > 0 {
        reasoning := Some(Text(reasoning) + d.reasoning.value);
      }
    }

    method MergeEventDelta(d: Delta)
      modifies this
      ensures View() == MergeDelta(old(View()), d)
    {
      hide MergeFragments, AppendText;
      if id != d.id { return; }
      AppendTexts(d);
      if d.refusal.Some? { refusal := d.refusal; }
      if d.finishReason.Some? { finishReason := d.finishReason; }
      if d.usage.Some? { usage := d.usage; }
      if |d.toolCalls| > 0 {
        if toolCalls.None? { toolCalls := Some([]); }
        MergeToolCalls(d.toolCalls);
      }
    }

    method MergeToolCalls(fs: seq<Fragment>)
      requires toolCalls.Some?
      modifies this`toolCalls
      ensures toolCalls == Some(MergeFragments(old(toolCalls).value, fs))
    {
      for i := 0 to |fs|
        invariant toolCalls == Some(MergeFragments(old(toolCalls).value, fs[..i]))
      {
        assert fs[..i + 1][..i] == fs[..i];
        MergeToolCallDelta(fs[i]);
      }
      assert fs[..|fs|] == fs;
    }
  }

  function Empty(id: string): Message {
    Message(id, None, None, None, None, None, None)
  }

  // ---------------------------------------------------------------- what a stream of deltas says

  function AllContent(ds: seq<Delta>): string {
    if ds == [] then "" else AllContent(ds[..|ds| - 1]) + Text(ds[|ds| - 1].content)
  }

  function AllReasoning(ds: seq<Delta>): string {
    if ds == [] then "" else AllReasoning(ds[..|ds| - 1]) + Text(ds[|ds| - 1].reasoning)
  }

  function LastRefusal(ds: seq<Delta>): Option<Nullable<string>> {
    if ds == [] then None else Or(ds[|ds| - 1].refusal, LastRefusal(ds[..|ds| - 1]))
  }

  function LastFinishReason(ds: seq<Delta>): Option<Nullable<nat>> {
    if ds == [] then None else Or(ds[|ds| - 1].finishReason, LastFinishReason(ds[..|ds| - 1]))
  }

  function LastUsage(ds: seq<Delta>): Option<nat> {
    if ds == [] then None else Or(ds[|ds| - 1].usage, LastUsage(ds[..|ds| - 1]))
  }

  function AllFragments(ds: seq<Delta>): seq<Fragment> {
    if ds == [] then [] else AllFragments(ds[..|ds| - 1]) + ds[|ds| - 1].toolCalls
  }

  /** The fragments of one tool call, put together field by field. */
  function Gathered(fs: seq<Fragment>, i: nat): Fragment {
    if fs == [] then Fragment(i, None, None, None, None, None)
    else
      var before, f := Gathered(fs[..|fs| - 1], i), fs[|fs| - 1];
      if f.index == i then Both(before, f) else before
  }

  /** Two consecutive fragments of the same call as one. */
  function Both(f: Fragment, g: Fragment): Fragment {
    Fragment(f.index, Or(g.id, f.id), Or(g.name, f.name),
             if f.args.None? && g.args.None? then None else Some(Text(f.args) + Text(g.args)),
             Or(g.toolInfo, f.toolInfo), Or(g.extra, f.extra))
  }

  function OpenCount(fs: seq<Fragment>): nat {
    if fs == [] then 0
    else
      var n := OpenCount(fs[..|fs| - 1]);
      if fs[|fs| - 1].index == n then n + 1 else n
  }

  /** Tool calls are opened in index order, each by a complete fragment, before they are extended. */
  predicate OpensInOrder(fs: seq<Fragment>) {
    fs == []
    || (OpensInOrder(fs[..|fs| - 1])
        && var n, f := OpenCount(fs[..|fs| - 1]), fs[|fs| - 1];
           0 <= f.index <= n && (f.index == n ==> Opens(f)))
  }

  lemma {:induction false} UnopenedIsBlank(fs: seq<Fragment>, i: nat)
    requires OpensInOrder(fs) && i >= OpenCount(fs)
    ensures Gathered(fs, i) == Fragment(i, None, None, None, None, None)
  {
    if fs == [] {
    } else {
      UnopenedIsBlank(fs[..|fs| - 1], i);
    }
  }

  /** Folding fragments gathers, for every call, exactly its own fragments. */
  lemma {:induction false} FragmentsReassemble(fs: seq<Fragment>)
    requires OpensInOrder(fs)
    ensures |MergeFragments([], fs)| == OpenCount(fs)
    ensures forall i :: 0 <= i < OpenCount(fs) ==>
      Opens(Gathered(fs, i)) && MergeFragments([], fs)[i] == Opened(Gathered(fs, i))
  {
    if fs == [] {
    } else {
      var init, f := fs[..|fs| - 1], fs[|fs| - 1];
      FragmentsReassemble(init);
      UnopenedIsBlank(init, OpenCount(init));
      forall i | 0 <= i < OpenCount(fs)
        ensures Opens(Gathered(fs, i)) && MergeFragments([], fs)[i] == Opened(Gathered(fs, i))
      {
        assert Text(None) + Text(f.args) == Text(f.args);
      }
    }
  }

  lemma {:induction false} FragmentsConcat(calls: seq<ToolCall>, fs: seq<Fragment>, gs: seq<Fragment>)
    ensures MergeFragments(calls, fs + gs) == MergeFragments(MergeFragments(calls, fs), gs)
  {
    if gs == [] {
      assert fs + gs == fs;
    } else {
      assert (fs + gs)[..|fs + gs| - 1] == fs + gs[..|gs| - 1];
      FragmentsConcat(calls, fs, gs[..|gs| - 1]);
    }
  }

  function NonEmpty(text: string): Option<string> {
    if text == "" then None else Some(text)
  }

  /** Folding any deltas of one message, whatever their fragments. */
  lemma {:induction false} FoldGathers(id: string, ds: seq<Delta>)
    requires forall d :: d in ds ==> d.id == id
    ensures Fold(Empty(id), ds) ==
      Message(id, NonEmpty(AllContent(ds)), NonEmpty(AllReasoning(ds)), LastRefusal(ds), LastFinishReason(ds),
              LastUsage(ds),
              if AllFragments(ds) == [] then None else Some(MergeFragments([], AllFragments(ds))))
  {
    if ds == [] {
    } else {
      var init, d := ds[..|ds| - 1], ds[|ds| - 1];
      assert d in ds;
      FoldGathers(id, init);
      FragmentsConcat([], AllFragments(init), d.toolCalls);
      assert AllContent(init) + "" == AllContent(init) && AllReasoning(init) + "" == AllReasoning(init);
    }
  }

  /** `last` is the last of the values that are present. */
  predicate LastPresent<T(==)>(values: seq<Option<T>>, last: Option<T>) {
    if last.None? then forall k :: 0 <= k < |values| ==> values[k].None?
    else exists k :: 0 <= k < |values| && values[k] == last && forall j :: k < j < |values| ==> values[j].None?
  }

  lemma LastPresentSnoc<T>(values: seq<Option<T>>, last: Option<T>, x: Option<T>)
    requires LastPresent(values, last)
    ensures LastPresent(values + [x], Or(x, last))
  {
    var more := values + [x];
    assert forall k :: 0 <= k < |values| ==> more[k] == values[k];
    if x.Some? {
      assert more[|values|] == x;
    } else if last.Some? {
      var k :| 0 <= k < |values| && values[k] == last && forall j :: k < j < |values| ==> values[j].None?;
      assert more[k] == last && forall j :: k < j < |more| ==> more[j].None?;
    }
  }

  function Refusals(ds: seq<Delta>): seq<Option<Nullable<string>>> {
    seq(|ds|, k requires 0 <= k < |ds| => ds[k].refusal)
  }

  function FinishReasons(ds: seq<Delta>): seq<Option<Nullable<nat>>> {
    seq(|ds|, k requires 0 <= k < |ds| => ds[k].finishReason)
  }

  function Usages(ds: seq<Delta>): seq<Option<nat>> {
    seq(|ds|, k requires 0 <= k < |ds| => ds[k].usage)
  }

  /** An overwriting field of the folded message is that of the last delta that has it, null included. */
  lemma {:induction false} LastWins(id: string, ds: seq<Delta>)
    requires forall d :: d in ds ==> d.id == id
    ensures LastPresent(Refusals(ds), Fold(Empty(id), ds).refusal)
    ensures LastPresent(FinishReasons(ds), Fold(Empty(id), ds).finishReason)
    ensures LastPresent(Usages(ds), Fold(Empty(id), ds).usage)
    ensures Fold(Empty(id), ds).id == id
  {
    hide LastPresent, MergeFragments, AppendText, Or;
    if ds == [] {
      NonePresent<Nullable<string>>();
      NonePresent<Nullable<nat>>();
      NonePresent<nat>();
    } else {
      var init, d := ds[..|ds| - 1], ds[|ds| - 1];
      assert d in ds;
      LastWins(id, init);
      var m := Fold(Empty(id), init);
      LastPresentSnoc(Refusals(init), m.refusal, d.refusal);
      LastPresentSnoc(FinishReasons(init), m.finishReason, d.finishReason);
      LastPresentSnoc(Usages(init), m.usage, d.usage);
      assert Refusals(ds) == Refusals(init) + [d.refusal];
      assert FinishReasons(ds) == FinishReasons(init) + [d.finishReason];
      assert Usages(ds) == Usages(init) + [d.usage];
    }
  }

  lemma NonePresent<T>()
    ensures LastPresent<T>([], None)
  {
  }

  /** The fragments that belong to the call at index `i`, in order. */
  function Own(fs: seq<Fragment>, i: nat): seq<Fragment> {
    if fs == [] then []
    else Own(fs[..|fs| - 1], i) + if fs[|fs| - 1].index == i then [fs[|fs| - 1]] else []
  }

  function Names(fs: seq<Fragment>): seq<Option<string>> {
    seq(|fs|, k requires 0 <= k < |fs| => fs[k].name)
  }

  function Ids(fs: seq<Fragment>): seq<Option<string>> {
    seq(|fs|, k requires 0 <= k < |fs| => fs[k].id)
  }

  function ToolInfos(fs: seq<Fragment>): seq<Option<nat>> {
    seq(|fs|, k requires 0 <= k < |fs| => fs[k].toolInfo)
  }

  function Extras(fs: seq<Fragment>): seq<Option<nat>> {
    seq(|fs|, k requires 0 <= k < |fs| => fs[k].extra)
  }

  function Arguments(fs: seq<Fragment>): string {
    if fs == [] then "" else Arguments(fs[..|fs| - 1]) + Text(fs[|fs| - 1].args)
  }

  /** `all` has the last present fields of the fragments `own`, and their arguments joined. */
  predicate PutTogether(all: Fragment, own: seq<Fragment>) {
    && LastPresent(Ids(own), all.id) && LastPresent(Names(own), all.name)
    && LastPresent(ToolInfos(own), all.toolInfo) && LastPresent(Extras(own), all.extra)
    && Text(all.args) == Arguments(own)
  }

  lemma OneMoreFragment(all: Fragment, own: seq<Fragment>, f: Fragment)
    requires PutTogether(all, own)
    ensures PutTogether(Both(all, f), own + [f])
  {
    hide LastPresent, Or;
    LastPresentSnoc(Ids(own), all.id, f.id);
    LastPresentSnoc(Names(own), all.name, f.name);
    LastPresentSnoc(ToolInfos(own), all.toolInfo, f.toolInfo);
    LastPresentSnoc(Extras(own), all.extra, f.extra);
    assert Ids(own + [f]) == Ids(own) + [f.id] && Names(own + [f]) == Names(own) + [f.name];
    assert ToolInfos(own + [f]) == ToolInfos(own) + [f.toolInfo] && Extras(own + [f]) == Extras(own) + [f.extra];
    assert (own + [f])[..|own|] == own;
  }

  lemma NoFragment(i: nat)
    ensures PutTogether(Fragment(i, None, None, None, None, None), [])
  {
  }

  lemma {:induction false} GatheredIsLast(fs: seq<Fragment>, i: nat)
    ensures PutTogether(Gathered(fs, i), Own(fs, i))
  {
    hide PutTogether, Both;
    if fs == [] {
      NoFragment(i);
    } else {
      var init, f := fs[..|fs| - 1], fs[|fs| - 1];
      GatheredIsLast(init, i);
      OneMoreFragment(Gathered(init, i), Own(init, i), f);
      assert Own(init, i) + [] == Own(init, i);
    }
  }

  /** A rebuilt call has the last id, name, tool info and extra among its own fragments, and all their arguments. */
  lemma CallsAreTheirFragments(fs: seq<Fragment>, i: nat)
    requires OpensInOrder(fs) && i < |MergeFragments([], fs)|
    ensures var call, own := MergeFragments([], fs)[i], Own(fs, i);
      && own != [] && Opens(own[0])
      && LastPresent(Ids(own), Some(call.id)) && LastPresent(Names(own), Some(call.name))
      && LastPresent(ToolInfos(own), Some(call.toolInfo)) && LastPresent(Extras(own), call.extra)
      && call.args == Arguments(own)
  {
    hide LastPresent, Gathered, Own;
    FragmentsReassemble(fs);
    GatheredIsLast(fs, i);
    OpenedByFirst(fs, i);
  }

  lemma {:induction false} OpenedByFirst(fs: seq<Fragment>, i: nat)
    requires OpensInOrder(fs)
    ensures i < OpenCount(fs) <==> Own(fs, i) != []
    ensures Own(fs, i) != [] ==> Opens(Own(fs, i)[0])
  {
    if fs == [] {
    } else {
      OpenedByFirst(fs[..|fs| - 1], i);
    }
  }

  function DeltasFor(ds: seq<Delta>, id: string): seq<Delta> {
    if ds == [] then []
    else DeltasFor(ds[..|ds| - 1], id) + if ds[|ds| - 1].id == id then [ds[|ds| - 1]] else []
  }

  /** The deltas of other messages leave no trace. */
  lemma {:induction false} OtherMessagesIgnored(m: Message, ds: seq<Delta>)
    ensures Fold(m, ds) == Fold(m, DeltasFor(ds, m.id)) && Fold(m, ds).id == m.id
  {
    hide MergeFragments, AppendText, Or;
    if ds == [] {
    } else {
      var init, d := ds[..|ds| - 1], ds[|ds| - 1];
      OtherMessagesIgnored(m, init);
      var own := DeltasFor(init, m.id);
      assert DeltasFor(ds, m.id) == if d.id == m.id then own + [d] else own;
      assert (own + [d])[..|own|] == own;
    }
  }

  /** `ds` is a way of cutting `m` into deltas that opens its tool calls in order. */
  predicate Cuts(m: Message, ds: seq<Delta>) {
    var fs := AllFragments(ds);
    && (forall d :: d in ds ==> d.id == m.id)
    && m.content == NonEmpty(AllContent(ds))
    && m.reasoning == NonEmpty(AllReasoning(ds))
    && m.refusal == LastRefusal(ds) && m.finishReason == LastFinishReason(ds) && m.usage == LastUsage(ds)
    && OpensInOrder(fs)
    && (m.toolCalls.None? <==> fs == [])
    && (m.toolCalls.Some? ==>
        && |m.toolCalls.value| == OpenCount(fs)
        && forall i :: 0 <= i < OpenCount(fs) ==> IsCall(m.toolCalls.value[i], Gathered(fs, i)))
  }

  predicate IsCall(call: ToolCall, all: Fragment) {
    && all.id == Some(call.id) && all.name == Some(call.name) && all.toolInfo == Some(call.toolInfo)
    && Text(all.args) == call.args && all.extra == call.extra
  }

  /** However a message is cut, folding the pieces over the empty base rebuilds it. */
  lemma Reassembly(m: Message, ds: seq<Delta>)
    requires Cuts(m, ds)
    ensures Fold(Empty(m.id), ds) == m
  {
    FoldGathers(m.id, ds);
    FragmentsReassemble(AllFragments(ds));
    if m.toolCalls.Some? {
      assert m.toolCalls.value == MergeFragments([], AllFragments(ds));
    }
  }

  // ---------------------------------------------------------------- splitting deltas

  function BothTexts(a: Option<string>, b: Option<string>): Option<string> {
    if a.None? && b.None? then None else Some(Text(a) + Text(b))
  }

  function BothDeltas(d: Delta, e: Delta): Delta {
    Delta(d.id, BothTexts(d.content, e.content), BothTexts(d.reasoning, e.reasoning), Or(e.refusal, d.refusal),
          Or(e.finishReason, d.finishReason), Or(e.usage, d.usage), d.toolCalls + e.toolCalls)
  }

  /** Two consecutive deltas act as their concatenation, on every message. */
  lemma DeltasConcat(m: Message, d: Delta, e: Delta)
    requires d.id == e.id
    ensures MergeDelta(MergeDelta(m, d), e) == MergeDelta(m, BothDeltas(d, e))
  {
    FragmentsConcat(if m.toolCalls.Some? then m.toolCalls.value else [], d.toolCalls, e.toolCalls);
    assert d.toolCalls + e.toolCalls == [] <==> d.toolCalls == [] && e.toolCalls == [];
    assert e.toolCalls == [] ==> d.toolCalls + e.toolCalls == d.toolCalls;
    assert d.toolCalls == [] ==> d.toolCalls + e.toolCalls == e.toolCalls;
    TextsConcat(m.content, d.content, e.content);
    TextsConcat(m.reasoning, d.reasoning, e.reasoning);
  }

  lemma TextsConcat(base: Option<string>, a: Option<string>, b: Option<string>)
    ensures AppendText(AppendText(base, a), b) == AppendText(base, BothTexts(a, b))
  {
    assert Text(base) + Text(a) + Text(b) == Text(base) + (Text(a) + Text(b));
    assert Text(a) + "" == Text(a) && "" + Text(b) == Text(b) && Text(base) + "" == Text(base);
  }

  /**
   Joining two consecutive fragments of one call into one fragment changes nothing exactly when the
   first of them is not dropped for want of an id, name or tool info, or is dropped without a loss.
   */
  lemma FragmentsJoin(calls: seq<ToolCall>, f: Fragment, g: Fragment)
    requires f.index == g.index
    ensures MergeFragment(MergeFragment(calls, f), g) == MergeFragment(calls, Both(f, g)) <==>
      || f.index != |calls| || Opens(f)
      || (if Opens(g) then Text(f.args) == "" && (f.extra.None? || g.extra.Some? ) else !Opens(Both(f, g)))
  {
    var both := Both(f, g);
    if 0 <= f.index < |calls| {
      var call := calls[f.index];
      assert call.args + Text(f.args) + Text(g.args) == call.args + (Text(f.args) + Text(g.args));
      assert Extended(Extended(call, f), g) == Extended(call, both);
      assert calls[f.index := Extended(call, f)][f.index := Extended(call, both)]
          == calls[f.index := Extended(call, both)];
    } else if f.index == |calls| {
      if Opens(f) {
        assert Extended(Opened(f), g) == Opened(both);
        assert (calls + [Opened(f)])[f.index := Opened(both)] == calls + [Opened(both)];
      } else if Opens(g) {
        assert (calls + [Opened(g)])[f.index] == Opened(g) && (calls + [Opened(both)])[f.index] == Opened(both);
        if Text(f.args) + Text(g.args) == Text(g.args) {
          assert |Text(f.args)| + |Text(g.args)| == |Text(g.args)|;
        }
      } else if Opens(both) {
        assert |calls + [Opened(both)]| == |calls| + 1;
      }
    }
  }

  /** A cut that the joined fragment survives and the two pieces do not. */
  lemma IncompleteOpeningIsLost()
    ensures var f := Fragment(0, Some("a"), None, Some("x"), None, None);
      var g := Fragment(0, None, Some("n"), Some("y"), Some(0), None);
      MergeFragment(MergeFragment([], f), g) == [] && MergeFragment([], Both(f, g)) != []
  {
  }

  /** Slots never disappear or move, and arguments only grow at the end, for any fragments at all. */
  lemma {:induction false} CallsOnlyGrow(calls: seq<ToolCall>, fs: seq<Fragment>)
    ensures |calls| <= |MergeFragments(calls, fs)| <= |calls| + |fs|
    ensures forall i :: 0 <= i < |calls| ==> calls[i].args <= MergeFragments(calls, fs)[i].args
  {
    if fs == [] {
    } else {
      CallsOnlyGrow(calls, fs[..|fs| - 1]);
    }
  }
}
