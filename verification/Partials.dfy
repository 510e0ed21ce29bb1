/** `PartialMessage`: the reply rebuilt from its stream events.  The class edits its part table in
    place; `Partial` and `ApplyEvent` are the value it holds and the specification of one edit. */
module Partials {
  import opened Types

  datatype Partial = Partial(message: Assistant, parts: map<nat, Part>)

  function Enumerate(content: seq<Part>): map<nat, Part> {
    map i: nat | i < |content| :: content[i]
  }

  function NewPartial(start: Assistant): Partial {
    Partial(start, Enumerate(start.content))
  }

  predicate Indexed(e: StreamEvent) {
    !e.Start? && !e.Done? && !e.StreamError?
  }

  predicate AllIndexed(es: seq<StreamEvent>) {
    forall k | 0 <= k < |es| :: Indexed(es[k])
  }

  /** What an indexed event leaves in its own slot. */
  function ApplyToSlot(slot: Option<Part>, e: StreamEvent): Option<Part>
    requires Indexed(e)
  {
    match e
    case TextStart(_) => Some(Text(""))
    case TextDelta(_, delta) =>
      if slot.Some? && slot.value.Text? then Some(Text(slot.value.text + delta)) else Some(Text(delta))
    case TextEnd(_, text) => Some(Text(text))
    case ThinkingStart(_) => Some(Thinking("", None))
    case ThinkingDelta(_, delta) =>
      if slot.Some? && slot.value.Thinking?
      then Some(slot.value.(thinking := slot.value.thinking + delta))
      else Some(Thinking(delta, None))
    case ThinkingEnd(_, text) => Some(Thinking(text, None))
    case ToolCallEnd(_, call) => Some(Call(call))
    case ToolCallStart(_) => slot
    case ToolCallDelta(_, _) => slot
  }

  function Slot(p: Partial, i: nat): Option<Part> {
    if i in p.parts then Some(p.parts[i]) else None
  }

  function ApplyEvent(p: Partial, e: StreamEvent): Partial {
    match e
    case Start(start) => NewPartial(start)
    case Done(message) => NewPartial(message)
    case StreamError(message) => NewPartial(message)
    case _ =>
      var slot := ApplyToSlot(Slot(p, e.index), e);
      if slot.Some? then p.(parts := p.parts[e.index := slot.value]) else p
  }

  predicate IsLeast(keys: set<nat>, k: nat) {
    k in keys && forall other <- keys :: k <= other
  }

  function Least(keys: set<nat>): (k: nat)
    requires keys != {}
    ensures IsLeast(keys, k)
  {
    LeastExists(keys);
    var k :| IsLeast(keys, k);
    k
  }

  lemma LeastExists(keys: set<nat>)
    requires keys != {}
    ensures exists k :: IsLeast(keys, k)
  {
    var k :| k in keys;
    LeastUpTo(keys, k);
  }

  lemma {:induction false} LeastUpTo(keys: set<nat>, k: nat)
    requires k in keys
    ensures exists least :: IsLeast(keys, least)
  {
    if smaller :| smaller in keys && smaller < k {
      LeastUpTo(keys, smaller);
    } else {
      assert IsLeast(keys, k);
    }
  }

  /** The keys of a part table in ascending order, as a `BTreeMap` walks them. */
  function SortedKeys(keys: set<nat>): (sorted: seq<nat>)
    ensures forall k <- sorted :: k in keys
  {
    if keys == {} then []
    else
      var k := Least(keys);
      [k] + SortedKeys(keys - {k})
  }

  lemma {:induction false} KeysAreSorted(keys: set<nat>)
    ensures forall k <- keys :: k in SortedKeys(keys)
    ensures forall i, j | 0 <= i < j < |SortedKeys(keys)| :: SortedKeys(keys)[i] < SortedKeys(keys)[j]
  {
    if keys != {} {
      var k := Least(keys);
      var rest := SortedKeys(keys - {k});
      KeysAreSorted(keys - {k});
      assert forall i | 0 <= i < |rest| :: rest[i] in rest;
    }
  }

  /** The parts at these keys, in their order. */
  function PartsAt(parts: map<nat, Part>, keys: seq<nat>): (content: seq<Part>)
    requires forall k <- keys :: k in parts
    ensures |content| == |keys|
  {
    if keys == [] then [] else [parts[keys[0]]] + PartsAt(parts, keys[1..])
  }

  lemma {:induction false} PartsInOrder(parts: map<nat, Part>, keys: seq<nat>, j: nat)
    requires (forall k <- keys :: k in parts) && j < |keys|
    ensures PartsAt(parts, keys)[j] == parts[keys[j]]
    decreases |keys|
  {
    if j > 0 {
      PartsInOrder(parts, keys[1..], j - 1);
    }
  }

  function Values(parts: map<nat, Part>): (content: seq<Part>) {
    PartsAt(parts, SortedKeys(parts.Keys))
  }

  function Snapshot(p: Partial): Assistant {
    p.message.(content := Values(p.parts))
  }

  function Finish(p: Partial, stop: StopReason, error: string): Assistant {
    p.message.(content := Values(p.parts), stop := stop, error := Some(error))
  }

  class PartialMessage {
    var message: Assistant
    var parts: map<nat, Part>

    function Value(): Partial
      reads this
    {
      Partial(message, parts)
    }

    constructor (start: Assistant)
      ensures Value() == NewPartial(start)
    {
      message, parts := start, Enumerate(start.content);
    }

    method Apply(e: StreamEvent)
      modifies this
      ensures Value() == ApplyEvent(old(Value()), e)
    {
      match e
      case Start(start) => message, parts := start, Enumerate(start.content);
      case TextStart(i) => parts := parts[i := Text("")];
      case TextDelta(i, delta) =>
        if i in parts && parts[i].Text? {
          parts := parts[i := Text(parts[i].text + delta)];
        } else {
          parts := parts[i := Text(delta)];
        }
      case TextEnd(i, text) => parts := parts[i := Text(text)];
      case ThinkingStart(i) => parts := parts[i := Thinking("", None)];
      case ThinkingDelta(i, delta) =>
        if i in parts && parts[i].Thinking? {
          parts := parts[i := parts[i].(thinking := parts[i].thinking + delta)];
        } else {
          parts := parts[i := Thinking(delta, None)];
        }
      case ThinkingEnd(i, text) => parts := parts[i := Thinking(text, None)];
      case ToolCallEnd(i, call) => parts := parts[i := Call(call)];
      case Done(final) => message, parts := final, Enumerate(final.content);
      case StreamError(failed) => message, parts := failed, Enumerate(failed.content);
      case ToolCallStart(i) => assert i in parts ==> parts[i := parts[i]] == parts;
      case ToolCallDelta(i, _) => assert i in parts ==> parts[i := parts[i]] == parts;
    }

    method TakeSnapshot() returns (m: Assistant)
      ensures m == Snapshot(Value())
    {
      m := message.(content := Values(parts));
    }

    method HasContent() returns (b: bool)
      ensures b <==> Snapshot(Value()).content != []
    {
      b := parts != map[];
      assert |SortedKeys(parts.Keys)| > 0 <==> parts.Keys != {};
    }
  }

  // --- Interleaving does not matter -------------------------------------------------------

  function ApplyAll(p: Partial, es: seq<StreamEvent>): Partial
    decreases |es|
  {
    if es == [] then p else ApplyAll(ApplyEvent(p, es[0]), es[1..])
  }

  /** The events that address slot `i`. */
  function Project(es: seq<StreamEvent>, i: nat): (own: seq<StreamEvent>)
    requires AllIndexed(es)
    ensures AllIndexed(own)
  {
    if es == [] then []
    else (if es[0].index == i then [es[0]] else []) + Project(es[1..], i)
  }

  function FoldSlot(slot: Option<Part>, es: seq<StreamEvent>): Option<Part>
    requires AllIndexed(es)
    decreases |es|
  {
    if es == [] then slot else FoldSlot(ApplyToSlot(slot, es[0]), es[1..])
  }

  /** Every slot ends as its own events leave it, whatever the other slots saw in between. */
  lemma {:induction false} SlotsAreIndependent(p: Partial, es: seq<StreamEvent>, i: nat)
    requires AllIndexed(es)
    ensures Slot(ApplyAll(p, es), i) == FoldSlot(Slot(p, i), Project(es, i))
    ensures ApplyAll(p, es).message == p.message
    decreases |es|
  {
    if es != [] {
      SlotsAreIndependent(ApplyEvent(p, es[0]), es[1..], i);
      var own := Project(es[1..], i);
      if es[0].index == i {
        assert Project(es, i) == [es[0]] + own;
        assert Project(es, i)[1..] == own;
      } else {
        assert Project(es, i) == own;
      }
    }
  }

  /** Two merges of the same per-index streams rebuild the same partial message. */
  lemma MergesAgree(p: Partial, es: seq<StreamEvent>, fs: seq<StreamEvent>)
    requires AllIndexed(es)
    requires AllIndexed(fs)
    requires forall i: nat :: Project(es, i) == Project(fs, i)
    ensures ApplyAll(p, es) == ApplyAll(p, fs)
  {
    var a, b := ApplyAll(p, es), ApplyAll(p, fs);
    forall i: nat ensures Slot(a, i) == Slot(b, i) {
      SlotsAreIndependent(p, es, i);
      SlotsAreIndependent(p, fs, i);
    }
    SlotsAreIndependent(p, es, 0);
    SlotsAreIndependent(p, fs, 0);
    assert a.parts == b.parts by {
      forall i: nat ensures i in a.parts <==> i in b.parts {
        assert Slot(a, i) == Slot(b, i);
      }
      forall i | i in a.parts ensures a.parts[i] == b.parts[i] {
        assert Slot(a, i) == Slot(b, i);
      }
    }
  }

  function Concat(deltas: seq<string>): string {
    if deltas == [] then "" else deltas[0] + Concat(deltas[1..])
  }

  function TextDeltas(i: nat, deltas: seq<string>): (es: seq<StreamEvent>)
    ensures AllIndexed(es)
  {
    seq(|deltas|, k requires 0 <= k < |deltas| => TextDelta(i, deltas[k]))
  }

  /** A slot streamed as text holds its deltas joined in order, whatever surrounds them. */
  lemma {:induction false} TextIsItsDeltas(p: Partial, es: seq<StreamEvent>, i: nat, deltas: seq<string>)
    requires AllIndexed(es)
    requires Project(es, i) == [TextStart(i)] + TextDeltas(i, deltas)
    ensures Slot(ApplyAll(p, es), i) == Some(Text(Concat(deltas)))
  {
    SlotsAreIndependent(p, es, i);
    var own := TextDeltas(i, deltas);
    assert ([TextStart(i)] + own)[1..] == own;
    DeltasAppend("", i, deltas);
    assert "" + Concat(deltas) == Concat(deltas);
  }

  lemma {:induction false} DeltasAppend(text: string, i: nat, deltas: seq<string>)
    ensures FoldSlot(Some(Text(text)), TextDeltas(i, deltas)) == Some(Text(text + Concat(deltas)))
    decreases |deltas|
  {
    var es := TextDeltas(i, deltas);
    if deltas == [] {
      assert text + Concat(deltas) == text;
    } else {
      assert es[1..] == TextDeltas(i, deltas[1..]);
      DeltasAppend(text + deltas[0], i, deltas[1..]);
      assert text + deltas[0] + Concat(deltas[1..]) == text + Concat(deltas);
    }
  }

  function ThinkingDeltas(i: nat, deltas: seq<string>): (es: seq<StreamEvent>)
    ensures AllIndexed(es)
  {
    seq(|deltas|, k requires 0 <= k < |deltas| => ThinkingDelta(i, deltas[k]))
  }

  /** The same for a slot streamed as thinking; its signature stays absent. */
  lemma {:induction false} ThinkingIsItsDeltas(p: Partial, es: seq<StreamEvent>, i: nat, deltas: seq<string>)
    requires AllIndexed(es)
    requires Project(es, i) == [ThinkingStart(i)] + ThinkingDeltas(i, deltas)
    ensures Slot(ApplyAll(p, es), i) == Some(Thinking(Concat(deltas), None))
  {
    SlotsAreIndependent(p, es, i);
    var own := ThinkingDeltas(i, deltas);
    assert ([ThinkingStart(i)] + own)[1..] == own;
    ThinkingAppends("", None, i, deltas);
    assert "" + Concat(deltas) == Concat(deltas);
  }

  lemma {:induction false} ThinkingAppends(text: string, signature: Option<string>, i: nat, deltas: seq<string>)
    ensures FoldSlot(Some(Thinking(text, signature)), ThinkingDeltas(i, deltas))
            == Some(Thinking(text + Concat(deltas), signature))
    decreases |deltas|
  {
    var es := ThinkingDeltas(i, deltas);
    if deltas == [] {
      assert text + Concat(deltas) == text;
    } else {
      assert es[1..] == ThinkingDeltas(i, deltas[1..]);
      ThinkingAppends(text + deltas[0], signature, i, deltas[1..]);
      assert text + deltas[0] + Concat(deltas[1..]) == text + Concat(deltas);
    }
  }

  /** Deltas without a start continue a text that is there, and start one over anything else. */
  lemma {:induction false} DeltasContinue(p: Partial, es: seq<StreamEvent>, i: nat, deltas: seq<string>)
    requires AllIndexed(es) && deltas != []
    requires Project(es, i) == TextDeltas(i, deltas)
    ensures Slot(ApplyAll(p, es), i)
            == match Slot(p, i)
               case Some(Text(text)) => Some(Text(text + Concat(deltas)))
               case _ => Some(Text(Concat(deltas)))
  {
    SlotsAreIndependent(p, es, i);
    assert TextDeltas(i, deltas)[1..] == TextDeltas(i, deltas[1..]);
    match Slot(p, i) {
      case Some(Text(text)) => DeltasAppend(text, i, deltas);
      case _ => DeltasAppend(deltas[0], i, deltas[1..]);
    }
  }

  lemma {:induction false} ThinkingContinues(p: Partial, es: seq<StreamEvent>, i: nat, deltas: seq<string>)
    requires AllIndexed(es) && deltas != []
    requires Project(es, i) == ThinkingDeltas(i, deltas)
    ensures Slot(ApplyAll(p, es), i)
            == match Slot(p, i)
               case Some(Thinking(text, signature)) => Some(Thinking(text + Concat(deltas), signature))
               case _ => Some(Thinking(Concat(deltas), None))
  {
    SlotsAreIndependent(p, es, i);
    assert ThinkingDeltas(i, deltas)[1..] == ThinkingDeltas(i, deltas[1..]);
    match Slot(p, i) {
      case Some(Thinking(text, signature)) => ThinkingAppends(text, signature, i, deltas);
      case _ => ThinkingAppends(deltas[0], None, i, deltas[1..]);
    }
  }

  lemma {:induction false} FoldSlotSnoc(slot: Option<Part>, own: seq<StreamEvent>, e: StreamEvent)
    requires AllIndexed(own) && Indexed(e)
    ensures AllIndexed(own + [e]) && FoldSlot(slot, own + [e]) == ApplyToSlot(FoldSlot(slot, own), e)
    decreases |own|
  {
    if own == [] {
      assert [] + [e] == [e] && [e][1..] == [];
    } else {
      assert (own + [e])[1..] == own[1..] + [e];
      FoldSlotSnoc(ApplyToSlot(slot, own[0]), own[1..], e);
    }
  }

  /** A part that ended is what its end event says, whatever was streamed for it before. */
  lemma EndsDecide(p: Partial, es: seq<StreamEvent>, i: nat, own: seq<StreamEvent>, last: StreamEvent)
    requires AllIndexed(es) && AllIndexed(own) && Project(es, i) == own + [last]
    ensures last.TextEnd? ==> Slot(ApplyAll(p, es), i) == Some(Text(last.text))
    ensures last.ThinkingEnd? ==> Slot(ApplyAll(p, es), i) == Some(Thinking(last.text, None))
    ensures last.ToolCallEnd? ==> Slot(ApplyAll(p, es), i) == Some(Call(last.call))
  {
    SlotsAreIndependent(p, es, i);
    assert Indexed(Project(es, i)[|own|]);
    FoldSlotSnoc(Slot(p, i), own, last);
  }

  predicate Announces(e: StreamEvent) {
    e.ToolCallStart? || e.ToolCallDelta?
  }

  /** A tool call shows nothing until it ends. */
  lemma {:induction false} CallsShowAtTheirEnd(p: Partial, es: seq<StreamEvent>, i: nat)
    requires AllIndexed(es) && forall k | 0 <= k < |Project(es, i)| :: Announces(Project(es, i)[k])
    ensures Slot(ApplyAll(p, es), i) == Slot(p, i)
  {
    SlotsAreIndependent(p, es, i);
    AnnouncingKeepsSlot(Slot(p, i), Project(es, i));
  }

  lemma {:induction false} AnnouncingKeepsSlot(slot: Option<Part>, own: seq<StreamEvent>)
    requires AllIndexed(own) && forall k | 0 <= k < |own| :: Announces(own[k])
    ensures FoldSlot(slot, own) == slot
    decreases |own|
  {
    if own != [] {
      assert Announces(own[0]);
      AnnouncingKeepsSlot(slot, own[1..]);
    }
  }

  /** The indices from `k` up to `n`. */
  function From(k: nat, n: nat): (r: set<nat>)
    ensures forall i: nat :: i in r <==> k <= i < n
    decreases n - k
  {
    if k >= n then {} else {k} + From(k + 1, n)
  }

  lemma {:induction false} RangeIsSorted(k: nat, n: nat)
    requires k <= n
    ensures |SortedKeys(From(k, n))| == n - k
    ensures forall j | 0 <= j < n - k :: SortedKeys(From(k, n))[j] == k + j
    decreases n - k
  {
    if k < n {
      assert k in From(k, n);
      assert Least(From(k, n)) == k;
      assert From(k, n) - {k} == From(k + 1, n);
      RangeIsSorted(k + 1, n);
    }
  }

  lemma EnumeratedShows(content: seq<Part>)
    ensures Values(Enumerate(content)) == content
  {
    var parts := Enumerate(content);
    assert parts.Keys == From(0, |content|);
    RangeIsSorted(0, |content|);
    forall j | 0 <= j < |content| ensures Values(parts)[j] == content[j] {
      PartsInOrder(parts, SortedKeys(parts.Keys), j);
    }
  }

  /** A whole message, at the start or the end of a stream, shows exactly as it is; a finished partial
      is its snapshot but for how it stopped. */
  lemma WholeMessagesShow(p: Partial, m: Assistant, stop: StopReason, error: string)
    ensures Snapshot(NewPartial(m)) == m
    ensures Snapshot(ApplyEvent(p, Start(m))) == m
    ensures Snapshot(ApplyEvent(p, Done(m))) == m
    ensures Snapshot(ApplyEvent(p, StreamError(m))) == m
    ensures Finish(p, stop, error)
            == Assistant(Snapshot(p).content, p.message.meta, stop, Some(error))
  {
    EnumeratedShows(m.content);
  }

  /** The snapshot lists exactly the slots, in ascending index order. */
  lemma SnapshotIsInIndexOrder(p: Partial)
    ensures var keys := SortedKeys(p.parts.Keys); var content := Snapshot(p).content;
            && |content| == |keys|
            && (forall i, j | 0 <= i < j < |keys| :: keys[i] < keys[j])
            && (forall j | 0 <= j < |keys| :: Slot(p, keys[j]) == Some(content[j]))
            && (forall i: nat | Slot(p, i).Some? :: exists j :: 0 <= j < |keys| && keys[j] == i)
  {
    var keys := SortedKeys(p.parts.Keys);
    KeysAreSorted(p.parts.Keys);
    forall j | 0 <= j < |keys| ensures Slot(p, keys[j]) == Some(Snapshot(p).content[j]) {
      PartsInOrder(p.parts, keys, j);
      assert keys[j] in keys;
    }
    forall i: nat | Slot(p, i).Some? ensures exists j :: 0 <= j < |keys| && keys[j] == i {
      assert i in keys;
    }
  }
}
