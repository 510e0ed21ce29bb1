/** The background session saver: it keeps the latest snapshot of each session in a batch, saves
    those, and deletes the sessions that ended up blank. */
module Saver {
  import opened Types

  datatype Snapshot = Snapshot(id: string, conversation: seq<Message>, title: Option<string>, panes: string) {
    predicate Blank() {
      conversation == [] && title.None?
    }
  }

  /** The store and the writer's set of blank sessions. */
  datatype Books = Books(sessions: map<string, Snapshot>, blank: set<string>)

  function Saved(b: Books, s: Snapshot): Books {
    Books(b.sessions[s.id := s], if s.Blank() then b.blank + {s.id} else b.blank - {s.id})
  }

  /** Saving every snapshot, in order. */
  function SavedAll(b: Books, ss: seq<Snapshot>): Books
    decreases |ss|
  {
    if ss == [] then b else Saved(SavedAll(b, ss[..|ss| - 1]), ss[|ss| - 1])
  }

  function Finished(b: Books): map<string, Snapshot> {
    b.sessions - b.blank
  }

  /** The last snapshot of a session. */
  function LastOf(ss: seq<Snapshot>, id: string): Option<Snapshot>
    decreases |ss|
  {
    if ss == [] then None
    else if ss[|ss| - 1].id == id then Some(ss[|ss| - 1])
    else LastOf(ss[..|ss| - 1], id)
  }

  /** Saving in order leaves each session its last snapshot, blank if that one is. */
  lemma {:induction false} SavedAllKeepsTheLast(b: Books, ss: seq<Snapshot>, id: string)
    ensures var end := SavedAll(b, ss);
            match LastOf(ss, id)
            case Some(s) => id in end.sessions && end.sessions[id] == s && (id in end.blank <==> s.Blank())
            case None =>
              && (id in end.sessions <==> id in b.sessions) && (id in b.sessions ==> end.sessions[id] == b.sessions[id])
              && (id in end.blank <==> id in b.blank)
    decreases |ss|
  {
    if ss != [] {
      SavedAllKeepsTheLast(b, ss[..|ss| - 1], id);
    }
  }

  ghost predicate SameLast(a: seq<Snapshot>, b: seq<Snapshot>) {
    forall id {:trigger LastOf(a, id)} {:trigger LastOf(b, id)} :: LastOf(a, id) == LastOf(b, id)
  }

  /** Two sequences that end each session alike leave the same books, whatever their order. */
  lemma SameLastSameBooks(b: Books, x: seq<Snapshot>, y: seq<Snapshot>)
    requires SameLast(x, y)
    ensures SavedAll(b, x) == SavedAll(b, y)
  {
    var p, q := SavedAll(b, x), SavedAll(b, y);
    forall id: string
      ensures (id in p.sessions <==> id in q.sessions) && (id in p.blank <==> id in q.blank)
      ensures id in p.sessions ==> p.sessions[id] == q.sessions[id]
    {
      SavedAllKeepsTheLast(b, x, id);
      SavedAllKeepsTheLast(b, y, id);
    }
    assert p.blank == q.blank;
    assert p.sessions == q.sessions;
  }

  lemma {:induction false} LastOfAppend(a: seq<Snapshot>, b: seq<Snapshot>, id: string)
    ensures LastOf(a + b, id) == LastOf(b, id).Or(LastOf(a, id))
    decreases |b|
  {
    if b == [] {
      assert a + b == a;
    } else {
      assert (a + b)[..|a + b| - 1] == a + b[..|b| - 1];
      LastOfAppend(a, b[..|b| - 1], id);
    }
  }

  lemma {:induction false} SavedAllAppend(b: Books, x: seq<Snapshot>, y: seq<Snapshot>)
    ensures SavedAll(b, x + y) == SavedAll(SavedAll(b, x), y)
    decreases |y|
  {
    if y == [] {
      assert x + y == x;
    } else {
      assert (x + y)[..|x + y| - 1] == x + y[..|y| - 1];
      SavedAllAppend(b, x, y[..|y| - 1]);
    }
  }

  /** At most one snapshot per session. */
  predicate Distinct(ss: seq<Snapshot>) {
    forall i, j | 0 <= i < j < |ss| :: ss[i].id != ss[j].id
  }

  lemma {:induction false} LastOfDistinct(ss: seq<Snapshot>, id: string)
    requires Distinct(ss)
    ensures match LastOf(ss, id)
            case Some(s) => s in ss && s.id == id
            case None => forall k | 0 <= k < |ss| :: ss[k].id != id
    ensures forall k | 0 <= k < |ss| && ss[k].id == id :: LastOf(ss, id) == Some(ss[k])
    decreases |ss|
  {
    if ss != [] {
      LastOfDistinct(ss[..|ss| - 1], id);
    }
  }

  /** Overwriting a session's slot is as good as appending to the sequence it stands for. */
  lemma OverwriteKeepsLast(latest: seq<Snapshot>, batch: seq<Snapshot>, k: nat, s: Snapshot)
    requires Distinct(latest) && SameLast(latest, batch) && k < |latest| && latest[k].id == s.id
    ensures Distinct(latest[k := s]) && SameLast(latest[k := s], batch + [s])
  {
    var next := latest[k := s];
    forall id: string ensures LastOf(next, id) == LastOf(batch + [s], id) {
      LastOfDistinct(latest, id);
      LastOfDistinct(next, id);
      assert (batch + [s])[..|batch|] == batch;
      assert next[k].id == s.id;
      if id != s.id && LastOf(latest, id).Some? {
        var i :| 0 <= i < |latest| && latest[i] == LastOf(latest, id).value;
        assert next[i] == latest[i];
      }
    }
  }

  lemma AppendKeepsLast(latest: seq<Snapshot>, batch: seq<Snapshot>, s: Snapshot)
    requires Distinct(latest) && SameLast(latest, batch) && forall k | 0 <= k < |latest| :: latest[k].id != s.id
    ensures Distinct(latest + [s]) && SameLast(latest + [s], batch + [s])
  {
    forall id: string ensures LastOf(latest + [s], id) == LastOf(batch + [s], id) {
      assert (latest + [s])[..|latest|] == latest && (batch + [s])[..|batch|] == batch;
    }
  }

  class Store {
    var sessions: map<string, Snapshot>

    constructor (sessions: map<string, Snapshot>)
      ensures this.sessions == sessions
    {
      this.sessions := sessions;
    }

    method Save(s: Snapshot)
      modifies this
      ensures sessions == old(sessions)[s.id := s]
    {
      sessions := sessions[s.id := s];
    }

    method Delete(id: string)
      modifies this
      ensures sessions == old(sessions) - {id}
    {
      sessions := sessions - {id};
    }
  }

  class SnapshotWriter {
    const store: Store
    var blank: set<string>

    function Value(): Books
      reads this, store
    {
      Books(store.sessions, blank)
    }

    constructor (store: Store)
      ensures this.store == store && blank == {}
    {
      this.store, blank := store, {};
    }

    method Save(s: Snapshot)
      modifies this, store
      ensures Value() == Saved(old(Value()), s)
      ensures s.id in blank <==> s.conversation == [] && s.title.None?
    {
      if s.Blank() {
        blank := blank + {s.id};
      } else {
        blank := blank - {s.id};
      }
      store.Save(s);
    }

    method Finish()
      modifies store
      ensures store.sessions == Finished(old(Value()))
    {
      var left := blank;
      while left != {}
        invariant left <= blank
        invariant store.sessions == old(store.sessions) - (blank - left)
        decreases |left|
      {
        var id :| id in left;
        store.Delete(id);
        left := left - {id};
      }
    }
  }

  /** The receiving end: what was sent and not received yet. */
  class Receiver {
    var queue: seq<Snapshot>

    constructor (queue: seq<Snapshot>)
      ensures this.queue == queue
    {
      this.queue := queue;
    }

    method Recv() returns (s: Option<Snapshot>)
      modifies this
      ensures s.None? <==> old(queue) == []
      ensures s.Some? ==> old(queue) == [s.value] + queue
      ensures s.None? ==> queue == []
    {
      if queue == [] {
        return None;
      }
      s := Some(queue[0]);
      queue := queue[1..];
    }

    /** What the other threads have not sent yet is not there. */
    method TryRecv() returns (s: Option<Snapshot>)
      modifies this
      ensures s.Some? ==> old(queue) == [s.value] + queue
      ensures s.None? ==> queue == old(queue)
    {
      var sent: bool := *;
      if !sent || queue == [] {
        return None;
      }
      s := Some(queue[0]);
      queue := queue[1..];
    }
  }

  /** Drains what is there, keeping one snapshot per session: its last. */
  method LatestPerSession(first: Snapshot, rx: Receiver) returns (latest: seq<Snapshot>, ghost batch: seq<Snapshot>)
    modifies rx
    ensures [first] + old(rx.queue) == batch + rx.queue && |rx.queue| <= |old(rx.queue)|
    ensures Distinct(latest) && SameLast(latest, batch)
  {
    latest, batch := [first], [first];
    while true
      invariant [first] + old(rx.queue) == batch + rx.queue && |rx.queue| <= |old(rx.queue)|
      invariant Distinct(latest) && SameLast(latest, batch)
      decreases |rx.queue|
    {
      ghost var queued := rx.queue;
      var newer := rx.TryRecv();
      if newer.None? {
        return;
      }
      assert batch + queued == batch + [newer.value] + rx.queue;
      var k := 0;
      while k < |latest| && latest[k].id != newer.value.id
        invariant k <= |latest|
        invariant forall i | 0 <= i < k :: latest[i].id != newer.value.id
      {
        k := k + 1;
      }
      if k < |latest| {
        OverwriteKeepsLast(latest, batch, k, newer.value);
        latest := latest[k := newer.value];
      } else {
        AppendKeepsLast(latest, batch, newer.value);
        latest := latest + [newer.value];
      }
      batch := batch + [newer.value];
    }
  }

  method SaveBatch(writer: SnapshotWriter, latest: seq<Snapshot>)
    modifies writer, writer.store
    ensures writer.Value() == SavedAll(old(writer.Value()), latest)
  {
    for i := 0 to |latest|
      invariant writer.Value() == SavedAll(old(writer.Value()), latest[..i])
    {
      writer.Save(latest[i]);
      assert latest[..i + 1][..i] == latest[..i];
    }
    assert latest[..|latest|] == latest;
  }

  /** The saver thread.  However its batches fall, the store ends as if every snapshot had been saved
      in the order it was sent and the blank sessions deleted at the end. */
  method RunSaver(store: Store, rx: Receiver)
    modifies store, rx
    ensures store.sessions == Finished(SavedAll(Books(old(store.sessions), {}), old(rx.queue)))
  {
    var writer := new SnapshotWriter(store);
    ghost var start := writer.Value();
    ghost var done: seq<Snapshot> := [];
    while true
      invariant fresh(writer) && writer.store == store
      invariant done + rx.queue == old(rx.queue)
      invariant writer.Value() == SavedAll(start, done)
      decreases |rx.queue|
    {
      ghost var queued := rx.queue;
      var first := rx.Recv();
      if first.None? {
        break;
      }
      var latest, batch := LatestPerSession(first.value, rx);
      ghost var before := writer.Value();
      SaveBatch(writer, latest);
      SameLastSameBooks(before, latest, batch);
      SavedAllAppend(start, done, batch);
      assert done + queued == done + batch + rx.queue;
      done := done + batch;
    }
    assert done == old(rx.queue);
    writer.Finish();
  }

  /** At the end a session is in the store exactly when its last snapshot was not blank, or none came
      and it was there before; and it is stored as that snapshot. */
  lemma AbsentIffBlank(sessions: map<string, Snapshot>, ss: seq<Snapshot>, id: string)
    ensures var end := Finished(SavedAll(Books(sessions, {}), ss));
            match LastOf(ss, id)
            case Some(s) =>
              (id in end <==> s.conversation != [] || s.title.Some?) && (id in end ==> end[id] == s)
            case None => (id in end <==> id in sessions) && (id in end ==> end[id] == sessions[id])
  {
    SavedAllKeepsTheLast(Books(sessions, {}), ss, id);
  }
}
