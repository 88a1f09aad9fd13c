/** The outbox relay of internal/worker, the outbox table it drains and the queue it feeds. */
module Relay {
  import opened Wrappers
  import opened Domain
  import V = Provision

  /** An outbox row; `key` is its idempotency_key, `stamped` says that enqueued_at is set. */
  datatype Row = Row(key: Id, payload: V.Payload, createdAt: int, stamped: bool)
  type Table = map<Id, Row>

  /** What a relay remembers of a row it listed. */
  datatype Listed = Listed(id: Id, key: Id, payload: V.Payload)

  /** Tasks by task id, and the payloads whose uniqueness lock is held. */
  datatype Queue = Queue(tasks: map<Id, V.Payload>, locks: set<V.Payload>)

  datatype EnqueueReply = Accepted | TaskIDConflict | DuplicateTask | EnqueueFailed

  function Unsent(t: Table): set<Id> {
    set r | r in t && !t[r].stamped
  }

  /** TaskID and Unique together; the queue may check either first, and takes the lock when it
      checks the lock first even if the id then conflicts. */
  function Admit(q: Queue, id: Id, p: V.Payload, idFirst: bool): (Queue, EnqueueReply) {
    if idFirst && id in q.tasks then (q, TaskIDConflict)
    else if p in q.locks then (q, DuplicateTask)
    else if id in q.tasks then (q.(locks := q.locks + {p}), TaskIDConflict)
    else (Queue(q.tasks[id := p], q.locks + {p}), Accepted)
  }

  function EnqueueOne(q: Queue, row: Listed, o: Outcome, idFirst: bool): Queue {
    if o.Effective() then Admit(q, row.key, row.payload, idFirst).0 else q
  }

  function EnqueueAll(q: Queue, rows: seq<Listed>, os: Id -> Outcome, idFirst: bool): Queue {
    if rows == [] then q
    else
      var n := |rows| - 1;
      EnqueueOne(EnqueueAll(q, rows[..n], os, idFirst), rows[n], os(rows[n].id), idFirst)
  }

  /** The rows whose enqueue came back without an error, conflicts included. */
  function Taken(rows: seq<Listed>, os: Id -> Outcome): seq<Id> {
    if rows == [] then []
    else
      var n := |rows| - 1;
      Taken(rows[..n], os) + if os(rows[n].id).Seen() then [rows[n].id] else []
  }

  function Stamp(t: Table, ids: seq<Id>): Table {
    map r | r in t :: if r in ids then t[r].(stamped := true) else t[r]
  }

  function SnapshotOf(t: Table, ids: seq<Id>): (rows: seq<Listed>)
    requires forall r :: r in ids ==> r in t
    ensures |rows| == |ids|
    ensures forall i :: 0 <= i < |ids| ==> rows[i] == Listed(ids[i], t[ids[i]].key, t[ids[i]].payload)
  {
    seq(|ids|, i requires 0 <= i < |ids| => Listed(ids[i], t[ids[i]].key, t[ids[i]].payload))
  }

  /** WHERE enqueued_at IS NULL ORDER BY created_at LIMIT limit; ties come in any order. */
  ghost predicate IsListing(t: Table, ids: seq<Id>, limit: nat) {
    && (forall i :: 0 <= i < |ids| ==> ids[i] in Unsent(t))
    && (forall i, j :: 0 <= i < j < |ids| ==> ids[i] != ids[j] && t[ids[i]].createdAt <= t[ids[j]].createdAt)
    && |ids| <= limit
    && (|ids| == limit || forall r :: r in Unsent(t) ==> r in ids)
    && (forall i, q :: 0 <= i < |ids| && q in Unsent(t) && q !in ids ==> t[ids[i]].createdAt <= t[q].createdAt)
  }

  class OutboxStore {
    var rows: Table

    constructor ()
      ensures rows == map[]
    {
      rows := map[];
    }

    method Oldest(among: set<Id>) returns (r: Id)
      requires among != {} && among <= rows.Keys
      ensures r in among && forall q :: q in among ==> rows[r].createdAt <= rows[q].createdAt
    {
      r :| r in among;
      var rest := among - {r};
      while rest != {}
        invariant r in among && rest <= among
        invariant forall q :: q in among && q !in rest ==> rows[r].createdAt <= rows[q].createdAt
        decreases rest
      {
        var q :| q in rest;
        rest := rest - {q};
        if rows[q].createdAt < rows[r].createdAt {
          r := q;
        }
      }
    }

    method ListPendingOutbox(limit: nat) returns (ids: seq<Id>)
      ensures IsListing(rows, ids, limit)
    {
      ids := [];
      var rest := set r | r in rows && !rows[r].stamped;
      while |ids| < limit && rest != {}
        invariant rest <= Unsent(rows) && |ids| <= limit
        invariant forall r :: r in ids <==> r in Unsent(rows) && r !in rest
        invariant forall i :: 0 <= i < |ids| ==> ids[i] in Unsent(rows)
        invariant forall i, j :: 0 <= i < j < |ids| ==> ids[i] != ids[j] && rows[ids[i]].createdAt <= rows[ids[j]].createdAt
        invariant forall r, q :: r in ids && q in rest ==> rows[r].createdAt <= rows[q].createdAt
        decreases rest
      {
        var r := Oldest(rest);
        rest := rest - {r};
        ids := ids + [r];
      }
    }

    method StampOutboxEnqueued(ids: seq<Id>, o: Outcome) returns (ok: bool)
      modifies this
      ensures ok == (ids == [] || o.Seen())
      ensures rows == if o.Effective() then Stamp(old(rows), ids) else old(rows)
    {
      if ids == [] {
        assert Stamp(rows, ids) == rows;
        return true;
      }
      if o.Effective() {
        rows := map r | r in rows :: if r in ids then rows[r].(stamped := true) else rows[r];
      }
      ok := o.Seen();
    }
  }

  class Client {
    var queue: Queue

    constructor ()
      ensures queue == Queue(map[], {})
    {
      queue := Queue(map[], {});
    }

    method Enqueue(id: Id, p: V.Payload, o: Outcome, idFirst: bool) returns (reply: EnqueueReply)
      modifies this
      ensures queue == EnqueueOne(old(queue), Listed(id, id, p), o, idFirst)
      ensures reply == if o.Seen() then Admit(old(queue), id, p, idFirst).1 else EnqueueFailed
    {
      var r := Admit(queue, id, p, idFirst);
      if o.Effective() {
        queue := r.0;
      }
      reply := if o.Seen() then r.1 else EnqueueFailed;
    }
  }

  class OutboxRelay {
    const store: OutboxStore
    const client: Client
    const batchSize: nat

    constructor (store: OutboxStore, client: Client, batchSize: int)
      ensures this.store == store && this.client == client
      ensures this.batchSize == if batchSize <= 0 then 100 else batchSize
    {
      this.store, this.client := store, client;
      this.batchSize := if batchSize <= 0 then 100 else batchSize;
    }

    /** Both conflicts mean that it is queued already. */
    method EnqueueRow(row: Listed, o: Outcome, idFirst: bool) returns (ok: bool)
      modifies client
      ensures client.queue == EnqueueOne(old(client.queue), row, o, idFirst)
      ensures ok == o.Seen()
    {
      var reply := client.Enqueue(row.key, row.payload, o, idFirst);
      match reply {
        case Accepted => ok := true;
        case TaskIDConflict => ok := true;
        case DuplicateTask => ok := true;
        case EnqueueFailed => ok := false;
      }
    }

    method Tick(listFails: bool, os: Id -> Outcome, idFirst: bool, stamp: Outcome) returns (ok: bool, ghost ids: seq<Id>)
      modifies store, client
      ensures listFails ==> !ok && store.rows == old(store.rows) && client.queue == old(client.queue)
      ensures !listFails ==>
        && IsListing(old(store.rows), ids, batchSize)
        && client.queue == EnqueueAll(old(client.queue), SnapshotOf(old(store.rows), ids), os, idFirst)
        && var taken := Taken(SnapshotOf(old(store.rows), ids), os);
        && store.rows == (if stamp.Effective() then Stamp(old(store.rows), taken) else old(store.rows))
        && ok == (taken == [] || stamp.Seen())
    {
      ids := [];
      if listFails {
        return false, ids;
      }
      var listed := store.ListPendingOutbox(batchSize);
      ids := listed;
      var rows := SnapshotOf(store.rows, listed);
      var stamped := EnqueueBatch(rows, os, idFirst);
      ok := store.StampOutboxEnqueued(stamped, stamp);
    }

    /** tick's loop: an enqueue that fails is left for the next tick. */
    method EnqueueBatch(rows: seq<Listed>, os: Id -> Outcome, idFirst: bool) returns (stamped: seq<Id>)
      modifies client
      ensures client.queue == EnqueueAll(old(client.queue), rows, os, idFirst)
      ensures stamped == Taken(rows, os)
    {
      stamped := [];
      for i := 0 to |rows|
        invariant client.queue == EnqueueAll(old(client.queue), rows[..i], os, idFirst)
        invariant stamped == Taken(rows[..i], os)
      {
        assert rows[..i + 1][..i] == rows[..i];
        var enqueued := EnqueueRow(rows[i], os(rows[i].id), idFirst);
        if enqueued {
          stamped := stamped + [rows[i].id];
        }
      }
      assert rows[..|rows|] == rows;
    }
  }

  // ---- What reaches the queue ----

  /** An enqueue is accepted when neither its id nor its payload is taken; each refusal names what is
      taken, and only an accepted task is added. An accepted payload is taken from then on. */
  lemma AdmitIs(q: Queue, id: Id, p: V.Payload, idFirst: bool)
    ensures var r := Admit(q, id, p, idFirst);
      && (r.1.Accepted? <==> id !in q.tasks && p !in q.locks)
      && (r.1.TaskIDConflict? ==> id in q.tasks) && (r.1.DuplicateTask? ==> p in q.locks) && !r.1.EnqueueFailed?
      && r.0.tasks == (if r.1.Accepted? then q.tasks[id := p] else q.tasks)
      && q.locks <= r.0.locks <= q.locks + {p} && (r.1.Accepted? ==> p in r.0.locks)
  {
  }

  /** Nothing that was queued is lost, and nothing comes in but what a listed row's enqueue brought. */
  lemma {:induction false} QueueGrowsByTheBatch(q: Queue, rows: seq<Listed>, os: Id -> Outcome, idFirst: bool, key: Id)
    ensures var q' := EnqueueAll(q, rows, os, idFirst);
      && q.locks <= q'.locks
      && (key in q.tasks ==> key in q'.tasks && q'.tasks[key] == q.tasks[key])
      && (key in q'.tasks && key !in q.tasks ==>
            exists i :: 0 <= i < |rows| && rows[i].key == key && os(rows[i].id) != Rejected && q'.tasks[key] == rows[i].payload)
    decreases |rows|
  {
    if rows != [] {
      var n := |rows| - 1;
      QueueGrowsByTheBatch(q, rows[..n], os, idFirst, key);
      AdmitIs(EnqueueAll(q, rows[..n], os, idFirst), rows[n].key, rows[n].payload, idFirst);
    }
  }

  /** Every listed row whose enqueue is not rejected is queued under its key afterwards, or its payload
      is taken by another task. */
  lemma {:induction false} BatchIsQueued(q: Queue, rows: seq<Listed>, os: Id -> Outcome, idFirst: bool, i: nat)
    requires i < |rows| && os(rows[i].id) != Rejected
    ensures var q' := EnqueueAll(q, rows, os, idFirst);
      rows[i].key in q'.tasks || rows[i].payload in q'.locks
    decreases |rows|
  {
    var n := |rows| - 1;
    AdmitIs(EnqueueAll(q, rows[..n], os, idFirst), rows[n].key, rows[n].payload, idFirst);
    if i < n {
      BatchIsQueued(q, rows[..n], os, idFirst, i);
    }
  }

  /** A row is stamped by a tick exactly when it was before, or it was listed and its enqueue came
      back without an error; nothing else about any row changes. */
  lemma StampedByATickIff(t: Table, ids: seq<Id>, os: Id -> Outcome, r: Id)
    requires (forall i :: 0 <= i < |ids| ==> ids[i] in t) && r in t
    ensures var t' := Stamp(t, Taken(SnapshotOf(t, ids), os));
      && t'.Keys == t.Keys && t'[r] == t[r].(stamped := t'[r].stamped)
      && (t'[r].stamped <==> t[r].stamped || (r in ids && os(r) == Done))
  {
    SnapshotTaken(t, ids, os, r);
  }

  // ---- Progress despite rows that never enqueue ----

  lemma {:induction false} TakenIs(rows: seq<Listed>, os: Id -> Outcome, id: Id)
    ensures id in Taken(rows, os) <==> exists i :: 0 <= i < |rows| && rows[i].id == id && os(id).Seen()
    decreases |rows|
  {
    if rows != [] {
      var n := |rows| - 1;
      TakenIs(rows[..n], os, id);
      assert rows == rows[..n] + [rows[n]];
    }
  }

  lemma SnapshotTaken(t: Table, ids: seq<Id>, os: Id -> Outcome, r: Id)
    requires forall i :: 0 <= i < |ids| ==> ids[i] in t
    ensures r in Taken(SnapshotOf(t, ids), os) <==> r in ids && os(r).Seen()
  {
    var rows := SnapshotOf(t, ids);
    TakenIs(rows, os, r);
    if r in ids {
      var i :| 0 <= i < |ids| && ids[i] == r;
      assert rows[i].id == r;
    }
  }

  /** Rows that still wait, of those in `ids`. */
  function Waiting(t: Table, ids: set<Id>): set<Id> {
    Unsent(t) * ids
  }

  /** Every other pending row is strictly younger than the rows in `old_`. */
  ghost predicate Eldest(t: Table, eldest: set<Id>) {
    && eldest <= t.Keys
    && forall r, q :: r in eldest && q in Unsent(t) && q !in eldest ==> t[r].createdAt < t[q].createdAt
  }

  /** What a tick whose list and stamp succeed leaves behind, whatever else happens meanwhile: the
      listed rows outside `stuck` are stamped, and no stamp is lost. */
  ghost predicate Ticked(t: Table, t': Table, ids: seq<Id>, stuck: set<Id>, limit: nat) {
    && IsListing(t, ids, limit)
    && t.Keys <= t'.Keys
    && (forall r :: r in t ==> t'[r].createdAt == t[r].createdAt && (t[r].stamped ==> t'[r].stamped))
    && (forall r :: r in ids && r !in stuck ==> t'[r].stamped)
  }

  /** The relay's own tick is one of these when every row outside `stuck` enqueues. */
  lemma TickTicks(t: Table, ids: seq<Id>, os: Id -> Outcome, stuck: set<Id>, limit: nat)
    requires IsListing(t, ids, limit)
    requires forall r :: r in t && r !in stuck ==> os(r).Done?
    ensures Ticked(t, Stamp(t, Taken(SnapshotOf(t, ids), os)), ids, stuck, limit)
  {
    forall r | r in ids && r !in stuck
      ensures r in Taken(SnapshotOf(t, ids), os)
    {
      SnapshotTaken(t, ids, os, r);
    }
  }

  lemma {:induction false} DistinctCount(ids: seq<Id>, members: set<Id>)
    requires forall i, j :: 0 <= i < j < |ids| ==> ids[i] != ids[j]
    requires forall r :: r in members <==> r in ids
    ensures |members| == |ids|
    decreases |ids|
  {
    if ids == [] {
      assert members == {};
    } else {
      var n := |ids| - 1;
      assert forall r :: r in ids <==> r in ids[..n] || r == ids[n];
      DistinctCount(ids[..n], members - {ids[n]});
    }
  }

  function Least(a: int, b: int): int {
    if a <= b then a else b
  }

  /** If some eldest row that could be enqueued was not listed, the batch was full of eldest rows. */
  lemma FullBatchOfEldest(t: Table, ids: seq<Id>, eldest: set<Id>, stuck: set<Id>, limit: nat, listed: set<Id>, missed: Id)
    requires IsListing(t, ids, limit) && Eldest(t, eldest) && stuck <= eldest
    requires forall r :: r in listed <==> r in ids
    requires missed in Waiting(t, eldest - stuck) && missed !in ids
    ensures |listed * Waiting(t, eldest - stuck)| >= limit - |stuck|
  {
    DistinctCount(ids, listed);
    assert listed <= eldest;
    assert listed == (listed * Waiting(t, eldest - stuck)) + (listed * stuck);
    SubsetSize(listed * stuck, stuck);
  }

  /** A tick's listed rows wait no more, and no other row starts to. */
  lemma TickedLeaves(t: Table, t': Table, ids: seq<Id>, eldest: set<Id>, stuck: set<Id>, limit: nat, listed: set<Id>)
    requires Ticked(t, t', ids, stuck, limit) && eldest <= t.Keys
    requires forall r :: r in listed <==> r in ids
    ensures Waiting(t', eldest - stuck) <= Waiting(t, eldest - stuck) - listed
  {
  }

  lemma CountLeft(before: set<Id>, after: set<Id>, listed: set<Id>, room: int)
    requires after <= before - listed
    requires before <= listed || |listed * before| >= room
    ensures |after| + Least(room, |before|) <= |before|
  {
    SubsetSize(after, before - listed);
    assert before == (before - listed) + (listed * before);
    if before <= listed {
      assert before - listed == {};
    }
  }

  /** A tick stamps all the eldest rows that can be enqueued, or a batch less the stuck ones. */
  lemma TickProgress(t: Table, t': Table, ids: seq<Id>, eldest: set<Id>, stuck: set<Id>, limit: nat)
    requires Ticked(t, t', ids, stuck, limit) && Eldest(t, eldest)
    requires stuck <= eldest && |stuck| < limit
    ensures |Waiting(t', eldest - stuck)| + Least(limit - |stuck|, |Waiting(t, eldest - stuck)|)
         <= |Waiting(t, eldest - stuck)|
  {
    var before, after := Waiting(t, eldest - stuck), Waiting(t', eldest - stuck);
    var listed := set r | r in ids;
    TickedLeaves(t, t', ids, eldest, stuck, limit, listed);
    if missed :| missed in before && missed !in listed {
      FullBatchOfEldest(t, ids, eldest, stuck, limit, listed, missed);
    }
    CountLeft(before, after, listed, limit - |stuck|);
  }

  /** The tables before and after each tick of a run; whatever arrives is younger than `eldest`. */
  ghost predicate TickRun(ts: seq<Table>, eldest: set<Id>, stuck: set<Id>, limit: nat) {
    && (forall i :: 0 <= i < |ts| ==> Eldest(ts[i], eldest))
    && forall i :: 0 <= i < |ts| - 1 ==> TicksTo(ts[i], ts[i + 1], stuck, limit)
  }

  ghost predicate TicksTo(t: Table, t': Table, stuck: set<Id>, limit: nat) {
    exists ids :: Ticked(t, t', ids, stuck, limit)
  }

  /** k ticks leave at most n - k * (limit - |stuck|) of n rows waiting. */
  lemma {:induction false} TicksDrain(ts: seq<Table>, eldest: set<Id>, stuck: set<Id>, limit: nat, k: nat)
    requires TickRun(ts, eldest, stuck, limit) && k < |ts|
    requires stuck <= eldest && |stuck| < limit
    ensures |Waiting(ts[k], eldest - stuck)| == 0
         || |Waiting(ts[k], eldest - stuck)| + k * (limit - |stuck|) <= |Waiting(ts[0], eldest - stuck)|
    decreases k
  {
    if k > 0 {
      TicksDrain(ts, eldest, stuck, limit, k - 1);
      assert TicksTo(ts[k - 1], ts[k - 1 + 1], stuck, limit);
      var ids :| Ticked(ts[k - 1], ts[k], ids, stuck, limit);
      TickProgress(ts[k - 1], ts[k], ids, eldest, stuck, limit);
      assert k * (limit - |stuck|) == (k - 1) * (limit - |stuck|) + (limit - |stuck|);
    }
  }

  function CeilDiv(n: nat, d: nat): nat
    requires d > 0
  {
    (n + d - 1) / d
  }

  lemma CeilDivCovers(n: nat, d: nat, k: nat)
    requires d > 0 && k >= CeilDiv(n, d)
    ensures k * d >= n
  {
    var c := CeilDiv(n, d);
    assert c * d + d > n + d - 1;
    assert k * d == c * d + (k - c) * d;
  }

  /** n rows are all stamped within ceil(n / (limit - |stuck|)) ticks, in whatever order rows of
      one created_at come and whatever arrives meanwhile, as long as it is strictly younger. */
  lemma AllStampedInTime(ts: seq<Table>, eldest: set<Id>, stuck: set<Id>, limit: nat, k: nat)
    requires TickRun(ts, eldest, stuck, limit) && k < |ts|
    requires stuck <= eldest && |stuck| < limit
    requires k >= CeilDiv(|Waiting(ts[0], eldest - stuck)|, limit - |stuck|)
    ensures forall r :: r in eldest && r !in stuck ==> ts[k][r].stamped
  {
    TicksDrain(ts, eldest, stuck, limit, k);
    var n, d := |Waiting(ts[0], eldest - stuck)|, limit - |stuck|;
    CeilDivCovers(n, d, k);
    var left := Waiting(ts[k], eldest - stuck);
    assert |left| == 0;
    forall r | r in eldest && r !in stuck
      ensures ts[k][r].stamped
    {
      assert r !in left;
    }
  }

  /** A full batch of older rows that never enqueue is all a relay ever lists. */
  lemma StuckBatchStarves(t: Table, ids: seq<Id>, stuck: set<Id>, limit: nat)
    requires IsListing(t, ids, limit) && Eldest(t, stuck) && stuck <= Unsent(t) && |stuck| >= limit
    ensures forall r :: r in ids ==> r in stuck
  {
    var listed := set r | r in ids;
    DistinctCount(ids, listed);
    if r :| r in ids && r !in stuck {
      assert stuck <= listed;
      SubsetSize(stuck, listed - {r});
    }
  }

  lemma RoomForOthers(t: Table, ids: seq<Id>, stuck: set<Id>, limit: nat) returns (r: Id)
    requires IsListing(t, ids, limit) && Unsent(t) - stuck != {} && |stuck| < limit
    ensures r in ids && r !in stuck
  {
    var other :| other in Unsent(t) - stuck;
    if other in ids {
      return other;
    }
    var listed := set r | r in ids;
    DistinctCount(ids, listed);
    SubsetSize(listed * stuck, stuck);
    assert listed == (listed * stuck) + (listed - stuck);
    r :| r in listed - stuck;
  }

  lemma StampStamps(t: Table, ids: seq<Id>)
    ensures Unsent(Stamp(t, ids)) == set r | r in Unsent(t) && r !in ids
  {
  }

  /** With the stuck rows the oldest ones, a tick stamps some other waiting row iff they leave
      room for it in the batch. */
  lemma MovesIff(t: Table, ids: seq<Id>, os: Id -> Outcome, stuck: set<Id>, limit: nat)
    requires IsListing(t, ids, limit) && Eldest(t, stuck) && stuck <= Unsent(t) && Unsent(t) - stuck != {}
    requires forall r :: r in t ==> os(r) == if r in stuck then Rejected else Done
    ensures Unsent(Stamp(t, Taken(SnapshotOf(t, ids), os))) < Unsent(t) <==> |stuck| < limit
  {
    var taken := Taken(SnapshotOf(t, ids), os);
    StampStamps(t, taken);
    if |stuck| < limit {
      var r := RoomForOthers(t, ids, stuck, limit);
      SnapshotTaken(t, ids, os, r);
      assert r in Unsent(t);
    } else {
      StuckBatchStarves(t, ids, stuck, limit);
      forall r
        ensures r !in taken
      {
        SnapshotTaken(t, ids, os, r);
      }
    }
  }
}
