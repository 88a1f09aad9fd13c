/** The transactional outbox as a protocol: any number of relays that can crash between any two of
    their steps, requests that commit first and patch the payload later, a queue that forgets. */
module Outbox {
  import opened Wrappers
  import opened Domain
  import opened Relay
  import V = Provision

  /** A relay in the middle of a tick: what it listed, how far it got, what it means to stamp.
      `listing` is the number of its listing among all that were ever made. */
  datatype Batch = Batch(rows: seq<Listed>, next: nat, stamped: seq<Id>, listing: nat)

  /** What the request that wrote a row patches into it: its space's id, and the category asked for. */
  datatype Want = Want(space: Id, category: Id)

  /** What has happened so far. `born` and `retired` count, by task id, the tasks the queue ever
      accepted and ever forgot; `patched` are the rows whose patch has landed, `seen` the value of
      `patched` at each listing, and `origin` the listing each queued task came from. */
  datatype History = History(born: multiset<Id>, retired: multiset<Id>,
                             patched: set<Id>, seen: seq<set<Id>>, origin: map<Id, nat>)

  datatype State = State(t: Table, wants: map<Id, Want>, q: Queue, relays: map<nat, Batch>, h: History)

  datatype Event =
    | Commit(id: Id, key: Id, merchant: Id, want: Want, createdAt: int)  // CreateSpaceWithOutbox
    | Patch(id: Id)                                                      // UpdateOutboxPayload
    | List(relay: nat, ids: seq<Id>, limit: nat)
    | EnqueueNext(relay: nat, o: Outcome, idFirst: bool)
    | StampBatch(relay: nat, o: Outcome)
    | Crash(relay: nat)
    | Retire(key: Id)                                                    // the queue forgets a task it is done with
    | Unlock(p: V.Payload)                                               // a uniqueness lock is released or expires

  ghost predicate Enabled(s: State, e: Event) {
    match e
    case Commit(id, key, merchant, want, _) =>
      && id !in s.t && want.space != ""
      && forall r :: r in s.t ==> s.t[r].key != key && s.t[r].payload.merchant != merchant
    case Patch(id) => id in s.t && id in s.wants
    case List(relay, ids, limit) => relay !in s.relays && IsListing(s.t, ids, limit)
    case EnqueueNext(relay, _, _) => relay in s.relays && s.relays[relay].next < |s.relays[relay].rows|
    case StampBatch(relay, _) => relay in s.relays && s.relays[relay].next == |s.relays[relay].rows|
    case Crash(relay) => relay in s.relays
    case Retire(key) => key in s.q.tasks
    case Unlock(_) => true
  }

  /** The payload a row has from its commit on, or from its patch on. */
  function Due(merchant: Id, want: Want, patched: bool): V.Payload {
    if patched then V.Payload(merchant, want.space, want.category) else V.Payload(merchant, "", "")
  }

  /** Only a row that is not stamped takes the patch. */
  function Patched(s: State, id: Id): State
    requires id in s.t && id in s.wants
  {
    if s.t[id].stamped then s
    else
      s.(t := s.t[id := s.t[id].(payload := Due(s.t[id].payload.merchant, s.wants[id], true))],
         h := s.h.(patched := s.h.patched + {id}))
  }

  function Listing(s: State, relay: nat, rows: seq<Listed>): State {
    s.(relays := s.relays[relay := Batch(rows, 0, [], |s.h.seen|)], h := s.h.(seen := s.h.seen + [s.h.patched]))
  }

  function Recorded(h: History, key: Id, accepted: bool, listing: nat): History {
    if accepted then h.(born := h.born + multiset{key}, origin := h.origin[key := listing]) else h
  }

  function Enqueued(s: State, relay: nat, o: Outcome, idFirst: bool): State
    requires relay in s.relays && s.relays[relay].next < |s.relays[relay].rows|
  {
    var b := s.relays[relay];
    var row := b.rows[b.next];
    var accepted := o.Effective() && Admit(s.q, row.key, row.payload, idFirst).1.Accepted?;
    s.(q := EnqueueOne(s.q, row, o, idFirst),
       relays := s.relays[relay := b.(next := b.next + 1, stamped := b.stamped + if o.Seen() then [row.id] else [])],
       h := Recorded(s.h, row.key, accepted, b.listing))
  }

  ghost function Next(s: State, e: Event): State
    requires Enabled(s, e)
  {
    match e
    case Commit(id, key, merchant, want, createdAt) =>
      s.(t := s.t[id := Row(key, Due(merchant, want, false), createdAt, false)], wants := s.wants[id := want])
    case Patch(id) => Patched(s, id)
    case List(relay, ids, _) => Listing(s, relay, SnapshotOf(s.t, ids))
    case EnqueueNext(relay, o, idFirst) => Enqueued(s, relay, o, idFirst)
    case StampBatch(relay, o) =>
      s.(t := if o.Effective() then Stamp(s.t, s.relays[relay].stamped) else s.t, relays := s.relays - {relay})
    case Crash(relay) => s.(relays := s.relays - {relay})
    case Retire(key) =>
      s.(q := s.q.(tasks := s.q.tasks - {key}), h := s.h.(retired := s.h.retired + multiset{key}))
    case Unlock(p) => s.(q := s.q.(locks := s.q.locks - {p}))
  }

  ghost predicate CanRun(s: State, es: seq<Event>)
    decreases es
  {
    es == [] || (Enabled(s, es[0]) && CanRun(Next(s, es[0]), es[1..]))
  }

  ghost function Run(s: State, es: seq<Event>): State
    requires CanRun(s, es)
    decreases es
  {
    if es == [] then s else Run(Next(s, es[0]), es[1..])
  }

  // ---- The invariant ----

  /** UNIQUE (idempotency_key), and one space per merchant. */
  ghost predicate Distinct(t: Table) {
    forall r, q | r in t && q in t ::
      t[r].key == t[q].key || t[r].payload.merchant == t[q].payload.merchant ==> r == q
  }

  /** The row this stands for, by key and merchant. */
  ghost predicate Known(t: Table, row: Listed) {
    row.id in t && t[row.id].key == row.key && t[row.id].payload.merchant == row.payload.merchant
  }

  predicate Born(s: State, id: Id) {
    id in s.t && s.t[id].key in s.h.born
  }

  ghost predicate LockBacked(s: State, p: V.Payload) {
    exists r :: Born(s, r) && s.t[r].payload.merchant == p.merchant
  }

  ghost predicate BatchInv(s: State, b: Batch) {
    && b.next <= |b.rows|
    && (forall i :: 0 <= i < |b.rows| ==> Known(s.t, b.rows[i]))
    && (forall id :: id in b.stamped ==> Born(s, id))
  }

  ghost predicate Inv(s: State) {
    && Distinct(s.t)
    && (forall p :: p in s.q.locks ==> LockBacked(s, p))
    && (forall k :: s.h.born[k] == s.h.retired[k] + if k in s.q.tasks then 1 else 0)
    && (forall n :: n in s.relays ==> BatchInv(s, s.relays[n]))
    && (forall r :: r in s.t && s.t[r].stamped ==> Born(s, r))
  }

  /** Rows keep their keys and merchants, and births are not undone. */
  ghost predicate Grows(s: State, s': State) {
    && s.h.born <= s'.h.born
    && forall r | r in s.t ::
         r in s'.t && s'.t[r].key == s.t[r].key && s'.t[r].payload.merchant == s.t[r].payload.merchant
  }

  lemma GrowthKeeps(s: State, s': State)
    requires Grows(s, s')
    ensures forall b | BatchInv(s, b) :: BatchInv(s', b)
    ensures forall p | LockBacked(s, p) :: LockBacked(s', p)
    ensures forall id | Born(s, id) :: Born(s', id)
  {
  }

  lemma StepGrows(s: State, e: Event)
    requires Enabled(s, e)
    ensures Grows(s, Next(s, e))
  {
  }

  /** An enqueue without an error means that the queue has at some time accepted the row's own task id. */
  lemma EnqueuedIsBorn(s: State, relay: nat, o: Outcome, idFirst: bool)
    requires Inv(s) && relay in s.relays && s.relays[relay].next < |s.relays[relay].rows|
    ensures var row := s.relays[relay].rows[s.relays[relay].next];
      var s' := Enqueued(s, relay, o, idFirst);
      && (o.Effective() ==> Born(s', row.id))
      && (forall p :: p in s'.q.locks ==> p in s.q.locks || (o.Effective() && p == row.payload))
  {
  }

  lemma BirthsAreCounted(s: State, relay: nat, o: Outcome, idFirst: bool)
    requires relay in s.relays && s.relays[relay].next < |s.relays[relay].rows|
    requires forall k :: s.h.born[k] == s.h.retired[k] + if k in s.q.tasks then 1 else 0
    ensures var s' := Enqueued(s, relay, o, idFirst);
      forall k :: s'.h.born[k] == s'.h.retired[k] + if k in s'.q.tasks then 1 else 0
  {
  }

  lemma EnqueueKeepsInv(s: State, relay: nat, o: Outcome, idFirst: bool)
    requires Inv(s) && relay in s.relays && s.relays[relay].next < |s.relays[relay].rows|
    ensures Inv(Enqueued(s, relay, o, idFirst))
  {
    var row := s.relays[relay].rows[s.relays[relay].next];
    var s' := Enqueued(s, relay, o, idFirst);
    assert BatchInv(s, s.relays[relay]) && Known(s.t, row);
    BirthsAreCounted(s, relay, o, idFirst);
    EnqueuedIsBorn(s, relay, o, idFirst);
    GrowthKeeps(s, s');
    forall p | p in s'.q.locks
      ensures LockBacked(s', p)
    {
      if p in s.q.locks {
        assert LockBacked(s, p);
      } else {
        assert Born(s', row.id);
      }
    }
    assert BatchInv(s', s.relays[relay]);
  }

  lemma ListKeepsInv(s: State, e: Event)
    requires Inv(s) && e.List? && Enabled(s, e)
    ensures Inv(Next(s, e))
  {
  }

  lemma StampKeepsInv(s: State, e: Event)
    requires Inv(s) && e.StampBatch? && Enabled(s, e)
    ensures Inv(Next(s, e))
  {
    StepGrows(s, e);
    GrowthKeeps(s, Next(s, e));
    assert BatchInv(s, s.relays[e.relay]);
  }

  lemma TableKeepsInv(s: State, e: Event)
    requires Inv(s) && (e.Commit? || e.Patch?) && Enabled(s, e)
    ensures Inv(Next(s, e))
  {
    StepGrows(s, e);
    GrowthKeeps(s, Next(s, e));
  }

  lemma StepKeepsInv(s: State, e: Event)
    requires Inv(s) && Enabled(s, e)
    ensures Inv(Next(s, e))
  {
    match e
    case EnqueueNext(relay, o, idFirst) => EnqueueKeepsInv(s, relay, o, idFirst);
    case List(_, _, _) => ListKeepsInv(s, e);
    case StampBatch(_, _) => StampKeepsInv(s, e);
    case Commit(_, _, _, _, _) => TableKeepsInv(s, e);
    case Patch(_) => TableKeepsInv(s, e);
    case _ => GrowthKeeps(s, Next(s, e));
  }

  lemma {:induction false} RunKeepsInv(s: State, es: seq<Event>)
    requires Inv(s) && CanRun(s, es)
    ensures Inv(Run(s, es))
    decreases es
  {
    if es != [] {
      StepKeepsInv(s, es[0]);
      RunKeepsInv(Next(s, es[0]), es[1..]);
    }
  }

  const EMPTY := State(map[], map[], Queue(map[], {}), map[], History(multiset{}, multiset{}, {}, [], map[]))

  /** Whatever the relays do and wherever they crash: a stamped row's task was accepted by the
      queue, and as long as the queue has forgotten no task of that id there is exactly one. */
  lemma StampedMeansOneTask(es: seq<Event>, id: Id)
    requires CanRun(EMPTY, es) && id in Run(EMPTY, es).t
    ensures var s := Run(EMPTY, es);
      var key := s.t[id].key;
      && s.h.born[key] <= s.h.retired[key] + 1
      && (s.t[id].stamped ==> s.h.born[key] >= 1)
      && (s.t[id].stamped && s.h.retired[key] == 0 ==> s.h.born[key] == 1 && key in s.q.tasks)
  {
    RunKeepsInv(EMPTY, es);
    var s := Run(EMPTY, es);
    if s.t[id].stamped {
      assert Born(s, id);
    }
  }

  /** The uniqueness lock alone does not mean that: with equal payloads under two keys, an enqueue
      without an error leaves its own task id in the queue iff it was there or no lock was held. */
  lemma OwnTaskIff(q: Queue, id: Id, p: V.Payload, idFirst: bool)
    ensures id in Admit(q, id, p, idFirst).0.tasks <==> id in q.tasks || p !in q.locks
    ensures Admit(q, id, p, idFirst).1 != EnqueueFailed
  {
  }

  // ---- Tasks listed before the space id was patched in ----

  ghost predicate HasKey(t: Table, key: Id) {
    exists r :: r in t && t[r].key == key
  }

  /** Every copy of a row is what the row was at the listing it was copied in. */
  ghost predicate CopiesOf(s: State, b: Batch) {
    && b.listing < |s.h.seen|
    && forall i :: 0 <= i < |b.rows| ==> IsCopy(s, b.rows[i], b.listing)
  }

  ghost predicate IsCopy(s: State, row: Listed, listing: nat)
    requires listing < |s.h.seen|
  {
    && row.id in s.t && row.id in s.wants && row.key == s.t[row.id].key
    && row.payload == Due(s.t[row.id].payload.merchant, s.wants[row.id], row.id in s.h.seen[listing])
  }

  /** What is queued under the row's key is a copy of the row from the listing on record. */
  ghost predicate QueuedCopy(s: State, id: Id)
    requires id in s.t && id in s.wants
  {
    var key := s.t[id].key;
    key in s.q.tasks ==>
      && key in s.h.origin && s.h.origin[key] < |s.h.seen|
      && s.q.tasks[key] == Due(s.t[id].payload.merchant, s.wants[id], id in s.h.seen[s.h.origin[key]])
  }

  ghost predicate Provenance(s: State) {
    && s.wants.Keys == s.t.Keys && s.h.patched <= s.t.Keys
    && (forall r :: r in s.wants ==> s.wants[r].space != "")
    && (forall r :: r in s.t ==> s.t[r].payload == Due(s.t[r].payload.merchant, s.wants[r], r in s.h.patched))
    && (forall n :: n in s.relays ==> CopiesOf(s, s.relays[n]))
    && (forall r :: r in s.t ==> QueuedCopy(s, r))
    && (forall k :: k in s.q.tasks ==> HasKey(s.t, k))
  }

  /** What never changes: keys, merchants and wants of rows, and what past listings saw. */
  ghost predicate Lasts(s: State, s': State) {
    && s.wants.Keys == s.t.Keys && s'.wants.Keys == s'.t.Keys
    && (forall r :: r in s.t ==>
          r in s'.t && s'.t[r].key == s.t[r].key && s'.t[r].payload.merchant == s.t[r].payload.merchant
          && s'.wants[r] == s.wants[r])
    && |s.h.seen| <= |s'.h.seen|
    && forall i :: 0 <= i < |s.h.seen| ==> s'.h.seen[i] == s.h.seen[i]
  }

  lemma CopiesLast(s: State, s': State, b: Batch)
    requires Lasts(s, s') && CopiesOf(s, b)
    ensures CopiesOf(s', b)
  {
    forall i | 0 <= i < |b.rows|
      ensures IsCopy(s', b.rows[i], b.listing)
    {
      assert IsCopy(s, b.rows[i], b.listing);
    }
  }

  lemma EnqueueLeaves(s: State, relay: nat, o: Outcome, idFirst: bool)
    requires relay in s.relays && s.relays[relay].next < |s.relays[relay].rows|
    ensures var s' := Enqueued(s, relay, o, idFirst);
      s'.t == s.t && s'.wants == s.wants && s'.h.seen == s.h.seen
  {
  }

  lemma StepLasts(s: State, e: Event)
    requires Provenance(s) && Enabled(s, e)
    ensures Lasts(s, Next(s, e))
  {
    if e.EnqueueNext? {
      EnqueueLeaves(s, e.relay, e.o, e.idFirst);
    }
  }

  lemma KeysLast(s: State, s': State, key: Id)
    requires Lasts(s, s') && HasKey(s.t, key)
    ensures HasKey(s'.t, key)
  {
    var r :| r in s.t && s.t[r].key == key;
    assert r in s'.t;
  }

  lemma EnqueueKeepsCopies(s: State, relay: nat, o: Outcome, idFirst: bool, n: nat)
    requires Provenance(s) && relay in s.relays && s.relays[relay].next < |s.relays[relay].rows| && n in s.relays
    ensures var s' := Enqueued(s, relay, o, idFirst);
      n in s'.relays && CopiesOf(s', s'.relays[n])
  {
    var s' := Enqueued(s, relay, o, idFirst);
    CopiesLast(s, s', s.relays[n]);
    forall i | 0 <= i < |s'.relays[n].rows|
      ensures IsCopy(s', s'.relays[n].rows[i], s'.relays[n].listing)
    {
      assert IsCopy(s', s.relays[n].rows[i], s.relays[n].listing);
    }
  }

  /** What an enqueue leaves under a key. */
  lemma QueuedUnder(s: State, relay: nat, o: Outcome, idFirst: bool, key: Id)
    requires relay in s.relays && s.relays[relay].next < |s.relays[relay].rows|
    ensures var s', row := Enqueued(s, relay, o, idFirst), s.relays[relay].rows[s.relays[relay].next];
      key in s'.q.tasks ==>
        || (key in s.q.tasks && s'.q.tasks[key] == s.q.tasks[key]
            && (key in s.h.origin ==> key in s'.h.origin && s'.h.origin[key] == s.h.origin[key]))
        || (key == row.key && s'.q.tasks[key] == row.payload
            && key in s'.h.origin && s'.h.origin[key] == s.relays[relay].listing)
  {
  }

  lemma EnqueueKeepsQueuedCopy(s: State, relay: nat, o: Outcome, idFirst: bool, r: Id)
    requires Distinct(s.t) && Provenance(s) && relay in s.relays && s.relays[relay].next < |s.relays[relay].rows|
    requires r in s.t
    ensures QueuedCopy(Enqueued(s, relay, o, idFirst), r)
  {
    var b := s.relays[relay];
    var row := b.rows[b.next];
    QueuedUnder(s, relay, o, idFirst, s.t[r].key);
    assert QueuedCopy(s, r);
    assert CopiesOf(s, b) && IsCopy(s, row, b.listing);
    assert s.t[r].key == row.key ==> r == row.id;
  }

  lemma EnqueueKeepsProvenance(s: State, relay: nat, o: Outcome, idFirst: bool)
    requires Distinct(s.t) && Provenance(s) && relay in s.relays && s.relays[relay].next < |s.relays[relay].rows|
    ensures Provenance(Enqueued(s, relay, o, idFirst))
  {
    var b := s.relays[relay];
    var row := b.rows[b.next];
    var s' := Enqueued(s, relay, o, idFirst);
    assert CopiesOf(s, b) && IsCopy(s, row, b.listing);
    forall n | n in s'.relays
      ensures CopiesOf(s', s'.relays[n])
    {
      EnqueueKeepsCopies(s, relay, o, idFirst, n);
    }
    forall r | r in s'.t
      ensures QueuedCopy(s', r)
    {
      EnqueueKeepsQueuedCopy(s, relay, o, idFirst, r);
    }
    assert HasKey(s.t, row.key);
  }

  lemma ListKeepsProvenance(s: State, e: Event)
    requires Provenance(s) && e.List? && Enabled(s, e)
    ensures Provenance(Next(s, e))
  {
    var s' := Next(s, e);
    StepLasts(s, e);
    forall n | n in s'.relays
      ensures CopiesOf(s', s'.relays[n])
    {
      if n != e.relay {
        CopiesLast(s, s', s.relays[n]);
      }
    }
    forall r | r in s'.t
      ensures QueuedCopy(s', r)
    {
      assert QueuedCopy(s, r);
    }
  }

  /** A step that leaves wants, listings and origins alone, and at most takes tasks away. */
  lemma QuietKeepsQueue(s: State, s': State)
    requires Provenance(s) && Lasts(s, s')
    requires s'.h.origin == s.h.origin && s'.h.seen == s.h.seen && s'.q.tasks.Keys <= s.q.tasks.Keys
    requires forall key :: key in s'.q.tasks ==> s'.q.tasks[key] == s.q.tasks[key]
    requires forall r :: r in s'.t && r !in s.t ==> s'.t[r].key !in s'.q.tasks
    ensures forall r :: r in s'.t ==> QueuedCopy(s', r)
    ensures forall key :: key in s'.q.tasks ==> HasKey(s'.t, key)
  {
    forall r | r in s'.t
      ensures QueuedCopy(s', r)
    {
      if r in s.t {
        assert QueuedCopy(s, r);
      }
    }
    forall key | key in s'.q.tasks
      ensures HasKey(s'.t, key)
    {
      KeysLast(s, s', key);
    }
  }

  lemma QuietKeepsCopies(s: State, s': State)
    requires Provenance(s) && Lasts(s, s')
    requires forall n :: n in s'.relays ==> n in s.relays && s'.relays[n] == s.relays[n]
    ensures forall n :: n in s'.relays ==> CopiesOf(s', s'.relays[n])
  {
    forall n | n in s'.relays
      ensures CopiesOf(s', s'.relays[n])
    {
      CopiesLast(s, s', s.relays[n]);
    }
  }

  lemma CommitKeepsProvenance(s: State, e: Event)
    requires Inv(s) && Provenance(s) && Enabled(s, e) && e.Commit?
    ensures Provenance(Next(s, e))
  {
    StepLasts(s, e);
    QuietKeepsCopies(s, Next(s, e));
    assert e.key in s.q.tasks ==> HasKey(s.t, e.key);
    QuietKeepsQueue(s, Next(s, e));
  }

  lemma OthersKeepCopies(s: State, e: Event)
    requires Provenance(s) && Enabled(s, e) && !e.EnqueueNext? && !e.List? && !e.Commit?
    ensures forall n :: n in Next(s, e).relays ==> CopiesOf(Next(s, e), Next(s, e).relays[n])
  {
    StepLasts(s, e);
    QuietKeepsCopies(s, Next(s, e));
  }

  lemma PatchKeepsQueue(s: State, e: Event)
    requires Provenance(s) && Enabled(s, e) && e.Patch?
    ensures Next(s, e).wants.Keys == Next(s, e).t.Keys
    ensures forall r :: r in Next(s, e).t ==> QueuedCopy(Next(s, e), r)
    ensures forall k :: k in Next(s, e).q.tasks ==> HasKey(Next(s, e).t, k)
  {
    StepLasts(s, e);
    assert Next(s, e).t.Keys == s.t.Keys;
    QuietKeepsQueue(s, Next(s, e));
  }

  lemma StampKeepsQueue(s: State, e: Event)
    requires Provenance(s) && Enabled(s, e) && e.StampBatch?
    ensures Next(s, e).wants.Keys == Next(s, e).t.Keys
    ensures forall r :: r in Next(s, e).t ==> QueuedCopy(Next(s, e), r)
    ensures forall k :: k in Next(s, e).q.tasks ==> HasKey(Next(s, e).t, k)
  {
    StepLasts(s, e);
    assert Next(s, e).t.Keys == s.t.Keys;
    QuietKeepsQueue(s, Next(s, e));
  }

  lemma QueueStepKeepsQueue(s: State, e: Event)
    requires Provenance(s) && Enabled(s, e) && (e.Retire? || e.Crash? || e.Unlock?)
    ensures Next(s, e).wants.Keys == Next(s, e).t.Keys
    ensures forall r :: r in Next(s, e).t ==> QueuedCopy(Next(s, e), r)
    ensures forall k :: k in Next(s, e).q.tasks ==> HasKey(Next(s, e).t, k)
  {
    StepLasts(s, e);
    assert Next(s, e).t.Keys == s.t.Keys;
    QuietKeepsQueue(s, Next(s, e));
  }

  lemma OtherKeepsProvenance(s: State, e: Event)
    requires Provenance(s) && Enabled(s, e) && !e.EnqueueNext? && !e.List? && !e.Commit?
    ensures Provenance(Next(s, e))
  {
    OthersKeepCopies(s, e);
    match e {
      case Patch(_) => PatchKeepsQueue(s, e);
      case StampBatch(_, _) => StampKeepsQueue(s, e);
      case _ => QueueStepKeepsQueue(s, e);
    }
    RowsStayDue(s, e);
  }

  lemma RowsStayDue(s: State, e: Event)
    requires Provenance(s) && Enabled(s, e) && !e.EnqueueNext? && !e.List? && !e.Commit?
    ensures var s' := Next(s, e);
      && s'.wants.Keys == s'.t.Keys && s'.h.patched <= s'.t.Keys
      && (forall r :: r in s'.wants ==> s'.wants[r].space != "")
      && forall r :: r in s'.t ==> s'.t[r].payload == Due(s'.t[r].payload.merchant, s'.wants[r], r in s'.h.patched)
  {
  }

  lemma StepKeepsProvenance(s: State, e: Event)
    requires Inv(s) && Provenance(s) && Enabled(s, e)
    ensures Provenance(Next(s, e))
  {
    match e
    case EnqueueNext(relay, o, idFirst) => EnqueueKeepsProvenance(s, relay, o, idFirst);
    case List(_, _, _) => ListKeepsProvenance(s, e);
    case Commit(_, _, _, _, _) => CommitKeepsProvenance(s, e);
    case _ => OtherKeepsProvenance(s, e);
  }

  lemma {:induction false} RunKeepsProvenance(s: State, es: seq<Event>)
    requires Inv(s) && Provenance(s) && CanRun(s, es)
    ensures Inv(Run(s, es)) && Provenance(Run(s, es)) && Lasts(s, Run(s, es))
    decreases es
  {
    if es != [] {
      StepKeepsInv(s, es[0]);
      StepKeepsProvenance(s, es[0]);
      StepLasts(s, es[0]);
      RunKeepsProvenance(Next(s, es[0]), es[1..]);
      LastsOn(s, Next(s, es[0]), Run(s, es));
    }
  }

  lemma LastsOn(s1: State, s2: State, s3: State)
    requires Lasts(s1, s2) && Lasts(s2, s3)
    ensures Lasts(s1, s3)
  {
  }

  /** A queued task keeps the payload it was born with for as long as the queue keeps it. */
  lemma {:induction false} TaskIsFrozen(s: State, es: seq<Event>, key: Id)
    requires CanRun(s, es) && key in s.q.tasks && Run(s, es).h.retired[key] == s.h.retired[key]
    ensures key in Run(s, es).q.tasks && Run(s, es).q.tasks[key] == s.q.tasks[key]
    decreases es
  {
    if es != [] {
      RetiredGrows(Next(s, es[0]), es[1..], key);
      TaskIsFrozen(Next(s, es[0]), es[1..], key);
    }
  }

  lemma {:induction false} RetiredGrows(s: State, es: seq<Event>, key: Id)
    requires CanRun(s, es)
    ensures Run(s, es).h.retired[key] >= s.h.retired[key]
    decreases es
  {
    if es != [] {
      RetiredGrows(Next(s, es[0]), es[1..], key);
    }
  }

  /** The worker ends a task without a space id at once, for good, and does nothing else. */
  predicate GivenUp(p: V.Payload, spaces: map<Id, Space>, jobs: map<Id, JobStatus>, cfg: V.Config, env: V.Env, re: V.Replies) {
    var e := V.Run(spaces, p, cfg, env, re);
    && e == V.Effect(SkipRetry, V.NoWrite, [], None)
    && V.SpacesAfter(spaces, p, cfg, env, re) == spaces
    && V.JobsAfter(jobs, p, env, e) == jobs
  }

  lemma GivenUpIff(p: V.Payload, spaces: map<Id, Space>, jobs: map<Id, JobStatus>, cfg: V.Config, env: V.Env, re: V.Replies)
    ensures GivenUp(p, spaces, jobs, cfg, env, re) <==> p.space == ""
  {
  }

  /** Over every run: what is queued for a row is given up by the worker that runs it exactly when
      the listing it came from was made before the row's patch landed; otherwise it carries the row's own space. */
  lemma LatePatchIsLost(es: seq<Event>, id: Id,
                        spaces: map<Id, Space>, jobs: map<Id, JobStatus>, cfg: V.Config, env: V.Env, re: V.Replies)
    requires CanRun(EMPTY, es) && id in Run(EMPTY, es).t && Run(EMPTY, es).t[id].key in Run(EMPTY, es).q.tasks
    ensures var s := Run(EMPTY, es);
      var key := s.t[id].key;
      && id in s.wants && key in s.h.origin && s.h.origin[key] < |s.h.seen|
      && (GivenUp(s.q.tasks[key], spaces, jobs, cfg, env, re) <==> id !in s.h.seen[s.h.origin[key]])
      && (id in s.h.seen[s.h.origin[key]] ==> s.q.tasks[key] == Due(s.t[id].payload.merchant, s.wants[id], true))
  {
    RunKeepsProvenance(EMPTY, es);
    var s := Run(EMPTY, es);
    assert QueuedCopy(s, id);
    GivenUpIff(s.q.tasks[s.t[id].key], spaces, jobs, cfg, env, re);
  }

  /** The patch has landed, and every copy of the row that a relay or the queue holds was made after. */
  ghost predicate Carries(s: State, id: Id) {
    && id in s.t && id in s.h.patched
    && (s.t[id].key in s.q.tasks ==>
          s.t[id].key in s.h.origin && s.h.origin[s.t[id].key] < |s.h.seen| && id in s.h.seen[s.h.origin[s.t[id].key]])
    && forall n :: n in s.relays ==> CopiedAfter(s, s.relays[n], id)
  }

  predicate CopiedAfter(s: State, b: Batch, id: Id) {
    (exists i :: 0 <= i < |b.rows| && b.rows[i].id == id) ==> b.listing < |s.h.seen| && id in s.h.seen[b.listing]
  }

  lemma EnqueueKeepsCarries(s: State, relay: nat, o: Outcome, idFirst: bool, id: Id)
    requires Inv(s) && relay in s.relays && s.relays[relay].next < |s.relays[relay].rows| && Carries(s, id)
    ensures Carries(Enqueued(s, relay, o, idFirst), id)
  {
    var b := s.relays[relay];
    var row := b.rows[b.next];
    var s' := Enqueued(s, relay, o, idFirst);
    assert BatchInv(s, b) && Known(s.t, row) && CopiedAfter(s, b, id);
    assert row.key == s.t[id].key ==> row.id == id;
    forall n | n in s'.relays
      ensures CopiedAfter(s', s'.relays[n], id)
    {
      assert CopiedAfter(s, s.relays[n], id) && s'.relays[n].rows == s.relays[n].rows;
    }
  }

  lemma ListKeepsCarries(s: State, e: Event, id: Id)
    requires e.List? && Enabled(s, e) && Carries(s, id)
    ensures Carries(Next(s, e), id)
  {
    var s' := Next(s, e);
    forall n | n in s'.relays
      ensures CopiedAfter(s', s'.relays[n], id)
    {
      if n != e.relay {
        assert CopiedAfter(s, s.relays[n], id);
      }
    }
  }

  lemma StepKeepsCarries(s: State, e: Event, id: Id)
    requires Inv(s) && Enabled(s, e) && Carries(s, id)
    ensures Carries(Next(s, e), id)
  {
    match e
    case EnqueueNext(relay, o, idFirst) => EnqueueKeepsCarries(s, relay, o, idFirst, id);
    case List(_, _, _) => ListKeepsCarries(s, e, id);
    case _ =>
  }

  lemma {:induction false} PatchInTime(s: State, es: seq<Event>, id: Id)
    requires Inv(s) && CanRun(s, es) && Carries(s, id)
    ensures Carries(Run(s, es), id)
    decreases es
  {
    if es != [] {
      StepKeepsInv(s, es[0]);
      StepKeepsCarries(s, es[0], id);
      PatchInTime(Next(s, es[0]), es[1..], id);
    }
  }

  ghost predicate Reachable(s: State) {
    exists es :: CanRun(EMPTY, es) && Run(EMPTY, es) == s
  }

  lemma ReachableIsSound(s: State)
    requires Reachable(s)
    ensures Inv(s) && Provenance(s)
  {
    var es :| CanRun(EMPTY, es) && Run(EMPTY, es) == s;
    RunKeepsProvenance(EMPTY, es);
  }

  /** A patch that lands while no relay holds a listing of the row and the queue no task of its key
      reaches every task ever queued for the row: each carries the row's own space and category. */
  lemma PatchedFirstIsCarried(s: State, id: Id, es: seq<Event>)
    requires Reachable(s) && id in s.t && id in s.wants && !s.t[id].stamped && s.t[id].key !in s.q.tasks
    requires forall n, i :: n in s.relays && 0 <= i < |s.relays[n].rows| ==> s.relays[n].rows[i].id != id
    requires CanRun(Next(s, Patch(id)), es)
    ensures var later := Run(Next(s, Patch(id)), es);
      && id in later.t && later.t[id].key == s.t[id].key
      && (s.t[id].key in later.q.tasks ==>
            later.q.tasks[s.t[id].key] == V.Payload(s.t[id].payload.merchant, s.wants[id].space, s.wants[id].category))
  {
    ReachableIsSound(s);
    StepKeepsInv(s, Patch(id));
    StepKeepsProvenance(s, Patch(id));
    StepLasts(s, Patch(id));
    PatchInTime(Next(s, Patch(id)), es, id);
    RunKeepsProvenance(Next(s, Patch(id)), es);
    assert QueuedCopy(Run(Next(s, Patch(id)), es), id);
  }

  lemma {:induction false} RunOneMore(s: State, es: seq<Event>, e: Event)
    requires CanRun(s, es) && Enabled(Run(s, es), e)
    ensures CanRun(s, es + [e]) && Run(s, es + [e]) == Next(Run(s, es), e)
    decreases es
  {
    if es == [] {
      assert [e][1..] == [];
    } else {
      assert (es + [e])[0] == es[0] && (es + [e])[1..] == es[1..] + [e];
      RunOneMore(Next(s, es[0]), es[1..], e);
    }
  }

  lemma ReachableNext(s: State, e: Event)
    requires Reachable(s) && Enabled(s, e)
    ensures Reachable(Next(s, e))
  {
    var es :| CanRun(EMPTY, es) && Run(EMPTY, es) == s;
    RunOneMore(EMPTY, es, e);
  }

  /** A committed row that relay 0 has listed before its patch landed. */
  lemma ListedThenPatched(id: Id, key: Id, merchant: Id, want: Want) returns (s: State)
    requires want.space != ""
    ensures Reachable(s) && s.t == map[id := Row(key, Due(merchant, want, true), 0, false)] && s.wants == map[id := want]
    ensures s.q == Queue(map[], {}) && s.relays == map[0 := Batch([Listed(id, key, Due(merchant, want, false))], 0, [], 0)]
    ensures s.h.seen == [{}] && s.h.patched == {id}
  {
    s := EMPTY;
    assert CanRun(EMPTY, []) && Run(EMPTY, []) == s;
    ReachableNext(s, Commit(id, key, merchant, want, 0));
    s := Next(s, Commit(id, key, merchant, want, 0));
    assert Unsent(s.t) == {id};
    ReachableNext(s, List(0, [id], 1));
    assert SnapshotOf(s.t, [id]) == [Listed(id, key, Due(merchant, want, false))];
    s := Next(s, List(0, [id], 1));
    ReachableNext(s, Patch(id));
    s := Next(s, Patch(id));
  }

  /** That race is real: the row is patched and stamped, yet the one task under its key has no space id. */
  lemma LatePatchHappens(id: Id, key: Id, merchant: Id, want: Want) returns (s: State)
    requires want.space != ""
    ensures Reachable(s) && id in s.t && s.t[id].stamped && s.t[id].payload.space == want.space
    ensures key in s.q.tasks && s.q.tasks[key].space == ""
  {
    s := ListedThenPatched(id, key, merchant, want);
    ReachableNext(s, EnqueueNext(0, Done, true));
    s := Next(s, EnqueueNext(0, Done, true));
    ReachableNext(s, StampBatch(0, Done));
    s := Next(s, StampBatch(0, Done));
  }

  /** Relay 0 crashes and relay 1 lists the patched row. */
  lemma ListedAgain(id: Id, key: Id, merchant: Id, want: Want) returns (s: State)
    requires want.space != ""
    ensures Reachable(s) && s.q == Queue(map[], {}) && s.h.seen == [{}, {id}]
    ensures s.relays == map[1 := Batch([Listed(id, key, Due(merchant, want, true))], 0, [], 1)]
  {
    s := ListedThenPatched(id, key, merchant, want);
    ReachableNext(s, Crash(0));
    s := Next(s, Crash(0));
    assert Unsent(s.t) == {id};
    assert SnapshotOf(s.t, [id]) == [Listed(id, key, Due(merchant, want, true))];
    ReachableNext(s, List(1, [id], 1));
    s := Next(s, List(1, [id], 1));
  }

  /** It is a task's own listing that counts: when the relay that listed too early crashes, the
      next one queues the space id all the same. */
  lemma LaterListingCarries(id: Id, key: Id, merchant: Id, want: Want) returns (s: State)
    requires want.space != ""
    ensures Reachable(s) && s.h.seen == [{}, {id}]
    ensures key in s.q.tasks && s.q.tasks[key] == Due(merchant, want, true)
  {
    s := ListedAgain(id, key, merchant, want);
    ReachableNext(s, EnqueueNext(1, Done, true));
    s := Next(s, EnqueueNext(1, Done, true));
  }
}
