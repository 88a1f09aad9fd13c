/** POST /merchants/{merchantId}/channels: the ProvisionSpace handler of internal/api/handlers. */
module ProvisionRequest {
  import opened Wrappers
  import opened Domain
  import I = Idempotency
  import R = Relay
  import V = Provision

  datatype Faults = Faults(loadMerchant: Outcome, commit: Outcome, patch: Outcome, job: Outcome, respond: Outcome)

  /** The ids Postgres and the handler make up. */
  datatype FreshIds = FreshIds(space: Id, row: Id, job: Id, fallback: Id)

  /** The tables a request reads and writes; `jobs` maps task ids to job ids. */
  datatype Db = Db(spaces: map<Id, Space>, outbox: R.Table, jobs: map<Id, Id>, keys: I.Table)

  function IdemKey(key: I.Key, merchant: Id): I.Key {
    if key == "" then "provision:" + merchant else key
  }

  function ResponseBody(job: Id, space: Id, merchant: Id): I.Body {
    "job=" + job + "&space=" + space + "&merchant=" + merchant
  }

  predicate HasSpace(spaces: map<Id, Space>, merchant: Id) {
    exists s :: s in spaces && spaces[s].merchant == merchant
  }

  predicate KeyUsed(outbox: R.Table, key: Id) {
    exists r :: r in outbox && outbox[r].key == key
  }

  /** The transaction goes through: both rows, or neither. */
  predicate Commits(db: Db, merchant: Id, key: Id, o: Outcome) {
    !HasSpace(db.spaces, merchant) && !KeyUsed(db.outbox, key) && o.Effective()
  }

  function NewSpace(merchant: Id, category: Option<Id>): Space {
    Space(merchant, None, category, Pending, Active)
  }

  /** Its payload cannot name the space yet. */
  function NewRow(merchant: Id, key: Id, at: int): R.Row {
    R.Row(key, V.Payload(merchant, "", ""), at, false)
  }

  function Committed(db: Db, ids: FreshIds, merchant: Id, category: Option<Id>, key: Id, at: int): Db {
    db.(spaces := db.spaces[ids.space := NewSpace(merchant, category)],
        outbox := db.outbox[ids.row := NewRow(merchant, key, at)])
  }

  /** UPDATE outbox SET payload WHERE idempotency_key = $2 AND enqueued_at IS NULL. */
  function Repayloaded(outbox: R.Table, key: Id, payload: V.Payload): R.Table {
    map r | r in outbox ::
      if outbox[r].key == key && !outbox[r].stamped then outbox[r].(payload := payload) else outbox[r]
  }

  function CategoryOf(category: Option<Id>): Id {
    if category.Some? then category.value else ""
  }

  /** The request after its commit: patch, job mirror, stored response. The response names a job
      id; unless that job row exists the foreign key refuses it. */
  function Accepted(db: Db, ids: FreshIds, merchant: Id, category: Option<Id>, key: Id, f: Faults): (Db, I.Body) {
    var payload := V.Payload(merchant, ids.space, CategoryOf(category));
    var made := key !in db.jobs && f.job.Seen();
    var body := ResponseBody(if made then ids.job else ids.fallback, ids.space, merchant);
    (Db(db.spaces,
        if f.patch.Effective() then Repayloaded(db.outbox, key, payload) else db.outbox,
        if key !in db.jobs && f.job.Effective() then db.jobs[key := ids.job] else db.jobs,
        I.Responded(db.keys, key, 202, Some(body), if made then f.respond else Rejected)),
     body)
  }

  /** One request: the new tables, the status code, and the body of a 202. */
  function Provision(db: Db, merchants: set<Id>, ids: FreshIds, merchant: Id, category: Option<Id>,
                     key: I.Key, at: int, f: Faults): (Db, int, I.Body)
  {
    var idem := IdemKey(key, merchant);
    if !f.loadMerchant.Seen() then (db, 500, "")
    else if merchant !in merchants then (db, 404, "")
    else if HasSpace(db.spaces, merchant) && f.commit.Seen() then (db, 409, "")
    else if !Commits(db, merchant, idem, f.commit) then (db, 500, "")
    else
      var committed := Committed(db, ids, merchant, category, idem, at);
      if !f.commit.Seen() then (committed, 500, "")
      else
        var done := Accepted(committed, ids, merchant, category, idem, f);
        (done.0, 202, done.1)
  }

  class Handlers {
    var merchants: set<Id>
    var spaces: map<Id, Space>
    var outbox: R.Table
    var jobs: map<Id, Id>
    const idempotency: I.Middleware

    constructor (idempotency: I.Middleware)
      ensures this.idempotency == idempotency && merchants == {} && spaces == map[] && outbox == map[] && jobs == map[]
    {
      this.idempotency := idempotency;
      merchants, spaces, outbox, jobs := {}, map[], map[], map[];
    }

    ghost function Now(): Db
      reads this, idempotency
    {
      Db(spaces, outbox, jobs, idempotency.table)
    }

    /** `conflict` is ErrConflict; without it, not ok is any other error. */
    method CreateSpaceWithOutbox(ids: FreshIds, merchant: Id, category: Option<Id>, key: Id, at: int, o: Outcome)
      returns (ok: bool, conflict: bool)
      modifies this`spaces, this`outbox
      ensures conflict == (HasSpace(old(spaces), merchant) && o.Seen())
      ensures ok == (Commits(old(Now()), merchant, key, o) && o.Seen())
      ensures Now() == if Commits(old(Now()), merchant, key, o)
                       then Committed(old(Now()), ids, merchant, category, key, at) else old(Now())
    {
      ok, conflict := false, false;
      if exists s :: s in spaces && spaces[s].merchant == merchant {
        conflict := o.Seen();
        return;
      }
      if exists r :: r in outbox && outbox[r].key == key {
        return;
      }
      if o.Effective() {
        spaces := spaces[ids.space := Space(merchant, None, category, Pending, Active)];
        outbox := outbox[ids.row := R.Row(key, V.Payload(merchant, "", ""), at, false)];
      }
      ok := o.Seen();
    }

    method UpdateOutboxPayload(key: Id, payload: V.Payload, o: Outcome)
      modifies this`outbox
      ensures outbox == if o.Effective() then Repayloaded(old(outbox), key, payload) else old(outbox)
    {
      if o.Effective() {
        outbox := map r | r in outbox ::
          if outbox[r].key == key && !outbox[r].stamped then outbox[r].(payload := payload) else outbox[r];
      }
    }

    method CreateJob(taskID: Id, job: Id, o: Outcome) returns (ok: bool)
      modifies this`jobs
      ensures ok == (taskID !in old(jobs) && o.Seen())
      ensures jobs == if taskID !in old(jobs) && o.Effective() then old(jobs)[taskID := job] else old(jobs)
    {
      ok := taskID !in jobs && o.Seen();
      if taskID !in jobs && o.Effective() {
        jobs := jobs[taskID := job];
      }
    }

    method ProvisionSpace(ids: FreshIds, merchant: Id, category: Option<Id>, key: I.Key, at: int, f: Faults)
      returns (code: int, body: I.Body)
      modifies this`spaces, this`outbox, this`jobs, idempotency
      ensures (Now(), code, body) == Provision(old(Now()), merchants, ids, merchant, category, key, at, f)
    {
      body := "";
      if !f.loadMerchant.Seen() {
        return 500, body;
      }
      if merchant !in merchants {
        return 404, body;
      }
      var idemKey := key;
      if idemKey == "" {
        idemKey := "provision:" + merchant;
      }
      var ok, conflict := CreateSpaceWithOutbox(ids, merchant, category, idemKey, at, f.commit);
      if conflict {
        return 409, body;
      }
      if !ok {
        return 500, body;
      }
      UpdateOutboxPayload(idemKey, V.Payload(merchant, ids.space, CategoryOf(category)), f.patch);
      var jobID := ids.fallback;
      var made := CreateJob(idemKey, ids.job, f.job);
      if made {
        jobID := ids.job;
      }
      body := ResponseBody(jobID, ids.space, merchant);
      idempotency.StoreIdempotencyResponse(idemKey, 202, Some(body), if made then f.respond else Rejected);
      code := 202;
    }
  }

  // ---- What a request leaves behind ----

  predicate HasRow(outbox: R.Table, merchant: Id) {
    exists r :: r in outbox && outbox[r].payload.merchant == merchant
  }

  /** Every space has its outbox row and every outbox row its space: no desired state is ever
      committed without a queued job to project it. */
  ghost predicate Paired(spaces: map<Id, Space>, outbox: R.Table) {
    && (forall s | s in spaces :: HasRow(outbox, spaces[s].merchant))
    && (forall r | r in outbox :: HasSpace(spaces, outbox[r].payload.merchant))
  }

  /** UNIQUE (merchant_id). */
  ghost predicate OneSpaceEach(spaces: map<Id, Space>) {
    forall s, t | s in spaces && t in spaces :: spaces[s].merchant == spaces[t].merchant ==> s == t
  }

  ghost predicate OneRowEach(outbox: R.Table) {
    forall r, q | r in outbox && q in outbox ::
      outbox[r].key == outbox[q].key || outbox[r].payload.merchant == outbox[q].payload.merchant ==> r == q
  }

  predicate PointsHome(spaces: map<Id, Space>, p: V.Payload) {
    p.space != "" ==> p.space in spaces && spaces[p.space].merchant == p.merchant
  }

  /** One outbox row per merchant and per key, whose payload names that merchant's space or none. */
  ghost predicate WellFormed(spaces: map<Id, Space>, outbox: R.Table) {
    Paired(spaces, outbox) && OneSpaceEach(spaces) && OneRowEach(outbox) && AllPointHome(spaces, outbox)
  }

  ghost predicate AllPointHome(spaces: map<Id, Space>, outbox: R.Table) {
    forall r | r in outbox :: PointsHome(spaces, outbox[r].payload)
  }

  predicate Unused(db: Db, ids: FreshIds) {
    ids.space !in db.spaces && ids.space != "" && ids.row !in db.outbox
  }

  lemma InsertKeepsPairs(spaces: map<Id, Space>, outbox: R.Table, space: Id, sp: Space, row: Id, ob: R.Row)
    requires Paired(spaces, outbox) && space !in spaces && row !in outbox && sp.merchant == ob.payload.merchant
    ensures Paired(spaces[space := sp], outbox[row := ob])
  {
    var spaces', outbox' := spaces[space := sp], outbox[row := ob];
    assert spaces'[space].merchant == sp.merchant && outbox'[row].payload.merchant == sp.merchant;
    forall s | s in spaces
      ensures HasRow(outbox', spaces[s].merchant)
    {
      var r :| r in outbox && outbox[r].payload.merchant == spaces[s].merchant;
      assert outbox'[r] == outbox[r];
    }
    forall r | r in outbox
      ensures HasSpace(spaces', outbox[r].payload.merchant)
    {
      var s :| s in spaces && spaces[s].merchant == outbox[r].payload.merchant;
      assert spaces'[s] == spaces[s];
    }
  }

  lemma InsertKeepsRows(outbox: R.Table, row: Id, ob: R.Row)
    requires OneRowEach(outbox) && row !in outbox && !HasRow(outbox, ob.payload.merchant) && !KeyUsed(outbox, ob.key)
    ensures OneRowEach(outbox[row := ob])
  {
  }

  lemma InsertKeepsSpaces(spaces: map<Id, Space>, space: Id, sp: Space)
    requires OneSpaceEach(spaces) && space !in spaces && !HasSpace(spaces, sp.merchant)
    ensures OneSpaceEach(spaces[space := sp])
  {
  }

  lemma InsertKeepsWellFormed(spaces: map<Id, Space>, outbox: R.Table, space: Id, sp: Space, row: Id, ob: R.Row)
    requires WellFormed(spaces, outbox) && space !in spaces && row !in outbox
    requires sp.merchant == ob.payload.merchant && ob.payload.space == ""
    requires !HasSpace(spaces, sp.merchant) && !KeyUsed(outbox, ob.key)
    ensures WellFormed(spaces[space := sp], outbox[row := ob])
  {
    InsertKeepsPairs(spaces, outbox, space, sp, row, ob);
    InsertKeepsSpaces(spaces, space, sp);
    assert HasRow(outbox, ob.payload.merchant) ==> HasSpace(spaces, ob.payload.merchant);
    InsertKeepsRows(outbox, row, ob);
  }

  lemma PatchKeepsPairs(spaces: map<Id, Space>, outbox: R.Table, key: Id, p: V.Payload)
    requires Paired(spaces, outbox) && Owns(outbox, key, p.merchant)
    ensures Paired(spaces, Repayloaded(outbox, key, p))
  {
    var after := Repayloaded(outbox, key, p);
    assert forall r | r in outbox :: r in after && after[r].payload.merchant == outbox[r].payload.merchant;
    forall s | s in spaces
      ensures HasRow(after, spaces[s].merchant)
    {
      var r :| r in outbox && outbox[r].payload.merchant == spaces[s].merchant;
      assert after[r].payload.merchant == spaces[s].merchant;
    }
    forall r | r in after
      ensures HasSpace(spaces, after[r].payload.merchant)
    {
      assert r in outbox && HasSpace(spaces, outbox[r].payload.merchant);
    }
  }

  /** Only this merchant's row is filed under the key. */
  ghost predicate Owns(outbox: R.Table, key: Id, merchant: Id) {
    forall r | r in outbox :: outbox[r].key == key ==> outbox[r].payload.merchant == merchant
  }

  lemma PatchKeepsWellFormed(spaces: map<Id, Space>, outbox: R.Table, key: Id, p: V.Payload)
    requires WellFormed(spaces, outbox) && Owns(outbox, key, p.merchant) && PointsHome(spaces, p)
    ensures WellFormed(spaces, Repayloaded(outbox, key, p))
  {
    PatchKeepsPairs(spaces, outbox, key, p);
    PatchKeepsRows(outbox, key, p);
    PatchPointsHome(spaces, outbox, key, p);
  }

  lemma PatchKeepsRows(outbox: R.Table, key: Id, p: V.Payload)
    requires OneRowEach(outbox) && Owns(outbox, key, p.merchant)
    ensures OneRowEach(Repayloaded(outbox, key, p))
  {
  }

  lemma PatchPointsHome(spaces: map<Id, Space>, outbox: R.Table, key: Id, p: V.Payload)
    requires AllPointHome(spaces, outbox) && PointsHome(spaces, p)
    ensures AllPointHome(spaces, Repayloaded(outbox, key, p))
  {
  }

  /** A request changes spaces and outbox in one of three ways: not at all, by its commit, or by
      its commit and its patch. */
  lemma RequestChanges(db: Db, merchants: set<Id>, ids: FreshIds, merchant: Id, category: Option<Id>,
                       key: I.Key, at: int, f: Faults)
    ensures var after := Provision(db, merchants, ids, merchant, category, key, at, f).0;
      var idem := IdemKey(key, merchant);
      var inserted := db.outbox[ids.row := NewRow(merchant, idem, at)];
      || (after.spaces == db.spaces && after.outbox == db.outbox)
      || (Commits(db, merchant, idem, f.commit) && after.spaces == db.spaces[ids.space := NewSpace(merchant, category)]
          && (after.outbox == inserted
              || after.outbox == Repayloaded(inserted, idem, V.Payload(merchant, ids.space, CategoryOf(category)))))
  {
  }

  /** Whatever fails or is lost on the way, a request leaves spaces and outbox rows paired one to one. */
  lemma RequestKeepsWellFormed(db: Db, merchants: set<Id>, ids: FreshIds, merchant: Id, category: Option<Id>,
                               key: I.Key, at: int, f: Faults)
    requires WellFormed(db.spaces, db.outbox) && Unused(db, ids)
    ensures var after := Provision(db, merchants, ids, merchant, category, key, at, f).0;
      WellFormed(after.spaces, after.outbox)
  {
    var idem := IdemKey(key, merchant);
    RequestChanges(db, merchants, ids, merchant, category, key, at, f);
    if Commits(db, merchant, idem, f.commit) {
      CommitAndPatchKeepWellFormed(db.spaces, db.outbox, ids, NewSpace(merchant, category), NewRow(merchant, idem, at),
                                   V.Payload(merchant, ids.space, CategoryOf(category)));
    }
  }

  lemma CommitAndPatchKeepWellFormed(spaces: map<Id, Space>, outbox: R.Table, ids: FreshIds, sp: Space, ob: R.Row, p: V.Payload)
    requires WellFormed(spaces, outbox) && ids.space !in spaces && ids.row !in outbox
    requires sp.merchant == ob.payload.merchant == p.merchant && ob.payload.space == "" && p.space == ids.space
    requires !HasSpace(spaces, sp.merchant) && !KeyUsed(outbox, ob.key)
    ensures WellFormed(spaces[ids.space := sp], outbox[ids.row := ob])
    ensures WellFormed(spaces[ids.space := sp], Repayloaded(outbox[ids.row := ob], ob.key, p))
  {
    InsertKeepsWellFormed(spaces, outbox, ids.space, sp, ids.row, ob);
    PatchKeepsWellFormed(spaces[ids.space := sp], outbox[ids.row := ob], ob.key, p);
  }

  /** The key a request's rows are filed under, and whether the merchant and the key are still free. */
  predicate IsFree(db: Db, merchant: Id, idem: Id) {
    (forall s | s in db.spaces :: db.spaces[s].merchant != merchant) && (forall r | r in db.outbox :: db.outbox[r].key != idem)
  }

  /** Which code a request gets: 202 when the merchant exists, has no space, the key is unused and both
      calls come back; 404 for an unknown merchant; 409 for one that has a space; 500 for anything else. */
  lemma CodeIs(db: Db, merchants: set<Id>, ids: FreshIds, merchant: Id, category: Option<Id>, key: I.Key, at: int, f: Faults)
    ensures var code := Provision(db, merchants, ids, merchant, category, key, at, f).1;
      var idem := if key == "" then "provision:" + merchant else key;
      && (code == 202 <==> f.loadMerchant == Done && merchant in merchants && f.commit == Done && IsFree(db, merchant, idem))
      && (code == 404 <==> f.loadMerchant == Done && merchant !in merchants)
      && (code == 409 <==> f.loadMerchant == Done && merchant in merchants && f.commit == Done
                           && exists s :: s in db.spaces && db.spaces[s].merchant == merchant)
      && code in {202, 404, 409, 500}
  {
  }

  /** A request that is not accepted changes nothing, unless its commit went through and only the reply
      was lost: then both rows are there, the outbox row without a space id. */
  lemma RefusedIs(db: Db, merchants: set<Id>, ids: FreshIds, merchant: Id, category: Option<Id>, key: I.Key, at: int, f: Faults)
    requires Provision(db, merchants, ids, merchant, category, key, at, f).1 != 202
    ensures var after := Provision(db, merchants, ids, merchant, category, key, at, f).0;
      var idem := if key == "" then "provision:" + merchant else key;
      after == if f.loadMerchant == Done && merchant in merchants && f.commit == Lost && IsFree(db, merchant, idem)
               then db.(spaces := db.spaces[ids.space := Space(merchant, None, category, Pending, Active)],
                        outbox := db.outbox[ids.row := R.Row(idem, V.Payload(merchant, "", ""), at, false)])
               else db
  {
  }

  /** A 202 means that this request created the merchant's space and its one outbox row, still to
      be enqueued; the row names the space exactly when the patch took effect. */
  lemma AcceptedIs(db: Db, merchants: set<Id>, ids: FreshIds, merchant: Id, category: Option<Id>,
                   key: I.Key, at: int, f: Faults)
    requires Unused(db, ids)
    ensures var r := Provision(db, merchants, ids, merchant, category, key, at, f);
      r.1 == 202 ==>
        var idem := if key == "" then "provision:" + merchant else key;
        var wish := match category case None => "" case Some(c) => c;
        && (forall s | s in db.spaces :: db.spaces[s].merchant != merchant)
        && r.0.spaces == db.spaces[ids.space := Space(merchant, None, category, Pending, Active)]
        && r.0.outbox.Keys == db.outbox.Keys + {ids.row}
        && r.0.outbox[ids.row] == R.Row(idem, if f.patch == Rejected then V.Payload(merchant, "", "")
                                              else V.Payload(merchant, ids.space, wish), at, false)
        && (forall q | q in db.outbox :: r.0.outbox[q] == db.outbox[q])
        && r.0.jobs == (if idem in db.jobs || f.job == Rejected then db.jobs else db.jobs[idem := ids.job])
        && r.2 == "job=" + (if idem !in db.jobs && f.job == Done then ids.job else ids.fallback)
                  + "&space=" + ids.space + "&merchant=" + merchant
  {
  }

  /** The response of a 202 is there to be replayed exactly when the job mirror row was created as
      well: the foreign key refuses the made-up job id. */
  lemma ReplayableIff(db: Db, merchants: set<Id>, ids: FreshIds, merchant: Id, category: Option<Id>,
                      key: I.Key, at: int, f: Faults)
    requires key in db.keys && key != "" && db.keys[key].body == None
    requires Provision(db, merchants, ids, merchant, category, key, at, f).1 == 202
    ensures var r := Provision(db, merchants, ids, merchant, category, key, at, f);
      && key in r.0.keys && r.0.keys[key].hash == db.keys[key].hash && r.0.keys[key].expiresAt == db.keys[key].expiresAt
      && (r.0.keys[key].body.Some? <==> key !in db.jobs && f.job.Seen() && f.respond.Effective())
      && (r.0.keys[key].body.Some? ==> r.0.keys[key].code == Some(202) && r.0.keys[key].body == Some(r.2))
  {
  }

  /** From there on, whoever repeats the request under its key before the key expires is answered
      with this very 202 and does not reach the handler, whatever other requests are under way. */
  lemma RepeatGetsTheSame202(db: Db, merchants: set<Id>, ids: FreshIds, merchant: Id, category: Option<Id>,
                             key: I.Key, at: int, f: Faults, s: I.State, es: seq<I.Event>)
    requires key in db.keys && key != "" && db.keys[key].body == None
    requires key !in db.jobs && f.job.Seen() && f.respond.Effective()
    requires Provision(db, merchants, ids, merchant, category, key, at, f).1 == 202
    requires I.Reachable(s) && s.t == Provision(db, merchants, ids, merchant, category, key, at, f).0.keys
    requires I.CanRun(s, es) && I.Run(s, es).now < db.keys[key].expiresAt
    ensures var later := I.Run(s, es);
      I.Lookup(later.t, key, db.keys[key].hash, later.now, Done)
      == I.Replay(202, Provision(db, merchants, ids, merchant, category, key, at, f).2)
  {
    ReplayableIff(db, merchants, ids, merchant, category, key, at, f);
    I.LaterRequestsAreReplayed(s, es, key, db.keys[key].hash, Done);
  }
}
