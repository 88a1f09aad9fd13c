/** Provision runs that share one global bucket keep their Discord calls within its budget. */
module Budget {
  import opened Wrappers
  import opened Domain
  import opened Provision
  import R = RateLimit
  import T = TokenBucket

  /** One line of the deployment's merged log: which run did what. */
  datatype Line = Line(run: nat, op: Op)

  function OpsOf(log: seq<Line>): (ops: seq<Op>)
    ensures |ops| == |log|
  {
    if log == [] then [] else [log[0].op] + OpsOf(log[1..])
  }

  /** The operations of one run, in the order it did them. */
  function Only(log: seq<Line>, run: nat): seq<Op> {
    if log == [] then [] else (if log[0].run == run then [log[0].op] else []) + Only(log[1..], run)
  }

  function Without(log: seq<Line>, run: nat): seq<Line> {
    if log == [] then [] else (if log[0].run == run then [] else [log[0]]) + Without(log[1..], run)
  }

  predicate IsCall(op: Op, a: int, b: int) {
    (op.CallCreate? || op.CallAllow?) && a <= op.at <= b
  }

  predicate IsPaid(op: Op, a: int, b: int) {
    op.TakeGlobal? && op.reply.Allowed? && a <= op.at <= b
  }

  /** Discord calls made in [a, b]. */
  function Calls(ops: seq<Op>, a: int, b: int): nat {
    if ops == [] then 0 else (if IsCall(ops[0], a, b) then 1 else 0) + Calls(ops[1..], a, b)
  }

  /** Global takes granted in [a, b]. */
  function Paid(ops: seq<Op>, a: int, b: int): nat {
    if ops == [] then 0 else (if IsPaid(ops[0], a, b) then 1 else 0) + Paid(ops[1..], a, b)
  }

  /** These are the first operations of some run of the handler. */
  ghost predicate StartOfARun(ops: seq<Op>) {
    exists spaces, p, cfg, env, re :: ops <= Run(spaces, p, cfg, env, re).ops
  }

  /** The call at i was paid for two operations earlier. */
  predicate PaidAhead(ops: seq<Op>, i: int) {
    2 <= i < |ops| && (ops[i].CallCreate? || ops[i].CallAllow?) ==>
      ops[i - 2].TakeGlobal? && ops[i - 2].reply.Allowed?
  }

  /** The call at i is made within `lag` of the take that paid for it: a route take and the way to
      Discord lie in between. */
  predicate Prompt(ops: seq<Op>, i: int, lag: int) {
    2 <= i < |ops| && (ops[i].CallCreate? || ops[i].CallAllow?) && ops[i - 2].TakeGlobal? ==>
      ops[i - 2].at <= ops[i].at <= ops[i - 2].at + lag
  }

  ghost predicate AllPrompt(ops: seq<Op>, lag: int) {
    forall i :: Prompt(ops, i, lag)
  }

  /** A run never calls Discord without having been granted a global token for just that call. */
  lemma RunsPayAhead(ops: seq<Op>)
    requires StartOfARun(ops)
    ensures forall i :: PaidAhead(ops, i)
    ensures forall i :: 0 <= i < |ops| && i < 2 ==> !ops[i].CallCreate? && !ops[i].CallAllow?
  {
    var spaces, p, cfg, env, re :| ops <= Run(spaces, p, cfg, env, re).ops;
    var all := Run(spaces, p, cfg, env, re).ops;
    BodyPaysAhead(spaces, p, cfg, env, re);
    forall i | 0 <= i < |ops|
      ensures ops[i] == all[i]
    {
    }
    assert forall i :: PaidAhead(all, i) ==> PaidAhead(ops, i);
  }

  lemma BodyPaysAhead(spaces: map<Id, Space>, p: Payload, cfg: Config, env: Env, re: Replies)
    ensures var ops := Run(spaces, p, cfg, env, re).ops;
      (forall i :: PaidAhead(ops, i))
      && forall i :: 0 <= i < |ops| && i < 2 ==> !ops[i].CallCreate? && !ops[i].CallAllow?
  {
  }

  lemma {:induction false} PaidAheadCounts(ops: seq<Op>, lag: nat, a: int, b: int)
    requires (forall i :: PaidAhead(ops, i)) && AllPrompt(ops, lag)
    ensures Calls(if |ops| <= 2 then [] else ops[2..], a, b) <= Paid(ops, a - lag, b)
    decreases ops
  {
    if |ops| > 2 {
      forall i
        ensures PaidAhead(ops[1..], i) && Prompt(ops[1..], i, lag)
      {
        assert PaidAhead(ops, i + 1) && Prompt(ops, i + 1, lag);
      }
      PaidAheadCounts(ops[1..], lag, a, b);
      assert PaidAhead(ops, 2) && Prompt(ops, 2, lag);
      assert ops[2..][0] == ops[2] && ops[2..][1..] == ops[3..];
      assert ops[1..][2..] == ops[3..];
    }
  }

  lemma RunPaysForItsCalls(ops: seq<Op>, lag: nat, a: int, b: int)
    requires StartOfARun(ops) && AllPrompt(ops, lag)
    ensures Calls(ops, a, b) <= Paid(ops, a - lag, b)
  {
    RunsPayAhead(ops);
    PaidAheadCounts(ops, lag, a, b);
    if |ops| == 1 {
      assert ops[1..] == [];
    } else if |ops| >= 2 {
      assert ops[1..][0] == ops[1] && ops[1..][1..] == ops[2..];
      assert Calls(ops, a, b) == Calls(ops[1..], a, b) == Calls(ops[2..], a, b);
    }
  }

  // ---- Many runs, interleaved ----

  lemma {:induction false} CountsSplit(log: seq<Line>, run: nat, a0: int, a: int, b: int)
    ensures Calls(OpsOf(log), a, b) == Calls(Only(log, run), a, b) + Calls(OpsOf(Without(log, run)), a, b)
    ensures Paid(OpsOf(log), a0, b) == Paid(Only(log, run), a0, b) + Paid(OpsOf(Without(log, run)), a0, b)
    decreases log
  {
    if log != [] {
      CountsSplit(log[1..], run, a0, a, b);
      assert ([log[0].op] + OpsOf(log[1..]))[1..] == OpsOf(log[1..]);
      if log[0].run == run {
        assert Only(log, run)[1..] == Only(log[1..], run);
        assert Without(log, run) == Without(log[1..], run);
      } else {
        assert Only(log, run) == Only(log[1..], run);
        assert Without(log, run)[0] == log[0] && Without(log, run)[1..] == Without(log[1..], run);
        assert OpsOf(Without(log, run))[1..] == OpsOf(Without(log[1..], run));
      }
    }
  }

  lemma {:induction false} WithoutKeepsOthers(log: seq<Line>, run: nat, other: nat)
    ensures Only(Without(log, run), other) == if other == run then [] else Only(log, other)
    ensures forall l :: l in Without(log, run) ==> l in log && l.run != run
    decreases log
  {
    if log != [] {
      WithoutKeepsOthers(log[1..], run, other);
      var kept := Without(log, run);
      if log[0].run == run {
        assert kept == Without(log[1..], run);
      } else {
        assert kept == [log[0]] + Without(log[1..], run);
        assert kept[0] == log[0] && kept[1..] == Without(log[1..], run);
      }
    }
  }

  /** However the operations of the runs interleave, together they are granted, up to `lag`
      earlier, at least as many tokens as they make calls. */
  lemma {:induction false} RunsPayForTheirCalls(log: seq<Line>, runs: nat, lag: nat, a: int, b: int)
    requires forall l :: l in log ==> l.run < runs
    requires forall r: nat :: StartOfARun(Only(log, r)) && AllPrompt(Only(log, r), lag)
    ensures Calls(OpsOf(log), a, b) <= Paid(OpsOf(log), a - lag, b)
    decreases runs
  {
    if log != [] {
      assert log[0] in log;
      var last := runs - 1;
      CountsSplit(log, last, a - lag, a, b);
      assert StartOfARun(Only(log, last)) && AllPrompt(Only(log, last), lag);
      RunPaysForItsCalls(Only(log, last), lag, a, b);
      forall r: nat
        ensures StartOfARun(Only(Without(log, last), r)) && AllPrompt(Only(Without(log, last), r), lag)
      {
        WithoutKeepsOthers(log, last, r);
        if r == last {
          NothingYet(Only(log, last));
        } else {
          assert StartOfARun(Only(log, r)) && AllPrompt(Only(log, r), lag);
        }
      }
      WithoutKeepsOthers(log, last, 0);
      RunsPayForTheirCalls(Without(log, last), last, lag, a, b);
    }
  }

  lemma NothingYet(ops: seq<Op>)
    requires StartOfARun(ops)
    ensures StartOfARun([])
  {
  }

  // ---- The bucket behind the log ----

  /** The operations that reach the global bucket. */
  function Events(ops: seq<Op>): seq<T.Event> {
    if ops == [] then []
    else
      var rest := Events(ops[1..]);
      match ops[0]
      case TakeGlobal(at, o, _) => if o.Effective() then [T.Take(at)] + rest else rest
      case Penalize(_, ms, when) => if when.o.Effective() then [T.Penalize(when.at, ms)] + rest else rest
      case _ => rest
  }

  lemma {:induction false} NoHeaders(ops: seq<Op>)
    ensures forall e :: e in Events(ops) ==> !e.Headers?
    decreases ops
  {
    if ops != [] {
      NoHeaders(ops[1..]);
    }
  }

  /** When every recorded reply is the one the bucket gave, the takes the runs know to be granted are
      no more than the bucket's grants; lost replies are grants nobody uses. */
  lemma {:induction false} PaidIsGranted(s: T.Slot, ops: seq<Op>, capacity: int, rate: real, a: int, b: int)
    requires T.ValidLimits(capacity, rate) && AllHonest(s, ops, capacity, rate)
    ensures Paid(ops, a, b) <= T.Grants(s, Events(ops), capacity, rate, true, a, b)
    decreases ops
  {
    if ops != [] {
      PaidIsGranted(Served(s, ops[0], capacity, rate), ops[1..], capacity, rate, a, b);
      if Events(ops) != Events(ops[1..]) {
        assert Events(ops)[1..] == Events(ops[1..]);
      }
    }
  }

  /** A log of runs 0 .. runs - 1 on a bucket that started as `s`: each line is the next operation
      of its run, each call made within `lag` of the take that paid for it, each reply the bucket's own. */
  ghost predicate Legal(s: T.Slot, log: seq<Line>, runs: nat, lag: nat, capacity: int, rate: real, from: int)
    requires T.ValidLimits(capacity, rate)
  {
    && T.Covered(s, capacity, rate)
    && (forall l :: l in log ==> l.run < runs)
    && (forall r: nat :: StartOfARun(Only(log, r)) && AllPrompt(Only(log, r), lag))
    && AllHonest(s, OpsOf(log), capacity, rate)
    && T.Monotone(Events(OpsOf(log)), from)
  }

  /** Any number of runs on one global bucket, in any interleaving, with any penalties, outages, lost
      replies and key expiry in between: when each makes its calls within `lag` of paying for them, no
      window of time holds more calls than a full bucket plus the refill of the window and of the lag. */
  lemma CallsStayInBudget(s: T.Slot, log: seq<Line>, runs: nat, lag: nat, capacity: int, rate: real, a: int, b: int, from: int)
    requires T.ValidLimits(capacity, rate) && capacity as real <= 10.0 * rate && a <= b
    requires Legal(s, log, runs, lag, capacity, rate, from)
    ensures Calls(OpsOf(log), a, b) as real <= capacity as real + T.Gain(rate, b - a + lag)
  {
    var ops := OpsOf(log);
    RunsPayForTheirCalls(log, runs, lag, a, b);
    PaidIsGranted(s, ops, capacity, rate, a - lag, b);
    NoHeaders(ops);
    T.WindowBound(s, Events(ops), capacity, rate, a - lag, b, from);
  }
}
