/** Why the call budget counts the lag between paying and calling: without it the bound fails for
    every bucket as soon as a run can stall at all. */
module BudgetLag {
  import opened Wrappers
  import opened Domain
  import opened Provision
  import opened Budget
  import R = RateLimit
  import T = TokenBucket

  // ---- Logs and operations in segments ----

  lemma {:induction false} LogsAdd(x: seq<Line>, y: seq<Line>, r: nat)
    ensures OpsOf(x + y) == OpsOf(x) + OpsOf(y)
    ensures Only(x + y, r) == Only(x, r) + Only(y, r)
    decreases x
  {
    if x == [] {
      assert x + y == y;
    } else {
      assert (x + y)[0] == x[0] && (x + y)[1..] == x[1..] + y;
      LogsAdd(x[1..], y, r);
    }
  }

  lemma {:induction false} OpsAdd(s: T.Slot, x: seq<Op>, y: seq<Op>, capacity: int, rate: real, a: int, b: int)
    requires T.ValidLimits(capacity, rate)
    ensures Calls(x + y, a, b) == Calls(x, a, b) + Calls(y, a, b)
    ensures Events(x + y) == Events(x) + Events(y)
    ensures ServedAll(s, x + y, capacity, rate) == ServedAll(ServedAll(s, x, capacity, rate), y, capacity, rate)
    ensures AllHonest(s, x + y, capacity, rate)
       <==> AllHonest(s, x, capacity, rate) && AllHonest(ServedAll(s, x, capacity, rate), y, capacity, rate)
    decreases x
  {
    if x == [] {
      assert x + y == y;
    } else {
      assert (x + y)[0] == x[0] && (x + y)[1..] == x[1..] + y;
      OpsAdd(Served(s, x[0], capacity, rate), x[1..], y, capacity, rate, a, b);
    }
  }

  /** A stretch of the log: honest from `s` on, leaving `s'`, with these events and this many calls. */
  ghost predicate Stretch(s: T.Slot, log: seq<Line>, s': T.Slot, events: seq<T.Event>, calls: nat,
                          capacity: int, rate: real, a: int, b: int)
    requires T.ValidLimits(capacity, rate)
  {
    && AllHonest(s, OpsOf(log), capacity, rate) && ServedAll(s, OpsOf(log), capacity, rate) == s'
    && Events(OpsOf(log)) == events && Calls(OpsOf(log), a, b) == calls
  }

  lemma StretchesJoin(s: T.Slot, x: seq<Line>, s1: T.Slot, e1: seq<T.Event>, c1: nat,
                      y: seq<Line>, s2: T.Slot, e2: seq<T.Event>, c2: nat, capacity: int, rate: real, a: int, b: int)
    requires T.ValidLimits(capacity, rate)
    requires Stretch(s, x, s1, e1, c1, capacity, rate, a, b) && Stretch(s1, y, s2, e2, c2, capacity, rate, a, b)
    ensures Stretch(s, x + y, s2, e1 + e2, c1 + c2, capacity, rate, a, b)
  {
    LogsAdd(x, y, 0);
    OpsAdd(s, OpsOf(x), OpsOf(y), capacity, rate, a, b);
  }

  // ---- Runs that pay, stall and call together ----

  /** The operations of a run that pays at `at`, stalls and calls at `when`. */
  function Pay(at: int): seq<Op> {
    [TakeGlobal(at, Done, R.Allowed), TakeRoute(CREATE_ROUTE, at, R.Allowed)]
  }

  function CallOp(when: int): Op {
    CallCreate(when, Created("c"))
  }

  lemma StalledRunStarts(at: int, when: int, lag: nat)
    requires at <= when <= at + lag
    ensures StartOfARun(Pay(at) + [CallOp(when)]) && AllPrompt(Pay(at) + [CallOp(when)], lag)
    ensures StartOfARun([]) && AllPrompt([], lag)
  {
    var st := Stamp(at, Done);
    var env := Env(Done, Free, false, st, st, when, Created("c"), st, st, when, AllowDone, st, Done, Done, Done);
    var re := NO_REPLIES.(global1 := R.Allowed, route1 := R.Allowed);
    var spaces := map["s" := Space("m", None, None, Pending, Active)];
    var p, cfg := Payload("m", "s", "cat"), Config("g", "g", "agents", "");
    assert Pay(at) + [CallOp(when)] <= Run(spaces, p, cfg, env, re).ops;
    NothingYet(Pay(at) + [CallOp(when)]);
  }

  /** Runs 0 .. n - 1 pay at time 0. */
  function Pays(n: nat): seq<Line> {
    if n == 0 then [] else Pays(n - 1) + PayLines(n - 1, 0)
  }

  function PayLines(run: nat, at: int): seq<Line> {
    [Line(run, Pay(at)[0]), Line(run, Pay(at)[1])]
  }

  /** Runs 0 .. n - 1 call at `when`. */
  function CallLines(n: nat, when: int): seq<Line> {
    if n == 0 then [] else CallLines(n - 1, when) + [Line(n - 1, CallOp(when))]
  }

  /** The bucket once n tokens have been taken at time 0. */
  function Left(n: nat, capacity: int, rate: real): T.Slot
    requires T.ValidLimits(capacity, rate)
  {
    if n == 0 then None else Some(T.Bucket((capacity - n) as real, 0, T.TakeTtl(capacity, rate)))
  }

  function Times(n: nat, at: int): (es: seq<T.Event>)
    ensures |es| == n && forall i :: 0 <= i < n ==> es[i] == T.Take(at)
  {
    seq(n, i => T.Take(at))
  }

  lemma OnePays(s: T.Slot, run: nat, at: int, capacity: int, rate: real, a: int, b: int)
    requires T.ValidLimits(capacity, rate) && T.Step(s, T.Take(at), capacity, rate, true).1.value.Granted?
    ensures Stretch(s, PayLines(run, at), T.Step(s, T.Take(at), capacity, rate, true).0, [T.Take(at)], 0, capacity, rate, a, b)
  {
    var log := PayLines(run, at);
    assert log[1..][1..] == [];
    assert OpsOf(log) == Pay(at);
    assert Pay(at)[1..][1..] == [];
    assert Events(Pay(at)[1..]) == [];
    var s1 := Served(s, Pay(at)[0], capacity, rate);
    assert ServedAll(s1, Pay(at)[1..], capacity, rate) == s1 && AllHonest(s1, Pay(at)[1..], capacity, rate);
    assert Calls(Pay(at)[1..], a, b) == 0;
  }

  lemma TakeAtZero(n: nat, capacity: int, rate: real)
    requires T.ValidLimits(capacity, rate) && n < capacity
    ensures T.Step(Left(n, capacity, rate), T.Take(0), capacity, rate, true).1.value.Granted?
    ensures T.Step(Left(n, capacity, rate), T.Take(0), capacity, rate, true).0 == Left(n + 1, capacity, rate)
  {
    T.TtlPositive(capacity, rate);
    assert T.Gain(rate, 0) == 0.0;
  }

  lemma {:induction false} AllPay(n: nat, capacity: int, rate: real, a: int, b: int)
    requires T.ValidLimits(capacity, rate) && n <= capacity
    ensures Stretch(None, Pays(n), Left(n, capacity, rate), Times(n, 0), 0, capacity, rate, a, b)
    decreases n
  {
    if n > 0 {
      AllPay(n - 1, capacity, rate, a, b);
      TakeAtZero(n - 1, capacity, rate);
      OnePays(Left(n - 1, capacity, rate), n - 1, 0, capacity, rate, a, b);
      StretchesJoin(None, Pays(n - 1), Left(n - 1, capacity, rate), Times(n - 1, 0), 0,
                    PayLines(n - 1, 0), Left(n, capacity, rate), [T.Take(0)], 0, capacity, rate, a, b);
      assert Times(n, 0) == Times(n - 1, 0) + [T.Take(0)];
    }
  }

  lemma OneCalls(s: T.Slot, run: nat, when: int, capacity: int, rate: real, a: int, b: int)
    requires T.ValidLimits(capacity, rate) && a <= when <= b
    ensures Stretch(s, [Line(run, CallOp(when))], s, [], 1, capacity, rate, a, b)
  {
    var log := [Line(run, CallOp(when))];
    assert log[1..] == [] && OpsOf(log) == [CallOp(when)];
    assert [CallOp(when)][1..] == [];
  }

  lemma {:induction false} AllCall(s: T.Slot, n: nat, when: int, capacity: int, rate: real, a: int, b: int)
    requires T.ValidLimits(capacity, rate) && a <= when <= b
    ensures Stretch(s, CallLines(n, when), s, [], n, capacity, rate, a, b)
    decreases n
  {
    if n > 0 {
      AllCall(s, n - 1, when, capacity, rate, a, b);
      OneCalls(s, n - 1, when, capacity, rate, a, b);
      StretchesJoin(s, CallLines(n - 1, when), s, [], n - 1, [Line(n - 1, CallOp(when))], s, [], 1, capacity, rate, a, b);
    }
  }

  /** When the emptied bucket holds one token again. */
  function NextToken(rate: real): int
    requires rate > 0.0
  {
    T.Ceil(1000.0 / rate)
  }

  function Later(x: int, y: int): int {
    if x <= y then y else x
  }

  /** As many runs as the bucket holds tokens pay at 0 and stall until `lag`; one more pays as soon as
      there is another token, and calls at once or with the others, whichever is later. */
  function StalledLog(capacity: nat, lag: nat, next: int): seq<Line> {
    Pays(capacity) + Middle(capacity, lag, next) + [Line(capacity, CallOp(Later(lag, next)))]
  }

  function Middle(capacity: nat, lag: nat, next: int): seq<Line> {
    if next <= lag then PayLines(capacity, next) + CallLines(capacity, lag)
    else CallLines(capacity, lag) + PayLines(capacity, next)
  }

  lemma LastTakeIsGranted(capacity: int, rate: real)
    requires T.ValidLimits(capacity, rate)
    ensures T.Step(Left(capacity, capacity, rate), T.Take(NextToken(rate)), capacity, rate, true).1.value.Granted?
    ensures NextToken(rate) >= 1
  {
    T.ThawIsOneToken(rate, NextToken(rate));
    assert 1000.0 / rate > 0.0;
  }

  /** The whole log: honest, with takes at 0 and one later, and with capacity + 1 calls in the window. */
  lemma StalledLogIsHonest(capacity: int, rate: real, lag: nat)
    requires T.ValidLimits(capacity, rate)
    ensures var next := NextToken(rate);
      var b := Later(lag, next);
      var last := T.Step(Left(capacity, capacity, rate), T.Take(next), capacity, rate, true).0;
      Stretch(None, StalledLog(capacity, lag, next), last, Times(capacity, 0) + [T.Take(next)], capacity + 1, capacity, rate, lag, b)
  {
    var next := NextToken(rate);
    var b := Later(lag, next);
    var empty, take := Left(capacity, capacity, rate), [T.Take(next)];
    var last := T.Step(empty, T.Take(next), capacity, rate, true).0;
    AllPay(capacity, capacity, rate, lag, b);
    LastTakeIsGranted(capacity, rate);
    OnePays(empty, capacity, next, capacity, rate, lag, b);
    if next <= lag {
      AllCall(last, capacity, lag, capacity, rate, lag, b);
      StretchesJoin(empty, PayLines(capacity, next), last, take, 0, CallLines(capacity, lag), last, [], capacity,
                    capacity, rate, lag, b);
      assert take + [] == take;
    } else {
      AllCall(empty, capacity, lag, capacity, rate, lag, b);
      StretchesJoin(empty, CallLines(capacity, lag), empty, [], capacity, PayLines(capacity, next), last, take, 0,
                    capacity, rate, lag, b);
      assert [] + take == take;
    }
    var times := Times(capacity, 0);
    StretchesJoin(None, Pays(capacity), empty, times, 0, Middle(capacity, lag, next), last, take, capacity,
                  capacity, rate, lag, b);
    OneCalls(last, capacity, b, capacity, rate, lag, b);
    StretchesJoin(None, Pays(capacity) + Middle(capacity, lag, next), last, times + take, capacity,
                  [Line(capacity, CallOp(b))], last, [], 1, capacity, rate, lag, b);
    assert times + take + [] == times + take;
  }

  // ---- Its runs ----

  lemma {:induction false} OnlyPays(n: nat, r: nat)
    ensures Only(Pays(n), r) == if r < n then Pay(0) else []
    decreases n
  {
    if n > 0 {
      OnlyPays(n - 1, r);
      LogsAdd(Pays(n - 1), PayLines(n - 1, 0), r);
      OnlyPayLines(n - 1, 0, r);
    }
  }

  lemma OnlyPayLines(run: nat, at: int, r: nat)
    ensures Only(PayLines(run, at), r) == if r == run then Pay(at) else []
  {
    var log := PayLines(run, at);
    assert log[1..][1..] == [];
    assert Only(log[1..], r) == if r == run then [Pay(at)[1]] else [];
  }

  lemma OnlyOne(run: nat, op: Op, r: nat)
    ensures Only([Line(run, op)], r) == if r == run then [op] else []
  {
    assert [Line(run, op)][1..] == [];
  }

  lemma {:induction false} OnlyCalls(n: nat, when: int, r: nat)
    ensures Only(CallLines(n, when), r) == if r < n then [CallOp(when)] else []
    decreases n
  {
    if n > 0 {
      OnlyCalls(n - 1, when, r);
      LogsAdd(CallLines(n - 1, when), [Line(n - 1, CallOp(when))], r);
      OnlyOne(n - 1, CallOp(when), r);
    }
  }

  lemma StalledLogIsRuns(capacity: nat, lag: nat, next: int, r: nat)
    ensures Only(StalledLog(capacity, lag, next), r) ==
      if r < capacity then Pay(0) + [CallOp(lag)]
      else if r == capacity then Pay(next) + [CallOp(Later(lag, next))] else []
  {
    OnlyPays(capacity, r);
    OnlyPayLines(capacity, next, r);
    OnlyCalls(capacity, lag, r);
    OnlyOne(capacity, CallOp(Later(lag, next)), r);
    LogsAdd(PayLines(capacity, next), CallLines(capacity, lag), r);
    LogsAdd(CallLines(capacity, lag), PayLines(capacity, next), r);
    LogsAdd(Pays(capacity), Middle(capacity, lag, next), r);
    LogsAdd(Pays(capacity) + Middle(capacity, lag, next), [Line(capacity, CallOp(Later(lag, next)))], r);
  }

  lemma {:induction false} OnlyFinds(log: seq<Line>, l: Line)
    requires l in log
    ensures Only(log, l.run) != []
    decreases log
  {
    if log[0] != l {
      assert l in log[1..];
      OnlyFinds(log[1..], l);
    }
  }

  lemma StalledLogIsLegal(capacity: int, rate: real, lag: nat)
    requires T.ValidLimits(capacity, rate)
    ensures Legal(None, StalledLog(capacity, lag, NextToken(rate)), capacity + 1, lag, capacity, rate, 0)
  {
    var next := NextToken(rate);
    var log := StalledLog(capacity, lag, next);
    LastTakeIsGranted(capacity, rate);
    StalledLogIsHonest(capacity, rate, lag);
    forall r: nat
      ensures StartOfARun(Only(log, r)) && AllPrompt(Only(log, r), lag)
      ensures r > capacity ==> Only(log, r) == []
    {
      StalledLogIsRuns(capacity, lag, next, r);
      StalledRunStarts(0, lag, lag);
      StalledRunStarts(next, Later(lag, next), lag);
    }
    forall l | l in log
      ensures l.run < capacity + 1
    {
      OnlyFinds(log, l);
    }
  }

  // ---- The exact condition ----

  /** The bound that would hold if calls were made the moment they are paid for. */
  ghost predicate WithinWindow(log: seq<Line>, capacity: int, rate: real, a: int, b: int) {
    Calls(OpsOf(log), a, b) as real <= capacity as real + T.Gain(rate, b - a)
  }

  /** For every bucket and every lag of at least a millisecond, a window holds one call too many. */
  lemma StalledCallsExceedTheWindow(capacity: int, rate: real, lag: nat)
    requires T.ValidLimits(capacity, rate) && lag >= 1
    ensures Legal(None, StalledLog(capacity, lag, NextToken(rate)), capacity + 1, lag, capacity, rate, 0)
    ensures lag <= Later(lag, NextToken(rate))
    ensures !WithinWindow(StalledLog(capacity, lag, NextToken(rate)), capacity, rate, lag, Later(lag, NextToken(rate)))
  {
    var next := NextToken(rate);
    StalledLogIsLegal(capacity, rate, lag);
    StalledLogIsHonest(capacity, rate, lag);
    T.ThawIsOneToken(rate, Later(lag, next) - lag);
    assert 1000.0 / rate > 0.0;
  }

  /** The unshifted bound holds of every legal log exactly when no run can stall. */
  lemma UnshiftedBoundIff(capacity: int, rate: real, lag: nat)
    requires T.ValidLimits(capacity, rate) && capacity as real <= 10.0 * rate
    ensures (forall s, log, runs, from, a, b | Legal(s, log, runs, lag, capacity, rate, from) && a <= b ::
               WithinWindow(log, capacity, rate, a, b))
       <==> lag == 0
  {
    if lag == 0 {
      forall s, log, runs, from, a, b | Legal(s, log, runs, lag, capacity, rate, from) && a <= b
        ensures WithinWindow(log, capacity, rate, a, b)
      {
        CallsStayInBudget(s, log, runs, lag, capacity, rate, a, b, from);
      }
    } else {
      StalledCallsExceedTheWindow(capacity, rate, lag);
    }
  }
}
