/** Runs of whole guild sweeps: all listed spaces converge together, whatever calls fail. */
module Sweeps {
  import opened Wrappers
  import opened Domain
  import opened Reconcile
  import opened Convergence

  /** One guild sweep: the order its listing came in, and how its calls come out. */
  datatype Round = Round(listed: seq<Id>, fs: Id -> Faults)

  function Rounds(w: World, rs: seq<Round>): World
    decreases rs
  {
    if rs == [] then w else Rounds(Sweep(w, rs[0].listed, rs[0].fs).0, rs[1..])
  }

  lemma SameRowsOn(w1: World, w2: World, w3: World, space: Id)
    requires SameRows(w1, w2, space) && SameRows(w2, w3, space)
    ensures SameRows(w1, w3, space)
  {
  }

  lemma {:induction false} SweepKeepsPostgres(w: World, listed: seq<Id>, fs: Id -> Faults, space: Id)
    ensures SameRows(w, Sweep(w, listed, fs).0, space)
    ensures Sweep(w, listed, fs).0.channels.Keys == w.channels.Keys
    decreases listed
  {
    if listed != [] {
      var w' := Pass(w, listed[0], fs(listed[0])).0;
      PassKeepsPostgres(w, listed[0], fs(listed[0]), space);
      SweepKeepsPostgres(w', listed[1..], fs, space);
      SameRowsOn(w, w', Sweep(w, listed, fs).0, space);
    }
  }

  /** A sweep leaves an applied space with the drift its own pass would have left, or as it was. */
  lemma SweepDrift(w: World, r: Round, space: Id)
    requires OwnChannels(w.spaces) && IsListing(w, r.listed) && Provisioned(w, space)
    ensures var after := Sweep(w, r.listed, r.fs).0;
      && Provisioned(after, space)
      && Provisioned(Pass(w, space, r.fs(space)).0, space)
      && DriftOf(after, space) == if space in r.listed then DriftOf(Pass(w, space, r.fs(space)).0, space) else DriftOf(w, space)
  {
    var channel := w.spaces[space].channel.value;
    SweepKeepsPostgres(w, r.listed, r.fs, space);
    PassKeepsPostgres(w, space, r.fs(space), space);
    if space in r.listed {
      SweepIsPassPerSpace(w, r.listed, r.fs, space, channel);
    } else {
      UnlistedChannelsStay(w, r.listed, r.fs, channel);
    }
  }

  /** The sweep gets some call through in this space. */
  predicate Moves(w: World, r: Round, space: Id) {
    space in r.listed && Provisioned(w, space) && Progresses(w, space, r.fs(space))
  }

  function SizeOf(w: World, space: Id): nat {
    if Provisioned(w, space) then |DriftOf(w, space)| else 0
  }

  lemma SweepShrinks(w: World, r: Round, space: Id)
    requires OwnChannels(w.spaces) && IsListing(w, r.listed)
    ensures SizeOf(Sweep(w, r.listed, r.fs).0, space) <= SizeOf(w, space)
    ensures Moves(w, r, space) ==> SizeOf(Sweep(w, r.listed, r.fs).0, space) < SizeOf(w, space)
  {
    if Provisioned(w, space) {
      SweepDrift(w, r, space);
      PassShrinksDrift(w, space, r.fs(space));
      SubsetSize(DriftOf(Pass(w, space, r.fs(space)).0, space), DriftOf(w, space));
    } else {
      SweepKeepsPostgres(w, r.listed, r.fs, space);
    }
  }

  // ---- The guild as a whole ----

  function TotalDrift(w: World, scope: seq<Id>): nat {
    if scope == [] then 0 else SizeOf(w, scope[0]) + TotalDrift(w, scope[1..])
  }

  predicate Busy(w: World, r: Round, scope: seq<Id>) {
    exists space :: space in scope && Moves(w, r, space)
  }

  lemma {:induction false} SweepShrinksTotal(w: World, r: Round, scope: seq<Id>)
    requires OwnChannels(w.spaces) && IsListing(w, r.listed)
    ensures TotalDrift(Sweep(w, r.listed, r.fs).0, scope) <= TotalDrift(w, scope)
    ensures Busy(w, r, scope) ==> TotalDrift(Sweep(w, r.listed, r.fs).0, scope) < TotalDrift(w, scope)
    decreases scope
  {
    if scope != [] {
      SweepShrinks(w, r, scope[0]);
      SweepShrinksTotal(w, r, scope[1..]);
      assert Busy(w, r, scope) ==> Moves(w, r, scope[0]) || Busy(w, r, scope[1..]);
    }
  }

  /** How many sweeps of the run got a call through in some space of `scope`. */
  function BusyRounds(w: World, rs: seq<Round>, scope: seq<Id>): nat
    decreases rs
  {
    if rs == [] then 0
    else (if Busy(w, rs[0], scope) then 1 else 0) + BusyRounds(Sweep(w, rs[0].listed, rs[0].fs).0, rs[1..], scope)
  }

  ghost predicate AllListings(w: World, rs: seq<Round>) {
    forall i :: 0 <= i < |rs| ==> IsListing(w, rs[i].listed)
  }

  lemma ListingsStay(w: World, w': World, rs: seq<Round>)
    requires w'.spaces == w.spaces && AllListings(w, rs) && rs != []
    ensures AllListings(w', rs[1..])
  {
    forall i | 0 <= i < |rs[1..]|
      ensures IsListing(w', rs[1..][i].listed)
    {
      assert IsListing(w, rs[i + 1].listed);
    }
  }

  lemma {:induction false} NoTotalDriftIsAgreement(w: World, scope: seq<Id>, space: Id)
    requires TotalDrift(w, scope) == 0 && space in scope && Provisioned(w, space)
    ensures MemberIds(AclOf(w, space)) == Desired(w, space)
    decreases scope
  {
    if scope[0] == space {
      NoDriftIsAgreement(w, space);
    } else {
      NoTotalDriftIsAgreement(w, scope[1..], space);
    }
  }

  /** Over any run of faulty sweeps, listed in any order, the drift of all spaces together never
      grows and every sweep that gets a single call through costs it at least one id; so at most as many
      sweeps do as there was drift, and after that many every applied listed space agrees with Postgres. */
  lemma {:induction false} SweepsConverge(w: World, rs: seq<Round>, scope: seq<Id>)
    requires OwnChannels(w.spaces) && AllListings(w, rs) && IsListing(w, scope)
    ensures TotalDrift(Rounds(w, rs), scope) + BusyRounds(w, rs, scope) <= TotalDrift(w, scope)
    ensures BusyRounds(w, rs, scope) == TotalDrift(w, scope) ==>
      forall space :: space in scope && Provisioned(Rounds(w, rs), space) ==>
        MemberIds(AclOf(Rounds(w, rs), space)) == Desired(Rounds(w, rs), space)
    ensures forall space :: SameRows(w, Rounds(w, rs), space)
    ensures Rounds(w, rs).channels.Keys == w.channels.Keys
    decreases rs
  {
    if rs != [] {
      var w' := Sweep(w, rs[0].listed, rs[0].fs).0;
      SweepKeepsPostgres(w, rs[0].listed, rs[0].fs, "");
      SweepShrinksTotal(w, rs[0], scope);
      ListingsStay(w, w', rs);
      SweepsConverge(w', rs[1..], scope);
      forall space
        ensures SameRows(w, Rounds(w, rs), space)
      {
        SweepKeepsPostgres(w, rs[0].listed, rs[0].fs, space);
        SameRowsOn(w, w', Rounds(w, rs), space);
      }
    }
    if TotalDrift(Rounds(w, rs), scope) == 0 {
      forall space | space in scope && Provisioned(Rounds(w, rs), space)
        ensures MemberIds(AclOf(Rounds(w, rs), space)) == Desired(Rounds(w, rs), space)
      {
        NoTotalDriftIsAgreement(Rounds(w, rs), scope, space);
      }
    }
  }
}
