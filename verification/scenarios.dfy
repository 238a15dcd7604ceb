/**
  Sequences of dispatches against the pallet, the unit test's scenario and the
  benchmark's expectation.
 */
module Scenarios {
  import opened Wrappers
  import opened Clubs
  import opened Origins
  import opened Errors
  import opened Pallet
  import Events

  /** One extrinsic: who calls, and which call. */
  datatype Extrinsic = Extrinsic(origin: Origin, call: Call)

  /** The accumulated effect of a block of extrinsics. */
  datatype Trace = Trace(store: Store, events: seq<Events.Event>, results: seq<DispatchResult>)

  predicate AllSigned(xs: seq<Extrinsic>)
  {
    forall i :: 0 <= i < |xs| ==> xs[i].origin.Signed?
  }

  /**
    Applies the extrinsics in order, threading the store and appending each
    call's events to the event log.
   */
  function Run(store: Store, xs: seq<Extrinsic>): (t: Trace)
    requires AllSigned(xs)
    ensures t.store == store
    ensures |t.events| == |xs| && |t.results| == |xs|
    ensures forall i :: 0 <= i < |xs| ==> t.results[i] == Success(())
    decreases |xs|
  {
    if xs == [] then
      Trace(store, [], [])
    else
      var step := Dispatch(store, xs[0].origin, xs[0].call);
      var rest := Run(step.store, xs[1..]);
      Trace(rest.store, step.events + rest.events, [step.result] + rest.results)
  }

  /**
    Because no call persists anything, every call in a block sees the block's
    initial store: the i-th event is what the i-th call alone would emit there.
   */
  lemma {:induction false} RunEventsAreIndependent(store: Store, xs: seq<Extrinsic>)
    requires AllSigned(xs)
    ensures forall i :: 0 <= i < |xs| ==>
              Run(store, xs).events[i] == Dispatch(store, xs[i].origin, xs[i].call).events[0]
    decreases |xs|
  {
    if xs != [] {
      RunEventsAreIndependent(store, xs[1..]);
      forall i | 0 <= i < |xs|
        ensures Run(store, xs).events[i] == Dispatch(store, xs[i].origin, xs[i].call).events[0]
      {
        if i > 0 {
          assert xs[1..][i - 1] == xs[i];
        }
      }
    }
  }

  /**
    The unit test: account 1 adds itself to club 1 and then removes itself;
    both calls succeed. The removal never finds the member the addition
    pushed, since that push was not stored.
   */
  lemma AddThenRemoveSucceeds()
    ensures var xs := [Extrinsic(Signed(1), Add(1)), Extrinsic(Signed(1), Remove(1))];
            Run(map[], xs).results == [Success(()), Success(())]
    ensures RemoveMember(AddMember(map[], Signed(1), 1).store, Signed(1), 1).dropped == []
  {
  }

  /**
    The benchmark dispatches `add_member` for a caller and asserts that club 1
    then holds exactly that caller. As written, the benchmark passes no club id
    and compares a `Club` with an optional list. Here it is read as a call on
    club 1 whose member list is then compared. As written, club 1 still reads as
    empty.
   */
  lemma BenchmarkExpectationUnmet(caller: AccountId)
    ensures Get(AddMember(map[], Signed(caller), 1).store, 1).members == []
    ensures Get(AddMember(map[], Signed(caller), 1).store, 1).members != [caller]
  {
  }
}
