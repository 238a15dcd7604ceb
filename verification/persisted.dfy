/**
  `add_member` as the benchmark expects it to behave: the pushed member list
  is written back under the club's key.
 */
module Persisted {
  import opened Wrappers
  import opened Clubs
  import opened Origins
  import opened Lists
  import opened Pallet
  import Events

  /** `add_member` followed by storing the modified club. */
  function AddMember(store: Store, origin: Origin, clubId: U32): (r: Step)
    requires origin.Signed?
    ensures r.result == Success(())
    ensures r.events == [Events.AddMember(origin.who)]
    ensures Get(r.store, clubId).id == Get(store, clubId).id
    ensures Get(r.store, clubId).members == Get(store, clubId).members + [origin.who]
    ensures forall k: U32 :: k != clubId ==> Get(r.store, k) == Get(store, k)
    ensures r.dropped == []
  {
    var who := Caller(origin);
    var club := Get(store, clubId);
    var updated := Club(club.id, Push(club.members, who));
    Step(store[clubId := updated], [Events.AddMember(who)], Success(()), [])
  }

  /** With the write-back, the benchmark's expectation holds: club 1 holds exactly the caller. */
  lemma BenchmarkExpectationMet(caller: AccountId)
    ensures Get(AddMember(map[], Signed(caller), 1).store, 1).members == [caller]
  {
  }
}
