/**
  The three dispatchables of the club-membership pallet, as written: each
  reads `ClubMembers` through `get`, which hands back a copy, and none of them
  writes anything back. The copies a call builds and drops are reported in
  `Step.dropped`, so the contracts can speak both of the working copy and of
  what reaches storage.
 */
module Pallet {
  import opened Wrappers
  import opened Clubs
  import opened Origins
  import opened Lists
  import opened Errors
  import Events

  /**
    The effect of one dispatch: the store afterwards, the events deposited,
    the dispatch result, and the member lists built in memory and discarded.
   */
  datatype Step = Step(
    store: Store,
    events: seq<Events.Event>,
    result: DispatchResult,
    dropped: seq<seq<AccountId>>)

  /** The club id `create_club` announces; the pallet hardcodes it. */
  const CreatedClubId: U32 := 1

  /** `create_club`: announces club 1 for the caller and touches no storage. */
  function CreateClub(store: Store, origin: Origin): (r: Step)
    requires origin.Signed?
    ensures r.result == Success(())
    ensures r.store == store
    ensures r.events == [Events.Club(1, origin.who)]
    ensures r.dropped == []
  {
    var who := Caller(origin);
    Step(store, [Events.Club(CreatedClubId, who)], Success(()), [])
  }

  /**
    `add_member`: pushes the caller onto a copy of the club's member list and
    announces it. The copy is dropped, so the store is unchanged.
   */
  function AddMember(store: Store, origin: Origin, clubId: U32): (r: Step)
    requires origin.Signed?
    ensures r.result == Success(())
    ensures r.store == store
    ensures r.events == [Events.AddMember(origin.who)]
    ensures |r.dropped| == 1
    ensures var stored := Get(store, clubId).members;
            && |r.dropped[0]| == |stored| + 1
            && r.dropped[0][..|stored|] == stored
            && r.dropped[0][|stored|] == origin.who
  {
    var who := Caller(origin);
    var club := Get(store, clubId);
    var working := Push(club.members, who);
    Step(store, [Events.AddMember(who)], Success(()), [working])
  }

  /**
    The copies the `for` loop of `remove_member` builds: walking the stored
    list with a running index, each position holding `who` triggers
    `remove(index)` on a fresh copy of the stored list, which is then dropped.
   */
  function RemovalCopies(stored: seq<AccountId>, who: AccountId): (copies: seq<seq<AccountId>>)
    ensures |copies| == multiset(stored)[who]
    ensures forall k :: 0 <= k < |copies| ==>
              |copies[k]| == |stored| - 1 && multiset(copies[k]) == multiset(stored) - multiset{who}
    ensures var idx := MatchIndices(stored, who);
            && |copies| == |idx|
            && forall k :: 0 <= k < |copies| ==> stored[idx[k]] == who && RemovedAt(copies[k], stored, idx[k])
  {
    var idx := MatchIndices(stored, who);
    MatchIndicesCount(stored, who);
    seq(|idx|, k requires 0 <= k < |idx| => RemoveAt(stored, idx[k]))
  }

  /**
    `remove_member`: when the caller is listed, removes each of its occurrences
    from a fresh copy and drops that copy; otherwise skips the loop. Either way
    the store is unchanged and the removal is announced.
   */
  function RemoveMember(store: Store, origin: Origin, clubId: U32): (r: Step)
    requires origin.Signed?
    ensures r.result == Success(())
    ensures r.store == store
    ensures r.events == [Events.RemoveMember(origin.who)]
    ensures origin.who !in Get(store, clubId).members ==> r.dropped == []
    ensures var stored := Get(store, clubId).members;
            origin.who in stored ==>
              && |r.dropped| == multiset(stored)[origin.who] >= 1
              && forall k :: 0 <= k < |r.dropped| ==>
                   |r.dropped[k]| == |stored| - 1
                   && multiset(r.dropped[k]) == multiset(stored) - multiset{origin.who}
    ensures var stored := Get(store, clubId).members;
            var idx := MatchIndices(stored, origin.who);
            origin.who in stored ==>
              && |r.dropped| == |idx|
              && forall k :: 0 <= k < |r.dropped| ==>
                   stored[idx[k]] == origin.who && RemovedAt(r.dropped[k], stored, idx[k])
  {
    var who := Caller(origin);
    var copies :=
      if who in Get(store, clubId).members then RemovalCopies(Get(store, clubId).members, who) else [];
    Step(store, [Events.RemoveMember(who)], Success(()), copies)
  }

  /**
    When the caller occurs once in the stored list, at position `i`, the loop
    of `remove_member` drops exactly one copy: the stored list with position
    `i` taken out and the rest in stored order.
   */
  lemma RemoveMemberSingleOccurrence(store: Store, origin: Origin, clubId: U32, i: nat)
    requires origin.Signed?
    requires var stored := Get(store, clubId).members;
             i < |stored| && stored[i] == origin.who && multiset(stored)[origin.who] == 1
    ensures var stored := Get(store, clubId).members;
            RemoveMember(store, origin, clubId).dropped == [stored[..i] + stored[i + 1..]]
  {
  }

  /** The calls the pallet exposes. */
  datatype Call = Create | Add(clubId: U32) | Remove(clubId: U32)

  /** Routes a call to its dispatchable. */
  function Dispatch(store: Store, origin: Origin, call: Call): (r: Step)
    requires origin.Signed?
    ensures r.result == Success(())
    ensures r.store == store
    ensures |r.events| == 1 && r.events[0].who == origin.who
    ensures call.Create? ==> r.events == [Events.Club(1, origin.who)]
    ensures call.Add? ==> r.events == [Events.AddMember(origin.who)]
    ensures call.Remove? ==> r.events == [Events.RemoveMember(origin.who)]
  {
    match call
    case Create => CreateClub(store, origin)
    case Add(id) => AddMember(store, origin, id)
    case Remove(id) => RemoveMember(store, origin, id)
  }

  /** The error kinds a dispatch with a signed origin can raise: none. */
  lemma NoDeclaredErrorIsRaised(store: Store, origin: Origin, call: Call, e: Error)
    requires origin.Signed?
    ensures Dispatch(store, origin, call).result != Failure(e)
  {
  }

  /** The working copy of `add_member` differs from what storage holds afterwards. */
  lemma AddMemberIsNotPersisted(store: Store, origin: Origin, clubId: U32)
    requires origin.Signed?
    ensures Get(AddMember(store, origin, clubId).store, clubId).members
            != AddMember(store, origin, clubId).dropped[0]
  {
  }

  /**
    There is no membership check: the working copy counts the caller once more
    than the stored list, so a caller already listed appears twice.
   */
  lemma AddMemberDuplicates(store: Store, origin: Origin, clubId: U32)
    requires origin.Signed?
    ensures var stored := Get(store, clubId).members;
            multiset(AddMember(store, origin, clubId).dropped[0])[origin.who]
            == multiset(stored)[origin.who] + 1
    ensures origin.who in Get(store, clubId).members ==>
              multiset(AddMember(store, origin, clubId).dropped[0])[origin.who] >= 2
  {
  }

  /** `create_club` always announces the same id, so two creations collide. */
  lemma CreateClubCollides(s1: Store, o1: Origin, s2: Store, o2: Origin)
    requires o1.Signed? && o2.Signed?
    ensures CreateClub(s1, o1).events[0].clubId == CreateClub(s2, o2).events[0].clubId
  {
  }
}
