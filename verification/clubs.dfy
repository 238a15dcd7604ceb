/**
  The data the club-membership pallet keeps: the `Club` record, its default
  value and the `ClubMembers` storage map with value-query reads.
 */
module Clubs {

  /** Club ids are `u32` in the pallet. */
  type U32 = x: int | 0 <= x < 0x1_0000_0000

  /** The runtime's account identifier; the pallet only compares accounts for equality. */
  type AccountId = nat

  /** One club: its id and its members, in insertion order. No uniqueness is enforced. */
  datatype Club = Club(id: U32, members: seq<AccountId>)

  /** The id `Club::default()` carries. */
  const DefaultId: U32 := 1

  /** `Club::default()`: id 1 and no members. */
  function Default(): Club
  {
    Club(DefaultId, [])
  }

  /** The `ClubMembers` map. A key is present only once something was stored under it. */
  type Store = map<U32, Club>

  /**
    `ClubMembers::get`: a value query, so a key that was never written reads as
    the default club. The result is a copy; changing it does not change the store.
   */
  function Get(store: Store, clubId: U32): (c: Club)
    ensures clubId in store ==> c == store[clubId]
    ensures clubId !in store ==> c.id == 1 && c.members == []
  {
    if clubId in store then store[clubId] else Default()
  }

  /** Reading any key of the empty store yields the default club. */
  lemma EmptyStoreReadsDefault(clubId: U32)
    ensures Get(map[], clubId) == Club(1, [])
  {
  }
}

/** The pallet's `Event` enum. */
module Events {
  import Clubs

  /**
    `Club(club_id, who)` introduces a club; `AddMember(who)` and
    `RemoveMember(who)` announce a membership change by `who`.
   */
  datatype Event =
    | Club(clubId: Clubs.U32, who: Clubs.AccountId)
    | AddMember(who: Clubs.AccountId)
    | RemoveMember(who: Clubs.AccountId)
}

/** The pallet's `Error` enum and the dispatch result it feeds. */
module Errors {
  import opened Wrappers

  /** The declared error kinds, spelled as in the pallet (including `MemnerAlreadyExists`). */
  datatype Error = NoneValue | StorageOverflow | MemnerAlreadyExists | MemberInvalid

  /** `DispatchResult`: `Ok(())` or a pallet error. */
  type DispatchResult = Result<(), Error>
}

/** Transaction origins and the caller extraction every dispatchable performs. */
module Origins {
  import opened Wrappers
  import opened Clubs

  /** `RawOrigin`: a signed account, the root origin, or no origin at all. */
  datatype Origin = Signed(who: AccountId) | Root | Unsigned

  datatype BadOrigin = BadOrigin

  /**
    The outcome of `ensure_signed_or_root`: a signed origin yields its account,
    root yields no account, and an unsigned origin is rejected.
   */
  function EnsureSignedOrRoot(o: Origin): (r: Result<Option<AccountId>, BadOrigin>)
    ensures r.Failure? <==> o.Unsigned?
    ensures r.Success? && r.value.None? <==> o.Root?
    ensures forall w: AccountId :: r == Success(Some(w)) <==> o == Signed(w)
  {
    match o
    case Signed(w) => Success(Some(w))
    case Root => Success(None)
    case Unsigned => Failure(BadOrigin)
  }

  /** Both `unwrap`s of `ensure_signed_or_root(origin).unwrap().unwrap()` succeed. */
  predicate Unwraps(o: Origin)
  {
    EnsureSignedOrRoot(o).Success? && EnsureSignedOrRoot(o).value.Some?
  }

  /** `ensure_signed_or_root(origin).unwrap().unwrap()`: the caller's account. */
  function Caller(o: Origin): (who: AccountId)
    requires Unwraps(o)
    ensures o == Signed(who)
  {
    EnsureSignedOrRoot(o).value.value
  }

  /** The double unwrap succeeds exactly for signed origins; root and unsigned origins panic. */
  lemma UnwrapsIffSigned(o: Origin)
    ensures Unwraps(o) <==> o.Signed?
  {
  }
}
