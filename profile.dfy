/** The user-profile contract mock: one profile per identity, created once,
    whose name and bio can be replaced and whose list of owned NFTs can be
    appended to. The created, sale and purchase lists are never written. */
module ProfileStore {
  import opened Responses

  const ErrProfileExists: nat := 100
  const ErrProfileNotFound: nat := 101

  datatype Profile = Profile(
    username: string,
    bio: string,
    ownedNfts: seq<nat>,
    createdNfts: seq<nat>,
    saleHistory: seq<nat>,
    purchaseHistory: seq<nat>)

  /** The profile table, keyed by the profile's owner. */
  type Profiles = map<Principal, Profile>

  /** `q` has the same created, sale and purchase lists as `p`. */
  predicate SameHistories(p: Profile, q: Profile)
  {
    q.createdNfts == p.createdNfts && q.saleHistory == p.saleHistory && q.purchaseHistory == p.purchaseHistory
  }

  /** Every profile of `t` is still in `t'`, with the same three lists. */
  ghost predicate HistoriesKept(t: Profiles, t': Profiles)
  {
    forall user :: user in t ==> user in t' && SameHistories(t[user], t'[user])
  }

  /** No profile has anything in its created, sale or purchase list. */
  ghost predicate HistoriesEmpty(t: Profiles)
  {
    forall user :: user in t ==> t[user].createdNfts == [] && t[user].saleHistory == [] && t[user].purchaseHistory == []
  }

  /** getProfile: the profile of `user`, or none. */
  function ProfileOf(t: Profiles, user: Principal): (p: Option<Profile>)
    ensures p.Some? <==> user in t
    ensures p.Some? ==> p.value == t[user]
  {
    if user in t then Some(t[user]) else None
  }

  /** createProfile: a fresh profile for the caller, with four empty lists. */
  function Create(t: Profiles, username: string, bio: string, sender: Principal): (r: Reply<Profiles, bool>)
    ensures r.outcome.Ok? <==> sender !in t
    ensures r.outcome.Err? ==> r.outcome.code == ErrProfileExists && r.state == t
    ensures r.outcome.Ok? ==>
      && r.outcome.value
      && SameOutside(t, r.state, sender)
      && ProfileOf(r.state, sender) == Some(Profile(username, bio, [], [], [], []))
    ensures HistoriesKept(t, r.state)
    ensures HistoriesEmpty(t) ==> HistoriesEmpty(r.state)
  {
    if sender in t then
      Reply(t, Err(ErrProfileExists))
    else
      Reply(t[sender := Profile(username, bio, [], [], [], [])], Ok(true))
  }

  /** updateProfile: replace the caller's name and bio, keeping every list. */
  function Update(t: Profiles, username: string, bio: string, sender: Principal): (r: Reply<Profiles, bool>)
    ensures r.outcome.Ok? <==> sender in t
    ensures r.outcome.Err? ==> r.outcome.code == ErrProfileNotFound && r.state == t
    ensures r.outcome.Ok? ==>
      && r.outcome.value
      && SameOutside(t, r.state, sender)
      && sender in r.state
      && r.state[sender].username == username
      && r.state[sender].bio == bio
      && r.state[sender].ownedNfts == t[sender].ownedNfts
    ensures HistoriesKept(t, r.state)
    ensures HistoriesEmpty(t) ==> HistoriesEmpty(r.state)
  {
    if sender !in t then
      Reply(t, Err(ErrProfileNotFound))
    else
      Reply(t[sender := t[sender].(username := username, bio := bio)], Ok(true))
  }

  /** addOwnedNft: append `tokenId` to the end of the caller's owned list. */
  function AddOwned(t: Profiles, tokenId: nat, sender: Principal): (r: Reply<Profiles, bool>)
    ensures r.outcome.Ok? <==> sender in t
    ensures r.outcome.Err? ==> r.outcome.code == ErrProfileNotFound && r.state == t
    ensures r.outcome.Ok? ==>
      && r.outcome.value
      && SameOutside(t, r.state, sender)
      && sender in r.state
      && r.state[sender].ownedNfts == t[sender].ownedNfts + [tokenId]
      && r.state[sender].username == t[sender].username
      && r.state[sender].bio == t[sender].bio
    ensures HistoriesKept(t, r.state)
    ensures HistoriesEmpty(t) ==> HistoriesEmpty(r.state)
  {
    if sender !in t then
      Reply(t, Err(ErrProfileNotFound))
    else
      var profile := t[sender];
      Reply(t[sender := profile.(ownedNfts := profile.ownedNfts + [tokenId])], Ok(true))
  }

  /** One call on the contract. */
  datatype Call =
    | CreateCall(username: string, bio: string, sender: Principal)
    | UpdateCall(username: string, bio: string, sender: Principal)
    | AddOwnedCall(tokenId: nat, sender: Principal)

  function Apply(t: Profiles, c: Call): Profiles
  {
    match c
    case CreateCall(username, bio, sender) => Create(t, username, bio, sender).state
    case UpdateCall(username, bio, sender) => Update(t, username, bio, sender).state
    case AddOwnedCall(tokenId, sender) => AddOwned(t, tokenId, sender).state
  }

  /** The table after the calls in `calls`, in order. */
  function Replay(t: Profiles, calls: seq<Call>): Profiles
    decreases |calls|
  {
    if calls == [] then t else Replay(Apply(t, calls[0]), calls[1..])
  }

  /** Over any sequence of calls a profile is never removed, its three
      history lists never change, and its owned list only grows at the end. */
  lemma {:induction false} ProfileOnlyGrows(t: Profiles, calls: seq<Call>, user: Principal)
    requires user in t
    ensures user in Replay(t, calls)
    ensures SameHistories(t[user], Replay(t, calls)[user])
    ensures t[user].ownedNfts <= Replay(t, calls)[user].ownedNfts
    decreases |calls|
  {
    if calls != [] {
      var t' := Apply(t, calls[0]);
      assert user in t' && SameHistories(t[user], t'[user]);
      assert t[user].ownedNfts <= t'[user].ownedNfts;
      ProfileOnlyGrows(t', calls[1..], user);
    }
  }

  /** Starting from profiles with empty history lists, they stay empty. */
  lemma {:induction false} ReplayKeepsHistoriesEmpty(t: Profiles, calls: seq<Call>)
    requires HistoriesEmpty(t)
    ensures HistoriesEmpty(Replay(t, calls))
    decreases |calls|
  {
    if calls != [] {
      ReplayKeepsHistoriesEmpty(Apply(t, calls[0]), calls[1..]);
    }
  }

  /** The contract object: the `userProfiles` table. */
  class Store {
    var userProfiles: Profiles

    ghost predicate Valid()
      reads this
    {
      HistoriesEmpty(userProfiles)
    }

    constructor ()
      ensures Valid() && userProfiles == map[]
    {
      userProfiles := map[];
    }

    method CreateProfile(username: string, bio: string, sender: Principal) returns (r: Response<bool>)
      requires Valid()
      modifies this
      ensures Valid()
      ensures Reply(userProfiles, r) == Create(old(userProfiles), username, bio, sender)
    {
      if sender in userProfiles {
        return Err(ErrProfileExists);
      }
      userProfiles := userProfiles[sender := Profile(username, bio, [], [], [], [])];
      return Ok(true);
    }

    method UpdateProfile(username: string, bio: string, sender: Principal) returns (r: Response<bool>)
      requires Valid()
      modifies this
      ensures Valid()
      ensures Reply(userProfiles, r) == Update(old(userProfiles), username, bio, sender)
    {
      if sender !in userProfiles {
        return Err(ErrProfileNotFound);
      }
      var existing := userProfiles[sender];
      userProfiles := userProfiles[sender := existing.(username := username, bio := bio)];
      return Ok(true);
    }

    method AddOwnedNft(tokenId: nat, sender: Principal) returns (r: Response<bool>)
      requires Valid()
      modifies this
      ensures Valid()
      ensures Reply(userProfiles, r) == AddOwned(old(userProfiles), tokenId, sender)
    {
      if sender !in userProfiles {
        return Err(ErrProfileNotFound);
      }
      var profile := userProfiles[sender];
      userProfiles := userProfiles[sender := profile.(ownedNfts := profile.ownedNfts + [tokenId])];
      return Ok(true);
    }
  }

  /** The call sequence of the repository's profile test file, with the
      responses and profiles it expects, derived from the contracts above. */
  method ProfileTestSequence()
  {
    var store := new Store();
    var r := store.CreateProfile("testuser", "This is a test bio.", "creator-1");
    assert r == Ok(true);
    assert ProfileOf(store.userProfiles, "creator-1") == Some(Profile("testuser", "This is a test bio.", [], [], [], []));
    r := store.CreateProfile("testuser", "This is a test bio.", "creator-1");
    assert r == Err(ErrProfileExists);
    r := store.UpdateProfile("updateduser", "Updated bio.", "creator-1");
    assert r == Ok(true);
    assert store.userProfiles["creator-1"].username == "updateduser";
    assert store.userProfiles["creator-1"].bio == "Updated bio.";
    r := store.UpdateProfile("anotheruser", "Another bio.", "creator-2");
    assert r == Err(ErrProfileNotFound);
    r := store.AddOwnedNft(1, "creator-1");
    assert r == Ok(true);
    assert 1 in store.userProfiles["creator-1"].ownedNfts;
    r := store.AddOwnedNft(2, "creator-2");
    assert r == Err(ErrProfileNotFound);
  }
}
