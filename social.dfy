// Following providers: a follow flag per (user, provider) pair, each user's list
// of followed providers, and each provider's follower count, kept in step by
// follow and unfollow.

module Social {
  import opened Base

  datatype SocialError = CannotFollowSelf

  type Follows = set<(Address, Address)>

  /** A user's followed list; empty for a user who never followed anyone. */
  function ListOf(lists: map<Address, seq<Address>>, user: Address): seq<Address>
  {
    if user in lists then lists[user] else []
  }

  /** A provider's stored follower count; 0 without the key. */
  function CountOf(counts: map<Address, nat>, provider: Address): nat
  {
    if provider in counts then counts[provider] else 0
  }

  /** The set follow flags naming `provider`. */
  function FollowersIn(follows: Follows, provider: Address): (s: Follows)
    ensures forall x :: x in s <==> x in follows && x.1 == provider
  {
    set x | x in follows && x.1 == provider
  }

  /** Each user's list holds exactly the providers they have a flag for, once each. */
  ghost predicate ListsAgree(follows: Follows, lists: map<Address, seq<Address>>)
  {
    && (forall u :: u in lists ==> NoDup(lists[u]))
    && (forall u: Address, p: Address :: (u, p) in follows <==> p in ListOf(lists, u))
  }

  /** Each provider's count is the number of flags naming them; no zero count is stored. */
  ghost predicate CountsAgree(follows: Follows, counts: map<Address, nat>)
  {
    && (forall p: Address :: CountOf(counts, p) == |FollowersIn(follows, p)|)
    && (forall p :: p in counts ==> counts[p] > 0)
  }

  /** The three stores agree, and nobody follows themselves. */
  ghost predicate Consistent(follows: Follows, lists: map<Address, seq<Address>>, counts: map<Address, nat>)
  {
    && (forall x :: x in follows ==> x.0 != x.1)
    && ListsAgree(follows, lists)
    && CountsAgree(follows, counts)
  }

  /** Adding or removing one flag changes the followers of its provider only. */
  lemma FollowersChange(follows: Follows, pair: (Address, Address), p: Address)
    ensures FollowersIn(follows + {pair}, p) == if pair.1 == p then FollowersIn(follows, p) + {pair} else FollowersIn(follows, p)
    ensures FollowersIn(follows - {pair}, p) == if pair.1 == p then FollowersIn(follows, p) - {pair} else FollowersIn(follows, p)
  {
  }

  /** A new flag for `provider` raises its count by one and leaves the rest. */
  lemma FollowCounts(follows: Follows, counts: map<Address, nat>, user: Address, provider: Address)
    requires CountsAgree(follows, counts) && (user, provider) !in follows
    ensures CountsAgree(follows + {(user, provider)}, counts[provider := CountOf(counts, provider) + 1])
  {
    var f := follows + {(user, provider)};
    var c := counts[provider := CountOf(counts, provider) + 1];
    forall p: Address ensures CountOf(c, p) == |FollowersIn(f, p)| {
      FollowersChange(follows, (user, provider), p);
    }
  }

  /** A new flag puts the provider at the end of the user's list. */
  lemma FollowLists(follows: Follows, lists: map<Address, seq<Address>>, user: Address, provider: Address)
    requires ListsAgree(follows, lists) && (user, provider) !in follows
    ensures ListsAgree(follows + {(user, provider)}, lists[user := ListOf(lists, user) + [provider]])
  {
    var f := follows + {(user, provider)};
    var l := lists[user := ListOf(lists, user) + [provider]];
    assert provider !in ListOf(lists, user);
    forall u: Address, p: Address ensures (u, p) in f <==> p in ListOf(l, u) {
      if u != user {
        assert ListOf(l, u) == ListOf(lists, u);
      }
    }
  }

  /** A new follow keeps the stores in agreement: the provider joins the user's
      list and gains one follower. */
  lemma FollowKeeps(follows: Follows, lists: map<Address, seq<Address>>, counts: map<Address, nat>,
                    user: Address, provider: Address)
    requires Consistent(follows, lists, counts)
    requires user != provider && (user, provider) !in follows
    ensures Consistent(follows + {(user, provider)}, lists[user := ListOf(lists, user) + [provider]],
                       counts[provider := CountOf(counts, provider) + 1])
  {
    FollowCounts(follows, counts, user, provider);
    FollowLists(follows, lists, user, provider);
  }

  /** Dropping a flag lowers its provider's count by one, the key going at 0. */
  lemma UnfollowCounts(follows: Follows, counts: map<Address, nat>, user: Address, provider: Address)
    requires CountsAgree(follows, counts) && (user, provider) in follows
    ensures CountOf(counts, provider) >= 1
    ensures var n := CountOf(counts, provider) - 1;
            CountsAgree(follows - {(user, provider)}, if n == 0 then counts - {provider} else counts[provider := n])
  {
    assert (user, provider) in FollowersIn(follows, provider);
    var f := follows - {(user, provider)};
    var n := CountOf(counts, provider) - 1;
    var c := if n == 0 then counts - {provider} else counts[provider := n];
    forall p: Address ensures CountOf(c, p) == |FollowersIn(f, p)| {
      FollowersChange(follows, (user, provider), p);
    }
  }

  /** Dropping a flag takes the provider out of the user's list. */
  lemma UnfollowLists(follows: Follows, lists: map<Address, seq<Address>>, user: Address, provider: Address)
    requires ListsAgree(follows, lists) && (user, provider) in follows
    ensures ListsAgree(follows - {(user, provider)}, lists[user := Without(ListOf(lists, user), provider)])
  {
    var f := follows - {(user, provider)};
    var l := lists[user := Without(ListOf(lists, user), provider)];
    assert user in lists;
    WithoutNoDup(lists[user], provider);
    forall u: Address, p: Address ensures (u, p) in f <==> p in ListOf(l, u) {
      if u != user {
        assert ListOf(l, u) == ListOf(lists, u);
      }
    }
  }

  /** Dropping a follow keeps the stores in agreement: the provider leaves the
      user's list and loses one follower, the key going at 0. */
  lemma UnfollowKeeps(follows: Follows, lists: map<Address, seq<Address>>, counts: map<Address, nat>,
                      user: Address, provider: Address)
    requires Consistent(follows, lists, counts)
    requires (user, provider) in follows
    ensures CountOf(counts, provider) >= 1
    ensures var c := CountOf(counts, provider) - 1;
            Consistent(follows - {(user, provider)}, lists[user := Without(ListOf(lists, user), provider)],
                       if c == 0 then counts - {provider} else counts[provider := c])
  {
    UnfollowCounts(follows, counts, user, provider);
    UnfollowLists(follows, lists, user, provider);
  }

  /** The writes of `unfollow_provider` for a pair that is followed: the flag is
      cleared, the list rebuilt without the provider, and the count lowered. */
  method Unfollowed(follows: Follows, lists: map<Address, seq<Address>>, counts: map<Address, nat>,
                    user: Address, provider: Address)
    returns (follows': Follows, lists': map<Address, seq<Address>>, counts': map<Address, nat>)
    requires Consistent(follows, lists, counts) && (user, provider) in follows
    ensures Consistent(follows', lists', counts')
    ensures follows' == follows - {(user, provider)}
    ensures lists' == lists[user := Without(ListOf(lists, user), provider)]
    ensures 1 <= CountOf(counts, provider) && counts' == Lowered(counts, provider)
  {
    UnfollowKeeps(follows, lists, counts, user, provider);
    var newList := RemoveProvider(ListOf(lists, user), provider);
    lists' := lists[user := newList];
    follows' := follows - {(user, provider)};
    var count := SatSub(CountOf(counts, provider), 1);
    counts' := if count == 0 then counts - {provider} else counts[provider := count];
  }

  /** A follower count lowered by one, saturating at 0; the key goes when it reaches 0. */
  function Lowered(counts: map<Address, nat>, provider: Address): (r: map<Address, nat>)
    ensures CountOf(counts, provider) <= 1 ==> r == counts - {provider}
    ensures CountOf(counts, provider) > 1 ==> r == counts[provider := CountOf(counts, provider) - 1]
  {
    var count := SatSub(CountOf(counts, provider), 1);
    if count == 0 then counts - {provider} else counts[provider := count]
  }

  /** The rebuild loop of `unfollow_provider`: the list without `provider`. */
  method RemoveProvider(list: seq<Address>, provider: Address) returns (newList: seq<Address>)
    ensures newList == Without(list, provider)
  {
    newList := [];
    var i := 0;
    while i < |list|
      invariant 0 <= i <= |list|
      invariant newList == Without(list[..i], provider)
    {
      WithoutPrefix(list, i, provider);
      var p := list[i];
      if p != provider {
        newList := newList + [p];
      }
      i := i + 1;
    }
    assert list[..i] == list;
  }

  class SocialGraph {
    /** The `Follow(user, provider)` flags that are set, as (user, provider) pairs. */
    var follows: Follows
    /** `UserFollowedList(user)`. */
    var followedLists: map<Address, seq<Address>>
    /** `FollowerCount(provider)`; a provider whose count drops to 0 loses the key. */
    var followerCounts: map<Address, nat>

    constructor ()
      ensures Valid()
      ensures follows == {} && followedLists == map[] && followerCounts == map[]
    {
      follows := {};
      followedLists := map[];
      followerCounts := map[];
    }

    ghost predicate Valid()
      reads this
    {
      Consistent(follows, followedLists, followerCounts)
    }

    /** `is_following`. */
    function IsFollowing(user: Address, provider: Address): (b: bool)
      reads this
      ensures b <==> (user, provider) in follows
    {
      (user, provider) in follows
    }

    /** `get_followed_providers`. */
    function GetFollowedProviders(user: Address): (list: seq<Address>)
      reads this
    {
      ListOf(followedLists, user)
    }

    /** `get_follower_count`. */
    function GetFollowerCount(provider: Address): (n: nat)
      reads this
    {
      CountOf(followerCounts, provider)
    }

    /** In a consistent graph a user's list names exactly the providers they follow,
        and a provider's count is the number of users following them. */
    lemma StoresAgree(user: Address, provider: Address)
      requires Valid()
      ensures forall p :: p in GetFollowedProviders(user) <==> IsFollowing(user, p)
      ensures NoDup(GetFollowedProviders(user))
      ensures GetFollowerCount(provider) == |FollowersIn(follows, provider)|
    {
    }

    /** `follow_provider`: following oneself fails; following again changes nothing. */
    method FollowProvider(user: Address, provider: Address) returns (r: Result<(), SocialError>)
      requires Valid()
      modifies this
      ensures Valid()
      ensures user == provider ==> r == Err(CannotFollowSelf)
      ensures user != provider ==> r == Ok(())
      ensures user == provider || old(IsFollowing(user, provider)) ==>
                follows == old(follows) && followedLists == old(followedLists) && followerCounts == old(followerCounts)
      ensures user != provider && !old(IsFollowing(user, provider)) ==>
                && follows == old(follows) + {(user, provider)}
                && followedLists == old(followedLists)[user := old(GetFollowedProviders(user)) + [provider]]
                && followerCounts == old(followerCounts)[provider := old(GetFollowerCount(provider)) + 1]
    {
      if user == provider {
        return Err(CannotFollowSelf);
      }
      if IsFollowing(user, provider) {
        return Ok(());
      }
      FollowKeeps(follows, followedLists, followerCounts, user, provider);
      var list := GetFollowedProviders(user);
      list := list + [provider];
      followedLists := followedLists[user := list];
      follows := follows + {(user, provider)};
      var count := GetFollowerCount(provider) + 1;
      followerCounts := followerCounts[provider := count];
      r := Ok(());
    }

    /** `unfollow_provider`: unfollowing a provider not followed changes nothing. */
    method UnfollowProvider(user: Address, provider: Address) returns (r: Result<(), SocialError>)
      requires Valid()
      modifies this
      ensures Valid()
      ensures r == Ok(())
      ensures (user, provider) !in old(follows) ==>
                follows == old(follows) && followedLists == old(followedLists) && followerCounts == old(followerCounts)
      ensures (user, provider) in old(follows) ==>
                && follows == old(follows) - {(user, provider)}
                && followedLists == old(followedLists)[user := Without(ListOf(old(followedLists), user), provider)]
                && 1 <= CountOf(old(followerCounts), provider)
                && followerCounts == Lowered(old(followerCounts), provider)
    {
      if !IsFollowing(user, provider) {
        return Ok(());
      }
      follows, followedLists, followerCounts := Unfollowed(follows, followedLists, followerCounts, user, provider);
      r := Ok(());
    }
  }
}
