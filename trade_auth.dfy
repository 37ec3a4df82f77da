// Trading authorisations: a user lets the contract trade for them up to a
// maximum amount for a number of days, and can revoke that at any time.

module TradeAuth {
  import opened Base
  import opened TradeTypes

  const SECONDS_PER_DAY: int := 86400

  datatype AuthConfig = AuthConfig(authorized: bool, maxTradeAmount: int, expiresAt: int, grantedAt: int)

  type Grants = map<Address, AuthConfig>

  /** `grant_authorization` at ledger time `now`: a grant of `durationDays` days
      replaces any earlier one. */
  function Granted(grants: Grants, user: Address, maxAmount: int, durationDays: nat, now: int): (r: Result<Grants, AutoTradeError>)
    ensures maxAmount <= 0 <==> r == Err(InvalidAmount)
    ensures r.Ok? ==> user in r.value && r.value - {user} == grants - {user}
    ensures r.Ok? ==> r.value[user].authorized && r.value[user].maxTradeAmount == maxAmount
    ensures r.Ok? ==> r.value[user].grantedAt == now && r.value[user].expiresAt - now == durationDays * SECONDS_PER_DAY
  {
    if maxAmount <= 0 then Err(InvalidAmount)
    else Ok(grants[user := AuthConfig(true, maxAmount, now + durationDays * SECONDS_PER_DAY, now)])
  }

  /** `revoke_authorization`: the user's grant is gone. */
  function Revoked(grants: Grants, user: Address): (r: Grants)
    ensures user !in r && r == grants - {user}
  {
    grants - {user}
  }

  /** `is_authorized` at ledger time `now` for a trade of `amount`. */
  predicate IsAuthorized(grants: Grants, user: Address, amount: int, now: int)
  {
    && user in grants
    && grants[user].authorized
    && now < grants[user].expiresAt
    && amount <= grants[user].maxTradeAmount
  }

  /** Right after a grant the user may trade any amount up to the maximum, and
      nothing above it, while the grant lasts; a grant of 0 days never
      authorises anything. */
  lemma GrantMeaning(grants: Grants, user: Address, maxAmount: int, durationDays: nat, now: int, amount: int, later: int)
    requires Granted(grants, user, maxAmount, durationDays, now).Ok?
    requires now <= later
    ensures var after := Granted(grants, user, maxAmount, durationDays, now).value;
            IsAuthorized(after, user, amount, later) <==>
              amount <= maxAmount && later < now + durationDays * SECONDS_PER_DAY
    ensures durationDays == 0 ==> !IsAuthorized(Granted(grants, user, maxAmount, durationDays, now).value, user, amount, later)
  {
  }

  /** After a revoke no amount is authorised, at any time. */
  lemma RevokeMeaning(grants: Grants, user: Address, amount: int, now: int)
    ensures !IsAuthorized(Revoked(grants, user), user, amount, now)
  {
  }

  /** A grant or a revoke for one user leaves every other user's answer alone. */
  lemma OthersUnaffected(grants: Grants, user: Address, other: Address, maxAmount: int, durationDays: nat,
                         now: int, amount: int, at: int)
    requires other != user
    ensures IsAuthorized(Revoked(grants, user), other, amount, at) == IsAuthorized(grants, other, amount, at)
    ensures Granted(grants, user, maxAmount, durationDays, now).Ok? ==>
              IsAuthorized(Granted(grants, user, maxAmount, durationDays, now).value, other, amount, at) ==
              IsAuthorized(grants, other, amount, at)
  {
    assert other in Revoked(grants, user) <==> other in grants;
    if Granted(grants, user, maxAmount, durationDays, now).Ok? {
      var after := Granted(grants, user, maxAmount, durationDays, now).value;
      assert other in after <==> other in grants;
      if other in grants {
        assert after[other] == grants[other];
      }
    }
  }

  /** The authorisation storage of the contract. */
  class AuthStore {
    var grants: Grants

    constructor ()
      ensures grants == map[]
    {
      grants := map[];
    }

    /** `grant_authorization`. */
    method GrantAuthorization(user: Address, maxAmount: int, durationDays: nat, now: int) returns (r: Result<(), AutoTradeError>)
      modifies this
      ensures Granted(old(grants), user, maxAmount, durationDays, now).Err? ==> r == Err(InvalidAmount) && grants == old(grants)
      ensures Granted(old(grants), user, maxAmount, durationDays, now).Ok? ==>
                r == Ok(()) && grants == Granted(old(grants), user, maxAmount, durationDays, now).value
    {
      if maxAmount <= 0 {
        return Err(InvalidAmount);
      }
      var expiresAt := now + durationDays * SECONDS_PER_DAY;
      var config := AuthConfig(true, maxAmount, expiresAt, now);
      grants := grants[user := config];
      r := Ok(());
    }

    /** `revoke_authorization`. */
    method RevokeAuthorization(user: Address) returns (r: Result<(), AutoTradeError>)
      modifies this
      ensures r == Ok(()) && grants == Revoked(old(grants), user)
    {
      grants := grants - {user};
      r := Ok(());
    }

    /** `get_auth_config`. */
    function GetAuthConfig(user: Address): (r: Option<AuthConfig>)
      reads this
      ensures r.Some? <==> user in grants
      ensures r.Some? ==> r.value == grants[user]
    {
      if user in grants then Some(grants[user]) else None
    }
  }
}
