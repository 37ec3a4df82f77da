// Registry administration: the admin (or, with multisig on, any signer), the
// platform parameters it may set within bounds, the 48-hour trading pause that
// lapses on its own, and the multisig signer set that never shrinks below its
// threshold.

module Admin {
  import opened Base
  import opened RegistryTypes

  const PAUSE_DURATION: int := 48 * 60 * 60
  const MAX_FEE_BPS: nat := 100
  const MAX_RISK_PERCENTAGE: nat := 100
  const DEFAULT_MIN_STAKE: int := 100_000_000
  const DEFAULT_TRADE_FEE_BPS: nat := 10
  const DEFAULT_STOP_LOSS: nat := 15
  const DEFAULT_POSITION_LIMIT: nat := 20

  datatype PauseInfo = PauseInfo(isPaused: bool, pausedAt: int, expiresAt: int)

  const NOT_PAUSED: PauseInfo := PauseInfo(false, 0, 0)

  datatype AdminConfig = AdminConfig(minStake: int, tradeFeeBps: nat, defaultStopLoss: nat, defaultPositionLimit: nat)

  /** Every stored value at once. */
  datatype AdminState = AdminState(
    admin: Option<Address>,
    minStake: int,
    tradeFeeBps: nat,
    stopLoss: nat,
    positionLimit: nat,
    pause: PauseInfo,
    multisigEnabled: bool,
    signers: seq<Address>,
    threshold: nat)

  /** Trading is paused while the flag is set and the expiry is still ahead. */
  predicate PauseActive(p: PauseInfo, now: int)
  {
    p.isPaused && now < p.expiresAt
  }

  /** A pause started at `start` holds exactly until 48 hours later; an unpause or
      a lapsed pause holds at no time. */
  lemma PauseWindow(start: int, now: int)
    ensures PauseActive(PauseInfo(true, start, start + PAUSE_DURATION), now) <==> now < start + 172800
    ensures !PauseActive(NOT_PAUSED, now)
  {
  }

  /** The checks of `enable_multisig`, in order. */
  function MultisigCheck(signers: seq<Address>, threshold: nat): (r: Result<(), AdminError>)
    ensures r.Ok? <==> 1 <= threshold <= |signers| && NoDup(signers)
    ensures (threshold == 0 || threshold > |signers|) ==> r == Err(InvalidParameter)
    ensures 1 <= threshold <= |signers| && !NoDup(signers) ==> r == Err(DuplicateSigner)
  {
    if threshold == 0 || threshold > |signers| then Err(InvalidParameter)
    else if !NoDup(signers) then Err(DuplicateSigner)
    else Ok(())
  }

  /** The duplicate check of `enable_multisig`: whether two positions hold the same signer. */
  method HasDuplicate(signers: seq<Address>) returns (found: bool)
    ensures found <==> !NoDup(signers)
  {
    var i := 0;
    while i < |signers|
      invariant 0 <= i <= |signers|
      invariant forall k, l :: 0 <= k < i && k < l < |signers| ==> signers[k] != signers[l]
    {
      var j := i + 1;
      while j < |signers|
        invariant i + 1 <= j <= |signers|
        invariant forall l :: i < l < j ==> signers[i] != signers[l]
      {
        if signers[i] == signers[j] {
          return true;
        }
        j := j + 1;
      }
      i := i + 1;
    }
    return false;
  }

  /** The checks and result of `add_multisig_signer` on the signer list. */
  function AddSigner(signers: seq<Address>, newSigner: Address): (r: Result<seq<Address>, AdminError>)
    ensures r.Err? <==> newSigner in signers
    ensures r.Err? ==> r.error == DuplicateSigner
    ensures r.Ok? ==> r.value == signers + [newSigner]
  {
    if newSigner in signers then Err(DuplicateSigner) else Ok(signers + [newSigner])
  }

  /** The checks and result of `remove_multisig_signer` on the signer list: the
      threshold check comes before the membership check. */
  function RemoveSigner(signers: seq<Address>, threshold: nat, who: Address): (r: Result<seq<Address>, AdminError>)
    ensures |signers| - 1 < threshold ==> r == Err(InsufficientSignatures)
    ensures |signers| - 1 >= threshold && who !in signers ==> r == Err(Unauthorized)
    ensures r.Ok? ==> |signers| - 1 >= threshold && who in signers && r.value == Without(signers, who)
  {
    if |signers| - 1 < threshold then Err(InsufficientSignatures)
    else if who !in signers then Err(Unauthorized)
    else Ok(Without(signers, who))
  }

  /** Adding and removing signers keeps a valid signer set valid: no duplicates,
      and never fewer signers than the threshold. Removing a signer just added
      gives back the original list. */
  lemma SignerSetMeaning(signers: seq<Address>, threshold: nat, who: Address)
    requires NoDup(signers) && 1 <= threshold <= |signers|
    ensures AddSigner(signers, who).Ok? ==>
              var s := AddSigner(signers, who).value;
              NoDup(s) && threshold <= |s| && RemoveSigner(s, threshold, who) == Ok(signers)
    ensures RemoveSigner(signers, threshold, who).Ok? ==>
              var s := RemoveSigner(signers, threshold, who).value;
              NoDup(s) && 1 <= threshold <= |s| == |signers| - 1 && who !in s
  {
    WithoutNoDup(signers, who);
    if who !in signers {
      var s := signers + [who];
      assert NoDup(s);
      WithoutAppend(signers, who);
    }
  }

  /** Dropping a new last element that occurs nowhere else gives back the original. */
  lemma {:induction false} WithoutAppend(s: seq<Address>, x: Address)
    requires x !in s
    ensures Without(s + [x], x) == s
  {
    assert (s + [x])[..|s|] == s;
    WithoutAbsent(s, x);
  }

  lemma {:induction false} WithoutAbsent(s: seq<Address>, x: Address)
    requires x !in s
    ensures Without(s, x) == s
  {
    if s != [] {
      WithoutAbsent(s[..|s| - 1], x);
      assert s == s[..|s| - 1] + [s[|s| - 1]];
    }
  }

  class AdminStore {
    var admin: Option<Address>
    var minStake: int
    var tradeFeeBps: nat
    var stopLoss: nat
    var positionLimit: nat
    var pause: PauseInfo
    var multisigEnabled: bool
    var signers: seq<Address>
    var threshold: nat

    /** An empty store: every getter reads its default. */
    constructor ()
      ensures State() == AdminState(None, DEFAULT_MIN_STAKE, DEFAULT_TRADE_FEE_BPS, DEFAULT_STOP_LOSS,
                                    DEFAULT_POSITION_LIMIT, NOT_PAUSED, false, [], 0)
      ensures Valid()
    {
      admin := None;
      minStake := DEFAULT_MIN_STAKE;
      tradeFeeBps := DEFAULT_TRADE_FEE_BPS;
      stopLoss := DEFAULT_STOP_LOSS;
      positionLimit := DEFAULT_POSITION_LIMIT;
      pause := NOT_PAUSED;
      multisigEnabled := false;
      signers := [];
      threshold := 0;
    }

    function State(): AdminState
      reads this
    {
      AdminState(admin, minStake, tradeFeeBps, stopLoss, positionLimit, pause, multisigEnabled, signers, threshold)
    }

    /** The parameters stay within their bounds, and an enabled signer set has no
        duplicates and at least `threshold >= 1` members. */
    ghost predicate Valid()
      reads this
    {
      && minStake > 0
      && tradeFeeBps <= MAX_FEE_BPS
      && stopLoss <= MAX_RISK_PERCENTAGE
      && positionLimit <= MAX_RISK_PERCENTAGE
      && (multisigEnabled ==> NoDup(signers) && 1 <= threshold <= |signers|)
    }

    /** `require_admin`: who may call an admin operation. */
    function AdminCheck(caller: Address): (r: Result<(), AdminError>)
      reads this
      ensures admin.None? ==> r == Err(NotInitialized)
      ensures admin.Some? && multisigEnabled ==> (r.Ok? <==> caller in signers)
      ensures admin.Some? && !multisigEnabled ==> (r.Ok? <==> caller == admin.value)
      ensures r.Err? ==> r.error == NotInitialized || r.error == Unauthorized
    {
      if admin.None? then Err(NotInitialized)
      else if multisigEnabled then (if caller in signers then Ok(()) else Err(Unauthorized))
      else if caller == admin.value then Ok(())
      else Err(Unauthorized)
    }

    /** `init_admin`. */
    method InitAdmin(newAdmin: Address) returns (r: Result<(), AdminError>)
      requires Valid()
      modifies this
      ensures Valid()
      ensures old(admin).Some? ==> r == Err(AlreadyInitialized) && State() == old(State())
      ensures old(admin).None? ==> r == Ok(())
      ensures old(admin).None? ==>
                State() == old(State()).(admin := Some(newAdmin), minStake := DEFAULT_MIN_STAKE,
                                         tradeFeeBps := DEFAULT_TRADE_FEE_BPS, stopLoss := DEFAULT_STOP_LOSS,
                                         positionLimit := DEFAULT_POSITION_LIMIT, multisigEnabled := false,
                                         pause := NOT_PAUSED)
    {
      if admin.Some? {
        return Err(AlreadyInitialized);
      }
      admin := Some(newAdmin);
      minStake := DEFAULT_MIN_STAKE;
      tradeFeeBps := DEFAULT_TRADE_FEE_BPS;
      stopLoss := DEFAULT_STOP_LOSS;
      positionLimit := DEFAULT_POSITION_LIMIT;
      multisigEnabled := false;
      pause := NOT_PAUSED;
      r := Ok(());
    }

    /** `is_multisig_signer`: never true while multisig is off. */
    method IsMultisigSigner(who: Address) returns (b: bool)
      ensures b <==> multisigEnabled && who in signers
    {
      if !multisigEnabled {
        return false;
      }
      var i := 0;
      while i < |signers|
        invariant 0 <= i <= |signers|
        invariant forall k :: 0 <= k < i ==> signers[k] != who
      {
        if signers[i] == who {
          return true;
        }
        i := i + 1;
      }
      return false;
    }

    /** `require_admin`. */
    method RequireAdmin(caller: Address) returns (r: Result<(), AdminError>)
      ensures r == AdminCheck(caller)
    {
      if admin.None? {
        return Err(NotInitialized);
      }
      if multisigEnabled {
        var isSigner := IsMultisigSigner(caller);
        if !isSigner {
          return Err(Unauthorized);
        }
        return Ok(());
      }
      if caller != admin.value {
        return Err(Unauthorized);
      }
      r := Ok(());
    }

    /** `transfer_admin`. */
    method TransferAdmin(caller: Address, newAdmin: Address) returns (r: Result<(), AdminError>)
      requires Valid()
      modifies this
      ensures Valid()
      ensures r.Err? ==> r == old(AdminCheck(caller)) && State() == old(State())
      ensures r.Ok? <==> old(AdminCheck(caller)).Ok?
      ensures r.Ok? ==> State() == old(State()).(admin := Some(newAdmin))
    {
      r := RequireAdmin(caller);
      if r.Err? {
        return;
      }
      admin := Some(newAdmin);
    }

    /** `set_min_stake`: only a positive amount. */
    method SetMinStake(caller: Address, newAmount: int) returns (r: Result<(), AdminError>)
      requires Valid()
      modifies this
      ensures Valid()
      ensures old(AdminCheck(caller)).Err? ==> r == old(AdminCheck(caller))
      ensures old(AdminCheck(caller)).Ok? && newAmount <= 0 ==> r == Err(InvalidParameter)
      ensures r.Err? ==> State() == old(State())
      ensures r.Ok? <==> old(AdminCheck(caller)).Ok? && newAmount > 0
      ensures r.Ok? ==> State() == old(State()).(minStake := newAmount)
    {
      r := RequireAdmin(caller);
      if r.Err? {
        return;
      }
      if newAmount <= 0 {
        return Err(InvalidParameter);
      }
      minStake := newAmount;
    }

    /** `set_trade_fee`: at most 100 basis points. */
    method SetTradeFee(caller: Address, newFeeBps: nat) returns (r: Result<(), AdminError>)
      requires Valid()
      modifies this
      ensures Valid()
      ensures old(AdminCheck(caller)).Err? ==> r == old(AdminCheck(caller))
      ensures old(AdminCheck(caller)).Ok? && newFeeBps > MAX_FEE_BPS ==> r == Err(InvalidFeeRate)
      ensures r.Err? ==> State() == old(State())
      ensures r.Ok? <==> old(AdminCheck(caller)).Ok? && newFeeBps <= MAX_FEE_BPS
      ensures r.Ok? ==> State() == old(State()).(tradeFeeBps := newFeeBps)
    {
      r := RequireAdmin(caller);
      if r.Err? {
        return;
      }
      if newFeeBps > MAX_FEE_BPS {
        return Err(InvalidFeeRate);
      }
      tradeFeeBps := newFeeBps;
    }

    /** `set_risk_defaults`: both percentages at most 100. */
    method SetRiskDefaults(caller: Address, newStopLoss: nat, newPositionLimit: nat) returns (r: Result<(), AdminError>)
      requires Valid()
      modifies this
      ensures Valid()
      ensures old(AdminCheck(caller)).Err? ==> r == old(AdminCheck(caller))
      ensures old(AdminCheck(caller)).Ok? && (newStopLoss > MAX_RISK_PERCENTAGE || newPositionLimit > MAX_RISK_PERCENTAGE) ==>
                r == Err(InvalidRiskParameter)
      ensures r.Err? ==> State() == old(State())
      ensures r.Ok? <==> old(AdminCheck(caller)).Ok? && newStopLoss <= MAX_RISK_PERCENTAGE && newPositionLimit <= MAX_RISK_PERCENTAGE
      ensures r.Ok? ==> State() == old(State()).(stopLoss := newStopLoss, positionLimit := newPositionLimit)
    {
      r := RequireAdmin(caller);
      if r.Err? {
        return;
      }
      if newStopLoss > MAX_RISK_PERCENTAGE || newPositionLimit > MAX_RISK_PERCENTAGE {
        return Err(InvalidRiskParameter);
      }
      stopLoss := newStopLoss;
      positionLimit := newPositionLimit;
    }

    /** `get_admin_config`. */
    function GetAdminConfig(): (c: AdminConfig)
      reads this
      ensures Valid() ==> c.minStake > 0 && c.tradeFeeBps <= MAX_FEE_BPS
      ensures Valid() ==> c.defaultStopLoss <= MAX_RISK_PERCENTAGE && c.defaultPositionLimit <= MAX_RISK_PERCENTAGE
    {
      AdminConfig(minStake, tradeFeeBps, stopLoss, positionLimit)
    }

    /** `pause_trading`: paused from now for 48 hours. */
    method PauseTrading(caller: Address, now: int) returns (r: Result<(), AdminError>)
      requires Valid()
      modifies this
      ensures Valid()
      ensures r.Err? ==> r == old(AdminCheck(caller)) && State() == old(State())
      ensures r.Ok? <==> old(AdminCheck(caller)).Ok?
      ensures r.Ok? ==> State() == old(State()).(pause := PauseInfo(true, now, now + PAUSE_DURATION))
    {
      r := RequireAdmin(caller);
      if r.Err? {
        return;
      }
      pause := PauseInfo(true, now, now + PAUSE_DURATION);
    }

    /** `unpause_trading`. */
    method UnpauseTrading(caller: Address) returns (r: Result<(), AdminError>)
      requires Valid()
      modifies this
      ensures Valid()
      ensures r.Err? ==> r == old(AdminCheck(caller)) && State() == old(State())
      ensures r.Ok? <==> old(AdminCheck(caller)).Ok?
      ensures r.Ok? ==> State() == old(State()).(pause := NOT_PAUSED)
    {
      r := RequireAdmin(caller);
      if r.Err? {
        return;
      }
      pause := NOT_PAUSED;
    }

    /** `is_trading_paused`: a lapsed pause is reset to the unpaused record. */
    method IsTradingPaused(now: int) returns (paused: bool)
      requires Valid()
      modifies this
      ensures Valid()
      ensures paused <==> PauseActive(old(pause), now)
      ensures old(pause).isPaused && now >= old(pause).expiresAt ==> State() == old(State()).(pause := NOT_PAUSED)
      ensures !(old(pause).isPaused && now >= old(pause).expiresAt) ==> State() == old(State())
    {
      if !pause.isPaused {
        return false;
      }
      if now >= pause.expiresAt {
        pause := NOT_PAUSED;
        return false;
      }
      return true;
    }

    /** `require_not_paused`. */
    method RequireNotPaused(now: int) returns (r: Result<(), AdminError>)
      requires Valid()
      modifies this
      ensures Valid()
      ensures r == Err(TradingPaused) <==> PauseActive(old(pause), now)
      ensures r.Err? ==> r == Err(TradingPaused)
      ensures State() == old(State()) || State() == old(State()).(pause := NOT_PAUSED)
    {
      var paused := IsTradingPaused(now);
      if paused {
        return Err(TradingPaused);
      }
      r := Ok(());
    }

    /** `enable_multisig`: the signer list replaces the stored one. */
    method EnableMultisig(caller: Address, newSigners: seq<Address>, newThreshold: nat) returns (r: Result<(), AdminError>)
      requires Valid()
      modifies this
      ensures Valid()
      ensures old(AdminCheck(caller)).Err? ==> r == old(AdminCheck(caller))
      ensures old(AdminCheck(caller)).Ok? ==> r == MultisigCheck(newSigners, newThreshold)
      ensures r.Err? ==> State() == old(State())
      ensures r.Ok? ==> State() == old(State()).(multisigEnabled := true, signers := newSigners, threshold := newThreshold)
    {
      r := RequireAdmin(caller);
      if r.Err? {
        return;
      }
      if newThreshold == 0 || newThreshold > |newSigners| {
        return Err(InvalidParameter);
      }
      var dup := HasDuplicate(newSigners);
      if dup {
        return Err(DuplicateSigner);
      }
      multisigEnabled := true;
      signers := newSigners;
      threshold := newThreshold;
    }

    /** `disable_multisig`: the signer list and threshold stay stored. */
    method DisableMultisig(caller: Address) returns (r: Result<(), AdminError>)
      requires Valid()
      modifies this
      ensures Valid()
      ensures r.Err? ==> r == old(AdminCheck(caller)) && State() == old(State())
      ensures r.Ok? <==> old(AdminCheck(caller)).Ok?
      ensures r.Ok? ==> State() == old(State()).(multisigEnabled := false)
    {
      r := RequireAdmin(caller);
      if r.Err? {
        return;
      }
      multisigEnabled := false;
    }

    /** `add_multisig_signer`: only while multisig is on. */
    method AddMultisigSigner(caller: Address, newSigner: Address) returns (r: Result<(), AdminError>)
      requires Valid()
      modifies this
      ensures Valid()
      ensures old(AdminCheck(caller)).Err? ==> r == old(AdminCheck(caller))
      ensures old(AdminCheck(caller)).Ok? && !old(multisigEnabled) ==> r == Err(NotInitialized)
      ensures old(AdminCheck(caller)).Ok? && old(multisigEnabled) && AddSigner(old(signers), newSigner).Err? ==>
                r == Err(DuplicateSigner)
      ensures old(AdminCheck(caller)).Ok? && old(multisigEnabled) && AddSigner(old(signers), newSigner).Ok? ==> r == Ok(())
      ensures r.Err? ==> State() == old(State())
      ensures r.Ok? ==> old(multisigEnabled) && State() == old(State()).(signers := AddSigner(old(signers), newSigner).value)
    {
      r := RequireAdmin(caller);
      if r.Err? {
        return;
      }
      if !multisigEnabled {
        return Err(NotInitialized);
      }
      var i := 0;
      while i < |signers|
        invariant 0 <= i <= |signers|
        invariant forall k :: 0 <= k < i ==> signers[k] != newSigner
      {
        if signers[i] == newSigner {
          return Err(DuplicateSigner);
        }
        i := i + 1;
      }
      SignerSetMeaning(signers, threshold, newSigner);
      signers := signers + [newSigner];
    }

    /** `remove_multisig_signer`: only while multisig is on, and never below the threshold. */
    method RemoveMultisigSigner(caller: Address, who: Address) returns (r: Result<(), AdminError>)
      requires Valid()
      modifies this
      ensures Valid()
      ensures old(AdminCheck(caller)).Err? ==> r == old(AdminCheck(caller))
      ensures old(AdminCheck(caller)).Ok? && !old(multisigEnabled) ==> r == Err(NotInitialized)
      ensures old(AdminCheck(caller)).Ok? && old(multisigEnabled) && RemoveSigner(old(signers), old(threshold), who).Err? ==>
                r == Err(RemoveSigner(old(signers), old(threshold), who).error)
      ensures old(AdminCheck(caller)).Ok? && old(multisigEnabled) && RemoveSigner(old(signers), old(threshold), who).Ok? ==>
                r == Ok(())
      ensures r.Err? ==> State() == old(State())
      ensures r.Ok? ==> old(multisigEnabled) && RemoveSigner(old(signers), old(threshold), who).Ok?
      ensures r.Ok? ==> State() == old(State()).(signers := RemoveSigner(old(signers), old(threshold), who).value)
    {
      r := RequireAdmin(caller);
      if r.Err? {
        return;
      }
      if !multisigEnabled {
        return Err(NotInitialized);
      }
      if |signers| - 1 < threshold {
        return Err(InsufficientSignatures);
      }
      var newSigners, found := SignersWithout(signers, who);
      if !found {
        return Err(Unauthorized);
      }
      SignerSetMeaning(signers, threshold, who);
      signers := newSigners;
    }

    /** The rebuild loop of `remove_multisig_signer`: the signers other than `who`,
        and whether `who` was among them. */
    static method SignersWithout(signers: seq<Address>, who: Address) returns (newSigners: seq<Address>, found: bool)
      ensures newSigners == Without(signers, who)
      ensures found <==> who in signers
    {
      newSigners := [];
      found := false;
      var i := 0;
      while i < |signers|
        invariant 0 <= i <= |signers|
        invariant newSigners == Without(signers[..i], who)
        invariant found <==> who in signers[..i]
      {
        WithoutPrefix(signers, i, who);
        InPrefix(signers, i, who);
        if signers[i] == who {
          found := true;
        } else {
          newSigners := newSigners + [signers[i]];
        }
        i := i + 1;
      }
      assert signers[..i] == signers;
    }
  }
}
