/**
 * The two checks on joining weight, with the vault the caller chooses to pass: a launch's fees go
 * to the vaults of its fee owner (the direct route) or of its sharing config (the shared route),
 * and the caller says which pair it shows.
 */
module RouteGuard {
  import opened Types

  datatype Route = Direct | Shared

  datatype Holder = FeeOwner | SharingConfig | SomebodyElse

  /**
   * The route the bonding curve names, whether the sharing config is one the parser accepts, the
   * rent floor, and what the two pairs of vaults hold. A token account that does not exist is None.
   */
  datatype Vaults = Vaults(
    route: Route,
    configAccepted: bool,
    floor: u64,
    lamports: map<Holder, u64>,
    wsol: map<Holder, Option<u64>>)

  /** Whose vaults the caller passes, and whether it adds the launch's bonding curve and sharing config. */
  datatype Passed = Passed(creatorVault: Holder, wsolVault: Holder, curveAndConfig: bool)

  function LamportsOf(v: Vaults, h: Holder): u64 {
    if h in v.lamports then v.lamports[h] else 0
  }

  function WsolOf(v: Vaults, h: Holder): Option<u64> {
    if h in v.wsol then v.wsol[h] else None
  }

  predicate CreatorVaultClean(v: Vaults, h: Holder) {
    LamportsOf(v, h) <= v.floor
  }

  predicate WsolVaultClean(v: Vaults, h: Holder) {
    WsolOf(v, h).Some? ==> WsolOf(v, h).value == 0
  }

  /** `require_verified_shared_bonding_curve` on the route accounts. */
  predicate SharedCurveVerified(v: Vaults, p: Passed) {
    p.curveAndConfig && v.route == Shared && v.configAccepted
  }

  /** `require_clean_creator_vault_for_route` */
  function CreatorGuard(v: Vaults, p: Passed): Status {
    if p.creatorVault == FeeOwner then
      if CreatorVaultClean(v, FeeOwner) then Ok(()) else Err(UnclaimedCreatorFees)
    else if p.creatorVault != SharingConfig || !SharedCurveVerified(v, p) then
      Err(InvalidPumpAccount)
    else if CreatorVaultClean(v, SharingConfig) then
      Ok(())
    else
      Err(UnclaimedCreatorFees)
  }

  /** `require_clean_pumpswap_creator_vault_for_route` */
  function WsolGuard(v: Vaults, p: Passed): Status {
    if p.wsolVault == FeeOwner then
      if WsolVaultClean(v, FeeOwner) then Ok(()) else Err(UnclaimedCreatorFees)
    else if p.wsolVault != SharingConfig || !SharedCurveVerified(v, p) then
      Err(InvalidPumpAccount)
    else if WsolVaultClean(v, SharingConfig) then
      Ok(())
    else
      Err(UnclaimedCreatorFees)
  }

  function Guard(v: Vaults, p: Passed): Status {
    var _ :- CreatorGuard(v, p);
    WsolGuard(v, p)
  }

  /**
   * The checks succeed exactly when each vault passed is the fee owner's, or the sharing config's of
   * a launch whose curve and config say so, and holds rent alone, and no wrapped SOL.
   */
  lemma GuardSucceedsExactly(v: Vaults, p: Passed)
    ensures Guard(v, p).Ok? <==>
      && (p.creatorVault == FeeOwner
          || (p.creatorVault == SharingConfig && p.curveAndConfig && v.route == Shared && v.configAccepted))
      && LamportsOf(v, p.creatorVault) <= v.floor
      && (p.wsolVault == FeeOwner
          || (p.wsolVault == SharingConfig && p.curveAndConfig && v.route == Shared && v.configAccepted))
      && (WsolOf(v, p.wsolVault) == None || WsolOf(v, p.wsolVault) == Some(0))
    ensures Guard(v, p) == Err(UnclaimedCreatorFees) ==>
              LamportsOf(v, p.creatorVault) > v.floor || (WsolOf(v, p.wsolVault).Some? && WsolOf(v, p.wsolVault).value > 0)
    ensures Guard(v, p).Err? ==> Guard(v, p).error == UnclaimedCreatorFees || Guard(v, p).error == InvalidPumpAccount
    ensures Guard(v, p) == Err(InvalidPumpAccount) ==>
              (p.creatorVault != FeeOwner || p.wsolVault != FeeOwner) && !(p.creatorVault == p.wsolVault == SharingConfig
                && p.curveAndConfig && v.route == Shared && v.configAccepted)
  {
  }

  /** Whose vaults the fees of the launch go to. */
  function Own(route: Route): Holder {
    if route == Direct then FeeOwner else SharingConfig
  }

  predicate OwnVaultsClean(v: Vaults) {
    CreatorVaultClean(v, Own(v.route)) && WsolVaultClean(v, Own(v.route))
  }

  /** On the direct route weight joins only while the launch's own vaults are clean, whatever is passed. */
  lemma DirectLaunchIsChecked(v: Vaults, p: Passed)
    requires v.route == Direct
    ensures Guard(v, p).Ok? <==> OwnVaultsClean(v) && p.creatorVault == FeeOwner && p.wsolVault == FeeOwner
  {
  }

  /** Accepting what is passed always means that the launch's own vaults are clean. */
  ghost predicate Trustworthy(route: Route, p: Passed) {
    forall v: Vaults :: v.route == route && Guard(v, p).Ok? ==> OwnVaultsClean(v)
  }

  /** The vaults of the sharing config hold fees, and those of the fee owner nothing. */
  function FeesElsewhere(p: Passed): Vaults {
    Vaults(Shared, true, 0,
           if p.creatorVault == FeeOwner then map[SharingConfig := 1] else map[],
           if p.wsolVault == FeeOwner then map[SharingConfig := Some(1)] else map[])
  }

  /**
   * On the shared route the checks can be passed with the fee owner's empty vaults while the
   * launch's own hold fees: they look at the vault that is passed, and ask about the route only when
   * that is the sharing config's. So acceptance vouches for the launch's own vaults exactly on the
   * direct route, when both vaults passed are the sharing config's, or when the accounts passed can
   * not be accepted at all.
   */
  lemma TrustworthyExactly(route: Route, p: Passed)
    ensures Trustworthy(route, p) <==>
      || route == Direct
      || (p.creatorVault != FeeOwner && p.wsolVault != FeeOwner)
      || p.creatorVault == SomebodyElse || p.wsolVault == SomebodyElse
      || (!p.curveAndConfig && (p.creatorVault == SharingConfig || p.wsolVault == SharingConfig))
  {
    if route == Shared && Guard(FeesElsewhere(p), p).Ok? && (p.creatorVault == FeeOwner || p.wsolVault == FeeOwner) {
      assert !OwnVaultsClean(FeesElsewhere(p));
    }
  }
}
