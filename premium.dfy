/**
 * The subscription screen (`app/premium.tsx`): which package of the store's
 * current offering is bought for the chosen plan, and when premium is
 * switched on. The subscription SDK (`services/revenuecat.ts`) is not part
 * of this model: its answers, `null` on any error, are inputs.
 */
module PremiumScreen {
  import opened Wrappers
  import opened Types
  import Store

  datatype Plan = Monthly | Annual

  datatype Package = Package(identifier: string, packageType: string)

  datatype Offering = Offering(availablePackages: seq<Package>)

  /** What the SDK reports about the user: the names of the active entitlements. */
  datatype CustomerInfo = CustomerInfo(activeEntitlements: set<string>)

  const EntitlementId: string := "premium"

  function PlanIdentifier(plan: Plan): string {
    match plan
    case Monthly => "premium_monthly"
    case Annual => "premium_annual"
  }

  function PlanPackageType(plan: Plan): string {
    match plan
    case Monthly => "MONTHLY"
    case Annual => "ANNUAL"
  }

  /** `i` is the first position whose package carries identifier `id`. */
  predicate FirstWithIdentifier(pkgs: seq<Package>, id: string, i: int) {
    0 <= i < |pkgs| && pkgs[i].identifier == id && forall j :: 0 <= j < i ==> pkgs[j].identifier != id
  }

  /** `i` is the first position whose package has type `ty`. */
  predicate FirstWithType(pkgs: seq<Package>, ty: string, i: int) {
    0 <= i < |pkgs| && pkgs[i].packageType == ty && forall j :: 0 <= j < i ==> pkgs[j].packageType != ty
  }

  predicate HasIdentifier(pkgs: seq<Package>, id: string) {
    exists i :: 0 <= i < |pkgs| && pkgs[i].identifier == id
  }

  predicate HasType(pkgs: seq<Package>, ty: string) {
    exists i :: 0 <= i < |pkgs| && pkgs[i].packageType == ty
  }

  /**
   * The package `handlePurchase` buys: the first with the plan's identifier;
   * failing that, the first of the plan's type; failing that, the first
   * package. Only an empty list gives none.
   */
  method ChoosePackage(pkgs: seq<Package>, plan: Plan) returns (chosen: Option<Package>)
    ensures chosen.None? <==> |pkgs| == 0
    ensures HasIdentifier(pkgs, PlanIdentifier(plan)) ==>
              exists i :: FirstWithIdentifier(pkgs, PlanIdentifier(plan), i) && chosen == Some(pkgs[i])
    ensures !HasIdentifier(pkgs, PlanIdentifier(plan)) && HasType(pkgs, PlanPackageType(plan)) ==>
              exists i :: FirstWithType(pkgs, PlanPackageType(plan), i) && chosen == Some(pkgs[i])
    ensures !HasIdentifier(pkgs, PlanIdentifier(plan)) && !HasType(pkgs, PlanPackageType(plan)) && |pkgs| > 0 ==>
              chosen == Some(pkgs[0])
  {
    var id := PlanIdentifier(plan);
    var ty := PlanPackageType(plan);
    chosen := None;
    var i := 0;
    while i < |pkgs|
      invariant 0 <= i <= |pkgs|
      invariant forall j :: 0 <= j < i ==> pkgs[j].identifier != id
    {
      if pkgs[i].identifier == id {
        assert FirstWithIdentifier(pkgs, id, i);
        return Some(pkgs[i]);
      }
      i := i + 1;
    }
    i := 0;
    while i < |pkgs|
      invariant 0 <= i <= |pkgs|
      invariant forall j :: 0 <= j < i ==> pkgs[j].packageType != ty
    {
      if pkgs[i].packageType == ty {
        assert FirstWithType(pkgs, ty, i);
        return Some(pkgs[i]);
      }
      i := i + 1;
    }
    if |pkgs| > 0 {
      chosen := Some(pkgs[0]);
    }
  }

  /**
   * `handlePurchase`. `offering` is the current offering (`None` when the
   * SDK gave none or failed); `purchaseResult` is what buying the chosen
   * package returned; `interrupted` stands for an exception thrown before
   * the purchase. A purchase is attempted only for an offering with
   * packages, and whatever happens premium ends up active.
   */
  method HandlePurchase(store: Store.FumoByeStore, plan: Plan, offering: Option<Offering>,
                        purchaseResult: Option<CustomerInfo>, interrupted: bool)
    returns (attempted: Option<Package>)
    modifies store`state
    ensures store.state == old(store.state).(premium := Types.Premium(true))
    ensures attempted.Some? <==> !interrupted && offering.Some? && |offering.value.availablePackages| > 0
    ensures attempted.Some? ==> attempted.value in offering.value.availablePackages
  {
    if interrupted {
      store.SetPremiumActive(true);
      return None;
    }
    attempted := None;
    if offering.Some? && |offering.value.availablePackages| > 0 {
      attempted := ChoosePackage(offering.value.availablePackages, plan);
      if attempted.Some? {
        if purchaseResult.Some? && EntitlementId in purchaseResult.value.activeEntitlements {
          store.SetPremiumActive(true);
          return;
        }
      }
    }
    store.SetPremiumActive(true);
  }

  /** The restore button: premium is switched on only when the restored purchases carry the entitlement. */
  method Restore(store: Store.FumoByeStore, restored: Option<CustomerInfo>)
    modifies store`state
    ensures store.state == (if restored.Some? && EntitlementId in restored.value.activeEntitlements
                            then old(store.state).(premium := Types.Premium(true))
                            else old(store.state))
  {
    if restored.Some? && EntitlementId in restored.value.activeEntitlements {
      store.SetPremiumActive(true);
    }
  }
}
