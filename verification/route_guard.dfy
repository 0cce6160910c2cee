/** The global route middleware (app/middleware/features-flags.global.ts) as
    a pure decision from the destination path, the `password` cookie and the
    current flag set. */
module RouteGuard {
  import opened Wrappers
  import opened Text
  import opened FeatureFlags
  import opened FlagsEndpoint
  import opened FlagStore

  datatype Decision = Allow | Redirect(to: string)

  /** The decision, and whether the "Feature not enabled" toast was shown. */
  datatype GuardResult = GuardResult(decision: Decision, toast: bool)

  const FeaturesPrefix := "/features"
  const AuthPrefix := "/auth"
  const CartPrefix := "/cart"
  const FeaturesPassword := "123456"

  /** The password check on `/features` fails: the cookie is missing or holds
      another value. */
  predicate PasswordRejected(path: string, password: Option<string>) {
    StartsWith(path, FeaturesPrefix) && password != Some(FeaturesPassword)
  }

  /** The path lies under a feature's prefix and that feature is switched off. */
  predicate FeatureDisabled(path: string, flags: FlagSet) {
    || (StartsWith(path, AuthPrefix) && !flags.auth.enabled)
    || (StartsWith(path, CartPrefix) && !flags.cart.enabled)
  }

  /** The middleware. The three prefix tests run in order and the first that
      rejects decides; only a disabled feature raises a toast. */
  function FeatureGuard(path: string, password: Option<string>, flags: FlagSet): (r: GuardResult)
    ensures r.decision == Allow <==> !PasswordRejected(path, password) && !FeatureDisabled(path, flags)
    ensures r.decision.Redirect? ==> r.decision.to == "/"
    ensures r.toast <==> FeatureDisabled(path, flags)
    ensures r.toast ==> r.decision.Redirect?
  {
    if StartsWith(path, FeaturesPrefix) && password != Some(FeaturesPassword) then
      assert !FeatureDisabled(path, flags) by { FeaturesIsNotAFeaturePath(path); }
      GuardResult(Redirect("/"), false)
    else if StartsWith(path, AuthPrefix) && !flags.auth.enabled then
      GuardResult(Redirect("/"), true)
    else if StartsWith(path, CartPrefix) && !flags.cart.enabled then
      GuardResult(Redirect("/"), true)
    else
      GuardResult(Allow, false)
  }

  /** A path under `/features` is under neither `/auth` nor `/cart`. */
  lemma FeaturesIsNotAFeaturePath(path: string)
    requires StartsWith(path, FeaturesPrefix)
    ensures !StartsWith(path, AuthPrefix) && !StartsWith(path, CartPrefix)
  {
    DisjointPrefixes(path, FeaturesPrefix, AuthPrefix, 1);
    DisjointPrefixes(path, FeaturesPrefix, CartPrefix, 1);
  }

  /** `/features` is reachable exactly with the right password, whatever the
      flags. */
  lemma FeaturesNeedsPassword(path: string, password: Option<string>, flags: FlagSet)
    requires StartsWith(path, FeaturesPrefix)
    ensures FeatureGuard(path, password, flags) ==
      (if password == Some(FeaturesPassword) then GuardResult(Allow, false)
       else GuardResult(Redirect("/"), false))
  {
    FeaturesIsNotAFeaturePath(path);
  }

  /** A path outside the three prefixes is always allowed. */
  lemma UnguardedPathAllowed(path: string, password: Option<string>, flags: FlagSet)
    requires !StartsWith(path, FeaturesPrefix) && !StartsWith(path, AuthPrefix) && !StartsWith(path, CartPrefix)
    ensures FeatureGuard(path, password, flags) == GuardResult(Allow, false)
  {
  }

  /** Under `/auth` (resp. `/cart`) the decision follows the feature's switch
      alone. */
  lemma FeaturePathFollowsSwitch(path: string, password: Option<string>, flags: FlagSet)
    ensures StartsWith(path, AuthPrefix) ==>
      FeatureGuard(path, password, flags) ==
        (if flags.auth.enabled then GuardResult(Allow, false) else GuardResult(Redirect("/"), true))
    ensures StartsWith(path, CartPrefix) ==>
      FeatureGuard(path, password, flags) ==
        (if flags.cart.enabled then GuardResult(Allow, false) else GuardResult(Redirect("/"), true))
  {
    if StartsWith(path, AuthPrefix) {
      DisjointPrefixes(path, AuthPrefix, FeaturesPrefix, 1);
      DisjointPrefixes(path, AuthPrefix, CartPrefix, 1);
    }
    if StartsWith(path, CartPrefix) {
      DisjointPrefixes(path, CartPrefix, FeaturesPrefix, 1);
      DisjointPrefixes(path, CartPrefix, AuthPrefix, 1);
    }
  }

  /** The guard matches raw prefixes and never reads the `routes` lists:
      `/cartoon` is not a declared route, yet it is gated by the cart switch. */
  lemma PrefixNotRouteList(password: Option<string>, flags: FlagSet)
    requires flags.cart == CartFeature(false)
    ensures "/cartoon" !in flags.cart.routes
    ensures FeatureGuard("/cartoon", password, flags) == GuardResult(Redirect("/"), true)
  {
  }

  /** With the descriptors the repository ships, every declared route of a
      feature is allowed exactly when that feature is switched on. */
  lemma DeclaredRoutesFollowSwitch(authOn: bool, cartOn: bool, password: Option<string>, route: string)
    ensures route in AuthFeature(authOn).routes ==>
      (FeatureGuard(route, password, FlagSet(AuthFeature(authOn), CartFeature(cartOn))).decision == Allow <==> authOn)
    ensures route in CartFeature(cartOn).routes ==>
      (FeatureGuard(route, password, FlagSet(AuthFeature(authOn), CartFeature(cartOn))).decision == Allow <==> cartOn)
  {
    RoutesUnderPrefix(authOn);
    RoutesUnderPrefix(cartOn);
    FeaturePathFollowsSwitch(route, password, FlagSet(AuthFeature(authOn), CartFeature(cartOn)));
  }

  /** With the compiled-in configuration, `/auth/login` is allowed and `/cart`
      is sent back to `/` with a toast. */
  lemma SeedDecisions(password: Option<string>)
    ensures FeatureGuard("/auth/login", password, SeedConfig().features) == GuardResult(Allow, false)
    ensures FeatureGuard("/cart", password, SeedConfig().features) == GuardResult(Redirect("/"), true)
  {
    DeclaredRoutesFollowSwitch(true, false, password, "/auth/login");
    DeclaredRoutesFollowSwitch(true, false, password, "/cart");
  }

  /** After the first successful initialization from the server's success
      reply, authentication is off: every `/auth` path the seed allowed is now
      sent back to `/` with a toast. */
  lemma ServerReplyClosesAuth(path: string, password: Option<string>, isoNow: string, nowMs: int)
    requires StartsWith(path, AuthPrefix)
    ensures FeatureGuard(path, password, SeedConfig().features).decision == Allow
    ensures
      var reply := FeaturesFromBody(Deliver(HandleFeatureFlags(None, isoNow, nowMs)));
      var c := InitializeFeatureFlags(SeedConfig(), reply).config;
      FeatureGuard(path, password, c.features) == GuardResult(Redirect("/"), true)
  {
  }
}
