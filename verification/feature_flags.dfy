/** The feature-flag data and the application configuration that seeds the
    flag store (app/app.config.ts and the `FeatureFlags` interface of
    app/composables/useFeatureFlags.ts). */
module FeatureFlags {
  import opened Text

  /** One feature: its name, the capabilities it provides, the routes it owns,
      a description, and the switch the route guard reads. */
  datatype Feature = Feature(
    name: string,
    features: seq<string>,
    routes: seq<string>,
    description: string,
    enabled: bool)

  /** The flag set always has exactly the two keys `auth` and `cart`. */
  datatype FlagSet = FlagSet(auth: Feature, cart: Feature)

  datatype Tenant = Tenant(id: string, name: string, description: string)

  datatype UiColors = UiColors(primary: string, neutral: string)

  /** The application configuration: the process-wide store of the flags. */
  datatype AppConfig = AppConfig(
    tenant: Tenant,
    featuresInitializedFromServer: bool,
    features: FlagSet,
    ui: UiColors)

  /** The descriptor of the authentication feature with the given switch; its
      name, capabilities, routes and description are the same wherever the
      repository declares it. */
  function AuthFeature(enabled: bool): (f: Feature)
    ensures f.enabled == enabled
    ensures f.routes == ["/auth/login", "/auth/register"]
  {
    Feature("authentication", ["authentication", "user-management"],
            ["/auth/login", "/auth/register"],
            "Sistema de autenticación de usuarios", enabled)
  }

  /** The descriptor of the shopping-cart feature with the given switch. */
  function CartFeature(enabled: bool): (f: Feature)
    ensures f.enabled == enabled
    ensures f.routes == ["/cart", "/cart/checkout"]
  {
    Feature("shopping-cart", ["shopping-cart", "checkout"],
            ["/cart", "/cart/checkout"],
            "Carrito de compras y proceso de checkout", enabled)
  }

  const TenantDescription := "A production-ready starter template powered by Nuxt UI. Build beautiful, accessible, and performant applications in minutes, not hours."

  /** The compiled-in configuration the store starts from. */
  function SeedConfig(): (c: AppConfig)
    ensures !c.featuresInitializedFromServer
    ensures c.features.auth.enabled && !c.features.cart.enabled
  {
    AppConfig(
      Tenant("tenant-uuid", "Nuxt Layers App Template", TenantDescription),
      false,
      FlagSet(AuthFeature(true), CartFeature(false)),
      UiColors("green", "slate"))
  }

  /** Every route a feature declares lies under that feature's prefix, whatever
      its switch. */
  lemma RoutesUnderPrefix(enabled: bool)
    ensures forall r :: r in AuthFeature(enabled).routes ==> StartsWith(r, "/auth")
    ensures forall r :: r in CartFeature(enabled).routes ==> StartsWith(r, "/cart")
  {
  }
}
