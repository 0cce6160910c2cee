/** The `GET /api/feature-flags` handler (server/api/feature-flags.get.ts):
    a success envelope with every feature switched off, or, when the handler
    throws, a status-500 envelope carrying a fallback flag set. The clock
    readings and the thrown error are parameters. */
module FlagsEndpoint {
  import opened Wrappers
  import opened FeatureFlags

  /** The `data` object of either envelope; `initialized` is absent from the
      fallback. */
  datatype FlagsData = FlagsData(
    features: FlagSet,
    lastUpdated: string,
    version: string,
    initialized: Option<bool>)

  /** The HTTP status together with the JSON body. */
  datatype FlagsResponse = FlagsResponse(
    status: int,
    success: bool,
    error: Option<string>,
    data: FlagsData,
    timestamp: int)

  /** An exception caught by the handler; its `message` may be missing. */
  datatype Thrown = Thrown(message: Option<string>)

  const DefaultErrorMessage := "Error interno del servidor"
  const ServerVersion := "1.0.0"
  const FallbackVersion := "1.0.0-fallback"

  /** The flag set the success branch serves: both features off. */
  function ServerFlags(): (f: FlagSet)
    ensures !f.auth.enabled && !f.cart.enabled
  {
    FlagSet(AuthFeature(false), CartFeature(false))
  }

  /** The flag set of the fallback branch: authentication on, cart off. */
  function FallbackFlags(): (f: FlagSet)
    ensures f.auth.enabled && !f.cart.enabled
  {
    FlagSet(AuthFeature(true), CartFeature(false))
  }

  /** `error.message || 'Error interno del servidor'`. */
  function ErrorText(e: Thrown): (msg: string)
    ensures msg != ""
    ensures e.message.Some? && e.message.value != "" ==> msg == e.message.value
    ensures e.message.None? || e.message.value == "" ==> msg == DefaultErrorMessage
  {
    match e.message
    case Some(m) => if m != "" then m else DefaultErrorMessage
    case None => DefaultErrorMessage
  }

  /** The envelope of the success branch. */
  function SuccessResponse(isoNow: string, nowMs: int): (r: FlagsResponse)
    ensures r.status == 200 && r.success && r.error.None?
    ensures r.data.features == ServerFlags()
    ensures r.data.version == ServerVersion && r.data.initialized == Some(true)
    ensures r.data.lastUpdated == isoNow && r.timestamp == nowMs
  {
    FlagsResponse(200, true, None, FlagsData(ServerFlags(), isoNow, ServerVersion, Some(true)), nowMs)
  }

  /** The envelope of the `catch` branch for the exception `e`. */
  function FallbackResponse(e: Thrown, isoNow: string, nowMs: int): (r: FlagsResponse)
    ensures r.status == 500 && !r.success && r.error == Some(ErrorText(e))
    ensures r.data.features == FallbackFlags()
    ensures r.data.version == FallbackVersion && r.data.initialized.None?
    ensures r.data.lastUpdated == isoNow && r.timestamp == nowMs
  {
    FlagsResponse(500, false, Some(ErrorText(e)),
                  FlagsData(FallbackFlags(), isoNow, FallbackVersion, None), nowMs)
  }

  /** The handler. `failure` is the exception raised inside the `try` block,
      if any; `isoNow` is `new Date().toISOString()` and `nowMs` is `Date.now()`. */
  function HandleFeatureFlags(failure: Option<Thrown>, isoNow: string, nowMs: int): (r: FlagsResponse)
    ensures r.success <==> failure.None?
    ensures r.status == (if failure.None? then 200 else 500)
    ensures failure.Some? ==> r.error == Some(ErrorText(failure.value))
    ensures failure.None? ==> r.error.None?
    ensures r.data.features.auth.routes == ["/auth/login", "/auth/register"]
    ensures r.data.features.cart.routes == ["/cart", "/cart/checkout"]
    ensures !r.data.features.cart.enabled
    ensures r.data.features.auth.enabled <==> failure.Some?
    ensures failure.None? ==> r.data.version == ServerVersion && r.data.initialized == Some(true)
    ensures failure.Some? ==> r.data.version == FallbackVersion && r.data.initialized.None?
    ensures r.data.lastUpdated == isoNow && r.timestamp == nowMs
  {
    match failure
    case None => SuccessResponse(isoNow, nowMs)
    case Some(e) => FallbackResponse(e, isoNow, nowMs)
  }
}
