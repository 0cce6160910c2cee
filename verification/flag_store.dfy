/** The feature-flag store (app/composables/useFeatureFlags.ts) as a state
    machine over the application configuration. The network fetch is an
    input: the flag set the server produced, or `None`. */
module FlagStore {
  import opened Wrappers
  import opened FeatureFlags
  import opened FlagsEndpoint

  /** What the client sees of the endpoint's JSON body: every link of the path
      `data.features` may be missing. */
  datatype ReceivedData = ReceivedData(features: Option<FlagSet>)
  datatype ReceivedBody = ReceivedBody(data: Option<ReceivedData>)

  /** `data.value` of `useFetch('/api/feature-flags')`: the body of a 2xx
      response; a non-2xx response leaves it `null`. */
  function Deliver(resp: FlagsResponse): (body: Option<ReceivedBody>)
    ensures body.Some? <==> 200 <= resp.status < 300
    ensures body.Some? ==> body.value.data == Some(ReceivedData(Some(resp.data.features)))
  {
    if 200 <= resp.status < 300 then
      Some(ReceivedBody(Some(ReceivedData(Some(resp.data.features)))))
    else
      None
  }

  /** `getFeatureFlagsFromServer`: `data.value?.data?.features ?? null`. */
  function FeaturesFromBody(body: Option<ReceivedBody>): (r: Option<FlagSet>)
    ensures r.Some? <==> body.Some? && body.value.data.Some? && body.value.data.value.features.Some?
    ensures r.Some? ==> r.value == body.value.data.value.features.value
  {
    match body
    case None => None
    case Some(b) =>
      match b.data
      case None => None
      case Some(d) => d.features
  }

  /** `setFeatureFlags`: a missing argument is ignored; otherwise the whole
      flag set is replaced (no per-key merge) and the store is marked as
      initialized from the server. Tenant and theme are never touched. */
  function SetFeatureFlags(c: AppConfig, flags: Option<FlagSet>): (c': AppConfig)
    ensures flags.None? ==> c' == c
    ensures flags.Some? ==> c'.features == flags.value && c'.featuresInitializedFromServer
    ensures c'.tenant == c.tenant && c'.ui == c.ui
  {
    match flags
    case None => c
    case Some(f) => c.(features := f, featuresInitializedFromServer := true)
  }

  /** Applying the same flags twice is the same as applying them once. */
  lemma SetFeatureFlagsIdempotent(c: AppConfig, flags: Option<FlagSet>)
    ensures SetFeatureFlags(SetFeatureFlags(c, flags), flags) == SetFeatureFlags(c, flags)
  {
  }

  /** The outcome of one `initializeFeatureFlags` call: the new configuration
      and whether the call went to the network. */
  datatype InitStep = InitStep(config: AppConfig, fetched: bool)

  /** `initializeFeatureFlags`, with `reply` the flag set the fetch would
      return. An initialized store short-circuits before the fetch; otherwise
      the reply is stored when present and the state kept when absent. */
  function InitializeFeatureFlags(c: AppConfig, reply: Option<FlagSet>): (s: InitStep)
    ensures c.featuresInitializedFromServer ==> !s.fetched && s.config == c
    ensures !c.featuresInitializedFromServer ==> s.fetched
    ensures reply.None? ==> s.config == c
    ensures s.config.featuresInitializedFromServer <==> c.featuresInitializedFromServer || reply.Some?
    ensures !c.featuresInitializedFromServer && reply.Some? ==> s.config.features == reply.value
    ensures s.config.tenant == c.tenant && s.config.ui == c.ui
  {
    if c.featuresInitializedFromServer then
      InitStep(c, false)
    else if reply.Some? then
      InitStep(SetFeatureFlags(c, reply), true)
    else
      InitStep(c, true)
  }

  /** No store operation ever clears the initialized flag. */
  lemma InitializedIsMonotone(c: AppConfig, flags: Option<FlagSet>)
    requires c.featuresInitializedFromServer
    ensures SetFeatureFlags(c, flags).featuresInitializedFromServer
    ensures InitializeFeatureFlags(c, flags).config.featuresInitializedFromServer
  {
  }

  /** The effect of a sequence of `initializeFeatureFlags` calls: the final
      configuration, how many calls fetched, and how many replaced the flags. */
  datatype Trace = Trace(config: AppConfig, fetches: nat, replacements: nat)

  /** The calls made in order, `replies[i]` being what the server would answer
      to the i-th call. */
  function RunInitializations(c: AppConfig, replies: seq<Option<FlagSet>>): (t: Trace)
    ensures t.replacements <= 1
    ensures t.fetches <= |replies|
    ensures c.featuresInitializedFromServer ==> t == Trace(c, 0, 0)
    ensures t.replacements == 1 ==> t.config.featuresInitializedFromServer
    ensures t.config.featuresInitializedFromServer <==> c.featuresInitializedFromServer || t.replacements == 1
    ensures t.config.tenant == c.tenant && t.config.ui == c.ui
    decreases |replies|
  {
    if |replies| == 0 then
      Trace(c, 0, 0)
    else
      var step := InitializeFeatureFlags(c, replies[0]);
      var rest := RunInitializations(step.config, replies[1..]);
      Trace(rest.config,
            rest.fetches + (if step.fetched then 1 else 0),
            rest.replacements + (if step.fetched && replies[0].Some? then 1 else 0))
  }

  /** On an uninitialized store, calls fetch until the first reply that
      carries flags; that reply is stored, and every later call neither
      fetches nor changes anything. */
  lemma {:induction false} RunStopsAtFirstSuccess(c: AppConfig, replies: seq<Option<FlagSet>>, k: nat)
    requires !c.featuresInitializedFromServer
    requires k < |replies| && replies[k].Some?
    requires forall i :: 0 <= i < k ==> replies[i].None?
    ensures RunInitializations(c, replies) == Trace(SetFeatureFlags(c, replies[k]), k + 1, 1)
    decreases k
  {
    if k > 0 {
      RunStopsAtFirstSuccess(c, replies[1..], k - 1);
    }
  }

  /** While every fetch comes back empty, every call fetches again and the
      configuration stays as it was. */
  lemma {:induction false} RunWithoutSuccess(c: AppConfig, replies: seq<Option<FlagSet>>)
    requires !c.featuresInitializedFromServer
    requires forall i :: 0 <= i < |replies| ==> replies[i].None?
    ensures RunInitializations(c, replies) == Trace(c, |replies|, 0)
    decreases |replies|
  {
    if |replies| > 0 {
      RunWithoutSuccess(c, replies[1..]);
    }
  }

  /** What the client obtains from the endpoint: the success branch yields its
      flag set; the status-500 fallback yields nothing, so the store keeps its
      state and a later call fetches again. */
  lemma ServerReplyReachesStore(failure: Option<Thrown>, isoNow: string, nowMs: int)
    ensures failure.None? ==>
      FeaturesFromBody(Deliver(HandleFeatureFlags(failure, isoNow, nowMs))) == Some(ServerFlags())
    ensures failure.Some? ==>
      FeaturesFromBody(Deliver(HandleFeatureFlags(failure, isoNow, nowMs))).None?
  {
  }
}
