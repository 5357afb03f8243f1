/**
 * The behaviour of MainActivity as functions on its observable state: the
 * mode flag, whether the Health Connect client exists, the text on screen,
 * and the log of calls the activity has made to the platform so far. The
 * class in module Activity is proved to do exactly what these functions say.
 */
module Flow {
  import opened Options
  import opened Permissions
  import opened Clock
  import opened Decimal
  import opened Steps

  const PROVIDER_PACKAGE_NAME: string := "com.google.android.apps.healthdata"
  const STORE_PACKAGE: string := "com.android.vending"
  const STEPS_TEXT_PREFIX: string := "걸음 수 : "

  /** What `HealthConnectClient.getSdkStatus` reports. */
  datatype SdkStatus = SdkUnavailable | SdkUnavailableProviderUpdateRequired | SdkAvailable

  /** The outcome of `aggregate`: it threw, or it answered with a possibly absent COUNT_TOTAL. */
  datatype AggregateResult = AggregateFailed | Aggregated(countTotal: Option<int>)

  /**
   * What the platform answers during one user action: the SDK status, the
   * granted permissions (`None` when `getGrantedPermissions` throws), the
   * aggregation result, the clock and the system zone's offset rules.
   */
  datatype Environment = Environment(status: SdkStatus, granted: Option<set<HealthPermission>>,
                                     aggregate: AggregateResult, now: Instant,
                                     zoneOffsetAt: Instant -> int)

  /** A call the activity makes to the platform. */
  datatype Effect =
    | GetSdkStatus(providerPackageName: string)
    | OpenStore(uri: string, storePackage: string)
    | GetGrantedPermissions
    | RequestPermissions(permissions: set<HealthPermission>)
    | Aggregate(range: TimeRange)
    | InsertRecords(records: seq<StepsRecord>)
  {
    predicate IsDataCall() {
      Aggregate? || InsertRecords?
    }
  }

  /** The activity's state: `isTappedGetSteps`, whether `healthConnectClient` is set, the step text, the call log. */
  datatype ActivityState = ActivityState(isTappedGetSteps: bool, clientCreated: bool,
                                         stepsText: string, effects: seq<Effect>)

  /** A freshly created activity: query mode, no client, no calls yet. */
  function Initial(text: string): (a: ActivityState)
    ensures a.isTappedGetSteps && !a.clientCreated && a.effects == [] && Consistent(a)
  {
    ActivityState(true, false, text, [])
  }

  const STORE_URI_HEAD: string := "market://details?id="
  const STORE_URI_TAIL: string := "&url=healthconnect%3A%2F%2Fonboarding"

  /** The Play Store link that leads to the provider's onboarding page. */
  function StoreUri(providerPackageName: string): (uri: string)
    ensures StoreUriPackage(uri) == Some(providerPackageName)
  {
    var uri := STORE_URI_HEAD + providerPackageName + STORE_URI_TAIL;
    assert uri[..|STORE_URI_HEAD|] == STORE_URI_HEAD;
    assert uri[|uri| - |STORE_URI_TAIL|..] == STORE_URI_TAIL;
    assert uri[|STORE_URI_HEAD|..|uri| - |STORE_URI_TAIL|] == providerPackageName;
    uri
  }

  /** The package a store link names, read back from its `id` parameter. */
  function StoreUriPackage(uri: string): Option<string> {
    if |uri| >= |STORE_URI_HEAD| + |STORE_URI_TAIL|
       && uri[..|STORE_URI_HEAD|] == STORE_URI_HEAD
       && uri[|uri| - |STORE_URI_TAIL|..] == STORE_URI_TAIL
    then Some(uri[|STORE_URI_HEAD|..|uri| - |STORE_URI_TAIL|])
    else None
  }

  /** The text shown for a step count: the label, then a numeral that reads back as the count. */
  function StepsText(count: int): (text: string)
    ensures |text| >= |STEPS_TEXT_PREFIX| && text[..|STEPS_TEXT_PREFIX|] == STEPS_TEXT_PREFIX
    ensures ParseInt(text[|STEPS_TEXT_PREFIX|..]) == Some(count)
  {
    var text := STEPS_TEXT_PREFIX + IntToDecimal(count);
    assert text[|STEPS_TEXT_PREFIX|..] == IntToDecimal(count);
    ParseIntOfDecimal(count);
    text
  }

  /** Different counts are shown as different texts. */
  lemma {:induction false} StepsTextInjective(m: int, n: int)
    requires StepsText(m) == StepsText(n)
    ensures m == n
  {
    var _ := StepsText(m);
    var _ := StepsText(n);
  }

  /** The one data call a dispatch makes in the given mode. */
  function DataCallFor(query: bool, env: Environment): (e: Effect)
    ensures e.IsDataCall() && (e.Aggregate? <==> query)
  {
    if query then Aggregate(TodayRange(env.now, env.zoneOffsetAt))
    else InsertRecords(SampleRecords(env.now, env.zoneOffsetAt))
  }

  // ---------------------------------------------------------------------------
  // The operations, one function per Kotlin member.

  /**
   * `aggregateSteps`: query today's total and show it, an absent total as 0;
   * a failure shows nothing. Without a client the uninitialised `lateinit`
   * field throws inside the `try` before any call, so nothing happens.
   */
  function AggregateSteps(a: ActivityState, env: Environment): (b: ActivityState)
    ensures b.isTappedGetSteps == a.isTappedGetSteps && b.clientCreated == a.clientCreated
    ensures !a.clientCreated ==> b == a
    ensures a.clientCreated ==> b.effects == a.effects + [Aggregate(TodayRange(env.now, env.zoneOffsetAt))]
    ensures b.stepsText != a.stepsText ==> a.clientCreated && env.aggregate.Aggregated?
    ensures a.clientCreated && env.aggregate.Aggregated? ==>
              b.stepsText == StepsText(env.aggregate.countTotal.GetOr(0))
  {
    if !a.clientCreated then a
    else
      var called := a.(effects := a.effects + [Aggregate(TodayRange(env.now, env.zoneOffsetAt))]);
      match env.aggregate
      case AggregateFailed => called
      case Aggregated(countTotal) => called.(stepsText := StepsText(countTotal.GetOr(0)))
  }

  /** `insertSteps`: submit the two sample records in one batch; the outcome, or a missing client, is swallowed. */
  function InsertSteps(a: ActivityState, env: Environment): (b: ActivityState)
    ensures b.isTappedGetSteps == a.isTappedGetSteps && b.clientCreated == a.clientCreated
    ensures b.stepsText == a.stepsText
    ensures !a.clientCreated ==> b.effects == a.effects
    ensures a.clientCreated ==>
              && |b.effects| == |a.effects| + 1 && b.effects[..|a.effects|] == a.effects
              && b.effects[|a.effects|] == InsertRecords(SampleRecords(env.now, env.zoneOffsetAt))
  {
    if !a.clientCreated then a
    else a.(effects := a.effects + [InsertRecords(SampleRecords(env.now, env.zoneOffsetAt))])
  }

  /** `startSteps`: aggregate in query mode, insert otherwise. */
  function StartSteps(a: ActivityState, env: Environment): (b: ActivityState)
    ensures b.isTappedGetSteps == a.isTappedGetSteps && b.clientCreated == a.clientCreated
    ensures !a.clientCreated ==> b == a
    ensures a.clientCreated ==> b.effects == a.effects + [DataCallFor(a.isTappedGetSteps, env)]
  {
    if a.isTappedGetSteps then AggregateSteps(a, env) else InsertSteps(a, env)
  }

  /**
   * `checkPermissionsAndRun`: query the granted permissions, then dispatch
   * when everything is granted and otherwise request the full set.
   */
  function CheckPermissionsAndRun(a: ActivityState, env: Environment): (b: ActivityState)
    ensures b.isTappedGetSteps == a.isTappedGetSteps && b.clientCreated == a.clientCreated
    ensures |a.effects| < |b.effects| <= |a.effects| + 2
    ensures b.effects[..|a.effects| + 1] == a.effects + [GetGrantedPermissions]
    ensures |b.effects| == |a.effects| + 2 && b.effects[|a.effects| + 1] == RequestPermissions(RequiredPermissions())
            <==> env.granted.Some? && !ContainsAllPermissions(env.granted.value)
    ensures |b.effects| == |a.effects| + 2 && b.effects[|a.effects| + 1].IsDataCall()
            <==> env.granted.Some? && ContainsAllPermissions(env.granted.value) && a.clientCreated
    ensures b.stepsText != a.stepsText ==> env.granted.Some? && ContainsAllPermissions(env.granted.value)
  {
    var queried := a.(effects := a.effects + [GetGrantedPermissions]);
    match env.granted
    case None => queried
    case Some(granted) =>
      if ContainsAllPermissions(granted) then StartSteps(queried, env)
      else queried.(effects := queried.effects + [RequestPermissions(RequiredPermissions())])
  }

  /**
   * `getHealthConnectClient`: check the SDK status; stop when it is
   * unavailable, open the store when the provider needs an update, and
   * otherwise create the client and check permissions.
   */
  function GetHealthConnectClient(a: ActivityState, providerPackageName: string, env: Environment): (b: ActivityState)
    ensures b.isTappedGetSteps == a.isTappedGetSteps
    ensures |b.effects| > |a.effects| && b.effects[..|a.effects| + 1] == a.effects + [GetSdkStatus(providerPackageName)]
    ensures b.clientCreated <==> a.clientCreated || env.status == SdkAvailable
    ensures env.status == SdkUnavailable ==> b == a.(effects := a.effects + [GetSdkStatus(providerPackageName)])
    ensures env.status == SdkUnavailableProviderUpdateRequired ==>
              b == a.(effects := a.effects + [GetSdkStatus(providerPackageName),
                                              OpenStore(StoreUri(providerPackageName), STORE_PACKAGE)])
    ensures env.status == SdkAvailable ==>
              |b.effects| > |a.effects| + 1 && b.effects[|a.effects| + 1] == GetGrantedPermissions
  {
    var checked := a.(effects := a.effects + [GetSdkStatus(providerPackageName)]);
    match env.status
    case SdkUnavailable => checked
    case SdkUnavailableProviderUpdateRequired =>
      checked.(effects := checked.effects + [OpenStore(StoreUri(providerPackageName), STORE_PACKAGE)])
    case SdkAvailable => CheckPermissionsAndRun(checked.(clientCreated := true), env)
  }

  /** The "get steps" button. */
  function OnGetStepsClick(a: ActivityState, env: Environment): (b: ActivityState)
    ensures b.isTappedGetSteps
    ensures |b.effects| > |a.effects| && b.effects[..|a.effects| + 1] == a.effects + [GetSdkStatus(PROVIDER_PACKAGE_NAME)]
  {
    GetHealthConnectClient(a.(isTappedGetSteps := true), PROVIDER_PACKAGE_NAME, env)
  }

  /** The "write steps" button. */
  function OnWriteStepsClick(a: ActivityState, env: Environment): (b: ActivityState)
    ensures !b.isTappedGetSteps
    ensures |b.effects| > |a.effects| && b.effects[..|a.effects| + 1] == a.effects + [GetSdkStatus(PROVIDER_PACKAGE_NAME)]
  {
    GetHealthConnectClient(a.(isTappedGetSteps := false), PROVIDER_PACKAGE_NAME, env)
  }

  /** The permission-request callback: dispatch only if every required permission was approved. */
  function OnPermissionsResult(a: ActivityState, granted: set<HealthPermission>, env: Environment): (b: ActivityState)
    ensures b.isTappedGetSteps == a.isTappedGetSteps && b.clientCreated == a.clientCreated
    ensures !ContainsAllPermissions(granted) ==> b == a
    ensures b.effects != a.effects <==> ContainsAllPermissions(granted) && a.clientCreated
    ensures b.effects != a.effects ==> b.effects == a.effects + [DataCallFor(a.isTappedGetSteps, env)]
  {
    if ContainsAllPermissions(granted) then StartSteps(a, env) else a
  }

  /** Either button, chosen by the mode it selects. */
  function Click(a: ActivityState, query: bool, env: Environment): ActivityState {
    if query then OnGetStepsClick(a, env) else OnWriteStepsClick(a, env)
  }

  /** The text after a dispatch in the given mode: only a successful aggregation changes it. */
  function TextAfterDispatch(query: bool, env: Environment, text: string): string {
    if query && env.aggregate.Aggregated? then StepsText(env.aggregate.countTotal.GetOr(0)) else text
  }

  // ---------------------------------------------------------------------------
  // What one click does, status by status.

  /** An unavailable SDK stops the click after the status check: no client, no permission query, no store, no data. */
  lemma UnavailableStops(a: ActivityState, query: bool, env: Environment)
    requires env.status == SdkUnavailable
    ensures Click(a, query, env)
            == a.(isTappedGetSteps := query, effects := a.effects + [GetSdkStatus(PROVIDER_PACKAGE_NAME)])
  {
  }

  /** An outdated provider sends the user to the store listing, once, and does nothing else. */
  lemma UpdateRequiredOpensStore(a: ActivityState, query: bool, env: Environment)
    requires env.status == SdkUnavailableProviderUpdateRequired
    ensures Click(a, query, env)
            == a.(isTappedGetSteps := query,
                  effects := a.effects + [GetSdkStatus(PROVIDER_PACKAGE_NAME),
                                          OpenStore(StoreUri(PROVIDER_PACKAGE_NAME), STORE_PACKAGE)])
  {
  }

  /** With everything already granted the click dispatches at once and requests nothing. */
  lemma GrantedDispatchesAtOnce(a: ActivityState, query: bool, env: Environment)
    requires env.status == SdkAvailable && env.granted.Some? && ContainsAllPermissions(env.granted.value)
    ensures var b := Click(a, query, env);
            && b.isTappedGetSteps == query && b.clientCreated
            && b.effects == a.effects + [GetSdkStatus(PROVIDER_PACKAGE_NAME), GetGrantedPermissions, DataCallFor(query, env)]
            && b.stepsText == TextAfterDispatch(query, env, a.stepsText)
  {
  }

  /** With a permission missing the click requests the whole required set and makes no data call. */
  lemma MissingPermissionsRequested(a: ActivityState, query: bool, env: Environment)
    requires env.status == SdkAvailable && env.granted.Some? && !ContainsAllPermissions(env.granted.value)
    ensures Click(a, query, env)
            == a.(isTappedGetSteps := query, clientCreated := true,
                  effects := a.effects + [GetSdkStatus(PROVIDER_PACKAGE_NAME), GetGrantedPermissions,
                                          RequestPermissions({READ_STEPS, WRITE_STEPS})])
  {
  }

  /** If reading the granted permissions fails, the click ends after creating the client. */
  lemma PermissionQueryFailureStops(a: ActivityState, query: bool, env: Environment)
    requires env.status == SdkAvailable && env.granted.None?
    ensures Click(a, query, env)
            == a.(isTappedGetSteps := query, clientCreated := true,
                  effects := a.effects + [GetSdkStatus(PROVIDER_PACKAGE_NAME), GetGrantedPermissions])
  {
  }

  /**
   * A dispatch with a client makes exactly one data call, chosen by the mode,
   * and changes the text only on a successful query; without a client it
   * changes nothing.
   */
  lemma StartStepsMakesOneDataCall(a: ActivityState, env: Environment)
    ensures var b := StartSteps(a, env);
            && (a.clientCreated ==> b.effects == a.effects + [DataCallFor(a.isTappedGetSteps, env)])
            && (!a.clientCreated ==> b == a)
            && b == a.(effects := b.effects, stepsText := TextAfterDispatch(a.isTappedGetSteps && a.clientCreated, env, a.stepsText))
  {
  }

  /** An absent COUNT_TOTAL is shown as zero steps. */
  lemma AbsentCountShowsZero(a: ActivityState, env: Environment)
    requires a.clientCreated && a.isTappedGetSteps && env.aggregate == Aggregated(None)
    ensures StartSteps(a, env).stepsText == "걸음 수 : 0"
  {
  }

  /** The callback proceeds for any approved superset of the required set and changes nothing otherwise. */
  lemma CallbackGate(a: ActivityState, approved: set<HealthPermission>, env: Environment)
    ensures READ_STEPS in approved && WRITE_STEPS in approved && a.clientCreated ==>
              OnPermissionsResult(a, approved, env).effects == a.effects + [DataCallFor(a.isTappedGetSteps, env)]
    ensures !(READ_STEPS in approved && WRITE_STEPS in approved) ==> OnPermissionsResult(a, approved, env) == a
  {
  }

  /** Pressing "get steps" twice in a row with the platform unchanged shows the same text both times. */
  lemma GetStepsClickIdempotent(a: ActivityState, env: Environment)
    ensures OnGetStepsClick(OnGetStepsClick(a, env), env).stepsText == OnGetStepsClick(a, env).stepsText
  {
  }

  // ---------------------------------------------------------------------------
  // Call ordering, as an invariant of the activity.

  /** Whether `e` may be issued right after the calls in `history`. */
  predicate MayFollow(history: seq<Effect>, e: Effect) {
    match e
    case GetSdkStatus(_) => true
    case OpenStore(uri, storePackage) =>
      && |history| > 0 && history[|history| - 1].GetSdkStatus?
      && uri == StoreUri(history[|history| - 1].providerPackageName) && storePackage == STORE_PACKAGE
    case GetGrantedPermissions => |history| > 0 && history[|history| - 1].GetSdkStatus?
    case RequestPermissions(permissions) =>
      |history| > 0 && history[|history| - 1] == GetGrantedPermissions && permissions == RequiredPermissions()
    case Aggregate(_) => GetGrantedPermissions in history
    case InsertRecords(_) => GetGrantedPermissions in history
  }

  /** Every call in the log was allowed when it was made. */
  predicate CallsOrdered(effects: seq<Effect>)
    decreases |effects|
  {
    effects == [] || (CallsOrdered(effects[..|effects| - 1]) && MayFollow(effects[..|effects| - 1], effects[|effects| - 1]))
  }

  /** The invariant of the activity: calls were made in order, and a client exists only after a permission query. */
  predicate Consistent(a: ActivityState) {
    CallsOrdered(a.effects) && (a.clientCreated ==> GetGrantedPermissions in a.effects)
  }

  lemma Extend(effects: seq<Effect>, e: Effect)
    requires CallsOrdered(effects) && MayFollow(effects, e)
    ensures CallsOrdered(effects + [e])
  {
  }

  /**
   * In an ordered log, the SDK status is checked right before every
   * permission query and store launch, each store launch names the package
   * whose status was just checked, and every data call comes after some
   * permission query.
   */
  lemma {:induction false} OrderedCallsAt(effects: seq<Effect>, i: int)
    requires CallsOrdered(effects) && 0 <= i < |effects|
    ensures effects[i].IsDataCall() ==> GetGrantedPermissions in effects[..i]
    ensures effects[i].GetGrantedPermissions? || effects[i].OpenStore? ==> i > 0 && effects[i - 1].GetSdkStatus?
    ensures effects[i].RequestPermissions? ==>
              i > 0 && effects[i - 1] == GetGrantedPermissions && effects[i].permissions == RequiredPermissions()
    ensures effects[i].OpenStore? ==>
              i > 0 && effects[i].storePackage == STORE_PACKAGE
              && StoreUriPackage(effects[i].uri) == Some(effects[i - 1].providerPackageName)
  {
    var n := |effects| - 1;
    var prefix := effects[..n];
    if i < n {
      OrderedCallsAt(prefix, i);
      assert prefix[..i] == effects[..i];
    } else {
      assert prefix == effects[..i];
    }
  }

  lemma {:induction false} StartStepsKeepsConsistent(a: ActivityState, env: Environment)
    requires Consistent(a)
    ensures Consistent(StartSteps(a, env))
  {
    if a.clientCreated {
      Extend(a.effects, DataCallFor(a.isTappedGetSteps, env));
    }
  }

  /** Either button keeps the activity consistent. */
  lemma {:induction false} ClickKeepsConsistent(a: ActivityState, query: bool, env: Environment)
    requires Consistent(a)
    ensures Consistent(Click(a, query, env))
  {
    var pkg := PROVIDER_PACKAGE_NAME;
    var s0 := a.effects + [GetSdkStatus(pkg)];
    Extend(a.effects, GetSdkStatus(pkg));
    match env.status
    case SdkUnavailable =>
    case SdkUnavailableProviderUpdateRequired =>
      Extend(s0, OpenStore(StoreUri(pkg), STORE_PACKAGE));
    case SdkAvailable =>
      var s1 := s0 + [GetGrantedPermissions];
      Extend(s0, GetGrantedPermissions);
      var queried := a.(isTappedGetSteps := query, clientCreated := true, effects := s1);
      assert Consistent(queried);
      match env.granted
      case None =>
      case Some(granted) =>
        if ContainsAllPermissions(granted) {
          StartStepsKeepsConsistent(queried, env);
        } else {
          Extend(s1, RequestPermissions(RequiredPermissions()));
        }
  }

  /** The permission callback keeps the activity consistent. */
  lemma {:induction false} CallbackKeepsConsistent(a: ActivityState, approved: set<HealthPermission>, env: Environment)
    requires Consistent(a)
    ensures Consistent(OnPermissionsResult(a, approved, env))
  {
    StartStepsKeepsConsistent(a, env);
  }

  // ---------------------------------------------------------------------------
  // Two end-to-end runs.

  /** Provider ready, permissions granted, 4500 steps today: the screen shows 4500. */
  lemma QueryScenario(env: Environment)
    requires env.status == SdkAvailable && env.granted == Some(RequiredPermissions())
    requires env.aggregate == Aggregated(Some(4500))
    ensures OnGetStepsClick(Initial(""), env).stepsText == "걸음 수 : 4500"
  {
  }

  /**
   * Provider ready, permissions missing, the user approves exactly the
   * required set: one batch of 2300 and 1000 steps is submitted.
   */
  lemma InsertScenario(text: string, env: Environment)
    requires env.status == SdkAvailable && env.granted == Some({})
    ensures var requested := OnWriteStepsClick(Initial(text), env);
            var done := OnPermissionsResult(requested, RequiredPermissions(), env);
            && requested.effects == [GetSdkStatus(PROVIDER_PACKAGE_NAME), GetGrantedPermissions, RequestPermissions(RequiredPermissions())]
            && done.effects == requested.effects + [InsertRecords(SampleRecords(env.now, env.zoneOffsetAt))]
            && done.stepsText == text
  {
  }
}
