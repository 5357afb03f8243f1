# Step counter activity: a Dafny model

This project models `MainActivity` of the Kotlin step-count example. The activity
reads and writes a user's step counts through Health Connect. It has two buttons.
"Get steps" shows today's total. "Write steps" inserts a sample batch of two records.
Before either, the activity checks the Health Connect SDK status and the granted
permissions. If any permission is missing, it asks the user, and the permission
callback starts the data call later.

The model has six modules:

- `Permissions`: the required permission set `PERMISSIONS` (read and write on
  `StepsRecord`), and the `containsAll` test applied to a granted set.
- `Clock`: instants as nanoseconds since the epoch, zone offsets in seconds, and
  local date-times (epoch day, hour, minute, second, nanosecond). It also holds the
  conversions between the two and the "start of the local day" computation
  `withHour(0).withMinute(0).withSecond(0)`.
- `Decimal`: how the step count is rendered as text, plus a parser that inverts it.
- `Steps`: `StepsRecord`, the aggregation window for today, and the two-record
  sample payload.
- `Flow`: the activity's behaviour as pure functions on its observable state. That
  state is the mode flag `isTappedGetSteps`, whether `healthConnectClient` exists,
  the text of `tvStepsCount`, and a log of the platform calls made so far. The
  logged calls are the SDK status check, the store launch, reading the granted
  permissions, the permission request, aggregate and insert. Lemmas state what one
  click or one callback does for each SDK status and permission outcome, and that
  calls happen in order.
- `Activity`: the class `MainActivity` with the same fields, updated in place, and
  one method per Kotlin member. Each method is proved to change the state exactly
  as the matching `Flow` function says. The constructor, the two click handlers
  and the permission callback are also proved to keep the ordering invariant.

The platform's answers come in as an `Environment` value. It holds the SDK status,
the granted set, the aggregation result, the current instant, and the system
zone's offset as a function of the instant. `None` for the granted set means
`getGrantedPermissions` threw. The aggregation result is either "failed" or an
optional `COUNT_TOTAL`. The coroutine launches are modelled as direct sequential
calls. The permission callback is its own method.

The code has no typed failure results and no guard against a second outstanding
permission request. It also has nothing that drops a pending continuation when the
screen is torn down. It swallows the exceptions raised inside its `try` blocks and
keeps nothing pending, and the model follows the code. Start of day keeps the
nanosecond of `now`, because `withSecond(0)` does not clear it. `Steps.TodayRange` states this: the local date-time of the window start
equals that of `now` with hour, minute and second set to 0.

## Model

| member | source | states |
|---|---|---|
| Permissions.RequiredPermissions | app/src/main/java/com/example/stepscountexample/MainActivity.kt:25-29 | the required set has exactly two elements: read and write on step records, and nothing else |
| Permissions.ContainsAllPermissions | app/src/main/java/com/example/stepscountexample/MainActivity.kt:104 | the test passes iff the granted set holds both the read-steps and the write-steps permission |
| Permissions.SupersetPasses | app/src/main/java/com/example/stepscountexample/MainActivity.kt:43 | a granted set larger than one that passes also passes |
| Permissions.MissingOneFails | app/src/main/java/com/example/stepscountexample/MainActivity.kt:43 | a set lacking any one required permission fails the test |
| Flow.Initial | app/src/main/java/com/example/stepscountexample/MainActivity.kt:32 | a new activity is in query mode, has no client and no calls, and is consistent |
| Activity.MainActivity.constructor | app/src/main/java/com/example/stepscountexample/MainActivity.kt:30-32 | the constructed activity is consistent, starts in query mode and has no client |
| Flow.OnGetStepsClick | app/src/main/java/com/example/stepscountexample/MainActivity.kt:53-56 | "get steps" sets query mode, and its first call is the SDK status check for `com.google.android.apps.healthdata` |
| Flow.OnWriteStepsClick | app/src/main/java/com/example/stepscountexample/MainActivity.kt:57-60 | "write steps" sets insert mode, and its first call is the SDK status check for the same provider |
| Activity.MainActivity.OnGetStepsClick | app/src/main/java/com/example/stepscountexample/MainActivity.kt:53-56 | the click handler keeps the activity consistent and changes it exactly as `Flow.OnGetStepsClick` |
| Activity.MainActivity.OnWriteStepsClick | app/src/main/java/com/example/stepscountexample/MainActivity.kt:57-60 | the click handler keeps the activity consistent and changes it exactly as `Flow.OnWriteStepsClick` |
| Flow.UnavailableStops | app/src/main/java/com/example/stepscountexample/MainActivity.kt:67-72 | an unavailable SDK ends the click after the status check. There is no client, permission query, store launch, data call or text change |
| Flow.UpdateRequiredOpensStore | app/src/main/java/com/example/stepscountexample/MainActivity.kt:73-85 | an outdated provider causes exactly one store launch, with the `market://` URI for the provider and the package `com.android.vending`, and nothing else |
| Flow.StoreUri | app/src/main/java/com/example/stepscountexample/MainActivity.kt:76 | the store link's `id` parameter reads back as exactly the provider package it was built for |
| Flow.GetHealthConnectClient | app/src/main/java/com/example/stepscountexample/MainActivity.kt:63-100 | the status check comes first and leaves the mode alone. A client exists afterwards iff one existed before or the SDK is available. Unavailable: nothing else happens. Update required: only the store launch happens. Available: the permission query comes next |
| Activity.MainActivity.GetHealthConnectClient | app/src/main/java/com/example/stepscountexample/MainActivity.kt:63-100 | the three-way status branch changes the state exactly as `Flow.GetHealthConnectClient` |
| Flow.GrantedDispatchesAtOnce | app/src/main/java/com/example/stepscountexample/MainActivity.kt:86-111 | with every permission granted, the click creates the client, queries permissions, makes the one data call for the mode and requests nothing |
| Flow.MissingPermissionsRequested | app/src/main/java/com/example/stepscountexample/MainActivity.kt:102-111 | with a permission missing, the click requests exactly {read steps, write steps}, once, and makes no data call |
| Flow.PermissionQueryFailureStops | app/src/main/java/com/example/stepscountexample/MainActivity.kt:89-97 | if reading the granted permissions throws, the click ends with the client created and nothing further |
| Flow.CheckPermissionsAndRun | app/src/main/java/com/example/stepscountexample/MainActivity.kt:102-111 | the permission query comes first, then at most one more call. That call is a request for the full set iff the answer lacks a permission, and a data call iff the answer has all of them and a client exists. The text changes only after a passing answer |
| Activity.MainActivity.CheckPermissionsAndRun | app/src/main/java/com/example/stepscountexample/MainActivity.kt:102-111 | the permission check changes the state exactly as `Flow.CheckPermissionsAndRun` |
| Flow.CallbackGate | app/src/main/java/com/example/stepscountexample/MainActivity.kt:42-49 | the callback dispatches when the approved set holds both permissions, supersets included; otherwise it changes nothing |
| Flow.OnPermissionsResult | app/src/main/java/com/example/stepscountexample/MainActivity.kt:42-49 | a failing approved set changes nothing. A call is added iff the set passes and a client exists, and it is then the one data call for the mode |
| Activity.MainActivity.OnPermissionsResult | app/src/main/java/com/example/stepscountexample/MainActivity.kt:42-49 | the callback keeps the activity consistent and changes it exactly as `Flow.OnPermissionsResult` |
| Flow.DataCallFor | app/src/main/java/com/example/stepscountexample/MainActivity.kt:116-120 | the dispatched call is a data call, and it is an aggregate exactly in query mode |
| Flow.StartStepsMakesOneDataCall | app/src/main/java/com/example/stepscountexample/MainActivity.kt:113-125 | with a client, a dispatch makes exactly one data call, never both, and only a successful query changes the text; without a client it does nothing |
| Flow.StartSteps | app/src/main/java/com/example/stepscountexample/MainActivity.kt:113-125 | the mode and the client are untouched. With a client, exactly the data call for the mode is added; without one, nothing changes |
| Activity.MainActivity.StartSteps | app/src/main/java/com/example/stepscountexample/MainActivity.kt:113-125 | the dispatch changes the state exactly as `Flow.StartSteps` |
| Clock.ToInstantOfLocal | app/src/main/java/com/example/stepscountexample/MainActivity.kt:130-132 | converting an instant to local time and back gives the same instant |
| Clock.ToLocalOfInstant | app/src/main/java/com/example/stepscountexample/MainActivity.kt:131 | a valid local date-time converted to an instant and back is unchanged |
| Clock.StartOfDay | app/src/main/java/com/example/stepscountexample/MainActivity.kt:131 | the start lies at most one day before `now` and not after it; its local time is `now`'s with hour, minute and second zeroed and the same date and nanosecond |
| Steps.TodayRange | app/src/main/java/com/example/stepscountexample/MainActivity.kt:130-140 | the window ends at `now`, starts at or before it and less than a day before, and starts at local hour 0, minute 0, second 0 of `now`'s date |
| Flow.AbsentCountShowsZero | app/src/main/java/com/example/stepscountexample/MainActivity.kt:145-147 | an absent COUNT_TOTAL is shown as the text for 0 steps |
| Decimal.NatToDecimal | app/src/main/java/com/example/stepscountexample/MainActivity.kt:147 | a count is rendered as a non-empty string of digits without leading zeros |
| Decimal.IntToDecimal | app/src/main/java/com/example/stepscountexample/MainActivity.kt:147 | the rendering starts with a minus sign iff the count is negative |
| Decimal.ParseIntOfDecimal | app/src/main/java/com/example/stepscountexample/MainActivity.kt:147 | parsing the rendered count gives back the count |
| Decimal.IntToDecimalInjective | app/src/main/java/com/example/stepscountexample/MainActivity.kt:147 | different counts render differently |
| Flow.StepsTextInjective | app/src/main/java/com/example/stepscountexample/MainActivity.kt:147 | different counts give different screen texts |
| Flow.StepsText | app/src/main/java/com/example/stepscountexample/MainActivity.kt:147 | the screen text is the label followed by a numeral that parses back to the count |
| Flow.AggregateSteps | app/src/main/java/com/example/stepscountexample/MainActivity.kt:127-152 | without a client nothing changes. Otherwise one aggregate call over today's window is made, and the text changes only when the call answers; it then shows the count, absent as 0 |
| Activity.MainActivity.AggregateSteps | app/src/main/java/com/example/stepscountexample/MainActivity.kt:127-152 | the aggregation changes the state exactly as `Flow.AggregateSteps` |
| Steps.SampleRecords | app/src/main/java/com/example/stepscountexample/MainActivity.kt:158-182 | two records in order, counts 2300 then 1000, each 30 s long, the first ending where the second starts, together spanning now−60 s to now; each offset is taken at its own instant |
| Steps.SampleRecordsPartitionLastMinute | app/src/main/java/com/example/stepscountexample/MainActivity.kt:160-164 | the two records do not overlap, and every instant of the last minute lies in exactly one of them |
| Flow.InsertSteps | app/src/main/java/com/example/stepscountexample/MainActivity.kt:154-188 | the text, mode and client never change. With a client, exactly one call is added: the batch of the two sample records. Without one, nothing is added |
| Activity.MainActivity.InsertSteps | app/src/main/java/com/example/stepscountexample/MainActivity.kt:154-188 | the list built by two `add`s is the sample payload, submitted in one batch call; the text never changes |
| Flow.GetStepsClickIdempotent | app/src/main/java/com/example/stepscountexample/MainActivity.kt:53-56 | pressing "get steps" twice with the platform unchanged shows the same text as pressing it once |
| Flow.OrderedCallsAt | app/src/main/java/com/example/stepscountexample/MainActivity.kt:63-111 | in a consistent log, the status check comes right before each permission query and store launch, and a permission query comes right before each request, which is for the full set. Each store launch targets `com.android.vending` and its link names the package whose status was just checked. A permission query comes before every data call |
| Flow.StartStepsKeepsConsistent | app/src/main/java/com/example/stepscountexample/MainActivity.kt:113-125 | a dispatch keeps the call ordering invariant |
| Flow.ClickKeepsConsistent | app/src/main/java/com/example/stepscountexample/MainActivity.kt:52-111 | either click keeps the call ordering invariant |
| Flow.CallbackKeepsConsistent | app/src/main/java/com/example/stepscountexample/MainActivity.kt:42-49 | the permission callback keeps the call ordering invariant |
| Flow.QueryScenario | app/src/main/java/com/example/stepscountexample/MainActivity.kt:53-147 | provider ready, permissions granted, 4500 steps today: the screen shows 4500 |
| Flow.InsertScenario | app/src/main/java/com/example/stepscountexample/MainActivity.kt:42-184 | provider ready, no permissions, user approves exactly the required set: one request, then one batch insert of the sample records; the text is unchanged |

## Left out

- The Android UI and lifecycle: view binding, `setContentView` and `registerForActivityResult`. The text view is modelled only by its value.
- The store `Intent`: only the URI and the target package are modelled. The `overlay` and `callerId` extras and `startActivity` itself are left out.
- Coroutines: `CoroutineScope(Dispatchers.Main).launch` and suspension are modelled as direct sequential calls.
- Health Connect internals: `getSdkStatus`, `getOrCreate`, `getGrantedPermissions`, `aggregate` and `insertRecords` are answers in the `Environment` or entries in the call log. The SDK's own checks when it builds a `StepsRecord` are part of the SDK.
- `context.startActivity` at line 83 sits outside any `try`. Without a store app it throws, which the activity does not catch; the model records the store launch and returns normally.
- Flow.CallsOrdered: the log records the permission query but not its answer. So the ordering invariant does not say that the answer passed before a data call. That gate is stated per step by `Flow.GrantedDispatchesAtOnce`, `Flow.MissingPermissionsRequested`, `Flow.CheckPermissionsAndRun` and `Flow.CallbackGate`.
- `getOrCreate` at line 89 sits outside any `try`. The model assumes it succeeds whenever the status is available.
- The outcome of `insertRecords` is caught and ignored, and the activity shows nothing for it. So it is not part of the `Environment`.
- The aggregate call's metric set `{COUNT_TOTAL}` is implicit in the `Aggregate` call entry.
- `println` and `printStackTrace` logging and exception contents are left out. A failed call is only "failed and swallowed".
- Step counts are unbounded integers. The 64-bit range of Kotlin's `Long` is not modelled.
- Steps.TodayRange: computes the start of day at the zone offset in force at `now`. `ZonedDateTime.withHour` would re-resolve the offset at local midnight, so a daylight-saving change between midnight and `now` is not captured. The zone rules are an arbitrary function from instants to offsets.
- Clock: days are epoch-day numbers. The calendar year, month and day are not computed because the activity never reads them.
