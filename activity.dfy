/**
 * MainActivity as a class: the fields the Kotlin activity updates in place
 * and one method per member. The platform's answers arrive as an
 * `Environment`; the calls the activity makes are recorded in a ghost log.
 * Every method is proved to change the state exactly as the matching
 * function of module Flow says.
 */
module Activity {
  import opened Clock
  import opened Permissions
  import opened Steps
  import Flow

  class MainActivity {
    /** `isTappedGetSteps`: true for "get steps", false for "write steps". */
    var isTappedGetSteps: bool
    /** Whether the `lateinit` field `healthConnectClient` has been assigned. */
    var clientCreated: bool
    /** The text of `tvStepsCount`. */
    var stepsText: string
    /** The platform calls made so far, oldest first. */
    ghost var effects: seq<Flow.Effect>

    ghost function State(): Flow.ActivityState
      reads this
    {
      Flow.ActivityState(isTappedGetSteps, clientCreated, stepsText, effects)
    }

    ghost predicate Valid()
      reads this
    {
      Flow.Consistent(State())
    }

    /** The activity as created, showing the layout's initial text. */
    constructor (initialText: string)
      ensures Valid() && State() == Flow.Initial(initialText)
    {
      isTappedGetSteps := true;
      clientCreated := false;
      stepsText := initialText;
      effects := [];
    }

    /** The click listener of `btnGetSteps`. */
    method OnGetStepsClick(env: Flow.Environment)
      requires Valid()
      modifies this
      ensures Valid() && State() == Flow.OnGetStepsClick(old(State()), env)
    {
      isTappedGetSteps := true;
      GetHealthConnectClient(Flow.PROVIDER_PACKAGE_NAME, env);
      Flow.ClickKeepsConsistent(old(State()), true, env);
    }

    /** The click listener of `btnWriteSteps`. */
    method OnWriteStepsClick(env: Flow.Environment)
      requires Valid()
      modifies this
      ensures Valid() && State() == Flow.OnWriteStepsClick(old(State()), env)
    {
      isTappedGetSteps := false;
      GetHealthConnectClient(Flow.PROVIDER_PACKAGE_NAME, env);
      Flow.ClickKeepsConsistent(old(State()), false, env);
    }

    /** The callback registered for the permission request. */
    method OnPermissionsResult(granted: set<HealthPermission>, env: Flow.Environment)
      requires Valid()
      modifies this
      ensures Valid() && State() == Flow.OnPermissionsResult(old(State()), granted, env)
    {
      if ContainsAllPermissions(granted) {
        StartSteps(env);
      }
      Flow.CallbackKeepsConsistent(old(State()), granted, env);
    }

    method GetHealthConnectClient(providerPackageName: string, env: Flow.Environment)
      modifies this
      ensures State() == Flow.GetHealthConnectClient(old(State()), providerPackageName, env)
    {
      effects := effects + [Flow.GetSdkStatus(providerPackageName)];
      match env.status {
        case SdkUnavailable =>
          return;
        case SdkUnavailableProviderUpdateRequired =>
          var uriString := Flow.StoreUri(providerPackageName);
          effects := effects + [Flow.OpenStore(uriString, Flow.STORE_PACKAGE)];
          return;
        case SdkAvailable =>
          clientCreated := true;
          CheckPermissionsAndRun(env);
      }
    }

    method CheckPermissionsAndRun(env: Flow.Environment)
      modifies this
      ensures State() == Flow.CheckPermissionsAndRun(old(State()), env)
    {
      effects := effects + [Flow.GetGrantedPermissions];
      match env.granted {
        case None =>
          return;
        case Some(granted) =>
          if ContainsAllPermissions(granted) {
            StartSteps(env);
          } else {
            effects := effects + [Flow.RequestPermissions(RequiredPermissions())];
          }
      }
    }

    method StartSteps(env: Flow.Environment)
      modifies this
      ensures State() == Flow.StartSteps(old(State()), env)
    {
      if isTappedGetSteps {
        AggregateSteps(env);
      } else {
        InsertSteps(env);
      }
    }

    method AggregateSteps(env: Flow.Environment)
      modifies this
      ensures State() == Flow.AggregateSteps(old(State()), env)
    {
      var range := TodayRange(env.now, env.zoneOffsetAt);
      if !clientCreated {
        return;
      }
      effects := effects + [Flow.Aggregate(range)];
      match env.aggregate {
        case AggregateFailed =>
        case Aggregated(countTotal) =>
          var stepCount := countTotal.GetOr(0);
          stepsText := Flow.StepsText(stepCount);
      }
    }

    method InsertSteps(env: Flow.Environment)
      modifies this
      ensures State() == Flow.InsertSteps(old(State()), env)
    {
      var stepsRecords: seq<StepsRecord> := [];
      var now := env.now;
      var startTime1 := now - ONE_MINUTE;
      var endTime1 := now - HALF_MINUTE;
      var startTime2 := endTime1;
      var endTime2 := now;
      var stepsRecord1 := RecordOver(2300, startTime1, endTime1, env.zoneOffsetAt);
      var stepsRecord2 := RecordOver(1000, startTime2, endTime2, env.zoneOffsetAt);
      stepsRecords := stepsRecords + [stepsRecord1];
      stepsRecords := stepsRecords + [stepsRecord2];
      assert stepsRecords == SampleRecords(now, env.zoneOffsetAt);
      if !clientCreated {
        return;
      }
      effects := effects + [Flow.InsertRecords(stepsRecords)];
    }
  }
}
