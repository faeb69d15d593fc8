/** Launch routing of WorkProfileModule.java (`launchApp`): the LauncherApps path
    into the work profile first, then the direct launch intent. */
module Launch {
  import opened Values
  import opened Android
  import Seqs
  import Profiles

  /** What a successful launch started. */
  datatype LaunchEffect =
    | StartedMainActivity(component: string, user: UserHandle)  // launcherApps.startMainActivity
    | StartedActivity(intent: Intent)                           // context.startActivity

  /** The launch performed, if any, and how the promise was settled. */
  datatype LaunchOutcome = LaunchOutcome(effect: Option<LaunchEffect>, response: Response<bool>)

  predicate IsActivityOf(packageName: string, activity: LauncherActivityInfo) {
    activity.application.packageName == packageName
  }

  /** `launcherApps.getActivityList(packageName, user)`: the user's launcher
      activities that belong to `packageName`. */
  function ActivityList(user: UserHandle, packageName: string): (r: Call<seq<LauncherActivityInfo>>)
    ensures r.Throws? <==> user.activities.Throws?
    ensures r.Returns? ==> forall a :: a in r.value <==> a in user.activities.value && IsActivityOf(packageName, a)
    ensures r.Returns? ==> Seqs.IsSubsequence(r.value, user.activities.value)
    ensures r.Returns? ==>
              forall a :: multiset(r.value)[a] == if IsActivityOf(packageName, a) then multiset(user.activities.value)[a] else 0
  {
    match user.activities
    case Throws(m) => Throws(m)
    case Returns(activities) =>
      var keep := a => IsActivityOf(packageName, a);
      var r := Seqs.Filter(activities, keep);
      assert forall a :: a in r <==> a in activities && IsActivityOf(packageName, a) by {
        forall a ensures a in r <==> a in activities && IsActivityOf(packageName, a) {
          Seqs.FilterMembership(activities, keep, a);
        }
      }
      Seqs.FilterIsSubsequence(activities, keep);
      forall a ensures multiset(r)[a] == if IsActivityOf(packageName, a) then multiset(activities)[a] else 0 {
        Seqs.FilterCount(activities, keep, a);
      }
      Returns(r)
  }

  /** The LauncherApps attempt: the activity it starts, or none when the request
      is personal, the SDK is below Lollipop, a service or the work profile is
      missing, the activity list is empty or throws, or starting it throws. */
  function LauncherRoute(plat: Platform, packageName: string, isWorkProfile: bool): (r: Option<LaunchEffect>)
    ensures r.Some? ==>
              && isWorkProfile && plat.sdk >= LOLLIPOP && plat.launcherApps
              && Profiles.WorkProfileUserOf(plat).Some?
              && ActivityList(Profiles.WorkProfileUserOf(plat).value, packageName).Returns?
              && var activities := ActivityList(Profiles.WorkProfileUserOf(plat).value, packageName).value;
                 activities != [] && plat.startMainActivity.Returns?
                 && r.value == StartedMainActivity(activities[0].component, Profiles.WorkProfileUserOf(plat).value)
  {
    if !isWorkProfile || plat.sdk < LOLLIPOP || !plat.launcherApps then None
    else match Profiles.WorkProfileUserOf(plat)
      case None => None
      case Some(work) =>
        match ActivityList(work, packageName)
        case Throws(_) => None
        case Returns(activities) =>
          if activities == [] then None
          else match plat.startMainActivity
            case Throws(_) => None
            case Returns(_) => Some(StartedMainActivity(activities[0].component, work))
  }

  /** The direct path: the package's launch intent, given `FLAG_ACTIVITY_NEW_TASK`
      and started; `APP_NOT_FOUND` without an intent, `LAUNCH_ERROR` when the
      lookup or the start throws. */
  function DirectLaunch(plat: Platform, packageName: string): (r: LaunchOutcome)
    ensures packageName !in plat.launchIntents ==>
              r == LaunchOutcome(None, Rejected("APP_NOT_FOUND", "Cannot launch app: " + packageName))
    ensures r.response.Resolved? <==>
              packageName in plat.launchIntents && plat.launchIntents[packageName].Returns?
              && plat.startActivity.Returns?
    ensures r.response.Resolved? ==>
              var intent := plat.launchIntents[packageName].value;
              && r.effect.Some? && r.effect.value.StartedActivity?
              && r.effect.value.intent.component == intent.component
              && r.effect.value.intent.flags & FLAG_ACTIVITY_NEW_TASK != 0
              && r.effect.value.intent.flags & !FLAG_ACTIVITY_NEW_TASK == intent.flags & !FLAG_ACTIVITY_NEW_TASK
    ensures packageName in plat.launchIntents && r.response.Rejected? ==> r.response.code == "LAUNCH_ERROR"
  {
    if packageName !in plat.launchIntents then
      LaunchOutcome(None, Rejected("APP_NOT_FOUND", "Cannot launch app: " + packageName))
    else match plat.launchIntents[packageName]
      case Throws(m) => LaunchOutcome(None, Rejected("LAUNCH_ERROR", "Failed to launch app: " + m))
      case Returns(intent) =>
        match plat.startActivity
        case Throws(m) => LaunchOutcome(None, Rejected("LAUNCH_ERROR", "Failed to launch app: " + m))
        case Returns(_) =>
          LaunchOutcome(Some(StartedActivity(intent.(flags := intent.flags | FLAG_ACTIVITY_NEW_TASK))), Resolved(true))
  }

  /** `launchApp(packageName, isWorkProfile)`. */
  function LaunchApp(plat: Platform, packageName: string, isWorkProfile: bool): (r: LaunchOutcome)
    ensures r.response.Resolved? <==> r.effect.Some?
    ensures r.response.Resolved? ==> r.response.value
    ensures r.response.Rejected? ==> r.response.code == "APP_NOT_FOUND" || r.response.code == "LAUNCH_ERROR"
    ensures LauncherRoute(plat, packageName, isWorkProfile).Some? ==>
              r == LaunchOutcome(LauncherRoute(plat, packageName, isWorkProfile), Resolved(true))
    ensures LauncherRoute(plat, packageName, isWorkProfile).None? ==> r == DirectLaunch(plat, packageName)
  {
    var routed := LauncherRoute(plat, packageName, isWorkProfile);
    if routed.Some? then LaunchOutcome(routed, Resolved(true))
    else DirectLaunch(plat, packageName)
  }

  /** A personal request never goes through LauncherApps, and a work request
      whose LauncherApps attempt fails behaves exactly like a personal one. */
  lemma PersonalLaunchIsDirect(plat: Platform, packageName: string)
    ensures LaunchApp(plat, packageName, false) == DirectLaunch(plat, packageName)
    ensures LauncherRoute(plat, packageName, true).None? ==>
              LaunchApp(plat, packageName, true) == LaunchApp(plat, packageName, false)
  {
  }

  /** A work request with both services, a work profile and a non-empty activity
      list for the package starts the first of those activities in the work
      profile and resolves true, whatever the launch intents are. */
  lemma WorkLaunchStartsFirstActivity(plat: Platform, packageName: string, activity: LauncherActivityInfo)
    requires plat.sdk >= LOLLIPOP && plat.launcherApps && plat.startMainActivity.Returns?
    requires Profiles.WorkProfileUserOf(plat).Some?
    requires var work := Profiles.WorkProfileUserOf(plat).value;
      work.activities.Returns? && activity in work.activities.value && activity.application.packageName == packageName
    ensures var work := Profiles.WorkProfileUserOf(plat).value;
      && ActivityList(work, packageName).Returns? && ActivityList(work, packageName).value != []
      && var first := ActivityList(work, packageName).value[0];
         first.application.packageName == packageName
         && LaunchApp(plat, packageName, true) ==
            LaunchOutcome(Some(StartedMainActivity(first.component, work)), Resolved(true))
  {
    var work := Profiles.WorkProfileUserOf(plat).value;
    assert activity in ActivityList(work, packageName).value;
  }
}
