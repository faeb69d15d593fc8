/** Inventory building of WorkProfileModule.java: `getInstalledApplicationsForUser`,
    the per-field fallbacks of each record, `getWorkProfileApps` and `getAllApps`. */
module Inventory {
  import opened Values
  import opened Android
  import Seqs
  import Decimal
  import Profiles

  /** One entry of the `WritableArray` the module resolves with. */
  datatype AppRecord = AppRecord(
    packageName: string,
    appName: string,
    versionName: string,
    versionCode: string,
    isWorkProfile: bool)

  const UNKNOWN: string := "Unknown"

  predicate IsSystemApp(app: ApplicationInfo) {
    app.flags & FLAG_SYSTEM != 0
  }

  /** The apps the Lollipop-and-later inventories keep. */
  predicate IsUserApp(app: ApplicationInfo) {
    !IsSystemApp(app)
  }

  /** `getInstalledApplicationsForUser`: the listing scoped to the profile's user
      id when the reflective call succeeds, otherwise the unscoped listing of the
      calling context, whose own failure propagates to the caller. */
  function InstalledApplicationsForUser(plat: Platform, user: UserHandle): (r: Call<seq<ApplicationInfo>>)
    ensures user.scopedApps.Returns? ==> r == user.scopedApps
    ensures user.scopedApps.Throws? ==> r == plat.installed
  {
    match user.scopedApps
    case Returns(apps) => Returns(apps)
    case Throws(_) => plat.installed
  }

  /** `appName`: the application label, or the package name when the label lookup throws. */
  function AppName(app: ApplicationInfo): (name: string)
    ensures app.applicationLabel.Returns? ==> name == app.applicationLabel.value
    ensures app.applicationLabel.Throws? ==> name == app.packageName
  {
    match app.applicationLabel
    case Returns(l) => l
    case Throws(_) => app.packageName
  }

  /** `versionName`: the package's version name, or "Unknown" when it is null or
      the package lookup throws. */
  function VersionName(plat: Platform, packageName: string): (v: string)
    ensures v != UNKNOWN ==>
              packageName in plat.packages && plat.packages[packageName].versionName == Some(v)
    ensures packageName in plat.packages && plat.packages[packageName].versionName.Some? ==>
              v == plat.packages[packageName].versionName.value
  {
    if packageName !in plat.packages then UNKNOWN
    else match plat.packages[packageName].versionName
      case Some(name) => name
      case None => UNKNOWN
  }

  /** `versionCode`: the decimal text of the package's version code, or "Unknown"
      when the package lookup throws; the text always parses back to the code. */
  function VersionCode(plat: Platform, packageName: string): (v: string)
    ensures v == UNKNOWN <==> packageName !in plat.packages
    ensures packageName in plat.packages ==>
              Decimal.IsCanonicalIntegerText(v) && Decimal.ParseInt(v) == plat.packages[packageName].versionCode
    ensures v != []
  {
    if packageName !in plat.packages then UNKNOWN
    else
      var code := plat.packages[packageName].versionCode;
      Decimal.ParseIntToDecimal(code);
      assert Decimal.IsDigit(Decimal.IntToDecimal(code)[|Decimal.IntToDecimal(code)| - 1]);
      Decimal.IntToDecimal(code)
  }

  /** The map built for one listed application, each field with its own fallback. */
  function RecordFor(plat: Platform, app: ApplicationInfo, isWork: bool): (r: AppRecord)
    ensures r.packageName == app.packageName && r.isWorkProfile == isWork
  {
    AppRecord(app.packageName, AppName(app), VersionName(plat, app.packageName),
              VersionCode(plat, app.packageName), isWork)
  }

  /** A failing label lookup changes only `appName`; a failing package lookup
      changes only the version fields. */
  lemma FallbacksIndependent(plat: Platform, app: ApplicationInfo, isWork: bool, otherLabel: Call<string>, packages: map<string, PackageInfo>)
    ensures var r, r' := RecordFor(plat, app, isWork), RecordFor(plat, app.(applicationLabel := otherLabel), isWork);
      r'.packageName == r.packageName && r'.versionName == r.versionName && r'.versionCode == r.versionCode
    ensures var r, r' := RecordFor(plat, app, isWork), RecordFor(plat.(packages := packages), app, isWork);
      r'.packageName == r.packageName && r'.appName == r.appName
  {
  }

  /** One record per app, in listing order. */
  function MapRecords(plat: Platform, apps: seq<ApplicationInfo>, isWork: bool): (rs: seq<AppRecord>)
    ensures |rs| == |apps|
    decreases |apps|
  {
    if apps == [] then []
    else MapRecords(plat, apps[..|apps| - 1], isWork) + [RecordFor(plat, apps[|apps| - 1], isWork)]
  }

  /** The record at each position is the record of the app at that position. */
  lemma {:induction false} MapRecordsAt(plat: Platform, apps: seq<ApplicationInfo>, isWork: bool)
    ensures forall i :: 0 <= i < |apps| ==> MapRecords(plat, apps, isWork)[i] == RecordFor(plat, apps[i], isWork)
    decreases |apps|
  {
    if apps != [] {
      MapRecordsAt(plat, apps[..|apps| - 1], isWork);
    }
  }

  /** The apps a listing loop turns into records: the non-system ones when
      `skipSystem` is set, all of them otherwise. */
  function Listed(apps: seq<ApplicationInfo>, skipSystem: bool): (listed: seq<ApplicationInfo>)
    ensures |listed| <= |apps|
    ensures !skipSystem ==> listed == apps
  {
    if skipSystem then Seqs.Filter(apps, IsUserApp) else apps
  }

  /** An app is listed exactly when it is in the listing and is not skipped, so
      no listed app is a system app when system apps are skipped. */
  lemma ListedMembership(apps: seq<ApplicationInfo>, skipSystem: bool)
    ensures forall a :: a in Listed(apps, skipSystem) <==> a in apps && !(skipSystem && IsSystemApp(a))
    ensures skipSystem ==> forall i :: 0 <= i < |Listed(apps, skipSystem)| ==> !IsSystemApp(Listed(apps, skipSystem)[i])
  {
    if skipSystem {
      Seqs.FilterMembershipAll(apps, IsUserApp);
    }
  }

  /** The records of a listing. */
  function ListingRecords(plat: Platform, apps: seq<ApplicationInfo>, isWork: bool, skipSystem: bool): (rs: seq<AppRecord>)
    ensures |rs| <= |apps|
    ensures |rs| == |Listed(apps, skipSystem)|
  {
    MapRecords(plat, Listed(apps, skipSystem), isWork)
  }

  lemma ListingRecordsSnoc(plat: Platform, apps: seq<ApplicationInfo>, app: ApplicationInfo, isWork: bool, skipSystem: bool)
    ensures ListingRecords(plat, apps + [app], isWork, skipSystem) ==
            ListingRecords(plat, apps, isWork, skipSystem)
            + (if skipSystem && IsSystemApp(app) then [] else [RecordFor(plat, app, isWork)])
  {
    var s := apps + [app];
    assert s[..|s| - 1] == apps;
    if !(skipSystem && IsSystemApp(app)) {
      var l := Listed(s, skipSystem);
      assert l == Listed(apps, skipSystem) + [app];
      assert l[..|l| - 1] == Listed(apps, skipSystem);
    }
  }

  /** The loop step of a listing, stated on the prefixes the loop visits. */
  lemma ListingRecordsStep(plat: Platform, apps: seq<ApplicationInfo>, i: nat, isWork: bool, skipSystem: bool)
    requires i < |apps|
    ensures ListingRecords(plat, apps[..i + 1], isWork, skipSystem) ==
            ListingRecords(plat, apps[..i], isWork, skipSystem)
            + (if skipSystem && IsSystemApp(apps[i]) then [] else [RecordFor(plat, apps[i], isWork)])
  {
    assert apps[..i + 1] == apps[..i] + [apps[i]];
    ListingRecordsSnoc(plat, apps[..i], apps[i], isWork, skipSystem);
  }

  /** The body of the three loops over a listing: append one record per app,
      skipping system apps when `skipSystem` is set. */
  method PushRecords(plat: Platform, result: seq<AppRecord>, apps: seq<ApplicationInfo>, isWork: bool, skipSystem: bool)
    returns (out: seq<AppRecord>)
    ensures out == result + ListingRecords(plat, apps, isWork, skipSystem)
  {
    out := result;
    var i := 0;
    while i < |apps|
      invariant 0 <= i <= |apps|
      invariant out == result + ListingRecords(plat, apps[..i], isWork, skipSystem)
    {
      var app := apps[i];
      ListingRecordsStep(plat, apps, i, isWork, skipSystem);
      if !(skipSystem && IsSystemApp(app)) {
        out := out + [RecordFor(plat, app, isWork)];
      }
      i := i + 1;
    }
    assert apps[..|apps|] == apps;
  }

  // --- getWorkProfileApps ------------------------------------------------------

  /** What one profile adds in the profile loop of `getWorkProfileApps`: nothing
      unless it is a work profile, nothing when its listing throws, otherwise a
      work record per non-system app. */
  function ProfileApps(plat: Platform, user: UserHandle): (rs: seq<AppRecord>)
    ensures rs != [] ==> Profiles.IsWorkProfile(plat, user) && InstalledApplicationsForUser(plat, user).Returns?
    ensures InstalledApplicationsForUser(plat, user).Returns? ==> |rs| <= |InstalledApplicationsForUser(plat, user).value|
  {
    if !Profiles.IsWorkProfile(plat, user) then []
    else match InstalledApplicationsForUser(plat, user)
      case Throws(_) => []
      case Returns(apps) => ListingRecords(plat, apps, true, true)
  }

  /** The records of the profile loop, profile by profile. */
  function ProfilesApps(plat: Platform, users: seq<UserHandle>): (rs: seq<AppRecord>)
    ensures users == [] ==> rs == []
    ensures |users| == 1 ==> rs == ProfileApps(plat, users[0])
    decreases |users|
  {
    if users == [] then []
    else ProfilesApps(plat, users[..|users| - 1]) + ProfileApps(plat, users[|users| - 1])
  }

  /** The promise outcome of `getWorkProfileApps`. */
  function WorkProfileAppsOf(plat: Platform): (r: Response<seq<AppRecord>>)
    ensures plat.sdk < LOLLIPOP || !plat.userManager ==> r == Resolved([])
    ensures r.Rejected? <==> plat.sdk >= LOLLIPOP && plat.userManager && plat.profiles.Throws?
    ensures r.Rejected? ==> r.code == "ERROR"
  {
    if plat.sdk < LOLLIPOP then Resolved([])
    else if !plat.userManager then Resolved([])
    else match plat.profiles
      case Throws(m) => Rejected("ERROR", "Failed to get work profile apps: " + m)
      case Returns(users) => Resolved(ProfilesApps(plat, users))
  }

  /** `getWorkProfileApps`. */
  method GetWorkProfileApps(plat: Platform) returns (r: Response<seq<AppRecord>>)
    ensures r == WorkProfileAppsOf(plat)
  {
    var result: seq<AppRecord> := [];
    if plat.sdk < LOLLIPOP {
      return Resolved(result);
    }
    if !plat.userManager {
      return Resolved(result);
    }
    match plat.profiles {
      case Throws(m) =>
        return Rejected("ERROR", "Failed to get work profile apps: " + m);
      case Returns(users) =>
        var i := 0;
        while i < |users|
          invariant 0 <= i <= |users|
          invariant result == ProfilesApps(plat, users[..i])
        {
          var user := users[i];
          assert users[..i + 1][..i] == users[..i];
          if Profiles.IsWorkProfile(plat, user) {
            var listing := InstalledApplicationsForUser(plat, user);
            if listing.Returns? {
              result := PushRecords(plat, result, listing.value, true, true);
            }
          }
          i := i + 1;
        }
        assert users[..|users|] == users;
        return Resolved(result);
    }
  }

  /** Without a profile classified as work, the profile loop adds nothing. */
  lemma {:induction false} ProfilesAppsWithoutWork(plat: Platform, users: seq<UserHandle>)
    requires forall i :: 0 <= i < |users| ==> !Profiles.IsWorkProfile(plat, users[i])
    ensures ProfilesApps(plat, users) == []
    decreases |users|
  {
    if users != [] {
      ProfilesAppsWithoutWork(plat, users[..|users| - 1]);
    }
  }

  /** The profile loop isolates profiles: the records of a list of profiles are
      the records of its parts, so a profile whose listing throws contributes
      nothing and the profiles after it are still processed. */
  lemma {:induction false} ProfilesAppsAppend(plat: Platform, a: seq<UserHandle>, b: seq<UserHandle>)
    ensures ProfilesApps(plat, a + b) == ProfilesApps(plat, a) + ProfilesApps(plat, b)
    decreases |b|
  {
    if b != [] {
      var b' := b[..|b| - 1];
      assert (a + b)[..|a + b| - 1] == a + b';
      ProfilesAppsAppend(plat, a, b');
    } else {
      assert a + b == a;
    }
  }

  /** A profile is never blanked out by another: a work profile with a readable
      listing contributes, inside the whole result, exactly its own records. */
  lemma ProfileAppsIsolated(plat: Platform, before: seq<UserHandle>, user: UserHandle, after: seq<UserHandle>)
    ensures ProfilesApps(plat, before + [user] + after) ==
            ProfilesApps(plat, before) + ProfileApps(plat, user) + ProfilesApps(plat, after)
    ensures InstalledApplicationsForUser(plat, user).Throws? ==> ProfileApps(plat, user) == []
  {
    ProfilesAppsAppend(plat, before + [user], after);
    ProfilesAppsAppend(plat, before, [user]);
    assert [user][..0] == [];
  }

  /** Every record a profile adds is a work record built from a non-system app of
      that profile's listing, and only work profiles add records. */
  lemma ProfileAppsSound(plat: Platform, user: UserHandle, r: AppRecord)
    requires r in ProfileApps(plat, user)
    ensures Profiles.IsWorkProfile(plat, user) && r.isWorkProfile
    ensures InstalledApplicationsForUser(plat, user).Returns?
    ensures exists app :: app in InstalledApplicationsForUser(plat, user).value && !IsSystemApp(app)
                          && r == RecordFor(plat, app, true)
  {
    var apps := InstalledApplicationsForUser(plat, user).value;
    var kept := Seqs.Filter(apps, IsUserApp);
    MapRecordsAt(plat, kept, true);
    var i :| 0 <= i < |kept| && ProfileApps(plat, user)[i] == r;
    Seqs.FilterMembership(apps, IsUserApp, kept[i]);
  }

  /** Every non-system app of a work profile's listing yields its record. */
  lemma ProfileAppsComplete(plat: Platform, user: UserHandle, app: ApplicationInfo)
    requires Profiles.IsWorkProfile(plat, user)
    requires InstalledApplicationsForUser(plat, user).Returns?
    requires app in InstalledApplicationsForUser(plat, user).value && !IsSystemApp(app)
    ensures RecordFor(plat, app, true) in ProfileApps(plat, user)
  {
    var apps := InstalledApplicationsForUser(plat, user).value;
    Seqs.FilterMembership(apps, IsUserApp, app);
    var kept := Seqs.Filter(apps, IsUserApp);
    MapRecordsAt(plat, kept, true);
    var i :| 0 <= i < |kept| && kept[i] == app;
    assert ProfileApps(plat, user)[i] == RecordFor(plat, app, true);
  }

  lemma {:induction false} ProfilesAppsOrigin(plat: Platform, users: seq<UserHandle>, r: AppRecord)
    requires r in ProfilesApps(plat, users)
    ensures exists user :: user in users && r in ProfileApps(plat, user)
    decreases |users|
  {
    var init, last := users[..|users| - 1], users[|users| - 1];
    if r in ProfilesApps(plat, init) {
      ProfilesAppsOrigin(plat, init, r);
      var user :| user in init && r in ProfileApps(plat, user);
      assert user in users;
    } else {
      assert r in ProfileApps(plat, last);
    }
  }

  /** Every record `getWorkProfileApps` resolves with is a work record built from
      a non-system app listed for a profile classified as work. */
  lemma WorkProfileAppsSound(plat: Platform, r: AppRecord)
    requires WorkProfileAppsOf(plat).Resolved? && r in WorkProfileAppsOf(plat).value
    ensures r.isWorkProfile
    ensures exists user :: user in plat.profiles.value && Profiles.IsWorkProfile(plat, user)
                           && InstalledApplicationsForUser(plat, user).Returns?
                           && exists app :: app in InstalledApplicationsForUser(plat, user).value
                                            && !IsSystemApp(app) && r == RecordFor(plat, app, true)
  {
    ProfilesAppsOrigin(plat, plat.profiles.value, r);
    var user :| user in plat.profiles.value && r in ProfileApps(plat, user);
    ProfileAppsSound(plat, user, r);
  }

  // --- getAllApps --------------------------------------------------------------

  predicate LabelFails(activity: LauncherActivityInfo) {
    activity.activityLabel.Throws?
  }

  /** The work map built for one launcher activity: the label with no fallback,
      the version fields looked up in the calling context's package manager. */
  function ActivityRecord(plat: Platform, activity: LauncherActivityInfo): (r: AppRecord)
    requires activity.activityLabel.Returns?
    ensures r.packageName == activity.application.packageName && r.isWorkProfile
    ensures r.appName == activity.activityLabel.value
  {
    var name := activity.application.packageName;
    AppRecord(name, activity.activityLabel.value, VersionName(plat, name), VersionCode(plat, name), true)
  }

  /** The records the loop over `getActivityList(null, workProfile)` pushes before
      a label lookup throws and ends it: one per activity, no system filter. */
  function ActivityRecords(plat: Platform, activities: seq<LauncherActivityInfo>): (rs: seq<AppRecord>)
    ensures |rs| <= |activities|
    ensures forall i :: 0 <= i < |rs| ==>
              activities[i].activityLabel.Returns? && rs[i] == ActivityRecord(plat, activities[i])
    ensures |rs| < |activities| ==> activities[|rs|].activityLabel.Throws?
  {
    var k := Seqs.FirstIndex(activities, LabelFails);
    seq(k, i requires 0 <= i < k => ActivityRecord(plat, activities[i]))
  }

  /** The work half of `getAllApps`: empty unless a work profile exists and the
      LauncherApps service is present, empty when its activity list throws. */
  function WorkHalf(plat: Platform): (rs: seq<AppRecord>)
    ensures rs != [] ==> plat.sdk >= LOLLIPOP && plat.launcherApps && Profiles.WorkProfileUserOf(plat).Some?
  {
    match Profiles.WorkProfileUserOf(plat)
    case None => []
    case Some(work) =>
      if plat.sdk < LOLLIPOP || !plat.launcherApps then []
      else match work.activities
        case Throws(_) => []
        case Returns(activities) => ActivityRecords(plat, activities)
  }

  /** The promise outcome of `getAllApps`. */
  function AllAppsOf(plat: Platform): (r: Response<seq<AppRecord>>)
    ensures r.Rejected? <==> (plat.sdk < LOLLIPOP || plat.userManager) && plat.installed.Throws?
    ensures r.Rejected? ==> r.code == "ERROR"
    ensures plat.sdk >= LOLLIPOP && !plat.userManager ==> r == Resolved([])
  {
    if plat.sdk < LOLLIPOP then
      match plat.installed
      case Throws(m) => Rejected("ERROR", "Failed to get all apps: " + m)
      case Returns(apps) => Resolved(ListingRecords(plat, apps, false, false))
    else if !plat.userManager then Resolved([])
    else match plat.installed
      case Throws(m) => Rejected("ERROR", "Failed to get all apps: " + m)
      case Returns(apps) => Resolved(ListingRecords(plat, apps, false, true) + WorkHalf(plat))
  }

  /** The loop over the work profile's launcher activities: one record per
      activity until a label lookup throws, which ends the loop and keeps what
      was pushed. */
  method PushActivityRecords(plat: Platform, result: seq<AppRecord>, activities: seq<LauncherActivityInfo>)
    returns (out: seq<AppRecord>)
    ensures out == result + ActivityRecords(plat, activities)
  {
    out := result;
    ghost var records := ActivityRecords(plat, activities);
    var i := 0;
    while i < |activities|
      invariant 0 <= i <= |records|
      invariant out == result + records[..i]
    {
      if activities[i].activityLabel.Throws? {
        break;
      }
      assert i < |records|;
      out := out + [ActivityRecord(plat, activities[i])];
      assert records[..i + 1] == records[..i] + [records[i]];
      i := i + 1;
    }
    assert records[..i] == records;
  }

  /** `getAllApps`. */
  method GetAllApps(plat: Platform) returns (r: Response<seq<AppRecord>>)
    ensures r == AllAppsOf(plat)
  {
    var result: seq<AppRecord> := [];
    if plat.sdk < LOLLIPOP {
      match plat.installed {
        case Throws(m) =>
          return Rejected("ERROR", "Failed to get all apps: " + m);
        case Returns(apps) =>
          result := PushRecords(plat, result, apps, false, false);
          assert result == ListingRecords(plat, apps, false, false);
          assert AllAppsOf(plat) == Resolved(ListingRecords(plat, apps, false, false));
          return Resolved(result);
      }
    }
    if !plat.userManager {
      return Resolved(result);
    }
    if plat.installed.Throws? {
      return Rejected("ERROR", "Failed to get all apps: " + plat.installed.message);
    }
    var personalApps := plat.installed.value;
    result := PushRecords(plat, result, personalApps, false, true);
    ghost var personal := result;
    assert personal == ListingRecords(plat, personalApps, false, true);
    var workProfile := Profiles.GetWorkProfileUser(plat);
    if workProfile.Some? && plat.sdk >= LOLLIPOP && plat.launcherApps {
      var workApps := workProfile.value.activities;
      if workApps.Returns? {
        result := PushActivityRecords(plat, result, workApps.value);
      }
    }
    assert result == personal + WorkHalf(plat);
    return Resolved(result);
  }

  /** Below Lollipop `getAllApps` lists every installed app, system apps
      included, each as a personal record, in listing order. */
  lemma AllAppsBeforeLollipop(plat: Platform)
    requires plat.sdk < LOLLIPOP && plat.installed.Returns?
    ensures var recs := AllAppsOf(plat).value; var apps := plat.installed.value;
      && |recs| == |apps|
      && forall i :: 0 <= i < |apps| ==> recs[i] == RecordFor(plat, apps[i], false) && !recs[i].isWorkProfile
  {
    MapRecordsAt(plat, plat.installed.value, false);
  }

  /** From Lollipop on, with a user manager, `getAllApps` lists the non-system
      personal apps, then the work half; every personal record comes from a
      non-system app, and the work half is where every work record is. */
  lemma AllAppsFromLollipop(plat: Platform)
    requires plat.sdk >= LOLLIPOP && plat.userManager && plat.installed.Returns?
    ensures var recs := AllAppsOf(plat).value;
            var personal := Seqs.Filter(plat.installed.value, IsUserApp);
      && |recs| == |personal| + |WorkHalf(plat)|
      && recs[|personal|..] == WorkHalf(plat)
      && (forall i :: 0 <= i < |personal| ==> recs[i] == RecordFor(plat, personal[i], false))
      && (forall i :: 0 <= i < |personal| ==> !recs[i].isWorkProfile && !IsSystemApp(personal[i]))
      && (forall i :: |personal| <= i < |recs| ==> recs[i].isWorkProfile)
  {
    var personal := Seqs.Filter(plat.installed.value, IsUserApp);
    MapRecordsAt(plat, personal, false);
  }

  /** Every personal record of `getAllApps` precedes every work record. */
  lemma AllAppsPersonalFirst(plat: Platform)
    requires AllAppsOf(plat).Resolved?
    ensures var recs := AllAppsOf(plat).value;
      forall i, j :: 0 <= i < j < |recs| && recs[i].isWorkProfile ==> recs[j].isWorkProfile
  {
    if plat.sdk < LOLLIPOP {
      AllAppsBeforeLollipop(plat);
    } else if plat.userManager {
      AllAppsFromLollipop(plat);
    }
  }

  /** `getAllApps` emits a work record only when a work profile exists and the
      LauncherApps service is present. */
  lemma AllAppsWorkRecordsNeedProfile(plat: Platform, i: nat)
    requires AllAppsOf(plat).Resolved? && i < |AllAppsOf(plat).value|
    requires AllAppsOf(plat).value[i].isWorkProfile
    ensures plat.sdk >= LOLLIPOP && plat.launcherApps && Profiles.WorkProfileUserOf(plat).Some?
  {
    if plat.sdk < LOLLIPOP {
      AllAppsBeforeLollipop(plat);
    } else {
      AllAppsFromLollipop(plat);
    }
  }

  /** Every record of `getAllApps`, from whichever of its three loops, carries
      the version fields looked up (with their fallbacks) for its own package. */
  lemma AllAppsVersionFields(plat: Platform)
    requires AllAppsOf(plat).Resolved?
    ensures var recs := AllAppsOf(plat).value;
      forall i :: 0 <= i < |recs| ==>
        && recs[i].versionName == VersionName(plat, recs[i].packageName)
        && recs[i].versionCode == VersionCode(plat, recs[i].packageName)
  {
    if plat.sdk < LOLLIPOP {
      AllAppsBeforeLollipop(plat);
    } else if plat.userManager {
      AllAppsFromLollipop(plat);
    }
  }
}
