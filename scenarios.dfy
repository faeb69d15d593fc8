/** The end-to-end situations the module is expected to handle, stated over
    every platform that matches them. */
module Scenarios {
  import opened Values
  import opened Android
  import Seqs
  import Profiles
  import Inventory
  import Launch
  import AppScreen

  /** Profile 0 is personal whatever its probe says; profile 10 with a throwing
      probe is work. */
  lemma TwoProfilesClassified(plat: Platform, personal: UserHandle, work: UserHandle)
    requires plat.sdk >= LOLLIPOP && plat.userManager
    requires personal.identifier == Returns(0)
    requires work.identifier == Returns(10) && work.managedProbe.Throws?
    ensures !Profiles.IsWorkProfile(plat, personal) && Profiles.IsWorkProfile(plat, work)
  {
  }

  /** The profile loop over the two profiles yields the work record of the one
      non-system app of the work profile. */
  lemma TwoProfilesLoop(plat: Platform, personal: UserHandle, work: UserHandle, tool: ApplicationInfo)
    requires !Profiles.IsWorkProfile(plat, personal) && Profiles.IsWorkProfile(plat, work)
    requires work.scopedApps == Returns([tool]) && tool.flags & FLAG_SYSTEM == 0
    ensures Inventory.ProfilesApps(plat, [personal, work]) == [Inventory.RecordFor(plat, tool, true)]
  {
    var users := [personal, work];
    assert ([tool])[..0] == [];
    assert Inventory.ListingRecords(plat, [tool], true, true) == [Inventory.RecordFor(plat, tool, true)];
    assert Inventory.ProfileApps(plat, work) == [Inventory.RecordFor(plat, tool, true)];
    assert users[..1] == [personal];
    assert Inventory.ProfilesApps(plat, [personal]) == [];
  }

  /** Two profiles: id 0, which the platform reports as not managed, and id 10,
      whose managed-profile check throws; the second lists a single non-system
      app `com.acme.tool`. A work profile is reported, and the work inventory is
      exactly one work record for that package, with its version fields taken
      from the package metadata or "Unknown". */
  lemma TwoProfilesOneWorkApp(plat: Platform, personal: UserHandle, work: UserHandle, tool: ApplicationInfo)
    requires plat.sdk >= LOLLIPOP && plat.userManager
    requires plat.profiles == Returns([personal, work])
    requires personal.identifier == Returns(0) && personal.managedProbe == Returns(false)
    requires work.identifier == Returns(10) && work.managedProbe.Throws?
    requires work.scopedApps == Returns([tool])
    requires tool.packageName == "com.acme.tool" && tool.flags & FLAG_SYSTEM == 0
    ensures Profiles.HasWorkProfileOf(plat) == Resolved(true)
    ensures Profiles.WorkProfileUserOf(plat) == Some(work)
    ensures Inventory.WorkProfileAppsOf(plat).Resolved?
    ensures var records := Inventory.WorkProfileAppsOf(plat).value;
      && |records| == 1
      && records[0].packageName == "com.acme.tool"
      && records[0].isWorkProfile
      && (if "com.acme.tool" in plat.packages && plat.packages["com.acme.tool"].versionName.Some?
          then records[0].versionName == plat.packages["com.acme.tool"].versionName.value
          else records[0].versionName == "Unknown")
      && (records[0].versionCode == "Unknown" <==> "com.acme.tool" !in plat.packages)
  {
    var users := [personal, work];
    TwoProfilesClassified(plat, personal, work);
    TwoProfilesLoop(plat, personal, work, tool);
    assert work in users;
    assert Seqs.FirstIndex(users, u => Profiles.IsWorkProfile(plat, u)) == 1;
  }

  /** `launchApp("com.acme.tool", true)` when the work profile's entry-point
      lookup fails but the package has a launch intent in the calling profile:
      the direct path starts it with `FLAG_ACTIVITY_NEW_TASK` and resolves true. */
  lemma WorkLaunchFallsBackToIntent(plat: Platform, intent: Intent)
    requires Profiles.WorkProfileUserOf(plat).Some? ==> Profiles.WorkProfileUserOf(plat).value.activities.Throws?
    requires "com.acme.tool" in plat.launchIntents && plat.launchIntents["com.acme.tool"] == Returns(intent)
    requires plat.startActivity.Returns?
    ensures var r := Launch.LaunchApp(plat, "com.acme.tool", true);
      && r.response == Resolved(true)
      && r.effect == Some(Launch.StartedActivity(intent.(flags := intent.flags | FLAG_ACTIVITY_NEW_TASK)))
  {
  }

  /** `launchApp("missing.pkg", false)` without a launch intent is rejected with
      `APP_NOT_FOUND`, and the screen offers the package in the Play Store. */
  lemma MissingPackageOffersStore(plat: Platform)
    requires "missing.pkg" !in plat.launchIntents
    ensures Launch.LaunchApp(plat, "missing.pkg", false).response.Rejected?
    ensures Launch.LaunchApp(plat, "missing.pkg", false).response.code == "APP_NOT_FOUND"
    ensures var shown := AppScreen.OpenApp(true, "missing.pkg", "Missing", Launch.LaunchApp(plat, "missing.pkg", false).response);
      shown.OfferPlayStore? && shown.storeUrl == "market://details?id=missing.pkg"
  {
  }

  /** Below Lollipop there is no work inventory and no work profile, whatever
      the profiles look like. */
  lemma NothingBeforeLollipop(plat: Platform)
    requires plat.sdk < LOLLIPOP
    ensures Inventory.WorkProfileAppsOf(plat) == Resolved([])
    ensures Profiles.HasWorkProfileOf(plat) == Resolved(false)
    ensures Profiles.WorkProfileUserOf(plat).None?
  {
    Profiles.HasWorkProfileIffWorkProfileUser(plat);
  }
}
