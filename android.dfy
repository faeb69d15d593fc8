/** The Android platform as the native module sees it, reduced to plain data:
    every service lookup, reflective call and package-manager query is an input
    value (which may be an exception) rather than behaviour to be modelled. */
module Android {
  import opened Values

  /** `Build.VERSION_CODES.LOLLIPOP`, the first SDK level with managed profiles. */
  const LOLLIPOP: int := 21

  /** `ApplicationInfo.FLAG_SYSTEM`. */
  const FLAG_SYSTEM: bv32 := 0x0000_0001

  /** `Intent.FLAG_ACTIVITY_NEW_TASK`. */
  const FLAG_ACTIVITY_NEW_TASK: bv32 := 0x1000_0000

  /** Java's `int`. */
  type Int32 = x: int | -0x8000_0000 <= x < 0x8000_0000

  /** An installed application as listed by the package manager; `applicationLabel` is what
      `pm.getApplicationLabel(app).toString()` yields for it. */
  datatype ApplicationInfo = ApplicationInfo(packageName: string, flags: bv32, applicationLabel: Call<string>)

  /** The fields of `pm.getPackageInfo(packageName, 0)` that the module reads;
      `versionName` may be null. */
  datatype PackageInfo = PackageInfo(versionName: Option<string>, versionCode: Int32)

  /** A launcher entry point of a profile: its application, the component
      `startMainActivity` is given, and what `getLabel().toString()` yields. */
  datatype LauncherActivityInfo = LauncherActivityInfo(application: ApplicationInfo, component: string, activityLabel: Call<string>)

  /** One entry of `userManager.getUserProfiles()`, with the answers the platform
      gives about it: the reflective `getIdentifier()`, the reflective
      `isManagedProfile(id)`, the reflective `getInstalledApplicationsAsUser`
      for its id, and `launcherApps.getActivityList(null, user)`. */
  datatype UserHandle = UserHandle(
    identifier: Call<Int32>,
    managedProbe: Call<bool>,
    scopedApps: Call<seq<ApplicationInfo>>,
    activities: Call<seq<LauncherActivityInfo>>)

  datatype Intent = Intent(component: string, flags: bv32)

  /** Everything the module reads from the device during one call. */
  datatype Platform = Platform(
    sdk: int,                                  // Build.VERSION.SDK_INT
    userManager: bool,                         // getSystemService(USER_SERVICE) != null
    launcherApps: bool,                        // getSystemService(LAUNCHER_APPS_SERVICE) != null
    profiles: Call<seq<UserHandle>>,           // userManager.getUserProfiles()
    installed: Call<seq<ApplicationInfo>>,     // pm.getInstalledApplications(GET_META_DATA)
    packages: map<string, PackageInfo>,        // pm.getPackageInfo; a missing key throws NameNotFoundException
    launchIntents: map<string, Call<Intent>>,  // pm.getLaunchIntentForPackage; a missing key returns null
    startMainActivity: Call<()>,               // launcherApps.startMainActivity(...)
    startActivity: Call<()>)                   // context.startActivity(intent)
}
