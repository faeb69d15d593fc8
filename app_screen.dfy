/** The client side of App.tsx: the defaults `getAllAppsFromNative` applies to
    raw records, the `filteredApps` predicate, the work/personal counts of the
    header, the list keys and the error routing of `openApp`. */
module AppScreen {
  import opened Values
  import Seqs
  import Decimal
  import Inventory
  import Launch
  import Android

  /** A record as JavaScript receives it from the native module; any field may
      be missing (undefined or null). */
  datatype RawApp = RawApp(
    appName: Option<string>,
    packageName: Option<string>,
    versionName: Option<string>,
    versionCode: Option<string>,
    isWorkProfile: Option<bool>)

  /** The integers a JavaScript number holds exactly (|n| <= 2^53 - 1); `toString`
      writes them as plain decimal digits. */
  type SafeInteger = n: int | -0x1F_FFFF_FFFF_FFFF <= n <= 0x1F_FFFF_FFFF_FFFF

  /** A version code from react-native-device-info, which may be text or a number. */
  datatype JsVersionCode = TextCode(text: string) | NumberCode(number: SafeInteger)

  /** An entry of `DeviceInfo.getInstalledApplications()`. */
  datatype DeviceApp = DeviceApp(
    appName: Option<string>,
    packageName: Option<string>,
    versionName: Option<string>,
    versionCode: Option<JsVersionCode>)

  /** The `AppInfo` of the screen's state. */
  datatype AppInfo = AppInfo(
    appName: string,
    packageName: string,
    versionName: string,
    versionCode: string,
    isWorkProfile: bool)

  const UNKNOWN: string := "Unknown"
  const UNKNOWN_PACKAGE: string := "unknown.package"

  /** A string that may be missing is truthy in JavaScript when it is present and non-empty. */
  predicate Truthy(value: Option<string>) {
    value.Some? && value.value != ""
  }

  /** JavaScript's `value || fallback` on a string that may be missing. */
  function OrElse(value: Option<string>, fallback: string): (r: string)
    ensures Truthy(value) ==> r == value.value
    ensures !Truthy(value) ==> r == fallback
    ensures fallback != "" ==> r != ""
  {
    if Truthy(value) then value.value else fallback
  }

  /** `app.appName || app.packageName?.split('.').pop() || 'Unknown'`. */
  function DisplayName(appName: Option<string>, packageName: Option<string>): (name: string)
    ensures name != ""
    ensures Truthy(appName) ==> name == appName.value
    ensures !Truthy(appName) && packageName.None? ==> name == UNKNOWN
    ensures !Truthy(appName) && packageName.Some? ==>
              var segment := Seqs.LastPart(packageName.value, '.');
              && (segment != "" ==> name == segment)
              && (segment == "" ==> name == UNKNOWN)
  {
    match packageName
    case None => OrElse(appName, UNKNOWN)
    case Some(p) => OrElse(appName, OrElse(Some(Seqs.LastPart(p, '.')), UNKNOWN))
  }

  /** A formatted record has no empty field. */
  predicate Complete(app: AppInfo) {
    app.appName != "" && app.packageName != "" && app.versionName != "" && app.versionCode != ""
  }

  /** The `allApps.map` of the native path. */
  function FormatNativeApp(raw: RawApp): (app: AppInfo)
    ensures Complete(app)
    ensures app.appName == DisplayName(raw.appName, raw.packageName)
    ensures Truthy(raw.packageName) ==> app.packageName == raw.packageName.value
    ensures !Truthy(raw.packageName) ==> app.packageName == UNKNOWN_PACKAGE
    ensures Truthy(raw.versionName) ==> app.versionName == raw.versionName.value
    ensures !Truthy(raw.versionName) ==> app.versionName == UNKNOWN
    ensures Truthy(raw.versionCode) ==> app.versionCode == raw.versionCode.value
    ensures !Truthy(raw.versionCode) ==> app.versionCode == UNKNOWN
    ensures app.isWorkProfile <==> raw.isWorkProfile == Some(true)
  {
    AppInfo(
      DisplayName(raw.appName, raw.packageName),
      OrElse(raw.packageName, UNKNOWN_PACKAGE),
      OrElse(raw.versionName, UNKNOWN),
      OrElse(raw.versionCode, UNKNOWN),
      raw.isWorkProfile == Some(true))
  }

  /** `app.versionCode?.toString()`. */
  function VersionCodeText(code: Option<JsVersionCode>): (text: Option<string>)
    ensures code.None? ==> text.None?
    ensures code.Some? && code.value.TextCode? ==> text == Some(code.value.text)
    ensures code.Some? && code.value.NumberCode? ==>
              text.Some? && Decimal.IsCanonicalIntegerText(text.value) && Decimal.ParseInt(text.value) == code.value.number
  {
    match code
    case None => None
    case Some(TextCode(t)) => Some(t)
    case Some(NumberCode(n)) =>
      Decimal.ParseIntToDecimal(n);
      Some(Decimal.IntToDecimal(n))
  }

  /** The `installedApps.map` of the react-native-device-info fallback. */
  function FormatDeviceApp(raw: DeviceApp): (app: AppInfo)
    ensures Complete(app) && !app.isWorkProfile
    ensures app.appName == DisplayName(raw.appName, raw.packageName)
    ensures Truthy(raw.packageName) ==> app.packageName == raw.packageName.value
    ensures !Truthy(raw.packageName) ==> app.packageName == UNKNOWN_PACKAGE
    ensures Truthy(raw.versionName) ==> app.versionName == raw.versionName.value
    ensures !Truthy(raw.versionName) ==> app.versionName == UNKNOWN
    ensures raw.versionCode.Some? && raw.versionCode.value.TextCode? && raw.versionCode.value.text != "" ==>
              app.versionCode == raw.versionCode.value.text
    ensures raw.versionCode.None? || raw.versionCode == Some(TextCode("")) ==> app.versionCode == UNKNOWN
    ensures raw.versionCode.Some? && raw.versionCode.value.NumberCode? ==>
              Decimal.IsCanonicalIntegerText(app.versionCode) && Decimal.ParseInt(app.versionCode) == raw.versionCode.value.number
  {
    var code := VersionCodeText(raw.versionCode);
    AppInfo(
      DisplayName(raw.appName, raw.packageName),
      OrElse(raw.packageName, UNKNOWN_PACKAGE),
      OrElse(raw.versionName, UNKNOWN),
      OrElse(code, UNKNOWN),
      false)
  }

  /** Where `getAllAppsFromNative` gets its records: the native module when it
      is registered, react-native-device-info otherwise; each call may reject. */
  datatype AppSource =
    | NativeModule(allApps: Call<seq<RawApp>>)
    | DeviceInfoFallback(installed: Call<seq<DeviceApp>>)

  /** `getAllAppsFromNative`: the formatted records in their original order, or
      the empty list when the call it awaits rejects. */
  function AppsFromNative(source: AppSource): (apps: seq<AppInfo>)
    ensures forall i :: 0 <= i < |apps| ==> Complete(apps[i])
    ensures ((source.NativeModule? && source.allApps.Throws?) ||
             (source.DeviceInfoFallback? && source.installed.Throws?)) ==> apps == []
    ensures source.NativeModule? && source.allApps.Returns? ==>
              |apps| == |source.allApps.value|
              && forall i :: 0 <= i < |apps| ==> apps[i] == FormatNativeApp(source.allApps.value[i])
    ensures source.DeviceInfoFallback? && source.installed.Returns? ==>
              |apps| == |source.installed.value|
              && forall i :: 0 <= i < |apps| ==> apps[i] == FormatDeviceApp(source.installed.value[i])
    ensures source.DeviceInfoFallback? ==> forall i :: 0 <= i < |apps| ==> !apps[i].isWorkProfile
  {
    match source
    case NativeModule(Throws(_)) => []
    case NativeModule(Returns(raws)) =>
      seq(|raws|, i requires 0 <= i < |raws| => FormatNativeApp(raws[i]))
    case DeviceInfoFallback(Throws(_)) => []
    case DeviceInfoFallback(Returns(raws)) =>
      seq(|raws|, i requires 0 <= i < |raws| => FormatDeviceApp(raws[i]))
  }

  /** A native record as it crosses the bridge: every field is present. */
  function ToRaw(record: Inventory.AppRecord): RawApp {
    RawApp(Some(record.appName), Some(record.packageName), Some(record.versionName),
           Some(record.versionCode), Some(record.isWorkProfile))
  }

  /** The awaited `WorkProfileModule.getAllApps()`: a rejection becomes a thrown error. */
  function Bridge(response: Response<seq<Inventory.AppRecord>>): (call: Call<seq<RawApp>>)
    ensures call.Throws? <==> response.Rejected?
    ensures response.Rejected? ==> call.message == response.message
    ensures response.Resolved? ==>
              && |call.value| == |response.value|
              && forall i :: 0 <= i < |call.value| ==> call.value[i] == ToRaw(response.value[i])
  {
    match response
    case Rejected(_, message) => Throws(message)
    case Resolved(records) => Returns(seq(|records|, i requires 0 <= i < |records| => ToRaw(records[i])))
  }

  /** What the screen receives from the native `getAllApps` keeps, record by
      record, the order, the work/personal tag, the version code, and every
      non-empty package name, app name and version name (an empty one becomes
      its default). */
  lemma ScreenKeepsNativeRecords(plat: Android.Platform)
    requires Inventory.AllAppsOf(plat).Resolved?
    ensures var records := Inventory.AllAppsOf(plat).value;
            var apps := AppsFromNative(NativeModule(Bridge(Inventory.AllAppsOf(plat))));
      && |apps| == |records|
      && forall i :: 0 <= i < |apps| ==>
           && apps[i].isWorkProfile == records[i].isWorkProfile
           && apps[i].versionCode == records[i].versionCode
           && (records[i].packageName != "" ==> apps[i].packageName == records[i].packageName)
           && (records[i].appName != "" ==> apps[i].appName == records[i].appName)
           && (records[i].versionName != "" ==> apps[i].versionName == records[i].versionName)
  {
    Inventory.AllAppsVersionFields(plat);
  }

  /** When the native `getAllApps` rejects, the screen shows no records. */
  lemma ScreenEmptyOnNativeError(plat: Android.Platform)
    requires Inventory.AllAppsOf(plat).Rejected?
    ensures AppsFromNative(NativeModule(Bridge(Inventory.AllAppsOf(plat)))) == []
  {
  }

  // --- filteredApps and the header counts -----------------------------------------

  datatype AppFilter = All | Work | Personal

  /** The `filteredApps` predicate for one filter. */
  function Shows(filter: AppFilter, app: AppInfo): (shown: bool)
    ensures shown <==> filter == All || (filter == Work) == app.isWorkProfile
  {
    match filter
    case Work => app.isWorkProfile == true
    case Personal => app.isWorkProfile == false
    case All => true
  }

  function ShownBy(filter: AppFilter): AppInfo -> bool {
    app => Shows(filter, app)
  }

  /** `filteredApps`. */
  function FilteredApps(apps: seq<AppInfo>, filter: AppFilter): (shown: seq<AppInfo>)
    ensures |shown| <= |apps|
    ensures forall i :: 0 <= i < |shown| ==> Shows(filter, shown[i])
    ensures forall a :: a in shown <==> a in apps && Shows(filter, a)
    ensures filter == All ==> shown == apps
  {
    Seqs.FilterMembershipAll(apps, ShownBy(filter));
    if filter == All then
      Seqs.FilterKeepingAll(apps, ShownBy(filter));
      Seqs.Filter(apps, ShownBy(filter))
    else Seqs.Filter(apps, ShownBy(filter))
  }

  /** Each filter keeps a record exactly as often as it occurs when the filter
      shows it, drops it otherwise, and preserves order. */
  lemma FilteredAppsSpec(apps: seq<AppInfo>, filter: AppFilter, app: AppInfo)
    ensures multiset(FilteredApps(apps, filter))[app] == if Shows(filter, app) then multiset(apps)[app] else 0
    ensures Seqs.IsSubsequence(FilteredApps(apps, filter), apps)
  {
    Seqs.FilterCount(apps, ShownBy(filter), app);
    Seqs.FilterIsSubsequence(apps, ShownBy(filter));
  }

  predicate IsWorkApp(app: AppInfo) {
    app.isWorkProfile
  }

  predicate IsPersonalApp(app: AppInfo) {
    !app.isWorkProfile
  }

  /** `allApps.filter(app => app.isWorkProfile).length`. */
  function WorkCount(apps: seq<AppInfo>): (n: nat)
    ensures n <= |apps|
    ensures n == 0 <==> forall i :: 0 <= i < |apps| ==> !apps[i].isWorkProfile
    ensures n == |apps| <==> forall i :: 0 <= i < |apps| ==> apps[i].isWorkProfile
  {
    Seqs.FilterEmpty(apps, IsWorkApp);
    Seqs.FilterEmpty(apps, IsPersonalApp);
    Seqs.FilterPartition(apps, IsWorkApp, IsPersonalApp);
    |Seqs.Filter(apps, IsWorkApp)|
  }

  /** `allApps.filter(app => !app.isWorkProfile).length`. */
  function PersonalCount(apps: seq<AppInfo>): (n: nat)
    ensures n <= |apps|
    ensures n == 0 <==> forall i :: 0 <= i < |apps| ==> apps[i].isWorkProfile
    ensures n == |apps| <==> forall i :: 0 <= i < |apps| ==> !apps[i].isWorkProfile
  {
    Seqs.FilterEmpty(apps, IsWorkApp);
    Seqs.FilterEmpty(apps, IsPersonalApp);
    Seqs.FilterPartition(apps, IsWorkApp, IsPersonalApp);
    |Seqs.Filter(apps, IsPersonalApp)|
  }

  /** The header's work and personal counts add up to the number of records,
      and each equals the length of the corresponding filtered list. */
  lemma CountsPartition(apps: seq<AppInfo>)
    ensures WorkCount(apps) + PersonalCount(apps) == |apps|
    ensures |FilteredApps(apps, Work)| == WorkCount(apps)
    ensures |FilteredApps(apps, Personal)| == PersonalCount(apps)
    ensures |FilteredApps(apps, Work)| + |FilteredApps(apps, Personal)| == |apps|
  {
    Seqs.FilterPartition(apps, IsWorkApp, IsPersonalApp);
    Seqs.FilterCongruent(apps, ShownBy(Work), IsWorkApp);
    Seqs.FilterCongruent(apps, ShownBy(Personal), IsPersonalApp);
  }

  // --- keyExtractor --------------------------------------------------------------

  /** `keyExtractor`: `${packageName}-${work|personal}-${index}`. */
  function ListKey(app: AppInfo, index: nat): (key: string)
    ensures app.packageName + "-" <= key
    ensures (if app.isWorkProfile then "work-" else "personal-") <= key[|app.packageName| + 1..]
    ensures |key| == |app.packageName| + (if app.isWorkProfile then 6 else 10) + |Decimal.NatToDecimal(index)|
  {
    app.packageName + "-" + (if app.isWorkProfile then "work" else "personal") + "-" + Decimal.NatToDecimal(index)
  }

  /** The index can be read back from a key: it is what follows the last '-'. */
  lemma ListKeyIndex(app: AppInfo, index: nat)
    ensures Seqs.LastPart(ListKey(app, index), '-') == Decimal.NatToDecimal(index)
    ensures Decimal.ParseDigits(Seqs.LastPart(ListKey(app, index), '-')) == index
  {
    var digits := Decimal.NatToDecimal(index);
    var front := app.packageName + "-" + (if app.isWorkProfile then "work" else "personal");
    assert ListKey(app, index) == front + ['-'] + digits;
    assert '-' !in digits by {
      forall k | 0 <= k < |digits| ensures digits[k] != '-' {
        assert Decimal.IsDigit(digits[k]);
      }
    }
    Seqs.LastPartAfterSeparator(front, digits, '-');
    Decimal.ParseNatToDecimal(index);
  }

  /** Keys at different positions differ, whatever the records are; so the keys
      of a list are pairwise distinct. */
  lemma ListKeysDistinct(a: AppInfo, i: nat, b: AppInfo, j: nat)
    requires i != j
    ensures ListKey(a, i) != ListKey(b, j)
  {
    ListKeyIndex(a, i);
    ListKeyIndex(b, j);
    Decimal.NatToDecimalInjective(i, j);
  }

  // --- openApp -------------------------------------------------------------------

  /** What `openApp` shows after the launch call settles. */
  datatype OpenResult =
    | Opened
    | ModuleMissing(message: string)
    | OfferPlayStore(message: string, storeUrl: string, webUrl: string)
    | OpenFailed(message: string)

  /** The error routing of `openApp`, given how the native `launchApp` settled. */
  function OpenApp(moduleAvailable: bool, packageName: string, appName: string, launched: Response<bool>): (r: OpenResult)
    ensures r.Opened? <==> moduleAvailable && launched.Resolved?
    ensures r.OfferPlayStore? <==> moduleAvailable && launched.Rejected? && launched.code == "APP_NOT_FOUND"
    ensures r.OfferPlayStore? ==>
              && r.storeUrl == "market://details?id=" + packageName
              && r.webUrl == "https://play.google.com/store/apps/details?id=" + packageName
    ensures r.OpenFailed? <==> moduleAvailable && launched.Rejected? && launched.code != "APP_NOT_FOUND"
  {
    if !moduleAvailable then ModuleMissing("Cannot launch apps - native module not available")
    else match launched
      case Resolved(_) => Opened
      case Rejected(code, message) =>
        if code == "APP_NOT_FOUND" then
          OfferPlayStore("Cannot open " + appName + ". Would you like to view it in the Play Store?",
                         "market://details?id=" + packageName,
                         "https://play.google.com/store/apps/details?id=" + packageName)
        else
          OpenFailed("Failed to open " + appName + ": " + (if message != "" then message else "Unknown error"))
  }

  /** Through the native module, the Play Store is offered exactly when the
      LauncherApps attempt does not start anything and the package has no
      launch intent; any other failure shows the generic error. */
  lemma OpenAppOffersStoreWhenNotFound(plat: Android.Platform, packageName: string, appName: string, isWorkProfile: bool)
    ensures var r := OpenApp(true, packageName, appName, Launch.LaunchApp(plat, packageName, isWorkProfile).response);
      r.OfferPlayStore? <==>
        Launch.LauncherRoute(plat, packageName, isWorkProfile).None? && packageName !in plat.launchIntents
  {
  }
}
