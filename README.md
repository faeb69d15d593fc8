# Work-profile app launcher: a Dafny model

This project models the decision logic of an Android launcher that lists and starts apps from the
personal profile and from an Android for Work (managed) profile. It has two parts:

* **The native module** `WorkProfileModule`. It covers:
  * profile classification: `getUserId`, `isWorkProfile`;
  * the per-profile app listing `getInstalledApplicationsForUser`;
  * the two inventories `getWorkProfileApps` and `getAllApps`;
  * work-profile discovery: `getWorkProfileUser`, `hasWorkProfile`;
  * the launch router `launchApp`.
* **The React Native screen** (`App.tsx`). It covers:
  * the defaults `getAllAppsFromNative` applies to raw records;
  * the `filteredApps` predicate;
  * the work/personal counts of the header;
  * the `keyExtractor` list keys;
  * the error-code routing in `openApp`.

Every Android service is plain input data, in the `Android.Platform` value. That covers the
SDK level, the presence of the UserManager and LauncherApps services, the profile list, the
reflective probes per profile, package metadata, launcher-activity lists, launch intents and the
start calls. A call that can throw is a `Call<T>`: either `Returns(value)` or `Throws(message)`.
A React Native promise outcome is a `Response<T>`: either `Resolved(value)` or
`Rejected(code, message)`. With these inputs, every public operation is a deterministic
function of the platform.

The Java code has three kinds of members, modelled differently:

* Pure case analyses become functions: `getUserId`, `isWorkProfile`,
  `getInstalledApplicationsForUser`, and the per-field fallbacks of a record.
* The loops become methods with `while` loops: the profile loop, the app loops, the activity
  loop, and the early-exit scans of `getWorkProfileUser` and `hasWorkProfile`. Each method is
  proved equal to a specification function: `GetWorkProfileApps` to `WorkProfileAppsOf`,
  `GetAllApps` to `AllAppsOf`, `GetWorkProfileUser` to `WorkProfileUserOf`, and
  `HasWorkProfile` to `HasWorkProfileOf`.
* The properties the module promises are lemmas about those specification functions.

The screen's code is made of expressions, so it is modelled with functions and lemmas.

Modules:

* `Values`: `Option`, `Call` and `Response`.
* `Decimal`: `String.valueOf(int)` and JavaScript number-to-string, with a parser as their
  inverse. JavaScript numbers are covered only for integers of at most 2^53 - 1 in magnitude,
  which `toString` writes as plain digits.
* `Seqs`: order-preserving filtering, first index, and `split(sep).pop()`.
* `Android`: the platform as data.
* `Profiles`: classification and discovery.
* `Inventory`: listing and records.
* `Launch`: launch routing.
* `AppScreen`: the `App.tsx` logic.
* `Scenarios`: end-to-end situations, each stated over every platform that matches it.

## Where the model follows the code in detail

* **Classification** (`isWorkProfile`):
  * A handle whose identifier cannot be read gets id 0.
  * Id 0 is always personal.
  * For a non-zero id on Lollipop or later, the reflective `isManagedProfile(id)` answer is
    trusted.
  * If that call throws (or yields null), any non-zero id counts as work.
  * Without a UserManager, every profile is personal.
* **`getAllApps` below Lollipop** keeps system apps. Only the Lollipop-or-later personal loop
  and `getWorkProfileApps` skip them.
* **The work half of `getAllApps`:**
  * It comes from `LauncherApps.getActivityList(null, workProfile)`, with one record per
    launcher activity and no system filter.
  * It takes the label with no fallback.
  * A label lookup that throws ends the loop, and the records already pushed are kept.
* **Version fields** of every record come from the calling context's package manager, including
  work records. A package unknown there gets `"Unknown"` for both version fields.
* **The profile loop of `getWorkProfileApps`:** a profile whose listing throws adds nothing and
  the loop goes on. The rejection `"Failed to get work profile apps: …"` arises only when the
  profile list itself cannot be read.
* **`launchApp`:**
  * A work request goes through LauncherApps only when the SDK level is at least Lollipop, both
    the LauncherApps service and a work profile are present, and the package has launcher
    activities there. In that case the first activity is started.
  * Every failure of that path falls through to the launch intent.
  * On the intent path, a missing intent rejects with `APP_NOT_FOUND`. A lookup or start that
    throws rejects with `LAUNCH_ERROR`.

Two consequences of this are easy to miss, and the model keeps both
(`AllAppsBeforeLollipop`, `ActivityRecords`, `ActivityRecord`):

* System-flagged records can appear in `getAllApps`: below Lollipop, and in the work half.
* Version metadata for work records is resolved in the calling profile.

## Model

All Java paths are under `android/app/src/main/java/com/workprofileapps/`.

| member | source | states |
|---|---|---|
| Profiles.UserId | android/app/src/main/java/com/workprofileapps/WorkProfileModule.java:147-154 | The id is the handle's identifier when it can be read, and 0 when reading it throws. |
| Profiles.IsWorkProfile | android/app/src/main/java/com/workprofileapps/WorkProfileModule.java:113-145 | Id 0, an unreadable id, a missing UserManager and a pre-Lollipop SDK each give personal. Otherwise work holds exactly when the managed-profile probe does not answer false, so a probe that throws gives work. |
| Profiles.WorkProfileUserOf | android/app/src/main/java/com/workprofileapps/WorkProfileModule.java:347-363 | A result is a work profile at some index, and every profile before that index is personal. No result means there is no UserManager, or the profile list throws, or no profile is work. |
| Profiles.GetWorkProfileUser | android/app/src/main/java/com/workprofileapps/WorkProfileModule.java:347-363 | The early-exit scan returns exactly `WorkProfileUserOf`. |
| Profiles.HasWorkProfileOf | android/app/src/main/java/com/workprofileapps/WorkProfileModule.java:365-394 | Below Lollipop or without a UserManager it resolves false. It rejects exactly when the profile list throws, with code "ERROR" and the exception's message. It resolves true exactly when some listed profile is work. |
| Profiles.HasWorkProfile | android/app/src/main/java/com/workprofileapps/WorkProfileModule.java:365-394 | The early-exit scan settles exactly as `HasWorkProfileOf`. |
| Profiles.HasWorkProfileIffWorkProfileUser | android/app/src/main/java/com/workprofileapps/WorkProfileModule.java:347-394 | `hasWorkProfile` resolves true exactly when `getWorkProfileUser` finds a profile. |
| Inventory.InstalledApplicationsForUser | android/app/src/main/java/com/workprofileapps/WorkProfileModule.java:156-169 | The result is the user-scoped listing when that call succeeds. Otherwise it is the unscoped listing, and that listing's own failure propagates. |
| Inventory.AppName | android/app/src/main/java/com/workprofileapps/WorkProfileModule.java:75-80 | The name is the label, or the package name when the label lookup throws. |
| Inventory.VersionName | android/app/src/main/java/com/workprofileapps/WorkProfileModule.java:82-87 | Anything but "Unknown" is the package's non-null version name. A known package with a version name yields that name. |
| Inventory.VersionCode | android/app/src/main/java/com/workprofileapps/WorkProfileModule.java:89-94 | The result is "Unknown" exactly when the package lookup fails. Otherwise it is canonical decimal text, with no leading zero and no "-0", that parses back to the version code. By `Decimal.CanonicalTextUnique`, that is exactly `String.valueOf` of the code. |
| Inventory.RecordFor | android/app/src/main/java/com/workprofileapps/WorkProfileModule.java:72-97 | The record copies the package name unchanged and carries the given work flag. |
| Inventory.FallbacksIndependent | android/app/src/main/java/com/workprofileapps/WorkProfileModule.java:72-94 | A different label lookup changes only `appName`. Different package metadata changes only the version fields. |
| Inventory.MapRecords | android/app/src/main/java/com/workprofileapps/WorkProfileModule.java:181-208 | There is one record per listed app. |
| Inventory.MapRecordsAt | android/app/src/main/java/com/workprofileapps/WorkProfileModule.java:181-208 | The record at position i is the record of the app at position i. |
| Inventory.Listed | android/app/src/main/java/com/workprofileapps/WorkProfileModule.java:66-71 | The apps a listing loop turns into records: never more than the listing, and the whole listing when system apps are not skipped. |
| Inventory.ListedMembership | android/app/src/main/java/com/workprofileapps/WorkProfileModule.java:66-71 | An app is turned into a record exactly when it is listed and not skipped. So when system apps are skipped, no system app is turned into a record. |
| Inventory.ListingRecords | android/app/src/main/java/com/workprofileapps/WorkProfileModule.java:66-99 | One record per app the loop keeps, so never more records than listed apps. |
| Inventory.ListingRecordsSnoc | android/app/src/main/java/com/workprofileapps/WorkProfileModule.java:66-71 | One more app adds its record, unless the loop skips system apps and the app is a system app. |
| Inventory.ListingRecordsStep | android/app/src/main/java/com/workprofileapps/WorkProfileModule.java:66-71 | One loop step on the prefix the loop has visited: the next app adds its record unless it is skipped. |
| Inventory.PushRecords | android/app/src/main/java/com/workprofileapps/WorkProfileModule.java:66-99 | The loop appends exactly the listing's records to what was there, in order, skipping system apps when asked. |
| Inventory.ProfileApps | android/app/src/main/java/com/workprofileapps/WorkProfileModule.java:61-103 | A profile adds records only if it is classified work and its listing can be read. It adds at most one per listed app. |
| Inventory.ProfilesApps | android/app/src/main/java/com/workprofileapps/WorkProfileModule.java:59-105 | The profile loop over no profiles adds nothing. Over one profile, it adds exactly that profile's records. |
| Inventory.ProfilesAppsWithoutWork | android/app/src/main/java/com/workprofileapps/WorkProfileModule.java:59-105 | The profile loop adds nothing when no profile is classified work. |
| Inventory.WorkProfileAppsOf | android/app/src/main/java/com/workprofileapps/WorkProfileModule.java:38-111 | Below Lollipop or without a UserManager it resolves to the empty list. It rejects with "ERROR" exactly when the profile list throws. |
| Inventory.GetWorkProfileApps | android/app/src/main/java/com/workprofileapps/WorkProfileModule.java:38-111 | The nested loops settle exactly as `WorkProfileAppsOf`. |
| Inventory.ProfilesAppsAppend | android/app/src/main/java/com/workprofileapps/WorkProfileModule.java:59-105 | The records of two runs of profiles, one after the other, are the records of each run concatenated. |
| Inventory.ProfileAppsIsolated | android/app/src/main/java/com/workprofileapps/WorkProfileModule.java:59-105 | Each profile contributes its own records in place. A profile whose listing throws contributes nothing, and the profiles after it are still processed. |
| Inventory.ProfileAppsSound | android/app/src/main/java/com/workprofileapps/WorkProfileModule.java:61-99 | Every record a profile adds comes from a work profile and is flagged work. It is the record of a non-system app in that profile's listing. |
| Inventory.ProfileAppsComplete | android/app/src/main/java/com/workprofileapps/WorkProfileModule.java:61-99 | Every non-system app in a work profile's readable listing yields its record. |
| Inventory.ProfilesAppsOrigin | android/app/src/main/java/com/workprofileapps/WorkProfileModule.java:59-105 | Every record of the profile loop comes from one of the profiles. |
| Inventory.WorkProfileAppsSound | android/app/src/main/java/com/workprofileapps/WorkProfileModule.java:59-107 | Every record `getWorkProfileApps` resolves with is flagged work. It is built from a non-system app listed for a profile classified as work. |
| Inventory.ActivityRecord | android/app/src/main/java/com/workprofileapps/WorkProfileModule.java:270-291 | A work-half record takes the activity's package name and its label with no fallback, and is flagged work. |
| Inventory.ActivityRecords | android/app/src/main/java/com/workprofileapps/WorkProfileModule.java:266-295 | One record per activity, in order, up to the first activity whose label lookup throws. The loop stops there and keeps what it pushed. |
| Inventory.WorkHalf | android/app/src/main/java/com/workprofileapps/WorkProfileModule.java:259-297 | The work half is non-empty only on Lollipop or later, with LauncherApps present and a work profile found. |
| Inventory.AllAppsOf | android/app/src/main/java/com/workprofileapps/WorkProfileModule.java:172-303 | It rejects with "ERROR" exactly when the installed listing it reads throws. From Lollipop on, without a UserManager, it resolves to the empty list. |
| Inventory.PushActivityRecords | android/app/src/main/java/com/workprofileapps/WorkProfileModule.java:266-295 | The loop with its early exit appends exactly `ActivityRecords`. |
| Inventory.GetAllApps | android/app/src/main/java/com/workprofileapps/WorkProfileModule.java:172-303 | The method settles exactly as `AllAppsOf`. |
| Inventory.AllAppsBeforeLollipop | android/app/src/main/java/com/workprofileapps/WorkProfileModule.java:176-211 | Below Lollipop every installed app, system apps included, yields its personal record in listing order. |
| Inventory.AllAppsFromLollipop | android/app/src/main/java/com/workprofileapps/WorkProfileModule.java:223-297 | The result is the non-system personal records, each flagged personal and in order, followed by the work half. Every record after them is flagged work. |
| Inventory.AllAppsPersonalFirst | android/app/src/main/java/com/workprofileapps/WorkProfileModule.java:223-297 | No personal record follows a work record. |
| Inventory.AllAppsWorkRecordsNeedProfile | android/app/src/main/java/com/workprofileapps/WorkProfileModule.java:259-297 | A work record appears only when a work profile exists and LauncherApps is present. |
| Inventory.AllAppsVersionFields | android/app/src/main/java/com/workprofileapps/WorkProfileModule.java:172-303 | Every record, from any of the three loops, carries the version fields looked up, with their fallbacks, for its own package. |
| Launch.ActivityList | android/app/src/main/java/com/workprofileapps/WorkProfileModule.java:318 | The activity list for a package throws exactly when the profile's list throws. Otherwise it holds exactly that package's activities, each as often as in the profile's list, in their order. |
| Launch.LauncherRoute | android/app/src/main/java/com/workprofileapps/WorkProfileModule.java:310-329 | This path starts something only for a work request on Lollipop or later, with LauncherApps present, a work profile found, a readable non-empty activity list and a start call that succeeds. What it starts is the first activity, in the work profile. |
| Launch.DirectLaunch | android/app/src/main/java/com/workprofileapps/WorkProfileModule.java:331-344 | A missing intent rejects with APP_NOT_FOUND. It resolves exactly when the intent lookup and the start succeed. The intent started is the package's own, with `FLAG_ACTIVITY_NEW_TASK` set and every other flag unchanged. When the package has an intent entry, every rejection is LAUNCH_ERROR, so APP_NOT_FOUND arises only without an intent. |
| Launch.LaunchApp | android/app/src/main/java/com/workprofileapps/WorkProfileModule.java:306-345 | It resolves true exactly when something was started. A rejection is APP_NOT_FOUND or LAUNCH_ERROR. The LauncherApps route wins when it succeeds; otherwise the direct path decides. |
| Launch.PersonalLaunchIsDirect | android/app/src/main/java/com/workprofileapps/WorkProfileModule.java:310-341 | A personal request is exactly the direct launch. A work request whose LauncherApps attempt fails behaves like a personal one. |
| Launch.WorkLaunchStartsFirstActivity | android/app/src/main/java/com/workprofileapps/WorkProfileModule.java:310-323 | Take a work request on Lollipop or later, with LauncherApps present, a work profile found and a `startMainActivity` that does not throw. If the work profile's readable activity list has an activity for the package, the first such activity is started there and the promise resolves true, whatever the launch intents. |
| Decimal.IntToDecimal | android/app/src/main/java/com/workprofileapps/WorkProfileModule.java:89-94 | `String.valueOf(int)` yields canonical integer text: no leading zero, zero written "0", and a sign exactly for negative inputs. |
| Decimal.NatToDecimal | App.tsx:280-284 | The decimal text of an index is a non-empty digit string, with no leading zero unless the index is 0. |
| Decimal.ParseNatToDecimal | App.tsx:280-284 | Parsing the decimal text of a natural number gives the number back. |
| Decimal.ParseIntToDecimal | android/app/src/main/java/com/workprofileapps/WorkProfileModule.java:89-94 | Parsing `String.valueOf(n)` gives n back. |
| Decimal.CanonicalDigits | android/app/src/main/java/com/workprofileapps/WorkProfileModule.java:89-94 | A digit string with no leading zero is the text of its own value. |
| Decimal.CanonicalTextUnique | android/app/src/main/java/com/workprofileapps/WorkProfileModule.java:89-94 | Canonical integer text is the `String.valueOf` text of the integer it denotes, so every integer has exactly one canonical spelling. |
| Decimal.NatToDecimalInjective | App.tsx:280-284 | Distinct indices have distinct texts. |
| Seqs.Filter | App.tsx:142-151 | The result of `Array.prototype.filter` is no longer than its input, and every element it keeps satisfies the predicate. |
| Seqs.FilterCount | App.tsx:142-151 | The filter keeps every occurrence of an element that passes and none of one that fails. |
| Seqs.FilterMembership | App.tsx:142-151 | An element is in the result exactly when it is in the input and passes. |
| Seqs.FilterPositions | App.tsx:142-151 | The kept elements sit at strictly increasing positions of the input. |
| Seqs.FilterIsSubsequence | App.tsx:142-151 | The filter's result is an order-preserving subsequence of its input. |
| Seqs.FilterKeepingAll | App.tsx:148-149 | A predicate that holds everywhere returns the list unchanged. |
| Seqs.FilterCongruent | App.tsx:256-257 | Predicates that agree on the list filter it alike. |
| Seqs.FilterPartition | App.tsx:256-257 | Filtering by a predicate and by its negation splits the list: the two lengths add up to its length. |
| Seqs.FilterMembershipAll | App.tsx:142-151 | Membership in the result, stated for every element at once. |
| Seqs.FilterEmpty | App.tsx:256-257 | The filter keeps nothing exactly when no element passes. |
| Seqs.FirstIndex | android/app/src/main/java/com/workprofileapps/WorkProfileModule.java:354-358 | The index is the first position where the predicate holds, or the length when it holds nowhere. |
| Seqs.Split | App.tsx:60 | `split(sep)` yields at least one part, and no part contains the separator. |
| Seqs.Join | App.tsx:60 | The reference inverse used to specify the `split` of this line (App.tsx has no `join`): a single part is returned as is. Otherwise the first part is a prefix, followed by the separator. |
| Seqs.JoinSplit | App.tsx:60 | Joining the parts with the separator gives the string back. |
| Seqs.SplitWithoutSeparator | App.tsx:60 | A string without the separator splits into itself alone. |
| Seqs.SplitSinglePiece | App.tsx:60 | A single part means the string has no separator. |
| Seqs.SplitAround | App.tsx:60 | Splitting around a separator splits each side. |
| Seqs.LastPart | App.tsx:60 | `split(sep).pop()` never contains the separator, and it is the whole string when the string has none. |
| Seqs.LastPartAfterSeparator | App.tsx:280-284 | `pop()` after a final separator yields exactly the separator-free tail. |
| Seqs.LastPartIsFinalSegment | App.tsx:60 | `split(sep).pop()` is the longest separator-free suffix: either the whole string or preceded by the separator. |
| AppScreen.OrElse | App.tsx:60-63 | JavaScript `||` on a string that may be missing. The value is kept when it is present and non-empty, and the fallback is used otherwise. So a non-empty fallback gives a non-empty result. |
| AppScreen.DisplayName | App.tsx:60 | The display name is never empty. It is the raw name when that is present and non-empty. Otherwise it is the last '.'-segment of the package name when that segment is non-empty. Otherwise it is "Unknown". |
| AppScreen.FormatNativeApp | App.tsx:59-65 | No field of a formatted record is empty. Each present, non-empty raw field is kept. A missing or empty package name becomes 'unknown.package'. A missing or empty version name or code becomes 'Unknown'. `isWorkProfile` holds exactly when the raw flag is `true`. |
| AppScreen.VersionCodeText | App.tsx:50 | `versionCode?.toString()`: a missing code stays missing, and a text code is kept. A numeric code, a safe JavaScript integer, becomes canonical integer text that parses back to it, which is its one decimal spelling. |
| AppScreen.FormatDeviceApp | App.tsx:46-52 | A device-info record is complete and personal. Its package name, version name and text version code are kept when non-empty, and otherwise replaced by 'unknown.package' or 'Unknown'. A numeric version code becomes canonical integer text that parses back to it. |
| AppScreen.AppsFromNative | App.tsx:40-89 | Every formatted record is complete. A rejected call yields the empty list. Otherwise the result has the same length and order as the input, record for record. The device-info fallback flags nothing as work. |
| AppScreen.Bridge | App.tsx:56 | A rejected native promise becomes a thrown error carrying its message. A resolved one delivers every record, in order, with every field present. |
| AppScreen.ScreenKeepsNativeRecords | App.tsx:56-65 | For the native `getAllApps` records, the screen keeps the order, the work flag and the version code. It also keeps every non-empty package name, app name and version name. |
| AppScreen.ScreenEmptyOnNativeError | App.tsx:85-88 | A rejected native `getAllApps` leaves the screen with no records. |
| AppScreen.Shows | App.tsx:142-151 | 'all' shows every record. 'work' and 'personal' each show a record exactly when its work flag matches, so every record is shown by exactly one of them. |
| AppScreen.FilteredApps | App.tsx:142-151 | `filteredApps`: every record it shows passes the filter. A record is in it exactly when it is in the list and the filter shows it. 'all' returns the list unchanged. |
| AppScreen.FilteredAppsSpec | App.tsx:142-151 | Each filter keeps every occurrence of the records it shows and none of the others, in order. |
| AppScreen.WorkCount | App.tsx:256 | The work count is at most the total. It is 0 exactly when no record is work, and the total exactly when every record is. |
| AppScreen.PersonalCount | App.tsx:257 | The personal count is at most the total. It is 0 exactly when every record is work, and the total exactly when none is. |
| AppScreen.CountsPartition | App.tsx:256-257 | The work count plus the personal count is the total. Each count equals the length of the matching filtered list. |
| AppScreen.ListKey | App.tsx:280-284 | `keyExtractor`: a key starts with the package name and '-', followed by "work-" or "personal-" according to the work flag. Its length leaves room for nothing but the index's digits after that. |
| AppScreen.ListKeyIndex | App.tsx:280-284 | The text after a key's last '-' is the decimal index, and it parses back to the index. |
| AppScreen.ListKeysDistinct | App.tsx:280-284 | Keys at different positions differ, whatever the records are. |
| AppScreen.OpenApp | App.tsx:187-222 | The outcome is "opened" exactly when the module exists and the launch resolves. APP_NOT_FOUND, and only that code, offers the Play Store (`market://details?id=<pkg>`, with the web URL as fallback). Any other rejection shows the generic failure. |
| AppScreen.OpenAppOffersStoreWhenNotFound | App.tsx:195-219 | Through the native module, the Play Store is offered exactly when the LauncherApps attempt starts nothing and the package has no launch intent. |
| Scenarios.TwoProfilesClassified | android/app/src/main/java/com/workprofileapps/WorkProfileModule.java:113-145 | Profile 0 is personal whatever its probe says. Profile 10, whose managed check throws, is work. |
| Scenarios.TwoProfilesLoop | android/app/src/main/java/com/workprofileapps/WorkProfileModule.java:59-105 | With profile 0 personal and profile 10 work, listing only the non-system `com.acme.tool`, the profile loop yields exactly that app's work record. |
| Scenarios.TwoProfilesOneWorkApp | android/app/src/main/java/com/workprofileapps/WorkProfileModule.java:38-111 | Profile 0 is not managed and profile 10's managed check throws. Profile 10 lists only `com.acme.tool`, which is not a system app. A work profile is then reported, and the work inventory is exactly one work record for that package. |
| Scenarios.WorkLaunchFallsBackToIntent | android/app/src/main/java/com/workprofileapps/WorkProfileModule.java:306-341 | A work launch of `com.acme.tool` whose activity lookup fails starts the package's launch intent with `FLAG_ACTIVITY_NEW_TASK` and resolves true. |
| Scenarios.MissingPackageOffersStore | android/app/src/main/java/com/workprofileapps/WorkProfileModule.java:333-341 | Launching `missing.pkg` without an intent rejects with APP_NOT_FOUND, and the screen offers it in the Play Store. |
| Scenarios.NothingBeforeLollipop | android/app/src/main/java/com/workprofileapps/WorkProfileModule.java:42-45 | Below Lollipop: `getWorkProfileApps` resolves to the empty list; `hasWorkProfile` resolves false; `getWorkProfileUser` finds nothing. |

## Left out

The model does not cover, one item each:

- **Android framework behaviour.** This means UserManager, PackageManager, LauncherApps, `startActivity`, Java reflection and `Build.VERSION`. All of it is input data in `Android.Platform`, and each service answers the same way every time it is asked within one call.
- **The outer catch of `isWorkProfile` (WorkProfileModule.java:142-144).** Its only throwing calls are service lookups, which the model reduces to presence flags. So no path of the model reaches it.
- **Lists that are null when a reflective call returns null.** A reflective listing yields a list or throws.
- **The exception message texts of the platform.** They are opaque strings carried into rejection messages.
- **`getActivityList(packageName, user)`.** It is modelled as the user's activity list restricted to the package, not as a second independent query.
- **The React Native bridge and async/await.** This covers `Promise`, `WritableArray`, `WritableMap` and `NativeModules`. Resolve and reject are a `Response` value, and a rejected promise reaches the screen as a thrown error carrying the message.
- **React rendering, `Alert`, `Linking.openURL` and `console.log`.** They are UI and I/O. `openApp` returns what would be shown instead, both Play Store URLs included. The user's choice between Cancel and Open Play Store is not modelled.
- **`fetchAllApps`** (its `hasWorkProfile` call, the `Platform.OS` check and the state updates). It is UI orchestration around the modelled functions.
- **The `localeCompare` sort (App.tsx:118).** Locale collation cannot be stated faithfully.
- **Non-string and non-boolean raw field values on the screen**, other than a numeric version code from react-native-device-info. Raw fields are optional strings, and the work flag is an optional boolean.
- AppScreen.VersionCodeText: a numeric version code is an integer of at most 2^53 - 1 in magnitude. Non-integers, larger numbers (which JavaScript rounds, and writes in exponent form from 1e21 up), NaN and -0 are not modelled. Android version codes are Java ints, well inside that range.
- **Timeouts and concurrency.** The code has none.
