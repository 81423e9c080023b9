# PermissionX request engine in Dafny

This project models the permission-request orchestration engine of
PermissionX, an Android library. The library accepts a list of permission
names, sorts them into runtime ("normal") permissions and settings-page
("special") permissions, and works through them with a chain of tasks. A
task may ask the platform, ask the app to explain why it needs a permission,
or send the user to the settings page. When the chain ends, the library
reports `allGranted`, the granted list and the denied list to the app.

The model covers the current generation of the engine (`permissionx/`). It
also covers the older generations kept in the repository, each as a module
of its own that reuses the same builder class:

- the `support/` builder, with a chain of two tasks;
- the first chained `library/` generation;
- the chain-less list builders of `library/` (Java) and `kotlin/`;
- the earliest `library/` Kotlin builder.

How the model is built:

- **Builder state.** `Builder.PermissionBuilder` is a class. Its
  `LinkedHashSet` fields are duplicate-free sequences (`OrderedSet`), and
  `State()` gives a value snapshot (`Session`) for the specifications.
- **Platform queries** are fields of an `Android.Platform` value passed in. These cover `isGranted`, the rationale flag, the SDK and target levels, `canDrawOverlays`, `canWrite`, `isExternalStorageManager`, `canRequestPackageInstalls` and `areNotificationsEnabled`.
- **Callbacks.** The source calls user callbacks and the next task directly. Here every operation instead returns the next call as a `Steps.Action`: finish the task, call the explain or forward callback, launch a platform request, open the settings page, ask again, or deliver the result.
- **Specifications.** Each state-changing method is specified against a pure function on `Session`. The properties are proved about those functions.

Modules:

- **android, ordered_set, steps.** Platform constants and queries, insertion-ordered sets, and the actions.
- **builder, chain.** The builder class, its dialog handler and the singly linked task chain.
- **classification.** `PermissionMediator`, `PermissionCollection` and the two library collections.
- **base_task.** The end of a chain: the hand-off to the next task, and the final aggregation with its live re-checks.
- **normal_task, special_tasks.** The eight tasks of the current chain.
- **fragment.** The current invisible fragment's result handlers.
- **support_builder, library_chain.** The support and first chained library generations.
- **list_builder.** The chain-less list builders, their fragments and the earliest builder.

## Model

| member | source | states |
|---|---|---|
| PermissionMediator.Classify | permissionx/src/main/java/com/permissionx/guolindev/PermissionMediator.kt:52-78 | the normal and special sets partition the requested names; every special name other than background location is special; background location is normal exactly on Android 10, or on Android 11 with a target below 11 |
| PermissionMediator.ClassifyDependsOnlyOnNames | permissionx/src/main/java/com/permissionx/guolindev/PermissionMediator.kt:86-88 | two requests with the same names (any order, any repeats, as the vararg overload builds them) classify alike |
| PermissionMediator.Permissions | permissionx/src/main/java/com/permissionx/guolindev/PermissionMediator.kt:52-78 | the loop builds exactly `Classify` |
| PermissionCollection.Collect | permissionx/src/main/java/com/permissionx/guolindev/PermissionCollection.java:67-97 | other names pass through; background location sets the require-flag from Android 11 with a target from 11, joins the set on Android 10, or from Android 11 with a target below 11, and goes to the won't-request set below Android 10; the overlay permission sets its flag from Android M with target M and stays in the set otherwise |
| PermissionCollection.CollectDependsOnlyOnNames | permissionx/src/main/java/com/permissionx/guolindev/PermissionCollection.java:58-60 | the vararg overload: order and repeats of the names do not matter |
| PermissionCollection.Permissions | permissionx/src/main/java/com/permissionx/guolindev/PermissionCollection.java:67-97 | the loop builds exactly `Collect` |
| PermissionCollectionLibrary.Collect | library/src/main/java/com/permissionx/guolindev/PermissionCollection.java:72-95 | the separate-request rule for background location, for the chain-less (SDK 30 and target 30) and the chained (SDK 29 and target 10000) generations, with the won't-request set below SDK 29 |
| PermissionCollectionLibrary.Permissions | library/src/main/java/com/permissionx/guolindev/PermissionCollection.java:72-95 | the chain-less collection loop builds exactly `Collect(false, …)` |
| PermissionCollectionLibrary.PermissionsChained | library/src/main/java/com/permissionx/guolindev/request/PermissionCollection.java:39-55 | the chained collection loop builds exactly `Collect(true, …)` |
| PermissionCollectionLibrary.GenerationsDisagreeOnAndroid11 | library/src/main/java/com/permissionx/guolindev/request/PermissionCollection.java:39-55 | on Android 11 with target 11 one generation asks for background location separately and the other keeps it in the normal set |
| Builder.PermissionBuilder.constructor | permissionx/src/main/java/com/permissionx/guolindev/request/PermissionBuilder.kt:46-51 | a new builder holds the given normal and special sets and empty outcome sets, all duplicate-free |
| Builder.PermissionBuilder.Flagged | support/src/main/java/com/permissionx/guolindev/request/PermissionBuilder.java:155-165 | the support builder starts from the normal set, the background-location flag and the won't-request set |
| Builder.PermissionBuilder.FromList | library/src/main/java/com/permissionx/guolindev/PermissionBuilder.java:126-129 | the list builder starts from the requested list with empty sets |
| Builder.PermissionBuilder.Request | permissionx/src/main/java/com/permissionx/guolindev/request/PermissionBuilder.kt:291-294 | stores the result callback and nothing else, builds the eight-task chain and runs its head, the normal task |
| Builder.PermissionBuilder.StartRequest | permissionx/src/main/java/com/permissionx/guolindev/request/PermissionBuilder.kt:562-578 | the chain holds the eight tasks in the fixed order normal, background location, overlay, write settings, storage manager, install packages, notifications, body sensors background |
| Builder.PermissionBuilder.AddNewTask | permissionx/src/main/java/com/permissionx/guolindev/request/PermissionBuilder.kt:568-575 | each new task is fresh and is appended at the tail |
| Builder.DialogButtons | permissionx/src/main/java/com/permissionx/guolindev/request/PermissionBuilder.kt:363-377 | positive asks again in explain mode and forwards to settings otherwise; the negative button exists only when the dialog has one and finishes the task |
| Builder.PermissionBuilder.ShowHandlePermissionDialog | permissionx/src/main/java/com/permissionx/guolindev/request/PermissionBuilder.kt:339-384 | marks that a dialog was shown; an empty list finishes the task without a dialog; otherwise the dialog is kept, shown with those buttons, and dismissed at once when its permission layout is empty |
| Builder.PermissionBuilder.ShowHandlePermissionDialogFragment | permissionx/src/main/java/com/permissionx/guolindev/request/PermissionBuilder.kt:393-424 | the dialog-fragment overload: the same buttons, the flag set, no current dialog kept |
| Builder.PermissionBuilder.OnDialogDismiss | permissionx/src/main/java/com/permissionx/guolindev/request/PermissionBuilder.kt:378-380 | dismissing forgets the current dialog and changes nothing else |
| Builder.PermissionBuilder.ForwardToSettings | permissionx/src/main/java/com/permissionx/guolindev/request/PermissionBuilder.kt:628-632 | the forward set is replaced by the given names and the settings page is opened |
| Builder.ForwardedNamesAreTheGivenOnes | permissionx/src/main/java/com/permissionx/guolindev/request/PermissionBuilder.kt:628-632 | the new forward set has exactly the given names, without repeats, and in their order when they have none |
| RequestChain.Task.constructor | permissionx/src/main/java/com/permissionx/guolindev/request/BaseTask.java:54-58 | a new task has no successor and owns its explain and forward scopes |
| RequestChain.KindsOf | permissionx/src/main/java/com/permissionx/guolindev/request/RequestChain.kt:38-45 | the kinds of a task list, position by position |
| RequestChain.RequestChain.AddTaskToChain | permissionx/src/main/java/com/permissionx/guolindev/request/RequestChain.kt:38-45 | the task is appended; the head stays and the old tail now links to it |
| RequestChain.RequestChain.RunTask | permissionx/src/main/java/com/permissionx/guolindev/request/RequestChain.kt:50-52 | the head runs first; an empty chain runs nothing |
| RequestChain.RequestChain.RunTaskNonEmpty | library/src/main/java/com/permissionx/guolindev/request/RequestChain.java:56-58 | the head runs first; the Java chain needs a head, so its caller must have added a task |
| BaseTask.Settle | permissionx/src/main/java/com/permissionx/guolindev/request/BaseTask.kt:60-90 | one live re-check: when it applies, a held name joins the granted set and one not held is appended to the denied list |
| BaseTask.TerminalResult | permissionx/src/main/java/com/permissionx/guolindev/request/BaseTask.kt:56-92 | `allGranted` holds iff the denied, permanently denied and won't-request sets are empty and no live re-check fails; `allGranted` iff the denied list is empty |
| BaseTask.TerminalShape | permissionx/src/main/java/com/permissionx/guolindev/request/BaseTask.kt:56-90 | the aggregation only extends: the denied list starts with denied, permanently denied and won't-request in that order, and only live-checked names are appended or newly granted |
| BaseTask.SettleChainExtends | permissionx/src/main/java/com/permissionx/guolindev/request/BaseTask.kt:60-90 | four re-checks in a row only extend the tally |
| BaseTask.SettleExtends | permissionx/src/main/java/com/permissionx/guolindev/request/BaseTask.kt:60-66 | one re-check only extends the tally |
| BaseTask.ExtendsTrans | permissionx/src/main/java/com/permissionx/guolindev/request/BaseTask.kt:60-90 | extension composes |
| BaseTask.TerminalSettlesLiveNames | permissionx/src/main/java/com/permissionx/guolindev/request/BaseTask.kt:60-90 | each applicable live-checked special name ends granted if held and denied otherwise |
| BaseTask.SettleKeeps | permissionx/src/main/java/com/permissionx/guolindev/request/BaseTask.kt:60-90 | a re-check never drops a granted or denied name |
| BaseTask.Finish | permissionx/src/main/java/com/permissionx/guolindev/request/BaseTask.kt:52-96 | runs the next task if there is one, without touching the state; otherwise the granted set becomes the aggregated one and the result is delivered when a callback is set |
| BaseTask.EndOfChain | permissionx/src/main/java/com/permissionx/guolindev/request/BaseTask.kt:55-93 | the loop-free aggregation yields `Terminal`'s granted set and `TerminalResult` |
| BaseTask.TerminalResultJava | permissionx/src/main/java/com/permissionx/guolindev/request/BaseTask.java:74-88 | the older aggregation re-checks background location only, keyed on the require-flag: held, it is granted; otherwise it is appended to the denied list; `allGranted` iff nothing is denied |
| BaseTask.FinishJava | permissionx/src/main/java/com/permissionx/guolindev/request/BaseTask.java:71-90 | the Java `finish`: the next task, or the older aggregation and the delivery |
| RequestNormalPermissions.Scanned | permissionx/src/main/java/com/permissionx/guolindev/request/RequestNormalPermissions.kt:33-42 | the scan adds exactly the held normal names to the granted set and changes nothing else |
| RequestNormalPermissions.RequestList | permissionx/src/main/java/com/permissionx/guolindev/request/RequestNormalPermissions.kt:33-42 | the request list is exactly the normal names not held; it is empty iff all are held |
| RequestNormalPermissions.RequestSpec | permissionx/src/main/java/com/permissionx/guolindev/request/RequestNormalPermissions.kt:32-61 | finishes iff every normal name is held; explains with `beforeRequest` true iff something is missing, some missing name has a rationale and a callback exists, adding the missing names to the denied set; otherwise asks for the whole normal set |
| RequestNormalPermissions.ShouldShowRequestPermissionRationale | permissionx/src/main/java/com/permissionx/guolindev/request/RequestNormalPermissions.kt:63-73 | true iff some name in the list has a rationale |
| RequestNormalPermissions.Scan | permissionx/src/main/java/com/permissionx/guolindev/request/RequestNormalPermissions.kt:33-42 | the scan loop computes `Scanned` and `RequestList` |
| RequestNormalPermissions.Request | permissionx/src/main/java/com/permissionx/guolindev/request/RequestNormalPermissions.kt:32-61 | the method takes `RequestSpec`'s step and leaves `RequestSpec`'s sets |
| RequestNormalPermissions.RequestSpecJava | permissionx/src/main/java/com/permissionx/guolindev/request/RequestNormalPermissions.java:38-64 | the Java task explains only once, before the first request (the one-shot flag is cleared), and ignores the rationale |
| RequestNormalPermissions.RequestJava | library/src/main/java/com/permissionx/guolindev/request/RequestNormalPermissions.java:22-48 | the Java `request` (identical in the chained library) takes `RequestSpecJava`'s step and sets |
| RequestNormalPermissions.RequestAgain | permissionx/src/main/java/com/permissionx/guolindev/request/RequestNormalPermissions.kt:80-88 | asks for the granted names together with the given ones, and finishes iff both are empty |
| RequestBackgroundLocationPermission.RequestSpec | permissionx/src/main/java/com/permissionx/guolindev/request/RequestBackgroundLocationPermission.java:44-78 | below Android 10 background location moves to the won't-request set, and the held / foreground / explain checks still run; the task finishes when background location is held or when no foreground location is held, explains when a callback exists and asks at once otherwise |
| RequestBackgroundLocationPermission.Request | permissionx/src/main/java/com/permissionx/guolindev/request/RequestBackgroundLocationPermission.java:44-78 | the method's step and new state are `RequestSpec`'s |
| RequestSystemAlertWindowPermission.RequestSpec | permissionx/src/main/java/com/permissionx/guolindev/request/RequestSystemAlertWindowPermission.java:39-72 | without the runtime switch the permission counts as granted and leaves the special set; with it, explain iff not held and a callback exists; finish otherwise |
| RequestSystemAlertWindowPermission.Request | permissionx/src/main/java/com/permissionx/guolindev/request/RequestSystemAlertWindowPermission.java:39-72 | the method's step and new state are `RequestSpec`'s |
| RequestWriteSettingsPermission.RequestSpec | permissionx/src/main/java/com/permissionx/guolindev/request/RequestWriteSettingsPermission.kt:31-63 | the same rule for write settings, with `canWrite` |
| RequestWriteSettingsPermission.Request | permissionx/src/main/java/com/permissionx/guolindev/request/RequestWriteSettingsPermission.java:39-72 | the Java twin: the method's step and new state are `RequestSpec`'s |
| RequestManageExternalStoragePermission.Request | permissionx/src/main/java/com/permissionx/guolindev/request/RequestManageExternalStoragePermission.kt:30-55 | explains iff requested, from Android R, not yet a storage manager and a callback exists; finishes otherwise; the state is untouched (the Java twin, RequestManageExternalStoragePermission.java lines 43-70, is the same code) |
| RequestInstallPackagesPermission.Request | permissionx/src/main/java/com/permissionx/guolindev/request/RequestInstallPackagesPermission.kt:30-56 | explains iff requested, from Android O with target O, not allowed yet and a callback exists; finishes otherwise |
| RequestNotificationPermission.Request | permissionx/src/main/java/com/permissionx/guolindev/request/RequestNotificationPermission.kt:28-48 | explains iff requested, notifications disabled and a callback exists; finishes otherwise |
| RequestBodySensorsBackgroundPermission.RequestSpec | permissionx/src/main/java/com/permissionx/guolindev/request/RequestBodySensorsBackgroundPermission.kt:30-68 | below Android 13 the name moves to the won't-request set and the task finishes; from 13 it finishes when held or when body sensors is not held, explains with a callback and asks at once otherwise |
| RequestBodySensorsBackgroundPermission.Request | permissionx/src/main/java/com/permissionx/guolindev/request/RequestBodySensorsBackgroundPermission.kt:30-68 | the method's step and new state are `RequestSpec`'s |
| SpecialRequestAgain.RequestAgainIgnoresList | permissionx/src/main/java/com/permissionx/guolindev/request/RequestWriteSettingsPermission.kt:65-68 | every special task asks again for its own permission, whatever list the dialog hands back |
| InvisibleFragment.Decide | permissionx/src/main/java/com/permissionx/guolindev/request/InvisibleFragment.kt:359-389 | finish iff the granted set has as many names as the normal set; explain the whole denied set (parking the round's permanent refusals) iff a callback exists and this round has refusals with a rationale; forward the permanently denied set iff the callback exists and there are parked or new permanent refusals |
| InvisibleFragment.Parked | permissionx/src/main/java/com/permissionx/guolindev/request/InvisibleFragment.kt:379-380 | after an explain, the temporary set gains the round's permanent refusals; nothing else changes |
| InvisibleFragment.EndOfRound | permissionx/src/main/java/com/permissionx/guolindev/request/InvisibleFragment.kt:394-400 | except when the round finished at once, the dialog flag is reset after the callback; nothing else changes |
| InvisibleFragment.NormalResultSets | permissionx/src/main/java/com/permissionx/guolindev/request/InvisibleFragment.kt:322-358 | a name ends granted iff reported granted or refused and found held on the live re-check; reported grants leave both refusal sets; a refusal without rationale is permanent; the re-check never touches the permanent set |
| InvisibleFragment.NormalResultKeepsWf | permissionx/src/main/java/com/permissionx/guolindev/request/InvisibleFragment.kt:322-358 | the handler keeps every set duplicate-free |
| InvisibleFragment.GrantedAndPermanentlyDenied | permissionx/src/main/java/com/permissionx/guolindev/request/InvisibleFragment.kt:353-357 | a concrete round where a name ends both granted and permanently denied: the sets are not kept disjoint |
| InvisibleFragment.ReportedGrantsFinish | permissionx/src/main/java/com/permissionx/guolindev/request/InvisibleFragment.kt:359-361 | when every normal name is reported granted, the handler finishes the task |
| InvisibleFragment.ReportedGrantsCount | permissionx/src/main/java/com/permissionx/guolindev/request/InvisibleFragment.kt:359 | in that case the granted set has exactly as many names as the normal set |
| InvisibleFragment.ReportedGrantsMember | permissionx/src/main/java/com/permissionx/guolindev/request/InvisibleFragment.kt:322-358 | in that case the granted set is exactly the normal set |
| InvisibleFragment.RecordStep | permissionx/src/main/java/com/permissionx/guolindev/request/InvisibleFragment.kt:327-347 | one result: a grant leaves both refusal sets; a refusal with rationale joins the denied set and the show-reason list; a refusal without one becomes permanent and joins the forward list |
| InvisibleFragment.RecordedGranted | permissionx/src/main/java/com/permissionx/guolindev/request/InvisibleFragment.kt:322-347 | after the loop a name is granted iff some entry reports it granted |
| InvisibleFragment.RecordedLists | permissionx/src/main/java/com/permissionx/guolindev/request/InvisibleFragment.kt:327-347 | the show-reason and forward lists hold exactly the refusals with and without rationale |
| InvisibleFragment.RecordedSides | permissionx/src/main/java/com/permissionx/guolindev/request/InvisibleFragment.kt:327-347 | where a name's last report puts it in the denied and permanently denied sets |
| InvisibleFragment.RecheckedMembers | permissionx/src/main/java/com/permissionx/guolindev/request/InvisibleFragment.kt:348-358 | the live re-check moves exactly the held names of its snapshot from denied to granted |
| InvisibleFragment.RecordedNoDup | permissionx/src/main/java/com/permissionx/guolindev/request/InvisibleFragment.kt:327-347 | recording keeps the sets duplicate-free |
| InvisibleFragment.RecheckedNoDup | permissionx/src/main/java/com/permissionx/guolindev/request/InvisibleFragment.kt:348-358 | the re-check keeps the sets duplicate-free |
| InvisibleFragment.ResultForEntry | permissionx/src/main/java/com/permissionx/guolindev/request/InvisibleFragment.kt:327 | a name's last reported result is one of the entries, and the only one when names are distinct |
| InvisibleFragment.RecordResults | permissionx/src/main/java/com/permissionx/guolindev/request/InvisibleFragment.kt:327-347 | the recording loop computes `Recorded` |
| InvisibleFragment.RecheckDenied | permissionx/src/main/java/com/permissionx/guolindev/request/InvisibleFragment.kt:348-358 | the re-check loop computes `Rechecked` |
| InvisibleFragment.ApplyNormalResult | permissionx/src/main/java/com/permissionx/guolindev/request/InvisibleFragment.kt:318-389 | the builder's sets and the decision are `NormalResult`'s |
| InvisibleFragment.SingleResult | permissionx/src/main/java/com/permissionx/guolindev/request/InvisibleFragment.kt:408-458 | background location: granted moves the name to the granted set and finishes; refused explains iff a callback exists and the name has a rationale, else forwards just that name iff the forward callback exists |
| InvisibleFragment.SingleResultKeepsStaleFlag | permissionx/src/main/java/com/permissionx/guolindev/request/InvisibleFragment.kt:612-662 | the single-name handlers never reset the dialog flag, so a flag left over from an earlier round keeps them from finishing after a callback |
| InvisibleFragment.CallbackOf | permissionx/src/main/java/com/permissionx/guolindev/request/InvisibleFragment.kt:365-388 | an explain decision calls the explain callback and a forward decision the forward callback, with the decided list |
| InvisibleFragment.ScreenResult | permissionx/src/main/java/com/permissionx/guolindev/request/InvisibleFragment.kt:463-607 | back from a settings screen: finish when the platform predates the screen or the permission is now held; otherwise explain when a callback exists and do nothing when none does |
| InvisibleFragment.ScreenNow | permissionx/src/main/java/com/permissionx/guolindev/request/InvisibleFragment.kt:182-275 | the screen launched is the one for the task's kind |
| InvisibleFragment.ScreenNowFinishesWithoutScreen | permissionx/src/main/java/com/permissionx/guolindev/request/InvisibleFragment.kt:262-275 | without a screen the task finishes at once; a screen is opened only where the platform has it and, for the switch permissions, only when not held |
| InvisibleFragment.Zip | permissionx/src/main/java/com/permissionx/guolindev/request/InvisibleFragment.java:164-184 | each name is paired with whether its code is `PERMISSION_GRANTED` |
| InvisibleFragment.ScreenNowJava | permissionx/src/main/java/com/permissionx/guolindev/request/InvisibleFragment.java:104-113 | the overlay screen opens iff overlays are not allowed; otherwise the result handler runs at once |
| InvisibleFragment.RecordArrays | permissionx/src/main/java/com/permissionx/guolindev/request/InvisibleFragment.java:164-184 | the Java loop over the result arrays computes `Recorded` on the zipped entries |
| InvisibleFragment.ApplyNormalResultJava | permissionx/src/main/java/com/permissionx/guolindev/request/InvisibleFragment.java:157-232 | the Java handler's sets and decision are `NormalResult`'s on the zipped entries |
| InvisibleFragment.InvisibleFragment.constructor | permissionx/src/main/java/com/permissionx/guolindev/request/InvisibleFragment.kt:669-678 | a new fragment holds no builder and no task |
| InvisibleFragment.InvisibleFragment.RequestNow | permissionx/src/main/java/com/permissionx/guolindev/request/InvisibleFragment.kt:152-160 | keeps the builder and the task and launches the runtime dialog for the names |
| InvisibleFragment.InvisibleFragment.RequestSingleNow | permissionx/src/main/java/com/permissionx/guolindev/request/InvisibleFragment.kt:169-176 | the same for one name (background location or body sensors background) |
| InvisibleFragment.InvisibleFragment.RequestScreenNow | permissionx/src/main/java/com/permissionx/guolindev/request/InvisibleFragment.kt:182-275 | keeps the builder and the task and launches `ScreenNow` |
| InvisibleFragment.InvisibleFragment.OnRequestNormalPermissionsResult | permissionx/src/main/java/com/permissionx/guolindev/request/InvisibleFragment.kt:318-389 | does nothing once the builder or task is gone; otherwise leaves `NormalResult`'s state and decision |
| InvisibleFragment.InvisibleFragment.ResumeNormalRound | permissionx/src/main/java/com/permissionx/guolindev/request/InvisibleFragment.kt:379-396 | parks the permanent refusals after an explain and finishes iff the round finished, nothing was handled or no dialog was shown |
| InvisibleFragment.InvisibleFragment.EndNormalRound | permissionx/src/main/java/com/permissionx/guolindev/request/InvisibleFragment.kt:397-400 | the flag reset that ends a round |
| InvisibleFragment.InvisibleFragment.OnRequestSingleResult | permissionx/src/main/java/com/permissionx/guolindev/request/InvisibleFragment.kt:612-662 | does nothing once the builder or task is gone; otherwise leaves `SingleResult`'s state and decision |
| InvisibleFragment.InvisibleFragment.ResumeSingleResult | permissionx/src/main/java/com/permissionx/guolindev/request/InvisibleFragment.kt:451-454 | finishes iff granted, unhandled or no dialog was shown |
| InvisibleFragment.InvisibleFragment.OnRequestScreenResult | permissionx/src/main/java/com/permissionx/guolindev/request/InvisibleFragment.kt:463-607 | does nothing once the builder or task is gone; otherwise takes `ScreenResult`'s step |
| InvisibleFragment.InvisibleFragment.OnSettingsResult | permissionx/src/main/java/com/permissionx/guolindev/request/InvisibleFragment.kt:137-142 | back from the app's settings page: asks again for the forwarded names, if the builder and task are still there |
| InvisibleFragment.InvisibleFragment.OnDestroy | permissionx/src/main/java/com/permissionx/guolindev/request/InvisibleFragment.kt:303-313 | dismisses the current dialog iff the builder is there, holds one and it is showing |
| InvisibleFragment.InvisibleFragment.RequestSystemAlertWindowPermissionNowJava | permissionx/src/main/java/com/permissionx/guolindev/request/InvisibleFragment.java:104-113 | keeps the builder and task and launches `ScreenNowJava` |
| InvisibleFragment.InvisibleFragment.OnRequestPermissionsResultJava | permissionx/src/main/java/com/permissionx/guolindev/request/InvisibleFragment.java:116-122 | dispatch on the request code: normal results go through `NormalResult`, background location through `SingleResult` with the live answer, anything else does nothing |
| InvisibleFragment.InvisibleFragment.OnActivityResultJava | permissionx/src/main/java/com/permissionx/guolindev/request/InvisibleFragment.java:128-141 | the settings code asks again for the forwarded names, the overlay code takes `ScreenResult`'s step, anything else does nothing |
| RequestBackgroundLocationFlagged.Request | support/src/main/java/com/permissionx/guolindev/request/RequestBackgroundLocationPermission.java:43-66 | with the require-flag and foreground location held: explain with a callback, ask at once without; in every other case finish; the state is untouched |
| RequestBackgroundLocationFlagged.RequestAgainIgnoresList | support/src/main/java/com/permissionx/guolindev/request/RequestBackgroundLocationPermission.java:69-72 | asking again always asks for background location |
| RequestBackgroundLocationFlagged.AsksAgainWhenAlreadyHeld | support/src/main/java/com/permissionx/guolindev/request/RequestBackgroundLocationPermission.java:43-66 | the flag-driven task asks again for background location that is already held, where the current task finishes |
| RequestBackgroundLocationFlagged.AgreesWithCurrentWhenNotHeld | library/src/main/java/com/permissionx/guolindev/request/RequestBackgroundLocationPermission.java:27-50 | where background location is not held and the flag agrees with the special set, the flag-driven task takes the current task's step |
| SupportBuilder.Request | support/src/main/java/com/permissionx/guolindev/request/PermissionBuilder.java:238-247 | stores the callback and runs a chain of exactly normal then background location |
| SupportBuilder.ShowHandlePermissionDialog | support/src/main/java/com/permissionx/guolindev/request/PermissionBuilder.java:275-316 | the support dialog handler: flag always set; an empty list finishes; otherwise kept and shown with the current buttons, never dismissed at once |
| ChainedLibrary.RequestAgain | library/src/main/java/com/permissionx/guolindev/request/RequestNormalPermissions.java:56-60 | asks for the granted names together with the given ones, without checking that any remain |
| ChainedLibrary.RequestAgainAgreesWithCurrent | library/src/main/java/com/permissionx/guolindev/request/RequestNormalPermissions.java:56-60 | it agrees with the current task except when both are empty, where it launches an empty request and the current one finishes |
| ChainedLibrary.DecideLive | library/src/main/java/com/permissionx/guolindev/request/InvisibleFragment.java:108-134 | finish iff the granted count equals the normal count; explain the denied set iff a callback exists and it is non-empty; forward the permanently denied set iff the callback exists and it is non-empty |
| ChainedLibrary.LiveResultSets | library/src/main/java/com/permissionx/guolindev/request/InvisibleFragment.java:85-107 | the handler ignores the reported arrays: a normal name is granted iff held now, denied iff not held with a rationale, permanently denied iff not held without one (or already so) |
| ChainedLibrary.LiveResultsDistinct | library/src/main/java/com/permissionx/guolindev/request/InvisibleFragment.java:85-107 | the live entries have distinct names when the normal set does |
| ChainedLibrary.LiveGrantEntry | library/src/main/java/com/permissionx/guolindev/request/InvisibleFragment.java:85-107 | a live entry reports a grant iff the name is normal and held |
| ChainedLibrary.LiveResultFor | library/src/main/java/com/permissionx/guolindev/request/InvisibleFragment.java:85-107 | each normal name's live result is the platform's answer |
| ChainedLibrary.FinishesIffAllHeld | library/src/main/java/com/permissionx/guolindev/request/InvisibleFragment.java:108-110 | the live handler finishes iff every normal name is held |
| ChainedLibrary.ExplainGetsLiveRationaleRefusals | library/src/main/java/com/permissionx/guolindev/request/InvisibleFragment.java:113-121 | the explain callback receives exactly the normal names not held that have a rationale |
| ChainedLibrary.BackgroundResult | library/src/main/java/com/permissionx/guolindev/request/InvisibleFragment.java:138-178 | below Android 10 nothing happens; held moves the name to granted and finishes; refused explains with a rationale and a callback, else forwards it when the forward callback exists and the permanently denied set is non-empty |
| ChainedLibrary.ForwardKeyedOnEarlierRefusals | library/src/main/java/com/permissionx/guolindev/request/InvisibleFragment.java:162-168 | the forward test reads the builder's permanently denied set, not this refusal, so a first permanent refusal is not forwarded where the current handler forwards it |
| ChainedLibrary.SmallerWhenOneMissing | library/src/main/java/com/permissionx/guolindev/request/InvisibleFragment.java:108 | a proper subset has fewer names, so the granted count falls short when one normal name is missing |
| ChainedLibrary.SubsetCard | library/src/main/java/com/permissionx/guolindev/request/InvisibleFragment.java:108 | a subset is no larger |
| ChainedLibrary.ChainedFragment.constructor | library/src/main/java/com/permissionx/guolindev/request/InvisibleFragment.java:46-50 | a new fragment holds no builder |
| ChainedLibrary.ChainedFragment.RequestNow | library/src/main/java/com/permissionx/guolindev/request/InvisibleFragment.java:46-50 | keeps the builder and launches the runtime dialog |
| ChainedLibrary.ChainedFragment.RequestBackgroundLocationPermissionNow | library/src/main/java/com/permissionx/guolindev/request/InvisibleFragment.java:52-58 | keeps the builder and asks for background location from Android 10 on only |
| ChainedLibrary.ChainedFragment.OnRequestNormalPermissionsResult | library/src/main/java/com/permissionx/guolindev/request/InvisibleFragment.java:85-136 | the builder's sets and decision are `LiveNormalResult`'s |
| ChainedLibrary.ChainedFragment.OnRequestBackgroundLocationPermissionResult | library/src/main/java/com/permissionx/guolindev/request/InvisibleFragment.java:138-178 | the builder's sets and decision are `BackgroundResult`'s |
| ChainedLibrary.ChainedFragment.ResumeAfterCallback | library/src/main/java/com/permissionx/guolindev/request/InvisibleFragment.java:130-134 | hands on iff finished, unhandled or no dialog was shown |
| ChainedLibrary.ChainedFragment.OnActivityResult | library/src/main/java/com/permissionx/guolindev/request/InvisibleFragment.java:73-83 | back from settings the builder asks again for the forwarded names; otherwise nothing |
| ListBuilder.RequestList | library/src/main/java/com/permissionx/guolindev/PermissionBuilder.java:185-192 | the names of the list not held; empty iff all are held |
| ListBuilder.ScannedGranted | library/src/main/java/com/permissionx/guolindev/PermissionBuilder.java:185-192 | the held names of the list join the granted set |
| ListBuilder.RequestSpec | library/src/main/java/com/permissionx/guolindev/PermissionBuilder.java:183-210 | delivers `allGranted` with the whole list iff every name is held; explains the missing names once, before the first request, when a callback exists; otherwise asks for the whole list |
| ListBuilder.AgreesWithNormalTask | library/src/main/java/com/permissionx/guolindev/PermissionBuilder.java:183-210 | the list builder's `request` is the Java normal task's, run on the whole list, with a result delivered in place of finishing |
| ListBuilder.Scan | library/src/main/java/com/permissionx/guolindev/PermissionBuilder.java:185-192 | the scan loop computes `ScannedGranted` and `RequestList` |
| ListBuilder.Request | kotlin/src/main/java/com/permissionx/guolindev/PermissionBuilder.kt:154-178 | stores the callback and takes `RequestSpec`'s step, leaving its sets |
| ListBuilder.RequestAgain | library/src/main/java/com/permissionx/guolindev/PermissionBuilder.java:220-231 | an empty list cancels; without a callback nothing happens; otherwise the request list is the granted list followed by the given names |
| ListBuilder.RequestAgainKotlin | kotlin/src/main/java/com/permissionx/guolindev/PermissionBuilder.kt:189-200 | the same, with the names united as a set, without repeats |
| ListBuilder.RequestAgainRepeatsGrantedNames | kotlin/src/main/java/com/permissionx/guolindev/PermissionBuilder.kt:189-200 | both ask for the same names, but the Java list repeats a name that is both granted and given |
| ListBuilder.DialogFilter | library/src/main/java/com/permissionx/guolindev/PermissionBuilder.java:246-251 | the dialog keeps exactly the given names that were requested and are not granted |
| ListBuilder.DialogFilterKeepsOrder | kotlin/src/main/java/com/permissionx/guolindev/PermissionBuilder.kt:226-228 | the filter keeps the given order |
| ListBuilder.PositiveAction | library/src/main/java/com/permissionx/guolindev/PermissionBuilder.java:259-268 | positive asks again in explain mode and forwards to settings otherwise, with the filtered names |
| ListBuilder.DialogJava | library/src/main/java/com/permissionx/guolindev/PermissionBuilder.java:252-276 | an empty filtered list cancels without a dialog; otherwise cancelable, and with a negative button that cancels, iff the negative text is non-empty |
| ListBuilder.DialogKotlin | kotlin/src/main/java/com/permissionx/guolindev/PermissionBuilder.kt:229-247 | the same, but cancelable iff the negative text is null or blank, and with a negative button iff it is non-null |
| ListBuilder.CancelableRulesDisagree | kotlin/src/main/java/com/permissionx/guolindev/PermissionBuilder.kt:235 | the two cancelable rules give opposite answers except on a non-empty blank text |
| ListBuilder.FilterLoop | library/src/main/java/com/permissionx/guolindev/PermissionBuilder.java:246-251 | the filter loop computes `DialogFilter` |
| ListBuilder.ShowHandlePermissionDialog | library/src/main/java/com/permissionx/guolindev/PermissionBuilder.java:244-278 | sets the dialog flag and shows `DialogJava` on the filtered names |
| ListBuilder.ShowHandlePermissionDialogKotlin | kotlin/src/main/java/com/permissionx/guolindev/PermissionBuilder.kt:218-250 | sets the dialog flag and shows `DialogKotlin` on the filtered names |
| ListBuilder.ForwardToSettings | library/src/main/java/com/permissionx/guolindev/PermissionBuilder.java:311-317 | the given names are appended to the forward list and the settings page is opened |
| ListBuilder.OnPermissionDialogCancel | library/src/main/java/com/permissionx/guolindev/PermissionBuilder.java:323-330 | with a callback, delivers the granted list and the denied then permanently denied names, `allGranted` iff both are empty; without one, nothing |
| ListFragment.ReportedResults | library/src/main/java/com/permissionx/guolindev/InvisibleFragment.java:50-52 | the handler pairs the first `grantResults.length` names with whether their code is granted |
| ListFragment.DecideList | library/src/main/java/com/permissionx/guolindev/InvisibleFragment.java:75-96 | finish iff the granted count equals the list's length; explain this round's rationale refusals iff a callback exists and there are some; forward this round's permanent refusals iff the callback exists and there are some |
| ListFragment.Delivery | library/src/main/java/com/permissionx/guolindev/InvisibleFragment.java:75-108 | nothing iff no callback, or a callback was called and it showed a dialog; a finished round delivers `allGranted` with the whole list; otherwise the granted and refused names |
| ListFragment.ListResultSets | library/src/main/java/com/permissionx/guolindev/InvisibleFragment.java:50-74 | the granted set is exactly this round's grants; the denied and permanently denied sets follow each name's last report and are kept for names not reported |
| ListFragment.GrantedNeverRefused | library/src/main/java/com/permissionx/guolindev/InvisibleFragment.java:49-74 | with distinct names in the result, a granted name is in neither refusal set |
| ListFragment.AllGrantedIffEveryNameGranted | library/src/main/java/com/permissionx/guolindev/InvisibleFragment.java:75-79 | for a duplicate-free list the round finishes iff every listed name is reported granted |
| ListFragment.RoundGrantCount | library/src/main/java/com/permissionx/guolindev/InvisibleFragment.java:75 | the count test is that membership condition |
| ListFragment.RoundGrantMember | library/src/main/java/com/permissionx/guolindev/InvisibleFragment.java:49-74 | a name is granted after the round iff listed and reported granted |
| ListFragment.RepeatedNameNeverAllGranted | library/src/main/java/com/permissionx/guolindev/InvisibleFragment.java:75-79 | a list naming one permission twice never counts as all granted, even when it is granted, and the user receives a refusal with an empty denied list |
| ListFragment.CancelMatchesUnhandledDelivery | library/src/main/java/com/permissionx/guolindev/PermissionBuilder.java:323-330 | cancelling the dialog delivers the same lists as an unhandled round, though its `allGranted` may be true |
| ListFragment.RecordGrantResults | library/src/main/java/com/permissionx/guolindev/InvisibleFragment.java:47-74 | the recording loop leaves the round's three sets and two lists |
| ListFragment.ListInvisibleFragment.constructor | library/src/main/java/com/permissionx/guolindev/InvisibleFragment.java:38-41 | a new fragment holds no builder |
| ListFragment.ListInvisibleFragment.RequestNow | library/src/main/java/com/permissionx/guolindev/InvisibleFragment.java:38-41 | keeps the builder and asks the platform for the list |
| ListFragment.ListInvisibleFragment.OnRequestPermissionsResult | library/src/main/java/com/permissionx/guolindev/InvisibleFragment.java:44-96 | for the permission code the builder's sets and decision are `ListResult`'s; any other code changes nothing |
| ListFragment.ListInvisibleFragment.AfterCallback | library/src/main/java/com/permissionx/guolindev/InvisibleFragment.java:97-108 | the result callback runs as `Delivery` says |
| ListFragment.ListInvisibleFragment.OnActivityResult | library/src/main/java/com/permissionx/guolindev/InvisibleFragment.java:117-127 | the settings code asks again for the forwarded names when the builder is there; otherwise nothing |
| ListFragment.ListInvisibleFragmentKotlin.constructor | library/src/main/java/com/permissionx/guolindev/InvisibleFragment.kt:100-107 | a new fragment holds no builder and no result callback |
| ListFragment.ListInvisibleFragmentKotlin.RequestNow | library/src/main/java/com/permissionx/guolindev/InvisibleFragment.kt:100-107 | keeps the builder and its own copies of the callbacks, and asks for the list |
| ListFragment.ListInvisibleFragmentKotlin.OnRequestPermissionsResult | library/src/main/java/com/permissionx/guolindev/InvisibleFragment.kt:116-176 | `ListResult` on the fragment's callbacks for the permission code; any other code changes nothing |
| ListFragment.ListInvisibleFragmentKotlin.AfterCallback | library/src/main/java/com/permissionx/guolindev/InvisibleFragment.kt:164-173 | delivers as `Delivery` says; nothing iff a callback was called and showed a dialog |
| ListFragment.ListInvisibleFragmentKotlin.OnActivityResult | library/src/main/java/com/permissionx/guolindev/InvisibleFragment.kt:181-187 | the settings code asks again for the forwarded names; otherwise nothing |
| EarliestBuilder.RequestSpec | library/src/main/java/com/permissionx/guolindev/PermissionBuilder.kt:79-98 | delivers `allGranted` iff every name is held; explains every name once before the first request when the callback exists; otherwise asks for the list; no set changes |
| EarliestBuilder.CheckAllGranted | library/src/main/java/com/permissionx/guolindev/PermissionBuilder.kt:81-87 | the loop that stops at the first name not held answers whether all are held |
| EarliestBuilder.Request | library/src/main/java/com/permissionx/guolindev/PermissionBuilder.kt:79-98 | stores the callback and takes `RequestSpec`'s step |
| EarliestBuilder.RequestAgain | library/src/main/java/com/permissionx/guolindev/PermissionBuilder.kt:66-70 | runs `request` again with the stored callback; without one nothing happens and nothing changes |
| EarliestBuilder.ExplainsHeldNamesToo | library/src/main/java/com/permissionx/guolindev/PermissionBuilder.kt:88-93 | the earliest builder explains held names too, where the list builder explains only the missing ones |
| EarliestBuilder.ShowRequestReasonDialog | library/src/main/java/com/permissionx/guolindev/PermissionBuilder.kt:41-50 | a non-cancelable dialog without a negative button whose positive asks again for the names |
| EarliestBuilder.ShowForwardToSettingsDialog | library/src/main/java/com/permissionx/guolindev/PermissionBuilder.kt:52-64 | a non-cancelable dialog whose positive opens the settings page and whose negative button, present iff the text is non-null, does nothing |
| EarliestBuilder.DialogsIgnoreTheirExtraArgument | library/src/main/java/com/permissionx/guolindev/PermissionBuilder.kt:41-64 | the reason dialog ignores its negative text and the settings dialog ignores its names |

## Left out

- Android plumbing is not modelled. This covers activity-result launchers, intents, fragment transactions, the orientation lock, the handler posting, and removal of the invisible fragment at the end of a request.
- Platform queries (`isGranted`, the rationale flag, SDK and target levels, the settings switches) are oracle values. They do not change during an operation. The source queries them live.
- Dialog presentation is not modelled: the default dialog's layout, colours, theme and text. The model keeps only whether the layout is empty and which buttons exist.
- The explain and forward scopes' own dialog calls are not modelled beyond the builder's dialog handler they call. The same goes for the `PermissionX` facade, `init` and the activity/fragment constructor arguments.
- `library/src/main/java/com/permissionx/guolindev/request/PermissionBuilder.java` is unfinished in the repository (its `request` builds no chain). Only the chain, tasks, collection and fragment of that generation are modelled.
- The support generation's normal task, base task and fragment, and the earliest Kotlin builder's fragment, are not part of this model.
- The demo application is not part of this model.
- `HashSet` iteration order (the normal set, the special set and the sets handed to `requestNow`) is modelled as insertion order. The iteration order of the normal set is kept as a sequence, and the theorems hold for any order.
- ListBuilder.IsNullOrBlank: counts only ASCII space, tab, line feed and carriage return as blank, where Kotlin's `isBlank` accepts every Unicode whitespace character.
- ListBuilder.Request: the result callback is assumed non-null; a null callback passed from Java is not modelled.
- EarliestBuilder.Request: the result callback is assumed non-null, as Kotlin's type demands.
- ChainedLibrary.ChainedFragment.OnRequestNormalPermissionsResult: requires a live builder. The source (library/src/main/java/com/permissionx/guolindev/request/InvisibleFragment.java:88) dereferences it without a check and throws when the fragment outlives the builder; that throwing path is not modelled.
- ChainedLibrary.ChainedFragment.OnRequestBackgroundLocationPermissionResult: requires a live builder, for the same reason; the source throws without one.
- ChainedLibrary.ChainedFragment.ResumeAfterCallback: requires a live builder, for the same reason; the source throws without one.
- ListFragment.ListInvisibleFragment.OnRequestPermissionsResult: requires the fragment's builder to be the given live builder. The source (library/src/main/java/com/permissionx/guolindev/InvisibleFragment.java:50-74) dereferences it without a check and throws when it is null; that path is not modelled.
- ListFragment.ListInvisibleFragment.AfterCallback: requires a live builder, for the same reason; the source throws without one.
- ListFragment.ListInvisibleFragmentKotlin.OnRequestPermissionsResult: requires the fragment's `lateinit` builder to be set. The source (library/src/main/java/com/permissionx/guolindev/InvisibleFragment.kt:62) throws `UninitializedPropertyAccessException` when it is not; that path is not modelled.
- ListFragment.ListInvisibleFragmentKotlin.AfterCallback: requires the `lateinit` builder to be set, for the same reason.
- ListFragment.ListInvisibleFragmentKotlin.OnActivityResult: requires the `lateinit` builder to be set on the settings request code (library/src/main/java/com/permissionx/guolindev/InvisibleFragment.kt:185 reads it without a guard); the throwing path is not modelled.
- The earliest builder's `forwardToSettings` (library/src/main/java/com/permissionx/guolindev/PermissionBuilder.kt:72-77) only opens the settings page and records no names. It is not modelled.
- User callbacks are not run: each handler returns the callback to call, and a second method continues once the callback has returned. Callbacks that re-enter the builder (`requestAgain`, dialogs) are separate operations on the same builder.
