# Lemuroid save sync and input classification, in Dafny

This project models three parts of Lemuroid (the Android emulator front end)
and proves properties of them.

- `SaveSyncManager`: the two-way synchroniser between the local save
  directories and the application-private space of a Google Drive account.
  - For each category ("saves", always; "states" and "state-previews" on
    request), `sync` finds or creates a remote folder, lists it page by page
    and indexes both sides by relative path. The remote key is the
    `localPath` property; the local key is the path relative to the category
    root.
  - It then handles each key of either index once. A one-sided key is
    copied to the other side. A pair whose copies differ goes from the newer
    side to the older one, a last-writer-wins rule.
  - Equal timestamps mean "the same". Otherwise different sizes mean
    "different". Otherwise the MD5 digests decide.
  - An error inside one key's action is swallowed, and the pass goes on.
  - The completion time is recorded at the end.
- `getInputClass`: classifies an Android input device by "every bit of the
  mask present" tests, in priority order gamepad, joystick-with-keyboard,
  keyboard.
- `LemudroidInputDeviceJoystick`: a device wrapper that is supported exactly
  when the device has every joystick and keyboard bit and is not virtual.
  All its other capabilities are constants.

Layout:

| file | module | what it holds |
|---|---|---|
| `common.dfy` | `Common` | `Option`, bytes, paths, digests |
| `drive.dfy` | `Drive` | the remote store and the Drive calls (`class RemoteDrive`) |
| `local_fs.dfy` | `LocalFs` | a category root directory (`class LocalDirectory`) |
| `file_index.dfy` | `FileIndex` | `buildRemoteFileMap`, `buildLocalFileMap` |
| `sync_policy.dfy` | `SyncPolicy` | `areFileDifferent` and the action chosen per key |
| `reconcile.dfy` | `Reconcile` | the effect of one key and of a folder pass, as functions on both stores, and what they achieve |
| `save_sync.dfy` | `SaveSync` | folder provisioning and `class SaveSyncManager` with the imperative `sync` |
| `input_source.dfy`, `input_class.dfy`, `joystick_device.dfy` | `InputSource`, `InputClassification`, `JoystickDevice` | the input classifiers |

How the system is represented:

- **Remote store.** The remote store is a sequence of objects. An object's
  id is its position, so ids are never reused, and a listing returns files
  in id order.
- **Local root.** A local category root is a map from relative path to
  entry: directory flag, modification time and bytes.
- **Checksums.** MD5 is an uninterpreted function `md5`. The drive computes
  every stored checksum with it (`ChecksumsMatch`).
- **Faults.** The things that can go wrong are parameters of `Sync`
  (`Faults`): the categories whose listing raises, and the keys whose action
  raises.
- **Folder pass.** The pure function `Reconcile.SyncPass` folds
  `HandleFileSync` over the order in which the keys are visited.
- **Method contracts.** Each imperative method of `SaveSyncManager` states
  its new stores as one of these functions of the old ones:
  - `HandleFileSync` as `Reconcile.HandleFileSync`;
  - `SyncLocalAndRemoteFolder` as the pass `Reconcile.PassFrom` over the
    order it visited;
  - `SyncCategory` as `SaveSync.CategoryRan`: the folder provisioning, then
    that pass unless the listing raised;
  - `Sync` as `CategoryRan` category by category, each from the remote
    store the previous one left.

  The properties are lemmas about the functions:
  - every handled key is reconciled and left settled;
  - skipped and failed keys are untouched;
  - a second pass changes nothing;
  - a pass touches only its own folder;
  - a settled category stays settled while the next categories are synced.

Two behaviours of the code shape the model:

- **Listing errors.** An error raised by the folder listing
  (`SaveSyncManager.kt:85-86`, `251-280`) is outside the per-key
  `runCatching`. It leaves `sync` at once: the later categories are skipped
  and `lastSyncTimestamp` is not written. `SaveSync.SaveSyncManager.Sync`
  returns `Raised(category)` for that case and keeps the old timestamp.
- **Folder provisioning runs even when the listing fails.**
  `getOrCreateAppDataFolder` is evaluated before `syncLocalAndRemoteFolder`.
  So the folder exists, or has been created, even when that category's
  listing then raises.

## Model

| member | source | states |
|---|---|---|
| `InputClassification.GetInputClass` | lemuroid-app/src/main/java/com/swordfish/lemuroid/app/shared/input/inputclass/InputClass.kt:12-20 | no device is Unknown; a device with every gamepad bit is GamePad whatever else it reports |
| `InputClassification.JoystickWhenNotGamePad` | lemuroid-app/src/main/java/com/swordfish/lemuroid/app/shared/input/inputclass/InputClass.kt:15-16 | Joystick exactly when not every gamepad bit is present and every joystick-and-keyboard bit is (both directions) |
| `InputClassification.KeyboardOtherwise` | lemuroid-app/src/main/java/com/swordfish/lemuroid/app/shared/input/inputclass/InputClass.kt:15-18 | Keyboard exactly when neither earlier test holds but every keyboard bit is present; Unknown exactly when neither the gamepad nor the keyboard bits are all present |
| `InputClassification.SomeBitsAreNotEnough` | lemuroid-app/src/main/java/com/swordfish/lemuroid/app/shared/input/inputclass/InputClass.kt:15-17 | concrete examples: the gamepad bit without the button class bit, or the joystick source alone, gives Unknown; a gamepad that also reports joystick bits is still GamePad |
| `InputSource.JoystickKeyboardBits` | lemuroid-app/src/main/java/com/swordfish/lemuroid/app/shared/input/lemuroiddevice/LemudroidInputDeviceJoystick.kt:29 | holding every bit of `SOURCE_JOYSTICK or SOURCE_KEYBOARD` is holding every joystick bit and every keyboard bit |
| `JoystickDevice.LemudroidInputDeviceJoystick.GetCustomizableKeys` | lemuroid-app/src/main/java/com/swordfish/lemuroid/app/shared/input/lemuroiddevice/LemudroidInputDeviceJoystick.kt:12 | the customizable keys are exactly the shared output-key list |
| `JoystickDevice.LemudroidInputDeviceJoystick.GetDefaultBindings` | lemuroid-app/src/main/java/com/swordfish/lemuroid/app/shared/input/lemuroiddevice/LemudroidInputDeviceJoystick.kt:14 | there are no default bindings |
| `JoystickDevice.LemudroidInputDeviceJoystick.GetSupportedShortcuts` | lemuroid-app/src/main/java/com/swordfish/lemuroid/app/shared/input/lemuroiddevice/LemudroidInputDeviceJoystick.kt:25 | there are no supported shortcuts |
| `JoystickDevice.LemudroidInputDeviceJoystick.IsSupported` | lemuroid-app/src/main/java/com/swordfish/lemuroid/app/shared/input/lemuroiddevice/LemudroidInputDeviceJoystick.kt:16-21 | what it means is stated by `JoystickDevice.SupportedIff` and `JoystickDevice.UnsupportedDevices` |
| `JoystickDevice.LemudroidInputDeviceJoystick.IsEnabledByDefault` | lemuroid-app/src/main/java/com/swordfish/lemuroid/app/shared/input/lemuroiddevice/LemudroidInputDeviceJoystick.kt:23 | what it means is stated by `JoystickDevice.NothingByDefault` |
| `JoystickDevice.SupportedIff` | lemuroid-app/src/main/java/com/swordfish/lemuroid/app/shared/input/lemuroiddevice/LemudroidInputDeviceJoystick.kt:16-21 | supported exactly when every joystick bit and every keyboard bit is present and the device is not virtual |
| `JoystickDevice.UnsupportedDevices` | lemuroid-app/src/main/java/com/swordfish/lemuroid/app/shared/input/lemuroiddevice/LemudroidInputDeviceJoystick.kt:16-21 | a virtual device is never supported; joystick bits alone or keyboard bits alone are not enough; both together on a physical device are |
| `JoystickDevice.SupportedDevicesAreJoysticksOrGamePads` | lemuroid-app/src/main/java/com/swordfish/lemuroid/app/shared/input/lemuroiddevice/LemudroidInputDeviceJoystick.kt:16-21 | every supported device is classified as a gamepad or a joystick |
| `JoystickDevice.NothingByDefault` | lemuroid-app/src/main/java/com/swordfish/lemuroid/app/shared/input/lemuroiddevice/LemudroidInputDeviceJoystick.kt:14-25 | never enabled by default, no bindings, no shortcuts |
| `Drive.ListingFacts` | lemuroid-app-ext-play/src/main/java/com/swordfish/lemuroid/ext/feature/savesync/SaveSyncManager.kt:258-266 | a folder listing holds a current snapshot of exactly the folder's non-trashed binary files, each once, in increasing id order |
| `Drive.FullPage` | lemuroid-app-ext-play/src/main/java/com/swordfish/lemuroid/ext/feature/savesync/SaveSyncManager.kt:269-277 | the page of at most `pageSize` files that the server may return: a slice of the listing starting at the token, non-empty when files remain, with a next-page token exactly when files remain after it |
| `Drive.FoldersNamedUpTo` | lemuroid-app-ext-play/src/main/java/com/swordfish/lemuroid/ext/feature/savesync/SaveSyncManager.kt:229-233 | the folder query answers exactly the folders with that name, in increasing id order |
| `Drive.RemoteDrive.ListFiles` | lemuroid-app-ext-play/src/main/java/com/swordfish/lemuroid/ext/feature/savesync/SaveSyncManager.kt:269-274 | one listing request returns a page that satisfies `IsPageOf`: the listing's files from the token on, at most `pageSize` of them, at least one when any remain, and the token of the rest, if any; the model's server chooses full pages, and callers rely only on `IsPageOf` |
| `Drive.RemoteDrive.FindFolders` | lemuroid-app-ext-play/src/main/java/com/swordfish/lemuroid/ext/feature/savesync/SaveSyncManager.kt:229-233 | the folder query's answer |
| `Drive.RemoteDrive.CreateFolder` | lemuroid-app-ext-play/src/main/java/com/swordfish/lemuroid/ext/feature/savesync/SaveSyncManager.kt:239-248 | appends a folder in the application-private root and returns its new id |
| `Drive.RemoteDrive.CreateFile` | lemuroid-app-ext-play/src/main/java/com/swordfish/lemuroid/ext/feature/savesync/SaveSyncManager.kt:156-168 | appends a binary file with the given metadata and content, its checksum computed by the drive, and returns its new id |
| `Drive.RemoteDrive.UpdateFile` | lemuroid-app-ext-play/src/main/java/com/swordfish/lemuroid/ext/feature/savesync/SaveSyncManager.kt:141-145 | replaces one object's content and time and changes nothing else |
| `Drive.RemoteDrive.Download` | lemuroid-app-ext-play/src/main/java/com/swordfish/lemuroid/ext/feature/savesync/SaveSyncManager.kt:202-204 | returns the object's bytes |
| `Drive.ListingAppend` | lemuroid-app-ext-play/src/main/java/com/swordfish/lemuroid/ext/feature/savesync/SaveSyncManager.kt:258-261 | a created object joins the end of the listings it matches and no other |
| `Drive.ListingReplace` | lemuroid-app-ext-play/src/main/java/com/swordfish/lemuroid/ext/feature/savesync/SaveSyncManager.kt:258-261 | an updated object's file is replaced in place in the listing |
| `LocalFs.LocalDirectory.WriteFile` | lemuroid-app-ext-play/src/main/java/com/swordfish/lemuroid/ext/feature/savesync/SaveSyncManager.kt:202-205 | writing over a directory fails and changes nothing; otherwise the path holds a file with the bytes and the time |
| `FileIndex.BuildRemoteFileMap` | lemuroid-app-ext-play/src/main/java/com/swordfish/lemuroid/ext/feature/savesync/SaveSyncManager.kt:208-215 | what it means is stated by `FileIndex.RemoteIndexFacts` and `FileIndex.LastOneWins` |
| `FileIndex.BuildLocalFileMap` | lemuroid-app-ext-play/src/main/java/com/swordfish/lemuroid/ext/feature/savesync/SaveSyncManager.kt:217-223 | what it means is stated by `FileIndex.LocalIndexContents` |
| `FileIndex.RemoteIndexFacts` | lemuroid-app-ext-play/src/main/java/com/swordfish/lemuroid/ext/feature/savesync/SaveSyncManager.kt:208-215 | every listed file with a `localPath` has its key in the index; every value is a listed file stored under its own `localPath` |
| `FileIndex.LastOneWins` | lemuroid-app-ext-play/src/main/java/com/swordfish/lemuroid/ext/feature/savesync/SaveSyncManager.kt:208-215 | with duplicate keys, the index keeps the last listed file: no later file carries that key |
| `FileIndex.LocalIndexContents` | lemuroid-app-ext-play/src/main/java/com/swordfish/lemuroid/ext/feature/savesync/SaveSyncManager.kt:217-223 | a key is in the local index exactly when the entry is a non-directory with at least one byte, and it maps to that file's time and bytes |
| `SyncPolicy.AreFileDifferent` | lemuroid-app-ext-play/src/main/java/com/swordfish/lemuroid/ext/feature/savesync/SaveSyncManager.kt:121-132 | what it means is stated by `SyncPolicy.SamenessIsOrdered` and `SyncPolicy.SameContentMovesNothing` |
| `SyncPolicy.Decide` | lemuroid-app-ext-play/src/main/java/com/swordfish/lemuroid/ext/feature/savesync/SaveSyncManager.kt:105-116 | a download needs a remote file and an upload a local one |
| `SyncPolicy.SamenessIsOrdered` | lemuroid-app-ext-play/src/main/java/com/swordfish/lemuroid/ext/feature/savesync/SaveSyncManager.kt:121-132 | equal times mean "not different"; otherwise unequal sizes mean "different"; otherwise different exactly when the digests differ |
| `SyncPolicy.OneSidedKeysAreCopied` | lemuroid-app-ext-play/src/main/java/com/swordfish/lemuroid/ext/feature/savesync/SaveSyncManager.kt:105-108 | download-new exactly when only the remote side holds the key; upload-new exactly when only the local side does |
| `SyncPolicy.NewerSideWins` | lemuroid-app-ext-play/src/main/java/com/swordfish/lemuroid/ext/feature/savesync/SaveSyncManager.kt:109-116 | for a pair: upload exactly when different and the local side is newer, download exactly when different and the remote side is newer, nothing exactly when not different |
| `SyncPolicy.SameContentMovesNothing` | lemuroid-app-ext-play/src/main/java/com/swordfish/lemuroid/ext/feature/savesync/SaveSyncManager.kt:121-132 | equal size and digest means no transfer, whatever the times |
| `Reconcile.RemoteIndex` | lemuroid-app-ext-play/src/main/java/com/swordfish/lemuroid/ext/feature/savesync/SaveSyncManager.kt:86-87 | every indexed file is a current snapshot of a listed object of the folder, stored under its `localPath` |
| `Reconcile.FileName` | lemuroid-app-ext-play/src/main/java/com/swordfish/lemuroid/ext/feature/savesync/SaveSyncManager.kt:158 | a file name holds no separator and is no longer than the path |
| `Reconcile.FileNameIsLastSegment` | lemuroid-app-ext-play/src/main/java/com/swordfish/lemuroid/ext/feature/savesync/SaveSyncManager.kt:158 | the name is the end of the path, after its last separator |
| `Reconcile.RemoteIndexAppend` | lemuroid-app-ext-play/src/main/java/com/swordfish/lemuroid/ext/feature/savesync/SaveSyncManager.kt:156-168 | a created file joins its folder's index under its `localPath`; no other index changes |
| `Reconcile.RemoteIndexReplace` | lemuroid-app-ext-play/src/main/java/com/swordfish/lemuroid/ext/feature/savesync/SaveSyncManager.kt:141-145 | an update replaces that file's snapshot in the index and nothing else |
| `Reconcile.Upload` | lemuroid-app-ext-play/src/main/java/com/swordfish/lemuroid/ext/feature/savesync/SaveSyncManager.kt:148-169 | the object an upload creates; what it means is stated by `Reconcile.UploadNewOutcome` |
| `Reconcile.DownloadToLocal` | lemuroid-app-ext-play/src/main/java/com/swordfish/lemuroid/ext/feature/savesync/SaveSyncManager.kt:195-206 | the effect of a download; what it means is stated by `Reconcile.DownloadOutcome` |
| `Reconcile.HandleFileSync` | lemuroid-app-ext-play/src/main/java/com/swordfish/lemuroid/ext/feature/savesync/SaveSyncManager.kt:95-119 | the effect of one key on both stores; its contract says only that the remote store never shrinks, and what it achieves is stated by `Reconcile.HandleOutcome` and `Reconcile.SettledIffNoOp` |
| `Reconcile.DownloadOutcome` | lemuroid-app-ext-play/src/main/java/com/swordfish/lemuroid/ext/feature/savesync/SaveSyncManager.kt:195-206 | a download that is not skipped gives the local side the remote time and bytes and leaves the key settled; no other key sees a change |
| `Reconcile.UploadNewOutcome` | lemuroid-app-ext-play/src/main/java/com/swordfish/lemuroid/ext/feature/savesync/SaveSyncManager.kt:148-169 | the created object carries the local time and bytes under the same key, in the category folder; the key is settled and no other key sees a change |
| `Reconcile.UploadUpdateOutcome` | lemuroid-app-ext-play/src/main/java/com/swordfish/lemuroid/ext/feature/savesync/SaveSyncManager.kt:134-146 | the same remote object now carries the local time and bytes; the key is settled and no other key sees a change |
| `Reconcile.HandleOutcome` | lemuroid-app-ext-play/src/main/java/com/swordfish/lemuroid/ext/feature/savesync/SaveSyncManager.kt:95-119 | handling a key reconciles it: the newer side's version is on both sides, or nothing moved when nothing should. It leaves the key settled and changes nothing another key sees |
| `Reconcile.SettledIffNoOp` | lemuroid-app-ext-play/src/main/java/com/swordfish/lemuroid/ext/feature/savesync/SaveSyncManager.kt:95-119 | a key is settled exactly when handling it again leaves both stores unchanged |
| `Reconcile.SyncPass` | lemuroid-app-ext-play/src/main/java/com/swordfish/lemuroid/ext/feature/savesync/SaveSyncManager.kt:85-93 | the effect of a folder pass; its contract says only that the remote store never shrinks, and what it achieves is stated by `Reconcile.SyncPassOutcome`, `Reconcile.PassSettlesEverything` and `Reconcile.SecondPassChangesNothing` |
| `Reconcile.SyncPassStep` | lemuroid-app-ext-play/src/main/java/com/swordfish/lemuroid/ext/feature/savesync/SaveSyncManager.kt:90-92 | helper lemma that unfolds the pass by one key: visiting one more key handles it after all the keys before it, with the indexes taken before the pass |
| `Reconcile.SyncPassOutcome` | lemuroid-app-ext-play/src/main/java/com/swordfish/lemuroid/ext/feature/savesync/SaveSyncManager.kt:85-119 | in a pass visiting each key at most once, a skipped key or one whose action raised is untouched, and every other visited key is reconciled and settled however the others fared |
| `Reconcile.SettledPassIsNoOp` | lemuroid-app-ext-play/src/main/java/com/swordfish/lemuroid/ext/feature/savesync/SaveSyncManager.kt:85-93 | a pass over settled keys changes nothing |
| `Reconcile.PassSettlesEverything` | lemuroid-app-ext-play/src/main/java/com/swordfish/lemuroid/ext/feature/savesync/SaveSyncManager.kt:85-93 | a pass over the union of both indexes leaves every key settled except those whose action raised |
| `Reconcile.CompletePassOutcome` | lemuroid-app-ext-play/src/main/java/com/swordfish/lemuroid/ext/feature/savesync/SaveSyncManager.kt:85-93 | a complete pass changes the remote store only inside its folder, and without failures leaves every key settled |
| `Reconcile.SecondPassChangesNothing` | lemuroid-app-ext-play/src/main/java/com/swordfish/lemuroid/ext/feature/savesync/SaveSyncManager.kt:85-93 | after a fault-free complete pass, a second pass in any order and with any failures changes nothing |
| `Reconcile.SyncPassConfined` | lemuroid-app-ext-play/src/main/java/com/swordfish/lemuroid/ext/feature/savesync/SaveSyncManager.kt:85-93 | a pass only changes objects in its own folder and only creates binary files there |
| `Reconcile.ConfinedRemoteIndex` | lemuroid-app-ext-play/src/main/java/com/swordfish/lemuroid/ext/feature/savesync/SaveSyncManager.kt:85-93 | a pass over one folder leaves every other folder's index unchanged |
| `Reconcile.ConfinedFolders` | lemuroid-app-ext-play/src/main/java/com/swordfish/lemuroid/ext/feature/savesync/SaveSyncManager.kt:229-236 | a pass over one folder leaves every folder query's answer unchanged |
| `SaveSync.ProvisionFolder` | lemuroid-app-ext-play/src/main/java/com/swordfish/lemuroid/ext/feature/savesync/SaveSyncManager.kt:225-249 | the id returned is a folder with the name and no older one exists; nothing is created exactly when such a folder existed; otherwise exactly one folder is appended |
| `SaveSync.FirstFolderIsOldest` | lemuroid-app-ext-play/src/main/java/com/swordfish/lemuroid/ext/feature/savesync/SaveSyncManager.kt:229-237 | the query is empty exactly when no folder has the name; its first answer is the oldest such folder |
| `SaveSync.ProvisionIsIdempotent` | lemuroid-app-ext-play/src/main/java/com/swordfish/lemuroid/ext/feature/savesync/SaveSyncManager.kt:225-249 | a second call returns the same id and creates nothing |
| `SaveSync.ProvisionFrame` | lemuroid-app-ext-play/src/main/java/com/swordfish/lemuroid/ext/feature/savesync/SaveSyncManager.kt:225-249 | provisioning one category changes neither another category's folder query nor any file index |
| `SaveSync.SettledByPass` | lemuroid-app-ext-play/src/main/java/com/swordfish/lemuroid/ext/feature/savesync/SaveSyncManager.kt:52-56 | a pass that settles the provisioned folder leaves the category settled, with the same folder found next time |
| `SaveSync.SettledAfterProvision` | lemuroid-app-ext-play/src/main/java/com/swordfish/lemuroid/ext/feature/savesync/SaveSyncManager.kt:58-69 | provisioning a later category keeps an earlier settled category settled |
| `SaveSync.SettledAfterPass` | lemuroid-app-ext-play/src/main/java/com/swordfish/lemuroid/ext/feature/savesync/SaveSyncManager.kt:58-69 | a pass over a later category's folder keeps an earlier settled category settled |
| `SaveSync.CategoryStepKeepsOthers` | lemuroid-app-ext-play/src/main/java/com/swordfish/lemuroid/ext/feature/savesync/SaveSyncManager.kt:58-69 | provisioning and syncing one category keeps every other settled category settled |
| `SaveSync.CategoryRanReconciles` | lemuroid-app-ext-play/src/main/java/com/swordfish/lemuroid/ext/feature/savesync/SaveSyncManager.kt:85-119 | in a category whose listing did not raise, every key whose action did not raise holds the newer side's version on both sides and is settled, and every key whose action raised is as provisioning left it |
| `SaveSync.EarlierCategoriesStaySettled` | lemuroid-app-ext-play/src/main/java/com/swordfish/lemuroid/ext/feature/savesync/SaveSyncManager.kt:58-69 | syncing "states" and then "state-previews" keeps settled "saves" and "states" categories settled |
| `SaveSync.SaveSyncManager.constructor` | lemuroid-app-ext-play/src/main/java/com/swordfish/lemuroid/ext/feature/savesync/SaveSyncManager.kt:18-26 | the stored timestamp starts at 0; the three category roots are distinct |
| `SaveSync.SaveSyncManager.GetRemoteFiles` | lemuroid-app-ext-play/src/main/java/com/swordfish/lemuroid/ext/feature/savesync/SaveSyncManager.kt:251-280 | the pages requested until no token comes back make up the whole listing, in order, whatever page lengths the server chooses. At least one request is made, no more than one per file when there are files, and no fewer than the listing needs at `pageSize` files a page |
| `SaveSync.SaveSyncManager.GetOrCreateAppDataFolder` | lemuroid-app-ext-play/src/main/java/com/swordfish/lemuroid/ext/feature/savesync/SaveSyncManager.kt:225-249 | returns the id and the new store that `ProvisionFolder` specifies |
| `SaveSync.SaveSyncManager.DownloadToLocal` | lemuroid-app-ext-play/src/main/java/com/swordfish/lemuroid/ext/feature/savesync/SaveSyncManager.kt:195-206 | an empty remote file is skipped; otherwise the local path gets the remote bytes and time (fails on a directory) |
| `SaveSync.SaveSyncManager.OnRemoteOnly` | lemuroid-app-ext-play/src/main/java/com/swordfish/lemuroid/ext/feature/savesync/SaveSyncManager.kt:171-184 | downloads to the path the `localPath` property names |
| `SaveSync.SaveSyncManager.OnRemoteUpdated` | lemuroid-app-ext-play/src/main/java/com/swordfish/lemuroid/ext/feature/savesync/SaveSyncManager.kt:186-193 | downloads over the local file |
| `SaveSync.SaveSyncManager.OnLocalOnly` | lemuroid-app-ext-play/src/main/java/com/swordfish/lemuroid/ext/feature/savesync/SaveSyncManager.kt:148-169 | appends one file in the category folder, named after the local file, with `localPath` set to its relative path and with its time and bytes |
| `SaveSync.SaveSyncManager.OnLocalUpdated` | lemuroid-app-ext-play/src/main/java/com/swordfish/lemuroid/ext/feature/savesync/SaveSyncManager.kt:134-146 | replaces the remote file's bytes and time with the local ones |
| `SaveSync.SaveSyncManager.HandleFileSync` | lemuroid-app-ext-play/src/main/java/com/swordfish/lemuroid/ext/feature/savesync/SaveSyncManager.kt:95-119 | both stores end as `Reconcile.HandleFileSync` specifies; a raising action leaves them unchanged |
| `SaveSync.SaveSyncManager.SyncLocalAndRemoteFolder` | lemuroid-app-ext-play/src/main/java/com/swordfish/lemuroid/ext/feature/savesync/SaveSyncManager.kt:85-93 | a raising listing changes nothing. Otherwise the keys are visited once each, exactly the union of both indexes, and the new stores are that pass. Only the folder changes remotely, and without failures every key is left settled |
| `SaveSync.SaveSyncManager.SyncCategory` | lemuroid-app-ext-play/src/main/java/com/swordfish/lemuroid/ext/feature/savesync/SaveSyncManager.kt:52-56 | the new stores are `CategoryRan` of the old ones: the folder provisioned even when the listing then raises, and otherwise the pass over the provisioned folder in the order returned, which covers both indexes once. A completed category with no failures is settled, and every other settled category stays settled |
| `SaveSync.SaveSyncManager.Sync` | lemuroid-app-ext-play/src/main/java/com/swordfish/lemuroid/ext/feature/savesync/SaveSyncManager.kt:48-73 | no account means no change. Otherwise "saves" is synced, then "states" and "state-previews" only when asked, each as `CategoryRan` from the remote store the previous category left. The first raising listing ends the sync with its category, and the stores of the categories after it stay unchanged. The timestamp is set to now exactly when everything completed. Without failures every synced category is left settled |

## Left out

- Logging (Timber), the Rx `Completable` wrapper and the process-wide lock
  are left out. `sync` is a sequential method.
- The clock is a parameter (`now`). The persisted preference behind
  `lastSyncTimestamp` is an ordinary field.
- Account lookup and client creation (`DriveFactory`, Google sign-in) are
  left out; the missing account is `drive == null`. `getOrCreateAppDataFolder`
  creates its own client. The model takes that client to reach the same
  account as the one passed to `syncLocalAndRemoteFolder`, and does not
  model its failure to obtain one (an `UnsupportedOperationException`).
- The HTTP transport, query strings and field selection are left out.
  Queries are predicates over the objects (`Listed`, `IsFolderNamed`). Page
  tokens are positions in the listing, and a listing returns files in
  creation order.
- A failing folder query or folder creation is not modelled; it would end
  `sync` like a failing listing does. An action that raises is modelled as
  raising before any effect. A download that breaks after it started writing
  is not modelled.
- An upload's MIME type is the one of its media content
  (`application/x-binary`), which the drive records as the object's type.
- `calculateMd5` is the uninterpreted function `md5`.
- The file walk is a given map from relative path to entry. Paths are opaque
  keys: creating parent directories (`mkdirs`) is left out, and so are a
  parent path that is a file and paths that leave the root.
- The lazy `Sequence` of `getRemoteFiles` is modelled as the complete list
  it yields. Its laziness only changes when requests are made, not what the
  pass sees.
- The order in which the keys of the union are visited (the iteration order
  of Kotlin's `LinkedHashSet`) is left open. Every property is proved for
  every order.
- `getSizeHumanReadable`, `computeSavesSpace`, `computeStatesSpace`,
  `getLastSyncInfo`, `getConfigInfo`, `isConfigured`, `isSupported` and
  `getSettingsActivity` of `SaveSyncManager` are left out. They are display
  and settings helpers outside the synchroniser.
- `InputClassJoystick.kt` is not part of this model. Its
  `SOURCE_JOYSTICK_KEYBOARD` is taken to be the same mask as the one in
  `LemudroidInputDeviceJoystick`. `InputDeviceManager.OUTPUT_KEYS` is passed
  in as a parameter. The `InputClass` interface's key and axis maps belong
  to the class objects, which are not part of this model.
- `LocalFs.LocalDirectory.WriteFile`: stamping the downloaded file with the
  remote time (`setLastModified`) is taken to succeed with that exact time.
  Its failure, and a filesystem that rounds times, are not modelled.
- `Reconcile.DownloadOutcome`: relies on the same exact stamp. The
  last-writer-wins comparison after a download assumes the local time equals
  the remote one.
- `Drive.RemoteDrive.ListFiles`: an empty page before the end of a listing
  is not modelled. Every page that is followed by a token holds at least one
  file, and `getRemoteFiles` terminating depends on that.
- `Reconcile.HandleFileSync`, `Reconcile.SyncPass`: their own contracts
  state only that the remote store never shrinks. What they achieve is
  stated by `Reconcile.HandleOutcome`, `Reconcile.SyncPassOutcome` and the
  lemmas after them.
