# Photo menu controller, modelled in Dafny

This project models the decision logic of the camera app's photo pie menu
(`PhotoMenu`). The menu is a controller over the camera's preference group,
which maps each setting key to a list preference: a key, its legal entry
values and its current value. The model covers four pieces of behaviour:

- **Menu building.** `initialize` adds an item for a key exactly when the
  group holds that key. The "more" item and the settings item are always
  added.
- **Camera switching.** A click on the camera-switch item moves the camera-id
  preference to the next entry value, wrapping round after the last one. It
  tells the listener the index it selected.
- **HDR / scene-mode exclusion.** When a setting changes, at most one
  corrective write follows. HDR turned to anything but off forces the scene
  mode to auto. Otherwise, a scene mode other than auto forces HDR off.
- **Two-level popup disclosure.** The first-level settings popup is built on
  demand. A second-level popup (a timer picker, or a value list for any other
  preference) opens from it. While one is open, further opens are ignored.
  Dismissing it shows the first level again only when just the top popup
  went.

The controller is the class `Menu.PhotoMenu`. Its fields are the group
(`prefs`), whether the first-level popup exists (`hasPopup`), the
second-level popup (`secondPopup`), the keys of the first-level popup
(`otherKeys`), the items built (`topItems`, `moreItems`) and an event log
(`log`). The log records, in order, the calls the `Event` type lists: those
the menu makes on the UI, the pie controller it extends, the popups and its
listener. A ghost field `initialized` records whether `initialize` has run.
Before it has, the source's group and other-key references are null and the
click handlers do not exist. So every method that reads the group or the
other keys requires `initialized`. Each method
names the fields it may change in a field-level `modifies` clause. It then
states the new value of each of those fields in terms of the old state and
of pure specification functions. The lemmas about those functions (modules
`CameraSwitch` and `SettingRules`) state what the source promises.

Files:

- `camera_settings.dfy`: the setting keys and the automatic scene-mode value.
- `wrappers.dfy`: `Option`, which stands for a reference that may be null.
- `preferences.dfy`: list preferences, the group, and the value-index lookup.
- `camera_switch.dfy`: the camera-switch step and its cycle.
- `setting_rules.dfy`: `notSame`, the conditional write `setPreference`, and
  the HDR / scene-mode correction.
- `photo_menu.dfy`: the menu items, the events and the controller class.

The source's `%` truncates toward zero, but its left operand
(`findIndexOfValue(...) + 1`) is never negative, so Dafny's `%` gives the same
result. A camera-id preference with no entry values makes that `%` divide by
zero. In Java this throws before anything is written or reported. The model
returns `ok == false` and changes nothing.

`onSettingChanged` makes at most one correction. It makes none when HDR is
set to off, none when the scene mode is set to auto, and none for any other
key.

The code keeps two independent popup references, so the model keeps
`hasPopup` and `secondPopup` as separate fields.

`popupDismissed(true)` asks the UI to show the first-level popup even when
that popup was never built. The model records a null popup being shown in
that case.

## Model

| member | source | states |
|---|---|---|
| Preferences.IndexOf | src/com/android/camera/PhotoMenu.java:95 | The index findIndexOfValue reports: -1 exactly when the value is not an entry value; otherwise the first position holding it. |
| CameraSwitch.NextCameraIndex | src/com/android/camera/PhotoMenu.java:95-97 | The next index is below the number of entry values. An unfound current value (index -1) gives 0, the last index wraps to 0, and any other index advances by one. |
| CameraSwitch.SwitchCamera | src/com/android/camera/PhotoMenu.java:95-98 | A click keeps the preference's key and entry values, and its new value is always one of the entry values. |
| CameraSwitch.Switched | src/com/android/camera/PhotoMenu.java:91-99 | Repeated clicks keep the key and entry values, and after at least one click the value is an entry value. |
| CameraSwitch.SwitchCameraStep | src/com/android/camera/PhotoMenu.java:95-98 | When findIndexOfValue reports position i for the current value, one click selects the entry value one place on, from the last position back to the first. |
| CameraSwitch.SwitchedAdvances | src/com/android/camera/PhotoMenu.java:91-99 | With distinct entry values and the current value at position i, after k clicks (k up to the number of values) the value is the entry value k places on from i, counting round from last to first. |
| CameraSwitch.SwitchFullCycle | src/com/android/camera/PhotoMenu.java:91-99 | After as many clicks as there are camera ids, the original camera is selected again. |
| Menu.PhotoMenu.OnCameraSwitchClick | src/com/android/camera/PhotoMenu.java:88-103 | Present with entry values: the camera id moves to the next index, and the listener hears that same index before the item is refreshed. Absent: only the refresh happens. No entry values: the click fails and nothing changes. |
| SettingRules.NotSame | src/com/android/camera/PhotoMenu.java:205-208 | notSame holds exactly when the preference is the one under the key and setting the value on it would change it. |
| SettingRules.NotSameIsWouldChange | src/com/android/camera/PhotoMenu.java:205-216 | For a preference of the group, notSame(pref, key, v) holds exactly when the preference is the one under key and writing v there would change the group. |
| SettingRules.WithValue | src/com/android/camera/PhotoMenu.java:210-216 | setPreference keeps the set of keys and sets the key's value, leaving every other preference unchanged. The group changes exactly when the key is present with another value. |
| SettingRules.WithValueIdempotent | src/com/android/camera/PhotoMenu.java:210-216 | Applying setPreference twice with the same key and value is the same as applying it once. |
| SettingRules.WithValueWellKeyed | src/com/android/camera/PhotoMenu.java:210-216 | setPreference keeps every preference filed under its own key. |
| Menu.PhotoMenu.SetPreference | src/com/android/camera/PhotoMenu.java:210-216 | The group becomes WithValue of the old group. A reload happens exactly when the group changed, and otherwise nothing is logged. |
| SettingRules.Correction | src/com/android/camera/PhotoMenu.java:219-226 | HDR set to anything but off gives the write "scene mode := auto". Otherwise, scene mode set to anything but auto gives "HDR := off". Any other change gives no write. A write never targets the changed preference's own key. |
| SettingRules.AfterSettingChanged | src/com/android/camera/PhotoMenu.java:218-228 | onSettingChanged keeps the keys, never alters the triggering key, and changes at most one preference. It changes nothing for keys other than HDR and scene mode. HDR non-off leaves scene mode (if present) auto, and scene non-auto leaves HDR (if present) off. |
| SettingRules.SettingChangedKeepsExclusive | src/com/android/camera/PhotoMenu.java:220-226 | After a change to HDR or scene mode, HDR on and scene mode non-auto never hold together. After any other change the exclusion is kept if it held before. |
| SettingRules.CorrectionIsFinal | src/com/android/camera/PhotoMenu.java:210-226 | The preference the correction wrote, if handed back to onSettingChanged, calls for no further correction, so corrections cannot oscillate. |
| Menu.PhotoMenu.OnSettingChanged | src/com/android/camera/PhotoMenu.java:218-228 | The group becomes AfterSettingChanged of the old group. At most one reload happens, only when a write happened, and then the listener is notified. |
| Menu.PhotoMenu.OnListPrefChanged | src/com/android/camera/PhotoMenu.java:165-173 | With both popups present, the top popup is dismissed and the first-level popup reloads. Then the change goes through onSettingChanged, with the same effect on the group. |
| Menu.TopItems | src/com/android/camera/PhotoMenu.java:72-115 | A flash, exposure, camera-switch or HDR item is on the pie exactly when its key is in the group. "More" is always there, and nothing else is. |
| Menu.MoreItems | src/com/android/camera/PhotoMenu.java:116-154 | A white-balance, location or scene-mode item is under "more" exactly when its key is in the group. The settings item is always there and comes last, and nothing else is. |
| Menu.PieItems | src/com/android/camera/PhotoMenu.java:72-115 | Adding the top-level items one key at a time gives TopItems of the group. |
| Menu.MoreSettingItems | src/com/android/camera/PhotoMenu.java:116-154 | Adding the nested items one key at a time gives MoreItems of the group. |
| Menu.PhotoMenu.constructor | src/com/android/camera/PhotoMenu.java:59-64 | A new menu is not yet initialized. It has the given off value and secure-camera flag, no popups, no items and an empty log. |
| Menu.PhotoMenu.Initialize | src/com/android/camera/PhotoMenu.java:66-155 | The menu is initialized and takes the group, both popups are absent, the other keys are picture size, focus mode, timer and timer sound, and the items are TopItems and MoreItems of the group. |
| Menu.ReloadEvents | src/com/android/camera/PhotoMenu.java:157-163 | A reload always reloads the pie items, and reloads the first-level popup exactly when it exists. |
| Menu.PhotoMenu.ReloadPreferences | src/com/android/camera/PhotoMenu.java:157-163 | Logs exactly ReloadEvents for the current first-level popup, and changes nothing else. |
| Menu.CreationEvents | src/com/android/camera/PhotoMenu.java:182-195 | Building the first-level popup sets it up with the other keys, and disables the location preference exactly in the secure camera. |
| Menu.PhotoMenu.InitializePopup | src/com/android/camera/PhotoMenu.java:182-195 | Afterwards the first-level popup exists, and the log gains exactly the creation events. |
| Menu.PhotoMenu.OnSettingsClick | src/com/android/camera/PhotoMenu.java:145-153 | The first-level popup is built only if missing, exists afterwards, and is shown. |
| Menu.PhotoMenu.OverrideSettings | src/com/android/camera/PhotoMenu.java:175-180 | The overrides go to the pie items and then to the first-level popup. The popup is built first when missing, so it exists afterwards. |
| Menu.PhotoMenu.PopupDismissed | src/com/android/camera/PhotoMenu.java:197-203 | Afterwards there is no second-level popup. With none before, nothing is logged. With one before, the first-level popup is shown again if and only if only the top popup was dismissed. |
| Menu.PhotoMenu.OnPreferenceClicked | src/com/android/camera/PhotoMenu.java:230-254 | With a second-level popup open, nothing changes and nothing is logged. Otherwise the top popup is dismissed, and a second-level popup for the clicked preference is opened and shown. It is the timer kind exactly for the timer key, and the list kind otherwise. |

## Left out

- Android view work is not modelled: layout inflation, resources and label strings, icons, the `R.*` ids, item positions and slot counts, and `setUseSingleIcon` on the scene-mode preference. Items are modelled by kind and key only, and popups by presence and kind.
- The pie controller that `PhotoMenu` extends is not part of this model. `super.initialize`, `super.reloadPreferences`, `super.onSettingChanged`, `super.overrideSettings` and `updateItem` appear only as logged events. Creating items is reduced to adding them to `topItems` and `moreItems`, and `initialize` is assumed to start from an empty pie. How switch items (HDR, location) step through their values on a click is inside the pie controller and is not modelled.
- Calls that change nothing the model keeps are not logged: `setSettingChangedListener(this)` on the popups (PhotoMenu.java:188, 242, 249), the second-level popup's `initialize(pref)` (241, 248), and `makeItem`, `makeSwitchItem` and `addItem` while the pie is built (74-154). The items these add are recorded in `topItems` and `moreItems` instead.
- The popup classes are not part of this model. `reloadPreference`, `overrideSettings` and `setPreferenceEnabled` on them are logged events only.
- The UI's reaction to `dismissPopup` is not modelled. In the running app the UI reports the dismissal back through `popupDismissed`. Here the host calls `PopupDismissed` itself, so `OnListPrefChanged` leaves `secondPopup` as it was.
- The list preference class is not part of this model. `findIndexOfValue` is taken to return the first matching index or -1. `setValue` and `setValueIndex` are taken to replace the current value, with no check of their own.
- The camera settings class is not part of this model. The key strings in `camera_settings.dfy` stand in for its constants, and the model relies only on their being distinct.
- The preference group is shared with the host activity. The model holds it as a value in `prefs`, so writes made by others are not seen, and aliasing of preference objects is not captured. A preference passed to `OnSettingChanged` is a value snapshot.
- The localised "off" string and the secure-camera flag are constructor parameters. No relation between "off" and "auto" is assumed.
- The camera-switch click handler exists only when the camera-id key was present at `initialize`. `OnCameraSwitchClick` can be called at any time after `initialize`, and looks the key up again as the source does.
- Menu.PhotoMenu.OnCameraSwitchClick: the division by zero with no entry values is modelled as `ok == false` with no state change. The exception's effect on the app is not modelled.
- CameraSwitch.SwitchedAdvances: stated for up to one full cycle of clicks and for distinct entry values. With repeated entry values, findIndexOfValue finds the first copy, so the cycle can be shorter.
- The tag string and the `mUI` and `mActivity` references are not modelled.
