/** The photo menu controller: it builds the pie menu from the preference
    group, cycles the camera on a camera-switch click, keeps HDR and scene
    mode consistent, and opens and closes the two levels of settings popup.
    Everything it does to the screen or to its collaborators is recorded as
    an event in the order it happens. */
module Menu {

  import opened Wrappers
  import opened CameraSettings
  import opened Preferences
  import opened CameraSwitch
  import opened SettingRules

  /** A pie item: one that opens the choices of a preference, one that
      switches a preference to its next value on each click, the "more"
      item, and the item that opens the settings popup. */
  datatype Item = PrefItem(key: string) | SwitchItem(key: string) | MoreItem | SettingsItem

  /** The second-level popup: a timer picker or a list of values, each
      showing the preference it was opened for. */
  datatype SecondPopup = TimerPopup(key: string) | ListPrefPopup(key: string)

  /** What the UI is asked to show: nothing (a null popup), the first-level
      popup, or a second-level popup. */
  datatype Shown = NullPopup | MorePopup | Second(popup: SecondPopup)

  datatype Event =
    | PieInitialized                          // the pie controller takes the group
    | ShowPopup(shown: Shown)                 // the UI shows a popup
    | DismissPopup(topPopupOnly: bool)        // the UI dismisses the popup
    | CameraPickerClicked(index: int)         // the listener hears of a new camera index
    | UpdateItem(key: string)                 // the pie item of `key` is refreshed
    | ReloadPieItems                          // the pie controller reloads its items
    | ReloadPopup                             // the first-level popup reloads its preferences
    | PopupCreated(keys: seq<string>)         // a first-level popup for `keys` is built
    | PopupPreferenceDisabled(key: string)    // the popup greys out `key`
    | SettingChangedNotified(key: string)     // the listener hears that a setting changed
    | ItemsOverridden(keyvalues: seq<string>) // the pie items take overridden values
    | PopupOverridden(keyvalues: seq<string>) // the first-level popup takes them too

  /** The keys listed in the first-level settings popup. */
  const OtherKeys := [KeyPictureSize, KeyFocusMode, KeyTimer, KeyTimerSoundEffects]

  /** The item for a preference, when the group holds its key. */
  function ItemIf(it: Item, g: Group): seq<Item>
    requires it.PrefItem? || it.SwitchItem?
  {
    if it.key in g then [it] else []
  }

  /** The items the top level offers for the preferences it knows. */
  const TopCandidates := [PrefItem(KeyFlashMode), PrefItem(KeyExposure), SwitchItem(KeyCameraId),
                          SwitchItem(KeyCameraHdr)]

  /** The items "more" offers for the preferences it knows. */
  const MoreCandidates := [PrefItem(KeyWhiteBalance), SwitchItem(KeyRecordLocation), PrefItem(KeySceneMode)]

  /** The items on the pie's top level for a group: a preference's item
      exactly when the group holds its key, and "more" always. */
  function TopItems(g: Group): (items: seq<Item>)
    ensures forall it :: it in items <==> it == MoreItem || (it in TopCandidates && it.key in g)
  {
    ItemIf(PrefItem(KeyFlashMode), g) + ItemIf(PrefItem(KeyExposure), g)
    + ItemIf(SwitchItem(KeyCameraId), g) + ItemIf(SwitchItem(KeyCameraHdr), g)
    + [MoreItem]
  }

  /** The items nested under "more" for a group: a preference's item exactly
      when the group holds its key, and the settings item always, last. */
  function MoreItems(g: Group): (items: seq<Item>)
    ensures forall it :: it in items <==> it == SettingsItem || (it in MoreCandidates && it.key in g)
    ensures |items| > 0 && items[|items| - 1] == SettingsItem
  {
    ItemIf(PrefItem(KeyWhiteBalance), g) + ItemIf(SwitchItem(KeyRecordLocation), g)
    + ItemIf(PrefItem(KeySceneMode), g)
    + [SettingsItem]
  }

  /** The items initialize adds to the pie, in the order it adds them. */
  method PieItems(group: Group) returns (top: seq<Item>)
    ensures top == TopItems(group)
  {
    top := [];
    if KeyFlashMode in group {
      top := top + [PrefItem(KeyFlashMode)];
    }
    assert top == ItemIf(PrefItem(KeyFlashMode), group);
    if KeyExposure in group {
      top := top + [PrefItem(KeyExposure)];
    }
    assert top == ItemIf(PrefItem(KeyFlashMode), group) + ItemIf(PrefItem(KeyExposure), group);
    if KeyCameraId in group {
      top := top + [SwitchItem(KeyCameraId)];
    }
    assert top == ItemIf(PrefItem(KeyFlashMode), group) + ItemIf(PrefItem(KeyExposure), group)
                  + ItemIf(SwitchItem(KeyCameraId), group);
    if KeyCameraHdr in group {
      top := top + [SwitchItem(KeyCameraHdr)];
    }
    assert top == ItemIf(PrefItem(KeyFlashMode), group) + ItemIf(PrefItem(KeyExposure), group)
                  + ItemIf(SwitchItem(KeyCameraId), group) + ItemIf(SwitchItem(KeyCameraHdr), group);
    top := top + [MoreItem];
  }

  /** The items initialize nests under "more", in the order it adds them. */
  method MoreSettingItems(group: Group) returns (more: seq<Item>)
    ensures more == MoreItems(group)
  {
    more := [];
    if KeyWhiteBalance in group {
      more := more + [PrefItem(KeyWhiteBalance)];
    }
    if KeyRecordLocation in group {
      more := more + [SwitchItem(KeyRecordLocation)];
    }
    if KeySceneMode in group {
      more := more + [PrefItem(KeySceneMode)];
    }
    more := more + [SettingsItem];
  }

  /** What reloadPreferences does: the pie items reload, and so does the
      first-level popup when there is one. */
  function ReloadEvents(hasPopup: bool): (es: seq<Event>)
    ensures ReloadPieItems in es
    ensures (ReloadPopup in es) == hasPopup
  {
    [ReloadPieItems] + (if hasPopup then [ReloadPopup] else [])
  }

  /** What building the first-level popup does: it is set up with the other
      keys, and in the secure camera the location preference is disabled. */
  function CreationEvents(keys: seq<string>, secureCamera: bool): (es: seq<Event>)
    ensures PopupCreated(keys) in es
    ensures (PopupPreferenceDisabled(KeyRecordLocation) in es) == secureCamera
  {
    [PopupCreated(keys)] + (if secureCamera then [PopupPreferenceDisabled(KeyRecordLocation)] else [])
  }

  class PhotoMenu {
    /** The localised value meaning "off", as the setting resources give it. */
    const settingOff: string
    /** Whether the camera runs in secure (lock-screen) mode. */
    const secureCamera: bool

    /** The preference group the menu reads and writes. */
    var prefs: Group
    /** Whether the first-level popup exists. */
    var hasPopup: bool
    /** The second-level popup, if one is open. */
    var secondPopup: Option<SecondPopup>
    /** The keys the first-level popup lists. */
    var otherKeys: seq<string>
    /** The items the last initialize put on the pie, and under "more". */
    var topItems: seq<Item>
    var moreItems: seq<Item>
    /** The calls the menu has made that the `Event` type lists, in order. */
    var log: seq<Event>
    /** Whether initialize has run. Until it does, the group and the other
        keys are null and the click handlers do not exist. */
    ghost var initialized: bool

    ghost predicate Valid()
      reads this
    {
      WellKeyed(prefs)
    }

    constructor (settingOff: string, secureCamera: bool)
      ensures Valid()
      ensures this.settingOff == settingOff && this.secureCamera == secureCamera
      ensures prefs == map[] && !hasPopup && secondPopup.None?
      ensures otherKeys == [] && topItems == [] && moreItems == [] && log == []
      ensures !initialized
    {
      this.settingOff := settingOff;
      this.secureCamera := secureCamera;
      prefs := map[];
      hasPopup := false;
      secondPopup := None;
      otherKeys := [];
      topItems := [];
      moreItems := [];
      log := [];
      initialized := false;
    }

    /** Binds the menu to a group, closes both popups and builds the items:
        an item for each key the group holds, "more" always, and the
        settings item always, last under "more". */
    method Initialize(group: Group)
      requires WellKeyed(group)
      modifies this`prefs, this`hasPopup, this`secondPopup, this`otherKeys
      modifies this`topItems, this`moreItems, this`log, this`initialized
      ensures Valid() && initialized
      ensures prefs == group && !hasPopup && secondPopup.None? && otherKeys == OtherKeys
      ensures topItems == TopItems(group) && moreItems == MoreItems(group)
      ensures log == old(log) + [PieInitialized]
    {
      log := log + [PieInitialized];
      prefs := group;
      hasPopup := false;
      secondPopup := None;
      topItems := PieItems(group);
      moreItems := MoreSettingItems(group);
      otherKeys := OtherKeys;
      initialized := true;
    }

    /** A click on the camera-switch item. With the camera-id preference
        present it selects the next camera index and tells the listener that
        same index; the item is refreshed in either case. With no entry
        values the modulo divides by zero: the click fails (`ok` is false)
        and nothing changes. */
    method OnCameraSwitchClick() returns (ok: bool)
      requires Valid() && initialized
      modifies this`prefs, this`log
      ensures Valid()
      ensures ok <==> !(KeyCameraId in old(prefs) && |old(prefs)[KeyCameraId].entryValues| == 0)
      ensures !ok ==> prefs == old(prefs) && log == old(log)
      ensures KeyCameraId !in old(prefs) ==>
                prefs == old(prefs) && log == old(log) + [UpdateItem(KeyCameraId)]
      ensures ok && KeyCameraId in old(prefs) ==>
                var p := old(prefs)[KeyCameraId];
                prefs == old(prefs)[KeyCameraId := SwitchCamera(p)]
                && log == old(log) + [CameraPickerClicked(NextCameraIndex(p)), UpdateItem(KeyCameraId)]
    {
      if KeyCameraId in prefs {
        var p := prefs[KeyCameraId];
        if |p.entryValues| == 0 {
          return false;
        }
        var index := NextCameraIndex(p);
        prefs := prefs[KeyCameraId := SetValueIndex(p, index)];
        log := log + [CameraPickerClicked(index)];
      }
      log := log + [UpdateItem(KeyCameraId)];
      ok := true;
    }

    /** Builds the first-level popup (unconditionally; callers check). */
    method InitializePopup()
      requires initialized
      modifies this`hasPopup, this`log
      ensures hasPopup
      ensures log == old(log) + CreationEvents(otherKeys, secureCamera)
    {
      log := log + [PopupCreated(otherKeys)];
      if secureCamera {
        log := log + [PopupPreferenceDisabled(KeyRecordLocation)];
      }
      hasPopup := true;
    }

    /** A click on the settings item: the first-level popup is built if it
        does not exist yet, and shown. */
    method OnSettingsClick()
      requires initialized
      modifies this`hasPopup, this`log
      ensures hasPopup
      ensures log == old(log) + (if old(hasPopup) then [] else CreationEvents(otherKeys, secureCamera))
                     + [ShowPopup(MorePopup)]
    {
      if !hasPopup {
        InitializePopup();
      }
      log := log + [ShowPopup(MorePopup)];
    }

    method ReloadPreferences()
      modifies this`log
      ensures log == old(log) + ReloadEvents(hasPopup)
    {
      log := log + [ReloadPieItems];
      if hasPopup {
        log := log + [ReloadPopup];
      }
    }

    /** setPreference: writes `value` under `key` only when the key is present
        and holds another value, and then reloads. */
    method SetPreference(key: string, value: string)
      requires Valid() && initialized
      modifies this`prefs, this`log
      ensures Valid()
      ensures prefs == WithValue(old(prefs), key, value)
      ensures log == old(log) + (if prefs != old(prefs) then ReloadEvents(hasPopup) else [])
    {
      if key in prefs && value != prefs[key].value {
        prefs := prefs[key := prefs[key].(value := value)];
        ReloadPreferences();
      }
    }

    /** onSettingChanged: after HDR is changed to anything but off, scene
        mode is reset to auto; otherwise, after the scene mode is changed to
        anything but auto, HDR is turned off. At most one write, hence at
        most one reload, and then the listener is told. */
    method OnSettingChanged(p: ListPref)
      requires Valid() && initialized
      modifies this`prefs, this`log
      ensures Valid()
      ensures prefs == AfterSettingChanged(old(prefs), p, settingOff)
      ensures log == old(log) + (if prefs != old(prefs) then ReloadEvents(hasPopup) else [])
                     + [SettingChangedNotified(p.key)]
    {
      if NotSame(p, KeyCameraHdr, settingOff) {
        SetPreference(KeySceneMode, SceneModeAuto);
      } else if NotSame(p, KeySceneMode, SceneModeAuto) {
        SetPreference(KeyCameraHdr, settingOff);
      }
      log := log + [SettingChangedNotified(p.key)];
    }

    /** A value picked in the second-level popup: with both popups present
        the UI dismisses the top popup and the first-level popup reloads;
        then the change goes through onSettingChanged. */
    method OnListPrefChanged(p: ListPref)
      requires Valid() && initialized
      modifies this`prefs, this`log
      ensures Valid()
      ensures prefs == AfterSettingChanged(old(prefs), p, settingOff)
      ensures log == old(log)
                     + (if hasPopup && secondPopup.Some? then [DismissPopup(true), ReloadPopup] else [])
                     + (if prefs != old(prefs) then ReloadEvents(hasPopup) else [])
                     + [SettingChangedNotified(p.key)]
    {
      if hasPopup && secondPopup.Some? {
        log := log + [DismissPopup(true), ReloadPopup];
      }
      OnSettingChanged(p);
    }

    /** Overridden settings go to the pie items and to the first-level
        popup, which is built first if it does not exist. */
    method OverrideSettings(keyvalues: seq<string>)
      requires initialized
      modifies this`hasPopup, this`log
      ensures hasPopup
      ensures log == old(log) + [ItemsOverridden(keyvalues)]
                     + (if old(hasPopup) then [] else CreationEvents(otherKeys, secureCamera))
                     + [PopupOverridden(keyvalues)]
    {
      log := log + [ItemsOverridden(keyvalues)];
      if !hasPopup {
        InitializePopup();
      }
      log := log + [PopupOverridden(keyvalues)];
    }

    /** The UI reports a dismissal. A second-level popup is dropped, and the
        first-level popup is shown again when only the top popup went; with
        no second-level popup nothing happens. */
    method PopupDismissed(topPopupOnly: bool)
      modifies this`secondPopup, this`log
      ensures secondPopup.None?
      ensures old(secondPopup).None? ==> log == old(log)
      ensures old(secondPopup).Some? ==>
                log == old(log) + (if topPopupOnly then [ShowPopup(if hasPopup then MorePopup else NullPopup)]
                                   else [])
    {
      if secondPopup.Some? {
        secondPopup := None;
        if topPopupOnly {
          log := log + [ShowPopup(if hasPopup then MorePopup else NullPopup)];
        }
      }
    }

    /** An item of the first-level popup was clicked. While a second-level
        popup is open nothing happens; otherwise the top popup is dismissed
        and a second-level popup for `p` opens and is shown: the timer picker
        for the timer, the list of values for any other preference. */
    method OnPreferenceClicked(p: ListPref)
      modifies this`secondPopup, this`log
      ensures old(secondPopup).Some? ==> secondPopup == old(secondPopup) && log == old(log)
      ensures old(secondPopup).None? ==>
                && secondPopup.Some?
                && secondPopup.value.key == p.key
                && (secondPopup.value.TimerPopup? <==> p.key == KeyTimer)
                && log == old(log) + [DismissPopup(true), ShowPopup(Second(secondPopup.value))]
    {
      if secondPopup.Some? {
        return;
      }
      var popup: SecondPopup;
      if p.key == KeyTimer {
        popup := TimerPopup(p.key);
      } else {
        popup := ListPrefPopup(p.key);
      }
      log := log + [DismissPopup(true)];
      secondPopup := Some(popup);
      log := log + [ShowPopup(Second(secondPopup.value))];
    }
  }
}
