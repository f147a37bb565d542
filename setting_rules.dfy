/** The rule that keeps HDR and a non-automatic scene mode apart, and the
    conditional write it uses. */
module SettingRules {

  import opened Wrappers
  import opened CameraSettings
  import opened Preferences

  /** notSame: `p` is the preference filed under `key`, and its value is not
      `value`. */
  function NotSame(p: ListPref, key: string, value: string): (b: bool)
    ensures b <==> key == p.key && p.(value := value) != p
  {
    key == p.key && value != p.value
  }

  /** notSame holds of a preference of the group exactly when that
      preference is the one under `key` and writing `value` there would
      change the group. */
  lemma NotSameIsWouldChange(g: Group, p: ListPref, key: string, value: string)
    requires WellKeyed(g) && p.key in g && g[p.key] == p
    ensures NotSame(p, key, value) <==> p.key == key && WithValue(g, key, value) != g
  {
  }

  /** setPreference writes only to a preference that exists and does not
      already hold the value. */
  predicate WouldChange(g: Group, key: string, value: string) {
    key in g && g[key].value != value
  }

  /** The group after setPreference(key, value). */
  function WithValue(g: Group, key: string, value: string): (r: Group)
    ensures r.Keys == g.Keys
    ensures key in g ==> r[key] == g[key].(value := value)
    ensures forall k :: k in g && k != key ==> r[k] == g[k]
    ensures r != g <==> WouldChange(g, key, value)
  {
    if WouldChange(g, key, value) then g[key := g[key].(value := value)] else g
  }

  /** Writing the same value twice is the same as writing it once. */
  lemma WithValueIdempotent(g: Group, key: string, value: string)
    ensures WithValue(WithValue(g, key, value), key, value) == WithValue(g, key, value)
  {
  }

  /** The write keeps every preference under its own key. */
  lemma WithValueWellKeyed(g: Group, key: string, value: string)
    requires WellKeyed(g)
    ensures WellKeyed(WithValue(g, key, value))
  {
  }

  /** A corrective write: the preference under `key` is set to `value`. */
  datatype Write = Write(key: string, value: string)

  /** The corrective write onSettingChanged makes after `p` was changed, if
      any; `off` is the localised value that means HDR is off. */
  function Correction(p: ListPref, off: string): (w: Option<Write>)
    ensures p.key == KeyCameraHdr && p.value != off ==> w == Some(Write(KeySceneMode, SceneModeAuto))
    ensures p.key == KeySceneMode && p.value != SceneModeAuto ==> w == Some(Write(KeyCameraHdr, off))
    ensures w.None? <==> !(p.key == KeyCameraHdr && p.value != off)
                         && !(p.key == KeySceneMode && p.value != SceneModeAuto)
    ensures w.Some? ==> w.value.key != p.key
  {
    if NotSame(p, KeyCameraHdr, off) then Some(Write(KeySceneMode, SceneModeAuto))
    else if NotSame(p, KeySceneMode, SceneModeAuto) then Some(Write(KeyCameraHdr, off))
    else None
  }

  /** The group after onSettingChanged(p). */
  function AfterSettingChanged(g: Group, p: ListPref, off: string): (r: Group)
    ensures r.Keys == g.Keys
    ensures p.key in g ==> r[p.key] == g[p.key]
    ensures forall k, k' :: k in g && k' in g && r[k] != g[k] && r[k'] != g[k'] ==> k == k'
    ensures p.key != KeyCameraHdr && p.key != KeySceneMode ==> r == g
    ensures p.key == KeyCameraHdr && p.value != off && KeySceneMode in g ==>
              r[KeySceneMode].value == SceneModeAuto
    ensures p.key == KeySceneMode && p.value != SceneModeAuto && KeyCameraHdr in g ==>
              r[KeyCameraHdr].value == off
  {
    match Correction(p, off)
    case None => g
    case Some(w) => WithValue(g, w.key, w.value)
  }

  /** HDR on together with a scene mode other than auto is the combination
      the rule forbids. */
  predicate Exclusive(g: Group, off: string) {
    !(KeyCameraHdr in g && g[KeyCameraHdr].value != off
      && KeySceneMode in g && g[KeySceneMode].value != SceneModeAuto)
  }

  /** After the user changes HDR or the scene mode, the rule holds whatever
      the group was before; after any other change, it still holds if it held. */
  lemma SettingChangedKeepsExclusive(g: Group, p: ListPref, off: string)
    requires p.key in g && g[p.key] == p
    requires p.key == KeyCameraHdr || p.key == KeySceneMode || Exclusive(g, off)
    ensures Exclusive(AfterSettingChanged(g, p, off), off)
  {
  }

  /** The corrective write needs no correction of its own: the preference it
      wrote, handed to onSettingChanged, leads to no further write. */
  lemma CorrectionIsFinal(g: Group, p: ListPref, off: string)
    requires WellKeyed(g)
    requires Correction(p, off).Some? && Correction(p, off).value.key in g
    ensures Correction(AfterSettingChanged(g, p, off)[Correction(p, off).value.key], off).None?
  {
  }
}
