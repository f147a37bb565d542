/** The preference keys and setting values the photo menu refers to.
    The camera's settings class, which defines the keys, is not part of this
    model: the strings here stand in for its constants, and the menu relies
    only on their being pairwise distinct. */
module CameraSettings {

  const KeyFlashMode := "pref_camera_flashmode_key"
  const KeyExposure := "pref_camera_exposure_key"
  const KeyCameraId := "pref_camera_id_key"
  const KeyCameraHdr := "pref_camera_hdr_key"
  const KeyWhiteBalance := "pref_camera_whitebalance_key"
  const KeyRecordLocation := "pref_camera_recordlocation_key"
  const KeySceneMode := "pref_camera_scenemode_key"
  const KeyPictureSize := "pref_camera_picturesize_key"
  const KeyFocusMode := "pref_camera_focusmode_key"
  const KeyTimer := "pref_camera_timer_key"
  const KeyTimerSoundEffects := "pref_camera_timer_sound_key"

  /** The camera driver's name for the automatic scene mode. */
  const SceneModeAuto := "auto"
}
