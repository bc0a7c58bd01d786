/** Mapping from the host platform to the capture configuration handed to the
    media player: `Util.detect_os`, `Util.get_media_player_options_for_os` and
    `Util.get_default_camera_for_os` (util.py).  The standalone client
    cam-client.py carries a verbatim copy of the three functions; they are
    defined once here. */
module Platform {
  import opened Wrappers

  /** The three operating-system tags `DetectOs` can produce. */
  const MacOS := "MacOS"
  const Windows := "Windows"
  const Linux := "Linux"

  /** Capture formats understood by ffmpeg for the two supported systems. */
  const DirectShow := "dshow"
  const VideoForLinux := "v4l2"

  /** Prefix DirectShow expects in front of a device name. */
  const DirectShowDevicePrefix := "video="

  const WindowsDefaultCamera := "Integrated Camera"
  const LinuxDefaultCamera := "/dev/video0"

  /** The record returned by the options mapping: a device locator and the
      capture format to open it with. */
  datatype PlayerOptions = PlayerOptions(videoPath: string, format: string)

  /** `platform.system()` is an input; every other name is taken for Linux. */
  function DetectOs(system: string): (tag: string)
    ensures tag == MacOS || tag == Windows || tag == Linux
    ensures tag == MacOS <==> system == "Darwin"
    ensures tag == Windows <==> system == "Windows"
    ensures tag == Linux <==> system != "Darwin" && system != "Windows"
  {
    if system == "Darwin" then MacOS
    else if system == "Windows" then Windows
    else Linux
  }

  predicate Supported(os: string) {
    os == Windows || os == Linux
  }

  /** Options for opening `camera` on `os`; `None` (after logging an error)
      for any tag other than Windows and Linux, MacOS included. */
  function MediaPlayerOptions(os: string, camera: string): (r: Option<PlayerOptions>)
    ensures r.Some? <==> Supported(os)
    ensures r.Some? ==> (r.value.format == DirectShow <==> os == Windows)
    ensures r.Some? ==> (r.value.format == VideoForLinux <==> os == Linux)
    ensures os == Windows ==> r.Some? && DirectShowDevicePrefix <= r.value.videoPath
                              && r.value.videoPath[|DirectShowDevicePrefix|..] == camera
    ensures os == Linux ==> r.Some? && r.value.videoPath == camera
  {
    if os == Windows then
      Some(PlayerOptions(DirectShowDevicePrefix + camera, DirectShow))
    else if os == Linux then
      Some(PlayerOptions(camera, VideoForLinux))
    else
      None
  }

  /** The device used when no camera is named; `None` for unsupported tags. */
  function DefaultCamera(os: string): (r: Option<string>)
    ensures r.Some? <==> Supported(os)
    ensures r.Some? ==> r.value != ""
    ensures os == Windows ==> r == Some(WindowsDefaultCamera)
    ensures os == Linux ==> r == Some(LinuxDefaultCamera)
  {
    if os == Windows then Some(WindowsDefaultCamera)
    else if os == Linux then Some(LinuxDefaultCamera)
    else None
  }

  /** Inverse of the options mapping: the camera name a player record was
      built from, read back from its locator and format. */
  function CameraOf(options: PlayerOptions): string {
    if options.format == DirectShow && DirectShowDevicePrefix <= options.videoPath
    then options.videoPath[|DirectShowDevicePrefix|..]
    else options.videoPath
  }

  /** The options record loses nothing: the camera can be read back from it. */
  lemma CameraRoundTrip(os: string, camera: string)
    requires Supported(os)
    ensures MediaPlayerOptions(os, camera).Some?
    ensures CameraOf(MediaPlayerOptions(os, camera).value) == camera
  {
  }

  /** Default camera and capture options are defined for the same tags. */
  lemma DefaultCameraAgreesWithOptions(os: string, camera: string)
    ensures DefaultCamera(os).Some? <==> MediaPlayerOptions(os, camera).Some?
  {
  }

  /** Detection followed by the options mapping fails exactly on Darwin. */
  lemma DetectedOptionsDefinedUnlessDarwin(system: string, camera: string)
    ensures MediaPlayerOptions(DetectOs(system), camera).None? <==> system == "Darwin"
  {
  }

  /** Why starting up the standalone client failed. */
  datatype StartupError = OptionsNotSubscriptable

  /** Python's rendering of an optional string in an f-string: `None` prints
      as the four letters "None". */
  function Render(s: Option<string>): (r: string)
    ensures s.Some? ==> r == s.value
    ensures r == "None" <==> s == None || s == Some("None")
  {
    match s
    case Some(v) => v
    case None => "None"
  }

  /** Start-up of the standalone client: detect the system, take the camera
      argument or else the rendered default, and look up the options; when the
      lookup gave `None`, subscripting it raises. */
  function StandaloneCapture(system: string, cameraArg: Option<string>): (r: Result<PlayerOptions, StartupError>)
    ensures r.Failure? <==> system == "Darwin"
    ensures r.Success? ==> r.value.format == (if system == "Windows" then DirectShow else VideoForLinux)
    ensures r.Success? && system == "Windows" ==> DirectShowDevicePrefix <= r.value.videoPath
    ensures r.Success? && cameraArg.None? ==>
              CameraOf(r.value) == (if system == "Windows" then WindowsDefaultCamera else LinuxDefaultCamera)
    ensures r.Success? && cameraArg.Some? ==> CameraOf(r.value) == cameraArg.value
  {
    var os := DetectOs(system);
    var camera := match cameraArg
      case Some(c) => c
      case None => Render(DefaultCamera(os));
    match MediaPlayerOptions(os, camera)
    case Some(options) =>
      CameraRoundTrip(os, camera);
      Success(options)
    case None => Failure(OptionsNotSubscriptable)
  }
}
