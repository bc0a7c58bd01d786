# Camera publishing client: sequential core in Dafny

The client captures a local camera (or a file or RTSP stream) and publishes
it to a remote viewer over WebRTC, trading an SDP offer for an answer with
one HTTP POST. The repository has two clients: the `CamClient` class
(`cam_client.py`, driven by `main.py`) and an older standalone script
(`cam-client.py`). Most of both is glue around aiortc, aiohttp, ffmpeg and
asyncio. This project models the sequential decisions inside that glue, as
pure functions over strings, sequences, maps and small records:

- `Platform` (`wrappers.dfy`, `platform.dfy`): the platform name is mapped to
  an OS tag (`MacOS`, `Windows`, `Linux`). The tag then selects the capture
  locator and format (`video=<camera>`/`dshow`, or `<camera>`/`v4l2`) and the
  default device. `cam-client.py:87-117` is a verbatim copy of
  `util.py:9-39`, so it is modelled by the same members.
- `Codec` (`codec.dfy`): H.264 forcing. The capability list is filtered by
  exact MIME type. When nothing matches, nothing changes. Otherwise the
  filtered list becomes the codec preferences of the first video transceiver.
  `next` raises when there is no video transceiver. That cannot happen,
  because the video track is always added first.
- `Signaling` (`signaling.dfy`): the offer request of each client, meaning
  the URL, the basic-auth credentials and the JSON body, and what each client
  does with the HTTP outcome.
- `Messages` (`messages.dfy`): the data-channel reply rules. One is the
  ping/pong rule of the standalone client. The other is the `rtt-packet`
  echo on the server-announced channel of `CamClient`.
- `Registry` (`registry.dfy`): `peer_connections`/`data_connections`
  bookkeeping as a state machine over connection identities. A connection is
  created on `run`; a `closed` state removes it and builds a new one;
  `shutdown` closes what is left. It also covers the `pcs` set of the
  standalone client. The module client's state machine is paired with an
  abstract account over event traces, a counter of created connections and
  the set of removed ones (`ReplayMatchesReference`). A handler that raises
  ends only its own coroutine, so later events still act on the lists.

The network, JSON decoding, the media player and the event loop are inputs:
- an HTTP exchange arrives as a connector error or a status plus an
  already decoded body;
- `json.loads` is a parameter `parse`;
- connection states and `run` calls are events.

The model follows the code, including where it departs from the intended
design:
- A side-channel text frame that is not JSON, is not an object, or lacks
  `"type"` makes the handler raise (`Messages.OnMessage` returns `Raise`). It
  is not silently ignored.
- The standalone client applies any response body that decodes to an answer,
  whatever the HTTP status. Only `CamClient` requires status 200.
- The standalone client never removes a connection from `pcs` and never
  reconnects. A state change there only logs.
- `CamClient` posts to `url` as given. The `key` argument is used only by
  the standalone client.
- `data_connections` is never pruned. It grows by one channel on every
  reconnect (`Registry.ReplayMatchesReference`).
- No code sends `rtt-client` probes or measures round-trip time, and there
  is no retry cap or backoff.

## Model

| member | source | states |
|---|---|---|
| `Platform.DetectOs` | util.py:9-15 | total into the three tags; MacOS exactly for "Darwin", Windows exactly for "Windows", Linux for every other name |
| `Platform.MediaPlayerOptions` | util.py:18-30 | defined exactly for Windows and Linux; Windows uses dshow and the locator is "video=" followed by the camera; Linux uses v4l2 and the camera unchanged |
| `Platform.DefaultCamera` | util.py:33-39 | "Integrated Camera" on Windows, "/dev/video0" on Linux, none for any other tag |
| `Platform.CameraRoundTrip` | util.py:19-28 | the camera name can be read back from the options record on both supported systems |
| `Platform.DefaultCameraAgreesWithOptions` | util.py:18-39 | a default camera exists exactly when capture options exist |
| `Platform.DetectedOptionsDefinedUnlessDarwin` | cam-client.py:87-108 | detection followed by the options mapping yields nothing exactly on Darwin |
| `Platform.Render` | cam-client.py:139-140 | a present camera name is used as it is; an absent default prints as "None", which cannot be told apart from a camera named "None" |
| `Platform.StandaloneCapture` | cam-client.py:128-145 | start-up fails exactly on Darwin; otherwise the format is dshow on Windows, with a "video=" locator, and v4l2 elsewhere, and the options open the given camera, or the system's default device when none is given |
| `Codec.MatchingCodecs` | cam_client.py:176-177 | keeps exactly the capabilities whose MIME type equals the forced codec, each as often as it occurs in the input |
| `Codec.MatchingDistributes` | cam_client.py:177 | filtering commutes with concatenation, so matches keep their original order |
| `Codec.MatchingIdempotent` | cam_client.py:177 | filtering twice gives the same list as filtering once |
| `Codec.MatchingKeepsAllMatching` | cam_client.py:177 | a list of only matching capabilities is kept whole |
| `Codec.FirstOfKind` | cam_client.py:182 | finds the first transceiver of the kind, and nothing exactly when there is none |
| `Codec.ForceCodec` | cam_client.py:175-183 | no match leaves every transceiver untouched without error; otherwise only the first video transceiver gets the matching list; raises exactly when matches exist but no video transceiver does |
| `Codec.AddVideoTrack` | cam_client.py:75-76 | after the camera track is added a video transceiver exists and earlier transceivers are kept |
| `Codec.ForceAfterTrackNeverRaises` | cam_client.py:76-79 | forcing after the track was added never raises |
| `Codec.ForceCodecIdempotent` | cam-client.py:76-84 | forcing the same codec a second time changes nothing further |
| `Signaling.AuthFor` | cam_client.py:84-87 | credentials are present exactly when user name and password are both non-empty, and carry them |
| `Signaling.OfferPayload` | cam_client.py:89-95 | the body has keys sdp and type, plus modelId exactly when a non-empty model identifier is given |
| `Signaling.OfferPayloadRoundTrip` | cam_client.py:89-95 | reading the body back gives the local description unchanged and the model identifier exactly when it is non-empty |
| `Signaling.ClientOffer` | cam_client.py:74-99 | posts to the URL as given, carries the local description, sends the user name and password as given exactly when both are non-empty, and has two or three keys |
| `Signaling.StandaloneOfferUrl` | cam-client.py:17 | the URL is the base URL followed by the key, and equals the base URL when the key is empty |
| `Signaling.StandaloneOffer` | cam-client.py:17-61 | no credentials, a body of exactly sdp and type carrying the local description |
| `Signaling.ClientAnswer` | cam_client.py:97-108 | the answer is applied exactly on status 200 with an answer body; on status 200 without one, decoding raises out of `publish`; any other status or a connector error exits with -1 |
| `Signaling.StandaloneAnswer` | cam-client.py:56-66 | the answer is applied whenever the body decodes to one, whatever the status; a body that is not an answer raises out of `publish`; only a connector error exits with -1 |
| `Signaling.AnswerHandlingDiffersOnlyOnStatus` | cam-client.py:58-63 | the two clients differ exactly on responses with a status other than 200 |
| `Messages.PingReply` | cam-client.py:21-26 | replies exactly to text starting with "ping"; the reply starts with "pong", has the same length and the same remainder after four characters |
| `Messages.PongRestoresPing` | cam-client.py:26 | the ping is "ping" followed by the reply's remainder |
| `Messages.ReplyIsNotPing` | cam-client.py:25 | a reply never triggers a reply itself |
| `Messages.OnMessage` | cam_client.py:115-127 | sends exactly for an rtt-packet on an open server channel, and sends the frame verbatim; the client channel never sends; raises for a text frame that is not JSON (decode error), not an object (type error) or has no "type" (key error), each exactly in its case |
| `Messages.EchoIsFixedPoint` | cam_client.py:126-127 | the echoed frame would be echoed again unchanged |
| `Registry.CreatePeerConnection` | cam_client.py:110-158 | appends exactly one new connection and one client channel it owns, keeps what was listed, and preserves the registry invariant |
| `Registry.RemoveFirst` | cam_client.py:137 | list removal drops exactly the first occurrence and fails exactly when the connection is absent |
| `Registry.OnConnectionStateChange` | cam_client.py:129-140 | non-closed states change nothing; "closed" cancels the task, closes the connection, and then either removes it, sleeps the reconnect delay and appends one new connection, or, when it is not listed, raises with the lists unchanged |
| `Registry.Apply` | cam_client.py:161-169 | `run` appends exactly one newly created connection and its client channel and keeps the listed ones; a state change goes to the handler; the registry invariant is kept |
| `Registry.ReplayMatchesReference` | cam_client.py:129-169 | on every event trace the lists agree with the abstract account: the list holds exactly the created connections not removed, its length is the number of runs, and the channel list grows with every creation |
| `Registry.SingleRunSingleConnection` | cam_client.py:133-140 | with one run, exactly one connection is listed however often it reconnects, on every trace |
| `Registry.Shutdown` | cam_client.py:172-173 | one close per listed connection, in list order, and nothing else, without duplicates |
| `Registry.ShutdownClosesLive` | cam_client.py:172-173 | after any trace, shutdown closes each connection created and not removed exactly once, and nothing else |
| `Registry.StandalonePublish` | cam-client.py:48 | publishing adds one connection to `pcs`, a new one, and never removes any |
| `Registry.CloseAll` | cam-client.py:157-159 | shutdown issues one close per member of `pcs`, each once, and nothing else |

## Left out

- WebRTC negotiation (`RTCPeerConnection`, offer/answer creation, setting
  descriptions) belongs to aiortc. Descriptions are opaque records and
  connection states are input events.
- The HTTP POST, `response.json()` and `json.loads` are left out. Responses
  arrive already decoded. A body that is not an answer is `BodyNotAnAnswer`,
  and `parse` stands for the JSON decoder.
- asyncio tasks, cancellation, `sleep(10)` and `asyncio.Future()` are left
  out. A reconnect is one transition whose effects are recorded in order. The
  `CancelledError` caught in `run` is not modelled.
- Media capture is left out: `MediaPlayer`, the ffmpeg option dictionaries,
  and the choice between video file, RTSP stream and camera in `publish`.
- Logging, argparse, process exit and `Util.get_root_path` are left out.
  They are I/O or filesystem lookup. An exit is the value `Exit(-1)`.
- The ICE, gathering, signaling and track handlers are left out because they
  only log. So is the client-channel message handler, beyond never sending.
- main.py is wiring only. The module client receiving `None` options on
  macOS is not modelled.
- `Codec.AddVideoTrack`: the transceiver bookkeeping is aiortc's. The model
  reuses any existing video transceiver or appends a new one, and does not
  track whether a transceiver already carries a track.
- HTTP failures other than a connector error are left out. Examples are a
  server disconnect, a timeout and an invalid URL. Neither client catches
  them, so they propagate out of `publish` without `exit(-1)`.
- Heartbeat probes, RTT computation, retry caps and backoff do not exist in
  the code.
