/** The session logic of the browser client `ScreenShareApp` (script.js): the
    table of peer links keyed by remote socket id, the handlers that create,
    update and tear down those links, and the small decision tables beside them. */
module Client {
  import opened Protocol

  // ---------------------------------------------------------------------------
  // Mode and room selection

  /** `urlParams.get('mode') || localStorage.getItem('screenShareMode') || 'viewer'`:
      the first non-empty source wins; the value is not checked against the two roles. */
  function CurrentMode(urlMode: Option<string>, storedMode: Option<string>): (mode: string)
    ensures mode != ""
    ensures urlMode.Some? && urlMode.value != "" ==> mode == urlMode.value
    ensures !(urlMode.Some? && urlMode.value != "") && storedMode.Some? && storedMode.value != ""
            ==> mode == storedMode.value
    ensures mode == "viewer" || urlMode == Some(mode) || storedMode == Some(mode)
  {
    if urlMode.Some? && urlMode.value != "" then urlMode.value
    else if storedMode.Some? && storedMode.value != "" then storedMode.value
    else "viewer"
  }

  const RoomPrefix: string := "room_"

  predicate HasRoomPrefix(id: string)
  {
    |id| >= |RoomPrefix| && id[..|RoomPrefix|] == RoomPrefix
  }

  /** `'room_' + …`: the random base-36 digits are the parameter `digits`. */
  function GenerateRoomId(digits: string): (id: string)
    ensures HasRoomPrefix(id) && id[|RoomPrefix|..] == digits
  {
    RoomPrefix + digits
  }

  const UserPrefix: string := "Kullanıcı_"

  /** `'Kullanıcı_' + …`: the random digits are the parameter `digits`. */
  function GenerateUserId(digits: string): (id: string)
    ensures |id| >= |UserPrefix| && id[..|UserPrefix|] == UserPrefix
  {
    UserPrefix + digits
  }

  /** The `room` URL parameter when it is present and non-empty, otherwise a
      generated id (the URL rewrite that follows is not modelled). */
  function RoomIdFromUrl(urlRoom: Option<string>, digits: string): (id: string)
    ensures urlRoom.Some? && urlRoom.value != "" ==> id == urlRoom.value
    ensures !(urlRoom.Some? && urlRoom.value != "") ==> HasRoomPrefix(id) && id[|RoomPrefix|..] == digits
    ensures id != ""
  {
    if urlRoom.Some? && urlRoom.value != "" then urlRoom.value else GenerateRoomId(digits)
  }

  // ---------------------------------------------------------------------------
  // Capture constraints, notification icons, quality bands

  /** The `video` member of what `getVideoConstraints` returns; `width` and
      `height` are absent when the quality name is not in the table. */
  datatype VideoConstraints = VideoConstraints(
    displaySurface: string,
    logicalSurface: bool,
    cursor: string,
    idealFrameRate: JsValue,
    width: Option<nat>,
    height: Option<nat>)

  function GetVideoConstraints(quality: string, frameRate: JsValue): (c: VideoConstraints)
    ensures c.displaySurface == "monitor" && c.logicalSurface && c.cursor == "always"
    ensures c.idealFrameRate == frameRate
    ensures quality == "high" ==> c.width == Some(1920) && c.height == Some(1080)
    ensures quality == "medium" ==> c.width == Some(1280) && c.height == Some(720)
    ensures quality == "low" ==> c.width == Some(854) && c.height == Some(480)
    ensures c.width.Some? <==> quality in {"high", "medium", "low"}
    ensures c.height.Some? <==> c.width.Some?
  {
    var size: Option<(nat, nat)> :=
      if quality == "high" then Some((1920, 1080))
      else if quality == "medium" then Some((1280, 720))
      else if quality == "low" then Some((854, 480))
      else None;
    VideoConstraints("monitor", true, "always", frameRate,
      if size.Some? then Some(size.value.0) else None,
      if size.Some? then Some(size.value.1) else None)
  }

  function GetNotificationIcon(kind: string): (icon: string)
    ensures icon in {"check-circle", "exclamation-circle", "exclamation-triangle", "info-circle"}
    ensures kind == "success" ==> icon == "check-circle"
    ensures kind == "error" ==> icon == "exclamation-circle"
    ensures kind == "warning" ==> icon == "exclamation-triangle"
    ensures kind !in {"success", "error", "warning"} ==> icon == "info-circle"
  {
    if kind == "success" then "check-circle"
    else if kind == "error" then "exclamation-circle"
    else if kind == "warning" then "exclamation-triangle"
    else "info-circle"
  }

  /** The width, in percent, of the quality bar for the measured frame rate and
      latency: the first band whose two thresholds are met wins. */
  function QualityBand(fps: int, latency: int): (percent: nat)
    ensures percent in {25, 50, 75, 100}
    ensures percent == 100 <==> fps > 25 && latency < 100
    ensures percent >= 75 <==> (fps > 25 && latency < 100) || (fps > 20 && latency < 200)
    ensures percent >= 50 <==> (fps > 25 && latency < 100) || (fps > 20 && latency < 200)
                               || (fps > 15 && latency < 300)
  {
    if fps > 25 && latency < 100 then 100
    else if fps > 20 && latency < 200 then 75
    else if fps > 15 && latency < 300 then 50
    else 25
  }

  /** More frames and less latency never lower the quality shown. */
  lemma QualityBandMonotone(fps: int, latency: int, fps': int, latency': int)
    requires fps <= fps' && latency' <= latency
    ensures QualityBand(fps, latency) <= QualityBand(fps', latency')
  {
  }

  /** With the simulated statistics (frame rate 20..49, latency 50..249) the
      lowest band is never shown. */
  lemma SimulatedStatsNeverPoor(fps: int, latency: int)
    requires 20 <= fps <= 49 && 50 <= latency <= 249
    ensures QualityBand(fps, latency) >= 50
  {
  }

  // ---------------------------------------------------------------------------
  // The `user-joined` dispatch

  /** A viewer starts a link when a broadcaster is announced. */
  predicate ConnectsToBroadcaster(mode: JsValue, localMode: string)
  {
    mode == Str("broadcaster") && localMode == "viewer"
  }

  /** A sharing broadcaster is told about an announced viewer. */
  predicate AnnouncesViewer(mode: JsValue, localMode: string, isSharing: bool)
  {
    mode == Str("viewer") && localMode == "broadcaster" && isSharing
  }

  /** The two branches of the dispatch never both fire, and a mode other than
      the two role names fires neither. */
  lemma DispatchExclusive(mode: JsValue, localMode: string, isSharing: bool)
    ensures !(ConnectsToBroadcaster(mode, localMode) && AnnouncesViewer(mode, localMode, isSharing))
    ensures mode != Str("broadcaster") && mode != Str("viewer")
            ==> !ConnectsToBroadcaster(mode, localMode) && !AnnouncesViewer(mode, localMode, isSharing)
  {
  }

  // ---------------------------------------------------------------------------
  // Media and the peer-connection handle

  datatype TrackKind = Audio | Video
  datatype Track = Track(id: nat, kind: TrackKind)
  datatype MediaStream = MediaStream(tracks: seq<Track>)

  predicate HasKind(s: MediaStream, kind: TrackKind)
  {
    exists t :: t in s.tracks && t.kind == kind
  }

  /** How a promise of the browser's peer-connection settled. */
  datatype Reply = Resolved(value: JsValue) | Rejected

  /** What the client shows through `showNotification`. */
  datatype Notice =
    | NewViewer         // 'info'
    | ConnectionError   // 'error'
    | StreamStarted     // 'success'
    | SharingStarted    // 'success'
    | SharingStopped    // 'info'
    | NotBroadcaster    // 'error'
    | SharingFailed     // 'error'

  datatype LinkView = LinkView(
    localDescription: Option<JsValue>,
    remoteDescription: Option<JsValue>,
    closed: bool,
    tracks: seq<Track>,
    candidates: seq<JsValue>)

  /** An `RTCPeerConnection` seen as a handle: the descriptions applied to it,
      whether it is closed, the tracks added to it and the remote candidates applied. */
  class PeerLink {
    var localDescription: Option<JsValue>
    var remoteDescription: Option<JsValue>
    var closed: bool
    var tracks: seq<Track>
    var candidates: seq<JsValue>

    function View(): LinkView
      reads this
    {
      LinkView(localDescription, remoteDescription, closed, tracks, candidates)
    }

    constructor ()
      ensures View() == LinkView(None, None, false, [], [])
    {
      localDescription, remoteDescription, closed := None, None, false;
      tracks, candidates := [], [];
    }

    method SetLocalDescription(d: JsValue)
      modifies this
      ensures View() == old(View()).(localDescription := Some(d))
    {
      localDescription := Some(d);
    }

    method SetRemoteDescription(d: JsValue)
      modifies this
      ensures View() == old(View()).(remoteDescription := Some(d))
    {
      remoteDescription := Some(d);
    }

    method AddTrack(t: Track)
      modifies this
      ensures View() == old(View()).(tracks := old(tracks) + [t])
    {
      tracks := tracks + [t];
    }

    method AddIceCandidate(c: JsValue)
      modifies this
      ensures View() == old(View()).(candidates := old(candidates) + [c])
    {
      candidates := candidates + [c];
    }

    method Close()
      modifies this
      ensures View() == old(View()).(closed := true)
    {
      closed := true;
    }
  }

  /** No link object is stored under two ids. */
  predicate DistinctLinks(links: map<string, PeerLink>)
  {
    forall k, k' :: k in links && k' in links && k != k' ==> links[k] != links[k']
  }

  /** `stream.getTracks().forEach(track => pc.addTrack(track, stream))`. */
  method AttachTracks(pc: PeerLink, tracks: seq<Track>)
    modifies pc
    ensures pc.View() == old(pc.View()).(tracks := old(pc.tracks) + tracks)
  {
    var i := 0;
    while i < |tracks|
      invariant 0 <= i <= |tracks|
      invariant pc.View() == old(pc.View()).(tracks := old(pc.tracks) + tracks[..i])
    {
      pc.AddTrack(tracks[i]);
      assert tracks[..i + 1] == tracks[..i] + [tracks[i]];
      i := i + 1;
    }
  }

  /** `Object.values(links).forEach(pc => <attach every track>)`. */
  method AttachToAll(links: map<string, PeerLink>, tracks: seq<Track>)
    requires DistinctLinks(links)
    modifies links.Values
    ensures forall k :: k in links ==>
              links[k].View() == old(links[k].View()).(tracks := old(links[k].tracks) + tracks)
  {
    var todo := links.Keys;
    while todo != {}
      invariant todo <= links.Keys
      invariant forall k :: k in links ==>
                  links[k].View() == if k in todo then old(links[k].View())
                                     else old(links[k].View()).(tracks := old(links[k].tracks) + tracks)
      decreases todo
    {
      var k :| k in todo;
      AttachTracks(links[k], tracks);
      todo := todo - {k};
    }
  }

  /** `Object.values(links).forEach(pc => pc.close())`. */
  method CloseAll(links: map<string, PeerLink>)
    requires DistinctLinks(links)
    modifies links.Values
    ensures forall k :: k in links ==> links[k].View() == old(links[k].View()).(closed := true)
  {
    var todo := links.Keys;
    while todo != {}
      invariant todo <= links.Keys
      invariant forall k :: k in links ==>
                  links[k].View() == if k in todo then old(links[k].View())
                                     else old(links[k].View()).(closed := true)
      decreases todo
    {
      var k :| k in todo;
      links[k].Close();
      todo := todo - {k};
    }
  }

  // ---------------------------------------------------------------------------
  // The application object

  datatype AppState = AppState(
    currentMode: string,
    roomId: string,
    userId: string,
    isSharing: bool,
    audioEnabled: bool,
    videoEnabled: bool,
    localStream: Option<MediaStream>,
    peerConnections: map<string, PeerLink>,
    sent: seq<ClientEmit>,
    notices: seq<Notice>)

  class ScreenShareApp {
    var currentMode: string
    var roomId: string
    var userId: string
    var isSharing: bool
    var audioEnabled: bool
    var videoEnabled: bool
    var localStream: Option<MediaStream>
    /** Peer links keyed by the remote socket id. */
    var peerConnections: map<string, PeerLink>
    /** Everything emitted on the socket, in order. */
    var sent: seq<ClientEmit>
    /** Everything shown through `showNotification`, in order. */
    var notices: seq<Notice>

    function State(): AppState
      reads this
    {
      AppState(currentMode, roomId, userId, isSharing, audioEnabled, videoEnabled,
               localStream, peerConnections, sent, notices)
    }

    /** Every stored link is a distinct object and none is closed. */
    ghost predicate Valid()
      reads this, peerConnections.Values
    {
      && DistinctLinks(peerConnections)
      && forall k :: k in peerConnections ==> !peerConnections[k].closed
    }

    /** A new link stored under `b` in place of any earlier one, with the
        other entries, the settings and the stream untouched. */
    twostate predicate NewLinkAt(b: string)
      reads this
    {
      && b in peerConnections
      && fresh(peerConnections[b])
      && peerConnections.Keys == old(peerConnections).Keys + {b}
      && (forall k :: k in old(peerConnections) && k != b ==> peerConnections[k] == old(peerConnections)[k])
      && currentMode == old(currentMode) && roomId == old(roomId) && userId == old(userId)
      && isSharing == old(isSharing) && audioEnabled == old(audioEnabled)
      && videoEnabled == old(videoEnabled) && localStream == old(localStream)
    }

    /** What `handleBroadcasterJoined(b)` leaves behind in viewer mode: a new link
        for `b` carrying the created offer, and the offer sent to `b`. */
    twostate predicate OfferedTo(b: string, offer: Reply)
      reads this, peerConnections.Values
    {
      && NewLinkAt(b)
      && peerConnections[b].View()
         == LinkView(if offer.Resolved? then Some(offer.value) else None, None, false, [], [])
      && sent == old(sent) + (if offer.Resolved? then [SignalEmit(Offer, offer.value, b)] else [])
      && notices == old(notices) + (if offer.Resolved? then [] else [ConnectionError])
    }

    /** The constructor and the part of `init()` that runs: `init()` calls the
        undefined `bindEvents` right after `initSocket`, so it throws before
        `checkBrowserSupport` and nothing is shown or sent. */
    constructor (urlMode: Option<string>, storedMode: Option<string>, urlRoom: Option<string>,
                 roomDigits: string, userDigits: string)
      ensures State() == AppState(CurrentMode(urlMode, storedMode), RoomIdFromUrl(urlRoom, roomDigits),
                                  GenerateUserId(userDigits), false, false, true, None, map[], [], [])
      ensures Valid()
    {
      currentMode := CurrentMode(urlMode, storedMode);
      roomId := RoomIdFromUrl(urlRoom, roomDigits);
      userId := GenerateUserId(userDigits);
      isSharing, audioEnabled, videoEnabled := false, false, true;
      localStream := None;
      peerConnections := map[];
      sent, notices := [], [];
    }

    /** `joinRoom`: announce this client to its room. */
    method JoinRoom()
      modifies this
      ensures State() == old(State()).(sent := old(sent) + [JoinRoomEmit(roomId, userId, currentMode)])
    {
      sent := sent + [JoinRoomEmit(roomId, userId, currentMode)];
    }

    /** The `user-joined(userId, mode)` handler. */
    method OnUserJoined(id: string, mode: JsValue, offer: Reply)
      requires Valid()
      modifies this
      ensures Valid()
      ensures ConnectsToBroadcaster(mode, old(currentMode)) ==> OfferedTo(id, offer)
      ensures AnnouncesViewer(mode, old(currentMode), old(isSharing))
              ==> State() == old(State()).(notices := old(notices) + [NewViewer])
      ensures !ConnectsToBroadcaster(mode, old(currentMode)) && !AnnouncesViewer(mode, old(currentMode), old(isSharing))
              ==> State() == old(State())
    {
      if ConnectsToBroadcaster(mode, currentMode) {
        HandleBroadcasterJoined(id, offer);
      }
      if AnnouncesViewer(mode, currentMode, isSharing) {
        notices := notices + [NewViewer];
      }
    }

    /** Viewer side: open a link to the announced broadcaster and send it an offer. */
    method HandleBroadcasterJoined(b: string, offer: Reply)
      requires Valid()
      modifies this
      ensures Valid()
      ensures old(currentMode) != "viewer" ==> State() == old(State())
      ensures old(currentMode) == "viewer" ==> OfferedTo(b, offer)
    {
      if currentMode != "viewer" {
        return;
      }
      var pc := new PeerLink();
      peerConnections := peerConnections[b := pc];
      match offer {
        case Resolved(o) =>
          pc.SetLocalDescription(o);
          sent := sent + [SignalEmit(Offer, o, b)];
        case Rejected =>
          notices := notices + [ConnectionError];
      }
    }

    /** Broadcaster side: answer an offer from `f` on a new link that carries
        every local track.  `remoteOk` says whether the offer could be applied,
        `answer` how creating and applying the answer settled. */
    method HandleOffer(offer: JsValue, f: string, remoteOk: bool, answer: Reply)
      requires Valid()
      modifies this
      ensures Valid()
      ensures old(currentMode) != "broadcaster" || old(localStream).None? ==> State() == old(State())
      ensures old(currentMode) == "broadcaster" && old(localStream).Some? ==>
                && NewLinkAt(f)
                && peerConnections[f].View()
                   == LinkView(if remoteOk && answer.Resolved? then Some(answer.value) else None,
                               if remoteOk then Some(offer) else None,
                               false, localStream.value.tracks, [])
                && sent == old(sent) + (if remoteOk && answer.Resolved?
                                        then [SignalEmit(Answer, answer.value, f)] else [])
                && notices == old(notices) + (if remoteOk && answer.Resolved? then [] else [ConnectionError])
    {
      if currentMode != "broadcaster" || localStream.None? {
        return;
      }
      var pc := new PeerLink();
      peerConnections := peerConnections[f := pc];
      AttachTracks(pc, localStream.value.tracks);
      if !remoteOk {
        notices := notices + [ConnectionError];
      } else {
        pc.SetRemoteDescription(offer);
        match answer {
          case Resolved(a) =>
            pc.SetLocalDescription(a);
            sent := sent + [SignalEmit(Answer, a, f)];
          case Rejected =>
            notices := notices + [ConnectionError];
        }
      }
    }

    /** Apply an answer from `f` to the link stored for `f`, if there is one. */
    method HandleAnswer(answer: JsValue, f: string, accepted: bool)
      requires Valid()
      modifies if f in peerConnections then {peerConnections[f]} else {}
      ensures Valid()
      ensures f in peerConnections && accepted ==>
                peerConnections[f].View() == old(peerConnections[f].View()).(remoteDescription := Some(answer))
      ensures forall k :: k in peerConnections && (k != f || !accepted) ==>
                peerConnections[k].View() == old(peerConnections[k].View())
    {
      if f in peerConnections && accepted {
        peerConnections[f].SetRemoteDescription(answer);
      }
    }

    /** Apply a remote ICE candidate from `f` to the link stored for `f`, if there is one. */
    method HandleIceCandidate(candidate: JsValue, f: string, accepted: bool)
      requires Valid()
      modifies if f in peerConnections then {peerConnections[f]} else {}
      ensures Valid()
      ensures f in peerConnections && accepted ==>
                peerConnections[f].View()
                == old(peerConnections[f].View()).(candidates := old(peerConnections[f].candidates) + [candidate])
      ensures forall k :: k in peerConnections && (k != f || !accepted) ==>
                peerConnections[k].View() == old(peerConnections[k].View())
    {
      if f in peerConnections && accepted {
        peerConnections[f].AddIceCandidate(candidate);
      }
    }

    /** `onicecandidate` of the link to `remote`: forward a gathered candidate. */
    method OnLocalCandidate(remote: string, candidate: JsValue)
      modifies this
      ensures State() == old(State()).(sent := old(sent) + if Truthy(candidate)
                                                         then [SignalEmit(IceCandidate, candidate, remote)] else [])
    {
      if Truthy(candidate) {
        sent := sent + [SignalEmit(IceCandidate, candidate, remote)];
      }
    }

    /** One `ontrack` event of a viewer's link (it fires once per remote track). */
    method OnRemoteTrack()
      modifies this
      ensures State() == old(State()).(isSharing := true, notices := old(notices) + [StreamStarted])
    {
      isSharing := true;
      notices := notices + [StreamStarted];
    }

    /** `startSharing`, with `capture` the outcome of `getDisplayMedia` (None
        when it was refused).  A stream without a video track makes the hook on
        its first video track throw after the tracks were already attached. */
    method StartSharing(capture: Option<MediaStream>)
      requires Valid()
      modifies this, peerConnections.Values
      ensures Valid()
      ensures old(currentMode) != "broadcaster" ==>
                State() == old(State()).(notices := old(notices) + [NotBroadcaster])
                && forall k :: k in peerConnections ==> peerConnections[k].View() == old(peerConnections[k].View())
      ensures old(currentMode) == "broadcaster" && capture.None? ==>
                State() == old(State()).(notices := old(notices) + [SharingFailed])
                && forall k :: k in peerConnections ==> peerConnections[k].View() == old(peerConnections[k].View())
      ensures old(currentMode) == "broadcaster" && capture.Some? ==>
                State() == old(State()).(
                  localStream := capture,
                  audioEnabled := HasKind(capture.value, Audio),
                  isSharing := true,
                  notices := old(notices) + [if HasKind(capture.value, Video) then SharingStarted else SharingFailed])
                && forall k :: k in peerConnections ==>
                     peerConnections[k].View()
                     == old(peerConnections[k].View()).(tracks := old(peerConnections[k].tracks) + capture.value.tracks)
    {
      if currentMode != "broadcaster" {
        notices := notices + [NotBroadcaster];
        return;
      }
      match capture {
        case None =>
          notices := notices + [SharingFailed];
        case Some(s) =>
          localStream := capture;
          audioEnabled := HasKind(s, Audio);
          isSharing := true;
          AttachToAll(peerConnections, s.tracks);
          if HasKind(s, Video) {
            notices := notices + [SharingStarted];
          } else {
            notices := notices + [SharingFailed];
          }
      }
    }

    /** `stopSharing`: close every link, empty the table, drop the stream and
        reset the sharing flags. */
    method StopSharing()
      requires Valid()
      modifies this, peerConnections.Values
      ensures Valid()
      ensures forall k :: k in old(peerConnections) ==>
                old(peerConnections)[k].View() == old(peerConnections[k].View()).(closed := true)
      ensures State() == old(State()).(
                localStream := None, peerConnections := map[],
                isSharing := false, audioEnabled := false, videoEnabled := true,
                notices := old(notices) + [SharingStopped])
    {
      localStream := None;
      CloseAll(peerConnections);
      peerConnections := map[];
      isSharing, audioEnabled, videoEnabled := false, false, true;
      notices := notices + [SharingStopped];
    }
  }
}
