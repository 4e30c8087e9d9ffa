/** The WHIP/WHEP client of src/lib/wish/index.ts as transitions of a Session value.
    Each function is one method of the source's WISH class: it takes the session
    before the call and the answers of the outside world (the transport engine, the
    network), and yields the session after the call, the effects in the order the
    source causes them, and whether the call returned or threw. The class in
    module WishClient is proved to follow these transitions. */
module WishSpec {
  import opened Signaling
  import Url

  /** DEFAULT_ICE_SERVERS */
  const DefaultIceServers: seq<string> :=
    ["stun:stun.cloudflare.com:3478", "stun:stun.l.google.com:19302", "stun:stun.stunprotocol.org:3478"]

  /** The fields of a WISH object; an empty string stands for an undefined field. */
  datatype Session = Session(
    hasPeer: bool,                  // whether peerConnection is set
    iceServers: seq<string>,        // the configured ICE servers
    videoSender: Option<Sender>,
    remoteTracks: seq<Track>,
    playerMedia: Option<seq<Track>>,// the tracks added to the player's MediaStream
    connectedResolved: bool,        // whether connectedPromise has been resolved
    gatherResolved: bool,           // whether gatherPromise has been resolved
    endpoint: string,
    resourceURL: string,
    mode: Mode,
    parsedOffer: Option<Offer>,
    useTrickle: bool,
    etag: string,
    providedIceServer: string)

  type Transition<T> = Step<Session, T>

  /** The state the constructor leaves (index.ts:39-48); an empty list is truthy in
      JavaScript and so replaces the default. */
  function Initial(iceServers: Option<seq<string>>): Session {
    Session(
      hasPeer := false,
      iceServers := if iceServers.Some? then iceServers.value else DefaultIceServers,
      videoSender := None,
      remoteTracks := [],
      playerMedia := None,
      connectedResolved := false,
      gatherResolved := false,
      endpoint := "",
      resourceURL := "",
      mode := Player,
      parsedOffer := None,
      useTrickle := false,
      etag := "",
      providedIceServer := "")
  }

  /** The invariant every transition keeps: a stored endpoint parses, and the offer
      and the video sender only exist while a peer connection does. */
  ghost predicate WellFormed(s: Session) {
    && (s.endpoint == "" || Url.Valid(s.endpoint))
    && (!s.hasPeer ==> s.parsedOffer.None? && s.videoSender.None?)
  }

  // ---------------------------------------------------------------- connection

  /** killConnection */
  function KillConnection(s: Session): Transition<()> {
    if s.hasPeer then
      Step(s.(hasPeer := false, parsedOffer := None, playerMedia := None, videoSender := None, remoteTracks := []),
           [ClosePeer], Ok(()))
    else
      Step(s, [], Ok(()))
  }

  /** The ICE servers a new connection is configured with. */
  function IceServersFor(s: Session): seq<string> {
    if s.providedIceServer != "" then [s.providedIceServer] else s.iceServers
  }

  /** newResolvers: both one-shot signals start over, unresolved. */
  function NewResolvers(s: Session): Session {
    s.(connectedResolved := false, gatherResolved := false)
  }

  /** createConnection */
  function CreateConnection(s: Session): Transition<()> {
    Step(NewResolvers(s.(hasPeer := true)), [OpenPeer(IceServersFor(s))], Ok(()))
  }

  // ---------------------------------------------------------------- engine events

  /** onGatheringStateChange */
  function OnGatheringStateChange(s: Session, state: GatheringState): Transition<()> {
    if s.hasPeer && state == GatherComplete then Step(s.(gatherResolved := true), [], Ok(()))
    else Step(s, [], Ok(()))
  }

  /** Whether the loop of onConnectionStateChange takes this sender as the video sender. */
  predicate IsVideoSender(x: Sender) {
    x.hasTransport && x.track.Some? && x.track.value.kind == "video"
  }

  /** The video sender after the publisher's loop over `senders` has run, starting
      from `current`: the last sender with a transport and a video track. */
  function VideoSenderAfter(current: Option<Sender>, senders: seq<Sender>): Option<Sender> {
    if senders == [] then current
    else if IsVideoSender(senders[|senders| - 1]) then Some(senders[|senders| - 1])
    else VideoSenderAfter(current, senders[..|senders| - 1])
  }

  /** onConnectionStateChange: `senders` is what getSenders() returns at that moment. */
  function OnConnectionStateChange(s: Session, state: PeerState, senders: seq<Sender>): Transition<()> {
    if !s.hasPeer then Step(s, [], Ok(()))
    else if state == PeerConnected && s.mode == Publisher then
      Step(s.(videoSender := VideoSenderAfter(s.videoSender, senders)), [], Ok(()))
    else if state == PeerFailed then Step(s, [Emit(Disconnected)], Ok(()))
    else Step(s, [], Ok(()))
  }

  /** onICEConnectionStateChange */
  function OnIceConnectionStateChange(s: Session, state: IceState): Transition<()> {
    if s.hasPeer && state == IceConnected then Step(s.(connectedResolved := true), [Emit(Connected)], Ok(()))
    else Step(s, [], Ok(()))
  }

  /** The tracks of a media stream after `tracks` have been added to it, if it exists. */
  function AddTracks(media: Option<seq<Track>>, tracks: seq<Track>): Option<seq<Track>> {
    if media.Some? then Some(media.value + tracks) else None
  }

  /** onTrack */
  function OnTrack(s: Session, track: Track): Transition<()> {
    if s.mode != Player then Step(s, [], Ok(()))
    else
      var tracks := s.remoteTracks + [track];
      if |tracks| == 2 then Step(s.(remoteTracks := tracks, playerMedia := AddTracks(s.playerMedia, tracks)), [], Ok(()))
      else Step(s.(remoteTracks := tracks), [], Ok(()))
  }

  // ---------------------------------------------------------------- trickle

  /** The record built from a candidate (index.ts:230-244). */
  function Expand(c: IceCandidate): (r: CandidateRecord)
    ensures r.componentId == 1 || r.componentId == 2
    ensures r.componentId == 1 <==> c.component == Some("rtp")
    ensures r.relAddr.Some? ==> r.relAddr == c.relatedAddress && r.relAddr.value != ""
  {
    CandidateRecord(
      foundation := OrElse(c.foundation, ""),
      componentId := if c.component == Some("rtp") then 1 else 2,
      transport := OrElse(c.protocol, "udp"),
      priority := OrZero(c.priority),
      address := OrElse(c.address, ""),
      port := OrZero(c.port),
      candidateType := OrElse(c.candidateType, "host"),
      relAddr := if OrElse(c.relatedAddress, "") != "" then c.relatedAddress else None,
      relPort := c.relatedPort)
  }

  /** The filter of onICECandidate as index.ts:212-227 writes it. The mDNS test
      looks at the end of the whole candidate line, which carries the address in its
      middle (see the Findings of the README). */
  predicate TrickleGateAsWritten(s: Session, c: IceCandidate) {
    c.candidate != "" && s.parsedOffer.Some? && s.useTrickle && !EndsWith(c.candidate, ".local")
  }

  /** The filter as intended: in addition, a candidate whose address is an mDNS
      name is not trickled. */
  predicate TrickleGate(s: Session, c: IceCandidate) {
    TrickleGateAsWritten(s, c) && !EndsWith(OrElse(c.address, ""), ".local")
  }

  /** onICECandidate with a given filter: `ev` is the event's candidate (None for
      the end of candidates), `reply` the answer to the PATCH if one is sent. A
      failed PATCH is logged and swallowed. */
  function Trickle(s: Session, ev: Option<IceCandidate>, passes: bool, reply: Option<Response>, json: JsonParse): Transition<()>
    requires passes ==> ev.Some? && s.parsedOffer.Some?
  {
    if !passes then Step(s, [], Ok(()))
    else
      var frag := IceFragment(s.parsedOffer.value, Expand(ev.value));
      var p := Patch(s, Fragment(frag), false, reply, json);
      Step(p.state, p.effects, Ok(()))
  }

  /** onICECandidate as written: the filter of index.ts:212-227. */
  function OnIceCandidate(s: Session, ev: Option<IceCandidate>, reply: Option<Response>, json: JsonParse): Transition<()> {
    Trickle(s, ev, ev.Some? && TrickleGateAsWritten(s, ev.value), reply, json)
  }

  /** onICECandidate as intended: the corrected filter. */
  function OnIceCandidateIntended(s: Session, ev: Option<IceCandidate>, reply: Option<Response>, json: JsonParse): Transition<()> {
    Trickle(s, ev, ev.Some? && TrickleGate(s, ev.value), reply, json)
  }

  // ---------------------------------------------------------------- HTTP exchanges

  const SdpType := "application/sdp"
  const FragType := "application/trickle-ice-sdpfrag"

  /** updateETag: the `etag` header, JSON-decoded, replaces the token; an absent or
      undecodable header leaves it. */
  function UpdateETag(etag: string, resp: Response, json: JsonParse): string {
    var h := Header(resp, "etag");
    if h != "" && json(h).Some? then json(h).value else etag
  }

  /** doSignalingPOST: returns the answer's body. */
  function Post(s: Session, sdp: string, reply: Option<Response>, json: JsonParse): Transition<string> {
    if s.endpoint == "" then Step(s, [], Fail(NoEndpoint))
    else
      var sent := [Fetch(Request(POST, s.endpoint, map["content-type" := SdpType], Text(sdp)), reply)];
      match reply
      case None => Step(s, sent, Fail(NetworkFailure))
      case Some(resp) =>
        if resp.status != 201 then Step(s, sent, Fail(UnexpectedStatus(resp.status, resp.body)))
        else
          var location := Header(resp, "location");
          if location != "" && !StartsWith(location, "http") && Url.ReplacePath(s.endpoint, location).None? then
            Step(s, sent, Fail(InvalidEndpointURL))
          else
            var url :=
              if location == "" then s.resourceURL
              else if StartsWith(location, "http") then location
              else Url.ReplacePath(s.endpoint, location).value;
            Step(s.(resourceURL := url, etag := UpdateETag(s.etag, resp, json)), sent, Ok(resp.body))
  }

  /** The headers of a PATCH: `if-match` carries the token when there is one. */
  function PatchHeaders(etag: string): map<string, string> {
    if etag != "" then map["content-type" := FragType, "if-match" := etag]
    else map["content-type" := FragType]
  }

  /** doSignalingPATCH */
  function Patch(s: Session, frag: Body, restart: bool, reply: Option<Response>, json: JsonParse): Transition<()> {
    if s.resourceURL == "" then Step(s, [], Fail(NoResourceURL))
    else
      var sent := [Fetch(Request(PATCH, s.resourceURL, PatchHeaders(s.etag), frag), reply)];
      match reply
      case None => Step(s, sent, Fail(NetworkFailure))
      case Some(resp) =>
        var failure := Fail(UnexpectedStatus(resp.status, resp.body));
        if resp.status == 200 && restart then Step(s.(etag := UpdateETag(s.etag, resp, json)), sent, Ok(()))
        else if resp.status == 204 && !restart then Step(s, sent, Ok(()))
        else if resp.status in {405, 501, 412} then Step(s.(useTrickle := false), sent, failure)
        else Step(s, sent, failure)
  }

  /** What the capability probe (the OPTIONS request) yields: None when fetch
      rejects; otherwise the response and what parserLinkHeader makes of its `link`
      header, reduced to relation -> url. */
  datatype Probe = Unreachable | Probed(resp: Response, links: map<string, string>)

  /** The reply to the OPTIONS request, as the trace records it. */
  function Answer(probe: Probe): Option<Response> {
    if probe.Probed? then Some(probe.resp) else None
  }

  /** checkEndpoint */
  function CheckEndpoint(s: Session, endpoint: string, probe: Probe): Transition<()> {
    var sent := [Fetch(Request(OPTIONS, endpoint, map[], NoBody), Answer(probe))];
    match probe
    case Unreachable => Step(s, sent, Fail(NetworkFailure))
    case Probed(resp, links) =>
      if Header(resp, "link") != "" && "ice-server" in links then
        Step(s.(providedIceServer := links["ice-server"]), sent, Ok(()))
      else Step(s, sent, Ok(()))
  }

  /** WithEndpoint. The trickle preference is recorded as soon as the endpoint
      parses, before the probe, so a failed probe leaves it changed. */
  function WithEndpoint(s: Session, endpoint: string, trickle: bool, probe: Probe): Transition<()> {
    if endpoint == "" then Step(s, [], Fail(EmptyEndpoint))
    else if !Url.Valid(endpoint) then Step(s, [], Fail(InvalidEndpointURL))
    else
      var c := CheckEndpoint(s.(useTrickle := trickle), endpoint, probe);
      if c.result.Fail? then c
      else Step(c.state.(endpoint := endpoint, resourceURL := ""), c.effects, Ok(()))
  }

  /** Disconnect: `reply` is the answer to the DELETE if one is sent. */
  function Disconnect(s: Session, reply: Option<Response>): Transition<()> {
    var k := KillConnection(s.(endpoint := ""));
    var t := k.state;
    if t.resourceURL == "" then Step(t, k.effects, Fail(NoResourceURL))
    else
      var sent := k.effects + [Fetch(Request(DELETE, t.resourceURL, map[], NoBody), reply)];
      match reply
      case None => Step(t, sent, Fail(NetworkFailure))
      case Some(resp) =>
        if resp.status != 200 then Step(t, sent, Fail(UnexpectedStatus(resp.status, resp.body)))
        else Step(t.(resourceURL := ""), sent, Ok(()))
  }

  // ---------------------------------------------------------------- negotiation

  /** doSignaling */
  function DoSignaling(s: Session, n: Negotiation, json: JsonParse): Transition<()> {
    if !s.hasPeer then Step(s, [], Ok(()))
    else if n.offer.None? then Step(s, [], Fail(EngineFailure))
    else if n.offer.value == "" then Step(s, [], Fail(OfferFailed))
    else
      var sdp := n.offer.value;
      var s1 := s.(parsedOffer := Some(Offer(sdp)));
      var o := if !s1.useTrickle then GatherThenPost(s1, sdp, n, json) else PostThenSetLocal(s1, sdp, n, json);
      if o.result.Fail? then Step(o.state, o.effects, Fail(o.result.error))
      else Step(o.state, o.effects + [SetRemoteAnswer(o.result.value)], if n.setRemoteOk then Ok(()) else Fail(EngineFailure))
  }

  /** The branch of doSignaling without trickle: apply the local offer, wait for
      gathering to finish, and POST the complete local description. The result is
      the answer. */
  function GatherThenPost(s1: Session, sdp: string, n: Negotiation, json: JsonParse): Transition<string> {
    if !n.setLocalOk then Step(s1, [SetLocalDescription(sdp)], Fail(EngineFailure))
    else
      var s2 := s1.(gatherResolved := true);
      var local := [SetLocalDescription(sdp), AwaitGathering];
      if n.gathered.None? then Step(s2, local, Fail(NoLocalDescription))
      else
        var p := Post(s2, n.gathered.value, n.post, json);
        Step(p.state, local + p.effects, p.result)
  }

  /** The trickle branch of doSignaling: POST the offer first, so that the resource
      URL is known before any candidate is trickled, then apply the local offer. */
  function PostThenSetLocal(s1: Session, sdp: string, n: Negotiation, json: JsonParse): Transition<string> {
    var p := Post(s1, sdp, n.post, json);
    if p.result.Fail? then p
    else if !n.setLocalOk then Step(p.state, p.effects + [SetLocalDescription(sdp)], Fail(EngineFailure))
    else Step(p.state, p.effects + [SetLocalDescription(sdp)], p.result)
  }

  /** The transceivers whipOffer adds, one send-only transceiver per source track. */
  function SendTransceivers(tracks: seq<Track>): seq<Effect> {
    if tracks == [] then []
    else SendTransceivers(tracks[..|tracks| - 1]) + [AddTransceiver(OfTrack(tracks[|tracks| - 1]), SendOnly)]
  }

  const ReceiveTransceivers: seq<Effect> :=
    [AddTransceiver(OfKind("video"), RecvOnly), AddTransceiver(OfKind("audio"), RecvOnly)]

  /** whepClientOffer: two receive-only transceivers, then the negotiation. */
  function WhepClientOffer(s: Session, n: Negotiation, json: JsonParse): Transition<()> {
    if !s.hasPeer then Step(s, [], Ok(()))
    else
      var d := DoSignaling(s, n, json);
      Step(d.state, ReceiveTransceivers + d.effects, d.result)
  }

  /** whipOffer: one send-only transceiver per source track, then the negotiation. */
  function WhipOffer(s: Session, tracks: seq<Track>, n: Negotiation, json: JsonParse): Transition<()> {
    if !s.hasPeer then Step(s, [], Ok(()))
    else
      var d := DoSignaling(s, n, json);
      Step(d.state, SendTransceivers(tracks) + d.effects, d.result)
  }

  /** Play, up to the await of connectedPromise: the caller gets playerMedia once
      OnIceConnectionStateChange resolves that promise. */
  function Play(s: Session, n: Negotiation, json: JsonParse): Transition<()> {
    var k := KillConnection(s.(mode := Player));
    var c := CreateConnection(k.state.(playerMedia := Some([])));
    var w := WhepClientOffer(c.state, n, json);
    Step(w.state, k.effects + c.effects + w.effects, w.result)
  }

  /** Publish, up to the await of connectedPromise. */
  function Publish(s: Session, tracks: seq<Track>, n: Negotiation, json: JsonParse): Transition<()> {
    var k := KillConnection(s.(mode := Publisher));
    var c := CreateConnection(k.state);
    var w := WhipOffer(c.state, tracks, n, json);
    Step(w.state, k.effects + c.effects + w.effects, w.result)
  }

  /** ReplaceVideoTrack: `tracks` is src.getTracks(), `ok` whether replaceTrack resolves. */
  function ReplaceVideoTrack(s: Session, tracks: seq<Track>, ok: bool): Transition<()> {
    if s.videoSender.None? then Step(s, [], Fail(PublisherNotActive))
    else if tracks == [] then Step(s, [], Fail(NoTracks))
    else Step(s, [ReplaceTrack(s.videoSender.value, tracks[0])], if ok then Ok(()) else Fail(EngineFailure))
  }

  // ---------------------------------------------------------------- whole runs

  /** One call into the client: a public method, or an event of the transport
      engine with the engine's state at that moment. */
  datatype Op =
    | CallWithEndpoint(endpoint: string, trickle: bool, probe: Probe)
    | CallDisconnect(reply: Option<Response>)
    | CallPlay(negotiation: Negotiation)
    | CallPublish(tracks: seq<Track>, negotiation: Negotiation)
    | CallReplaceVideoTrack(newTracks: seq<Track>, replaced: bool)
    | FireIceCandidate(candidate: Option<IceCandidate>, patchReply: Option<Response>)
    | FireTrack(track: Track)
    | FirePeerState(peerState: PeerState, senders: seq<Sender>)
    | FireIceState(iceState: IceState)
    | FireGatheringState(gatheringState: GatheringState)

  function Apply(s: Session, op: Op, json: JsonParse): Transition<()> {
    match op
    case CallWithEndpoint(e, t, p) => WithEndpoint(s, e, t, p)
    case CallDisconnect(r) => Disconnect(s, r)
    case CallPlay(n) => Play(s, n, json)
    case CallPublish(ts, n) => Publish(s, ts, n, json)
    case CallReplaceVideoTrack(ts, ok) => ReplaceVideoTrack(s, ts, ok)
    case FireIceCandidate(c, r) => OnIceCandidate(s, c, r, json)
    case FireTrack(t) => OnTrack(s, t)
    case FirePeerState(st, senders) => OnConnectionStateChange(s, st, senders)
    case FireIceState(st) => OnIceConnectionStateChange(s, st)
    case FireGatheringState(st) => OnGatheringStateChange(s, st)
  }

  /** The session and the effects after the calls `ops`, one after the other. A
      call that throws still leaves its state and effects. */
  function Run(s: Session, ops: seq<Op>, json: JsonParse): (Session, seq<Effect>) {
    if ops == [] then (s, [])
    else
      var r := Run(s, ops[..|ops| - 1], json);
      var a := Apply(r.0, ops[|ops| - 1], json);
      (a.state, r.1 + a.effects)
  }
}
