/** The older WHIP/WHEP client of src/lib/wish.ts as transitions of a Session value,
    in the style of module WishSpec: each function is one method of its WISH class,
    taking the session before the call and the answers of the outside world, and
    yielding the session after it, the effects in order and how the call ended.
    This client has no trickle, no token and no endpoint probe; its killConnection
    only closes the connection, and its resolvers are optional fields. */
module LegacySpec {
  import opened Signaling
  import Url

  /** DEFAULT_ICE_SERVERS of wish.ts */
  const DefaultIceServers: seq<string> := ["stun:stun.cloudflare.com:3478"]

  /** A one-shot signal behind an optional resolver: None while no resolver exists,
      Some(false) while pending, Some(true) once resolved. */
  type Signal = Option<bool>

  /** Resolving calls the resolver only when it is defined (wish.ts:121, 200, 222). */
  function Resolve(g: Signal): Signal {
    if g.Some? then Some(true) else None
  }

  /** The fields of a legacy WISH object; "" stands for an undefined string. Once
      set, peerConnection is never unset: hasPeer says whether it was ever created. */
  datatype Session = Session(
    hasPeer: bool,
    iceServers: seq<string>,
    remoteTracks: seq<Track>,
    playerMedia: Option<seq<Track>>,
    connected: Signal,
    gather: Signal,
    endpoint: string,
    resourceURL: string,
    mode: Mode)

  type Transition<T> = Step<Session, T>

  /** The constructor (wish.ts:36-43): no resolver exists yet. */
  function Initial(iceServers: Option<seq<string>>): Session {
    Session(
      hasPeer := false,
      iceServers := if iceServers.Some? then iceServers.value else DefaultIceServers,
      remoteTracks := [],
      playerMedia := None,
      connected := None,
      gather := None,
      endpoint := "",
      resourceURL := "",
      mode := Player)
  }

  /** A stored endpoint parses, and a connection only exists with both resolvers. */
  ghost predicate WellFormed(s: Session) {
    && (s.endpoint == "" || Url.Valid(s.endpoint))
    && (s.hasPeer ==> s.connected.Some? && s.gather.Some?)
  }

  /** killConnection: closes the connection and changes no field. */
  function KillConnection(s: Session): Transition<()> {
    Step(s, if s.hasPeer then [ClosePeer] else [], Ok(()))
  }

  /** newResolvers: both signals start over, pending. */
  function NewResolvers(s: Session): Session {
    s.(connected := Some(false), gather := Some(false))
  }

  /** createConnection: always with the configured servers. */
  function CreateConnection(s: Session): Transition<()> {
    Step(NewResolvers(s.(hasPeer := true)), [OpenPeer(s.iceServers)], Ok(()))
  }

  /** onGatheringStateChange */
  function OnGatheringStateChange(s: Session, state: GatheringState): Transition<()> {
    if s.hasPeer && state == GatherComplete then Step(s.(gather := Resolve(s.gather)), [], Ok(()))
    else Step(s, [], Ok(()))
  }

  /** onICEConnectionStateChange: no status event in this client. */
  function OnIceConnectionStateChange(s: Session, state: IceState): Transition<()> {
    if s.hasPeer && state == IceConnected then Step(s.(connected := Resolve(s.connected)), [], Ok(()))
    else Step(s, [], Ok(()))
  }

  /** onTrack, in any mode. */
  function OnTrack(s: Session, track: Track): Transition<()> {
    var tracks := s.remoteTracks + [track];
    if |tracks| == 2 && s.playerMedia.Some? then
      Step(s.(remoteTracks := tracks, playerMedia := Some(s.playerMedia.value + tracks)), [], Ok(()))
    else Step(s.(remoteTracks := tracks), [], Ok(()))
  }

  /** doSignalingPOST of wish.ts: the token is not looked at. */
  function Post(s: Session, sdp: string, reply: Option<Response>): Transition<string> {
    if s.endpoint == "" then Step(s, [], Fail(NoEndpoint))
    else
      var sent := [Fetch(Request(POST, s.endpoint, map["content-type" := "application/sdp"], Text(sdp)), reply)];
      match reply
      case None => Step(s, sent, Fail(NetworkFailure))
      case Some(resp) =>
        if resp.status != 201 then Step(s, sent, Fail(UnexpectedStatus(resp.status, resp.body)))
        else
          var location := Header(resp, "location");
          if location == "" then Step(s, sent, Ok(resp.body))
          else if StartsWith(location, "http") then Step(s.(resourceURL := location), sent, Ok(resp.body))
          else match Url.ReplacePath(s.endpoint, location)
            case None => Step(s, sent, Fail(InvalidEndpointURL))
            case Some(url) => Step(s.(resourceURL := url), sent, Ok(resp.body))
  }

  /** doSignalingPATCH of wish.ts: only 204 succeeds, and no field changes. */
  function Patch(s: Session, frag: Body, reply: Option<Response>): Transition<()> {
    if s.resourceURL == "" then Step(s, [], Fail(NoResourceURL))
    else
      var sent := [Fetch(Request(PATCH, s.resourceURL, map["content-type" := "application/trickle-ice-sdpfrag"], frag), reply)];
      match reply
      case None => Step(s, sent, Fail(NetworkFailure))
      case Some(resp) =>
        if resp.status != 204 then Step(s, sent, Fail(UnexpectedStatus(resp.status, resp.body)))
        else Step(s, sent, Ok(()))
  }

  /** doSignaling: always applies the offer and waits for gathering before the POST. */
  function DoSignaling(s: Session, n: Negotiation): Transition<()> {
    if !s.hasPeer then Step(s, [], Ok(()))
    else if n.offer.None? then Step(s, [], Fail(EngineFailure))
    else
      var sdp := n.offer.value;
      if !n.setLocalOk then Step(s, [SetLocalDescription(sdp)], Fail(EngineFailure))
      else
        var s1 := s.(gather := Resolve(s.gather));
        var local := [SetLocalDescription(sdp), AwaitGathering];
        if n.gathered.None? then Step(s1, local, Fail(NoLocalDescription))
        else
          var p := Post(s1, n.gathered.value, n.post);
          if p.result.Fail? then Step(p.state, local + p.effects, Fail(p.result.error))
          else
            Step(p.state, local + p.effects + [SetRemoteAnswer(p.result.value)],
                 if n.setRemoteOk then Ok(()) else Fail(EngineFailure))
  }

  /** The transceivers whipOffer adds, one send-only transceiver per source track. */
  function SendTransceivers(tracks: seq<Track>): seq<Effect> {
    if tracks == [] then []
    else SendTransceivers(tracks[..|tracks| - 1]) + [AddTransceiver(OfTrack(tracks[|tracks| - 1]), SendOnly)]
  }

  const ReceiveTransceivers: seq<Effect> :=
    [AddTransceiver(OfKind("video"), RecvOnly), AddTransceiver(OfKind("audio"), RecvOnly)]

  /** whepClientOffer */
  function WhepClientOffer(s: Session, n: Negotiation): Transition<()> {
    if !s.hasPeer then Step(s, [], Ok(()))
    else
      var d := DoSignaling(s, n);
      Step(d.state, ReceiveTransceivers + d.effects, d.result)
  }

  /** whipOffer */
  function WhipOffer(s: Session, tracks: seq<Track>, n: Negotiation): Transition<()> {
    if !s.hasPeer then Step(s, [], Ok(()))
    else
      var d := DoSignaling(s, n);
      Step(d.state, SendTransceivers(tracks) + d.effects, d.result)
  }

  /** WithEndpoint of wish.ts: no probe, nothing sent. */
  function WithEndpoint(s: Session, endpoint: string): Transition<()> {
    if endpoint == "" then Step(s, [], Fail(EmptyEndpoint))
    else if !Url.Valid(endpoint) then Step(s, [], Fail(InvalidEndpointURL))
    else Step(s.(endpoint := endpoint, resourceURL := ""), [], Ok(()))
  }

  /** Disconnect of wish.ts: `reply` is the answer to the DELETE if one is sent. */
  function Disconnect(s: Session, reply: Option<Response>): Transition<()> {
    var k := KillConnection(s);
    if s.resourceURL == "" then Step(s, k.effects, Fail(NoResourceURL))
    else
      var sent := k.effects + [Fetch(Request(DELETE, s.resourceURL, map[], NoBody), reply)];
      match reply
      case None => Step(s, sent, Fail(NetworkFailure))
      case Some(resp) =>
        if resp.status != 200 then Step(s, sent, Fail(UnexpectedStatus(resp.status, resp.body)))
        else Step(s, sent, Ok(()))
  }

  /** Play into the caller's stream `dst`, up to the await of connectedPromise. */
  function Play(s: Session, dst: seq<Track>, n: Negotiation): Transition<()> {
    var k := KillConnection(s.(mode := Player));
    var c := CreateConnection(k.state.(playerMedia := Some(dst)));
    var w := WhepClientOffer(c.state, n);
    Step(w.state, k.effects + c.effects + w.effects, w.result)
  }

  /** Publish, up to the await of connectedPromise. */
  function Publish(s: Session, tracks: seq<Track>, n: Negotiation): Transition<()> {
    var k := KillConnection(s.(mode := Publisher));
    var c := CreateConnection(k.state);
    var w := WhipOffer(c.state, tracks, n);
    Step(w.state, k.effects + c.effects + w.effects, w.result)
  }

  // ---------------------------------------------------------------- whole runs

  datatype Op =
    | CallWithEndpoint(endpoint: string)
    | CallDisconnect(reply: Option<Response>)
    | CallPlay(dst: seq<Track>, negotiation: Negotiation)
    | CallPublish(tracks: seq<Track>, negotiation: Negotiation)
    | FireTrack(track: Track)
    | FireIceState(iceState: IceState)
    | FireGatheringState(gatheringState: GatheringState)

  function Apply(s: Session, op: Op): Transition<()> {
    match op
    case CallWithEndpoint(e) => WithEndpoint(s, e)
    case CallDisconnect(r) => Disconnect(s, r)
    case CallPlay(dst, n) => Play(s, dst, n)
    case CallPublish(ts, n) => Publish(s, ts, n)
    case FireTrack(t) => OnTrack(s, t)
    case FireIceState(st) => OnIceConnectionStateChange(s, st)
    case FireGatheringState(st) => OnGatheringStateChange(s, st)
  }

  function Run(s: Session, ops: seq<Op>): (Session, seq<Effect>) {
    if ops == [] then (s, [])
    else
      var r := Run(s, ops[..|ops| - 1]);
      var a := Apply(r.0, ops[|ops| - 1]);
      (a.state, r.1 + a.effects)
  }
}
