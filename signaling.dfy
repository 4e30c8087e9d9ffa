/** Values shared by the two WHIP/WHEP clients: HTTP exchanges, the objects of the
    browser's transport engine that the clients look at, the effects a client has on
    the outside world (the trace), and the errors it throws.

    JavaScript's optional strings are modelled as `string`, with "" standing for
    `undefined`: the clients only ever test them for truthiness, and "" is falsy. */
module Signaling {

  datatype Option<+T> = None | Some(value: T)

  /** JavaScript `o || d` on an optional string: undefined and "" both fall back. */
  function OrElse(o: Option<string>, d: string): string {
    if o.Some? && o.value != "" then o.value else d
  }

  /** JavaScript `o || 0` on an optional number. */
  function OrZero(o: Option<int>): int {
    if o.Some? then o.value else 0
  }

  predicate StartsWith(s: string, prefix: string) {
    |prefix| <= |s| && s[..|prefix|] == prefix
  }

  predicate EndsWith(s: string, suffix: string) {
    |suffix| <= |s| && s[|s| - |suffix|..] == suffix
  }

  /** The errors the clients throw, one per distinct `throw` of the source. */
  datatype Error =
    | NoEndpoint                                  // "No WHIP/WHEP endpoint has been set"
    | UnexpectedStatus(status: int, body: string) // "Unexpected status code <status>: <body>"
    | NoResourceURL                               // "No resource URL"
    | EmptyEndpoint                               // "Endpoint cannot be empty"
    | InvalidEndpointURL                          // "Invalid Endpoint URL" / a URL constructor failure
    | NetworkFailure                              // the promise returned by fetch rejected
    | OfferFailed                                 // "Fail to create offer"
    | NoLocalDescription                          // "no LocalDescription"
    | EngineFailure                               // a promise of the transport engine rejected
    | PublisherNotActive                          // "Publisher is not active"
    | NoTracks                                    // "No tracks in MediaStream"

  /** How an operation ends: it returns a value or throws. */
  datatype Outcome<+T> = Ok(value: T) | Fail(error: Error)

  datatype Mode = Player | Publisher

  /** The status events of src/lib/wish/events.d.ts. */
  datatype Status = Connected | Disconnected

  /** RTCPeerConnection.connectionState */
  datatype PeerState = PeerNew | PeerConnecting | PeerConnected | PeerDisconnected | PeerFailed | PeerClosed

  /** RTCPeerConnection.iceConnectionState */
  datatype IceState = IceNew | IceChecking | IceConnected | IceCompleted | IceDisconnected | IceFailed | IceClosed

  /** RTCPeerConnection.iceGatheringState */
  datatype GatheringState = GatherNew | Gathering | GatherComplete

  /** A media track, identified by the engine; `kind` is "audio" or "video". */
  datatype Track = Track(id: nat, kind: string)

  /** An RTCRtpSender as the clients inspect it: its track and whether it has a transport. */
  datatype Sender = Sender(id: nat, track: Option<Track>, hasTransport: bool)

  /** A parsed local offer (semantic-sdp's SDPInfo); its ICE credentials are not looked into. */
  datatype Offer = Offer(sdp: string)

  /** The fields of an RTCIceCandidate that the client reads; a missing field is None. */
  datatype IceCandidate = IceCandidate(
    candidate: string,
    foundation: Option<string>,
    component: Option<string>,
    protocol: Option<string>,
    priority: Option<int>,
    address: Option<string>,
    port: Option<int>,
    candidateType: Option<string>,
    relatedAddress: Option<string>,
    relatedPort: Option<int>)

  /** The record handed to CandidateInfo.expand when a candidate is trickled. */
  datatype CandidateRecord = CandidateRecord(
    foundation: string,
    componentId: int,
    transport: string,
    priority: int,
    address: string,
    port: int,
    candidateType: string,
    relAddr: Option<string>,
    relPort: Option<int>)

  /** A trickle fragment: the offer's ICE credentials plus one candidate. Its text form
      (toIceFragmentString) is the SDP library's business and is not modelled. */
  datatype IceFragment = IceFragment(offer: Offer, candidate: CandidateRecord)

  datatype Method = OPTIONS | POST | PATCH | DELETE

  datatype Body = NoBody | Text(text: string) | Fragment(fragment: IceFragment)

  /** Header names are the lower-case keys of the map. */
  datatype Request = Request(verb: Method, url: string, headers: map<string, string>, body: Body)

  datatype Response = Response(status: int, headers: map<string, string>, body: string)

  /** `resp.headers.get(name)` where null and "" are both falsy. */
  function Header(r: Response, name: string): string {
    if name in r.headers then r.headers[name] else ""
  }

  datatype TransceiverSource = OfKind(kind: string) | OfTrack(track: Track)

  datatype Direction = SendOnly | RecvOnly

  /** What a client does to the outside world, in order: requests it sends (with the
      reply they got, None when fetch rejected), calls it makes on the transport
      engine, and status events it dispatches. */
  datatype Effect =
    | Fetch(request: Request, reply: Option<Response>)
    | OpenPeer(iceServers: seq<string>)
    | ClosePeer
    | AddTransceiver(source: TransceiverSource, direction: Direction)
    | SetLocalDescription(sdp: string)
    | AwaitGathering
    | SetRemoteAnswer(sdp: string)
    | ReplaceTrack(sender: Sender, track: Track)
    | Emit(status: Status)

  /** Whether the effects contain a request with the given method. */
  predicate Sent(effects: seq<Effect>, m: Method) {
    exists i :: 0 <= i < |effects| && effects[i].Fetch? && effects[i].request.verb == m
  }

  /** The index of the first request with method m; |effects| when there is none. */
  function FirstSent(effects: seq<Effect>, m: Method): (i: nat)
    ensures i <= |effects|
    ensures i < |effects| <==> Sent(effects, m)
    ensures i < |effects| ==> effects[i].Fetch? && effects[i].request.verb == m
    ensures forall k :: 0 <= k < i ==> !(effects[k].Fetch? && effects[k].request.verb == m)
  {
    if effects == [] then 0
    else if effects[0].Fetch? && effects[0].request.verb == m then 0
    else
      var j := FirstSent(effects[1..], m);
      assert forall k :: 1 <= k < j + 1 ==> effects[k] == effects[1..][k - 1];
      assert Sent(effects[1..], m) ==> Sent(effects, m) by {
        if Sent(effects[1..], m) {
          var k :| 0 <= k < |effects[1..]| && effects[1..][k].Fetch? && effects[1..][k].request.verb == m;
          assert effects[k + 1] == effects[1..][k];
        }
      }
      assert Sent(effects, m) ==> Sent(effects[1..], m) by {
        if Sent(effects, m) {
          var k :| 0 <= k < |effects| && effects[k].Fetch? && effects[k].request.verb == m;
          assert k != 0;
          assert effects[1..][k - 1] == effects[k];
        }
      }
      1 + j
  }

  /** What the transport engine and the network answer during one negotiation
      (doSignaling): each awaited promise becomes an input. */
  datatype Negotiation = Negotiation(
    offer: Option<string>,          // createOffer(): None when it rejects, else the offer's sdp
    setLocalOk: bool,               // whether setLocalDescription resolves
    gathered: Option<string>,       // localDescription.sdp once gathering is over; None if null
    post: Option<Response>,         // reply to the POST; None when fetch rejects
    setRemoteOk: bool)              // whether setRemoteDescription resolves

  /** One transition of a client: its new state, what it did, and how it ended. */
  datatype Step<S, T> = Step(state: S, effects: seq<Effect>, result: Outcome<T>)

  /** The built-in JSON.parse, as far as the client uses it: None when it throws,
      otherwise the decoded value as an `if-match` header would carry it ("" for a
      falsy value). */
  type JsonParse = string -> Option<string>
}
