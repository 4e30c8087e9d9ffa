/** What the WHIP/WHEP client of src/lib/wish/index.ts promises, proved about the
    transitions of module WishSpec (and so, through module WishClient, about the
    class). */
module WishProperties {
  import opened Signaling
  import Url
  import opened WishSpec

  // ---------------------------------------------------------------- traces

  lemma SentAppend(a: seq<Effect>, b: seq<Effect>, m: Method)
    ensures Sent(a + b, m) <==> Sent(a, m) || Sent(b, m)
  {
    if Sent(a + b, m) {
      var i :| 0 <= i < |a + b| && (a + b)[i].Fetch? && (a + b)[i].request.verb == m;
      if i >= |a| {
        assert b[i - |a|] == (a + b)[i];
      }
    }
    if Sent(b, m) {
      var i :| 0 <= i < |b| && b[i].Fetch? && b[i].request.verb == m;
      assert (a + b)[|a| + i] == b[i];
    }
    if Sent(a, m) {
      var i :| 0 <= i < |a| && a[i].Fetch? && a[i].request.verb == m;
      assert (a + b)[i] == a[i];
    }
  }

  // ---------------------------------------------------------------- doSignalingPOST

  /** With no endpoint the POST fails before anything is sent. */
  lemma PostWithoutEndpoint(s: Session, sdp: string, reply: Option<Response>, json: JsonParse)
    requires s.endpoint == ""
    ensures Post(s, sdp, reply, json) == Step(s, [], Fail(NoEndpoint))
  {
  }

  /** Otherwise exactly one request is sent: the offer, as application/sdp, to the endpoint. */
  lemma PostRequest(s: Session, sdp: string, reply: Option<Response>, json: JsonParse)
    requires s.endpoint != ""
    ensures Post(s, sdp, reply, json).effects
      == [Fetch(Request(POST, s.endpoint, map["content-type" := "application/sdp"], Text(sdp)), reply)]
  {
  }

  /** A POST changes only the resource URL and the token, and neither when it fails. */
  lemma PostFrame(s: Session, sdp: string, reply: Option<Response>, json: JsonParse)
    ensures var p := Post(s, sdp, reply, json);
      && p.state == s.(resourceURL := p.state.resourceURL, etag := p.state.etag)
      && (p.result.Fail? ==> p.state == s)
  {
  }

  /** A reply other than 201 Created fails with its status and body. */
  lemma PostRejected(s: Session, sdp: string, resp: Response, json: JsonParse)
    requires s.endpoint != "" && resp.status != 201
    ensures var p := Post(s, sdp, Some(resp), json);
      p.result == Fail(UnexpectedStatus(resp.status, resp.body)) && p.state == s
  {
  }

  /** On 201 Created from a well-formed session the POST returns the answer, takes
      the token from the reply, and resolves `location`: kept as is when it starts
      with "http", otherwise the endpoint with its path replaced; no `location`
      leaves the resource URL. */
  lemma PostCreated(s: Session, sdp: string, resp: Response, json: JsonParse)
    requires WellFormed(s) && s.endpoint != "" && resp.status == 201
    ensures var p := Post(s, sdp, Some(resp), json);
      var location := Header(resp, "location");
      var u := Url.Parse(s.endpoint).value;
      && p.result == Ok(resp.body)
      && p.state.etag == UpdateETag(s.etag, resp, json)
      && (location == "" ==> p.state.resourceURL == s.resourceURL)
      && (location != "" && StartsWith(location, "http") ==> p.state.resourceURL == location)
      && (location != "" && !StartsWith(location, "http") ==>
            p.state.resourceURL
              == u.scheme + "://" + u.host + (if StartsWith(location, "/") then location else "/" + location) + u.suffix)
  {
    var location := Header(resp, "location");
    if location != "" && !StartsWith(location, "http") {
      Url.ReplacePathKeepsOrigin(s.endpoint, location);
    }
  }

  /** The endpoint of the example below, as a record. */
  lemma ExampleEndpoint(endpoint: string)
    requires endpoint == "https://relay.example/whip"
    ensures Url.Parse(endpoint) == Some(Url.Url("https", "relay.example", "/whip", ""))
  {
    var u := Url.Url("https", "relay.example", "/whip", "");
    ExampleIsWellFormed();
    ExampleToString();
    Url.ParseToString(u);
  }

  lemma ExampleIsWellFormed()
    ensures Url.WellFormedUrl(Url.Url("https", "relay.example", "/whip", ""))
  {
  }

  lemma ExampleToString()
    ensures Url.ToString(Url.Url("https", "relay.example", "/whip", "")) == "https://relay.example/whip"
  {
  }

  /** A relative location replaces the endpoint's path: "/res/42" against
      "https://relay.example/whip" gives "https://relay.example/res/42". */
  lemma RelativeLocationExample(endpoint: string)
    requires endpoint == "https://relay.example/whip"
    ensures Url.ReplacePath(endpoint, "/res/42") == Some("https://relay.example/res/42")
  {
    ExampleEndpoint(endpoint);
    ExampleResource();
  }

  lemma ExampleResource()
    ensures Url.ToString(Url.Url("https", "relay.example", "/res/42", "")) == "https://relay.example/res/42"
  {
  }

  // ---------------------------------------------------------------- updateETag

  /** The token changes only to what a present `etag` header JSON-decodes to; an
      absent or undecodable header keeps it. */
  lemma UpdateETagSource(etag: string, resp: Response, json: JsonParse)
    ensures var h := Header(resp, "etag");
      && (h != "" && json(h).Some? ==> UpdateETag(etag, resp, json) == json(h).value)
      && (h == "" || json(h).None? ==> UpdateETag(etag, resp, json) == etag)
  {
  }

  // ---------------------------------------------------------------- doSignalingPATCH

  /** With no resource URL the PATCH fails before anything is sent. */
  lemma PatchWithoutResource(s: Session, frag: Body, restart: bool, reply: Option<Response>, json: JsonParse)
    requires s.resourceURL == ""
    ensures Patch(s, frag, restart, reply, json) == Step(s, [], Fail(NoResourceURL))
  {
  }

  /** Otherwise one PATCH of the fragment goes to the resource URL; it carries
      `if-match` exactly when there is a token, and then the token itself. */
  lemma PatchRequest(s: Session, frag: Body, restart: bool, reply: Option<Response>, json: JsonParse)
    requires s.resourceURL != ""
    ensures var e := Patch(s, frag, restart, reply, json).effects;
      && |e| == 1 && e[0].Fetch?
      && var r := e[0].request;
      && r.verb == PATCH && r.url == s.resourceURL && r.body == frag
      && r.headers["content-type"] == "application/trickle-ice-sdpfrag"
      && ("if-match" in r.headers <==> s.etag != "")
      && ("if-match" in r.headers ==> r.headers["if-match"] == s.etag)
      && r.headers.Keys <= {"content-type", "if-match"}
  {
  }

  /** The reply statuses a PATCH accepts: 200 OK for an ICE restart, 204 No
      Content for a trickled candidate. */
  predicate PatchAccepts(status: int, restart: bool) {
    if restart then status == 200 else status == 204
  }

  /** The statuses after which trickle is given up for the session. */
  predicate GivesUpTrickle(status: int) {
    status == 405 || status == 412 || status == 501
  }

  /** The status table of doSignalingPATCH: which replies succeed, which turn
      trickle off, and that only an accepted restart refreshes the token. */
  lemma PatchStatusTable(s: Session, frag: Body, restart: bool, resp: Response, json: JsonParse)
    requires s.resourceURL != ""
    ensures var p := Patch(s, frag, restart, Some(resp), json);
      && (p.result.Ok? <==> PatchAccepts(resp.status, restart))
      && (p.result.Fail? ==> p.result.error == UnexpectedStatus(resp.status, resp.body))
      && p.state.useTrickle == (s.useTrickle && !GivesUpTrickle(resp.status))
      && p.state.etag == (if restart && resp.status == 200 then UpdateETag(s.etag, resp, json) else s.etag)
      && p.state == s.(useTrickle := p.state.useTrickle, etag := p.state.etag)
  {
  }

  /** A 412 Precondition Failed on a trickled candidate turns trickle off and fails;
      the token is kept. */
  lemma PreconditionFailedExample(s: Session, frag: Body, body: string, json: JsonParse)
    requires s.resourceURL != "" && s.useTrickle
    ensures var p := Patch(s, frag, false, Some(Response(412, map[], body)), json);
      p.result == Fail(UnexpectedStatus(412, body)) && !p.state.useTrickle && p.state.etag == s.etag
  {
  }

  // ---------------------------------------------------------------- onICECandidate

  /** A candidate is PATCHed exactly when it passes the filter and there is a
      resource URL; the fragment is the offer's credentials with the expanded
      candidate, and it is sent as a trickle (not a restart) PATCH. */
  lemma TrickleSendsIff(s: Session, ev: Option<IceCandidate>, reply: Option<Response>, json: JsonParse)
    ensures var t := OnIceCandidate(s, ev, reply, json);
      && (Sent(t.effects, PATCH) <==>
            && ev.Some? && ev.value.candidate != "" && s.parsedOffer.Some? && s.useTrickle
            && !EndsWith(ev.value.candidate, ".local") && s.resourceURL != "")
      && (Sent(t.effects, PATCH) ==>
            t.effects == Patch(s, Fragment(IceFragment(s.parsedOffer.value, Expand(ev.value))), false, reply, json).effects)
      && (forall i :: 0 <= i < |t.effects| ==> t.effects[i].Fetch? && t.effects[i].request.verb == PATCH)
  {
    var t := OnIceCandidate(s, ev, reply, json);
    if ev.Some? && TrickleGateAsWritten(s, ev.value) && s.resourceURL != "" {
      assert t.effects[0].Fetch? && t.effects[0].request.verb == PATCH;
    }
  }

  /** onICECandidate never throws: a failed PATCH is swallowed, and all it
      leaves is trickle turned off when the reply says so. The token never changes. */
  lemma TrickleFailureSwallowed(s: Session, ev: Option<IceCandidate>, reply: Option<Response>, json: JsonParse)
    ensures var t := OnIceCandidate(s, ev, reply, json);
      t.result == Ok(()) && (t.state == s || t.state == s.(useTrickle := false))
  {
  }

  /** No fragment the intended handler sends carries an mDNS (".local") address. */
  lemma NoMdnsAddressTrickled(s: Session, ev: Option<IceCandidate>, reply: Option<Response>, json: JsonParse)
    ensures var t := OnIceCandidateIntended(s, ev, reply, json);
      forall i :: 0 <= i < |t.effects| && t.effects[i].Fetch? && t.effects[i].request.body.Fragment? ==>
        !EndsWith(t.effects[i].request.body.fragment.candidate.address, ".local")
  {
  }

  /** The filter as written lets an mDNS host candidate through, because the line
      ends with the candidate's type, not with its address: the handler PATCHes a
      fragment whose address is the mDNS name, where the intended handler sends
      nothing. */
  lemma MdnsCandidateSlipsThrough(s: Session, reply: Option<Response>, json: JsonParse)
    requires s.parsedOffer.Some? && s.useTrickle && s.resourceURL != ""
    ensures var c := MdnsCandidate();
      && TrickleGateAsWritten(s, c) && !TrickleGate(s, c)
      && var t := OnIceCandidate(s, Some(c), reply, json);
      && |t.effects| == 1 && t.effects[0].Fetch? && t.effects[0].request.verb == PATCH
      && t.effects[0].request.body.Fragment?
      && EndsWith(t.effects[0].request.body.fragment.candidate.address, ".local")
      && OnIceCandidateIntended(s, Some(c), reply, json).effects == []
  {
    var c := MdnsCandidate();
    assert c.candidate[|c.candidate| - 6..] == "p host";
    assert OrElse(c.address, "")[|OrElse(c.address, "")| - 6..] == ".local";
    assert Expand(c).address == "d3a1.local";
  }

  /** An mDNS host candidate as browsers report it. */
  function MdnsCandidate(): IceCandidate {
    IceCandidate(
      candidate := "candidate:1 1 udp 2122260223 d3a1.local 54400 typ host",
      foundation := Some("1"), component := Some("rtp"), protocol := Some("udp"),
      priority := Some(2122260223), address := Some("d3a1.local"), port := Some(54400),
      candidateType := Some("host"), relatedAddress := None, relatedPort := None)
  }

  // ---------------------------------------------------------------- doSignaling

  /** With trickle on, the raw offer is POSTed before it is applied locally; the
      answer applied is the POST's body. */
  lemma TrickleNegotiationOrder(s: Session, n: Negotiation, json: JsonParse, answer: string)
    requires s.hasPeer && s.useTrickle && s.endpoint != ""
    requires n.offer.Some? && n.offer.value != "" && n.setLocalOk
    requires n.post.Some? && n.post.value.status == 201 && answer == n.post.value.body
    requires Post(s.(parsedOffer := Some(Offer(n.offer.value))), n.offer.value, n.post, json).result.Ok?
    ensures DoSignaling(s, n, json).effects ==
      [ Fetch(Request(POST, s.endpoint, map["content-type" := SdpType], Text(n.offer.value)), n.post),
        SetLocalDescription(n.offer.value),
        SetRemoteAnswer(answer) ]
  {
  }

  /** With trickle off, the offer is applied, gathering is awaited, and then the
      gathered local description is POSTed; the answer applied is the POST's body. */
  lemma GatheredNegotiationOrder(s: Session, n: Negotiation, json: JsonParse, answer: string)
    requires s.hasPeer && !s.useTrickle && s.endpoint != ""
    requires n.offer.Some? && n.offer.value != "" && n.setLocalOk && n.gathered.Some?
    requires n.post.Some? && n.post.value.status == 201 && answer == n.post.value.body
    requires Post(s.(parsedOffer := Some(Offer(n.offer.value)), gatherResolved := true), n.gathered.value, n.post, json).result.Ok?
    ensures DoSignaling(s, n, json).effects ==
      [ SetLocalDescription(n.offer.value),
        AwaitGathering,
        Fetch(Request(POST, s.endpoint, map["content-type" := SdpType], Text(n.gathered.value)), n.post),
        SetRemoteAnswer(answer) ]
  {
  }

  /** For every outcome of the engine and the network: with trickle on nothing is
      applied locally before the POST; with trickle off the POST comes only after the
      local offer and the wait for gathering; a remote answer is always the body of a
      201 reply to the POST. */
  lemma NegotiationOrder(s: Session, n: Negotiation, json: JsonParse)
    ensures var e := DoSignaling(s, n, json).effects;
      && (s.useTrickle ==>
            forall i :: 0 <= i < |e| && e[i].SetLocalDescription? ==> 0 < i && e[0].Fetch? && e[0].request.verb == POST)
      && (!s.useTrickle ==>
            forall i :: 0 <= i < |e| && e[i].Fetch? ==>
              2 <= i && e[0].SetLocalDescription? && e[1] == AwaitGathering)
      && (forall i :: 0 <= i < |e| && e[i].SetRemoteAnswer? ==>
            n.post.Some? && n.post.value.status == 201 && e[i].sdp == n.post.value.body)
  {
    if s.hasPeer && n.offer.Some? && n.offer.value != "" {
      var sdp := n.offer.value;
      var s1 := s.(parsedOffer := Some(Offer(sdp)));
      if !s.useTrickle {
        if n.setLocalOk && n.gathered.Some? {
          var p := Post(s1.(gatherResolved := true), n.gathered.value, n.post, json);
          assert |p.effects| <= 1;
        }
      } else {
        var p := Post(s1, sdp, n.post, json);
        assert |p.effects| <= 1;
      }
    }
  }

  // ---------------------------------------------------------------- WithEndpoint

  /** An empty or unparsable endpoint is refused with no effect at all. */
  lemma WithEndpointRefused(s: Session, endpoint: string, trickle: bool, probe: Probe)
    requires endpoint == "" || !Url.Valid(endpoint)
    ensures var t := WithEndpoint(s, endpoint, trickle, probe);
      t.state == s && t.effects == [] && t.result == Fail(if endpoint == "" then EmptyEndpoint else InvalidEndpointURL)
  {
  }

  /** A parsable endpoint is probed with one OPTIONS request. When the probe
      answers, the endpoint is adopted, trickle is set as asked, the resource URL is
      forgotten and the ICE server is the Link header's "ice-server" entry if there
      is one; nothing else changes. */
  lemma WithEndpointAdopted(s: Session, endpoint: string, trickle: bool, resp: Response, links: map<string, string>)
    requires endpoint != "" && Url.Valid(endpoint)
    ensures var t := WithEndpoint(s, endpoint, trickle, Probed(resp, links));
      && t.result == Ok(())
      && t.effects == [Fetch(Request(OPTIONS, endpoint, map[], NoBody), Some(resp))]
      && t.state == s.(useTrickle := trickle, endpoint := endpoint, resourceURL := "",
                       providedIceServer := t.state.providedIceServer)
      && (t.state.providedIceServer != s.providedIceServer ==>
            Header(resp, "link") != "" && "ice-server" in links && t.state.providedIceServer == links["ice-server"])
      && (Header(resp, "link") != "" && "ice-server" in links ==> t.state.providedIceServer == links["ice-server"])
  {
  }

  /** A probe that cannot reach the endpoint makes WithEndpoint throw, with the
      trickle preference already recorded and the old endpoint kept. */
  lemma WithEndpointUnreachable(s: Session, endpoint: string, trickle: bool)
    requires endpoint != "" && Url.Valid(endpoint)
    ensures var t := WithEndpoint(s, endpoint, trickle, Unreachable);
      t.result == Fail(NetworkFailure) && t.state == s.(useTrickle := trickle)
  {
  }

  // ---------------------------------------------------------------- teardown

  /** killConnection tears down exactly the per-connection state, and only when
      there is a connection; otherwise it does nothing. */
  lemma KillConnectionResets(s: Session)
    ensures var k := KillConnection(s);
      && !k.state.hasPeer && k.result == Ok(())
      && (s.hasPeer ==>
            && k.effects == [ClosePeer]
            && k.state.parsedOffer.None? && k.state.playerMedia.None? && k.state.videoSender.None?
            && k.state.remoteTracks == []
            && k.state == s.(hasPeer := false, parsedOffer := None, playerMedia := None, videoSender := None, remoteTracks := []))
      && (!s.hasPeer ==> k.state == s && k.effects == [])
  {
  }

  /** Disconnect forgets the endpoint and closes the connection first, whatever
      follows. Without a resource URL it throws and sends no DELETE; otherwise it
      sends one DELETE to it, and forgets it only on 200 OK. */
  lemma DisconnectContract(s: Session, reply: Option<Response>)
    ensures var t := Disconnect(s, reply);
      var k := KillConnection(s);
      && t.state.endpoint == "" && !t.state.hasPeer
      && t.state == k.state.(endpoint := "", resourceURL := t.state.resourceURL)
      && (s.resourceURL == "" ==> t.result == Fail(NoResourceURL) && !Sent(t.effects, DELETE) && t.effects == k.effects)
      && (s.resourceURL != "" ==> t.effects == k.effects + [Fetch(Request(DELETE, s.resourceURL, map[], NoBody), reply)])
      && (t.result.Ok? <==> s.resourceURL != "" && reply.Some? && reply.value.status == 200)
      && t.state.resourceURL == (if t.result.Ok? then "" else s.resourceURL)
  {
    var t := Disconnect(s, reply);
    var k := KillConnection(s);
    if s.resourceURL == "" {
      assert t.effects == k.effects;
      assert |k.effects| <= 1 && (k.effects != [] ==> k.effects[0] == ClosePeer);
    }
  }

  // ---------------------------------------------------------------- tracks

  /** onTrack does nothing outside player mode. In player mode it appends the
      track, and the arrival that brings the count to exactly two adds all the
      tracks, in order, to the player's stream. */
  lemma OnTrackContract(s: Session, track: Track)
    ensures var t := OnTrack(s, track);
      && t.effects == [] && t.result == Ok(())
      && (s.mode != Player ==> t.state == s)
      && (s.mode == Player ==>
            && t.state.remoteTracks == s.remoteTracks + [track]
            && t.state.playerMedia == (if |s.remoteTracks| == 1 then AddTracks(s.playerMedia, s.remoteTracks + [track]) else s.playerMedia)
            && t.state == s.(remoteTracks := t.state.remoteTracks, playerMedia := t.state.playerMedia))
  {
  }

  /** The session after onTrack has run for each of the tracks, in order. */
  function Arrive(s: Session, tracks: seq<Track>): Session {
    if tracks == [] then s else OnTrack(Arrive(s, tracks[..|tracks| - 1]), tracks[|tracks| - 1]).state
  }

  /** Over any run of arrivals in player mode on a fresh connection, every track is
      kept, and the player's stream holds exactly the first two tracks once two or
      more have arrived, and no track before. */
  lemma {:induction false} TracksAttachAtTwo(s: Session, tracks: seq<Track>)
    requires s.mode == Player && s.remoteTracks == [] && s.playerMedia == Some([])
    ensures Arrive(s, tracks) == s.(remoteTracks := tracks, playerMedia := Some(FirstTwo(tracks)))
  {
    if tracks != [] {
      var init := tracks[..|tracks| - 1];
      TracksAttachAtTwo(s, init);
      AttachStep(s, init, tracks[|tracks| - 1]);
      assert init + [tracks[|tracks| - 1]] == tracks;
    }
  }

  /** One arrival on a player whose stream holds the first two of the tracks so far:
      the stream then holds the first two of the longer run. */
  lemma AttachStep(s: Session, init: seq<Track>, last: Track)
    requires s.mode == Player
    ensures OnTrack(s.(remoteTracks := init, playerMedia := Some(FirstTwo(init))), last).state
         == s.(remoteTracks := init + [last], playerMedia := Some(FirstTwo(init + [last])))
  {
    var tracks := init + [last];
    if |init| == 1 {
      assert FirstTwo(init) == [] && FirstTwo(tracks) == tracks;
      assert [] + tracks == tracks;
    } else if |init| > 1 {
      assert tracks[..2] == init[..2];
    }
  }

  /** The tracks the player's stream holds once the given tracks have arrived. */
  function FirstTwo(tracks: seq<Track>): seq<Track> {
    if |tracks| >= 2 then tracks[..2] else []
  }

  /** ReplaceVideoTrack: without a video sender or without tracks it throws before
      touching the engine; otherwise the sender's track is replaced by the stream's
      first track. It never changes the session. */
  lemma ReplaceVideoTrackGuard(s: Session, tracks: seq<Track>, ok: bool)
    ensures var t := ReplaceVideoTrack(s, tracks, ok);
      && t.state == s
      && (s.videoSender.None? ==> t.result == Fail(PublisherNotActive) && t.effects == [])
      && (s.videoSender.Some? && tracks == [] ==> t.result == Fail(NoTracks) && t.effects == [])
      && (s.videoSender.Some? && tracks != [] ==>
            t.effects == [ReplaceTrack(s.videoSender.value, tracks[0])] && (t.result.Ok? <==> ok))
  {
  }

  // ---------------------------------------------------------------- connection events

  /** A new connection uses the ICE server the endpoint advertised, if any, and the
      configured list otherwise; both one-shot signals start over. */
  lemma CreateConnectionServers(s: Session)
    ensures var c := CreateConnection(s);
      && c.effects == [OpenPeer(if s.providedIceServer != "" then [s.providedIceServer] else s.iceServers)]
      && c.state.hasPeer && !c.state.connectedResolved && !c.state.gatherResolved
      && c.state == s.(hasPeer := true, connectedResolved := false, gatherResolved := false)
  {
  }

  /** An ICE server advertised by the probe of WithEndpoint is the only ICE server
      of the connection the next Play opens. */
  lemma AdvertisedIceServerUsed(s: Session, endpoint: string, trickle: bool, resp: Response,
                                links: map<string, string>, n: Negotiation, json: JsonParse)
    requires endpoint != "" && Url.Valid(endpoint)
    requires Header(resp, "link") != "" && "ice-server" in links && links["ice-server"] != ""
    ensures var w := WithEndpoint(s, endpoint, trickle, Probed(resp, links));
      var p := Play(w.state, n, json);
      OpenPeer([links["ice-server"]]) in p.effects
  {
    var w := WithEndpoint(s, endpoint, trickle, Probed(resp, links));
    var k := KillConnection(w.state.(mode := Player));
    var c := CreateConnection(k.state.(playerMedia := Some([])));
    var p := Play(w.state, n, json);
    assert p.effects[|k.effects|] == c.effects[0];
  }

  /** The publisher's loop settles on the last sender with a transport and a video
      track ... */
  lemma {:induction false} VideoSenderIsLastEligible(current: Option<Sender>, senders: seq<Sender>, j: nat)
    requires j < |senders| && IsVideoSender(senders[j])
    requires forall k :: j < k < |senders| ==> !IsVideoSender(senders[k])
    ensures VideoSenderAfter(current, senders) == Some(senders[j])
  {
    var last := |senders| - 1;
    if j < last {
      assert !IsVideoSender(senders[last]);
      var init := senders[..last];
      assert init[j] == senders[j];
      forall k | j < k < |init| ensures !IsVideoSender(init[k]) {
        assert init[k] == senders[k];
      }
      VideoSenderIsLastEligible(current, init, j);
    }
  }

  /** ... and keeps the sender it had when there is none. */
  lemma {:induction false} NoVideoSenderKeepsCurrent(current: Option<Sender>, senders: seq<Sender>)
    requires forall i :: 0 <= i < |senders| ==> !IsVideoSender(senders[i])
    ensures VideoSenderAfter(current, senders) == current
  {
    if senders != [] {
      var init := senders[..|senders| - 1];
      forall i | 0 <= i < |init| ensures !IsVideoSender(init[i]) {
        assert init[i] == senders[i];
      }
      NoVideoSenderKeepsCurrent(current, init);
    }
  }

  /** Without a connection the handler returns at once. With one, in publisher mode
      the "connected" state records the video sender; a "failed" connection is
      reported as a disconnected status; other states do nothing. */
  lemma ConnectionStateEvents(s: Session, state: PeerState, senders: seq<Sender>)
    ensures var t := OnConnectionStateChange(s, state, senders);
      && t.result == Ok(())
      && (!s.hasPeer ==> t == Step(s, [], Ok(())))
      && (s.hasPeer && state == PeerFailed ==> t.effects == [Emit(Disconnected)] && t.state == s)
      && (s.hasPeer && state == PeerConnected && s.mode == Publisher ==>
            t.effects == [] && t.state == s.(videoSender := VideoSenderAfter(s.videoSender, senders)))
      && (state != PeerFailed && !(state == PeerConnected && s.mode == Publisher) ==> t.effects == [] && t.state == s)
      && (Emit(Disconnected) in t.effects <==> s.hasPeer && state == PeerFailed)
  {
  }

  /** With a connection, "complete" resolves the gathering signal; every other case
      changes nothing. The handler never fails and has no effect. */
  lemma GatheringCompleteResolves(s: Session, state: GatheringState)
    ensures var t := OnGatheringStateChange(s, state);
      && t.effects == [] && t.result == Ok(())
      && (s.hasPeer && state == GatherComplete ==> t.state == s.(gatherResolved := true))
      && (!s.hasPeer || state != GatherComplete ==> t.state == s)
  {
  }

  /** With a connection, the "connected" ICE state is reported as a connected status
      and resolves the signal Play and Publish wait on. Without one, the handler
      returns at once. */
  lemma IceConnectedResolves(s: Session, state: IceState)
    ensures var t := OnIceConnectionStateChange(s, state);
      && t.result == Ok(())
      && (!s.hasPeer ==> t == Step(s, [], Ok(())))
      && (s.hasPeer && state == IceConnected <==> Emit(Connected) in t.effects)
      && (s.hasPeer && state == IceConnected ==> t.state == s.(connectedResolved := true))
      && (state != IceConnected ==> t.state == s && t.effects == [])
  {
  }
}
