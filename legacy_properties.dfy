/** What the transitions of module LegacySpec guarantee, call by call and over whole
    runs, and how the older client of src/lib/wish.ts differs from the client of
    src/lib/wish/index.ts (module WishSpec). */
module LegacyProperties {
  import opened Signaling
  import Url
  import opened LegacySpec
  import Now = WishSpec

  // ---------------------------------------------------------------- doSignalingPOST

  /** A POST changes only the resource URL, and not when it fails. Without an
      endpoint it sends nothing; otherwise it sends the offer to the endpoint. */
  lemma PostFrame(s: Session, sdp: string, reply: Option<Response>)
    ensures var p := Post(s, sdp, reply);
      && p.state == s.(resourceURL := p.state.resourceURL)
      && (p.result.Fail? ==> p.state == s)
      && (s.endpoint == "" ==> p == Step(s, [], Fail(NoEndpoint)))
      && (s.endpoint != "" ==>
            p.effects == [Fetch(Request(POST, s.endpoint, map["content-type" := "application/sdp"], Text(sdp)), reply)])
  {
  }

  /** On 201 Created from a well-formed session the POST returns the answer and
      resolves `location` as the current client does: kept as is when it starts with
      "http", otherwise the endpoint with its path replaced; no `location` leaves the
      resource URL. Any other status fails with that status and the body. */
  lemma PostStatus(s: Session, sdp: string, resp: Response)
    requires WellFormed(s) && s.endpoint != ""
    ensures var p := Post(s, sdp, Some(resp));
      var location := Header(resp, "location");
      && (resp.status != 201 ==> p.result == Fail(UnexpectedStatus(resp.status, resp.body)) && p.state == s)
      && (resp.status == 201 ==>
            && p.result == Ok(resp.body)
            && (location == "" ==> p.state == s)
            && (location != "" && StartsWith(location, "http") ==> p.state == s.(resourceURL := location))
            && (location != "" && !StartsWith(location, "http") ==>
                  p.state == s.(resourceURL := Url.ReplacePath(s.endpoint, location).value)))
  {
  }

  /** Both clients POST alike: from sessions with the same endpoint and resource URL,
      the same offer and reply give the same request, the same outcome and the same
      resource URL; only the current client also takes a token. */
  lemma PostAgrees(s: Session, t: Now.Session, sdp: string, reply: Option<Response>, json: JsonParse)
    requires s.endpoint == t.endpoint && s.resourceURL == t.resourceURL
    ensures var p := Post(s, sdp, reply);
      var q := Now.Post(t, sdp, reply, json);
      p.effects == q.effects && p.result == q.result && p.state.resourceURL == q.state.resourceURL
  {
  }

  // ---------------------------------------------------------------- doSignalingPATCH

  /** A PATCH never changes the session. Without a resource URL it sends nothing;
      otherwise it sends the fragment, with no `if-match`, and succeeds exactly on
      204 No Content. */
  lemma PatchContract(s: Session, frag: Body, reply: Option<Response>)
    ensures var p := Patch(s, frag, reply);
      && p.state == s
      && (s.resourceURL == "" ==> p.effects == [] && p.result == Fail(NoResourceURL))
      && (s.resourceURL != "" ==>
            p.effects == [Fetch(Request(PATCH, s.resourceURL, map["content-type" := "application/trickle-ice-sdpfrag"], frag), reply)])
      && (p.result.Ok? <==> s.resourceURL != "" && reply.Some? && reply.value.status == 204)
      && (s.resourceURL != "" && reply.Some? && reply.value.status != 204 ==>
            p.result == Fail(UnexpectedStatus(reply.value.status, reply.value.body)))
  {
  }

  /** On a trickle PATCH without a token both clients send the same request and end
      the same way; the current client alone gives up trickle on 405, 412 or 501. */
  lemma PatchAgrees(s: Session, t: Now.Session, frag: Body, reply: Option<Response>, json: JsonParse)
    requires s.resourceURL == t.resourceURL && t.etag == ""
    ensures var p := Patch(s, frag, reply);
      var q := Now.Patch(t, frag, false, reply, json);
      p.effects == q.effects && p.result == q.result
  {
  }

  // ---------------------------------------------------------------- WithEndpoint

  /** An empty or unparsable endpoint is refused with no change; a parsable one is
      adopted, the resource URL forgotten, and nothing is sent. */
  lemma WithEndpointContract(s: Session, endpoint: string)
    ensures var t := WithEndpoint(s, endpoint);
      && t.effects == []
      && (endpoint == "" ==> t.state == s && t.result == Fail(EmptyEndpoint))
      && (endpoint != "" && !Url.Valid(endpoint) ==> t.state == s && t.result == Fail(InvalidEndpointURL))
      && (endpoint != "" && Url.Valid(endpoint) ==>
            t.state == s.(endpoint := endpoint, resourceURL := "") && t.result == Ok(()))
  {
  }

  // ---------------------------------------------------------------- teardown

  /** killConnection only closes the connection: no field changes. */
  lemma KillConnectionOnlyCloses(s: Session)
    ensures var k := KillConnection(s);
      k.state == s && k.result == Ok(()) && (k.effects == [ClosePeer] <==> s.hasPeer) && (k.effects == [] <==> !s.hasPeer)
  {
  }

  /** Disconnect never changes the session, not even on 200 OK: the endpoint and the
      resource URL stay. It closes the connection, sends a DELETE exactly when there
      is a resource URL, and succeeds exactly on 200. */
  lemma DisconnectKeepsSession(s: Session, reply: Option<Response>)
    ensures var t := Disconnect(s, reply);
      && t.state == s
      && (s.resourceURL == "" ==> t.result == Fail(NoResourceURL) && t.effects == KillConnection(s).effects)
      && (s.resourceURL != "" ==>
            t.effects == KillConnection(s).effects + [Fetch(Request(DELETE, s.resourceURL, map[], NoBody), reply)])
      && (t.result.Ok? <==> s.resourceURL != "" && reply.Some? && reply.value.status == 200)
  {
  }

  /** Where the current client forgets the endpoint, the connection's state and, on
      200 OK, the resource URL, the older one keeps them. */
  lemma DisconnectDiffers(s: Session, t: Now.Session, resp: Response)
    requires s.endpoint == t.endpoint != "" && s.resourceURL == t.resourceURL != "" && resp.status == 200
    ensures Disconnect(s, Some(resp)).state.resourceURL == s.resourceURL
    ensures Disconnect(s, Some(resp)).state.endpoint == s.endpoint
    ensures Now.Disconnect(t, Some(resp)).state.resourceURL == ""
    ensures Now.Disconnect(t, Some(resp)).state.endpoint == ""
  {
  }

  // ---------------------------------------------------------------- tracks

  /** onTrack looks at no mode: it appends the track, and the arrival that brings
      the count to exactly two adds both tracks, in order, to the player's stream
      if there is one. Nothing else changes. */
  lemma OnTrackContract(s: Session, track: Track)
    ensures var t := OnTrack(s, track);
      && t.effects == [] && t.result == Ok(())
      && t.state.remoteTracks == s.remoteTracks + [track]
      && t.state.playerMedia ==
           (if |s.remoteTracks| == 1 && s.playerMedia.Some? then Some(s.playerMedia.value + s.remoteTracks + [track])
            else s.playerMedia)
      && t.state == s.(remoteTracks := t.state.remoteTracks, playerMedia := t.state.playerMedia)
  {
    if s.playerMedia.Some? {
      assert s.playerMedia.value + (s.remoteTracks + [track]) == s.playerMedia.value + s.remoteTracks + [track];
    }
  }

  /** The session after onTrack has run for each of the tracks, in order. */
  function Arrive(s: Session, tracks: seq<Track>): Session {
    if tracks == [] then s else OnTrack(Arrive(s, tracks[..|tracks| - 1]), tracks[|tracks| - 1]).state
  }

  /** Once two tracks have arrived, later arrivals are recorded but none reaches
      the player's stream. */
  lemma {:induction false} LateTracksIgnored(s: Session, tracks: seq<Track>)
    requires |s.remoteTracks| >= 2
    ensures Arrive(s, tracks) == s.(remoteTracks := s.remoteTracks + tracks)
  {
    if tracks == [] {
      assert s.remoteTracks + tracks == s.remoteTracks;
    } else {
      var init := tracks[..|tracks| - 1];
      LateTracksIgnored(s, init);
      assert s.remoteTracks + init + [tracks[|tracks| - 1]] == s.remoteTracks + tracks;
    }
  }

  /** doSignaling changes only the gathering signal, which it resolves if it
      exists, and the resource URL. */
  lemma NegotiationFrame(s: Session, n: Negotiation)
    ensures var d := DoSignaling(s, n);
      && d.state == s.(gather := d.state.gather, resourceURL := d.state.resourceURL)
      && (d.state.gather != s.gather ==> d.state.gather == Resolve(s.gather))
  {
    if s.hasPeer && n.offer.Some? && n.setLocalOk && n.gathered.Some? {
      PostFrame(s.(gather := Resolve(s.gather)), n.gathered.value, n.post);
    }
  }

  /** Because the remote tracks are never reset, a Play on an object that has
      already received two tracks leaves the new player's stream as the caller gave
      it, whatever tracks arrive afterwards. */
  lemma ReplayGetsNoTracks(s: Session, dst: seq<Track>, n: Negotiation, tracks: seq<Track>)
    requires |s.remoteTracks| >= 2
    ensures Arrive(Play(s, dst, n).state, tracks).playerMedia == Some(dst)
  {
    var k := KillConnection(s.(mode := Player));
    var c := CreateConnection(k.state.(playerMedia := Some(dst)));
    NegotiationFrame(c.state, n);
    var p := Play(s, dst, n).state;
    assert p.remoteTracks == s.remoteTracks && p.playerMedia == Some(dst);
    LateTracksIgnored(p, tracks);
  }

  // ---------------------------------------------------------------- doSignaling

  /** There is no trickle path: whatever the engine and the network answer, a
      request is only sent after the offer has been applied and gathering awaited,
      and a remote answer is always the body of a 201 reply to the POST. */
  lemma GatherBeforePost(s: Session, n: Negotiation)
    ensures var e := DoSignaling(s, n).effects;
      && (forall i :: 0 <= i < |e| && e[i].Fetch? ==>
            2 <= i && e[0].SetLocalDescription? && e[1] == AwaitGathering && e[i].request.verb == POST)
      && (forall i :: 0 <= i < |e| && e[i].SetRemoteAnswer? ==>
            n.post.Some? && n.post.value.status == 201 && e[i].sdp == n.post.value.body)
  {
    if s.hasPeer && n.offer.Some? && n.setLocalOk && n.gathered.Some? {
      var p := Post(s.(gather := Resolve(s.gather)), n.gathered.value, n.post);
      assert |p.effects| <= 1;
    }
  }

  // ---------------------------------------------------------------- resolvers

  /** createConnection always replaces both resolvers by pending ones; an event
      resolves a signal only through a resolver that exists. */
  lemma ResolverContract(s: Session, g: GatheringState, i: IceState)
    ensures CreateConnection(s).state.connected == Some(false) && CreateConnection(s).state.gather == Some(false)
    ensures s.gather.None? ==> OnGatheringStateChange(s, g).state == s
    ensures s.connected.None? ==> OnIceConnectionStateChange(s, i).state == s
    ensures s.hasPeer && s.gather.Some? && g == GatherComplete ==> OnGatheringStateChange(s, g).state.gather == Some(true)
    ensures s.hasPeer && s.connected.Some? && i == IceConnected ==> OnIceConnectionStateChange(s, i).state.connected == Some(true)
  {
  }

  // ---------------------------------------------------------------- whole runs

  /** What every call and every event keeps: the session stays well formed, and the
      remote tracks only grow. */
  ghost predicate Keeps(s: Session, t: Session) {
    && (WellFormed(s) ==> WellFormed(t))
    && |s.remoteTracks| <= |t.remoteTracks| && t.remoteTracks[..|s.remoteTracks|] == s.remoteTracks
  }

  lemma PlayKeeps(s: Session, dst: seq<Track>, n: Negotiation)
    ensures Keeps(s, Play(s, dst, n).state)
  {
    var k := KillConnection(s.(mode := Player));
    var c := CreateConnection(k.state.(playerMedia := Some(dst)));
    NegotiationFrame(c.state, n);
  }

  lemma PublishKeeps(s: Session, tracks: seq<Track>, n: Negotiation)
    ensures Keeps(s, Publish(s, tracks, n).state)
  {
    var k := KillConnection(s.(mode := Publisher));
    var c := CreateConnection(k.state);
    NegotiationFrame(c.state, n);
  }

  lemma ApplyKeeps(s: Session, op: Op)
    ensures Keeps(s, Apply(s, op).state)
  {
    match op
    case CallWithEndpoint(e) =>
    case CallDisconnect(r) =>
    case CallPlay(dst, n) => PlayKeeps(s, dst, n);
    case CallPublish(ts, n) => PublishKeeps(s, ts, n);
    case FireTrack(t) =>
      assert OnTrack(s, t).state.remoteTracks[..|s.remoteTracks|] == s.remoteTracks;
    case FireIceState(st) =>
    case FireGatheringState(st) =>
  }

  /** Over any run the session stays well formed and the remote tracks only grow. */
  lemma {:induction false} RunKeeps(s: Session, ops: seq<Op>)
    ensures Keeps(s, Run(s, ops).0)
  {
    if ops != [] {
      var init := ops[..|ops| - 1];
      RunKeeps(s, init);
      var r := Run(s, init).0;
      ApplyKeeps(r, ops[|ops| - 1]);
      var t := Apply(r, ops[|ops| - 1]).state;
      assert t.remoteTracks[..|s.remoteTracks|] == t.remoteTracks[..|r.remoteTracks|][..|s.remoteTracks|];
    }
  }

  /** Tracks reach a player's stream at most once in the object's lifetime: after
      the second track has arrived, whatever calls and events follow (a new Play
      included), no arriving track is added to the stream. */
  lemma AttachOncePerLifetime(s: Session, ops: seq<Op>, track: Track)
    requires |s.remoteTracks| >= 2
    ensures var r := Run(s, ops).0;
      OnTrack(r, track).state.playerMedia == r.playerMedia
  {
    RunKeeps(s, ops);
  }
}
