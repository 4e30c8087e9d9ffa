/** Properties of whole runs of the client of src/lib/wish/index.ts: any sequence of
    public calls and engine events, in any order, from the constructor's state. */
module WishRuns {
  import opened Signaling
  import Url
  import opened WishSpec
  import opened WishProperties

  // ---------------------------------------------------------------- traces

  /** Whether every request among the effects uses one of the given methods. */
  predicate FetchesOnly(effects: seq<Effect>, verbs: set<Method>) {
    forall i :: 0 <= i < |effects| && effects[i].Fetch? ==> effects[i].request.verb in verbs
  }

  lemma FetchesOnlyAppend(a: seq<Effect>, b: seq<Effect>, verbs: set<Method>)
    ensures FetchesOnly(a + b, verbs) <==> FetchesOnly(a, verbs) && FetchesOnly(b, verbs)
  {
    if FetchesOnly(a + b, verbs) {
      forall i | 0 <= i < |b| && b[i].Fetch? ensures b[i].request.verb in verbs {
        assert b[i] == (a + b)[|a| + i];
      }
      forall i | 0 <= i < |a| && a[i].Fetch? ensures a[i].request.verb in verbs {
        assert a[i] == (a + b)[i];
      }
    }
  }

  /** A trace with only the given methods sends no request of any other method. */
  lemma FetchesOnlyNotSent(effects: seq<Effect>, verbs: set<Method>, m: Method)
    requires FetchesOnly(effects, verbs) && m !in verbs
    ensures !Sent(effects, m)
  {
  }

  /** Whether an entry is a PATCH or a DELETE request. */
  predicate IsPatchOrDelete(e: Effect) {
    e.Fetch? && (e.request.verb == PATCH || e.request.verb == DELETE)
  }

  /** Whether every PATCH and DELETE among the effects goes to `url`. */
  predicate Targets(effects: seq<Effect>, url: string) {
    forall i :: 0 <= i < |effects| && IsPatchOrDelete(effects[i]) ==> effects[i].request.url == url
  }

  lemma TargetsAppend(a: seq<Effect>, b: seq<Effect>, url: string)
    requires Targets(a, url) && Targets(b, url)
    ensures Targets(a + b, url)
  {
    forall i | 0 <= i < |a + b| && IsPatchOrDelete((a + b)[i]) ensures (a + b)[i].request.url == url {
      if i < |a| {
        assert (a + b)[i] == a[i];
      } else {
        assert (a + b)[i] == b[i - |a|];
      }
    }
  }

  /** Requests of other methods than PATCH and DELETE target nothing. */
  lemma FetchesOnlyTargets(effects: seq<Effect>, verbs: set<Method>, url: string)
    requires FetchesOnly(effects, verbs) && PATCH !in verbs && DELETE !in verbs
    ensures Targets(effects, url)
  {
  }

  // ---------------------------------------------------------------- resource URLs

  /** Whether an entry is a POST answered 201 Created. */
  predicate Created(e: Effect) {
    e.Fetch? && e.request.verb == POST && e.reply.Some? && e.reply.value.status == 201
  }

  /** The resource URL an entry hands out, "" for none: the location of a POST
      answered 201, taken as it is when absolute and otherwise put in place of the
      path of the URL the POST went to. */
  function Provided(e: Effect): (url: string)
    ensures url != "" ==> Created(e) && Header(e.reply.value, "location") != ""
  {
    if !Created(e) then ""
    else
      var location := Header(e.reply.value, "location");
      if location == "" then ""
      else if StartsWith(location, "http") then location
      else match Url.ReplacePath(e.request.url, location)
        case None => ""
        case Some(url) => url
  }

  /** The resource URL handed out last in a trace, "" when none was. */
  function LastProvided(effects: seq<Effect>): string {
    if effects == [] then ""
    else if Provided(effects[|effects| - 1]) != "" then Provided(effects[|effects| - 1])
    else LastProvided(effects[..|effects| - 1])
  }

  /** Whether an entry is a DELETE answered 200 OK. */
  predicate DeleteAccepted(e: Effect) {
    e.Fetch? && e.request.verb == DELETE && e.reply.Some? && e.reply.value.status == 200
  }

  /** Whether a DELETE was answered 200 after the last entry that handed out a
      resource URL (or, when none did, anywhere in the trace). */
  predicate ClearedSince(effects: seq<Effect>) {
    if effects == [] then false
    else if DeleteAccepted(effects[|effects| - 1]) then true
    else if Provided(effects[|effects| - 1]) != "" then false
    else ClearedSince(effects[..|effects| - 1])
  }

  lemma {:induction false} ClearedSinceAppend(a: seq<Effect>, b: seq<Effect>)
    ensures ClearedSince(a + b) == (ClearedSince(b) || (LastProvided(b) == "" && ClearedSince(a)))
  {
    if b == [] {
      assert a + b == a;
    } else {
      var init := b[..|b| - 1];
      assert (a + b)[..|a + b| - 1] == a + init;
      assert (a + b)[|a + b| - 1] == b[|b| - 1];
      ClearedSinceAppend(a, init);
    }
  }

  /** A trace without a DELETE clears nothing. */
  lemma {:induction false} NoDeleteClearsNothing(effects: seq<Effect>)
    requires !Sent(effects, DELETE)
    ensures !ClearedSince(effects)
  {
    if effects != [] {
      var init := effects[..|effects| - 1];
      forall i | 0 <= i < |init| ensures !(init[i].Fetch? && init[i].request.verb == DELETE) {
        assert init[i] == effects[i];
      }
      NoDeleteClearsNothing(init);
    }
  }

  lemma {:induction false} LastProvidedAppend(a: seq<Effect>, b: seq<Effect>)
    ensures LastProvided(a + b) == if LastProvided(b) != "" then LastProvided(b) else LastProvided(a)
  {
    if b == [] {
      assert a + b == a;
    } else {
      var init := b[..|b| - 1];
      assert (a + b)[..|a + b| - 1] == a + init;
      assert (a + b)[|a + b| - 1] == b[|b| - 1];
      LastProvidedAppend(a, init);
    }
  }

  /** A trace without a POST hands out no resource URL. */
  lemma {:induction false} NoPostProvidesNothing(effects: seq<Effect>)
    requires !Sent(effects, POST)
    ensures LastProvided(effects) == ""
  {
    if effects != [] {
      var init := effects[..|effects| - 1];
      forall i | 0 <= i < |init| ensures !(init[i].Fetch? && init[i].request.verb == POST) {
        assert init[i] == effects[i];
      }
      NoPostProvidesNothing(init);
    }
  }

  /** A resource URL handed out last was handed out by an entry of the trace. */
  lemma {:induction false} LastProvidedHandedOut(effects: seq<Effect>) returns (i: nat)
    requires LastProvided(effects) != ""
    ensures i < |effects| && Provided(effects[i]) == LastProvided(effects)
  {
    var last := |effects| - 1;
    if Provided(effects[last]) != "" {
      i := last;
    } else {
      var init := effects[..last];
      i := LastProvidedHandedOut(init);
      assert effects[i] == init[i];
    }
  }

  /** Whether no DELETE was answered 200 after index i. */
  predicate KeptAfter(effects: seq<Effect>, i: nat) {
    forall j :: i < j < |effects| ==> !DeleteAccepted(effects[j])
  }

  /** The entry that handed out the last resource URL: a POST answered 201, after
      which, unless the trace cleared it, no DELETE was answered 200. */
  lemma {:induction false} ProvidingEntry(effects: seq<Effect>) returns (i: nat)
    requires LastProvided(effects) != "" && !ClearedSince(effects)
    ensures i < |effects| && Provided(effects[i]) == LastProvided(effects) && KeptAfter(effects, i)
  {
    var last := |effects| - 1;
    if Provided(effects[last]) != "" {
      i := last;
    } else {
      var init := effects[..last];
      assert !DeleteAccepted(effects[last]);
      assert LastProvided(init) == LastProvided(effects) && !ClearedSince(init);
      i := ProvidingEntry(init);
      assert effects[i] == init[i];
      KeptAfterExtend(effects, i);
    }
  }

  lemma KeptAfterExtend(effects: seq<Effect>, i: nat)
    requires effects != [] && KeptAfter(effects[..|effects| - 1], i)
    requires !DeleteAccepted(effects[|effects| - 1])
    ensures KeptAfter(effects, i)
  {
    var init := effects[..|effects| - 1];
    forall j | i < j < |effects| ensures !DeleteAccepted(effects[j]) {
      if j < |init| {
        assert effects[j] == init[j];
      }
    }
  }

  // ---------------------------------------------------------------- one call

  /** What every call and every event keeps: the session stays well formed; a
      newly learnt resource URL comes with a POST; a PATCH or a DELETE is only sent
      when a resource URL is known; with trickle off no PATCH is sent. */
  ghost predicate Keeps(s: Session, t: Transition<()>) {
    && (WellFormed(s) ==> WellFormed(t.state))
    && (t.state.resourceURL != s.resourceURL && t.state.resourceURL != "" ==> Sent(t.effects, POST))
    && (Sent(t.effects, PATCH) || Sent(t.effects, DELETE) ==> s.resourceURL != "")
    && (!s.useTrickle ==> !Sent(t.effects, PATCH))
  }

  /** doSignalingPOST sends at most the POST and changes only the resource URL and
      the token. */
  lemma PostKeeps(s: Session, sdp: string, reply: Option<Response>, json: JsonParse)
    ensures var p := Post(s, sdp, reply, json);
      && FetchesOnly(p.effects, {POST})
      && p.state == s.(resourceURL := p.state.resourceURL, etag := p.state.etag)
      && (p.effects != [] ==> Sent(p.effects, POST))
      && (p.state.resourceURL != s.resourceURL ==> p.effects != [])
  {
    var p := Post(s, sdp, reply, json);
    PostFrame(s, sdp, reply, json);
    if s.endpoint != "" {
      assert p.effects[0].Fetch? && p.effects[0].request.verb == POST;
    }
  }

  /** The branch without trickle: at most the POST is sent. */
  lemma GatherThenPostKeeps(s1: Session, sdp: string, n: Negotiation, json: JsonParse)
    ensures var o := GatherThenPost(s1, sdp, n, json);
      && FetchesOnly(o.effects, {POST})
      && o.state == s1.(gatherResolved := o.state.gatherResolved, resourceURL := o.state.resourceURL, etag := o.state.etag)
      && (o.state.resourceURL != s1.resourceURL ==> Sent(o.effects, POST))
  {
    if n.setLocalOk && n.gathered.Some? {
      var s2 := s1.(gatherResolved := true);
      var local := [SetLocalDescription(sdp), AwaitGathering];
      PostKeeps(s2, n.gathered.value, n.post, json);
      var p := Post(s2, n.gathered.value, n.post, json);
      FetchesOnlyAppend(local, p.effects, {POST});
      SentAppend(local, p.effects, POST);
    }
  }

  /** The trickle branch: at most the POST is sent. */
  lemma PostThenSetLocalKeeps(s1: Session, sdp: string, n: Negotiation, json: JsonParse)
    ensures var o := PostThenSetLocal(s1, sdp, n, json);
      && FetchesOnly(o.effects, {POST})
      && o.state == s1.(resourceURL := o.state.resourceURL, etag := o.state.etag)
      && (o.state.resourceURL != s1.resourceURL ==> Sent(o.effects, POST))
  {
    PostKeeps(s1, sdp, n.post, json);
    var p := Post(s1, sdp, n.post, json);
    FetchesOnlyAppend(p.effects, [SetLocalDescription(sdp)], {POST});
    SentAppend(p.effects, [SetLocalDescription(sdp)], POST);
  }

  /** doSignaling sends no request but the POST, learns a resource URL only through
      it, and changes nothing but the offer, the gathering signal, the resource URL
      and the token; the offer only while there is a connection. */
  lemma NegotiationKeeps(s: Session, n: Negotiation, json: JsonParse)
    ensures var d := DoSignaling(s, n, json);
      && FetchesOnly(d.effects, {POST})
      && d.state == s.(parsedOffer := d.state.parsedOffer, gatherResolved := d.state.gatherResolved,
                       resourceURL := d.state.resourceURL, etag := d.state.etag)
      && (d.state.parsedOffer != s.parsedOffer ==> s.hasPeer)
      && (d.state.resourceURL != s.resourceURL ==> Sent(d.effects, POST))
  {
    if s.hasPeer && n.offer.Some? && n.offer.value != "" {
      var sdp := n.offer.value;
      var s1 := s.(parsedOffer := Some(Offer(sdp)));
      if !s1.useTrickle {
        GatherThenPostKeeps(s1, sdp, n, json);
      } else {
        PostThenSetLocalKeeps(s1, sdp, n, json);
      }
      var o := if !s1.useTrickle then GatherThenPost(s1, sdp, n, json) else PostThenSetLocal(s1, sdp, n, json);
      if o.result.Ok? {
        FetchesOnlyAppend(o.effects, [SetRemoteAnswer(o.result.value)], {POST});
        SentAppend(o.effects, [SetRemoteAnswer(o.result.value)], POST);
      }
    }
  }

  /** Play sends no request but the POST, and keeps the endpoint and trickle. */
  lemma PlayKeeps(s: Session, n: Negotiation, json: JsonParse)
    ensures Keeps(s, Play(s, n, json))
    ensures Play(s, n, json).state.useTrickle == s.useTrickle
  {
    var k := KillConnection(s.(mode := Player));
    var c := CreateConnection(k.state.(playerMedia := Some([])));
    var d := DoSignaling(c.state, n, json);
    NegotiationKeeps(c.state, n, json);
    var e := ReceiveTransceivers + d.effects;
    FetchesOnlyAppend(ReceiveTransceivers, d.effects, {POST});
    SentAppend(ReceiveTransceivers, d.effects, POST);
    FetchesOnlyAppend(k.effects, c.effects, {POST});
    FetchesOnlyAppend(k.effects + c.effects, e, {POST});
    SentAppend(k.effects + c.effects, e, POST);
    FetchesOnlyNotSent(k.effects + c.effects + e, {POST}, PATCH);
    FetchesOnlyNotSent(k.effects + c.effects + e, {POST}, DELETE);
    assert Play(s, n, json) == Step(d.state, k.effects + c.effects + e, d.result);
  }

  /** Publish sends no request but the POST, and keeps the endpoint and trickle. */
  lemma PublishKeeps(s: Session, tracks: seq<Track>, n: Negotiation, json: JsonParse)
    ensures Keeps(s, Publish(s, tracks, n, json))
    ensures Publish(s, tracks, n, json).state.useTrickle == s.useTrickle
  {
    var k := KillConnection(s.(mode := Publisher));
    var c := CreateConnection(k.state);
    var d := DoSignaling(c.state, n, json);
    NegotiationKeeps(c.state, n, json);
    var e := SendTransceivers(tracks) + d.effects;
    SendTransceiversFetchNothing(tracks);
    FetchesOnlyAppend(SendTransceivers(tracks), d.effects, {POST});
    SentAppend(SendTransceivers(tracks), d.effects, POST);
    FetchesOnlyAppend(k.effects, c.effects, {POST});
    FetchesOnlyAppend(k.effects + c.effects, e, {POST});
    SentAppend(k.effects + c.effects, e, POST);
    FetchesOnlyNotSent(k.effects + c.effects + e, {POST}, PATCH);
    FetchesOnlyNotSent(k.effects + c.effects + e, {POST}, DELETE);
    assert Publish(s, tracks, n, json) == Step(d.state, k.effects + c.effects + e, d.result);
  }

  /** The transceivers whipOffer adds are calls on the engine, not requests. */
  lemma {:induction false} SendTransceiversFetchNothing(tracks: seq<Track>)
    ensures FetchesOnly(SendTransceivers(tracks), {})
  {
    if tracks != [] {
      var init := tracks[..|tracks| - 1];
      SendTransceiversFetchNothing(init);
      FetchesOnlyAppend(SendTransceivers(init), [AddTransceiver(OfTrack(tracks[|tracks| - 1]), SendOnly)], {});
    }
  }

  // ---------------------------------------------------------------- restarts

  /** No effect in the sequence opens or closes a transport connection. */
  predicate LeavesPeer(effects: seq<Effect>) {
    forall i :: 0 <= i < |effects| ==> !effects[i].OpenPeer? && !effects[i].ClosePeer?
  }

  lemma LeavesPeerAppend(a: seq<Effect>, b: seq<Effect>)
    requires LeavesPeer(a) && LeavesPeer(b)
    ensures LeavesPeer(a + b)
  {
    forall i | 0 <= i < |a + b| ensures !(a + b)[i].OpenPeer? && !(a + b)[i].ClosePeer? {
      if i >= |a| { assert (a + b)[i] == b[i - |a|]; }
    }
  }

  /** doSignaling works on the connection it is given: it never opens or closes one. */
  lemma NegotiationLeavesPeer(s: Session, n: Negotiation, json: JsonParse)
    ensures LeavesPeer(DoSignaling(s, n, json).effects)
  {
    if s.hasPeer && n.offer.Some? && n.offer.value != "" {
      var sdp := n.offer.value;
      var s1 := s.(parsedOffer := Some(Offer(sdp)));
      var o := if !s1.useTrickle then GatherThenPost(s1, sdp, n, json) else PostThenSetLocal(s1, sdp, n, json);
      if !s1.useTrickle && n.setLocalOk && n.gathered.Some? {
        var p := Post(s1.(gatherResolved := true), n.gathered.value, n.post, json);
        LeavesPeerAppend([SetLocalDescription(sdp), AwaitGathering], p.effects);
      } else if s1.useTrickle {
        var p := Post(s1, sdp, n.post, json);
        LeavesPeerAppend(p.effects, [SetLocalDescription(sdp)]);
      }
      assert LeavesPeer(o.effects);
      if o.result.Ok? {
        LeavesPeerAppend(o.effects, [SetRemoteAnswer(o.result.value)]);
      }
    }
  }

  lemma {:induction false} SendTransceiversLeavePeer(tracks: seq<Track>)
    ensures LeavesPeer(SendTransceivers(tracks))
  {
    if tracks != [] {
      SendTransceiversLeavePeer(tracks[..|tracks| - 1]);
      LeavesPeerAppend(SendTransceivers(tracks[..|tracks| - 1]), [AddTransceiver(OfTrack(tracks[|tracks| - 1]), SendOnly)]);
    }
  }

  /** Play while a connection is active closes it and opens exactly one new one,
      configured with the ICE servers of the session, and no other effect opens or
      closes a connection. The new connection is in player mode with an empty
      stream, no remote tracks and no video sender. Without a connection there is
      nothing to close, and the remote tracks and the sender are left as they were
      (in the source both are empty then, since only a live connection delivers
      tracks). */
  lemma PlayRestarts(s: Session, n: Negotiation, json: JsonParse)
    ensures var p := Play(s, n, json);
      && p.state.hasPeer && p.state.mode == Player && p.state.playerMedia == Some([])
      && (s.hasPeer ==>
            && |p.effects| >= 2 && p.effects[0] == ClosePeer && p.effects[1] == OpenPeer(IceServersFor(s))
            && LeavesPeer(p.effects[2..])
            && p.state.remoteTracks == [] && p.state.videoSender.None?)
      && (!s.hasPeer ==>
            && |p.effects| >= 1 && p.effects[0] == OpenPeer(IceServersFor(s)) && LeavesPeer(p.effects[1..])
            && p.state.remoteTracks == s.remoteTracks && p.state.videoSender == s.videoSender)
  {
    var k := KillConnection(s.(mode := Player));
    var c := CreateConnection(k.state.(playerMedia := Some([])));
    var w := WhepClientOffer(c.state, n, json);
    NegotiationKeeps(c.state, n, json);
    NegotiationLeavesPeer(c.state, n, json);
    LeavesPeerAppend(ReceiveTransceivers, DoSignaling(c.state, n, json).effects);
    assert (k.effects + c.effects + w.effects)[|k.effects + c.effects|..] == w.effects;
  }

  /** Publish while a connection is active closes it and opens exactly one new one,
      and no other effect opens or closes a connection. The new connection is in
      publisher mode, with no stream, no remote tracks and no video sender until
      the connection reports "connected". */
  lemma PublishRestarts(s: Session, tracks: seq<Track>, n: Negotiation, json: JsonParse)
    ensures var p := Publish(s, tracks, n, json);
      && p.state.hasPeer && p.state.mode == Publisher
      && (s.hasPeer ==>
            && |p.effects| >= 2 && p.effects[0] == ClosePeer && p.effects[1] == OpenPeer(IceServersFor(s))
            && LeavesPeer(p.effects[2..])
            && p.state.remoteTracks == [] && p.state.videoSender.None? && p.state.playerMedia.None?)
      && (!s.hasPeer ==>
            && |p.effects| >= 1 && p.effects[0] == OpenPeer(IceServersFor(s)) && LeavesPeer(p.effects[1..])
            && p.state.remoteTracks == s.remoteTracks && p.state.videoSender == s.videoSender
            && p.state.playerMedia == s.playerMedia)
  {
    var k := KillConnection(s.(mode := Publisher));
    var c := CreateConnection(k.state);
    var w := WhipOffer(c.state, tracks, n, json);
    NegotiationKeeps(c.state, n, json);
    NegotiationLeavesPeer(c.state, n, json);
    SendTransceiversLeavePeer(tracks);
    LeavesPeerAppend(SendTransceivers(tracks), DoSignaling(c.state, n, json).effects);
    assert (k.effects + c.effects + w.effects)[|k.effects + c.effects|..] == w.effects;
  }

  /** After a Play, every run of arrivals on the new connection records all tracks,
      and the stream holds exactly the first two once two have arrived. */
  lemma PlayThenTracks(s: Session, n: Negotiation, json: JsonParse, tracks: seq<Track>)
    requires s.hasPeer || s.remoteTracks == []
    ensures var p := Play(s, n, json).state;
      Arrive(p, tracks) == p.(remoteTracks := tracks, playerMedia := Some(FirstTwo(tracks)))
  {
    PlayRestarts(s, n, json);
    TracksAttachAtTwo(Play(s, n, json).state, tracks);
  }

  /** WithEndpoint sends at most the OPTIONS probe and adopts only an endpoint that
      parses. */
  lemma WithEndpointKeeps(s: Session, endpoint: string, trickle: bool, probe: Probe)
    ensures Keeps(s, WithEndpoint(s, endpoint, trickle, probe))
  {
    var t := WithEndpoint(s, endpoint, trickle, probe);
    if endpoint != "" && Url.Valid(endpoint) {
      assert FetchesOnly(t.effects, {OPTIONS});
      FetchesOnlyNotSent(t.effects, {OPTIONS}, PATCH);
      FetchesOnlyNotSent(t.effects, {OPTIONS}, DELETE);
    }
  }

  /** Disconnect learns no resource URL and sends its DELETE only to a known one. */
  lemma DisconnectKeeps(s: Session, reply: Option<Response>)
    ensures Keeps(s, Disconnect(s, reply))
  {
    var t := Disconnect(s, reply);
    var k := KillConnection(s.(endpoint := ""));
    assert FetchesOnly(k.effects, {});
    if s.resourceURL == "" {
      FetchesOnlyNotSent(t.effects, {}, DELETE);
    } else {
      FetchesOnlyAppend(k.effects, [Fetch(Request(DELETE, s.resourceURL, map[], NoBody), reply)], {DELETE});
    }
    FetchesOnlyNotSent(t.effects, {DELETE}, PATCH);
  }

  /** A candidate event sends at most one PATCH, to a known resource URL, and only
      with trickle on; it can only turn trickle off. */
  lemma IceCandidateKeeps(s: Session, ev: Option<IceCandidate>, reply: Option<Response>, json: JsonParse)
    ensures Keeps(s, OnIceCandidate(s, ev, reply, json))
    ensures OnIceCandidate(s, ev, reply, json).state.useTrickle ==> s.useTrickle
  {
    var t := OnIceCandidate(s, ev, reply, json);
    TrickleSendsIff(s, ev, reply, json);
    TrickleFailureSwallowed(s, ev, reply, json);
    assert FetchesOnly(t.effects, {PATCH});
    FetchesOnlyNotSent(t.effects, {PATCH}, POST);
    FetchesOnlyNotSent(t.effects, {PATCH}, DELETE);
  }

  /** Every call and every event keeps the invariants, and only WithEndpoint can turn
      trickle back on. */
  lemma ApplyKeeps(s: Session, op: Op, json: JsonParse)
    ensures Keeps(s, Apply(s, op, json))
    ensures !op.CallWithEndpoint? && Apply(s, op, json).state.useTrickle ==> s.useTrickle
  {
    if op.CallWithEndpoint? || op.CallDisconnect? || op.CallPlay? || op.CallPublish? {
      CallKeeps(s, op, json);
    } else {
      EventKeeps(s, op, json);
    }
  }

  lemma CallKeeps(s: Session, op: Op, json: JsonParse)
    requires op.CallWithEndpoint? || op.CallDisconnect? || op.CallPlay? || op.CallPublish?
    ensures Keeps(s, Apply(s, op, json))
    ensures !op.CallWithEndpoint? && Apply(s, op, json).state.useTrickle ==> s.useTrickle
  {
    match op
    case CallWithEndpoint(e, t, p) => WithEndpointKeeps(s, e, t, p);
    case CallDisconnect(r) => DisconnectKeeps(s, r);
    case CallPlay(n) => PlayKeeps(s, n, json);
    case CallPublish(ts, n) => PublishKeeps(s, ts, n, json);
  }

  lemma EventKeeps(s: Session, op: Op, json: JsonParse)
    requires !(op.CallWithEndpoint? || op.CallDisconnect? || op.CallPlay? || op.CallPublish?)
    ensures Keeps(s, Apply(s, op, json))
    ensures Apply(s, op, json).state.useTrickle ==> s.useTrickle
  {
    if op.FireIceCandidate? {
      IceCandidateKeeps(s, op.candidate, op.patchReply, json);
    } else {
      var t := Apply(s, op, json);
      assert FetchesOnly(t.effects, {});
      QuietKeeps(s, t);
    }
  }

  /** A transition that sends no request and touches neither the endpoint, the
      resource URL, trickle, the connection nor the offer keeps the invariants; it
      may set the video sender while there is a connection. */
  lemma QuietKeeps(s: Session, t: Transition<()>)
    requires FetchesOnly(t.effects, {})
    requires t.state.endpoint == s.endpoint && t.state.resourceURL == s.resourceURL
    requires t.state.useTrickle == s.useTrickle && t.state.hasPeer == s.hasPeer
    requires t.state.parsedOffer == s.parsedOffer
    requires t.state.videoSender != s.videoSender ==> s.hasPeer
    ensures Keeps(s, t)
  {
    FetchesOnlyNotSent(t.effects, {}, PATCH);
    FetchesOnlyNotSent(t.effects, {}, DELETE);
    FetchesOnlyNotSent(t.effects, {}, POST);
  }

  // ---------------------------------------------------------------- provenance of resource URLs

  /** What every call and every event does with resource URLs: a URL handed out by
      the step is the one the session ends with; a new URL is one the step was
      handed; every PATCH and DELETE goes to the URL known before the step, and a
      step that sends one sends no POST; a step with a DELETE answered 200 after its
      last handed-out URL ends with none. */
  ghost predicate Provenance(s: Session, t: Transition<()>) {
    && (LastProvided(t.effects) != "" ==> t.state.resourceURL == LastProvided(t.effects))
    && (t.state.resourceURL != s.resourceURL && t.state.resourceURL != "" ==>
          t.state.resourceURL == LastProvided(t.effects))
    && Targets(t.effects, s.resourceURL)
    && (Sent(t.effects, PATCH) || Sent(t.effects, DELETE) ==> !Sent(t.effects, POST))
    && (ClearedSince(t.effects) ==> t.state.resourceURL == "")
  }

  /** doSignalingPOST keeps the resource URL it is handed, and no other. */
  lemma PostProvenance(s: Session, sdp: string, reply: Option<Response>, json: JsonParse)
    ensures var p := Post(s, sdp, reply, json);
      && (LastProvided(p.effects) != "" ==> p.state.resourceURL == LastProvided(p.effects))
      && (p.state.resourceURL != s.resourceURL ==> p.state.resourceURL == LastProvided(p.effects))
  {
    var p := Post(s, sdp, reply, json);
    if p.effects != [] {
      assert p.effects == [p.effects[0]];
      assert p.effects[..0] == [];
    }
  }

  lemma GatherThenPostProvenance(s1: Session, sdp: string, n: Negotiation, json: JsonParse)
    ensures var o := GatherThenPost(s1, sdp, n, json);
      && (LastProvided(o.effects) != "" ==> o.state.resourceURL == LastProvided(o.effects))
      && (o.state.resourceURL != s1.resourceURL ==> o.state.resourceURL == LastProvided(o.effects))
  {
    var o := GatherThenPost(s1, sdp, n, json);
    var local := [SetLocalDescription(sdp), AwaitGathering];
    NoPostProvidesNothing(local);
    if !n.setLocalOk {
      NoPostProvidesNothing([SetLocalDescription(sdp)]);
    } else if n.gathered.Some? {
      var s2 := s1.(gatherResolved := true);
      PostProvenance(s2, n.gathered.value, n.post, json);
      LastProvidedAppend(local, Post(s2, n.gathered.value, n.post, json).effects);
    }
  }

  lemma PostThenSetLocalProvenance(s1: Session, sdp: string, n: Negotiation, json: JsonParse)
    ensures var o := PostThenSetLocal(s1, sdp, n, json);
      && (LastProvided(o.effects) != "" ==> o.state.resourceURL == LastProvided(o.effects))
      && (o.state.resourceURL != s1.resourceURL ==> o.state.resourceURL == LastProvided(o.effects))
  {
    PostProvenance(s1, sdp, n.post, json);
    NoPostProvidesNothing([SetLocalDescription(sdp)]);
    LastProvidedAppend(Post(s1, sdp, n.post, json).effects, [SetLocalDescription(sdp)]);
  }

  /** doSignaling keeps the resource URL its POST is handed, and no other. */
  lemma NegotiationProvenance(s: Session, n: Negotiation, json: JsonParse)
    ensures var d := DoSignaling(s, n, json);
      && (LastProvided(d.effects) != "" ==> d.state.resourceURL == LastProvided(d.effects))
      && (d.state.resourceURL != s.resourceURL ==> d.state.resourceURL == LastProvided(d.effects))
  {
    if s.hasPeer && n.offer.Some? && n.offer.value != "" {
      var sdp := n.offer.value;
      var s1 := s.(parsedOffer := Some(Offer(sdp)));
      if !s1.useTrickle {
        GatherThenPostProvenance(s1, sdp, n, json);
      } else {
        PostThenSetLocalProvenance(s1, sdp, n, json);
      }
      var o := if !s1.useTrickle then GatherThenPost(s1, sdp, n, json) else PostThenSetLocal(s1, sdp, n, json);
      if o.result.Ok? {
        NoPostProvidesNothing([SetRemoteAnswer(o.result.value)]);
        LastProvidedAppend(o.effects, [SetRemoteAnswer(o.result.value)]);
      }
    }
  }

  /** A step that runs doSignaling from a session with the same resource URL, after
      calls on the engine alone, hands resource URLs on as doSignaling does. */
  lemma SignalingStepProvenance(s: Session, c: Session, engine: seq<Effect>, calls: seq<Effect>,
                                n: Negotiation, json: JsonParse)
    requires FetchesOnly(engine, {}) && FetchesOnly(calls, {}) && c.resourceURL == s.resourceURL
    ensures var d := DoSignaling(c, n, json);
      Provenance(s, Step(d.state, engine + (calls + d.effects), d.result))
  {
    var d := DoSignaling(c, n, json);
    NegotiationKeeps(c, n, json);
    NegotiationProvenance(c, n, json);
    var e := calls + d.effects;
    FetchesOnlyNotSent(calls, {}, POST);
    NoPostProvidesNothing(calls);
    LastProvidedAppend(calls, d.effects);
    FetchesOnlyNotSent(engine, {}, POST);
    NoPostProvidesNothing(engine);
    LastProvidedAppend(engine, e);
    FetchesOnlyAppend(calls, d.effects, {POST});
    FetchesOnlyAppend(engine, e, {POST});
    FetchesOnlyNotSent(engine + e, {POST}, PATCH);
    FetchesOnlyNotSent(engine + e, {POST}, DELETE);
    FetchesOnlyTargets(engine + e, {POST}, s.resourceURL);
    NoDeleteClearsNothing(engine + e);
  }

  lemma PlayProvenance(s: Session, n: Negotiation, json: JsonParse)
    ensures Provenance(s, Play(s, n, json))
  {
    var k := KillConnection(s.(mode := Player));
    var c := CreateConnection(k.state.(playerMedia := Some([])));
    FetchesOnlyAppend(k.effects, c.effects, {});
    SignalingStepProvenance(s, c.state, k.effects + c.effects, ReceiveTransceivers, n, json);
  }

  lemma PublishProvenance(s: Session, tracks: seq<Track>, n: Negotiation, json: JsonParse)
    ensures Provenance(s, Publish(s, tracks, n, json))
  {
    var k := KillConnection(s.(mode := Publisher));
    var c := CreateConnection(k.state);
    SendTransceiversFetchNothing(tracks);
    FetchesOnlyAppend(k.effects, c.effects, {});
    SignalingStepProvenance(s, c.state, k.effects + c.effects, SendTransceivers(tracks), n, json);
  }

  /** A step that sends only OPTIONS probes and keeps or forgets the resource URL. */
  lemma ProbeProvenance(s: Session, t: Transition<()>)
    requires FetchesOnly(t.effects, {OPTIONS})
    requires t.state.resourceURL == s.resourceURL || t.state.resourceURL == ""
    ensures Provenance(s, t)
  {
    FetchesOnlyNotSent(t.effects, {OPTIONS}, POST);
    FetchesOnlyNotSent(t.effects, {OPTIONS}, DELETE);
    NoPostProvidesNothing(t.effects);
    NoDeleteClearsNothing(t.effects);
  }

  lemma WithEndpointProvenance(s: Session, endpoint: string, trickle: bool, probe: Probe)
    ensures Provenance(s, WithEndpoint(s, endpoint, trickle, probe))
  {
    var t := WithEndpoint(s, endpoint, trickle, probe);
    assert FetchesOnly(t.effects, {OPTIONS});
    ProbeProvenance(s, t);
  }


  /** A step without a POST that keeps the resource URL or forgets it, and sends its
      PATCHes and DELETEs to it. */
  lemma NoPostProvenance(s: Session, t: Transition<()>)
    requires !Sent(t.effects, POST) && Targets(t.effects, s.resourceURL)
    requires t.state.resourceURL == s.resourceURL || t.state.resourceURL == ""
    requires ClearedSince(t.effects) ==> t.state.resourceURL == ""
    ensures Provenance(s, t)
  {
    NoPostProvidesNothing(t.effects);
  }

  lemma DisconnectProvenance(s: Session, reply: Option<Response>)
    ensures Provenance(s, Disconnect(s, reply))
  {
    var t := Disconnect(s, reply);
    var k := KillConnection(s.(endpoint := ""));
    assert FetchesOnly(k.effects, {});
    FetchesOnlyTargets(k.effects, {}, s.resourceURL);
    FetchesOnlyNotSent(k.effects, {}, DELETE);
    NoDeleteClearsNothing(k.effects);
    if s.resourceURL == "" {
      FetchesOnlyNotSent(t.effects, {}, POST);
    } else {
      var delete := [Fetch(Request(DELETE, s.resourceURL, map[], NoBody), reply)];
      FetchesOnlyAppend(k.effects, delete, {DELETE});
      TargetsAppend(k.effects, delete, s.resourceURL);
      FetchesOnlyNotSent(t.effects, {DELETE}, POST);
      NoPostProvidesNothing(delete);
      assert delete[..0] == [];
      ClearedSinceAppend(k.effects, delete);
    }
    NoPostProvenance(s, t);
  }

  lemma IceCandidateProvenance(s: Session, ev: Option<IceCandidate>, reply: Option<Response>, json: JsonParse)
    ensures Provenance(s, OnIceCandidate(s, ev, reply, json))
  {
    var t := OnIceCandidate(s, ev, reply, json);
    TrickleSendsIff(s, ev, reply, json);
    TrickleFailureSwallowed(s, ev, reply, json);
    assert FetchesOnly(t.effects, {PATCH});
    FetchesOnlyNotSent(t.effects, {PATCH}, POST);
    FetchesOnlyNotSent(t.effects, {PATCH}, DELETE);
    NoPostProvidesNothing(t.effects);
    NoDeleteClearsNothing(t.effects);
  }

  /** A step that sends no request and keeps the resource URL. */
  lemma QuietProvenance(s: Session, t: Transition<()>)
    requires FetchesOnly(t.effects, {}) && t.state.resourceURL == s.resourceURL
    ensures Provenance(s, t)
  {
    FetchesOnlyNotSent(t.effects, {}, POST);
    FetchesOnlyNotSent(t.effects, {}, DELETE);
    NoPostProvidesNothing(t.effects);
    NoDeleteClearsNothing(t.effects);
  }

  /** Every call and every event hands resource URLs on as Provenance says. */
  lemma ApplyProvenance(s: Session, op: Op, json: JsonParse)
    ensures Provenance(s, Apply(s, op, json))
  {
    match op
    case CallWithEndpoint(e, t, p) => WithEndpointProvenance(s, e, t, p);
    case CallDisconnect(r) => DisconnectProvenance(s, r);
    case CallPlay(n) => PlayProvenance(s, n, json);
    case CallPublish(ts, n) => PublishProvenance(s, ts, n, json);
    case FireIceCandidate(c, r) => IceCandidateProvenance(s, c, r, json);
    case _ =>
      var t := Apply(s, op, json);
      assert FetchesOnly(t.effects, {});
      QuietProvenance(s, t);
  }

  // ---------------------------------------------------------------- whole runs

  /** Whether every PATCH and every DELETE of a trace goes to the resource URL handed
      out last before it. */
  predicate Addressed(effects: seq<Effect>) {
    if effects == [] then true
    else
      var e := effects[|effects| - 1];
      && Addressed(effects[..|effects| - 1])
      && (IsPatchOrDelete(e) ==> e.request.url != "" && e.request.url == LastProvided(effects[..|effects| - 1]))
  }

  /** Addressed, entry by entry. */
  lemma {:induction false} AddressedAt(effects: seq<Effect>, i: nat)
    requires Addressed(effects) && i < |effects| && IsPatchOrDelete(effects[i])
    ensures effects[i].request.url != "" && effects[i].request.url == LastProvided(effects[..i])
  {
    var init := effects[..|effects| - 1];
    if i < |init| {
      AddressedAt(init, i);
      assert init[i] == effects[i];
      assert init[..i] == effects[..i];
    }
  }

  /** What holds of the session and the trace at every point of a run: the session
      is well formed; a known resource URL is the one handed out last, and no DELETE
      was answered 200 since; every PATCH and every DELETE went to the resource URL
      handed out last before it. */
  ghost predicate Consistent(s: Session, effects: seq<Effect>) {
    && WellFormed(s)
    && (s.resourceURL != "" ==> s.resourceURL == LastProvided(effects))
    && (ClearedSince(effects) ==> s.resourceURL == "")
    && Addressed(effects)
  }

  /** A prefix of a trace sends only requests the trace sends. */
  lemma SentPrefix(te: seq<Effect>, k: nat, m: Method)
    requires k <= |te| && Sent(te[..k], m)
    ensures Sent(te, m)
  {
    var q :| 0 <= q < k && te[..k][q].Fetch? && te[..k][q].request.verb == m;
    assert te[q] == te[..k][q];
  }

  /** A step whose PATCHes and DELETEs go to the resource URL handed out last, and
      which sends no POST when it sends one of them, keeps a trace Addressed. */
  lemma {:induction false} AddressedStep(effects: seq<Effect>, te: seq<Effect>, url: string)
    requires Addressed(effects) && Targets(te, url)
    requires Sent(te, PATCH) || Sent(te, DELETE) ==> url != "" && url == LastProvided(effects) && !Sent(te, POST)
    ensures Addressed(effects + te)
  {
    if te == [] {
      assert effects + te == effects;
    } else {
      var k := |te| - 1;
      var init := te[..k];
      var x := te[k];
      forall q | 0 <= q < |init| && IsPatchOrDelete(init[q]) ensures init[q].request.url == url {
        assert init[q] == te[q];
      }
      if Sent(init, PATCH) { SentPrefix(te, k, PATCH); }
      if Sent(init, DELETE) { SentPrefix(te, k, DELETE); }
      if Sent(init, POST) { SentPrefix(te, k, POST); }
      AddressedStep(effects, init, url);
      assert (effects + te)[..|effects + te| - 1] == effects + init;
      assert (effects + te)[|effects + te| - 1] == x;
      if IsPatchOrDelete(x) {
        assert Sent(te, x.request.verb);
        NoPostProvidesNothing(init);
        LastProvidedAppend(effects, init);
      }
    }
  }

  lemma ConsistentStep(s: Session, effects: seq<Effect>, t: Transition<()>)
    requires Consistent(s, effects) && Keeps(s, t) && Provenance(s, t)
    ensures Consistent(t.state, effects + t.effects)
  {
    LastProvidedAppend(effects, t.effects);
    ClearedSinceAppend(effects, t.effects);
    AddressedStep(effects, t.effects, s.resourceURL);
  }

  /** In an Addressed trace every PATCH and every DELETE comes after a POST answered
      201, and so after the first POST. */
  lemma AddressedOrder(effects: seq<Effect>, m: Method)
    requires Addressed(effects) && (m == PATCH || m == DELETE) && Sent(effects, m)
    ensures exists j :: 0 <= j < FirstSent(effects, m) && Created(effects[j])
    ensures FirstSent(effects, POST) < FirstSent(effects, m)
  {
    var i := FirstSent(effects, m);
    AddressedAt(effects, i);
    var j := LastProvidedHandedOut(effects[..i]);
    assert effects[j] == effects[..i][j];
  }

  /** The constructor's state, with nothing done yet. */
  lemma InitialConsistent(iceServers: Option<seq<string>>)
    ensures Consistent(Initial(iceServers), [])
    ensures !Initial(iceServers).hasPeer && !Initial(iceServers).useTrickle
  {
  }

  /** Any run from a well-formed session with no resource URL stays consistent. */
  lemma {:induction false} RunConsistent(s: Session, ops: seq<Op>, json: JsonParse)
    requires WellFormed(s) && s.resourceURL == ""
    ensures Consistent(Run(s, ops, json).0, Run(s, ops, json).1)
  {
    if ops != [] {
      var init := ops[..|ops| - 1];
      RunConsistent(s, init, json);
      var r := Run(s, init, json);
      ApplyKeeps(r.0, ops[|ops| - 1], json);
      ApplyProvenance(r.0, ops[|ops| - 1], json);
      ConsistentStep(r.0, r.1, Apply(r.0, ops[|ops| - 1], json));
    }
  }

  /** From construction, whatever the calls and events: the session stays well
      formed; a known resource URL is the last one handed out, by a POST answered 201
      after which no DELETE was answered 200; every PATCH and DELETE goes to the
      resource URL handed out last before it, and so comes after a POST answered 201. */
  lemma EveryRunConsistent(iceServers: Option<seq<string>>, ops: seq<Op>, json: JsonParse)
    ensures var r := Run(Initial(iceServers), ops, json);
      && Consistent(r.0, r.1)
      && (r.0.resourceURL != "" ==>
            exists i: nat :: i < |r.1| && Created(r.1[i]) && Provided(r.1[i]) == r.0.resourceURL && KeptAfter(r.1, i))
      && (Sent(r.1, PATCH) ==> FirstSent(r.1, POST) < FirstSent(r.1, PATCH))
      && (Sent(r.1, DELETE) ==> FirstSent(r.1, POST) < FirstSent(r.1, DELETE))
  {
    RunConsistent(Initial(iceServers), ops, json);
    var r := Run(Initial(iceServers), ops, json);
    if r.0.resourceURL != "" {
      var i := ProvidingEntry(r.1);
    }
    if Sent(r.1, PATCH) {
      AddressedOrder(r.1, PATCH);
    }
    if Sent(r.1, DELETE) {
      AddressedOrder(r.1, DELETE);
    }
  }

  /** Once trickle is off (never asked for, or given up on a 405, 412 or 501 reply
      to a PATCH) it stays off, and no candidate is PATCHed, until WithEndpoint is
      called again. */
  lemma {:induction false} TrickleOffStaysOff(s: Session, ops: seq<Op>, json: JsonParse)
    requires !s.useTrickle
    requires forall i :: 0 <= i < |ops| ==> !ops[i].CallWithEndpoint?
    ensures !Run(s, ops, json).0.useTrickle && !Sent(Run(s, ops, json).1, PATCH)
  {
    if ops != [] {
      var init := ops[..|ops| - 1];
      var last := ops[|ops| - 1];
      assert forall i :: 0 <= i < |init| ==> init[i] == ops[i];
      TrickleOffStaysOff(s, init, json);
      var r := Run(s, init, json);
      ApplyKeeps(r.0, last, json);
      SentAppend(r.1, Apply(r.0, last, json).effects, PATCH);
    }
  }
}
