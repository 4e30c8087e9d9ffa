/** The WISH class of src/lib/wish/index.ts. Its fields are the source's; the
    peer connection is reduced to whether it exists, and every request sent and
    every call on the transport engine is appended to the ghost trace `log`. Each
    method is proved to make exactly the transition that module WishSpec defines
    for it, so what WishProperties proves about those transitions holds of the
    class. Awaited results are parameters: a method runs from its call to its
    return or throw, with no other handler running in between. */
module WishClient {
  import opened Signaling
  import Url
  import Spec = WishSpec

  lemma PlayComposes(s0: Spec.Session, s2: Spec.Session, log0: seq<Effect>, log2: seq<Effect>, n: Negotiation, json: JsonParse)
    requires var k := Spec.KillConnection(s0.(mode := Player));
      var c := Spec.CreateConnection(k.state.(playerMedia := Some([])));
      s2 == c.state && log2 == log0 + k.effects + c.effects
    ensures var t := Spec.Play(s0, n, json);
      var w := Spec.WhepClientOffer(s2, n, json);
      t.state == w.state && t.result == w.result && log0 + t.effects == log2 + w.effects
  {
    var k := Spec.KillConnection(s0.(mode := Player));
    var c := Spec.CreateConnection(k.state.(playerMedia := Some([])));
    var w := Spec.WhepClientOffer(s2, n, json);
    assert Spec.Play(s0, n, json) == Step(w.state, k.effects + c.effects + w.effects, w.result);
  }

  lemma PublishComposes(s0: Spec.Session, s2: Spec.Session, log0: seq<Effect>, log2: seq<Effect>,
                         tracks: seq<Track>, n: Negotiation, json: JsonParse)
    requires var k := Spec.KillConnection(s0.(mode := Publisher));
      var c := Spec.CreateConnection(k.state);
      s2 == c.state && log2 == log0 + k.effects + c.effects
    ensures var t := Spec.Publish(s0, tracks, n, json);
      var w := Spec.WhipOffer(s2, tracks, n, json);
      t.state == w.state && t.result == w.result && log0 + t.effects == log2 + w.effects
  {
  }

  /** Regrouping a trace; stated once so that the methods need not rediscover it. */
  lemma Regroup(a: seq<Effect>, b: seq<Effect>, c: seq<Effect>)
    ensures a + (b + c) == (a + b) + c
  {
  }

  class Wish {
    const jsonParse: JsonParse

    var peerConnection: bool
    var iceServers: seq<string>
    var videoSender: Option<Sender>
    var remoteTracks: seq<Track>
    var playerMedia: Option<seq<Track>>
    var connectedResolved: bool
    var gatherResolved: bool
    var endpoint: string
    var resourceURL: string
    var mode: Mode
    var parsedOffer: Option<Offer>
    var useTrickle: bool
    var etag: string
    var providedIceServer: string

    /** Every request sent, engine call made and status event dispatched, in order. */
    ghost var log: seq<Effect>

    /** The object's fields as a session value. */
    function Snapshot(): Spec.Session
      reads this
    {
      Spec.Session(peerConnection, iceServers, videoSender, remoteTracks, playerMedia,
        connectedResolved, gatherResolved, endpoint, resourceURL, mode, parsedOffer,
        useTrickle, etag, providedIceServer)
    }

    constructor (servers: Option<seq<string>>, json: JsonParse)
      ensures Snapshot() == Spec.Initial(servers)
      ensures jsonParse == json && log == []
    {
      jsonParse := json;
      peerConnection := false;
      iceServers := if servers.Some? then servers.value else Spec.DefaultIceServers;
      videoSender := None;
      remoteTracks := [];
      playerMedia := None;
      endpoint := "";
      resourceURL := "";
      mode := Player;
      parsedOffer := None;
      useTrickle := false;
      etag := "";
      providedIceServer := "";
      log := [];
      new;
      NewResolvers();
    }

    method KillConnection()
      modifies this
      ensures var t := Spec.KillConnection(old(Snapshot()));
        Snapshot() == t.state && log == old(log) + t.effects
    {
      if peerConnection {
        log := log + [ClosePeer];
        peerConnection := false;
        parsedOffer := None;
        playerMedia := None;
        videoSender := None;
        remoteTracks := [];
      }
    }

    method CreateConnection()
      modifies this
      ensures var t := Spec.CreateConnection(old(Snapshot()));
        Snapshot() == t.state && log == old(log) + t.effects
    {
      var servers := if providedIceServer != "" then [providedIceServer] else iceServers;
      log := log + [OpenPeer(servers)];
      peerConnection := true;
      NewResolvers();
    }

    method NewResolvers()
      modifies this
      ensures Snapshot() == Spec.NewResolvers(old(Snapshot())) && log == old(log)
    {
      connectedResolved := false;
      gatherResolved := false;
    }

    method OnGatheringStateChange(state: GatheringState)
      modifies this
      ensures var t := Spec.OnGatheringStateChange(old(Snapshot()), state);
        Snapshot() == t.state && log == old(log) + t.effects
    {
      if !peerConnection {
        return;
      }
      if state == GatherComplete {
        gatherResolved := true;
      }
    }

    /** `senders` is what getSenders() returns when the event fires. */
    method OnConnectionStateChange(state: PeerState, senders: seq<Sender>)
      modifies this
      ensures var t := Spec.OnConnectionStateChange(old(Snapshot()), state, senders);
        Snapshot() == t.state && log == old(log) + t.effects
    {
      if !peerConnection {
        return;
      }
      if state == PeerConnected {
        if mode == Publisher {
          var current := videoSender;
          for i := 0 to |senders|
            invariant current == Spec.VideoSenderAfter(videoSender, senders[..i])
          {
            var sender := senders[i];
            assert senders[..i + 1][..i] == senders[..i];
            if !sender.hasTransport {
              continue;
            }
            if sender.track.None? {
              continue;
            }
            if sender.track.value.kind == "video" {
              current := Some(sender);
            }
          }
          assert senders[..|senders|] == senders;
          videoSender := current;
        }
      } else if state == PeerFailed {
        log := log + [Emit(Disconnected)];
      }
    }

    method OnIceCandidate(ev: Option<IceCandidate>, reply: Option<Response>)
      modifies this
      ensures var t := Spec.OnIceCandidate(old(Snapshot()), ev, reply, jsonParse);
        Snapshot() == t.state && log == old(log) + t.effects
    {
      if ev.None? {
        return;
      }
      var candidate := ev.value;
      if candidate.candidate == "" || parsedOffer.None? || !useTrickle {
        return;
      }
      if EndsWith(candidate.candidate, ".local") {
        return;
      }
      var frag := IceFragment(parsedOffer.value, Spec.Expand(candidate));
      var _ := DoSignalingPatch(Fragment(frag), false, reply);
    }

    method OnIceConnectionStateChange(state: IceState)
      modifies this
      ensures var t := Spec.OnIceConnectionStateChange(old(Snapshot()), state);
        Snapshot() == t.state && log == old(log) + t.effects
    {
      if !peerConnection {
        return;
      }
      if state == IceConnected {
        log := log + [Emit(Connected)];
        connectedResolved := true;
      }
    }

    method OnTrack(track: Track)
      modifies this
      ensures var t := Spec.OnTrack(old(Snapshot()), track);
        Snapshot() == t.state && log == old(log) + t.effects
    {
      if mode != Player {
        return;
      }
      remoteTracks := remoteTracks + [track];
      if |remoteTracks| == 2 {
        var tracks := remoteTracks;
        var media := playerMedia;
        ghost var media0 := playerMedia;
        assert media0.Some? ==> media0.value + [] == media0.value;
        for i := 0 to |tracks|
          invariant media == Spec.AddTracks(media0, tracks[..i])
        {
          assert tracks[..i + 1] == tracks[..i] + [tracks[i]];
          assert media0.Some? ==> media0.value + tracks[..i + 1] == media0.value + tracks[..i] + [tracks[i]];
          if media.Some? {
            media := Some(media.value + [tracks[i]]);
          }
        }
        assert tracks[..|tracks|] == tracks;
        playerMedia := media;
      }
    }

    /** waitForICEGather: the timer resolves gatherPromise if the engine did not. */
    method WaitForIceGather()
      modifies this
      ensures Snapshot() == old(Snapshot()).(gatherResolved := true)
      ensures log == old(log) + [AwaitGathering]
    {
      log := log + [AwaitGathering];
      gatherResolved := true;
    }

    method DoSignaling(n: Negotiation) returns (result: Outcome<()>)
      modifies this
      ensures var t := Spec.DoSignaling(old(Snapshot()), n, jsonParse);
        Snapshot() == t.state && log == old(log) + t.effects && result == t.result
    {
      if !peerConnection {
        return Ok(());
      }
      if n.offer.None? {
        return Fail(EngineFailure);
      }
      var sdp := n.offer.value;
      if sdp == "" {
        return Fail(OfferFailed);
      }
      parsedOffer := Some(Offer(sdp));
      var remoteOffer: Outcome<string>;
      if !useTrickle {
        remoteOffer := GatherThenPost(sdp, n);
      } else {
        remoteOffer := PostThenSetLocal(sdp, n);
      }
      if remoteOffer.Fail? {
        return Fail(remoteOffer.error);
      }
      log := log + [SetRemoteAnswer(remoteOffer.value)];
      if !n.setRemoteOk {
        return Fail(EngineFailure);
      }
      return Ok(());
    }

    /** The branch of doSignaling without trickle; the result is the answer. */
    method GatherThenPost(sdp: string, n: Negotiation) returns (answer: Outcome<string>)
      modifies this
      ensures var t := Spec.GatherThenPost(old(Snapshot()), sdp, n, jsonParse);
        Snapshot() == t.state && log == old(log) + t.effects && answer == t.result
    {
      log := log + [SetLocalDescription(sdp)];
      if !n.setLocalOk {
        return Fail(EngineFailure);
      }
      WaitForIceGather();
      if n.gathered.None? {
        return Fail(NoLocalDescription);
      }
      answer := DoSignalingPost(n.gathered.value, n.post);
      Regroup(old(log), [SetLocalDescription(sdp), AwaitGathering],
        Spec.Post(old(Snapshot()).(gatherResolved := true), n.gathered.value, n.post, jsonParse).effects);
    }

    /** The trickle branch of doSignaling; the result is the answer. */
    method PostThenSetLocal(sdp: string, n: Negotiation) returns (answer: Outcome<string>)
      modifies this
      ensures var t := Spec.PostThenSetLocal(old(Snapshot()), sdp, n, jsonParse);
        Snapshot() == t.state && log == old(log) + t.effects && answer == t.result
    {
      answer := DoSignalingPost(sdp, n.post);
      if answer.Fail? {
        return;
      }
      log := log + [SetLocalDescription(sdp)];
      if !n.setLocalOk {
        return Fail(EngineFailure);
      }
    }

    method WhipOffer(tracks: seq<Track>, n: Negotiation) returns (result: Outcome<()>)
      modifies this
      ensures var t := Spec.WhipOffer(old(Snapshot()), tracks, n, jsonParse);
        Snapshot() == t.state && log == old(log) + t.effects && result == t.result
    {
      if !peerConnection {
        return Ok(());
      }
      for i := 0 to |tracks|
        invariant Snapshot() == old(Snapshot())
        invariant log == old(log) + Spec.SendTransceivers(tracks[..i])
      {
        assert tracks[..i + 1][..i] == tracks[..i];
        log := log + [AddTransceiver(OfTrack(tracks[i]), SendOnly)];
      }
      assert tracks[..|tracks|] == tracks;
      result := DoSignaling(n);
      Regroup(old(log), Spec.SendTransceivers(tracks), Spec.DoSignaling(old(Snapshot()), n, jsonParse).effects);
    }

    method WhepClientOffer(n: Negotiation) returns (result: Outcome<()>)
      modifies this
      ensures var t := Spec.WhepClientOffer(old(Snapshot()), n, jsonParse);
        Snapshot() == t.state && log == old(log) + t.effects && result == t.result
    {
      if !peerConnection {
        return Ok(());
      }
      log := log + Spec.ReceiveTransceivers;
      result := DoSignaling(n);
      Regroup(old(log), Spec.ReceiveTransceivers, Spec.DoSignaling(old(Snapshot()), n, jsonParse).effects);
    }

    method UpdateETag(resp: Response)
      modifies this
      ensures Snapshot() == old(Snapshot()).(etag := Spec.UpdateETag(old(etag), resp, jsonParse))
      ensures log == old(log)
    {
      var header := Header(resp, "etag");
      if header != "" {
        var decoded := jsonParse(header);
        if decoded.Some? {
          etag := decoded.value;
        }
      }
    }

    method DoSignalingPost(sdp: string, reply: Option<Response>) returns (result: Outcome<string>)
      modifies this
      ensures var t := Spec.Post(old(Snapshot()), sdp, reply, jsonParse);
        Snapshot() == t.state && log == old(log) + t.effects && result == t.result
    {
      if endpoint == "" {
        return Fail(NoEndpoint);
      }
      log := log + [Fetch(Request(POST, endpoint, map["content-type" := Spec.SdpType], Text(sdp)), reply)];
      if reply.None? {
        return Fail(NetworkFailure);
      }
      var resp := reply.value;
      if resp.status != 201 {
        return Fail(UnexpectedStatus(resp.status, resp.body));
      }
      var resource := Header(resp, "location");
      if resource != "" {
        if StartsWith(resource, "http") {
          resourceURL := resource;
        } else {
          var parsed := Url.ReplacePath(endpoint, resource);
          if parsed.None? {
            return Fail(InvalidEndpointURL);
          }
          resourceURL := parsed.value;
        }
      }
      UpdateETag(resp);
      return Ok(resp.body);
    }

    method DoSignalingPatch(frag: Body, iceRestart: bool, reply: Option<Response>) returns (result: Outcome<()>)
      modifies this
      ensures var t := Spec.Patch(old(Snapshot()), frag, iceRestart, reply, jsonParse);
        Snapshot() == t.state && log == old(log) + t.effects && result == t.result
    {
      if resourceURL == "" {
        return Fail(NoResourceURL);
      }
      var headers := map["content-type" := Spec.FragType];
      if etag != "" {
        headers := headers["if-match" := etag];
      }
      log := log + [Fetch(Request(PATCH, resourceURL, headers, frag), reply)];
      if reply.None? {
        return Fail(NetworkFailure);
      }
      var resp := reply.value;
      if resp.status == 200 {
        if iceRestart {
          UpdateETag(resp);
          return Ok(());
        }
      } else if resp.status == 204 {
        if !iceRestart {
          return Ok(());
        }
      } else if resp.status == 405 || resp.status == 501 {
        useTrickle := false;
      } else if resp.status == 412 {
        useTrickle := false;
      }
      return Fail(UnexpectedStatus(resp.status, resp.body));
    }

    method CheckEndpoint(url: string, probe: Spec.Probe) returns (result: Outcome<()>)
      modifies this
      ensures var t := Spec.CheckEndpoint(old(Snapshot()), url, probe);
        Snapshot() == t.state && log == old(log) + t.effects && result == t.result
    {
      log := log + [Fetch(Request(OPTIONS, url, map[], NoBody), Spec.Answer(probe))];
      if probe.Unreachable? {
        return Fail(NetworkFailure);
      }
      var link := Header(probe.resp, "link");
      if link == "" {
        return Ok(());
      }
      if "ice-server" in probe.links {
        providedIceServer := probe.links["ice-server"];
      }
      return Ok(());
    }

    method WithEndpoint(url: string, trickle: bool, probe: Spec.Probe) returns (result: Outcome<()>)
      modifies this
      ensures var t := Spec.WithEndpoint(old(Snapshot()), url, trickle, probe);
        Snapshot() == t.state && log == old(log) + t.effects && result == t.result
    {
      if url == "" {
        return Fail(EmptyEndpoint);
      }
      if !Url.Valid(url) {
        return Fail(InvalidEndpointURL);
      }
      useTrickle := trickle;
      result := CheckEndpoint(url, probe);
      if result.Fail? {
        return;
      }
      endpoint := url;
      resourceURL := "";
    }

    method Disconnect(reply: Option<Response>) returns (result: Outcome<()>)
      modifies this
      ensures var t := Spec.Disconnect(old(Snapshot()), reply);
        Snapshot() == t.state && log == old(log) + t.effects && result == t.result
    {
      ghost var k := Spec.KillConnection(old(Snapshot()).(endpoint := ""));
      endpoint := "";
      KillConnection();
      assert Snapshot() == k.state && log == old(log) + k.effects;
      if resourceURL == "" {
        return Fail(NoResourceURL);
      }
      log := log + [Fetch(Request(DELETE, resourceURL, map[], NoBody), reply)];
      if reply.None? {
        return Fail(NetworkFailure);
      }
      if reply.value.status != 200 {
        return Fail(UnexpectedStatus(reply.value.status, reply.value.body));
      }
      resourceURL := "";
      return Ok(());
    }

    /** Play, up to the await of connectedPromise; playerMedia is the stream returned. */
    method Play(n: Negotiation) returns (result: Outcome<()>)
      modifies this
      ensures var t := Spec.Play(old(Snapshot()), n, jsonParse);
        Snapshot() == t.state && log == old(log) + t.effects && result == t.result
    {
      mode := Player;
      KillConnection();
      playerMedia := Some([]);
      CreateConnection();
      ghost var s2 := Snapshot();
      ghost var log2 := log;
      result := WhepClientOffer(n);
      PlayComposes(old(Snapshot()), s2, old(log), log2, n, jsonParse);
    }

    /** Publish, up to the await of connectedPromise. */
    method Publish(tracks: seq<Track>, n: Negotiation) returns (result: Outcome<()>)
      modifies this
      ensures var t := Spec.Publish(old(Snapshot()), tracks, n, jsonParse);
        Snapshot() == t.state && log == old(log) + t.effects && result == t.result
    {
      mode := Publisher;
      KillConnection();
      CreateConnection();
      ghost var s2 := Snapshot();
      ghost var log2 := log;
      result := WhipOffer(tracks, n);
      PublishComposes(old(Snapshot()), s2, old(log), log2, tracks, n, jsonParse);
    }

    method ReplaceVideoTrack(tracks: seq<Track>, replaced: bool) returns (result: Outcome<()>)
      modifies this
      ensures var t := Spec.ReplaceVideoTrack(old(Snapshot()), tracks, replaced);
        Snapshot() == t.state && log == old(log) + t.effects && result == t.result
    {
      if videoSender.None? {
        return Fail(PublisherNotActive);
      }
      if |tracks| < 1 {
        return Fail(NoTracks);
      }
      log := log + [ReplaceTrack(videoSender.value, tracks[0])];
      return if replaced then Ok(()) else Fail(EngineFailure);
    }
  }
}
