/** The WISH class of src/lib/wish.ts. Its fields are the source's; the peer
    connection is reduced to whether it exists, the resolvers to optional signals,
    and every request sent and engine call made is appended to the ghost trace
    `log`. Each method is proved to make exactly the transition that module
    LegacySpec defines for it. */
module LegacyClient {
  import opened Signaling
  import Url
  import Spec = LegacySpec

  lemma PlayComposes(s0: Spec.Session, s2: Spec.Session, log0: seq<Effect>, log2: seq<Effect>,
                     dst: seq<Track>, n: Negotiation)
    requires var k := Spec.KillConnection(s0.(mode := Player));
      var c := Spec.CreateConnection(k.state.(playerMedia := Some(dst)));
      s2 == c.state && log2 == log0 + k.effects + c.effects
    ensures var t := Spec.Play(s0, dst, n);
      var w := Spec.WhepClientOffer(s2, n);
      t.state == w.state && t.result == w.result && log0 + t.effects == log2 + w.effects
  {
  }

  lemma PublishComposes(s0: Spec.Session, s2: Spec.Session, log0: seq<Effect>, log2: seq<Effect>,
                        tracks: seq<Track>, n: Negotiation)
    requires var k := Spec.KillConnection(s0.(mode := Publisher));
      var c := Spec.CreateConnection(k.state);
      s2 == c.state && log2 == log0 + k.effects + c.effects
    ensures var t := Spec.Publish(s0, tracks, n);
      var w := Spec.WhipOffer(s2, tracks, n);
      t.state == w.state && t.result == w.result && log0 + t.effects == log2 + w.effects
  {
  }

  /** Regrouping a trace; stated once so that the methods need not rediscover it. */
  lemma Regroup(a: seq<Effect>, b: seq<Effect>, c: seq<Effect>)
    ensures a + (b + c) == (a + b) + c
  {
  }

  class Wish {
    var peerConnection: bool
    var iceServers: seq<string>
    var remoteTracks: seq<Track>
    var playerMedia: Option<seq<Track>>
    var connected: Spec.Signal
    var gather: Spec.Signal
    var endpoint: string
    var resourceURL: string
    var mode: Mode

    /** Every request sent and engine call made, in order. */
    ghost var log: seq<Effect>

    /** The object's fields as a session value. */
    function Snapshot(): Spec.Session
      reads this
    {
      Spec.Session(peerConnection, iceServers, remoteTracks, playerMedia, connected, gather,
        endpoint, resourceURL, mode)
    }

    constructor (servers: Option<seq<string>>)
      ensures Snapshot() == Spec.Initial(servers) && log == []
    {
      peerConnection := false;
      iceServers := if servers.Some? then servers.value else Spec.DefaultIceServers;
      remoteTracks := [];
      playerMedia := None;
      connected := None;
      gather := None;
      endpoint := "";
      resourceURL := "";
      mode := Player;
      log := [];
    }

    method KillConnection()
      modifies this
      ensures var t := Spec.KillConnection(old(Snapshot()));
        Snapshot() == t.state && log == old(log) + t.effects
    {
      if peerConnection {
        log := log + [ClosePeer];
      }
    }

    method CreateConnection()
      modifies this
      ensures var t := Spec.CreateConnection(old(Snapshot()));
        Snapshot() == t.state && log == old(log) + t.effects
    {
      log := log + [OpenPeer(iceServers)];
      peerConnection := true;
      NewResolvers();
    }

    method NewResolvers()
      modifies this
      ensures Snapshot() == Spec.NewResolvers(old(Snapshot())) && log == old(log)
    {
      connected := Some(false);
      gather := Some(false);
    }

    method OnGatheringStateChange(state: GatheringState)
      modifies this
      ensures var t := Spec.OnGatheringStateChange(old(Snapshot()), state);
        Snapshot() == t.state && log == old(log) + t.effects
    {
      if !peerConnection {
        return;
      }
      if state == GatherComplete && gather.Some? {
        gather := Some(true);
      }
    }

    method OnIceConnectionStateChange(state: IceState)
      modifies this
      ensures var t := Spec.OnIceConnectionStateChange(old(Snapshot()), state);
        Snapshot() == t.state && log == old(log) + t.effects
    {
      if !peerConnection {
        return;
      }
      if state == IceConnected && connected.Some? {
        connected := Some(true);
      }
    }

    method OnTrack(track: Track)
      modifies this
      ensures var t := Spec.OnTrack(old(Snapshot()), track);
        Snapshot() == t.state && log == old(log) + t.effects
    {
      remoteTracks := remoteTracks + [track];
      if |remoteTracks| == 2 {
        var tracks := remoteTracks;
        ghost var media0 := playerMedia;
        assert media0.Some? ==> media0.value + [] == media0.value;
        for i := 0 to |tracks|
          invariant media0.Some? ==> playerMedia == Some(media0.value + tracks[..i])
          invariant media0.None? ==> playerMedia.None?
          invariant Snapshot() == old(Snapshot()).(remoteTracks := tracks, playerMedia := playerMedia)
          invariant log == old(log)
        {
          assert tracks[..i + 1] == tracks[..i] + [tracks[i]];
          assert media0.Some? ==> media0.value + tracks[..i + 1] == media0.value + tracks[..i] + [tracks[i]];
          if playerMedia.Some? {
            playerMedia := Some(playerMedia.value + [tracks[i]]);
          }
        }
        assert tracks[..|tracks|] == tracks;
      }
    }

    /** waitForICEGather: the timer resolves gatherPromise if the engine did not. */
    method WaitForIceGather()
      modifies this
      ensures Snapshot() == old(Snapshot()).(gather := Spec.Resolve(old(gather)))
      ensures log == old(log) + [AwaitGathering]
    {
      if gather.Some? {
        gather := Some(true);
      }
      log := log + [AwaitGathering];
    }

    method DoSignaling(n: Negotiation) returns (result: Outcome<()>)
      modifies this
      ensures var t := Spec.DoSignaling(old(Snapshot()), n);
        Snapshot() == t.state && log == old(log) + t.effects && result == t.result
    {
      if !peerConnection {
        return Ok(());
      }
      if n.offer.None? {
        return Fail(EngineFailure);
      }
      var sdp := n.offer.value;
      log := log + [SetLocalDescription(sdp)];
      if !n.setLocalOk {
        return Fail(EngineFailure);
      }
      WaitForIceGather();
      if n.gathered.None? {
        return Fail(NoLocalDescription);
      }
      var remoteOffer := DoSignalingPost(n.gathered.value, n.post);
      Regroup(old(log), [SetLocalDescription(sdp), AwaitGathering],
        Spec.Post(old(Snapshot()).(gather := Spec.Resolve(old(gather))), n.gathered.value, n.post).effects);
      if remoteOffer.Fail? {
        return Fail(remoteOffer.error);
      }
      log := log + [SetRemoteAnswer(remoteOffer.value)];
      if !n.setRemoteOk {
        return Fail(EngineFailure);
      }
      return Ok(());
    }

    method WhipOffer(tracks: seq<Track>, n: Negotiation) returns (result: Outcome<()>)
      modifies this
      ensures var t := Spec.WhipOffer(old(Snapshot()), tracks, n);
        Snapshot() == t.state && log == old(log) + t.effects && result == t.result
    {
      if !peerConnection {
        return Ok(());
      }
      for i := 0 to |tracks|
        invariant Snapshot() == old(Snapshot())
        invariant log == old(log) + Spec.SendTransceivers(tracks[..i])
      {
        assert tracks[..i + 1][..i] == tracks[..i];
        log := log + [AddTransceiver(OfTrack(tracks[i]), SendOnly)];
      }
      assert tracks[..|tracks|] == tracks;
      result := DoSignaling(n);
      Regroup(old(log), Spec.SendTransceivers(tracks), Spec.DoSignaling(old(Snapshot()), n).effects);
    }

    method WhepClientOffer(n: Negotiation) returns (result: Outcome<()>)
      modifies this
      ensures var t := Spec.WhepClientOffer(old(Snapshot()), n);
        Snapshot() == t.state && log == old(log) + t.effects && result == t.result
    {
      if !peerConnection {
        return Ok(());
      }
      log := log + Spec.ReceiveTransceivers;
      result := DoSignaling(n);
      Regroup(old(log), Spec.ReceiveTransceivers, Spec.DoSignaling(old(Snapshot()), n).effects);
    }

    method DoSignalingPost(sdp: string, reply: Option<Response>) returns (result: Outcome<string>)
      modifies this
      ensures var t := Spec.Post(old(Snapshot()), sdp, reply);
        Snapshot() == t.state && log == old(log) + t.effects && result == t.result
    {
      if endpoint == "" {
        return Fail(NoEndpoint);
      }
      log := log + [Fetch(Request(POST, endpoint, map["content-type" := "application/sdp"], Text(sdp)), reply)];
      if reply.None? {
        return Fail(NetworkFailure);
      }
      var resp := reply.value;
      if resp.status != 201 {
        return Fail(UnexpectedStatus(resp.status, resp.body));
      }
      var resource := Header(resp, "location");
      if resource != "" {
        if StartsWith(resource, "http") {
          resourceURL := resource;
        } else {
          var parsed := Url.ReplacePath(endpoint, resource);
          if parsed.None? {
            return Fail(InvalidEndpointURL);
          }
          resourceURL := parsed.value;
        }
      }
      return Ok(resp.body);
    }

    method DoSignalingPatch(frag: Body, reply: Option<Response>) returns (result: Outcome<()>)
      modifies this
      ensures var t := Spec.Patch(old(Snapshot()), frag, reply);
        Snapshot() == t.state && log == old(log) + t.effects && result == t.result
    {
      if resourceURL == "" {
        return Fail(NoResourceURL);
      }
      log := log + [Fetch(Request(PATCH, resourceURL, map["content-type" := "application/trickle-ice-sdpfrag"], frag), reply)];
      if reply.None? {
        return Fail(NetworkFailure);
      }
      if reply.value.status != 204 {
        return Fail(UnexpectedStatus(reply.value.status, reply.value.body));
      }
      return Ok(());
    }

    method WithEndpoint(url: string) returns (result: Outcome<()>)
      modifies this
      ensures var t := Spec.WithEndpoint(old(Snapshot()), url);
        Snapshot() == t.state && log == old(log) + t.effects && result == t.result
    {
      if url == "" {
        return Fail(EmptyEndpoint);
      }
      if !Url.Valid(url) {
        return Fail(InvalidEndpointURL);
      }
      endpoint := url;
      resourceURL := "";
      return Ok(());
    }

    method Disconnect(reply: Option<Response>) returns (result: Outcome<()>)
      modifies this
      ensures var t := Spec.Disconnect(old(Snapshot()), reply);
        Snapshot() == t.state && log == old(log) + t.effects && result == t.result
    {
      KillConnection();
      if resourceURL == "" {
        return Fail(NoResourceURL);
      }
      log := log + [Fetch(Request(DELETE, resourceURL, map[], NoBody), reply)];
      if reply.None? {
        return Fail(NetworkFailure);
      }
      if reply.value.status != 200 {
        return Fail(UnexpectedStatus(reply.value.status, reply.value.body));
      }
      return Ok(());
    }

    /** Play into the caller's stream, whose tracks are `dst`, up to the await of
        connectedPromise. */
    method Play(dst: seq<Track>, n: Negotiation) returns (result: Outcome<()>)
      modifies this
      ensures var t := Spec.Play(old(Snapshot()), dst, n);
        Snapshot() == t.state && log == old(log) + t.effects && result == t.result
    {
      mode := Player;
      KillConnection();
      playerMedia := Some(dst);
      CreateConnection();
      ghost var s2 := Snapshot();
      ghost var log2 := log;
      result := WhepClientOffer(n);
      PlayComposes(old(Snapshot()), s2, old(log), log2, dst, n);
    }

    /** Publish, up to the await of connectedPromise. */
    method Publish(tracks: seq<Track>, n: Negotiation) returns (result: Outcome<()>)
      modifies this
      ensures var t := Spec.Publish(old(Snapshot()), tracks, n);
        Snapshot() == t.state && log == old(log) + t.effects && result == t.result
    {
      mode := Publisher;
      KillConnection();
      CreateConnection();
      ghost var s2 := Snapshot();
      ghost var log2 := log;
      result := WhipOffer(tracks, n);
      PublishComposes(old(Snapshot()), s2, old(log), log2, tracks, n);
    }
  }
}
