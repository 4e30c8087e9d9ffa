# WISH: a WHIP/WHEP signalling client, modelled in Dafny

The repository is a Vue front end for publishing and playing WebRTC streams through a
WHIP (ingest) or WHEP (egress) endpoint. Its signalling is done by one class, `WISH`,
which comes in two versions:

- `src/lib/wish/index.ts`, the current client. It has trickle ICE (candidates sent as
  `PATCH` requests carrying SDP fragments), an entity tag kept for `If-Match`, and an
  `OPTIONS` probe of the endpoint that may advertise an ICE server. It raises `status`
  events.
- `src/lib/wish.ts`, the older client. It always waits for ICE gathering before the
  `POST` and never trickles. Its `killConnection` only closes the connection.

The model is laid out by layer:

| layer | current client | older client |
|---|---|---|
| shared values | `signaling.dfy` (module `Signaling`) | same |
| URLs | `url.dfy` (module `Url`) | same |
| transitions | `wish_spec.dfy` (module `WishSpec`) | `legacy_spec.dfy` (module `LegacySpec`) |
| the class | `wish_client.dfy` (module `WishClient`) | `legacy_client.dfy` (module `LegacyClient`) |
| properties | `wish_properties.dfy` (module `WishProperties`) | `legacy_properties.dfy` (module `LegacyProperties`) |
| whole runs | `wish_runs.dfy` (module `WishRuns`) | in `legacy_properties.dfy` |

- **Transitions.** Every method of the class is a pure function from the session before
  the call (a `Session` value holding the class's fields) and the outside world's answers.
  It yields a `Step`: the session after the call, the effects in the order the method makes
  them, and how the call ended (`Ok` or `Fail` with an `Error`). The effects are requests
  sent, peer-connection calls and `status` events.
- **The class.** `class Wish` has the source's fields and methods. It keeps every effect in
  a ghost trace `log`. Each method's `ensures` says that it makes exactly the spec function's
  transition: its new fields, the effects appended to `log`, and its result.
- **Properties.** Lemmas about the spec functions state what the source promises:
  - the requests sent and their headers;
  - the status tables of `POST`, `PATCH` and `DELETE`;
  - where the resource URL comes from and how the entity tag is updated;
  - the trickle filter;
  - the order of the negotiation steps;
  - when tracks reach the player's stream;
  - that `Play` and `Publish` close an active connection and open exactly one new one,
    with no remote tracks;
  - which ICE servers a connection uses.
- **Whole runs.** `Op` is any call or event, and `Run` applies a sequence of them. The run
  lemmas prove invariants that hold across any interleaving of calls and events:
  - a known resource URL is the last one that any `POST` answered `201 Created` handed
    out (a `201` without a location hands out none), and no `DELETE` has been answered
    `200` since;
  - every `PATCH` and every `DELETE` goes to the resource URL handed out last before it,
    so it comes after a `POST` answered `201`;
  - trickle, once off, stays off until `WithEndpoint`;
  - in the older client, tracks reach a stream at most once in an object's lifetime.

Conventions of the model:

- An undefined or empty string is `""`, because the source tests them by JavaScript
  truthiness. This applies to endpoint, resource URL, entity tag and advertised ICE server.
- A response header that is absent is `""`.
- A peer connection is reduced to whether it exists. A promise resolver is reduced to
  whether it has been resolved; in the older client, which may lack one, it is an
  `Option<bool>`.
- Awaited results are inputs, not computations:
  - a `Negotiation` record gives the offer `createOffer` produced (if any), whether
    `setLocalDescription` and `setRemoteDescription` succeeded, and the local description
    after gathering;
  - the answer to a request is an `Option<Response>`, where `None` means `fetch` rejected.
- `JSON.parse` of the `etag` header is a function given at construction; `None` means it
  threw.
- The `Link` header parser gives its result as a map, part of the probe's answer.
- `Play` and `Publish` are modelled up to the `await` of the connected promise, which the
  source resolves later from an event.

In these places the model follows the code as written:

- A rejected `OPTIONS` probe propagates out of `WithEndpoint`: `checkEndpoint`
  (`src/lib/wish/index.ts:475-490`) does not catch it, and neither does its caller at
  492-507. By then the trickle flag has already been set;
  `WishProperties.WithEndpointUnreachable` states this.
- A `412 Precondition Failed` reply to a `PATCH` turns trickle off and leaves the entity tag
  as it is (`WishProperties.PreconditionFailedExample`).
- The older client's "no endpoint" message in `doSignalingPOST` is modelled as the same
  `NoEndpoint` error the current client uses.
- The candidate handler's mDNS filter tests whether the whole candidate line ends with
  ".local" (`src/lib/wish/index.ts:224`). `WishSpec.OnIceCandidate` and the class method
  keep that test. The corrected filter, which also tests the address, is
  `WishSpec.OnIceCandidateIntended` (see "## Findings").

The two clients differ, and the model proves the differences:

- The older client never empties `remoteTracks`. Once an earlier connection has delivered
  two tracks, a second `Play` on the same object gets no tracks
  (`LegacyProperties.ReplayGetsNoTracks`, `LegacyProperties.AttachOncePerLifetime`).
- The older `Disconnect` keeps the endpoint and the resource URL
  (`LegacyProperties.DisconnectDiffers`).
- Both clients `POST` alike (`LegacyProperties.PostAgrees`). Without an entity tag, the two
  `doSignalingPATCH` functions send the same request and end the same way
  (`LegacyProperties.PatchAgrees`). The older one has no caller: that client never trickles.
  It also knows no ICE restart and no entity tag.

## Model

| member | source | states |
|---|---|---|
| Signaling.FirstSent | src/lib/wish/index.ts:382-473 | the index of the first request of a method in a trace: below the trace's length exactly when one was sent, and no earlier entry is such a request |
| Url.SplitAt | src/lib/wish/index.ts:406-408 | the two parts rejoin to the input, the first has no stop character, and the second is empty or starts with one |
| Url.SplitAtUnique | src/lib/wish/index.ts:406-408 | the split is the only one with those properties |
| Url.Parse | src/lib/wish/index.ts:496-503 | the model of `new URL` succeeds exactly where Url.Valid holds (a scheme, "://" and a non-empty host); what it yields prints back to the input and has a non-empty scheme and host, and a path that is empty or starts with '/' |
| Url.ParseToString | src/lib/wish/index.ts:406-408 | parsing a printed well-formed URL gives that URL back |
| Url.ReplacePath | src/lib/wish/index.ts:406-408 | a relative location resolves exactly when the endpoint parses, and the result starts with the endpoint's origin and a '/' |
| Url.ReplacePathKeepsOrigin | src/lib/wish/index.ts:406-408 | the resolved URL is the endpoint's scheme and host, the location with a leading '/', and the endpoint's query and fragment |
| WishSpec.Expand | src/lib/wish/index.ts:230-244 | the component is 1 exactly for "rtp" and 2 otherwise; a related address is kept only when present and non-empty |
| WishClient.Wish.constructor | src/lib/wish/index.ts:39-48 | the fields start as the initial session: the given ICE servers or the default, player mode, nothing else set |
| WishClient.Wish.KillConnection | src/lib/wish/index.ts:62-72 | the transition of WishSpec.KillConnection |
| WishClient.Wish.CreateConnection | src/lib/wish/index.ts:74-91 | the transition of WishSpec.CreateConnection |
| WishClient.Wish.NewResolvers | src/lib/wish/index.ts:93-100 | both signals start over, unresolved |
| WishClient.Wish.OnGatheringStateChange | src/lib/wish/index.ts:129-141 | the transition of WishSpec.OnGatheringStateChange |
| WishClient.Wish.OnConnectionStateChange | src/lib/wish/index.ts:143-207 | the transition of WishSpec.OnConnectionStateChange; the video-sender loop is a `for` loop |
| WishClient.Wish.OnIceCandidate | src/lib/wish/index.ts:209-256 | the transition of WishSpec.OnIceCandidate |
| WishClient.Wish.OnIceConnectionStateChange | src/lib/wish/index.ts:267-286 | the transition of WishSpec.OnIceConnectionStateChange |
| WishClient.Wish.OnTrack | src/lib/wish/index.ts:288-302 | the transition of WishSpec.OnTrack; the tracks are added to the stream one at a time in a loop |
| WishClient.Wish.WaitForIceGather | src/lib/wish/index.ts:304-309 | the gathering signal is resolved, and the wait is recorded in the trace |
| WishClient.Wish.DoSignaling | src/lib/wish/index.ts:311-340 | the transition of WishSpec.DoSignaling |
| WishClient.Wish.GatherThenPost | src/lib/wish/index.ts:323-330 | the transition of the branch without trickle |
| WishClient.Wish.PostThenSetLocal | src/lib/wish/index.ts:331-335 | the transition of the trickle branch |
| WishClient.Wish.WhipOffer | src/lib/wish/index.ts:342-353 | the transition of WishSpec.WhipOffer: one send-only transceiver per track, added in a loop, then the negotiation |
| WishClient.Wish.WhepClientOffer | src/lib/wish/index.ts:355-366 | the transition of WishSpec.WhepClientOffer |
| WishClient.Wish.UpdateETag | src/lib/wish/index.ts:368-380 | only the entity tag changes, to WishSpec.UpdateETag of the old one |
| WishClient.Wish.DoSignalingPost | src/lib/wish/index.ts:382-429 | the transition of WishSpec.Post |
| WishClient.Wish.DoSignalingPatch | src/lib/wish/index.ts:431-473 | the transition of WishSpec.Patch |
| WishClient.Wish.CheckEndpoint | src/lib/wish/index.ts:475-490 | the transition of WishSpec.CheckEndpoint |
| WishClient.Wish.WithEndpoint | src/lib/wish/index.ts:492-507 | the transition of WishSpec.WithEndpoint |
| WishClient.Wish.Disconnect | src/lib/wish/index.ts:509-524 | the transition of WishSpec.Disconnect |
| WishClient.Wish.Play | src/lib/wish/index.ts:526-534 | the transition of WishSpec.Play |
| WishClient.Wish.Publish | src/lib/wish/index.ts:536-542 | the transition of WishSpec.Publish |
| WishClient.Wish.ReplaceVideoTrack | src/lib/wish/index.ts:544-553 | the transition of WishSpec.ReplaceVideoTrack |
| WishProperties.PostWithoutEndpoint | src/lib/wish/index.ts:383-385 | with no endpoint the POST fails with nothing sent and nothing changed |
| WishProperties.PostRequest | src/lib/wish/index.ts:386-393 | otherwise exactly one request goes out: a POST of the offer, as application/sdp, to the endpoint |
| WishProperties.PostFrame | src/lib/wish/index.ts:382-429 | a POST changes only the resource URL and the entity tag, and neither when it fails |
| WishProperties.PostRejected | src/lib/wish/index.ts:394-397 | any status but 201 fails with that status and body and changes nothing |
| WishProperties.PostCreated | src/lib/wish/index.ts:399-428 | on 201 the body is the answer and the tag is updated; an absent location keeps the resource URL, an absolute one is taken as is, and a relative one replaces the endpoint's path |
| WishProperties.ExampleEndpoint | src/lib/wish/index.ts:406-408 | example: "https://relay.example/whip" parses to its scheme, host and path |
| WishProperties.ExampleIsWellFormed | src/lib/wish/index.ts:406-408 | example: that record is well formed |
| WishProperties.ExampleToString | src/lib/wish/index.ts:406-408 | example: that record prints as "https://relay.example/whip" |
| WishProperties.RelativeLocationExample | src/lib/wish/index.ts:406-408 | example: location "/res/42" against that endpoint gives "https://relay.example/res/42" |
| WishProperties.ExampleResource | src/lib/wish/index.ts:406-408 | example: the resolved record prints as "https://relay.example/res/42" |
| WishProperties.UpdateETagSource | src/lib/wish/index.ts:368-380 | the tag becomes the decoded `etag` header when there is one and it decodes; otherwise it stays |
| WishProperties.PatchWithoutResource | src/lib/wish/index.ts:432-434 | with no resource URL the PATCH fails with nothing sent and nothing changed |
| WishProperties.PatchRequest | src/lib/wish/index.ts:435-446 | otherwise one PATCH of the fragment goes to the resource URL, typed as a trickle fragment, carrying `if-match` exactly when a tag is known, and with no other header |
| WishProperties.PatchStatusTable | src/lib/wish/index.ts:447-472 | success exactly on 200 for a restart and on 204 otherwise; every other status fails with its status and body; 405, 412 and 501 turn trickle off; only a restart's 200 updates the tag; nothing else changes |
| WishProperties.PreconditionFailedExample | src/lib/wish/index.ts:466-472 | a 412 on a trickled candidate fails, turns trickle off and keeps the tag |
| WishProperties.TrickleSendsIff | src/lib/wish/index.ts:209-256 | the handler as written sends a PATCH exactly when there is a candidate with a non-empty line, an offer has been parsed, trickle is on, the line does not end with ".local", and a resource URL is known; the PATCH carries that candidate's fragment, without ICE restart, and nothing else is sent |
| WishProperties.TrickleFailureSwallowed | src/lib/wish/index.ts:248-252 | a candidate event never fails, and at most turns trickle off |
| WishProperties.NoMdnsAddressTrickled | src/lib/wish/index.ts:224-227 | with the corrected filter, no fragment that is sent carries an mDNS (".local") address |
| WishProperties.MdnsCandidateSlipsThrough | src/lib/wish/index.ts:224-227 | the handler as written PATCHes a host candidate whose address ends with ".local" (its line ends with "typ host"); the corrected handler sends nothing for it |
| WishProperties.TrickleNegotiationOrder | src/lib/wish/index.ts:331-339 | with trickle on, a successful negotiation POSTs the raw offer, then applies it, then applies the answer |
| WishProperties.GatheredNegotiationOrder | src/lib/wish/index.ts:323-330 | with trickle off, a successful negotiation applies the offer, waits for gathering, POSTs the gathered description, then applies the answer |
| WishProperties.NegotiationOrder | src/lib/wish/index.ts:311-340 | for every outcome: with trickle on, nothing is applied locally before the POST; with trickle off, the POST comes after the wait for gathering; the answer is applied only after a POST |
| WishProperties.WithEndpointRefused | src/lib/wish/index.ts:493-503 | an empty or unparsable endpoint is refused, with no effect and no change |
| WishProperties.WithEndpointAdopted | src/lib/wish/index.ts:492-507 | a parsable endpoint is probed with one OPTIONS request; once the probe is answered, trickle and the endpoint are set and the resource URL cleared; only an `ice-server` link changes the advertised ICE server |
| WishProperties.WithEndpointUnreachable | src/lib/wish/index.ts:496-505 | a probe that cannot reach the endpoint makes WithEndpoint fail after the trickle flag is set and before the endpoint is stored |
| WishProperties.KillConnectionResets | src/lib/wish/index.ts:62-72 | with a connection: it is closed and the offer, stream, video sender and remote tracks are forgotten, nothing else changes; without one nothing happens |
| WishProperties.DisconnectContract | src/lib/wish/index.ts:509-524 | the connection is closed and the endpoint forgotten first; a DELETE goes to the resource URL exactly when one is known; success exactly on 200, which also forgets the resource URL |
| WishProperties.OnTrackContract | src/lib/wish/index.ts:288-302 | outside player mode nothing changes; in player mode the track is appended, and the arrival that makes two adds both to the stream |
| WishProperties.TracksAttachAtTwo | src/lib/wish/index.ts:288-302 | after any arrivals on a fresh player connection, all tracks are recorded and the stream holds the first two, or none if fewer arrived |
| WishProperties.AttachStep | src/lib/wish/index.ts:288-302 | one arrival on a player whose stream holds the first two tracks so far leaves it holding the first two of the longer run |
| WishProperties.ReplaceVideoTrackGuard | src/lib/wish/index.ts:544-553 | with no video sender or no tracks it fails before any effect; otherwise it replaces the sender's track with the first one; no field changes |
| WishProperties.CreateConnectionServers | src/lib/wish/index.ts:74-91 | the connection uses the advertised ICE server if there is one, else the configured servers, and starts with both signals unresolved |
| WishProperties.AdvertisedIceServerUsed | src/lib/wish/index.ts:75-77 | after a probe advertises an ICE server, Play opens its connection with exactly that server |
| WishProperties.VideoSenderIsLastEligible | src/lib/wish/index.ts:180-194 | the loop settles on the last sender with a transport and a video track |
| WishProperties.NoVideoSenderKeepsCurrent | src/lib/wish/index.ts:180-194 | with no such sender the loop keeps the video sender it had |
| WishProperties.ConnectionStateEvents | src/lib/wish/index.ts:143-205 | without a connection the handler returns at once; with one, "failed" emits a disconnected status and changes nothing, a publisher's "connected" records the video sender, and every other state does nothing |
| WishProperties.GatheringCompleteResolves | src/lib/wish/index.ts:129-141 | with a connection, "complete" resolves the gathering signal; every other state, and no connection, changes nothing; the handler never fails and has no effect |
| WishProperties.IceConnectedResolves | src/lib/wish/index.ts:267-286 | without a connection the handler returns at once; with one, the "connected" ICE state emits a connected status and resolves the signal; every other state does nothing |
| WishRuns.FetchesOnlyNotSent | src/lib/wish/index.ts:382-524 | a trace whose requests all use given methods sends no request of any other method |
| WishRuns.PostKeeps | src/lib/wish/index.ts:382-429 | a POST sends no other request, changes only the resource URL and tag, and changes the resource URL only when it sent something |
| WishRuns.GatherThenPostKeeps | src/lib/wish/index.ts:323-330 | the branch without trickle sends at most the POST, and learns a resource URL only through it |
| WishRuns.PostThenSetLocalKeeps | src/lib/wish/index.ts:331-335 | the trickle branch sends at most the POST, and learns a resource URL only through it |
| WishRuns.NegotiationKeeps | src/lib/wish/index.ts:311-340 | doSignaling sends no request but the POST, changes only the offer, gathering signal, resource URL and tag, and learns a resource URL only through the POST |
| WishRuns.PlayKeeps | src/lib/wish/index.ts:526-534 | Play keeps the invariants of WishRuns.Keeps and the trickle flag |
| WishRuns.PublishKeeps | src/lib/wish/index.ts:536-542 | Publish keeps the invariants of WishRuns.Keeps and the trickle flag |
| WishRuns.NegotiationLeavesPeer | src/lib/wish/index.ts:311-340 | doSignaling never opens or closes a transport connection |
| WishRuns.SendTransceiversLeavePeer | src/lib/wish/index.ts:346-351 | the transceivers whipOffer adds never open or close a connection |
| WishRuns.PlayRestarts | src/lib/wish/index.ts:526-534 | Play over an active connection closes it, then opens exactly one new one with the session's ICE servers, and nothing else opens or closes one; the new state is player mode with an empty stream, no remote tracks and no video sender |
| WishRuns.PublishRestarts | src/lib/wish/index.ts:536-542 | Publish over an active connection closes it and opens exactly one new one, and nothing else opens or closes one; the new state is publisher mode with no stream, no remote tracks and no video sender |
| WishRuns.PlayThenTracks | src/lib/wish/index.ts:526-534 | on the connection a Play opens, any run of arrivals records every track, and the stream gets exactly the first two |
| WishRuns.SendTransceiversFetchNothing | src/lib/wish/index.ts:346-351 | adding the source's transceivers sends no request |
| WishRuns.WithEndpointKeeps | src/lib/wish/index.ts:492-507 | WithEndpoint keeps the invariants of WishRuns.Keeps |
| WishRuns.DisconnectKeeps | src/lib/wish/index.ts:509-524 | Disconnect keeps the invariants, and DELETEs only a known resource URL |
| WishRuns.IceCandidateKeeps | src/lib/wish/index.ts:209-256 | a candidate event keeps the invariants and never turns trickle on |
| WishRuns.ApplyKeeps | src/lib/wish/index.ts:129-553 | every call and every event keeps the invariants; only WithEndpoint can turn trickle on |
| WishRuns.CallKeeps | src/lib/wish/index.ts:492-542 | the public calls keep the invariants |
| WishRuns.EventKeeps | src/lib/wish/index.ts:129-302 | the events keep the invariants and never turn trickle on |
| WishRuns.QuietKeeps | src/lib/wish/index.ts:129-302 | a step that sends nothing and leaves endpoint, resource URL, trickle, connection and offer alone keeps the invariants |
| WishRuns.NoPostProvidesNothing | src/lib/wish/index.ts:399-428 | a trace without a POST hands out no resource URL |
| WishRuns.Provided | src/lib/wish/index.ts:394-413 | the resource URL a trace entry hands out, by the location rule of a POST answered 201: none unless the entry is a POST answered 201 with a location |
| WishRuns.LastProvided | src/lib/wish/index.ts:394-413 | the resource URL handed out last in a trace, "" when none was |
| WishRuns.LastProvidedHandedOut | src/lib/wish/index.ts:394-413 | a resource URL handed out last was handed out by an entry of the trace |
| WishRuns.NoDeleteClearsNothing | src/lib/wish/index.ts:509-524 | a trace without a DELETE has no DELETE answered 200 since its last handed-out URL |
| WishRuns.ProvidingEntry | src/lib/wish/index.ts:394-524 | when a trace has a handed-out URL that it has not cleared, there is an entry that handed it out and no DELETE after that entry was answered 200 |
| WishRuns.PostProvenance | src/lib/wish/index.ts:382-429 | a POST that is handed a resource URL ends with it, and a POST changes the resource URL only to the one it is handed |
| WishRuns.GatherThenPostProvenance | src/lib/wish/index.ts:323-330 | the same for the branch without trickle |
| WishRuns.PostThenSetLocalProvenance | src/lib/wish/index.ts:331-335 | the same for the trickle branch |
| WishRuns.NegotiationProvenance | src/lib/wish/index.ts:311-340 | the same for doSignaling |
| WishRuns.SignalingStepProvenance | src/lib/wish/index.ts:342-366 | calls on the engine followed by doSignaling hand resource URLs on as WishRuns.Provenance says |
| WishRuns.PlayProvenance | src/lib/wish/index.ts:526-534 | Play hands resource URLs on as WishRuns.Provenance says, and sends no PATCH or DELETE |
| WishRuns.PublishProvenance | src/lib/wish/index.ts:536-542 | Publish does the same |
| WishRuns.ProbeProvenance | src/lib/wish/index.ts:475-507 | a step that sends only OPTIONS probes and keeps or forgets the resource URL hands resource URLs on as WishRuns.Provenance says |
| WishRuns.WithEndpointProvenance | src/lib/wish/index.ts:492-507 | WithEndpoint sends no POST and only clears the resource URL |
| WishRuns.NoPostProvenance | src/lib/wish/index.ts:509-524 | a step without a POST that keeps or forgets the resource URL, and sends its PATCHes and DELETEs to it, hands resource URLs on as WishRuns.Provenance says |
| WishRuns.DisconnectProvenance | src/lib/wish/index.ts:509-524 | Disconnect DELETEs only the resource URL it knows, sends no POST, and keeps or forgets the resource URL |
| WishRuns.IceCandidateProvenance | src/lib/wish/index.ts:209-256 | a candidate event PATCHes only the known resource URL and keeps it |
| WishRuns.QuietProvenance | src/lib/wish/index.ts:129-302 | a step that sends nothing and keeps the resource URL hands nothing on |
| WishRuns.ApplyProvenance | src/lib/wish/index.ts:129-553 | every call and every event: a handed-out resource URL is the one the session ends with; a new resource URL is one handed out in the step; PATCH and DELETE go to the resource URL known before the step, and not in a step with a POST; a DELETE answered 200 after the step's last handed-out URL leaves no resource URL |
| WishRuns.AddressedStep | src/lib/wish/index.ts:431-524 | a step whose PATCHes and DELETEs go to the resource URL handed out last keeps every PATCH and DELETE of the trace addressed to the URL handed out last before it |
| WishRuns.AddressedAt | src/lib/wish/index.ts:431-524 | in such a trace, each PATCH and DELETE has a non-empty URL, the one handed out last before it |
| WishRuns.ConsistentStep | src/lib/wish/index.ts:129-553 | a step that keeps the invariants takes a consistent session and trace to a consistent one |
| WishRuns.AddressedOrder | src/lib/wish/index.ts:382-524 | in such a trace every PATCH and DELETE has a POST answered 201 before it, and comes after the first POST |
| WishRuns.InitialConsistent | src/lib/wish/index.ts:39-48 | a new object is consistent, with no connection and trickle off |
| WishRuns.RunConsistent | src/lib/wish/index.ts:129-553 | from a well-formed session with no resource URL, every run stays well formed; a known resource URL is the last one any POST answered 201 handed out, and no DELETE was answered 200 since; every PATCH and DELETE goes to the resource URL handed out last before it |
| WishRuns.EveryRunConsistent | src/lib/wish/index.ts:39-553 | the same for every run from construction; also, a known resource URL was handed out by a POST answered 201 after which no DELETE was answered 200, and every PATCH and DELETE comes after the first POST |
| WishRuns.TrickleOffStaysOff | src/lib/wish/index.ts:461-469 | once trickle is off it stays off, and no PATCH is sent, over every run without WithEndpoint |
| LegacyClient.Wish.constructor | src/lib/wish.ts:36-43 | the fields start as the initial session: the given ICE servers or the default, player mode, no resolvers |
| LegacyClient.Wish.KillConnection | src/lib/wish.ts:53-58 | the transition of LegacySpec.KillConnection |
| LegacyClient.Wish.CreateConnection | src/lib/wish.ts:60-78 | the transition of LegacySpec.CreateConnection |
| LegacyClient.Wish.NewResolvers | src/lib/wish.ts:80-87 | both signals start over, pending |
| LegacyClient.Wish.OnGatheringStateChange | src/lib/wish.ts:112-126 | the transition of LegacySpec.OnGatheringStateChange |
| LegacyClient.Wish.OnIceConnectionStateChange | src/lib/wish.ts:191-205 | the transition of LegacySpec.OnIceConnectionStateChange |
| LegacyClient.Wish.OnTrack | src/lib/wish.ts:207-218 | the transition of LegacySpec.OnTrack; the tracks are added to the stream one at a time in a loop |
| LegacyClient.Wish.WaitForIceGather | src/lib/wish.ts:220-227 | the gathering signal is resolved if it exists, and the wait is recorded |
| LegacyClient.Wish.DoSignaling | src/lib/wish.ts:229-247 | the transition of LegacySpec.DoSignaling |
| LegacyClient.Wish.WhipOffer | src/lib/wish.ts:249-260 | the transition of LegacySpec.WhipOffer |
| LegacyClient.Wish.WhepClientOffer | src/lib/wish.ts:262-273 | the transition of LegacySpec.WhepClientOffer |
| LegacyClient.Wish.DoSignalingPost | src/lib/wish.ts:275-309 | the transition of LegacySpec.Post |
| LegacyClient.Wish.DoSignalingPatch | src/lib/wish.ts:311-327 | the transition of LegacySpec.Patch |
| LegacyClient.Wish.WithEndpoint | src/lib/wish.ts:329-341 | the transition of LegacySpec.WithEndpoint |
| LegacyClient.Wish.Disconnect | src/lib/wish.ts:343-356 | the transition of LegacySpec.Disconnect |
| LegacyClient.Wish.Play | src/lib/wish.ts:358-365 | the transition of LegacySpec.Play |
| LegacyClient.Wish.Publish | src/lib/wish.ts:367-373 | the transition of LegacySpec.Publish |
| LegacyProperties.PostFrame | src/lib/wish.ts:275-309 | a POST changes only the resource URL, and not when it fails; without an endpoint nothing is sent, otherwise exactly the offer is POSTed as application/sdp |
| LegacyProperties.PostStatus | src/lib/wish.ts:291-308 | any status but 201 fails with that status and body; on 201 the body is the answer, and the location is handled as in the current client |
| LegacyProperties.PostAgrees | src/lib/wish.ts:275-309 | with the same endpoint and resource URL, both clients send the same POST, end the same way and learn the same resource URL |
| LegacyProperties.PatchContract | src/lib/wish.ts:311-327 | a PATCH never changes the session; without a resource URL nothing is sent; otherwise the fragment is sent with no `if-match`, and only 204 succeeds |
| LegacyProperties.PatchAgrees | src/lib/wish.ts:311-327 | with no tag, both clients send the same candidate PATCH and end the same way |
| LegacyProperties.WithEndpointContract | src/lib/wish.ts:329-341 | nothing is sent; an empty or unparsable endpoint is refused with no change; a parsable one is stored and the resource URL cleared |
| LegacyProperties.KillConnectionOnlyCloses | src/lib/wish.ts:53-58 | the connection is closed if it exists, and no field changes |
| LegacyProperties.DisconnectKeepsSession | src/lib/wish.ts:343-356 | the session never changes; a DELETE goes out exactly when a resource URL is known, and success is exactly 200 |
| LegacyProperties.DisconnectDiffers | src/lib/wish.ts:343-356 | after a successful Disconnect the older client keeps endpoint and resource URL, and the current client forgets both |
| LegacyProperties.OnTrackContract | src/lib/wish.ts:207-218 | in any mode the track is appended; the arrival that makes two adds both tracks to a stream that exists |
| LegacyProperties.LateTracksIgnored | src/lib/wish.ts:207-218 | once two tracks have arrived, later ones are recorded and never reach the stream |
| LegacyProperties.NegotiationFrame | src/lib/wish.ts:229-247 | doSignaling changes only the gathering signal, which it resolves, and the resource URL |
| LegacyProperties.ReplayGetsNoTracks | src/lib/wish.ts:207-218 | after a Play on an object that already had two tracks, no arriving track reaches the new stream |
| LegacyProperties.GatherBeforePost | src/lib/wish.ts:229-247 | for any outcome, every request comes after the wait for gathering, and the answer is applied only after the POST |
| LegacyProperties.ResolverContract | src/lib/wish.ts:80-126 | a new connection has both signals pending; an event without a resolver changes nothing; the completing event resolves the signal |
| LegacyProperties.PlayKeeps | src/lib/wish.ts:358-365 | Play keeps the session well formed and the remote tracks only grow |
| LegacyProperties.PublishKeeps | src/lib/wish.ts:367-373 | Publish keeps the session well formed and the remote tracks only grow |
| LegacyProperties.ApplyKeeps | src/lib/wish.ts:112-373 | every call and event keeps the session well formed, and the remote tracks only grow |
| LegacyProperties.RunKeeps | src/lib/wish.ts:112-373 | the same over every run |
| LegacyProperties.AttachOncePerLifetime | src/lib/wish.ts:207-218 | once two tracks have arrived, no later arrival after any run reaches a player's stream |

## Left out

- The WebRTC engine is not modelled. Its answers are inputs: `createOffer`, `setLocalDescription`,
  `setRemoteDescription`, the local description after gathering, the senders and their
  transports. SDP text stays opaque; `SDPInfo.parse` is reduced to keeping the offer.
- `fetch` and the network are not modelled. A request is an entry in the trace; its answer is an
  input, with `None` for a rejected request.
- `new URL` is modelled only as far as scheme, host, path and the rest. Normalisation
  (case, default ports, percent-encoding, dot segments) is left out.
- Url.Valid only approximates where `new URL` succeeds. It demands "scheme://host" and checks
  no characters. So it refuses "mailto:a@b" and "http:/relay/whip", which `new URL` accepts,
  and it accepts "https://a b/whip", which `new URL` rejects.
- `JSON.parse` of the `etag` header and the `Link` parser are inputs, not definitions.
- Timers and promises are reduced to signals. The one-second gathering timer resolves the
  signal when it is awaited. `Play` and `Publish` end at the `await` of the connected promise.
  The interleaving of asynchronous handlers with a call in progress is not modelled: every
  call and event is one atomic step of a run.
- Logging is not modelled: `logMessage`, `SetLogListener`, the `transportHandler` that only logs
  the selected candidate pair, and the logging of `accept-post` and `accept-patch`.
- `onSignalingStateChange` is not modelled in either client, and neither is the older client's
  `onConnectionStateChange`; both only log.
- A run may deliver a track event when there is no connection, which the source cannot do:
  its track events come only from a live connection. So `WishRuns.PlayRestarts` and
  `WishRuns.PublishRestarts` promise no remote tracks only when a connection was active
  before, and `WishRuns.PlayThenTracks` asks for a connection or no recorded tracks.
- `addEventListeners` is not modelled. The model's events are the handlers it registers.
- `dispatchEvent` is an `Emit` entry in the trace; listeners are not modelled.
- The component files (`src/main.ts`, the router and the stores) are not part of this model.

## Findings

| source | as written | input that shows it | evidently intended | confidence | as-written member | corrected member |
|---|---|---|---|---|---|---|
| src/lib/wish/index.ts:224 | the mDNS filter tests whether the whole candidate line ends with ".local" | a host candidate "candidate:1 1 udp 2122260223 d3a1.local 54400 typ host", whose line ends with "typ host" and whose address ends with ".local", passes the filter and is PATCHed | candidates whose address is an mDNS name are not trickled | not executed | WishSpec.OnIceCandidate, WishProperties.MdnsCandidateSlipsThrough | WishSpec.OnIceCandidateIntended, WishProperties.NoMdnsAddressTrickled |
