// The wire messages and the pure decision rules of the watch-party session
// in js/content.js: debounce, reconnect backoff, deterministic peer ids,
// host fan-out, participant counts, how an inbound command drives the
// video, cross-site isolation and the room-URL rules. The class in
// session.dfy applies these rules to its fields.

module Protocol {
  import opened Common
  import opened Urls

  /** Identity of one transport connection object: two connections are the same exactly when their handles are. */
  type ConnId = nat

  datatype PlayState = Playing | Paused

  /** `eventType` of a video event; OtherEvent is any string the handlers do not know. */
  datatype EventType = Play | Pause | Seek | Sync | OtherEvent

  /** The `data` payload of a video event; absent fields are `undefined` in the source. */
  datatype EventData = EventData(currentTime: Option<real>, state: Option<PlayState>)

  /** The `event` object of a video event. */
  datatype VideoEventBody = VideoEventBody(eventType: EventType, data: EventData, timestamp: Option<nat>)

  /**
   * Messages exchanged over a peer connection, by their `type` field.
   * userId and site are "" when the sender left them out (they are null or
   * undefined in the source, which has the same truthiness).
   */
  datatype Message =
    | SyncRequest
    | SyncResponse(currentTime: real, state: PlayState)
    | RoomUrlRequest
    | RoomUrl(url: Option<string>, forceRedirect: bool)
    | VideoEvent(userId: string, site: string, event: VideoEventBody)
    | VideoEventResponse
    | Ping(timestamp: nat)
    | Pong(timestamp: nat)
    | Leave
    | AdminKick
    | Unrecognized

  /** A connection: its identity and the remote peer id (`conn.peer`). */
  datatype Conn = Conn(handle: ConnId, peer: string)

  /** What the session asks of the transport: a send on a connection, or closing it. */
  datatype Transmission = Send(to: ConnId, msg: Message) | Close(conn: ConnId)

  /** The video element, reduced to what the session reads and writes. */
  datatype Video = Video(currentTime: real, paused: bool)

  function StateOf(v: Video): PlayState
  {
    if v.paused then Paused else Playing
  }

  /** The one-shot echo-suppression flags remotePlay, remotePause, remoteSeek. */
  datatype Flags = Flags(play: bool, pause: bool, seek: bool)

  /** Control messages posted to the Netflix page bridge (`NETFLIX_CONTROL`). */
  datatype NetflixControl = NetflixPlay | NetflixPause | NetflixSeek(ms: real)

  /** A peer registry entry. */
  datatype PeerEntry = PeerEntry(id: string, active: bool, lastSeen: nat)

  /** Requests the content script sends to the background script. */
  datatype RuntimeRequest = SetRoomUrlRequest(url: string) | UpdateParticipantCountRequest(count: int)

  /** The navigation the session has put in front of the user. */
  datatype Navigation = NoNavigation | OfferedReturn(target: Option<string>) | AutoRedirect(target: Option<string>)

  /**
   * The text of the status line: RoomStatus is the text derived from the
   * room id, the participant count and the URL match; the others are the
   * fixed messages the connection code writes.
   */
  datatype Status = RoomStatus | ConnectedHost | ConnectedClient | TooManyAttempts | ConnectionLost | Reconnecting(attempt: nat)

  const NetflixSite := "netflix"

  // ---------------------------------------------------------------
  // Outbound debounce (js/content.js:505-513)
  // ---------------------------------------------------------------

  const DebounceMs: nat := 700

  /** The event repeats the last accepted type within the debounce window. */
  function IsDuplicate(lastType: Option<EventType>, lastAt: int, e: EventType, now: int): (r: bool)
    ensures r ==> lastType.Some? && lastType.value == e
    ensures lastType == Some(e) ==> (r <==> now < lastAt + 700)
  {
    lastType == Some(e) && now - lastAt < DebounceMs
  }

  // ---------------------------------------------------------------
  // Reconnect backoff (js/content.js:1024-1043) and the init cap (627-631)
  // ---------------------------------------------------------------

  const MaxReconnectAttempts: nat := 10
  const MaxPeerInitAttempts: nat := 5
  const BaseDelayMs: nat := 1000
  const MaxDelayMs: nat := 30000

  function Pow2(n: nat): (r: nat)
    ensures r >= 1
  {
    if n == 0 then 1 else 2 * Pow2(n - 1)
  }

  lemma {:induction false} Pow2Monotone(a: nat, b: nat)
    requires a <= b
    ensures Pow2(a) <= Pow2(b)
  {
    if a < b {
      Pow2Monotone(a, b - 1);
    }
  }

  /** The wait before reconnect attempt n: one second doubled n - 1 times, capped at thirty seconds. */
  function BackoffDelay(attempt: nat): (d: nat)
    requires attempt >= 1
    ensures BaseDelayMs <= d <= MaxDelayMs
  {
    Min(Pow2(attempt - 1) * BaseDelayMs, MaxDelayMs)
  }

  /** The first five delays double from one second; from the sixth on the cap holds. */
  lemma BackoffSchedule()
    ensures BackoffDelay(1) == 1000 && BackoffDelay(2) == 2000 && BackoffDelay(3) == 4000
    ensures BackoffDelay(4) == 8000 && BackoffDelay(5) == 16000
    ensures forall n :: n >= 6 ==> BackoffDelay(n) == MaxDelayMs
  {
    forall n | n >= 6
      ensures BackoffDelay(n) == MaxDelayMs
    {
      Pow2Monotone(5, n - 1);
    }
  }

  /** The delay never shrinks from one attempt to the next. */
  lemma BackoffMonotone(n: nat)
    requires n >= 1
    ensures BackoffDelay(n) <= BackoffDelay(n + 1)
  {
    assert Pow2(n) == 2 * Pow2(n - 1);
  }

  // ---------------------------------------------------------------
  // Deterministic host id and random client id (js/content.js:635, 644, 679)
  // ---------------------------------------------------------------

  const HostIdPrefix := "curryparty-host-"
  const ClientIdPrefix := "curryparty-peer-r"

  function HostId(roomId: string): (id: string)
    ensures |id| == |HostIdPrefix| + |roomId|
    ensures id[..|HostIdPrefix|] == HostIdPrefix && id[|HostIdPrefix|..] == roomId
  {
    HostIdPrefix + roomId
  }

  /** Client ids carry a random suffix, which the model takes as a parameter. */
  function ClientId(randomSuffix: string): (id: string)
    ensures |id| == |ClientIdPrefix| + |randomSuffix|
    ensures id[..|ClientIdPrefix|] == ClientIdPrefix
  {
    ClientIdPrefix + randomSuffix
  }

  /** Two rooms never share a host id. */
  lemma HostIdInjective(a: string, b: string)
    ensures HostId(a) == HostId(b) ==> a == b
  {
    if HostId(a) == HostId(b) {
      assert a == HostId(a)[|HostIdPrefix|..];
    }
  }

  /** A client id can never take the id a host listens on. */
  lemma ClientIdIsNeverHostId(randomSuffix: string, roomId: string)
    ensures ClientId(randomSuffix) != HostId(roomId)
  {
    assert ClientId(randomSuffix)[11] == 'p';
    assert HostId(roomId)[11] == 'h';
  }

  // ---------------------------------------------------------------
  // Sending one message on every open connection, in list order
  // ---------------------------------------------------------------

  /** The connections that receive a fan-out of m: open and not the excluded one. */
  predicate Receives(c: Conn, open: set<ConnId>, except: Option<ConnId>)
  {
    c.handle in open && Some(c.handle) != except
  }

  /** The sends of m, in connection order, to every receiving connection. */
  function FanOut(conns: seq<Conn>, open: set<ConnId>, except: Option<ConnId>, m: Message): (r: seq<Transmission>)
    ensures |r| <= |conns|
  {
    if conns == [] then []
    else
      var last := conns[|conns| - 1];
      var front := FanOut(conns[..|conns| - 1], open, except, m);
      if Receives(last, open, except) then front + [Send(last.handle, m)] else front
  }

  /** A fan-out sends only m, only to open, non-excluded connections of the list. */
  lemma {:induction false} FanOutSound(conns: seq<Conn>, open: set<ConnId>, except: Option<ConnId>, m: Message)
    ensures forall t :: t in FanOut(conns, open, except, m) ==>
              t.Send? && t.msg == m && t.to in open && Some(t.to) != except &&
              exists i :: 0 <= i < |conns| && conns[i].handle == t.to
  {
    if conns != [] {
      var front := conns[..|conns| - 1];
      FanOutSound(front, open, except, m);
      assert forall i :: 0 <= i < |front| ==> front[i] == conns[i];
    }
  }

  /** A fan-out reaches every open, non-excluded connection of the list. */
  lemma {:induction false} FanOutComplete(conns: seq<Conn>, open: set<ConnId>, except: Option<ConnId>, m: Message)
    ensures forall i :: 0 <= i < |conns| && Receives(conns[i], open, except) ==>
              Send(conns[i].handle, m) in FanOut(conns, open, except, m)
  {
    if conns != [] {
      var front := conns[..|conns| - 1];
      FanOutComplete(front, open, except, m);
      assert forall i :: 0 <= i < |front| ==> front[i] == conns[i];
    }
  }

  /** The sender never receives its own relayed message back. */
  lemma FanOutSkipsSender(conns: seq<Conn>, open: set<ConnId>, sender: ConnId, m: Message)
    ensures Send(sender, m) !in FanOut(conns, open, Some(sender), m)
    ensures forall t :: t in FanOut(conns, open, Some(sender), m) ==> t.Send? && t.msg == m && t.to != sender
  {
    FanOutSound(conns, open, Some(sender), m);
  }

  /** How many connections of the list have the given handle. */
  function HandleCount(conns: seq<Conn>, h: ConnId): nat
  {
    if conns == [] then 0
    else HandleCount(conns[..|conns| - 1], h) + (if conns[|conns| - 1].handle == h then 1 else 0)
  }

  /** No two connections of the list share a handle. */
  predicate DistinctHandles(conns: seq<Conn>)
  {
    forall i, j :: 0 <= i < j < |conns| ==> conns[i].handle != conns[j].handle
  }

  /** Without repeated handles, a handle occurs once when it occurs at all. */
  lemma {:induction false} DistinctHandlesCountOnce(conns: seq<Conn>, h: ConnId)
    requires DistinctHandles(conns)
    ensures HandleCount(conns, h) <= 1
    ensures HandleCount(conns, h) == 1 <==> exists i :: 0 <= i < |conns| && conns[i].handle == h
  {
    if conns != [] {
      var front := conns[..|conns| - 1];
      assert forall i :: 0 <= i < |front| ==> front[i] == conns[i];
      DistinctHandlesCountOnce(front, h);
      if exists i :: 0 <= i < |conns| && conns[i].handle == h {
        var i :| 0 <= i < |conns| && conns[i].handle == h;
        if i < |front| {
          assert front[i].handle == h;
        }
      }
    }
  }

  /** A fan-out sends m once per receiving connection: a handle gets as many copies as it has connections. */
  lemma {:induction false} FanOutOncePerConnection(conns: seq<Conn>, open: set<ConnId>, except: Option<ConnId>,
                                                   m: Message, h: ConnId)
    ensures multiset(FanOut(conns, open, except, m))[Send(h, m)] ==
              (if h in open && Some(h) != except then HandleCount(conns, h) else 0)
  {
    if conns != [] {
      FanOutOncePerConnection(conns[..|conns| - 1], open, except, m, h);
    }
  }

  /** With distinct handles, each receiving connection gets exactly one copy of m and no other handle gets one. */
  lemma FanOutExactlyOnce(conns: seq<Conn>, open: set<ConnId>, except: Option<ConnId>, m: Message, h: ConnId)
    requires DistinctHandles(conns)
    ensures multiset(FanOut(conns, open, except, m))[Send(h, m)] ==
              if exists i :: 0 <= i < |conns| && conns[i].handle == h && Receives(conns[i], open, except) then 1 else 0
  {
    FanOutOncePerConnection(conns, open, except, m, h);
    DistinctHandlesCountOnce(conns, h);
  }

  /** On cleanup every open connection is told `leave` and then closed. */
  function Farewells(conns: seq<Conn>, open: set<ConnId>): (r: seq<Transmission>)
    ensures |r| <= 2 * |conns|
  {
    if conns == [] then []
    else
      var last := conns[|conns| - 1];
      var front := Farewells(conns[..|conns| - 1], open);
      if last.handle in open then front + [Send(last.handle, Leave), Close(last.handle)] else front
  }

  /** Every open connection is told `leave` and closed. */
  lemma {:induction false} FarewellsComplete(conns: seq<Conn>, open: set<ConnId>)
    ensures forall i :: 0 <= i < |conns| && conns[i].handle in open ==>
              Send(conns[i].handle, Leave) in Farewells(conns, open) && Close(conns[i].handle) in Farewells(conns, open)
  {
    if conns != [] {
      var front := conns[..|conns| - 1];
      FarewellsComplete(front, open);
      assert forall i :: 0 <= i < |front| ==> front[i] == conns[i];
    }
  }

  /** Each open connection is told `leave` once and closed once; a closed one gets neither. */
  lemma {:induction false} FarewellsOncePerConnection(conns: seq<Conn>, open: set<ConnId>, h: ConnId)
    ensures multiset(Farewells(conns, open))[Send(h, Leave)] == (if h in open then HandleCount(conns, h) else 0)
    ensures multiset(Farewells(conns, open))[Close(h)] == (if h in open then HandleCount(conns, h) else 0)
  {
    if conns != [] {
      FarewellsOncePerConnection(conns[..|conns| - 1], open, h);
    }
  }

  /** Nothing but `leave` is sent, and only open connections of the list are closed. */
  lemma {:induction false} FarewellsSound(conns: seq<Conn>, open: set<ConnId>)
    ensures forall t :: t in Farewells(conns, open) ==>
              ((t.Send? && t.msg == Leave) || t.Close?) &&
              (t.Close? ==> t.conn in open && exists i :: 0 <= i < |conns| && conns[i].handle == t.conn)
  {
    if conns != [] {
      var front := conns[..|conns| - 1];
      FarewellsSound(front, open);
      assert forall i :: 0 <= i < |front| ==> front[i] == conns[i];
    }
  }

  /** Each `leave` on a connection immediately precedes its close. */
  lemma {:induction false} FarewellsPairLeaveWithClose(conns: seq<Conn>, open: set<ConnId>)
    ensures forall k :: 0 <= k < |Farewells(conns, open)| && Farewells(conns, open)[k].Close? ==>
              k > 0 && Farewells(conns, open)[k - 1] == Send(Farewells(conns, open)[k].conn, Leave)
  {
    if conns != [] {
      FarewellsPairLeaveWithClose(conns[..|conns| - 1], open);
    }
  }

  // ---------------------------------------------------------------
  // Participant count (js/content.js:1117-1124)
  // ---------------------------------------------------------------

  /** Number of registry entries flagged active. */
  function ActiveCount(registry: map<string, PeerEntry>): (n: nat)
    ensures n <= |registry|
  {
    var active := set k | k in registry && registry[k].active;
    assert active <= registry.Keys;
    SubsetSize(active, registry.Keys);
    |active|
  }

  lemma SubsetSize<T>(a: set<T>, b: set<T>)
    requires a <= b
    ensures |a| <= |b|
  {
    assert b == a + (b - a);
  }

  /** Number of connections (with repetition, as Array.filter counts) that are open. */
  function OpenCount(conns: seq<Conn>, open: set<ConnId>): (n: nat)
    ensures n <= |conns|
    ensures n == 0 <==> forall i :: 0 <= i < |conns| ==> conns[i].handle !in open
  {
    if conns == [] then 0
    else
      var rest := OpenCount(conns[..|conns| - 1], open);
      assert forall i :: 0 <= i < |conns| - 1 ==> conns[..|conns| - 1][i] == conns[i];
      rest + (if conns[|conns| - 1].handle in open then 1 else 0)
  }

  /** The count a participant shows: itself plus active peers (host) or open links (client). */
  function ParticipantCount(isHost: bool, registry: map<string, PeerEntry>, conns: seq<Conn>, open: set<ConnId>): (n: int)
    ensures n >= 1
    ensures isHost ==> n == 1 + ActiveCount(registry)
    ensures !isHost ==> n == 1 + OpenCount(conns, open)
  {
    1 + (if isHost then ActiveCount(registry) else OpenCount(conns, open))
  }

  /** Flagging an active entry inactive lowers the active count by exactly one. */
  lemma {:induction false} DeactivateLowersCount(registry: map<string, PeerEntry>, p: string)
    requires p in registry && registry[p].active
    ensures ActiveCount(registry[p := registry[p].(active := false)]) == ActiveCount(registry) - 1
  {
    var after := registry[p := registry[p].(active := false)];
    var before := set k | k in registry && registry[k].active;
    assert (set k | k in after && after[k].active) == before - {p};
  }

  /** Recording p as active adds one to the count unless p was active already. */
  lemma {:induction false} ActivateRaisesCount(registry: map<string, PeerEntry>, p: string, e: PeerEntry)
    requires e.active
    ensures ActiveCount(registry[p := e]) ==
              ActiveCount(registry) + (if p in registry && registry[p].active then 0 else 1)
  {
    var after := registry[p := e];
    var before := set k | k in registry && registry[k].active;
    assert (set k | k in after && after[k].active) == before + {p};
  }

  /** The registry after peer p is flagged inactive; its entry, like every other, is kept. */
  function Deactivated(registry: map<string, PeerEntry>, p: string): (r: map<string, PeerEntry>)
    ensures r.Keys == registry.Keys
    ensures p in registry ==> r[p] == registry[p].(active := false)
    ensures forall q :: q in registry && q != p ==> r[q] == registry[q]
  {
    if p in registry then registry[p := registry[p].(active := false)] else registry
  }

  /** A host with entries {A: active, B: inactive, C: active} counts three participants. */
  lemma RegistryCountExample(registry: map<string, PeerEntry>)
    requires registry == map["A" := PeerEntry("A", true, 0), "B" := PeerEntry("B", false, 0),
                             "C" := PeerEntry("C", true, 0)]
    ensures ParticipantCount(true, registry, [], {}) == 3
  {
    assert (set k | k in registry && registry[k].active) == {"A", "C"};
  }

  // ---------------------------------------------------------------
  // Selecting connections by their remote peer id
  // ---------------------------------------------------------------

  /** The connections to every peer but the given one, in their original order. */
  function WithoutPeer(conns: seq<Conn>, peer: string): (r: seq<Conn>)
    ensures |r| <= |conns|
    ensures forall c :: c in r <==> c in conns && c.peer != peer
  {
    if conns == [] then []
    else if conns[0].peer == peer then WithoutPeer(conns[1..], peer)
    else [conns[0]] + WithoutPeer(conns[1..], peer)
  }

  /** Filtering keeps the relative order: it distributes over concatenation. */
  lemma {:induction false} WithoutPeerDistributes(a: seq<Conn>, b: seq<Conn>, peer: string)
    ensures WithoutPeer(a + b, peer) == WithoutPeer(a, peer) + WithoutPeer(b, peer)
  {
    if a == [] {
      assert a + b == b;
    } else {
      assert (a + b)[0] == a[0];
      assert (a + b)[1..] == a[1..] + b;
      WithoutPeerDistributes(a[1..], b, peer);
    }
  }

  /** Connections to other peers are left exactly as they were. */
  lemma {:induction false} WithoutAbsentPeerIsIdentity(conns: seq<Conn>, peer: string)
    requires forall i :: 0 <= i < |conns| ==> conns[i].peer != peer
    ensures WithoutPeer(conns, peer) == conns
  {
    if conns != [] {
      WithoutAbsentPeerIsIdentity(conns[1..], peer);
    }
  }

  /** The first connection to the given peer, if there is one. */
  function FindByPeer(conns: seq<Conn>, peer: string): (r: Option<Conn>)
    ensures r.Some? ==> r.value.peer == peer
  {
    if conns == [] then None
    else if conns[0].peer == peer then Some(conns[0])
    else FindByPeer(conns[1..], peer)
  }

  /** find yields nothing exactly when no connection matches, and otherwise the first match. */
  lemma {:induction false} FindByPeerFirstMatch(conns: seq<Conn>, peer: string)
    ensures FindByPeer(conns, peer).None? <==> forall i :: 0 <= i < |conns| ==> conns[i].peer != peer
    ensures FindByPeer(conns, peer).Some? ==>
              exists i :: 0 <= i < |conns| && conns[i] == FindByPeer(conns, peer).value &&
                          forall j :: 0 <= j < i ==> conns[j].peer != peer
  {
    if conns != [] && conns[0].peer != peer {
      FindByPeerFirstMatch(conns[1..], peer);
      if FindByPeer(conns, peer).Some? {
        var i :| 0 <= i < |conns| - 1 && conns[1..][i] == FindByPeer(conns, peer).value &&
                 (forall j :: 0 <= j < i ==> conns[1..][j].peer != peer);
        assert conns[i + 1] == FindByPeer(conns, peer).value;
        assert forall j :: 0 <= j < i + 1 ==> conns[j].peer != peer;
      } else {
        assert forall i :: 1 <= i < |conns| ==> conns[i] == conns[1..][i - 1];
      }
    }
  }

  /**
   * What removePeer sends on an open connection before closing it: a
   * pause at the local position (when a video is known, and without a
   * user id or site), the kick, and `leave`.
   */
  function KickMessages(h: ConnId, video: Option<Video>): (r: seq<Transmission>)
    ensures |r| == (if video.Some? then 4 else 3)
    ensures forall t :: t in r ==> (t.Send? && t.to == h) || t == Close(h)
    ensures r[|r| - 3] == Send(h, AdminKick) && r[|r| - 2] == Send(h, Leave) && r[|r| - 1] == Close(h)
    ensures video.Some? ==> r[0] == Send(h, VideoEvent("", "", VideoEventBody(Pause,
              EventData(Some(video.value.currentTime), None), None)))
  {
    (if video.Some? then
       [Send(h, VideoEvent("", "", VideoEventBody(Pause, EventData(Some(video.value.currentTime), None), None)))]
     else []) +
    [Send(h, AdminKick), Send(h, Leave), Close(h)]
  }

  // ---------------------------------------------------------------
  // Inbound application of a video command (js/content.js:870-1022)
  // ---------------------------------------------------------------

  const SeekToleranceSec: real := 0.5
  const SyncToleranceSec: real := 2.0
  /** The Netflix branch compares a difference in milliseconds against this constant. */
  const NetflixSyncToleranceMs: real := 2.0

  /** The video and flags after the generic branch has applied a command. */
  datatype Applied = Applied(video: Video, flags: Flags)

  /**
   * The generic (non-Netflix) branch: the video is driven directly, and
   * every programmatic change is preceded by raising its one-shot flag.
   */
  function ApplyGeneric(v: Video, f: Flags, e: EventType, d: EventData): (r: Applied)
    // flags are only ever raised here, never cleared
    ensures (f.play ==> r.flags.play) && (f.pause ==> r.flags.pause) && (f.seek ==> r.flags.seek)
    // every programmatic change raises its matching flag
    ensures r.video.currentTime != v.currentTime ==> r.flags.seek
    ensures v.paused && !r.video.paused ==> r.flags.play
    ensures !v.paused && r.video.paused ==> r.flags.pause
    // play acts only when paused, pause only when playing
    ensures e == Play ==> (r == Applied(v, f) <==> !v.paused) && !r.video.paused
    ensures e == Pause ==> (r == Applied(v, f) <==> v.paused) && r.video.paused
    ensures (e == Play || e == Pause) && r != Applied(v, f) && d.currentTime.Some? ==>
              r.video.currentTime == d.currentTime.value
    // seek moves only beyond half a second, sync only beyond two seconds
    ensures e == Seek ==> r.video.paused == v.paused
    ensures e == Seek ==> (r.video.currentTime != v.currentTime ==> d.currentTime.Some?)
    ensures e == Seek && d.currentTime.Some? ==>
              r.video.currentTime == (if Abs(v.currentTime - d.currentTime.value) > SeekToleranceSec
                                      then d.currentTime.value else v.currentTime)
    ensures e == Sync ==>
              r.video.currentTime ==
                (if d.currentTime.Some? && Abs(v.currentTime - d.currentTime.value) > SyncToleranceSec
                 then d.currentTime.value else v.currentTime)
    ensures e == Sync && d.state.Some? ==> StateOf(r.video) == d.state.value
    ensures e == Sync && d.state.None? ==> r.video.paused == v.paused
    // unknown commands change nothing
    ensures e == OtherEvent ==> r == Applied(v, f)
  {
    match e
    case Play =>
      if !v.paused then Applied(v, f)
      else if d.currentTime.Some? then Applied(Video(d.currentTime.value, false), f.(play := true, seek := true))
      else Applied(v.(paused := false), f.(play := true))
    case Pause =>
      if v.paused then Applied(v, f)
      else if d.currentTime.Some? then Applied(Video(d.currentTime.value, true), f.(pause := true, seek := true))
      else Applied(v.(paused := true), f.(pause := true))
    case Seek =>
      if d.currentTime.Some? && Abs(v.currentTime - d.currentTime.value) > SeekToleranceSec
      then Applied(v.(currentTime := d.currentTime.value), f.(seek := true))
      else Applied(v, f)
    case Sync =>
      var seeked :=
        if d.currentTime.Some? && Abs(v.currentTime - d.currentTime.value) > SyncToleranceSec
        then Applied(v.(currentTime := d.currentTime.value), f.(seek := true))
        else Applied(v, f);
      assert seeked.video.paused == v.paused;
      if d.state == Some(Playing) && seeked.video.paused then
        Applied(seeked.video.(paused := false), seeked.flags.(play := true))
      else if d.state == Some(Paused) && !seeked.video.paused then
        Applied(seeked.video.(paused := true), seeked.flags.(pause := true))
      else
        assert d.state.Some? ==> d.state.value.Playing? || d.state.value.Paused?;
        assert d.state == Some(Playing) ==> StateOf(seeked.video) == Playing;
        assert d.state == Some(Paused) ==> StateOf(seeked.video) == Paused;
        seeked
    case OtherEvent => Applied(v, f)
  }

  /** The video and the bridge messages after the Netflix branch has applied a command. */
  datatype NetflixApplied = NetflixApplied(video: Video, controls: seq<NetflixControl>)

  /**
   * The Netflix branch: commands are posted to the page bridge and no
   * echo-suppression flag is raised; only a sync to "paused" also pauses
   * the element itself.
   */
  function ApplyNetflix(v: Video, e: EventType, d: EventData): (r: NetflixApplied)
    ensures e != Sync ==> r.video == v
    ensures e == Sync ==>
              r.video.currentTime == v.currentTime && (r.video.paused <==> v.paused || d.state == Some(Paused))
    ensures NetflixPlay in r.controls ==> v.paused
    ensures NetflixPause in r.controls ==> !v.paused
    ensures e == Play ==> r.controls == (if v.paused then [NetflixPlay] else [])
    ensures e == Pause ==> r.controls == (if v.paused then [] else [NetflixPause])
    ensures e == Seek ==> r.controls == (if d.currentTime.Some? then [NetflixSeek(d.currentTime.value * 1000.0)] else [])
    ensures e == Sync ==>
              ((exists ms :: NetflixSeek(ms) in r.controls) <==>
                 d.currentTime.Some? &&
                 Abs(v.currentTime * 1000.0 - d.currentTime.value * 1000.0) > NetflixSyncToleranceMs)
    ensures e == Sync ==>
              (NetflixPlay in r.controls <==> d.state == Some(Playing) && v.paused) &&
              (NetflixPause in r.controls <==> d.state == Some(Paused) && !v.paused)
    ensures e == OtherEvent ==> r == NetflixApplied(v, [])
  {
    match e
    case Play => NetflixApplied(v, if v.paused then [NetflixPlay] else [])
    case Pause => NetflixApplied(v, if !v.paused then [NetflixPause] else [])
    case Seek =>
      NetflixApplied(v, if d.currentTime.Some? then [NetflixSeek(d.currentTime.value * 1000.0)] else [])
    case Sync =>
      var seek :=
        if d.currentTime.Some? &&
           Abs(v.currentTime * 1000.0 - d.currentTime.value * 1000.0) > NetflixSyncToleranceMs
        then [NetflixSeek(d.currentTime.value * 1000.0)] else [];
      if d.state == Some(Playing) && v.paused then NetflixApplied(v, seek + [NetflixPlay])
      else if d.state == Some(Paused) && !v.paused then NetflixApplied(v.(paused := true), seek + [NetflixPause])
      else NetflixApplied(v, seek)
    case OtherEvent => NetflixApplied(v, [])
  }

  /** Everything handleVideoCommand reads and writes besides the site. */
  datatype PlayerState = PlayerState(video: Option<Video>, flags: Flags, netflix: seq<NetflixControl>)

  /** handleVideoCommand: dispatch on syncEnabled, the site and the presence of a video. */
  function ApplyCommand(syncEnabled: bool, site: string, p: PlayerState, e: EventType, d: EventData): (r: PlayerState)
    ensures !syncEnabled || p.video.None? ==> r == p
    ensures r.video.None? <==> p.video.None?
    ensures site == NetflixSite ==> r.flags == p.flags && |p.netflix| <= |r.netflix| && r.netflix[..|p.netflix|] == p.netflix
    ensures site != NetflixSite ==> r.netflix == p.netflix
    ensures syncEnabled && p.video.Some? && site != NetflixSite ==>
              Applied(r.video.value, r.flags) == ApplyGeneric(p.video.value, p.flags, e, d)
    ensures syncEnabled && p.video.Some? && site == NetflixSite ==>
              var n := ApplyNetflix(p.video.value, e, d);
              r.video == Some(n.video) && r.netflix == p.netflix + n.controls
  {
    if !syncEnabled || p.video.None? then p
    else if site == NetflixSite then
      var n := ApplyNetflix(p.video.value, e, d);
      PlayerState(Some(n.video), p.flags, p.netflix + n.controls)
    else
      var g := ApplyGeneric(p.video.value, p.flags, e, d);
      PlayerState(Some(g.video), g.flags, p.netflix)
  }

  /**
   * The two branches disagree on what counts as drift: a 10 ms gap makes
   * the Netflix branch seek but not the generic one, whose threshold is
   * two seconds.
   */
  lemma NetflixSyncThresholdIsMilliseconds()
    ensures var d := EventData(Some(10.01), None);
            (exists ms :: NetflixSeek(ms) in ApplyNetflix(Video(10.0, false), Sync, d).controls) &&
            ApplyGeneric(Video(10.0, false), Flags(false, false, false), Sync, d).video.currentTime == 10.0
  {
    var d := EventData(Some(10.01), None);
    assert NetflixSeek(10010.0) in ApplyNetflix(Video(10.0, false), Sync, d).controls;
  }

  // ---------------------------------------------------------------
  // Cross-site isolation (js/content.js:826-836)
  // ---------------------------------------------------------------

  /** The same user (non-empty id) sends from a different, named site. */
  function CrossSiteEcho(localUser: string, localSite: string, senderUser: string, senderSite: string): (r: bool)
    ensures r ==>
              localUser != "" && senderUser == localUser && senderSite != localSite
    ensures senderUser == "" || senderSite == "" || senderSite == localSite || senderUser != localUser ==>
              !r
  {
    senderUser != "" && senderUser == localUser && senderSite != "" && senderSite != localSite
  }

  // ---------------------------------------------------------------
  // Room-URL rules (js/content.js:143-198, 789-818) and drift (490-503)
  // ---------------------------------------------------------------

  /** What checkUrlCompatibility does after a navigation. */
  datatype UrlAction = NoUrlAction | Republish(url: string) | OfferReturn(roomUrl: string)

  function CompatibilityAction(parse: UrlParser, inRoom: bool, isHost: bool, roomUrl: Option<string>,
                               currentUrl: string): (a: UrlAction)
    ensures !inRoom || !Truthy(roomUrl) || GetBaseUrl(parse, currentUrl) == roomUrl.value ==> a == NoUrlAction
    ensures a.Republish? ==>
              isHost && a.url == currentUrl && Truthy(roomUrl) && GetBaseUrl(parse, currentUrl) != roomUrl.value &&
              IsSameDomain(parse, roomUrl, Some(GetBaseUrl(parse, currentUrl)))
    ensures a.OfferReturn? ==> !isHost && Truthy(roomUrl) && a.roomUrl == roomUrl.value
    ensures inRoom && Truthy(roomUrl) && GetBaseUrl(parse, currentUrl) != roomUrl.value ==>
              (isHost ==> (a.Republish? <==> IsSameDomain(parse, roomUrl, Some(GetBaseUrl(parse, currentUrl))))) &&
              (!isHost ==> a.OfferReturn?)
  {
    if !inRoom || !Truthy(roomUrl) then NoUrlAction
    else
      var currentBaseUrl := GetBaseUrl(parse, currentUrl);
      if currentBaseUrl == roomUrl.value then NoUrlAction
      else if isHost then
        if IsSameDomain(parse, roomUrl, Some(currentBaseUrl)) then Republish(currentUrl) else NoUrlAction
      else OfferReturn(roomUrl.value)
  }

  /** What a participant does on receiving a `roomUrl` message. */
  function RoomUrlReceipt(parse: UrlParser, currentUrl: string, url: Option<string>, forceRedirect: bool): (n: Navigation)
    ensures Some(GetBaseUrl(parse, currentUrl)) == url ==> n == NoNavigation
    ensures n.AutoRedirect? ==> forceRedirect && IsSameDomain(parse, Some(currentUrl), url) && n.target == url
    ensures Some(GetBaseUrl(parse, currentUrl)) != url ==>
              (n.AutoRedirect? <==> forceRedirect && IsSameDomain(parse, Some(currentUrl), url)) &&
              (n.OfferedReturn? <==> !(forceRedirect && IsSameDomain(parse, Some(currentUrl), url)))
    ensures n.OfferedReturn? ==> n.target == url
  {
    if Some(GetBaseUrl(parse, currentUrl)) == url then NoNavigation
    else if IsSameDomain(parse, Some(currentUrl), url) && forceRedirect then AutoRedirect(url)
    else OfferedReturn(url)
  }

  /**
   * A host moving to another page of the same site republishes; moving
   * elsewhere does not. A named corollary of CompatibilityAction's
   * contract, stated for the host alone.
   */
  lemma HostRepublishesOnlyWithinDomain(parse: UrlParser, roomUrl: string, currentUrl: string)
    requires roomUrl != "" && GetBaseUrl(parse, currentUrl) != roomUrl
    ensures CompatibilityAction(parse, true, true, Some(roomUrl), currentUrl) ==
              (if IsSameDomain(parse, Some(roomUrl), Some(GetBaseUrl(parse, currentUrl)))
               then Republish(currentUrl) else NoUrlAction)
  {
  }

  /**
   * A client is never redirected automatically to another domain. A named
   * corollary of RoomUrlReceipt's contract.
   */
  lemma NoAutoRedirectAcrossDomains(parse: UrlParser, currentUrl: string, url: Option<string>, force: bool)
    requires !IsSameDomain(parse, Some(currentUrl), url)
    ensures !RoomUrlReceipt(parse, currentUrl, url, force).AutoRedirect?
  {
  }

  const DriftToleranceSec: real := 3.0

  /** startPeriodicSync: resend when the position moved over 3 s or the play state changed. */
  function NeedsResync(t: real, s: PlayState, lastTime: real, lastState: Option<PlayState>): (r: bool)
    ensures Some(s) != lastState ==> r
    ensures Some(s) == lastState ==>
              (r <==> t > lastTime + 3.0 || t < lastTime - 3.0)
  {
    Abs(t - lastTime) > DriftToleranceSec || Some(s) != lastState
  }

  // ---------------------------------------------------------------
  // Liveness (js/content.js:612-615)
  // ---------------------------------------------------------------

  const LivenessWindowMs: nat := 4000

  /** A pong was seen once, and longer than four seconds ago. */
  function LivenessLapsed(lastPong: nat, now: nat): (r: bool)
    ensures lastPong == 0 ==> !r
    ensures lastPong != 0 ==> (r <==> now > lastPong + 4000)
  {
    lastPong != 0 && now - lastPong > LivenessWindowMs
  }
}
