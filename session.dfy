// The watch-party session object of js/content.js (CurryPartyManager):
// one object whose handlers update its fields. Transport events, timer
// callbacks and background replies are methods; whatever the handlers
// send leaves through three outboxes (peer connections, the Netflix page
// bridge, the background script). `conn.open` is the set `open`, the
// clock is `now`, the random part of a client id is `suffix`, and the
// presence of the PeerJS library is `peerLoaded`.

module Session {
  import opened Common
  import opened Urls
  import opened Protocol

  /** The fields a Peer (re)build touches, taken together. */
  datatype LinkState = LinkState(reconnectTimer: Option<nat>, healthCheckRunning: bool, syncIntervalRunning: bool,
                                 livenessRunning: bool, outbox: seq<Transmission>, connections: seq<Conn>,
                                 hasPeer: bool, peerInitAttempts: nat, status: Status, localPeerId: string)

  /** Registry entries are keyed by their id; every live connection belongs to an active entry. */
  predicate RegistryConsistent(registry: map<string, PeerEntry>, connections: seq<Conn>)
  {
    (forall p :: p in registry ==> registry[p].id == p) &&
    (forall c :: c in connections ==> c.peer in registry && registry[c.peer].active)
  }

  /** A pending reconnect timer carries the backoff delay of its attempt. */
  predicate TimerConsistent(timer: Option<nat>, attempts: nat)
  {
    timer.Some? ==> 1 <= attempts <= MaxReconnectAttempts && timer.value == BackoffDelay(attempts)
  }

  /** The fields sendVideoEvent may change, taken together. */
  datatype SendState = SendState(lastEventType: Option<EventType>, lastEventTimestamp: nat,
                                 outbox: seq<Transmission>, reconnectAttempts: nat,
                                 reconnectTimer: Option<nat>, status: Status)

  /** The fields sendVideoEvent reads and leaves alone. */
  datatype Origin = Origin(syncEnabled: bool, hasPeer: bool, isHost: bool, connections: seq<Conn>,
                           userId: string, site: string)

  /** scheduleReconnect on those fields: count the attempt, then arm the backoff timer or give up. */
  function Backoff(st: SendState): (r: SendState)
    ensures r.reconnectAttempts == st.reconnectAttempts + 1
    ensures r.lastEventType == st.lastEventType && r.lastEventTimestamp == st.lastEventTimestamp &&
            r.outbox == st.outbox
    ensures r.reconnectTimer.Some? <==> r.reconnectAttempts <= MaxReconnectAttempts
    ensures r.reconnectTimer.Some? ==>
              r.reconnectTimer.value == BackoffDelay(r.reconnectAttempts) &&
              BaseDelayMs <= r.reconnectTimer.value <= MaxDelayMs && r.status == st.status
    ensures r.reconnectTimer.None? ==> r.status == ConnectionLost
  {
    var n := st.reconnectAttempts + 1;
    if n > MaxReconnectAttempts then st.(reconnectAttempts := n, reconnectTimer := None, status := ConnectionLost)
    else st.(reconnectAttempts := n, reconnectTimer := Some(BackoffDelay(n)))
  }

  /**
   * The sending half of sendVideoEvent: without a Peer nothing is sent; a
   * host fans m out, a client sends it on its first connection when that
   * is open, and a client without one backs off.
   */
  function Deliver(st: SendState, o: Origin, open: set<ConnId>, m: Message): (r: SendState)
    ensures r.lastEventType == st.lastEventType && r.lastEventTimestamp == st.lastEventTimestamp
    ensures !o.hasPeer ==> r == st
    ensures |st.outbox| <= |r.outbox| <= |st.outbox| + |o.connections| && r.outbox[..|st.outbox|] == st.outbox
    ensures r.reconnectAttempts != st.reconnectAttempts ==> r == Backoff(st)
    ensures r.reconnectAttempts == st.reconnectAttempts ==>
              r.reconnectTimer == st.reconnectTimer && r.status == st.status
  {
    if !o.hasPeer then st
    else if o.isHost then st.(outbox := st.outbox + FanOut(o.connections, open, None, m))
    else if |o.connections| > 0 && o.connections[0].handle in open then
      st.(outbox := st.outbox + [Send(o.connections[0].handle, m)])
    else Backoff(st)
  }

  /**
   * The outcome of sendVideoEvent: with sync off or a repeat inside the
   * debounce window nothing changes; otherwise the event is recorded and
   * delivered.
   */
  function Announce(st: SendState, o: Origin, open: set<ConnId>, e: EventType, d: EventData, now: nat): (r: SendState)
    ensures !o.syncEnabled || IsDuplicate(st.lastEventType, st.lastEventTimestamp, e, now) ==> r == st
    ensures r != st ==> r.lastEventType == Some(e) && r.lastEventTimestamp == now
    ensures |st.outbox| <= |r.outbox| <= |st.outbox| + |o.connections| && r.outbox[..|st.outbox|] == st.outbox
  {
    if !o.syncEnabled || IsDuplicate(st.lastEventType, st.lastEventTimestamp, e, now) then st
    else
      Deliver(st.(lastEventType := Some(e), lastEventTimestamp := now), o, open,
              VideoEvent(o.userId, o.site, VideoEventBody(e, d, Some(now))))
  }

  /** An accepted event blocks a repeat of its type for the debounce window, and no other type. */
  lemma AnnounceDebounces(st: SendState, o: Origin, open: set<ConnId>, e: EventType, d: EventData, now: nat,
                          open': set<ConnId>, e': EventType, d': EventData, later: nat)
    requires o.syncEnabled && !IsDuplicate(st.lastEventType, st.lastEventTimestamp, e, now)
    requires now <= later
    ensures var r := Announce(st, o, open, e, d, now);
            r.lastEventType == Some(e) && r.lastEventTimestamp == now &&
            (e' == e && later < now + DebounceMs ==> Announce(r, o, open', e', d', later) == r) &&
            (e' != e || later >= now + DebounceMs ==> Announce(r, o, open', e', d', later).lastEventType == Some(e'))
  {
    var r := Announce(st, o, open, e, d, now);
    assert r.lastEventType == Some(e) && r.lastEventTimestamp == now;
  }

  /**
   * Only the local video event is sent, only on open connections, and only
   * once the event is accepted and a Peer exists; a host reaches every open
   * connection and a client only its first.
   */
  lemma AnnounceSends(st: SendState, o: Origin, open: set<ConnId>, e: EventType, d: EventData, now: nat)
    ensures var r := Announce(st, o, open, e, d, now);
            var m := VideoEvent(o.userId, o.site, VideoEventBody(e, d, Some(now)));
            st.outbox <= r.outbox &&
            (forall t :: t in r.outbox[|st.outbox|..] ==> t.Send? && t.to in open && t.msg == m) &&
            (r.outbox != st.outbox ==> o.hasPeer && r.lastEventType == Some(e) && r.lastEventTimestamp == now) &&
            (!o.isHost ==> |r.outbox| <= |st.outbox| + 1 &&
                           (r.outbox != st.outbox ==> r.outbox == st.outbox + [Send(o.connections[0].handle, m)])) &&
            (o.isHost && o.hasPeer && r.lastEventType == Some(e) && r.lastEventTimestamp == now &&
             o.syncEnabled && !IsDuplicate(st.lastEventType, st.lastEventTimestamp, e, now) ==>
               forall i :: 0 <= i < |o.connections| && o.connections[i].handle in open ==>
                 Send(o.connections[i].handle, m) in r.outbox)
  {
    var r := Announce(st, o, open, e, d, now);
    var m := VideoEvent(o.userId, o.site, VideoEventBody(e, d, Some(now)));
    FanOutSound(o.connections, open, None, m);
    FanOutComplete(o.connections, open, None, m);
    if r.outbox != st.outbox && o.isHost {
      assert r.outbox == st.outbox + FanOut(o.connections, open, None, m);
      assert r.outbox[|st.outbox|..] == FanOut(o.connections, open, None, m);
    }
  }

  /**
   * Only a client whose first connection is missing or closed backs off:
   * one more attempt, then the backoff timer, or past the tenth attempt no
   * timer and the connection-lost status. A pending timer keeps carrying
   * the delay of its attempt.
   */
  lemma AnnounceBacksOff(st: SendState, o: Origin, open: set<ConnId>, e: EventType, d: EventData, now: nat)
    ensures var r := Announce(st, o, open, e, d, now);
            (r.reconnectAttempts != st.reconnectAttempts <==>
               o.syncEnabled && !IsDuplicate(st.lastEventType, st.lastEventTimestamp, e, now) &&
               o.hasPeer && !o.isHost && !(|o.connections| > 0 && o.connections[0].handle in open)) &&
            (r.reconnectAttempts != st.reconnectAttempts ==>
               r.reconnectAttempts == st.reconnectAttempts + 1 && r.outbox == st.outbox &&
               (r.reconnectAttempts <= MaxReconnectAttempts ==>
                  r.reconnectTimer == Some(BackoffDelay(r.reconnectAttempts)) && r.status == st.status) &&
               (r.reconnectAttempts > MaxReconnectAttempts ==> r.reconnectTimer.None? && r.status == ConnectionLost)) &&
            (r.reconnectAttempts == st.reconnectAttempts ==>
               r.reconnectTimer == st.reconnectTimer && r.status == st.status) &&
            (TimerConsistent(st.reconnectTimer, st.reconnectAttempts) ==>
               TimerConsistent(r.reconnectTimer, r.reconnectAttempts))
  {
  }

  /** The fields handleIncomingData reads and writes, taken together. */
  datatype Inbound = Inbound(video: Option<Video>, flags: Flags, netflixOutbox: seq<NetflixControl>,
                             outbox: seq<Transmission>, roomUrl: Option<string>, navigation: Navigation,
                             lastPongTimestamp: nat, userId: string, isHost: bool, connections: seq<Conn>,
                             syncEnabled: bool, currentUrl: string)

  /** The player part of those fields. */
  function PlayerOf(i: Inbound): PlayerState
  {
    PlayerState(i.video, i.flags, i.netflixOutbox)
  }

  /**
   * What handleIncomingData does with message m from connection c, from
   * the fields before to the fields after: the reply each request gets,
   * the command a sync response or a peer's video event applies, the
   * acknowledgement and the host's relay, the cross-site isolation rule,
   * and the fields each case leaves alone.
   */
  function HandledIncoming(site: string, parse: UrlParser, before: Inbound, after: Inbound,
                           m: Message, c: Conn, now: nat, open: set<ConnId>): (r: bool)
    ensures r ==> |before.outbox| <= |after.outbox| <= |before.outbox| + 2 + |before.connections| &&
                  after.outbox[..|before.outbox|] == before.outbox
    ensures r && !m.VideoEvent? ==>
              forall i :: |before.outbox| <= i < |after.outbox| ==> after.outbox[i].Send? && after.outbox[i].to == c.handle
  {
    after.userId == before.userId && after.isHost == before.isHost && after.connections == before.connections &&
    after.syncEnabled == before.syncEnabled && after.currentUrl == before.currentUrl &&
    (!m.RoomUrl? ==> after.roomUrl == before.roomUrl && after.navigation == before.navigation) &&
    (!m.Pong? ==> after.lastPongTimestamp == before.lastPongTimestamp) &&
    (!(m.SyncResponse? || (m.VideoEvent? && !CrossSiteEcho(after.userId, site, m.userId, m.site))) ==>
       PlayerOf(after) == PlayerOf(before)) &&
    (m.SyncRequest? ==>
       after.outbox == before.outbox +
         (if after.isHost && after.video.Some? then
            [Send(c.handle, SyncResponse(after.video.value.currentTime, StateOf(after.video.value)))] +
            (if Truthy(after.roomUrl) then [Send(c.handle, RoomUrl(after.roomUrl, false))] else [])
          else [])) &&
    (m.RoomUrlRequest? ==>
       after.outbox == before.outbox +
         (if after.isHost && Truthy(after.roomUrl) then [Send(c.handle, RoomUrl(after.roomUrl, true))] else [])) &&
    (m.SyncResponse? ==>
       after.outbox == before.outbox &&
       PlayerOf(after) ==
         ApplyCommand(after.syncEnabled, site, PlayerOf(before), Sync, EventData(Some(m.currentTime), Some(m.state)))) &&
    (m.RoomUrl? ==>
       after.outbox == before.outbox && after.roomUrl == m.url &&
       var n := RoomUrlReceipt(parse, after.currentUrl, m.url, m.forceRedirect);
       after.navigation == (if n.NoNavigation? then before.navigation else n)) &&
    (m.VideoEvent? && CrossSiteEcho(after.userId, site, m.userId, m.site) ==> after.outbox == before.outbox) &&
    (m.VideoEvent? && !CrossSiteEcho(after.userId, site, m.userId, m.site) ==>
       PlayerOf(after) == ApplyCommand(after.syncEnabled, site, PlayerOf(before), m.event.eventType, m.event.data) &&
       after.outbox == before.outbox + [Send(c.handle, VideoEventResponse)] +
         (if after.isHost then FanOut(after.connections, open, Some(c.handle), m) else [])) &&
    (m.Ping? ==> after.outbox == before.outbox + [Send(c.handle, Pong(now))]) &&
    (m.Pong? ==> after.outbox == before.outbox && after.lastPongTimestamp == now) &&
    (m.VideoEventResponse? || m.Leave? || m.AdminKick? || m.Unrecognized? ==> after.outbox == before.outbox)
  }

  class PartyManager {
    const parse: UrlParser
    /** The site detected at start-up; "" when none was recognised. */
    const site: string

    var video: Option<Video>
    var syncEnabled: bool
    var currentRoomId: string
    var isHost: bool
    var participantCount: int
    var peerInitialized: bool
    var userId: string
    var roomUrl: Option<string>
    var currentUrl: string

    /** A Peer object exists, listening as localPeerId. */
    var hasPeer: bool
    var localPeerId: string
    var connections: seq<Conn>
    var peerRegistry: map<string, PeerEntry>
    /** The pending reconnect timer, by its delay in milliseconds. */
    var reconnectTimer: Option<nat>
    var healthCheckRunning: bool
    var livenessRunning: bool
    var syncIntervalRunning: bool
    var lastPongTimestamp: nat

    var remoteSeek: bool
    var remotePlay: bool
    var remotePause: bool
    var lastSentTime: real
    var lastSentState: Option<PlayState>
    var lastEventTimestamp: nat
    var lastEventType: Option<EventType>

    /** The 100 ms checks queued by the play and pause handlers. */
    var pendingPlayChecks: nat
    var pendingPauseChecks: nat
    /** The (restartable) 100 ms seek timer, and the 200 ms follow-ups it queued. */
    var seekPending: bool
    var seekFollowUps: nat

    var peerInitAttempts: nat
    var reconnectAttempts: nat

    var outbox: seq<Transmission>
    var netflixOutbox: seq<NetflixControl>
    var runtimeOutbox: seq<RuntimeRequest>
    var status: Status
    /** The last redirect offered to, or scheduled for, the user. */
    var navigation: Navigation

    /**
     * The object invariant: the count includes the local participant,
     * registry entries are keyed by their id, every live connection
     * belongs to an active registry entry, a pending reconnect timer
     * carries the backoff delay of its attempt, and a Peer exists only
     * within the init-attempt cap.
     */
    predicate Valid()
      reads this`participantCount, this`peerRegistry, this`connections, this`reconnectTimer,
            this`reconnectAttempts, this`hasPeer, this`peerInitAttempts
    {
      participantCount >= 1 && RegistryConsistent(peerRegistry, connections) &&
      TimerConsistent(reconnectTimer, reconnectAttempts) && (hasPeer ==> 1 <= peerInitAttempts <= MaxPeerInitAttempts)
    }

    /** What handleVideoCommand reads and writes. */
    function Player(): PlayerState
      reads this`video, this`remotePlay, this`remotePause, this`remoteSeek, this`netflixOutbox
    {
      PlayerState(video, Flags(remotePlay, remotePause, remoteSeek), netflixOutbox)
    }

    /** What sendVideoEvent may change. */
    function SendFields(): SendState
      reads this`lastEventType, this`lastEventTimestamp, this`outbox, this`reconnectAttempts,
            this`reconnectTimer, this`status
    {
      SendState(lastEventType, lastEventTimestamp, outbox, reconnectAttempts, reconnectTimer, status)
    }

    /** What sendVideoEvent reads and leaves alone. */
    function OriginFields(): Origin
      reads this`syncEnabled, this`hasPeer, this`isHost, this`connections, this`userId
    {
      Origin(syncEnabled, hasPeer, isHost, connections, userId, site)
    }

    /** What handleIncomingData reads and writes. */
    function InboundFields(): Inbound
      reads this`video, this`remotePlay, this`remotePause, this`remoteSeek, this`netflixOutbox,
            this`outbox, this`roomUrl, this`navigation, this`lastPongTimestamp,
            this`userId, this`isHost, this`connections, this`syncEnabled, this`currentUrl
    {
      Inbound(video, Flags(remotePlay, remotePause, remoteSeek), netflixOutbox, outbox, roomUrl, navigation,
              lastPongTimestamp, userId, isHost, connections, syncEnabled, currentUrl)
    }

    /** The fields a Peer (re)build touches. */
    function Link(): LinkState
      reads this`reconnectTimer, this`healthCheckRunning, this`syncIntervalRunning, this`livenessRunning,
            this`outbox, this`connections, this`hasPeer, this`peerInitAttempts, this`status, this`localPeerId
    {
      LinkState(reconnectTimer, healthCheckRunning, syncIntervalRunning, livenessRunning, outbox, connections,
                hasPeer, peerInitAttempts, status, localPeerId)
    }

    /** The object literal's initial field values, with initialize()'s site and URL. */
    constructor(parse: UrlParser, site: string, currentUrl: string)
      ensures Valid()
      ensures this.parse == parse && this.site == site && this.currentUrl == currentUrl
      ensures video.None? && syncEnabled && currentRoomId == "" && !isHost && participantCount == 1
      ensures !peerInitialized && userId == "" && roomUrl.None? && !hasPeer
      ensures connections == [] && peerRegistry == map[] && reconnectTimer.None?
      ensures !healthCheckRunning && !livenessRunning && !syncIntervalRunning && lastPongTimestamp == 0
      ensures !remoteSeek && !remotePlay && !remotePause
      ensures lastSentTime == 0.0 && lastSentState.None? && lastEventTimestamp == 0 && lastEventType.None?
      ensures pendingPlayChecks == 0 && pendingPauseChecks == 0 && !seekPending && seekFollowUps == 0
      ensures peerInitAttempts == 0 && reconnectAttempts == 0
      ensures outbox == [] && netflixOutbox == [] && runtimeOutbox == []
      ensures status == RoomStatus && navigation == NoNavigation
    {
      this.parse := parse;
      this.site := site;
      this.currentUrl := currentUrl;
      video := None;
      syncEnabled := true;
      currentRoomId := "";
      isHost := false;
      participantCount := 1;
      peerInitialized := false;
      userId := "";
      roomUrl := None;
      hasPeer := false;
      localPeerId := "";
      connections := [];
      peerRegistry := map[];
      reconnectTimer := None;
      healthCheckRunning := false;
      livenessRunning := false;
      syncIntervalRunning := false;
      lastPongTimestamp := 0;
      remoteSeek := false;
      remotePlay := false;
      remotePause := false;
      lastSentTime := 0.0;
      lastSentState := None;
      lastEventTimestamp := 0;
      lastEventType := None;
      pendingPlayChecks := 0;
      pendingPauseChecks := 0;
      seekPending := false;
      seekFollowUps := 0;
      peerInitAttempts := 0;
      reconnectAttempts := 0;
      outbox := [];
      netflixOutbox := [];
      runtimeOutbox := [];
      status := RoomStatus;
      navigation := NoNavigation;
    }

    /** The video element was (re)found, changed, or removed from the page. */
    method ObserveVideo(v: Option<Video>)
      modifies this`video
      ensures video == v
    {
      video := v;
    }

    /** The background script answered getUserId. */
    method OnUserId(id: string)
      modifies this`userId
      ensures userId == id
    {
      userId := id;
    }

    // -------------------------------------------------------------
    // Sending
    // -------------------------------------------------------------

    /** Send m on every open connection except the excluded one, in list order. */
    method SendToOpen(m: Message, except: Option<ConnId>, open: set<ConnId>)
      modifies this`outbox
      ensures outbox == old(outbox) + FanOut(connections, open, except, m)
    {
      var i := 0;
      while i < |connections|
        invariant 0 <= i <= |connections|
        invariant outbox == old(outbox) + FanOut(connections[..i], open, except, m)
      {
        var c := connections[i];
        assert connections[..i + 1][..i] == connections[..i];
        if Receives(c, open, except) {
          outbox := outbox + [Send(c.handle, m)];
        }
        i := i + 1;
      }
      assert connections[..|connections|] == connections;
    }

    /** updateParticipantCount: recompute, refresh the status line, tell the background. */
    method UpdateParticipantCount(open: set<ConnId>)
      requires Valid()
      modifies this`participantCount, this`runtimeOutbox, this`status
      ensures Valid()
      ensures participantCount == ParticipantCount(isHost, peerRegistry, connections, open)
      ensures runtimeOutbox == old(runtimeOutbox) + [UpdateParticipantCountRequest(participantCount)]
      ensures status == RoomStatus
    {
      participantCount := ParticipantCount(isHost, peerRegistry, connections, open);
      runtimeOutbox := runtimeOutbox + [UpdateParticipantCountRequest(participantCount)];
      status := RoomStatus;
    }

    /**
     * sendVideoEvent: drop a repeat of the last accepted type within the
     * debounce window; otherwise record it and, when a Peer exists, fan
     * out (host) or send to the first connection (client), scheduling a
     * reconnect when that connection is missing or closed.
     */
    method SendVideoEvent(e: EventType, d: EventData, now: nat, open: set<ConnId>)
      requires Valid()
      modifies this`lastEventTimestamp, this`lastEventType, this`outbox,
               this`reconnectAttempts, this`reconnectTimer, this`status
      ensures Valid()
      ensures SendFields() == Announce(old(SendFields()), OriginFields(), open, e, d, now)
    {
      if !syncEnabled || IsDuplicate(lastEventType, lastEventTimestamp, e, now) {
        return;
      }
      lastEventTimestamp := now;
      lastEventType := Some(e);
      DeliverVideoEvent(VideoEvent(userId, site, VideoEventBody(e, d, Some(now))), open);
    }

    /** The sending half of sendVideoEvent, once the event is recorded. */
    method DeliverVideoEvent(m: Message, open: set<ConnId>)
      requires Valid()
      modifies this`outbox, this`reconnectAttempts, this`reconnectTimer, this`status
      ensures Valid()
      ensures SendFields() == Deliver(old(SendFields()), OriginFields(), open, m)
    {
      if !hasPeer {
        return;
      }
      if isHost {
        SendToOpen(m, None, open);
      } else if |connections| > 0 && connections[0].handle in open {
        outbox := outbox + [Send(connections[0].handle, m)];
      } else {
        ScheduleReconnect();
      }
    }

    /** broadcastRoomUrl: a host with connections sends the room URL, forcing a redirect. */
    method BroadcastRoomUrl(open: set<ConnId>)
      modifies this`outbox
      ensures isHost ==> outbox == old(outbox) + FanOut(connections, open, None, RoomUrl(roomUrl, true))
      ensures !isHost ==> outbox == old(outbox)
    {
      if !isHost || |connections| == 0 {
        return;
      }
      SendToOpen(RoomUrl(roomUrl, true), None, open);
    }

    // -------------------------------------------------------------
    // Local video events and their deferred checks
    // -------------------------------------------------------------

    /** The `play` listener: consume the remote flag, or queue the 100 ms check. */
    method HandlePlayEvent()
      modifies this`remotePlay, this`pendingPlayChecks
      ensures old(syncEnabled) && old(remotePlay) ==> !remotePlay && pendingPlayChecks == old(pendingPlayChecks)
      ensures old(syncEnabled) && !old(remotePlay) ==> !remotePlay && pendingPlayChecks == old(pendingPlayChecks) + 1
      ensures !old(syncEnabled) ==> remotePlay == old(remotePlay) && pendingPlayChecks == old(pendingPlayChecks)
    {
      if !syncEnabled {
        return;
      }
      if remotePlay {
        remotePlay := false;
        return;
      }
      pendingPlayChecks := pendingPlayChecks + 1;
    }

    /** The `pause` listener: consume the remote flag, or queue the 100 ms check. */
    method HandlePauseEvent()
      modifies this`remotePause, this`pendingPauseChecks
      ensures old(syncEnabled) && old(remotePause) ==> !remotePause && pendingPauseChecks == old(pendingPauseChecks)
      ensures old(syncEnabled) && !old(remotePause) ==> !remotePause && pendingPauseChecks == old(pendingPauseChecks) + 1
      ensures !old(syncEnabled) ==> remotePause == old(remotePause) && pendingPauseChecks == old(pendingPauseChecks)
    {
      if !syncEnabled {
        return;
      }
      if remotePause {
        remotePause := false;
        return;
      }
      pendingPauseChecks := pendingPauseChecks + 1;
    }

    /** The `seeked` listener: consume the remote flag, or (re)start the 100 ms seek timer. */
    method HandleSeekEvent()
      modifies this`remoteSeek, this`seekPending
      ensures old(syncEnabled) && old(remoteSeek) ==> !remoteSeek && seekPending == old(seekPending)
      ensures old(syncEnabled) && !old(remoteSeek) ==> !remoteSeek && seekPending
      ensures !old(syncEnabled) ==> remoteSeek == old(remoteSeek) && seekPending == old(seekPending)
    {
      if !syncEnabled {
        return;
      }
      if remoteSeek {
        remoteSeek := false;
        return;
      }
      seekPending := true;
    }

    /** The play check: still playing, so announce play at the current position. */
    method PlayCheckFired(now: nat, open: set<ConnId>)
      requires Valid() && pendingPlayChecks > 0
      modifies this`pendingPlayChecks, this`lastEventTimestamp, this`lastEventType, this`outbox,
               this`reconnectAttempts, this`reconnectTimer, this`status
      ensures Valid()
      ensures pendingPlayChecks == old(pendingPlayChecks) - 1
      ensures SendFields() ==
                if video.Some? && !video.value.paused
                then Announce(old(SendFields()), OriginFields(), open, Play, EventData(Some(video.value.currentTime), None), now)
                else old(SendFields())
    {
      pendingPlayChecks := pendingPlayChecks - 1;
      if video.Some? && !video.value.paused {
        SendVideoEvent(Play, EventData(Some(video.value.currentTime), None), now, open);
      }
    }

    /** The pause check: still paused, so announce pause at the current position. */
    method PauseCheckFired(now: nat, open: set<ConnId>)
      requires Valid() && pendingPauseChecks > 0
      modifies this`pendingPauseChecks, this`lastEventTimestamp, this`lastEventType, this`outbox,
               this`reconnectAttempts, this`reconnectTimer, this`status
      ensures Valid()
      ensures pendingPauseChecks == old(pendingPauseChecks) - 1
      ensures SendFields() ==
                if video.Some? && video.value.paused
                then Announce(old(SendFields()), OriginFields(), open, Pause, EventData(Some(video.value.currentTime), None), now)
                else old(SendFields())
    {
      pendingPauseChecks := pendingPauseChecks - 1;
      if video.Some? && video.value.paused {
        SendVideoEvent(Pause, EventData(Some(video.value.currentTime), None), now, open);
      }
    }

    /** The seek timer: announce the seek and queue the 200 ms play/pause follow-up. */
    method SeekTimerFired(now: nat, open: set<ConnId>)
      requires Valid() && seekPending
      modifies this`seekPending, this`seekFollowUps, this`lastEventTimestamp, this`lastEventType, this`outbox,
               this`reconnectAttempts, this`reconnectTimer, this`status
      ensures Valid()
      ensures !seekPending
      ensures seekFollowUps == old(seekFollowUps) + (if video.Some? then 1 else 0)
      ensures SendFields() ==
                if video.Some?
                then Announce(old(SendFields()), OriginFields(), open, Seek, EventData(Some(video.value.currentTime), None), now)
                else old(SendFields())
    {
      seekPending := false;
      if video.Some? {
        SendVideoEvent(Seek, EventData(Some(video.value.currentTime), None), now, open);
        seekFollowUps := seekFollowUps + 1;
      }
    }

    /** The follow-up after a seek: re-announce the current play state. */
    method SeekFollowUpFired(now: nat, open: set<ConnId>)
      requires Valid() && seekFollowUps > 0
      modifies this`seekFollowUps, this`lastEventTimestamp, this`lastEventType, this`outbox,
               this`reconnectAttempts, this`reconnectTimer, this`status
      ensures Valid()
      ensures seekFollowUps == old(seekFollowUps) - 1
      ensures SendFields() ==
                if video.Some?
                then Announce(old(SendFields()), OriginFields(), open, if video.value.paused then Pause else Play,
                              EventData(Some(video.value.currentTime), None), now)
                else old(SendFields())
    {
      seekFollowUps := seekFollowUps - 1;
      if video.Some? {
        var e := if video.value.paused then Pause else Play;
        SendVideoEvent(e, EventData(Some(video.value.currentTime), None), now, open);
      }
    }

    /** startPeriodicSync: (re)start the 3 s sync interval. */
    method StartPeriodicSync()
      modifies this`syncIntervalRunning
      ensures syncIntervalRunning
    {
      syncIntervalRunning := true;
    }

    /** One tick of the sync interval: resend the position on drift or a state change. */
    method PeriodicSyncTick(now: nat, open: set<ConnId>)
      requires Valid() && syncIntervalRunning
      modifies this`lastSentTime, this`lastSentState, this`lastEventTimestamp, this`lastEventType, this`outbox,
               this`reconnectAttempts, this`reconnectTimer, this`status
      ensures Valid()
      ensures !syncEnabled || video.None? ||
              !NeedsResync(video.value.currentTime, StateOf(video.value), old(lastSentTime), old(lastSentState)) ==>
                lastSentTime == old(lastSentTime) && lastSentState == old(lastSentState) &&
                SendFields() == old(SendFields())
      ensures syncEnabled && video.Some? &&
              NeedsResync(video.value.currentTime, StateOf(video.value), old(lastSentTime), old(lastSentState)) ==>
                lastSentTime == video.value.currentTime && lastSentState == Some(StateOf(video.value)) &&
                SendFields() == Announce(old(SendFields()), OriginFields(), open, Sync,
                                         EventData(Some(video.value.currentTime), Some(StateOf(video.value))), now)
    {
      if !syncEnabled || video.None? {
        return;
      }
      var t := video.value.currentTime;
      var s := StateOf(video.value);
      if NeedsResync(t, s, lastSentTime, lastSentState) {
        SendVideoEvent(Sync, EventData(Some(t), Some(s)), now, open);
        lastSentTime := t;
        lastSentState := Some(s);
      }
    }

    // -------------------------------------------------------------
    // Applying a remote command
    // -------------------------------------------------------------

    /**
     * handleVideoCommand: on Netflix post bridge messages, elsewhere drive
     * the element and raise the matching one-shot flag before each change.
     */
    method HandleVideoCommand(e: EventType, d: EventData)
      modifies this`video, this`remotePlay, this`remotePause, this`remoteSeek, this`netflixOutbox
      ensures Player() == ApplyCommand(syncEnabled, site, old(Player()), e, d)
    {
      if !syncEnabled || video.None? {
        return;
      }
      if site == NetflixSite {
        NetflixCommand(e, d);
      } else {
        GenericCommand(e, d);
      }
    }

    /** The Netflix branch of handleVideoCommand. */
    method NetflixCommand(e: EventType, d: EventData)
      requires video.Some?
      modifies this`video, this`netflixOutbox
      ensures var n := ApplyNetflix(old(video).value, e, d);
              video == Some(n.video) && netflixOutbox == old(netflixOutbox) + n.controls
    {
      var v := video.value;
      match e {
        case Play =>
          if v.paused {
            netflixOutbox := netflixOutbox + [NetflixPlay];
          }
        case Pause =>
          if !v.paused {
            netflixOutbox := netflixOutbox + [NetflixPause];
          }
        case Seek =>
          if d.currentTime.Some? {
            netflixOutbox := netflixOutbox + [NetflixSeek(d.currentTime.value * 1000.0)];
          }
        case Sync =>
          if d.currentTime.Some? {
            var diff := Abs(v.currentTime * 1000.0 - d.currentTime.value * 1000.0);
            if diff > NetflixSyncToleranceMs {
              netflixOutbox := netflixOutbox + [NetflixSeek(d.currentTime.value * 1000.0)];
            }
          }
          if d.state == Some(Playing) && v.paused {
            netflixOutbox := netflixOutbox + [NetflixPlay];
          } else if d.state == Some(Paused) && !v.paused {
            video := Some(v.(paused := true));
            netflixOutbox := netflixOutbox + [NetflixPause];
          }
        case OtherEvent =>
      }
    }

    /** The generic branch of handleVideoCommand. */
    method GenericCommand(e: EventType, d: EventData)
      requires video.Some?
      modifies this`video, this`remotePlay, this`remotePause, this`remoteSeek
      ensures video.Some? &&
              Applied(video.value, Flags(remotePlay, remotePause, remoteSeek)) ==
              ApplyGeneric(old(video).value, old(Flags(remotePlay, remotePause, remoteSeek)), e, d)
    {
      var v := video.value;
      match e {
        case Play =>
          if v.paused {
            remotePlay := true;
            if d.currentTime.Some? {
              remoteSeek := true;
              v := v.(currentTime := d.currentTime.value);
            }
            video := Some(v.(paused := false));
          }
        case Pause =>
          if !v.paused {
            remotePause := true;
            if d.currentTime.Some? {
              remoteSeek := true;
              v := v.(currentTime := d.currentTime.value);
            }
            video := Some(v.(paused := true));
          }
        case Seek =>
          if d.currentTime.Some? {
            var diff := Abs(v.currentTime - d.currentTime.value);
            if diff > SeekToleranceSec {
              remoteSeek := true;
              video := Some(v.(currentTime := d.currentTime.value));
            }
          }
        case Sync =>
          if d.currentTime.Some? && Abs(v.currentTime - d.currentTime.value) > SyncToleranceSec {
            remoteSeek := true;
            v := v.(currentTime := d.currentTime.value);
            video := Some(v);
          }
          if d.state == Some(Playing) && v.paused {
            remotePlay := true;
            video := Some(v.(paused := false));
          } else if d.state == Some(Paused) && !v.paused {
            remotePause := true;
            video := Some(v.(paused := true));
          }
        case OtherEvent =>
      }
    }

    // -------------------------------------------------------------
    // Peer lifecycle
    // -------------------------------------------------------------

    /** scheduleReconnect: one more attempt; a backoff timer while within the cap. */
    method ScheduleReconnect()
      requires Valid()
      modifies this`reconnectAttempts, this`reconnectTimer, this`status
      ensures Valid()
      ensures reconnectAttempts == old(reconnectAttempts) + 1
      ensures reconnectAttempts <= MaxReconnectAttempts ==>
                reconnectTimer == Some(BackoffDelay(reconnectAttempts)) && status == old(status)
      ensures reconnectAttempts > MaxReconnectAttempts ==> reconnectTimer.None? && status == ConnectionLost
    {
      reconnectTimer := None;
      reconnectAttempts := reconnectAttempts + 1;
      if reconnectAttempts > MaxReconnectAttempts {
        status := ConnectionLost;
        return;
      }
      reconnectTimer := Some(BackoffDelay(reconnectAttempts));
    }

    /** cleanupPeerConnection: stop every timer, say goodbye on open links, drop them and the Peer. */
    method CleanupPeerConnection(open: set<ConnId>)
      requires Valid()
      modifies this`reconnectTimer, this`healthCheckRunning, this`syncIntervalRunning, this`livenessRunning,
               this`outbox, this`connections, this`hasPeer
      ensures Valid()
      ensures reconnectTimer.None? && !healthCheckRunning && !syncIntervalRunning && !livenessRunning
      ensures outbox == old(outbox) + Farewells(old(connections), open)
      ensures connections == [] && !hasPeer
    {
      reconnectTimer := None;
      healthCheckRunning := false;
      syncIntervalRunning := false;
      livenessRunning := false;
      SendFarewells(open);
      connections := [];
      hasPeer := false;
    }

    /** The goodbye loop of cleanupPeerConnection: `leave` then close, on each open connection. */
    method SendFarewells(open: set<ConnId>)
      modifies this`outbox
      ensures outbox == old(outbox) + Farewells(connections, open)
    {
      var i := 0;
      while i < |connections|
        invariant 0 <= i <= |connections|
        invariant outbox == old(outbox) + Farewells(connections[..i], open)
      {
        var c := connections[i];
        assert connections[..i + 1][..i] == connections[..i];
        if c.handle in open {
          outbox := outbox + [Send(c.handle, Leave), Close(c.handle)];
        }
        i := i + 1;
      }
      assert connections[..|connections|] == connections;
    }

    /**
     * initializePeerConnection: without the PeerJS library nothing
     * happens; otherwise clean up, count the attempt, and past the cap
     * give up; else listen as the room's host id or a random client id.
     */
    method InitializePeerConnection(peerLoaded: bool, suffix: string, open: set<ConnId>)
      requires Valid()
      modifies this`reconnectTimer, this`healthCheckRunning, this`syncIntervalRunning, this`livenessRunning,
               this`outbox, this`connections, this`hasPeer, this`peerInitAttempts, this`status, this`localPeerId
      ensures Valid()
      ensures !peerLoaded ==> Link() == old(Link())
      ensures peerLoaded ==>
                reconnectTimer.None? && !healthCheckRunning && !syncIntervalRunning &&
                outbox == old(outbox) + Farewells(old(connections), open) && connections == [] &&
                peerInitAttempts == old(peerInitAttempts) + 1
      ensures peerLoaded && peerInitAttempts > MaxPeerInitAttempts ==>
                !hasPeer && !livenessRunning && status == TooManyAttempts && localPeerId == old(localPeerId)
      ensures peerLoaded && peerInitAttempts <= MaxPeerInitAttempts ==>
                hasPeer && livenessRunning && status == old(status) &&
                localPeerId == (if isHost then HostId(currentRoomId) else ClientId(suffix))
    {
      if !peerLoaded {
        return;
      }
      CleanupPeerConnection(open);
      peerInitAttempts := peerInitAttempts + 1;
      if peerInitAttempts > MaxPeerInitAttempts {
        status := TooManyAttempts;
        return;
      }
      localPeerId := if isHost then HostId(currentRoomId) else ClientId(suffix);
      hasPeer := true;
      livenessRunning := true;
    }

    /**
     * The Peer's `open` event: start the health check and show the
     * connected status; a client also dials the room's host id, returned
     * here for the transport.
     */
    method OnPeerOpen() returns (dial: Option<string>)
      modifies this`healthCheckRunning, this`status
      ensures healthCheckRunning
      ensures isHost ==> dial.None? && status == ConnectedHost
      ensures !isHost ==> dial == Some(HostId(currentRoomId)) && status == ConnectedClient
    {
      healthCheckRunning := true;
      if isHost {
        dial := None;
        status := ConnectedHost;
      } else {
        dial := Some(HostId(currentRoomId));
        status := ConnectedClient;
      }
    }

    /** One tick of the 2 s health check: a missing or disconnected Peer reconnects. */
    method HealthCheckTick(peerDisconnected: bool)
      requires Valid() && healthCheckRunning
      modifies this`reconnectAttempts, this`reconnectTimer, this`status
      ensures Valid()
      ensures !hasPeer || peerDisconnected ==>
                reconnectAttempts == old(reconnectAttempts) + 1 &&
                (reconnectAttempts <= MaxReconnectAttempts ==>
                   reconnectTimer == Some(BackoffDelay(reconnectAttempts)) && status == old(status)) &&
                (reconnectAttempts > MaxReconnectAttempts ==> reconnectTimer.None? && status == ConnectionLost)
      ensures hasPeer && !peerDisconnected ==>
                reconnectAttempts == old(reconnectAttempts) && reconnectTimer == old(reconnectTimer) &&
                status == old(status)
    {
      if !hasPeer || peerDisconnected {
        ScheduleReconnect();
      }
    }

    /**
     * The reconnect timer fires: in a room, rebuild the Peer and report
     * the attempt (overwriting any message the rebuild wrote).
     */
    method ReconnectTimerFired(peerLoaded: bool, suffix: string, open: set<ConnId>)
      requires Valid() && reconnectTimer.Some?
      modifies this`peerInitialized, this`reconnectTimer, this`healthCheckRunning, this`syncIntervalRunning,
               this`livenessRunning, this`outbox, this`connections, this`hasPeer, this`peerInitAttempts,
               this`status, this`localPeerId
      ensures Valid()
      ensures reconnectTimer.None?
      ensures currentRoomId == "" ==>
                peerInitialized == old(peerInitialized) && outbox == old(outbox) &&
                connections == old(connections) && hasPeer == old(hasPeer) && status == old(status) &&
                peerInitAttempts == old(peerInitAttempts)
      ensures currentRoomId != "" ==>
                !peerInitialized && connections == [] && status == Reconnecting(reconnectAttempts) &&
                outbox == old(outbox) + Farewells(old(connections), open) &&
                peerInitAttempts == old(peerInitAttempts) + (if peerLoaded then 1 else 0) &&
                (hasPeer <==> peerLoaded && peerInitAttempts <= MaxPeerInitAttempts)
    {
      reconnectTimer := None;
      if currentRoomId != "" {
        RebuildPeer(peerLoaded, suffix, open);
      }
    }

    /** The reconnect timer's work in a room: clean up, rebuild, and show the attempt number. */
    method RebuildPeer(peerLoaded: bool, suffix: string, open: set<ConnId>)
      requires Valid() && reconnectTimer.None?
      modifies this`peerInitialized, this`reconnectTimer, this`healthCheckRunning, this`syncIntervalRunning,
               this`livenessRunning, this`outbox, this`connections, this`hasPeer, this`peerInitAttempts,
               this`status, this`localPeerId
      ensures Valid()
      ensures reconnectTimer.None? && !peerInitialized && connections == [] && status == Reconnecting(reconnectAttempts)
      ensures outbox == old(outbox) + Farewells(old(connections), open)
      ensures peerInitAttempts == old(peerInitAttempts) + (if peerLoaded then 1 else 0)
      ensures hasPeer <==> peerLoaded && peerInitAttempts <= MaxPeerInitAttempts
    {
      peerInitialized := false;
      CleanupPeerConnection(open);
      InitializePeerConnection(peerLoaded, suffix, open);
      status := Reconnecting(reconnectAttempts);
    }

    /**
     * handleNewConnection: keep the connection, record its peer as active
     * at `now`, and recount.
     */
    method HandleNewConnection(c: Conn, now: nat, open: set<ConnId>)
      requires Valid()
      modifies this`connections, this`peerRegistry, this`participantCount, this`runtimeOutbox, this`status
      ensures Valid()
      ensures connections == old(connections) + [c]
      ensures peerRegistry == old(peerRegistry)[c.peer := PeerEntry(c.peer, true, now)]
      ensures participantCount == ParticipantCount(isHost, peerRegistry, connections, open)
      ensures runtimeOutbox == old(runtimeOutbox) + [UpdateParticipantCountRequest(participantCount)]
      ensures status == RoomStatus
    {
      connections := connections + [c];
      peerRegistry := peerRegistry[c.peer := PeerEntry(c.peer, true, now)];
      UpdateParticipantCount(open);
    }

    /**
     * The client's connection to the host opened: register it, then ask
     * for the playback state and for the room URL, in that order.
     */
    method OnHostConnectionOpen(c: Conn, now: nat, open: set<ConnId>)
      requires Valid()
      modifies this`connections, this`peerRegistry, this`participantCount, this`runtimeOutbox, this`status,
               this`outbox
      ensures Valid()
      ensures connections == old(connections) + [c]
      ensures peerRegistry == old(peerRegistry)[c.peer := PeerEntry(c.peer, true, now)]
      ensures participantCount == ParticipantCount(isHost, peerRegistry, connections, open)
      ensures runtimeOutbox == old(runtimeOutbox) + [UpdateParticipantCountRequest(participantCount)]
      ensures status == RoomStatus
      ensures outbox == old(outbox) + [Send(c.handle, SyncRequest), Send(c.handle, RoomUrlRequest)]
    {
      HandleNewConnection(c, now, open);
      outbox := outbox + [Send(c.handle, SyncRequest), Send(c.handle, RoomUrlRequest)];
    }

    /**
     * A connection's `close` event: drop every connection to that peer
     * and flag its entry inactive, keeping the entry; then recount.
     */
    method OnConnectionClose(c: Conn, open: set<ConnId>)
      requires Valid()
      modifies this`connections, this`peerRegistry, this`participantCount, this`runtimeOutbox, this`status
      ensures Valid()
      ensures connections == WithoutPeer(old(connections), c.peer)
      ensures peerRegistry == Deactivated(old(peerRegistry), c.peer)
      ensures participantCount == ParticipantCount(isHost, peerRegistry, connections, open)
      ensures runtimeOutbox == old(runtimeOutbox) + [UpdateParticipantCountRequest(participantCount)]
      ensures status == RoomStatus
    {
      DropPeer(c.peer);
      UpdateParticipantCount(open);
    }

    /** Forget every connection to the peer and flag its registry entry inactive. */
    method DropPeer(peer: string)
      requires Valid()
      modifies this`connections, this`peerRegistry
      ensures Valid()
      ensures connections == WithoutPeer(old(connections), peer)
      ensures peerRegistry == Deactivated(old(peerRegistry), peer)
    {
      connections := WithoutPeer(connections, peer);
      peerRegistry := Deactivated(peerRegistry, peer);
    }

    /**
     * removePeer: when an open connection to the peer exists, pause its
     * video (if ours is known), kick it, say goodbye and close it; flag
     * the entry inactive, drop every connection to it, and recount. (The
     * source flags the entry before sending; the sends read neither the
     * registry nor anything the flag changes.)
     */
    method RemovePeer(peerId: string, open: set<ConnId>)
      requires Valid()
      modifies this`connections, this`peerRegistry, this`participantCount, this`runtimeOutbox, this`status,
               this`outbox
      ensures Valid()
      ensures peerId == "" ==>
                connections == old(connections) && peerRegistry == old(peerRegistry) && outbox == old(outbox) &&
                runtimeOutbox == old(runtimeOutbox) && participantCount == old(participantCount) &&
                status == old(status)
      ensures peerId != "" ==>
                connections == WithoutPeer(old(connections), peerId) &&
                peerRegistry == Deactivated(old(peerRegistry), peerId)
      ensures peerId != "" ==>
                var found := FindByPeer(old(connections), peerId);
                outbox == old(outbox) +
                  (if found.Some? && found.value.handle in open then KickMessages(found.value.handle, video) else [])
      ensures peerId != "" ==>
                participantCount == ParticipantCount(isHost, peerRegistry, connections, open) &&
                runtimeOutbox == old(runtimeOutbox) + [UpdateParticipantCountRequest(participantCount)] &&
                status == RoomStatus
    {
      if peerId == "" {
        return;
      }
      KickAndDrop(peerId, open);
      UpdateParticipantCount(open);
    }

    /** The kick, then forgetting the peer's connections and deactivating its entry. */
    method KickAndDrop(peerId: string, open: set<ConnId>)
      requires Valid()
      modifies this`connections, this`peerRegistry, this`outbox
      ensures Valid()
      ensures connections == WithoutPeer(old(connections), peerId)
      ensures peerRegistry == Deactivated(old(peerRegistry), peerId)
      ensures var found := FindByPeer(old(connections), peerId);
              outbox == old(outbox) +
                (if found.Some? && found.value.handle in open then KickMessages(found.value.handle, video) else [])
    {
      KickPeer(peerId, open);
      DropPeer(peerId);
    }

    /** The sending part of removePeer: kick the first connection to the peer, if it is open. */
    method KickPeer(peerId: string, open: set<ConnId>)
      modifies this`outbox
      ensures var found := FindByPeer(connections, peerId);
              outbox == old(outbox) +
                (if found.Some? && found.value.handle in open then KickMessages(found.value.handle, video) else [])
    {
      var found := FindByPeer(connections, peerId);
      if found.Some? && found.value.handle in open {
        outbox := outbox + KickMessages(found.value.handle, video);
      }
    }

    /**
     * One tick of the 1 s liveness interval: ping every open connection,
     * recount in the first second of every five, and report whether the
     * last pong is older than the liveness window.
     */
    method LivenessTick(now: nat, open: set<ConnId>) returns (lapsed: bool)
      requires Valid() && livenessRunning
      modifies this`outbox, this`participantCount, this`runtimeOutbox, this`status
      ensures Valid()
      ensures lapsed == LivenessLapsed(lastPongTimestamp, now)
      ensures outbox == old(outbox) + FanOut(connections, open, None, Ping(now))
      ensures |connections| > 0 && now % 5000 < 1000 ==>
                participantCount == ParticipantCount(isHost, peerRegistry, connections, open) &&
                runtimeOutbox == old(runtimeOutbox) + [UpdateParticipantCountRequest(participantCount)] &&
                status == RoomStatus
      ensures !(|connections| > 0 && now % 5000 < 1000) ==>
                participantCount == old(participantCount) && runtimeOutbox == old(runtimeOutbox) &&
                status == old(status)
    {
      if |connections| > 0 {
        SendToOpen(Ping(now), None, open);
        if now % 5000 < 1000 {
          UpdateParticipantCount(open);
        }
      }
      lapsed := LivenessLapsed(lastPongTimestamp, now);
    }

    // -------------------------------------------------------------
    // Inbound messages
    // -------------------------------------------------------------

    /** handleIncomingData: dispatch one message that arrived on connection c. */
    method HandleIncomingData(m: Message, c: Conn, now: nat, open: set<ConnId>)
      modifies this`video, this`remotePlay, this`remotePause, this`remoteSeek, this`netflixOutbox,
               this`outbox, this`roomUrl, this`navigation, this`lastPongTimestamp
      ensures HandledIncoming(site, parse, old(InboundFields()), InboundFields(), m, c, now, open)
    {
      match m {
        case SyncRequest => AnswerRequest(m, c, now, open);
        case RoomUrlRequest => AnswerRequest(m, c, now, open);
        case Ping(_) => AnswerRequest(m, c, now, open);
        case SyncResponse(_, _) => ReceiveSyncResponse(m, c, now, open);
        case RoomUrl(_, _) => ReceiveRoomUrl(m, c, now, open);
        case VideoEvent(senderUser, senderSite, _) =>
          if !CrossSiteEcho(userId, site, senderUser, senderSite) {
            ApplyRemoteEvent(m, c, now, open);
          }
        case Pong(_) =>
          lastPongTimestamp := now;
        case VideoEventResponse =>
        case Leave =>
        case AdminKick =>
        case Unrecognized =>
      }
    }

    /**
     * The requests a peer may send: a host answers syncRequest with its
     * position and state (and its room URL, when it has one) and
     * roomUrlRequest with the room URL; everyone answers ping with pong.
     */
    method AnswerRequest(m: Message, c: Conn, now: nat, open: set<ConnId>)
      requires m.SyncRequest? || m.RoomUrlRequest? || m.Ping?
      modifies this`outbox
      ensures HandledIncoming(site, parse, old(InboundFields()), InboundFields(), m, c, now, open)
    {
      match m {
        case SyncRequest =>
          if isHost && video.Some? {
            outbox := outbox + [Send(c.handle, SyncResponse(video.value.currentTime, StateOf(video.value)))];
            if Truthy(roomUrl) {
              outbox := outbox + [Send(c.handle, RoomUrl(roomUrl, false))];
            }
          }
        case RoomUrlRequest =>
          if isHost && Truthy(roomUrl) {
            outbox := outbox + [Send(c.handle, RoomUrl(roomUrl, true))];
          }
        case Ping(_) =>
          outbox := outbox + [Send(c.handle, Pong(now))];
      }
    }

    /** The host's syncResponse: adopt its position and state as a sync command. */
    method ReceiveSyncResponse(m: Message, c: Conn, now: nat, open: set<ConnId>)
      requires m.SyncResponse?
      modifies this`video, this`remotePlay, this`remotePause, this`remoteSeek, this`netflixOutbox
      ensures HandledIncoming(site, parse, old(InboundFields()), InboundFields(), m, c, now, open)
    {
      HandleVideoCommand(Sync, EventData(Some(m.currentTime), Some(m.state)));
    }

    /** A roomUrl message: store the URL and put the redirect or the offer the rules call for in front of the user. */
    method ReceiveRoomUrl(m: Message, c: Conn, now: nat, open: set<ConnId>)
      requires m.RoomUrl?
      modifies this`roomUrl, this`navigation
      ensures HandledIncoming(site, parse, old(InboundFields()), InboundFields(), m, c, now, open)
    {
      roomUrl := m.url;
      var n := RoomUrlReceipt(parse, currentUrl, m.url, m.forceRedirect);
      if !n.NoNavigation? {
        navigation := n;
      }
    }

    /**
     * A peer's video event that is not a same-user echo from another
     * site: apply it, acknowledge it and, as host, pass it on to the
     * other open connections.
     */
    method ApplyRemoteEvent(m: Message, c: Conn, now: nat, open: set<ConnId>)
      requires m.VideoEvent? && !CrossSiteEcho(userId, site, m.userId, m.site)
      modifies this`video, this`remotePlay, this`remotePause, this`remoteSeek, this`netflixOutbox, this`outbox
      ensures Player() == ApplyCommand(syncEnabled, site, old(Player()), m.event.eventType, m.event.data)
      ensures outbox == old(outbox) + [Send(c.handle, VideoEventResponse)] +
                (if isHost then FanOut(connections, open, Some(c.handle), m) else [])
      ensures HandledIncoming(site, parse, old(InboundFields()), InboundFields(), m, c, now, open)
    {
      HandleVideoCommand(m.event.eventType, m.event.data);
      outbox := outbox + [Send(c.handle, VideoEventResponse)];
      if isHost {
        SendToOpen(m, Some(c.handle), open);
      }
    }

    /** A connection's `data` event: handle the message, then stamp the sender's entry. */
    method OnConnectionData(m: Message, c: Conn, now: nat, open: set<ConnId>)
      requires Valid() && c.peer in peerRegistry
      modifies this`video, this`remotePlay, this`remotePause, this`remoteSeek, this`netflixOutbox,
               this`outbox, this`roomUrl, this`navigation, this`lastPongTimestamp, this`peerRegistry
      ensures Valid()
      ensures HandledIncoming(site, parse, old(InboundFields()), InboundFields(), m, c, now, open)
      ensures peerRegistry == old(peerRegistry)[c.peer := old(peerRegistry)[c.peer].(lastSeen := now)]
    {
      HandleIncomingData(m, c, now, open);
      StampPeer(c.peer, now);
    }

    /** Record that the peer was heard from at `now`. */
    method StampPeer(peer: string, now: nat)
      requires Valid() && peer in peerRegistry
      modifies this`peerRegistry
      ensures Valid()
      ensures peerRegistry == old(peerRegistry)[peer := old(peerRegistry)[peer].(lastSeen := now)]
    {
      peerRegistry := peerRegistry[peer := peerRegistry[peer].(lastSeen := now)];
    }

    // -------------------------------------------------------------
    // Navigation and the room URL
    // -------------------------------------------------------------

    /**
     * checkUrlCompatibility: a host on another page of the room's site
     * asks the background to republish; a client away from the room URL
     * is offered the way back.
     */
    method CheckUrlCompatibility()
      modifies this`runtimeOutbox, this`navigation
      ensures var a := CompatibilityAction(parse, currentRoomId != "", isHost, roomUrl, currentUrl);
              (a.Republish? ==> runtimeOutbox == old(runtimeOutbox) + [SetRoomUrlRequest(a.url)] &&
                                navigation == old(navigation)) &&
              (a.OfferReturn? ==> navigation == OfferedReturn(Some(a.roomUrl)) && runtimeOutbox == old(runtimeOutbox)) &&
              (a.NoUrlAction? ==> navigation == old(navigation) && runtimeOutbox == old(runtimeOutbox))
    {
      var a := CompatibilityAction(parse, currentRoomId != "", isHost, roomUrl, currentUrl);
      match a {
        case Republish(url) =>
          runtimeOutbox := runtimeOutbox + [SetRoomUrlRequest(url)];
        case OfferReturn(target) =>
          navigation := OfferedReturn(Some(target));
        case NoUrlAction =>
      }
    }

    /** handleUrlChange: remember a new location and, in a room with a URL, check it. */
    method HandleUrlChange(newUrl: string)
      modifies this`currentUrl, this`runtimeOutbox, this`navigation
      ensures currentUrl == newUrl
      ensures newUrl == old(currentUrl) || currentRoomId == "" || !Truthy(roomUrl) ==>
                runtimeOutbox == old(runtimeOutbox) && navigation == old(navigation)
      ensures newUrl != old(currentUrl) ==>
                var a := CompatibilityAction(parse, currentRoomId != "", isHost, roomUrl, newUrl);
                (a.Republish? ==> runtimeOutbox == old(runtimeOutbox) + [SetRoomUrlRequest(newUrl)] &&
                                  navigation == old(navigation)) &&
                (a.OfferReturn? ==> navigation == OfferedReturn(roomUrl) && runtimeOutbox == old(runtimeOutbox)) &&
                (a.NoUrlAction? ==> navigation == old(navigation) && runtimeOutbox == old(runtimeOutbox))
    {
      if newUrl != currentUrl {
        currentUrl := newUrl;
        if currentRoomId != "" && Truthy(roomUrl) {
          CheckUrlCompatibility();
        }
      }
    }

    /** The background's answer to setRoomUrl: adopt the stored URL and push it to the peers. */
    method OnSetRoomUrlResponse(response: Option<string>, open: set<ConnId>)
      modifies this`roomUrl, this`outbox
      ensures response.None? ==> roomUrl == old(roomUrl) && outbox == old(outbox)
      ensures response.Some? ==> roomUrl == response
      ensures response.Some? && isHost ==>
                outbox == old(outbox) + FanOut(connections, open, None, RoomUrl(response, true))
      ensures !isHost ==> outbox == old(outbox)
    {
      if response.Some? {
        roomUrl := response;
        BroadcastRoomUrl(open);
      }
    }

    /**
     * The background's `roomUpdate`: change room (see ChangeRoom), then
     * reset the count to one and recount.
     */
    method OnRoomUpdate(roomId: string, host: bool, url: Option<string>, href: string,
                        peerLoaded: bool, suffix: string, open: set<ConnId>)
      requires Valid()
      modifies this`currentRoomId, this`isHost, this`roomUrl, this`syncEnabled, this`peerInitialized,
               this`navigation, this`reconnectTimer, this`healthCheckRunning, this`syncIntervalRunning,
               this`livenessRunning, this`outbox, this`connections, this`hasPeer, this`peerInitAttempts,
               this`status, this`localPeerId, this`participantCount, this`runtimeOutbox
      ensures Valid()
      ensures currentRoomId == roomId && isHost == host && syncEnabled == (roomId != "")
      ensures roomUrl == (if roomId != "" then url else None)
      ensures roomId == "" ==> connections == [] && !hasPeer && reconnectTimer.None?
      ensures roomId != "" && old(currentRoomId) == "" && peerLoaded ==>
                connections == [] && peerInitAttempts == old(peerInitAttempts) + 1 &&
                (hasPeer <==> peerInitAttempts <= MaxPeerInitAttempts)
      ensures roomId != "" && old(currentRoomId) != "" && old(peerInitialized) ==>
                connections == old(connections) && outbox == old(outbox) && hasPeer == old(hasPeer)
      ensures participantCount == ParticipantCount(host, peerRegistry, connections, open)
      ensures runtimeOutbox == old(runtimeOutbox) + [UpdateParticipantCountRequest(participantCount)]
      ensures status == RoomStatus
    {
      ChangeRoom(roomId, host, url, href, peerLoaded, suffix, open);
      participantCount := 1;
      UpdateParticipantCount(open);
    }

    /**
     * The first part of `roomUpdate`: adopt the room, host flag and URL;
     * join (building the Peer) when newly in a room or not yet
     * initialised, clean up when the room is gone, and otherwise leave
     * the connections alone.
     */
    method ChangeRoom(roomId: string, host: bool, url: Option<string>, href: string,
                      peerLoaded: bool, suffix: string, open: set<ConnId>)
      requires Valid()
      modifies this`currentRoomId, this`isHost, this`roomUrl, this`syncEnabled, this`peerInitialized,
               this`navigation, this`reconnectTimer, this`healthCheckRunning, this`syncIntervalRunning,
               this`livenessRunning, this`outbox, this`connections, this`hasPeer, this`peerInitAttempts,
               this`status, this`localPeerId
      ensures Valid()
      ensures currentRoomId == roomId && isHost == host && syncEnabled == (roomId != "")
      ensures roomUrl == (if roomId != "" then url else None)
      ensures roomId == "" ==>
                connections == [] && !hasPeer && reconnectTimer.None? &&
                outbox == old(outbox) + Farewells(old(connections), open) &&
                peerInitialized == old(peerInitialized) && peerInitAttempts == old(peerInitAttempts)
      ensures roomId != "" && (old(currentRoomId) == "" || !old(peerInitialized)) ==>
                peerInitialized && peerInitAttempts == old(peerInitAttempts) + (if peerLoaded then 1 else 0) &&
                (peerLoaded ==> connections == [] && outbox == old(outbox) + Farewells(old(connections), open)) &&
                (peerLoaded ==> (hasPeer <==> peerInitAttempts <= MaxPeerInitAttempts)) &&
                (peerLoaded && hasPeer ==> localPeerId == (if host then HostId(roomId) else ClientId(suffix))) &&
                navigation == (if !host && Truthy(url) && GetBaseUrl(parse, href) != url.value
                               then OfferedReturn(url) else old(navigation))
      ensures roomId != "" && old(currentRoomId) != "" && old(peerInitialized) ==>
                connections == old(connections) && outbox == old(outbox) && hasPeer == old(hasPeer) &&
                peerInitAttempts == old(peerInitAttempts) && navigation == old(navigation)
    {
      if roomId != "" && (currentRoomId == "" || !peerInitialized) {
        JoinPeerNetwork(roomId, host, url, href, peerLoaded, suffix, open);
      } else if roomId == "" {
        LeavePeerNetwork(host, open);
      } else {
        AdoptRoom(roomId, host, url);
      }
    }

    /** The assignments `roomUpdate` starts with. */
    method AdoptRoom(roomId: string, host: bool, url: Option<string>)
      modifies this`currentRoomId, this`isHost, this`roomUrl, this`syncEnabled
      ensures currentRoomId == roomId && isHost == host && roomUrl == url && syncEnabled == (roomId != "")
    {
      currentRoomId := roomId;
      isHost := host;
      roomUrl := url;
      syncEnabled := roomId != "";
    }

    /** The leaving branch of `roomUpdate`: no room any more; clean up and forget the room URL. */
    method LeavePeerNetwork(host: bool, open: set<ConnId>)
      requires Valid()
      modifies this`currentRoomId, this`isHost, this`syncEnabled,
               this`reconnectTimer, this`healthCheckRunning, this`syncIntervalRunning, this`livenessRunning,
               this`outbox, this`connections, this`hasPeer, this`roomUrl
      ensures Valid()
      ensures currentRoomId == "" && isHost == host && !syncEnabled
      ensures roomUrl.None? && connections == [] && !hasPeer && reconnectTimer.None?
      ensures !healthCheckRunning && !syncIntervalRunning && !livenessRunning
      ensures outbox == old(outbox) + Farewells(old(connections), open)
    {
      AdoptRoom("", host, None);
      CleanupPeerConnection(open);
      roomUrl := None;
    }

    /**
     * The joining branch of `roomUpdate`: adopt the room, mark the Peer
     * initialised, build it, and offer a client on another page the way
     * to the room URL (checked against the browser's location `href`).
     */
    method JoinPeerNetwork(roomId: string, host: bool, url: Option<string>, href: string,
                           peerLoaded: bool, suffix: string, open: set<ConnId>)
      requires Valid()
      requires roomId != ""
      modifies this`currentRoomId, this`isHost, this`roomUrl, this`syncEnabled,
               this`peerInitialized, this`navigation, this`reconnectTimer, this`healthCheckRunning,
               this`syncIntervalRunning, this`livenessRunning, this`outbox, this`connections, this`hasPeer,
               this`peerInitAttempts, this`status, this`localPeerId
      ensures Valid()
      ensures currentRoomId == roomId && isHost == host && roomUrl == url && syncEnabled
      ensures peerInitialized
      ensures peerInitAttempts == old(peerInitAttempts) + (if peerLoaded then 1 else 0)
      ensures peerLoaded ==> connections == [] && outbox == old(outbox) + Farewells(old(connections), open)
      ensures !peerLoaded ==> connections == old(connections) && outbox == old(outbox) && hasPeer == old(hasPeer)
      ensures peerLoaded ==> (hasPeer <==> peerInitAttempts <= MaxPeerInitAttempts)
      ensures peerLoaded && hasPeer ==> localPeerId == (if host then HostId(roomId) else ClientId(suffix))
      ensures navigation ==
                if !host && Truthy(url) && GetBaseUrl(parse, href) != url.value
                then OfferedReturn(url) else old(navigation)
    {
      AdoptRoom(roomId, host, url);
      BuildPeer(href, peerLoaded, suffix, open);
    }

    /** The rest of the joining branch, once the room is adopted. */
    method BuildPeer(href: string, peerLoaded: bool, suffix: string, open: set<ConnId>)
      requires Valid()
      modifies this`peerInitialized, this`navigation, this`reconnectTimer, this`healthCheckRunning,
               this`syncIntervalRunning, this`livenessRunning, this`outbox, this`connections, this`hasPeer,
               this`peerInitAttempts, this`status, this`localPeerId
      ensures Valid()
      ensures peerInitialized
      ensures peerInitAttempts == old(peerInitAttempts) + (if peerLoaded then 1 else 0)
      ensures peerLoaded ==> connections == [] && outbox == old(outbox) + Farewells(old(connections), open)
      ensures !peerLoaded ==> connections == old(connections) && outbox == old(outbox) && hasPeer == old(hasPeer)
      ensures peerLoaded ==> (hasPeer <==> peerInitAttempts <= MaxPeerInitAttempts)
      ensures peerLoaded && hasPeer ==> localPeerId == (if isHost then HostId(currentRoomId) else ClientId(suffix))
      ensures navigation ==
                if !isHost && Truthy(roomUrl) && GetBaseUrl(parse, href) != roomUrl.value
                then OfferedReturn(roomUrl) else old(navigation)
    {
      peerInitialized := true;
      InitializePeerConnection(peerLoaded, suffix, open);
      OfferReturn(href);
    }

    /** A client whose page (`href`) is not the room URL is offered the way back to it. */
    method OfferReturn(href: string)
      modifies this`navigation
      ensures navigation ==
                if !isHost && Truthy(roomUrl) && GetBaseUrl(parse, href) != roomUrl.value
                then OfferedReturn(roomUrl) else old(navigation)
    {
      if !isHost && Truthy(roomUrl) && GetBaseUrl(parse, href) != roomUrl.value {
        navigation := OfferedReturn(roomUrl);
      }
    }
  }
}
