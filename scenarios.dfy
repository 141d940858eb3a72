// Short runs of the session and background models, each stated as what
// the run produces: the debounce, echo suppression through the one-shot
// flags, the room record's guards, and a relay between two tabs.

module Scenarios {
  import opened Common
  import opened Urls
  import opened Protocol
  import opened Session
  import opened Background

  /** A fresh session made host of a room, with one connection, to "peer" on handle 7. */
  method HostWithOneConnection(parse: UrlParser, href: string, suffix: string) returns (m: PartyManager)
    ensures fresh(m) && m.Valid()
    ensures m.syncEnabled && m.hasPeer && m.isHost && m.connections == [Conn(7, "peer")]
    ensures m.lastEventType.None? && m.userId == "" && m.site == "youtube"
  {
    m := new PartyManager(parse, "youtube", href);
    m.OnRoomUpdate("room", true, None, href, true, suffix, {7});
    m.HandleNewConnection(Conn(7, "peer"), 0, {7});
  }

  /**
   * A host with one open connection announces `play` at 1000 ms, again at
   * 1500 ms and again at 1700 ms: the repeat inside the 700 ms window is
   * dropped, the one at the window's end goes out.
   */
  method DebounceRun(parse: UrlParser, href: string, suffix: string, d: EventData)
    returns (first: seq<Transmission>, repeat: seq<Transmission>, later: seq<Transmission>)
    ensures first == [Send(7, VideoEvent("", "youtube", VideoEventBody(Play, d, Some(1000))))]
    ensures repeat == []
    ensures later == [Send(7, VideoEvent("", "youtube", VideoEventBody(Play, d, Some(1700))))]
  {
    var m := HostWithOneConnection(parse, href, suffix);

    var n := |m.outbox|;
    m.SendVideoEvent(Play, d, 1000, {7});
    FanOutToOne(VideoEvent("", "youtube", VideoEventBody(Play, d, Some(1000))));
    first := m.outbox[n..];
    assert m.lastEventType == Some(Play) && m.lastEventTimestamp == 1000;

    n := |m.outbox|;
    m.SendVideoEvent(Play, d, 1500, {7});
    repeat := m.outbox[n..];

    n := |m.outbox|;
    m.SendVideoEvent(Play, d, 1700, {7});
    FanOutToOne(VideoEvent("", "youtube", VideoEventBody(Play, d, Some(1700))));
    later := m.outbox[n..];
  }

  /** The one open connection on handle 7 is the only one a fan-out reaches. */
  lemma FanOutToOne(msg: Message)
    ensures FanOut([Conn(7, "peer")], {7}, None, msg) == [Send(7, msg)]
  {
    assert [Conn(7, "peer")][..0] == [];
  }

  /**
   * A peer's `play` with a position reaches a paused video: the video
   * plays from there, and the `play` and `seeked` events that change
   * raises are swallowed by their flags, so nothing is queued to be sent.
   */
  method EchoRun(parse: UrlParser, href: string)
    returns (v: Option<Video>, playChecks: nat, seekQueued: bool)
    ensures v == Some(Video(42.0, false))
    ensures playChecks == 0 && !seekQueued
  {
    var m := new PartyManager(parse, "youtube", href);
    m.ObserveVideo(Some(Video(10.0, true)));
    m.HandleVideoCommand(Play, EventData(Some(42.0), None));
    m.HandlePlayEvent();
    m.HandleSeekEvent();
    v := m.video;
    playChecks := m.pendingPlayChecks;
    seekQueued := m.seekPending;
  }

  /**
   * The room record ignores a role change and a leave for another room,
   * and a leave for its own room empties it.
   */
  method RoomRun(parse: UrlParser, url: string)
    returns (stillHost: bool, stillIn: Option<string>, finalRoom: Option<string>, finalUrl: Option<string>)
    requires url != ""
    ensures stillHost && stillIn == Some("abc")
    ensures finalRoom == None && finalUrl == None
  {
    var r := new RoomManager(parse);
    var base := r.CreateRoom("abc", Some(url));
    r.RoleChange(Some("other"), false);
    stillHost := r.isHost;
    r.LeaveRoom(Some("other"));
    stillIn := r.currentRoomId;
    r.LeaveRoom(Some("abc"));
    finalRoom := r.currentRoomId;
    finalUrl := r.roomUrl;
  }

  /** Object.keys lists tabs 1 and 2 as [1, 2]. */
  lemma TwoTabsInOrder()
    ensures SortedKeys({1, 2}) == [1, 2]
  {
    SortedKeysListsTheSet({1, 2});
    var ids := SortedKeys({1, 2});
    assert |ids| == 2 && ids[0] < ids[1];
    assert ids[0] in {1, 2} && ids[1] in {1, 2};
  }

  /** The relay from tab 1 over tabs [1, 2], with tab 2 answering, reaches tab 2 only. */
  lemma RelayFromFirstOfTwo(e: EventType, d: EventData)
    ensures RelaySends([1, 2], Some(1), {2}, e, d) == [TabSend(2, PingTab), TabSend(2, VideoCommand(e, d))]
  {
    assert [1, 2][..1] == [1];
    assert [1][..0] == [];
    assert RelaySends([1], Some(1), {2}, e, d) == [];
  }

  /**
   * The tab query finds two streaming tabs; tab 1 relays an event and
   * only tab 2, which answers the ping, receives it.
   */
  method RelayRun(u: string, v: string, e: EventType, d: EventData) returns (sends: seq<TabSend>)
    ensures sends == [TabSend(2, PingTab), TabSend(2, VideoCommand(e, d))]
  {
    var t := new TabManager();
    t.RefreshTabRegistry(Some([Tab(1, u), Tab(2, v)]));
    assert [Tab(1, u), Tab(2, v)][..1] == [Tab(1, u)];
    assert [Tab(1, u)][..0] == [];
    assert Registered([Tab(1, u)]) == map[1 := u];
    assert t.tabRegistry == map[1 := u][2 := v];
    assert t.tabRegistry.Keys == {1, 2};
    sends := RelayVideoEvent(t, Some(1), e, d, {2});
    TwoTabsInOrder();
    RelayFromFirstOfTwo(e, d);
  }
}
