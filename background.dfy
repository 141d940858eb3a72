// The background service worker of js/background.js: the room record
// (RoomManager), the registry of streaming-site tabs (TabManager), the
// roleChange guard of the message switch and the target choice of
// BroadcastHelper.relayVideoEvent. chrome.storage persistence, the
// chrome.tabs query and script injection are not modelled: the query's
// answer and which tabs answer a ping are parameters, and the messages the
// worker sends are returned.

module Background {
  import opened Common
  import opened Urls
  import opened Protocol

  /** A Chrome tab id. */
  type TabId = nat

  /** The host names of the supported streaming sites, in the order of their patterns. */
  const SupportedStems: seq<string> := [
    "netflix.com", "hotstar.com", "primevideo.com", "youtube.com",
    "disneyplus.com", "hulu.com", "hbomax.com", "max.com"
  ]

  // The match patterns of the supported streaming sites, one "*://*.<host>/*"
  // per host above: "*://*.netflix.com/*" through "*://*.max.com/*".
  const SupportedDomains: seq<string> := PatternsFor(SupportedStems)

  // The pattern "*://*.<host>/*" of every host, in order.
  function PatternsFor(hosts: seq<string>): (r: seq<string>)
    ensures |r| == |hosts|
    ensures forall i :: 0 <= i < |hosts| ==> r[i] == "*://*." + hosts[i] + "/*"
  {
    if hosts == [] then [] else ["*://*." + hosts[0] + "/*"] + PatternsFor(hosts[1..])
  }

  // The rough check's stem of a pattern: drop the first "*://*." and then the first "/*".
  function Stem(pattern: string): (r: string)
    ensures |r| <= |pattern|
    ensures !Contains(pattern, "*://*.") && !Contains(pattern, "/*") ==> r == pattern
  {
    ReplaceFirst(ReplaceFirst(pattern, "*://*.", ""), "/*", "")
  }

  /**
   * handleTabUpdate's test for a streaming-site tab: the URL includes the
   * stem of some pattern, that is, one of the eight host names.
   */
  function IsSupportedUrl(url: string): (r: bool)
    ensures r <==> HoldsSomeHost(url, SupportedStems)
  {
    SupportedStemsAreHosts();
    SomeStemIsSomeHost(SupportedDomains, SupportedStems, url);
    exists i :: 0 <= i < |SupportedDomains| && Contains(url, Stem(SupportedDomains[i]))
  }

  /** The URL contains one of the host names. */
  predicate HoldsSomeHost(url: string, hosts: seq<string>)
  {
    exists i :: 0 <= i < |hosts| && Contains(url, hosts[i])
  }

  /** Where patterns strip to hosts position by position, a URL holds some stem exactly when it holds some host. */
  lemma SomeStemIsSomeHost(patterns: seq<string>, hosts: seq<string>, url: string)
    requires |patterns| == |hosts|
    requires forall i :: 0 <= i < |patterns| ==> Stem(patterns[i]) == hosts[i]
    ensures (exists i :: 0 <= i < |patterns| && Contains(url, Stem(patterns[i]))) <==> HoldsSomeHost(url, hosts)
  {
  }

  /** indexOf finds a pattern right after a head that lacks the pattern's first character. */
  lemma {:induction false} IndexOfPastHead(head: string, pat: string)
    requires pat != [] && pat[0] !in head
    ensures IndexOf(head + pat, pat) == |head|
  {
    if head == [] {
      assert head + pat == pat;
    } else {
      assert (head + pat)[0] == head[0];
      assert (head + pat)[1..] == head[1..] + pat;
      IndexOfPastHead(head[1..], pat);
    }
  }

  /** A replace where indexOf has already located the pattern. */
  lemma ReplaceAtIndex(s: string, pat: string, rep: string, i: nat)
    requires IndexOf(s, pat) == i && i + |pat| <= |s|
    ensures ReplaceFirst(s, pat, rep) == s[..i] + rep + s[i + |pat|..]
  {
  }

  // The first replace of a stem drops the leading "*://*.".
  lemma StripScheme(host: string)
    ensures ReplaceFirst("*://*." + host + "/*", "*://*.", "") == host + "/*"
  {
    var p := "*://*." + host + "/*";
    assert "*://*." <= p;
    ReplaceAtIndex(p, "*://*.", "", 0);
    assert p[6..] == host + "/*";
  }

  // The second replace drops the trailing "/*" of a slash-free host.
  lemma StripTail(host: string)
    requires '/' !in host
    ensures ReplaceFirst(host + "/*", "/*", "") == host
  {
    IndexOfPastHead(host, "/*");
    ReplaceAtIndex(host + "/*", "/*", "", |host|);
    assert (host + "/*")[..|host|] == host;
  }

  // Stripping a pattern of the form "*://*." + host + "/*" leaves the host.
  lemma StemOfPattern(host: string)
    requires '/' !in host
    ensures Stem("*://*." + host + "/*") == host
  {
    StripScheme(host);
    StripTail(host);
  }

  /** Patterns built from hosts strip back to those hosts, position by position. */
  lemma StemsOfPatterns(patterns: seq<string>, hosts: seq<string>)
    requires |patterns| == |hosts|
    requires forall i :: 0 <= i < |hosts| ==> '/' !in hosts[i] && patterns[i] == "*://*." + hosts[i] + "/*"
    ensures forall i :: 0 <= i < |patterns| ==> Stem(patterns[i]) == hosts[i]
  {
    forall i | 0 <= i < |patterns|
      ensures Stem(patterns[i]) == hosts[i]
    {
      StemOfPattern(hosts[i]);
    }
  }

  /** No supported host name holds a '/'. */
  lemma HostsHaveNoSlash()
    ensures forall i :: 0 <= i < |SupportedStems| ==> '/' !in SupportedStems[i]
  {
  }

  /** The eight patterns strip to the eight host names. */
  lemma SupportedStemsAreHosts()
    ensures |SupportedDomains| == |SupportedStems|
    ensures forall i :: 0 <= i < |SupportedDomains| ==> Stem(SupportedDomains[i]) == SupportedStems[i]
  {
    HostsHaveNoSlash();
    StemsOfPatterns(SupportedDomains, SupportedStems);
  }

  /** A pattern that occurs at position k is found by includes. */
  lemma {:induction false} MatchAtIsContained(s: string, pat: string, k: nat)
    requires k <= |s| && pat <= s[k..]
    ensures Contains(s, pat)
    decreases k
  {
    if k > 0 {
      assert s[1..][k - 1..] == s[k..];
      MatchAtIsContained(s[1..], pat, k - 1);
    }
  }

  /** What includes sees inside a part it also sees inside the whole. */
  lemma {:induction false} ContainsSuffix(s: string, a: string, b: string)
    requires Contains(s, a + b)
    ensures Contains(s, b)
    decreases |s|
  {
    if a + b <= s {
      assert b <= s[|a|..] by {
        assert forall k :: 0 <= k < |b| ==> s[|a|..][k] == (a + b)[|a| + k];
      }
      MatchAtIsContained(s, b, |a|);
    } else {
      ContainsSuffix(s[1..], a, b);
    }
  }

  /**
   * The hbomax.com pattern adds nothing: every URL that contains
   * "hbomax.com" also contains "max.com", and so does every URL of
   * any other site mentioning max.com anywhere (a query string, say).
   */
  lemma HbomaxImpliesMax(url: string)
    ensures Contains(url, "hbomax.com") ==> Contains(url, "max.com")
  {
    if Contains(url, "hbomax.com") {
      assert "hbomax.com" == "hbo" + "max.com";
      ContainsSuffix(url, "hbo", "max.com");
    }
  }

  // ---------------------------------------------------------------
  // Object.keys order
  // ---------------------------------------------------------------

  /** Every non-empty set of tab ids has a least element. */
  lemma {:induction false} SetHasMin(s: set<TabId>)
    requires s != {}
    ensures exists m :: m in s && forall y :: y in s ==> m <= y
    decreases |s|
  {
    var x :| x in s;
    if s != {x} {
      SetHasMin(s - {x});
      var m :| m in s - {x} && forall y :: y in s - {x} ==> m <= y;
      forall y | y in s
        ensures Min(x, m) <= y
      {
        if y != x {
          assert y in s - {x};
        }
      }
      assert Min(x, m) in s;
    } else {
      assert forall y :: y in s ==> x <= y;
    }
  }

  /** The least tab id of a non-empty set. */
  ghost function SetMin(s: set<TabId>): (m: TabId)
    requires s != {}
    ensures m in s && forall y :: y in s ==> m <= y
  {
    SetHasMin(s);
    var m :| m in s && forall y :: y in s ==> m <= y;
    m
  }

  /** Integer-like property keys in the order Object.keys lists them: ascending. */
  ghost function SortedKeys(s: set<TabId>): (r: seq<TabId>)
    ensures |r| == |s|
    decreases |s|
  {
    if s == {} then []
    else
      var m := SetMin(s);
      assert |s - {m}| < |s|;
      [m] + SortedKeys(s - {m})
  }

  predicate StrictlyIncreasing(ids: seq<TabId>)
  {
    forall i, j :: 0 <= i < j < |ids| ==> ids[i] < ids[j]
  }

  /** Object.keys lists each key once, in ascending order. */
  lemma {:induction false} SortedKeysListsTheSet(s: set<TabId>)
    ensures forall t :: t in SortedKeys(s) <==> t in s
    ensures StrictlyIncreasing(SortedKeys(s))
    decreases |s|
  {
    if s != {} {
      var m := SetMin(s);
      SortedKeysListsTheSet(s - {m});
      var r := SortedKeys(s - {m});
      assert SortedKeys(s) == [m] + r;
      forall i, j | 0 <= i < j < |[m] + r|
        ensures ([m] + r)[i] < ([m] + r)[j]
      {
        if i == 0 {
          assert ([m] + r)[j] == r[j - 1];
          assert r[j - 1] in s - {m};
        } else {
          assert ([m] + r)[i] == r[i - 1] && ([m] + r)[j] == r[j - 1];
        }
      }
    }
  }

  // ---------------------------------------------------------------
  // refreshTabRegistry and relayVideoEvent, as specifications
  // ---------------------------------------------------------------

  /** A tab in the answer of the chrome.tabs query. */
  datatype Tab = Tab(id: TabId, url: string)

  /** The registry the forEach over the query's answer builds from an empty one. */
  function Registered(tabs: seq<Tab>): (r: map<TabId, string>)
    ensures tabs != [] ==> tabs[|tabs| - 1].id in r && r[tabs[|tabs| - 1].id] == tabs[|tabs| - 1].url
  {
    if tabs == [] then map[]
    else Registered(tabs[..|tabs| - 1])[tabs[|tabs| - 1].id := tabs[|tabs| - 1].url]
  }

  /** The rebuilt registry holds exactly the answered tabs, each with the URL of its last entry. */
  lemma {:induction false} RegisteredLastWins(tabs: seq<Tab>)
    ensures forall t :: t in Registered(tabs) <==> exists i :: 0 <= i < |tabs| && tabs[i].id == t
    ensures forall i :: 0 <= i < |tabs| && (forall j :: i < j < |tabs| ==> tabs[j].id != tabs[i].id) ==>
              Registered(tabs)[tabs[i].id] == tabs[i].url
  {
    if tabs != [] {
      var init := tabs[..|tabs| - 1];
      RegisteredLastWins(init);
      forall t | t in Registered(tabs)
        ensures exists i :: 0 <= i < |tabs| && tabs[i].id == t
      {
        if t != tabs[|tabs| - 1].id {
          assert t in Registered(init);
          var i :| 0 <= i < |init| && init[i].id == t;
          assert tabs[i] == init[i];
        }
      }
      forall t | exists i :: 0 <= i < |tabs| && tabs[i].id == t
        ensures t in Registered(tabs)
      {
        var i :| 0 <= i < |tabs| && tabs[i].id == t;
        if i < |init| {
          assert init[i] == tabs[i];
        }
      }
      forall i | 0 <= i < |tabs| && (forall j :: i < j < |tabs| ==> tabs[j].id != tabs[i].id)
        ensures Registered(tabs)[tabs[i].id] == tabs[i].url
      {
        if i < |init| {
          assert init[i] == tabs[i];
          assert forall j :: i < j < |init| ==> init[j] == tabs[j];
        }
      }
    }
  }

  /** What relayVideoEvent sends to one tab: a ping, then, if the ping is answered, the command. */
  datatype TabMessage = PingTab | VideoCommand(eventType: EventType, data: EventData)

  datatype TabSend = TabSend(tab: TabId, msg: TabMessage)

  /** The messages relayVideoEvent sends while walking the tab ids in order. */
  function RelaySends(ids: seq<TabId>, sender: Option<TabId>, answering: set<TabId>,
                      e: EventType, d: EventData): (r: seq<TabSend>)
    ensures |r| <= 2 * |ids|
  {
    if ids == [] then []
    else
      var t := ids[|ids| - 1];
      RelaySends(ids[..|ids| - 1], sender, answering, e, d) +
      (if Some(t) != sender
       then [TabSend(t, PingTab)] + (if t in answering then [TabSend(t, VideoCommand(e, d))] else [])
       else [])
  }

  /**
   * The relay never reaches the sender and reaches every other listed tab:
   * each gets a ping, and those answering it get the command unchanged.
   */
  lemma {:induction false} RelayTargetsOtherTabs(ids: seq<TabId>, sender: Option<TabId>, answering: set<TabId>,
                                                 e: EventType, d: EventData)
    ensures forall s :: s in RelaySends(ids, sender, answering, e, d) ==>
              s.tab in ids && Some(s.tab) != sender &&
              (s.msg == PingTab || (s.msg == VideoCommand(e, d) && s.tab in answering))
    ensures forall t :: t in ids && Some(t) != sender ==>
              TabSend(t, PingTab) in RelaySends(ids, sender, answering, e, d) &&
              (TabSend(t, VideoCommand(e, d)) in RelaySends(ids, sender, answering, e, d) <==> t in answering)
  {
    if ids != [] {
      var init := ids[..|ids| - 1];
      RelayTargetsOtherTabs(init, sender, answering, e, d);
      forall t | t in ids && Some(t) != sender
        ensures TabSend(t, VideoCommand(e, d)) in RelaySends(ids, sender, answering, e, d) ==> t in answering
      {
        if t !in init {
          assert t == ids[|ids| - 1];
        }
      }
      assert forall t :: t in init ==> t in ids;
    }
  }

  // ---------------------------------------------------------------
  // RoomManager
  // ---------------------------------------------------------------

  /**
   * The room record. currentRoomId and roomUrl are None for null;
   * popupOutbox holds the counts sent to the popup in order.
   */
  class RoomManager {
    const parse: UrlParser
    var currentRoomId: Option<string>
    var isHost: bool
    var participantCount: int
    var roomUrl: Option<string>
    var popupOutbox: seq<int>

    /** The record before anything is restored from storage. */
    constructor(parse: UrlParser)
      ensures this.parse == parse
      ensures currentRoomId == None && !isHost && participantCount == 1 && roomUrl == None && popupOutbox == []
    {
      this.parse := parse;
      currentRoomId := None;
      isHost := false;
      participantCount := 1;
      roomUrl := None;
      popupOutbox := [];
    }

    /**
     * createRoom: become host of a one-person room whose URL is the base of
     * the given URL (null when none is given); returns that URL for the
     * callback.
     */
    method CreateRoom(roomId: string, url: Option<string>) returns (baseUrl: Option<string>)
      modifies this`currentRoomId, this`isHost, this`participantCount, this`roomUrl
      ensures currentRoomId == Some(roomId) && isHost && participantCount == 1
      ensures baseUrl == roomUrl
      ensures !Truthy(url) ==> roomUrl == None
      ensures Truthy(url) ==> roomUrl == Some(GetBaseUrl(parse, url.value))
      ensures Truthy(url) && parse(url.value).Some? ==>
                roomUrl.value <= parse(url.value).value.href && '?' !in roomUrl.value
    {
      baseUrl := if Truthy(url) then Some(GetBaseUrl(parse, url.value)) else None;
      currentRoomId := Some(roomId);
      isHost := true;
      participantCount := 1;
      roomUrl := baseUrl;
    }

    /** joinRoom: become a client of a one-person room; the room URL comes later from the host. */
    method JoinRoom(roomId: string)
      modifies this`currentRoomId, this`isHost, this`participantCount
      ensures currentRoomId == Some(roomId) && !isHost && participantCount == 1
      ensures roomUrl == old(roomUrl)
    {
      currentRoomId := Some(roomId);
      isHost := false;
      participantCount := 1;
    }

    /** setRoomUrl: store the base of the URL and return it. */
    method SetRoomUrl(url: string) returns (baseUrl: string)
      modifies this`roomUrl
      ensures roomUrl == Some(baseUrl)
      ensures baseUrl == GetBaseUrl(parse, url)
      ensures parse(url).Some? ==> baseUrl <= parse(url).value.href && '?' !in baseUrl
      ensures parse(url).None? ==> baseUrl == url
    {
      baseUrl := GetBaseUrl(parse, url);
      roomUrl := Some(baseUrl);
    }

    /** leaveRoom: a no-op unless it names the current room; then back to the empty record. */
    method LeaveRoom(roomId: Option<string>)
      modifies this`currentRoomId, this`isHost, this`participantCount, this`roomUrl
      ensures roomId != old(currentRoomId) ==>
                currentRoomId == old(currentRoomId) && isHost == old(isHost) &&
                participantCount == old(participantCount) && roomUrl == old(roomUrl)
      ensures roomId == old(currentRoomId) ==>
                currentRoomId == None && !isHost && participantCount == 1 && roomUrl == None
    {
      if roomId != currentRoomId {
        return;
      }
      currentRoomId := None;
      isHost := false;
      participantCount := 1;
      roomUrl := None;
    }

    /** updateParticipantCount: store the count and tell the popup. */
    method UpdateParticipantCount(count: int)
      modifies this`participantCount, this`popupOutbox
      ensures participantCount == count
      ensures popupOutbox == old(popupOutbox) + [count]
    {
      participantCount := count;
      popupOutbox := popupOutbox + [count];
    }

    /** The roleChange case: the host flag follows the request only for the current room. */
    method RoleChange(roomId: Option<string>, host: bool)
      modifies this`isHost
      ensures isHost == (if roomId == currentRoomId then host else old(isHost))
    {
      if roomId == currentRoomId {
        isHost := host;
      }
    }
  }

  // ---------------------------------------------------------------
  // TabManager
  // ---------------------------------------------------------------

  /** The registry of streaming-site tabs, from tab id to URL. */
  class TabManager {
    var tabRegistry: map<TabId, string>

    constructor()
      ensures tabRegistry == map[]
    {
      tabRegistry := map[];
    }

    /**
     * handleTabUpdate on a completed load: a tab without a URL is ignored;
     * otherwise the tab is registered with its URL when it is a streaming
     * site and unregistered when it is not.
     */
    method HandleTabUpdate(tabId: TabId, url: Option<string>)
      modifies this`tabRegistry
      ensures !Truthy(url) ==> tabRegistry == old(tabRegistry)
      ensures Truthy(url) ==> (tabId in tabRegistry <==> IsSupportedUrl(url.value))
      ensures tabId in tabRegistry && Truthy(url) ==> tabRegistry[tabId] == url.value
      ensures forall t :: t != tabId ==> (t in tabRegistry <==> t in old(tabRegistry))
      ensures forall t :: t != tabId && t in tabRegistry ==> tabRegistry[t] == old(tabRegistry)[t]
    {
      if !Truthy(url) {
        return;
      }
      if IsSupportedUrl(url.value) {
        tabRegistry := tabRegistry[tabId := url.value];
      } else {
        tabRegistry := tabRegistry - {tabId};
      }
    }

    /** onRemoved: only the closed tab leaves the registry. */
    method OnTabRemoved(tabId: TabId)
      modifies this`tabRegistry
      ensures tabId !in tabRegistry
      ensures forall t :: t != tabId ==> (t in tabRegistry <==> t in old(tabRegistry))
      ensures forall t :: t != tabId && t in tabRegistry ==> tabRegistry[t] == old(tabRegistry)[t]
    {
      tabRegistry := tabRegistry - {tabId};
    }

    /**
     * refreshTabRegistry: start from an empty registry and register every
     * tab the query returns; when the query fails (None) the registry
     * stays empty.
     */
    method RefreshTabRegistry(found: Option<seq<Tab>>)
      modifies this`tabRegistry
      ensures found.None? ==> tabRegistry == map[]
      ensures found.Some? ==> tabRegistry == Registered(found.value)
    {
      tabRegistry := map[];
      if found.None? {
        return;
      }
      var tabs := found.value;
      var i := 0;
      while i < |tabs|
        invariant 0 <= i <= |tabs|
        invariant tabRegistry == Registered(tabs[..i])
      {
        assert tabs[..i + 1][..i] == tabs[..i];
        tabRegistry := tabRegistry[tabs[i].id := tabs[i].url];
        i := i + 1;
      }
      assert tabs[..|tabs|] == tabs;
    }

    /** getAllTabIds: the registered ids, ascending, as Object.keys lists integer keys. */
    method GetAllTabIds() returns (ids: seq<TabId>)
      ensures ids == SortedKeys(tabRegistry.Keys)
      ensures StrictlyIncreasing(ids)
      ensures forall t :: t in ids <==> t in tabRegistry
    {
      var rest := tabRegistry.Keys;
      ids := [];
      while rest != {}
        invariant ids + SortedKeys(rest) == SortedKeys(tabRegistry.Keys)
        decreases |rest|
      {
        SetHasMin(rest);
        var m :| m in rest && forall y :: y in rest ==> m <= y;
        assert m == SetMin(rest);
        assert SortedKeys(rest) == [m] + SortedKeys(rest - {m});
        ids := ids + [m];
        rest := rest - {m};
      }
      SortedKeysListsTheSet(tabRegistry.Keys);
    }
  }

  /**
   * relayVideoEvent: send the event to every registered tab but the
   * sender's, in Object.keys order; sender is None when the request did not
   * come from a tab, and answering is the set of tabs whose content script
   * answers the ping.
   */
  method RelayVideoEvent(tabs: TabManager, sender: Option<TabId>, e: EventType, d: EventData,
                         answering: set<TabId>) returns (sends: seq<TabSend>)
    ensures sends == RelaySends(SortedKeys(tabs.tabRegistry.Keys), sender, answering, e, d)
  {
    var ids := tabs.GetAllTabIds();
    sends := SendToTabs(ids, sender, e, d, answering);
  }

  /** The forEach of relayVideoEvent over a list of tab ids. */
  method SendToTabs(ids: seq<TabId>, sender: Option<TabId>, e: EventType, d: EventData,
                    answering: set<TabId>) returns (sends: seq<TabSend>)
    ensures sends == RelaySends(ids, sender, answering, e, d)
  {
    sends := [];
    var i := 0;
    while i < |ids|
      invariant 0 <= i <= |ids|
      invariant sends == RelaySends(ids[..i], sender, answering, e, d)
    {
      assert ids[..i + 1][..i] == ids[..i];
      var t := ids[i];
      if Some(t) != sender {
        sends := sends + [TabSend(t, PingTab)];
        if t in answering {
          sends := sends + [TabSend(t, VideoCommand(e, d))];
        }
      }
      i := i + 1;
    }
    assert ids[..|ids|] == ids;
  }

  /**
   * Over the registry's ids in Object.keys order, the relay reaches exactly
   * the registered tabs other than the sender's.
   */
  lemma RelayReachesOtherRegisteredTabs(keys: set<TabId>, sender: Option<TabId>, answering: set<TabId>,
                                        e: EventType, d: EventData)
    ensures forall s :: s in RelaySends(SortedKeys(keys), sender, answering, e, d) ==>
              s.tab in keys && Some(s.tab) != sender
    ensures forall t :: t in keys && Some(t) != sender ==>
              TabSend(t, PingTab) in RelaySends(SortedKeys(keys), sender, answering, e, d) &&
              (TabSend(t, VideoCommand(e, d)) in RelaySends(SortedKeys(keys), sender, answering, e, d) <==>
               t in answering)
  {
    SortedKeysListsTheSet(keys);
    RelayTargetsOtherTabs(SortedKeys(keys), sender, answering, e, d);
  }
}
