# CurryParty watch-party core, modelled in Dafny

CurryParty is a browser extension that keeps one video in sync across a
group of people. Each tab on a streaming site runs a content script whose
session object, `CurryPartyManager`, does three things. It joins a PeerJS
star: clients dial only the host, and the host relays between them. It turns local `play`/`pause`/`seeked`
events into debounced `videoEvent` messages. It applies the commands it
receives, and one-shot flags stop those commands from echoing back. A
background service worker keeps the room record: id, host flag,
participant count and room URL. It also keeps a registry of streaming-site
tabs and relays video events between tabs.

This project models that core in Dafny 4.11 and proves properties of the
model.

- `common.dfy`: Option, minimum, absolute value, and the string searches
  the source relies on (`indexOf`, `includes`, first-match `replace`).
- `urls.dfy`: `getBaseUrl` and `isSameDomain`. The browser's URL parser is
  a parameter: it either rejects a string or yields its `href` and
  `hostname`.
- `protocol.dfy`: the wire messages and the pure decision rules. These are
  the debounce, the reconnect backoff, the peer ids, fan-out and farewells,
  the participant count, and how an inbound command drives the video
  (generic and Netflix branches). Also cross-site isolation and the
  room-URL rules.
- `session.dfy`: the class `PartyManager`. Its fields are those of
  `CurryPartyManager`, and its methods mirror the handlers. Everything the
  session sends is appended to an outbox:
  - `outbox`: peer connections;
  - `netflixOutbox`: the Netflix page bridge;
  - `runtimeOutbox`: the background script.

  The transport is not modelled; these are parameters:
  - `open`: the set of connections whose `conn.open` holds;
  - `now`: the time in milliseconds;
  - `suffix`: the random part of a client id;
  - `peerLoaded`: whether the PeerJS library is present;
  - `href`: the page location.
- `background.dfy`: the classes `RoomManager` and `TabManager`, the
  `roleChange` guard and `relayVideoEvent`. The answer of the
  `chrome.tabs` query and the set of tabs that answer a ping are
  parameters. The video events sent to tabs are returned.
- `scenarios.dfy`: short runs, each stated as the exact result it
  produces.

A timer callback is a method that the environment calls when the timer
fires; the model does not track delays. The pending work is counted on
fields:
- `pendingPlayChecks` and `pendingPauseChecks` are the 100 ms checks;
- `seekPending` is the 100 ms seek timer and `seekFollowUps` its 200 ms
  follow-ups;
- `reconnectTimer` is the backoff delay of the pending reconnect;
- the running intervals are boolean fields.

`PartyManager.Valid()` is the object invariant, and every state-changing
handler that can affect it keeps it. It says:
- the count includes the local participant;
- registry entries are keyed by their id;
- every live connection belongs to an active registry entry;
- a pending reconnect timer carries the backoff delay of its attempt;
- a Peer exists only within the init-attempt cap.

## Model

| member | source | states |
|---|---|---|
| Urls.StripQueryAndFragment | js/content.js:219-228 | cuts the href at its first '?', otherwise at its first '#'. The result is a prefix without '?', the cut falls exactly on the separator, and an href with neither separator is returned whole |
| Urls.GetBaseUrl | js/content.js:214-233 | an input the parser rejects comes back unchanged. Otherwise the result is a prefix of the parsed href with no '?', and equals the href when it has no '?' and no '#' |
| Urls.IsSameDomain | js/content.js:200-212 | false unless both URLs are present and non-empty and both parse; then true exactly when the two hostnames are equal |
| Urls.SameDomainIsPartialEquivalence | js/content.js:200-212 | same-domain is symmetric and transitive |
| Urls.SameDomainReflexiveOnParsable | js/content.js:200-212 | a URL is on its own domain exactly when it is present, non-empty and parses (null, "" and an unparsable URL compare false) |
| Urls.QueryInsideFragmentKeepsFragment | js/content.js:219-228 | a '?' inside the fragment makes the cut keep the fragment ("p#f?q" becomes "p#f"). Cutting again gives "p", so cutting is not idempotent |
| Common.ReplaceFirst | js/background.js:181 | without an occurrence the string comes back unchanged; otherwise the first occurrence, the position indexOf reports, and only it, is replaced, so the length changes by the difference of the two lengths |
| Protocol.BackoffDelay | js/content.js:1034 | the reconnect delay lies between 1000 and 30000 ms |
| Protocol.BackoffSchedule | js/content.js:1034 | the delays are 1000, 2000, 4000, 8000 and 16000 ms, then 30000 ms from the sixth attempt on |
| Protocol.BackoffMonotone | js/content.js:1034 | the delay never shrinks from one attempt to the next |
| Protocol.IsDuplicate | js/content.js:508 | an event is a repeat only of the last accepted type, and then exactly when it comes less than 700 ms after it |
| Protocol.HostId | js/content.js:635 | the host id is the prefix "curryparty-host-" followed by the room id, and nothing else |
| Protocol.ClientId | js/content.js:644 | a client id starts with "curryparty-peer-r" |
| Protocol.HostIdInjective | js/content.js:635 | two rooms never share a host id, so a client dials exactly its own room's host |
| Protocol.ClientIdIsNeverHostId | js/content.js:635-644 | no client id equals any host id |
| Protocol.FanOut | js/content.js:538-553 | a fan-out has at most as many sends as the list has connections |
| Protocol.FanOutSound | js/content.js:538-553 | every send of a fan-out carries the message unchanged, goes to an open connection of the list, and never to the excluded one |
| Protocol.FanOutComplete | js/content.js:538-553 | every open, non-excluded connection of the list receives the message |
| Protocol.FanOutSkipsSender | js/content.js:841-847 | a relayed event never goes back to the connection it came from |
| Protocol.DistinctHandlesCountOnce | js/content.js:538-553 | in a list without repeated handles a handle occurs once when it occurs at all |
| Protocol.FanOutOncePerConnection | js/content.js:538-553 | a handle receives as many copies of the message as it has connections in the list when it is open and not excluded, and none otherwise |
| Protocol.FanOutExactlyOnce | js/content.js:538-553 | with distinct handles, each open non-excluded connection receives exactly one copy and every other handle none |
| Protocol.Farewells | js/content.js:1062-1067 | cleanup sends at most two transmissions for each connection of the list, counted over the whole list |
| Protocol.FarewellsComplete | js/content.js:1062-1067 | every open connection is told `leave` and closed |
| Protocol.FarewellsSound | js/content.js:1062-1067 | nothing but `leave` is sent, and only open connections of the list are closed |
| Protocol.FarewellsPairLeaveWithClose | js/content.js:1064-1065 | each close directly follows the `leave` on the same connection |
| Protocol.FarewellsOncePerConnection | js/content.js:1062-1067 | an open handle is told `leave` once and closed once for each of its connections; a handle that is not open gets neither |
| Protocol.ActiveCount | js/content.js:1120 | the number of active registry entries is at most the registry's size |
| Protocol.OpenCount | js/content.js:1121 | the number of open connections is at most the list's length, and it is zero exactly when none is open |
| Protocol.ParticipantCount | js/content.js:1117-1124 | the count is at least one: one plus the active entries for a host, one plus the open connections for a client |
| Protocol.DeactivateLowersCount | js/content.js:738-744 | flagging an active entry inactive lowers the host's count by exactly one |
| Protocol.ActivateRaisesCount | js/content.js:720-727 | recording a peer as active raises the count by one unless the peer was already active |
| Protocol.Deactivated | js/content.js:738-741 | the entry is kept with `active` false, and every other entry is unchanged |
| Protocol.RegistryCountExample | js/content.js:1117-1124 | a host whose registry holds A active, B inactive and C active counts three |
| Protocol.WithoutPeer | js/content.js:736 | the filter keeps exactly the connections to other peers |
| Protocol.WithoutPeerDistributes | js/content.js:736 | the filter keeps relative order (it distributes over concatenation) |
| Protocol.WithoutAbsentPeerIsIdentity | js/content.js:736 | filtering out a peer that has no connection leaves the list as it was |
| Protocol.FindByPeer | js/content.js:1196 | a found connection belongs to the peer |
| Protocol.FindByPeerFirstMatch | js/content.js:1196 | find yields nothing exactly when no connection matches, and otherwise the first match |
| Protocol.KickMessages | js/content.js:1196-1211 | three or four transmissions, all on the kicked connection: a pause at our position first when we have a video, then the kick, `leave` and the close, in that order |
| Protocol.ApplyGeneric | js/content.js:965-1020 | flags are only raised, and each programmatic change raises its flag. `play` acts only when paused and `pause` only when playing. `seek` moves only beyond 0.5 s and `sync` only beyond 2 s; `sync` then adopts the sent state. Unknown commands change nothing |
| Protocol.ApplyNetflix | js/content.js:874-961 | commands become bridge messages and the element is untouched except by a sync to paused. Play is posted only when paused and pause only when playing. A seek is posted in ms. A sync seeks exactly when the gap in ms exceeds 2, posts play exactly when it asks for playing on a paused video, and posts pause exactly when it asks for paused on a playing one |
| Protocol.ApplyCommand | js/content.js:870-1022 | with sync disabled or no video nothing changes. Netflix keeps the flags and only appends bridge messages. Other sites leave the bridge alone and follow the generic branch |
| Protocol.NetflixSyncThresholdIsMilliseconds | js/content.js:919-922 | a 10 ms gap makes the Netflix branch seek and leaves the generic branch in place |
| Protocol.CompatibilityAction | js/content.js:143-198 | outside a room, without a room URL or on the room URL, nothing happens. Off it, a host republishes exactly when the page is on the room's domain, and a client is offered the room URL |
| Protocol.RoomUrlReceipt | js/content.js:789-818 | on the room URL, nothing. Otherwise the redirect is automatic exactly when it is forced and on the same domain; in every other case it is offered. The target is the received URL |
| Protocol.HostRepublishesOnlyWithinDomain | js/content.js:155-186 | a host off the room URL republishes its page when on the same domain, and does nothing otherwise |
| Protocol.NoAutoRedirectAcrossDomains | js/content.js:797-812 | a client is never redirected automatically to another domain |
| Protocol.CrossSiteEcho | js/content.js:829-836 | a message is dropped only when it carries our own non-empty user id and a named site other than ours; an anonymous sender, an unnamed site, our own site or another user is never dropped |
| Protocol.NeedsResync | js/content.js:497 | a change of play state always resends; with the same state the tick resends exactly when the position moved more than 3 s either way |
| Protocol.LivenessLapsed | js/content.js:612 | before the first pong the window never lapses; afterwards it lapses exactly when more than 4000 ms have passed |
| Session.PartyManager.constructor | js/content.js:7-52 | the object literal's initial fields, with the detected site and the current URL; the invariant holds |
| Session.PartyManager.ObserveVideo | js/content.js:365-397 | the video element the monitor found (or lost) is the one the session now reads |
| Session.PartyManager.OnUserId | js/content.js:296-300 | the background's user id is adopted |
| Session.PartyManager.SendToOpen | js/content.js:540-552 | the outbox grows by exactly the fan-out of the message to the open, non-excluded connections |
| Session.PartyManager.UpdateParticipantCount | js/content.js:1117-1134 | the count is recomputed from the registry (host) or the open links (client) and sent to the background; the invariant is kept |
| Session.PartyManager.SendVideoEvent | js/content.js:505-536 | the recorded event, the outbox, the reconnect attempts, the timer and the status become exactly `Announce` of their old values (see the three `Announce` lemmas), and the invariant is kept |
| Session.Backoff | js/content.js:1024-1043 | one more attempt, nothing sent and the event record kept; a timer exactly while the attempts are within ten, carrying that attempt's delay of one to thirty seconds with the status kept, and otherwise no timer and the connection-lost status |
| Session.Deliver | js/content.js:515-535 | the event record is kept and nothing changes without a Peer; the outbox only grows, by at most one send per connection; the attempts move only by a full `Backoff`, and otherwise timer and status stay |
| Session.Announce | js/content.js:505-536 | sync off or a repeat inside the debounce window changes nothing; any change records this event at this time; the outbox only grows, by at most one send per connection |
| Session.PartyManager.DeliverVideoEvent | js/content.js:515-535 | the same fields become exactly `Deliver` of their old values: nothing without a Peer, a fan-out by a host, a send on an open first connection by a client, and otherwise a backoff |
| Session.AnnounceDebounces | js/content.js:505-513 | an accepted event records its type and time; a repeat of that type less than 700 ms later changes nothing, and another type or a later repeat is accepted |
| Session.AnnounceSends | js/content.js:515-531 | only the local video event is appended, only for open connections, and only once the event is accepted with a Peer. A client appends at most one send, on its first connection; a host reaches every open connection |
| Session.AnnounceBacksOff | js/content.js:1024-1043 | attempts grow, by exactly one, only for a client with a Peer whose first connection is missing or closed. Then the outbox is unchanged and either the backoff timer of that attempt is set or, past ten, there is no timer and the status reads connection lost. Otherwise timer and status stay. A pending timer keeps carrying the delay of its attempt |
| Session.PartyManager.BroadcastRoomUrl | js/content.js:278-294 | a host sends the room URL with a forced redirect to every open connection; a client sends nothing |
| Session.PartyManager.HandlePlayEvent | js/content.js:437-450 | a raised `remotePlay` is cleared and nothing is queued. Otherwise one 100 ms check is queued. With sync off nothing happens |
| Session.PartyManager.HandlePauseEvent | js/content.js:452-464 | a raised `remotePause` is cleared and nothing is queued. Otherwise one 100 ms check is queued. With sync off nothing happens |
| Session.PartyManager.HandleSeekEvent | js/content.js:466-488 | a raised `remoteSeek` is cleared and nothing is scheduled. Otherwise the seek timer is (re)started. With sync off nothing happens |
| Session.PartyManager.PlayCheckFired | js/content.js:444-449 | one pending play timer is consumed. A playing video goes through the whole of `Announce` with `play` at its position, for host and client alike; otherwise nothing is sent or recorded |
| Session.PartyManager.PauseCheckFired | js/content.js:459-463 | one pending pause timer is consumed. A paused video goes through the whole of `Announce` with `pause` at its position, for host and client alike; otherwise nothing is sent or recorded |
| Session.PartyManager.SeekTimerFired | js/content.js:475-487 | the timer is consumed. With a video, `seek` at its position goes through `Announce` and one follow-up is queued; without one nothing is sent, recorded or queued |
| Session.PartyManager.SeekFollowUpFired | js/content.js:480-485 | the follow-up is consumed. With a video, `pause` or `play`, whichever matches its state, goes through `Announce` at its position; without one nothing changes |
| Session.PartyManager.StartPeriodicSync | js/content.js:490-493 | the sync interval runs |
| Session.PartyManager.PeriodicSyncTick | js/content.js:493-502 | the tick resends only on drift over 3 s or a change of play state, through `Announce` with `sync`, position and state, and then records what it sent; otherwise nothing changes |
| Session.PartyManager.HandleVideoCommand | js/content.js:870-1022 | the video, the flags and the bridge messages change exactly as `ApplyCommand` says |
| Session.PartyManager.NetflixCommand | js/content.js:874-961 | the video and the bridge messages change exactly as `ApplyNetflix` says |
| Session.PartyManager.GenericCommand | js/content.js:965-1020 | the video and the flags change exactly as `ApplyGeneric` says |
| Session.PartyManager.ScheduleReconnect | js/content.js:1024-1043 | attempts grow by exactly one. Within ten, a timer is set with that attempt's backoff delay; past ten, there is no timer and the status reads connection lost |
| Session.PartyManager.CleanupPeerConnection | js/content.js:1056-1073 | every timer and interval stops. Every open connection gets `leave` and a close, and the connections and the Peer are dropped |
| Session.PartyManager.SendFarewells | js/content.js:1062-1067 | the outbox grows by exactly the farewells of the connection list |
| Session.PartyManager.InitializePeerConnection | js/content.js:619-654 | without PeerJS nothing of the link changes. Otherwise it cleans up and counts the attempt. Past five attempts it gives up with a status. Within five it listens with liveness started, as the room's host id or a client id |
| Session.PartyManager.OnPeerOpen | js/content.js:657-700 | the health check starts. A host shows it is connected; a client dials its room's host id |
| Session.PartyManager.HealthCheckTick | js/content.js:1045-1054 | a missing or disconnected Peer counts one more attempt and arms the backoff timer of that attempt, or past ten leaves no timer and shows connection lost; a healthy one changes nothing |
| Session.PartyManager.ReconnectTimerFired | js/content.js:1035-1042 | the timer is gone. Outside a room nothing else changes. In a room the Peer is torn down and rebuilt, and the status shows the attempt |
| Session.PartyManager.RebuildPeer | js/content.js:1036-1041 | the old connections get farewells and are dropped, and `peerInitialized` is cleared. At most one init attempt is counted. A Peer exists exactly when PeerJS is loaded and the cap holds |
| Session.PartyManager.HandleNewConnection | js/content.js:715-727 | the connection is appended and its peer recorded as active at `now`; the count is refreshed and the invariant kept |
| Session.PartyManager.OnHostConnectionOpen | js/content.js:683-692 | a client registers its host link, recounts and tells the background the count, then sends `syncRequest` and `roomUrlRequest`, in that order |
| Session.PartyManager.OnConnectionClose | js/content.js:734-745 | every connection to the peer goes and its entry is kept but flagged inactive; the count is refreshed |
| Session.PartyManager.DropPeer | js/content.js:736-741 | the connection list loses exactly the peer's connections, and the registry only deactivates its entry |
| Session.PartyManager.RemovePeer | js/content.js:1186-1216 | an empty id changes nothing, count and status included. Otherwise the first open connection to the peer receives a pause at our position (when we have a video), the kick and `leave`, and is then closed. The peer is deactivated and dropped, and the count refreshed and sent |
| Session.PartyManager.KickAndDrop | js/content.js:1190-1213 | the kick messages go to the first open connection to the peer; then its connections are gone and its entry is inactive |
| Session.PartyManager.KickPeer | js/content.js:1196-1212 | the kick messages go to the first connection to the peer, and only when it is open |
| Session.PartyManager.LivenessTick | js/content.js:590-616 | every open connection is pinged. The count is refreshed only in the first second of every five. The pong window lapses after four seconds |
| Session.HandledIncoming | js/content.js:748-868 | any outcome it admits keeps the old outbox as a prefix and adds at most two replies plus one relay per connection; for every message but a video event, everything added is a send back to the sender |
| Session.PartyManager.HandleIncomingData | js/content.js:748-868 | `HandledIncoming` of the fields before and after: one result per message type. `syncRequest` gets state, then the room URL, from a host with a video. `roomUrlRequest` gets a forced room URL only from a host with a URL. `syncResponse` applies a sync. `roomUrl` follows `RoomUrlReceipt`. A cross-site echo does nothing. Any other video event is applied, acknowledged and, by a host, relayed to the other open links. `ping` gets a pong, and `pong` stamps the time. Each case leaves the other fields alone |
| Session.PartyManager.AnswerRequest | js/content.js:751-782 | the request branches meet `HandledIncoming`: state and room URL for `syncRequest`, the forced room URL for `roomUrlRequest`, and a pong for a ping |
| Session.PartyManager.ReceiveSyncResponse | js/content.js:783-788 | the host's position and state are applied as a sync command, meeting `HandledIncoming` |
| Session.PartyManager.ReceiveRoomUrl | js/content.js:789-818 | the URL is stored and the navigation follows `RoomUrlReceipt`, meeting `HandledIncoming` |
| Session.PartyManager.ApplyRemoteEvent | js/content.js:838-847 | the command is applied, the ack is sent first, and then a host fans the message out to every other open connection; this meets `HandledIncoming` |
| Session.PartyManager.OnConnectionData | js/content.js:729-733 | the message is handled exactly as `HandledIncoming` says, then only the sender's `lastSeen` changes in the registry, and the invariant is kept |
| Session.PartyManager.StampPeer | js/content.js:731 | only the peer's `lastSeen` changes, and the invariant is kept |
| Session.PartyManager.CheckUrlCompatibility | js/content.js:143-198 | a republish asks the background to store the page, an offer puts the room URL in front of the user, and otherwise nothing happens |
| Session.PartyManager.HandleUrlChange | js/content.js:129-141 | the new location is stored; compatibility is re-examined only when it changed while in a room with a URL, and a republish leaves the navigation alone while an offer sends nothing to the background |
| Session.PartyManager.OnSetRoomUrlResponse | js/content.js:163-175 | a successful reply adopts the stored URL, and a host pushes it to its peers with a forced redirect |
| Session.PartyManager.OnRoomUpdate | js/content.js:1246-1273 | the room, the host flag and `syncEnabled` are adopted. Leaving drops every link. Joining from no room builds a Peer within the cap. Staying with an initialised Peer keeps the links. The count starts again from one and is recomputed |
| Session.PartyManager.ChangeRoom | js/content.js:1247-1269 | the three branches: join when newly in a room or not initialised, leave when the room id is empty, and otherwise only adopt. On join a client whose page is not the room URL is offered the room URL |
| Session.PartyManager.AdoptRoom | js/content.js:1248-1251 | the room id, host flag and room URL are taken from the message, and sync is on exactly in a room |
| Session.PartyManager.LeavePeerNetwork | js/content.js:1265-1269 | no room, no link, no timer and no room URL: every open link got its farewells |
| Session.PartyManager.JoinPeerNetwork | js/content.js:1253-1264 | the room is adopted, the Peer is marked initialised and built, and a client off the room URL is offered it |
| Session.PartyManager.BuildPeer | js/content.js:1254-1264 | the Peer is marked initialised and built: at most one attempt; connections dropped when PeerJS is loaded. It listens as the room's host id or a client id. The offer follows `GetBaseUrl` of the location |
| Session.PartyManager.OfferReturn | js/content.js:1258-1263 | a client in a room with a URL is offered the room URL exactly when its page's base URL differs from it |
| Background.PatternsFor | js/background.js:5-14 | each host becomes the one pattern "*://*.<host>/*", in order |
| Background.IndexOfPastHead | js/background.js:181 | `indexOf` finds a pattern right after a head that lacks the pattern's first character |
| Background.ReplaceAtIndex | js/background.js:181 | where indexOf locates the pattern, replace splices the replacement in at exactly that position |
| Background.StripScheme | js/background.js:181 | the first replace turns "*://*." + host + "/*" into host + "/*" |
| Background.StripTail | js/background.js:181 | the second replace removes the trailing "/*" of a host without a slash, leaving the host |
| Background.StemOfPattern | js/background.js:181 | stripping "*://*." and then "/*" from a pattern gives back its host |
| Background.StemsOfPatterns | js/background.js:181 | patterns built from slash-free hosts strip back to those hosts, position by position |
| Background.HostsHaveNoSlash | js/background.js:5-14 | no supported host name contains '/' |
| Background.SupportedStemsAreHosts | js/background.js:5-14 | the eight patterns strip to the eight host names |
| Background.IsSupportedUrl | js/background.js:179-182 | a tab counts as a streaming-site tab exactly when its URL contains one of the eight host names |
| Background.Stem | js/background.js:181 | the stem is never longer than the pattern, and a string with neither "*://*." nor "/*" in it is its own stem |
| Background.SomeStemIsSomeHost | js/background.js:179-182 | when patterns strip to hosts position by position, a URL contains some stem exactly when it contains some host |
| Background.MatchAtIsContained | js/background.js:181 | a pattern occurring at some position is found by `includes` |
| Background.ContainsSuffix | js/background.js:181 | `includes` of a concatenation implies `includes` of its tail |
| Background.HbomaxImpliesMax | js/background.js:12-13 | every URL matched by the hbomax.com pattern is also matched by max.com |
| Background.SetHasMin | js/background.js:205 | every non-empty set of tab ids has a least element |
| Background.SetMin | js/background.js:205 | the least tab id of a non-empty set |
| Background.SortedKeys | js/background.js:205 | the listing has one entry per registered tab |
| Background.SortedKeysListsTheSet | js/background.js:205 | `Object.keys` lists every registered tab exactly once, in ascending order |
| Background.Registered | js/background.js:195-197 | the last answered tab is registered with its own URL |
| Background.RegisteredLastWins | js/background.js:195-197 | the rebuilt registry holds exactly the answered tabs, each with the URL of its last occurrence |
| Background.RelayTargetsOtherTabs | js/background.js:261-277 | the relay never reaches the sender. Every other listed tab gets a ping, and a tab gets the unchanged command exactly when it answers |
| Background.RelaySends | js/background.js:263-276 | at most a ping and a command per listed tab |
| Background.RoomManager.constructor | js/background.js:19-23 | the record starts with no room, not host, one participant and no URL |
| Background.RoomManager.CreateRoom | js/background.js:42-69 | the room is set, with us as host and one participant. The room URL is the base URL of the given URL, or null when none is given. The callback gets that URL |
| Background.RoomManager.JoinRoom | js/background.js:74-78 | the room is set, as client with one participant; the room URL is kept |
| Background.RoomManager.SetRoomUrl | js/background.js:114-120 | stores and returns exactly the base URL: a prefix of the parsed href without '?', or the input when it does not parse |
| Background.RoomManager.LeaveRoom | js/background.js:122-129 | a different id leaves everything as it was; the current id resets the room, host flag, count and URL |
| Background.RoomManager.UpdateParticipantCount | js/background.js:138-153 | the count is stored and also sent to the popup |
| Background.RoomManager.RoleChange | js/background.js:357-361 | the host flag follows the request exactly when it names the current room |
| Background.TabManager.constructor | js/background.js:159-160 | the registry starts empty |
| Background.TabManager.HandleTabUpdate | js/background.js:176-188 | with no URL, nothing changes. Otherwise the tab is registered with its URL exactly when the URL contains a supported stem, and every other entry is untouched |
| Background.TabManager.OnTabRemoved | js/background.js:171-173 | only the closed tab leaves the registry |
| Background.TabManager.RefreshTabRegistry | js/background.js:190-202 | the registry is rebuilt from the query's answer alone, and stays empty when the query fails |
| Background.TabManager.GetAllTabIds | js/background.js:204-206 | the registered ids, each once, in ascending order |
| Background.RelayVideoEvent | js/background.js:261-277 | the sends are the relay over the registry's ids in `Object.keys` order |
| Background.SendToTabs | js/background.js:263-275 | the loop's sends are exactly the relay specification over the list |
| Background.RelayReachesOtherRegisteredTabs | js/background.js:261-277 | over the registry, the relay reaches exactly the registered tabs other than the sender's, and it delivers the command exactly to those that answer the ping |
| Scenarios.HostWithOneConnection | js/content.js:715-727 | a room update as host followed by one incoming connection leaves a valid host session with exactly that connection |
| Scenarios.DebounceRun | js/content.js:505-536 | `play` at 1000, 1500 and 1700 ms: the first and the third go out unchanged, and the repeat inside the 700 ms window is dropped |
| Scenarios.FanOutToOne | js/content.js:538-553 | a host with one open connection sends the message on that connection and nowhere else |
| Scenarios.EchoRun | js/content.js:437-472 | a remote `play` with a position starts a paused video there, and the `play` and `seeked` events it raises are swallowed by their flags |
| Scenarios.RoomRun | js/background.js:122-129 | a role change and a leave for another room are ignored; a leave for the own room empties the record |
| Scenarios.TwoTabsInOrder | js/background.js:204-206 | tabs 1 and 2 are listed as [1, 2] |
| Scenarios.RelayFromFirstOfTwo | js/background.js:261-277 | a relay from tab 1 over [1, 2], with tab 2 answering, sends a ping and the command to tab 2 only |
| Scenarios.RelayRun | js/background.js:261-277 | a refresh that finds tabs 1 and 2, then a relay from tab 1, reaches tab 2 only |

## Left out

- The PeerJS transport (the `Peer` constructor, `connect`, `destroy`, connection objects): sends and closes are outbox entries. `conn.open` is the `open` parameter, and transport events are method calls.
- `setTimeout`/`setInterval` delays: each timer is a method the environment calls. The model counts what is pending, but not when it fires.
- Clearing pending 100 ms play/pause checks: the source never cancels them either. Only the seek timer restarts, and it is modelled as the boolean `seekPending`.
- Floating point: times are `real`, so the model has no rounding.
- The random part of a client id is the parameter `suffix`.
- The DOM and UI: `addUI`, `updateUIStatus` (only its message is modelled, as `status`), `updateLivenessIndicator`, `showNotification`, the redirect dialog (only the offer is modelled, as `navigation`), `findVideoElement`, `detectSite`, the MutationObserver and history patching.
- A scheduled forced redirect is recorded as `AutoRedirect` in `navigation`; the page load itself is not modelled.
- `safeInitialize`/`initialize` and `checkCurrentRoom` (js/content.js:54-97 and 559-585): start-up wiring and a callback that repeats the join logic of `roomUpdate`. The model starts from the constructor instead.
- Liveness colour and `lastVideoEventResponseTimestamp`: UI only. `LivenessTick` reports whether the pong window lapsed instead of recolouring.
- `getPeerRegistry`, `ping` and the other `sendResponse` replies of the content script's message listener: the replies change no state. The `getPeerRegistry` reply reads the peer registry.
- `chrome.storage` persistence in background.js (`init` restore, the stored copies, `UserManager`): asynchronous I/O.
- `BroadcastHelper.notifyAllTabsOfRoomChange`, `ensureContentScriptLoadedAndNotify` and `sendRoomUpdate`: tab script injection and asynchronous callbacks. Their effect on a tab is `OnRoomUpdate`.
- The background's message switch: only the fields the cases change are modelled, plus the `baseUrl` returned to `createRoom`/`setRoomUrl`.
- Background.RelayVideoEvent: ping callbacks run asynchronously in the source, so the order between different tabs' messages is not fixed. The model returns them grouped per tab, in id order.
- Session.PartyManager.OnConnectionData: requires the sender's registry entry. The source would throw without one, and every connection's entry is created by `handleNewConnection`.
- Session.PartyManager.HandleIncomingData: messages without a `type`, `syncResponse` without `data`, and a `videoEvent` without `event.data` are not modelled. On a non-Netflix site the source throws on the missing data. A remote `play` to a paused video first raises `remotePlay`, so the video stays paused with the flag set. A remote `pause` to a playing video first raises `remotePause`, so the video keeps playing and the flag swallows the next local pause. `seek` and `sync` throw before changing anything; The model cannot express the missing data: its nearest input, no position, plays or pauses the video as asked. `Unrecognized` stands for any other type.
- The JavaScript `null`/`undefined` distinction: both are `None`. An empty string and null are both "no room" in the session (`currentRoomId == ""`).
- Background.TabManager.RefreshTabRegistry: the source empties the registry and then awaits the tab query. A relay, tab update or tab removal handled during that wait sees an empty or partial registry, so such a relay reaches no tab. The model makes the clearing and the refill one step.
- Background.RoomManager.LeaveRoom: `null` and `undefined` are both `None`. With no room, the source ignores a leave without an id (`undefined !== null`), while the model treats it as a leave and resets the host flag, the count and the room URL.
- Background.RoomManager.RoleChange: likewise, with no room the source ignores a role change without an id (`undefined === null` is false), while the model takes the host flag from it.
- Video listeners: the model handles each native `play`, `pause` and `seeked` event once. In the source `setupVideoListeners` removes handlers with freshly bound functions, which removes nothing, and it runs from both the observer and the interval search. A video found by both gets two listener sets. A remote play then reaches two `play` handlers: the first clears `remotePlay`, and the second echoes the play back.
- Exceptions inside `try` blocks (a failing send, a failing `play()`): in the model every send and every `play()` succeeds.

## Behaviour as written

The model follows the code in these places:

- `reconnectAttempts` and `peerInitAttempts` are never reset, so after ten reconnects or five initialisations the session stays down until the page reloads.
- The Netflix sync branch compares a gap in milliseconds against 2, so it seeks once the drift exceeds 2 ms. The generic branch waits for 2 s (`NetflixSyncThresholdIsMilliseconds`).
- `roomUrlRequest` gets an answer only from a host that has a room URL. A client that asks too early gets nothing.
- `startPeriodicSync` is never started by the source; its call is commented out. It is modelled as the handler it would be.
- A reconnect writes "Reconnecting (attempt n)" after the rebuild, overwriting "Too many attempts" when the rebuild hit the cap.
- Leaving a room keeps `peerInitialized`. Only a reconnect clears it, so re-joining after a leave rebuilds the Peer only because the room was empty.
- `roomUpdate` compares the room URL with the base of `window.location.href`, not with `currentUrl`. The model passes `href` separately.
- `leaveRoom` compares with strict inequality, so a leave that carries no id leaves a room with an id untouched.
- The background's stem match uses `includes`. The hbomax.com pattern is therefore redundant (`HbomaxImpliesMax`), and "max.com" anywhere in a URL, for example in a query string, registers the tab.
