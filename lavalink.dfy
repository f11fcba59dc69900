/**
 * The Lavalink side of the music player: per-guild player state kept by the
 * client, the nodes it talks to, and the reactions to node frames.
 *
 * Player state changes are specified by functions on `PlayerState`; the
 * methods of `LavalinkClient` are proved to follow them, and the lemmas at the
 * end show what the functions guarantee (a consistent state, and the player
 * behaving as a FIFO of pending tracks whose head is playing).
 */
module Lavalink {
  import opened Wrappers

  const MinVolume: int := 0
  const MaxVolume: int := 1000
  const DefaultVolume: int := 100

  datatype TrackInfo = TrackInfo(
    identifier: string, isSeekable: bool, author: string, length: int, isStream: bool,
    position: int, title: string, uri: string, artworkUrl: string, sourceName: string)

  datatype Track = Track(encoded: string, info: TrackInfo)

  // -----------------------------------------------------------------------
  // Search results

  /** The `data` of a search response, already decoded in the shape its load type calls for. */
  datatype LoadData =
    | TrackList(tracks: seq<Track>)
    | SingleTrack(track: Track)
    | Playlist(name: string, tracks: seq<Track>)
    | Undecodable

  datatype LoadException = LoadException(message: string, severity: string)

  datatype SearchResult = SearchResult(loadType: string, data: LoadData, exception: Option<LoadException>)

  /** `SearchResult.GetTracks`: the tracks, by load type; a decode failure or another load type gives none. */
  function GetTracks(sr: SearchResult): (tracks: seq<Track>)
    ensures sr.loadType !in {"search", "track", "playlist"} ==> tracks == []
    ensures sr.data.Undecodable? ==> tracks == []
    ensures sr.loadType == "track" ==> |tracks| <= 1
    ensures sr.loadType == "search" && sr.data.TrackList? ==> tracks == sr.data.tracks
    ensures sr.loadType == "track" && sr.data.SingleTrack? ==> tracks == [sr.data.track]
    ensures sr.loadType == "playlist" && sr.data.Playlist? ==> tracks == sr.data.tracks
    ensures sr.loadType == "search" && !sr.data.TrackList? ==> tracks == []
    ensures sr.loadType == "track" && !sr.data.SingleTrack? ==> tracks == []
    ensures sr.loadType == "playlist" && !sr.data.Playlist? ==> tracks == []
  {
    match sr.loadType
    case "search" => if sr.data.TrackList? then sr.data.tracks else []
    case "track" => if sr.data.SingleTrack? then [sr.data.track] else []
    case "playlist" => if sr.data.Playlist? then sr.data.tracks else []
    case _ => []
  }

  // -----------------------------------------------------------------------
  // Player state and its transitions

  datatype PlayerState = PlayerState(
    textChannelId: string,
    voiceChannel: string,
    currentTrack: Option<Track>,
    queue: seq<Track>,
    volume: int,
    isPlaying: bool,
    isPaused: bool,
    position: int)

  /** A player as `GetPlayer` creates it: volume 100, empty queue, idle. */
  function FreshPlayerState(): PlayerState
  {
    PlayerState("", "", None, [], DefaultVolume, false, false, 0)
  }

  /**
   * The invariant every transition keeps: a player is playing exactly when it
   * has a current track, and it only has queued tracks while playing.
   */
  predicate Consistent(s: PlayerState)
  {
    (s.isPlaying <==> s.currentTrack.Some?) && (s.queue != [] ==> s.isPlaying)
  }

  /** The tracks still to be heard: the current one, then the queue in order. */
  function Pending(s: PlayerState): seq<Track>
  {
    (if s.currentTrack.Some? then [s.currentTrack.value] else []) + s.queue
  }

  /** The pending tracks once the head has been heard. */
  function Dequeued(pending: seq<Track>): seq<Track>
  {
    if pending == [] then [] else pending[1..]
  }

  /** The volume `SetVolume` stores: the input clamped to [MinVolume, MaxVolume]. */
  function ClampVolume(volume: int): (r: int)
    ensures MinVolume <= r <= MaxVolume
    ensures MinVolume <= volume <= MaxVolume ==> r == volume
    ensures forall w :: MinVolume <= w <= MaxVolume ==> Dist(r, volume) <= Dist(w, volume)
  {
    if volume < MinVolume then MinVolume else if volume > MaxVolume then MaxVolume else volume
  }

  function Dist(a: int, b: int): nat { if a < b then b - a else a - b }

  /** `Play` after a successful voice join: queue behind a playing track, or start it. */
  function StartOrEnqueue(s: PlayerState, track: Track): (r: PlayerState)
    ensures Consistent(s) ==> Consistent(r) && Pending(r) == Pending(s) + [track]
    ensures s.isPlaying ==> r.currentTrack == s.currentTrack
    ensures !s.isPlaying ==> r.currentTrack == Some(track) && r.isPlaying && r.queue == s.queue
  {
    if s.isPlaying then s.(queue := s.queue + [track])
    else s.(currentTrack := Some(track), isPlaying := true)
  }

  /** `Play`: the channels are recorded first; only a successful voice join touches playback. */
  function PlayState(s: PlayerState, voiceChannelId: string, textChannelId: string, track: Track, joined: bool): PlayerState
  {
    var s' := s.(voiceChannel := voiceChannelId, textChannelId := textChannelId);
    if joined then StartOrEnqueue(s', track) else s'
  }

  /** `Stop`: idle, nothing current, empty queue; volume and channels untouched. */
  function StopState(s: PlayerState): (r: PlayerState)
    ensures Consistent(r) && Pending(r) == []
    ensures r.volume == s.volume && r.isPaused == s.isPaused && r.voiceChannel == s.voiceChannel
  {
    s.(isPlaying := false, currentTrack := None, queue := [])
  }

  /** `Skip` and `handleTrackEnd` on a non-empty queue: the head becomes current; IsPlaying is not touched. */
  function AdvanceQueue(s: PlayerState): (r: PlayerState)
    requires s.queue != []
    ensures r.currentTrack == Some(s.queue[0]) && r.queue == s.queue[1..]
    ensures |r.queue| == |s.queue| - 1 && r.isPlaying == s.isPlaying
    ensures Consistent(s) ==> Consistent(r) && Pending(r) == Pending(s)[1..]
  {
    s.(currentTrack := Some(s.queue[0]), queue := s.queue[1..])
  }

  /** `Skip`: with an empty queue it is exactly `Stop`. */
  function SkipState(s: PlayerState): (r: PlayerState)
    ensures Consistent(s) ==> Consistent(r) && Pending(r) == Dequeued(Pending(s))
  {
    if s.queue == [] then StopState(s) else AdvanceQueue(s)
  }

  /** `handleTrackEnd`: the next queued track, or idle when the queue is empty. */
  function TrackEndState(s: PlayerState): (r: PlayerState)
    ensures Consistent(s) ==> Consistent(r) && Pending(r) == Dequeued(Pending(s))
    ensures s.queue == [] ==> !r.isPlaying && r.currentTrack == None
  {
    if s.queue == [] then s.(isPlaying := false, currentTrack := None) else AdvanceQueue(s)
  }

  /** One thing that can happen to a guild's player, as the client and the node events drive it. */
  datatype PlayerEvent =
    | PlayEvent(voiceChannelId: string, textChannelId: string, track: Track, joined: bool)
    | PauseEvent(pause: bool)
    | StopEvent
    | SkipEvent
    | VolumeEvent(volume: int)
    | TrackEndEvent
    | PositionEvent(position: int)

  function Step(s: PlayerState, e: PlayerEvent): PlayerState
  {
    match e
    case PlayEvent(voice, text, track, joined) => PlayState(s, voice, text, track, joined)
    case PauseEvent(pause) => s.(isPaused := pause)
    case StopEvent => StopState(s)
    case SkipEvent => SkipState(s)
    case VolumeEvent(volume) => s.(volume := ClampVolume(volume))
    case TrackEndEvent => TrackEndState(s)
    case PositionEvent(position) => s.(position := position)
  }

  function Run(s: PlayerState, events: seq<PlayerEvent>): PlayerState
    decreases |events|
  {
    if events == [] then s else Run(Step(s, events[0]), events[1..])
  }

  /** A player state every transition keeps: consistent, with the volume in range. */
  predicate Sound(s: PlayerState)
  {
    Consistent(s) && MinVolume <= s.volume <= MaxVolume
  }

  /** Whatever happens to a player after `GetPlayer` created it, its state stays sound. */
  lemma {:induction false} RunKeepsSound(s: PlayerState, events: seq<PlayerEvent>)
    requires Sound(s)
    ensures Sound(Run(s, events))
    decreases |events|
  {
    if events != [] {
      var e := events[0];
      match e {
        case PlayEvent(voice, text, track, joined) =>
          var s' := s.(voiceChannel := voice, textChannelId := text);
          assert Consistent(s');
        case _ =>
      }
      RunKeepsSound(Step(s, e), events[1..]);
    }
  }

  lemma EveryPlayerStaysSound(events: seq<PlayerEvent>)
    ensures Sound(Run(FreshPlayerState(), events))
  {
    RunKeepsSound(FreshPlayerState(), events);
  }

  // -----------------------------------------------------------------------
  // Node frames, already decoded from JSON

  datatype Json =
    | JString(str: string)
    | JNumber(num: int)
    | JBool(b: bool)
    | JNull
    | JArray(items: seq<Json>)
    | JObject(fields: map<string, Json>)

  function StringField(payload: map<string, Json>, key: string): Option<string>
  {
    if key in payload && payload[key].JString? then Some(payload[key].str) else None
  }

  /**
   * What a `playerUpdate` frame asks for: the guild and the new position, or
   * nothing when the guild ID is not a string or the state not an object. A
   * missing or non-numeric position reads as 0.
   */
  function PlayerUpdateRequest(payload: map<string, Json>): (r: Option<(string, int)>)
    ensures r.Some? ==> StringField(payload, "guildId") == Some(r.value.0)
    ensures StringField(payload, "guildId").None? ==> r.None?
  {
    match StringField(payload, "guildId")
    case None => None
    case Some(guildId) =>
      if "state" in payload && payload["state"].JObject? then
        var state := payload["state"].fields;
        Some((guildId, if "position" in state && state["position"].JNumber? then state["position"].num else 0))
      else None
  }

  // -----------------------------------------------------------------------
  // Objects

  /** A guild's player; the client hands out the same object on every lookup. */
  class Player {
    const guildId: string
    var textChannelId: string
    var voiceChannel: string
    var currentTrack: Option<Track>
    var queue: seq<Track>
    var volume: int
    var isPlaying: bool
    var isPaused: bool
    var position: int

    function State(): PlayerState
      reads this
    {
      PlayerState(textChannelId, voiceChannel, currentTrack, queue, volume, isPlaying, isPaused, position)
    }

    constructor (guildId: string)
      ensures this.guildId == guildId && State() == FreshPlayerState()
    {
      this.guildId := guildId;
      textChannelId, voiceChannel := "", "";
      currentTrack, queue := None, [];
      volume := DefaultVolume;
      isPlaying, isPaused := false, false;
      position := 0;
    }

    method SetChannels(voiceChannelId: string, textChannelId: string)
      modifies this
      ensures State() == old(State()).(voiceChannel := voiceChannelId, textChannelId := textChannelId)
    {
      voiceChannel := voiceChannelId;
      this.textChannelId := textChannelId;
    }

    /** Queue behind the current track, or start playing `track` when idle. */
    method PlayOrQueue(track: Track)
      modifies this
      ensures State() == StartOrEnqueue(old(State()), track)
    {
      if isPlaying {
        queue := queue + [track];
        return;
      }
      currentTrack := Some(track);
      isPlaying := true;
    }

    /** The queue head becomes the current track. */
    method Advance() returns (next: Track)
      requires queue != []
      modifies this
      ensures next == old(queue[0]) && State() == AdvanceQueue(old(State()))
    {
      next := queue[0];
      queue := queue[1..];
      currentTrack := Some(next);
    }

    /** Nothing left to play: idle, with no current track. */
    method GoIdle()
      modifies this
      ensures State() == old(State()).(isPlaying := false, currentTrack := None)
    {
      isPlaying := false;
      currentTrack := None;
    }

    method Clear()
      modifies this
      ensures State() == StopState(old(State()))
    {
      isPlaying := false;
      currentTrack := None;
      queue := [];
    }

    method SetPaused(pause: bool)
      modifies this
      ensures State() == old(State()).(isPaused := pause)
    {
      isPaused := pause;
    }

    method SetVolume(volume: int)
      modifies this
      ensures State() == old(State()).(volume := volume)
    {
      this.volume := volume;
    }

    method SetPosition(position: int)
      modifies this
      ensures State() == old(State()).(position := position)
    {
      this.position := position;
    }
  }

  /** A Lavalink node: its websocket connection flags and the session ID the node announced. */
  class Node {
    var connected: bool
    var reconnecting: bool
    var sessionId: string

    constructor ()
      ensures !connected && !reconnecting && sessionId == ""
    {
      connected, reconnecting, sessionId := false, false, "";
    }

    /** Whether REST calls can reach this node: connected, with a session. */
    predicate CanServe()
      reads this
    {
      connected && sessionId != ""
    }

    /**
     * `connect`: a no-op while connected or already reconnecting; otherwise one
     * dial attempt (`dialOk` is its outcome). The 5-second retry after a failed
     * dial is a later call of this method.
     */
    method Connect(dialOk: bool)
      modifies this
      ensures old(connected || reconnecting) ==> connected == old(connected) && reconnecting == old(reconnecting)
      ensures !old(connected || reconnecting) ==> connected == dialOk && !reconnecting
      ensures sessionId == old(sessionId)
    {
      if connected || reconnecting {
        return;
      }
      reconnecting := true;
      if !dialOk {
        reconnecting := false;
        return;
      }
      connected := true;
      reconnecting := false;
    }

    /** `handleDisconnect`: the connection is dropped; the session ID is kept. */
    method HandleDisconnect()
      modifies this
      ensures !connected && reconnecting == old(reconnecting) && sessionId == old(sessionId)
    {
      connected := false;
    }

    /** A `ready` frame: only a string session ID is taken. */
    method HandleReady(payload: map<string, Json>)
      modifies this
      ensures StringField(payload, "sessionId").Some? ==> sessionId == StringField(payload, "sessionId").value
      ensures StringField(payload, "sessionId").None? ==> sessionId == old(sessionId)
      ensures connected == old(connected) && reconnecting == old(reconnecting)
    {
      var sid := StringField(payload, "sessionId");
      if sid.Some? {
        sessionId := sid.value;
      }
    }

    /**
     * `updatePlayer`: refused unless connected with a session; otherwise the
     * PATCH request's outcome is `httpOk`.
     */
    method UpdatePlayer(httpOk: bool) returns (ok: bool)
      ensures ok ==> connected && sessionId != ""
      ensures CanServe() ==> ok == httpOk
    {
      if !connected || sessionId == "" {
        return false;
      }
      ok := httpOk;
    }

    /** `destroyPlayer`: the same guard; any HTTP status counts as done, a transport error does not. */
    method DestroyPlayer(transportOk: bool) returns (ok: bool)
      ensures ok ==> connected && sessionId != ""
      ensures CanServe() ==> ok == transportOk
    {
      if !connected || sessionId == "" {
        return false;
      }
      ok := transportOk;
    }
  }

  /** The client's errors; a failed voice join carries the error it wraps. */
  datatype PlaybackError = JoinVoiceFailed(cause: string) | NoAvailableNodes

  /** The client: players by guild, progress tickers by guild, and the configured nodes in order. */
  class LavalinkClient {
    var players: map<string, Player>
    var progressTickers: set<string>
    const nodes: seq<Node>

    /** Each player is registered under its own guild ID, so no two guilds share a player. */
    ghost predicate Valid()
      reads this
    {
      forall g :: g in players ==> players[g].guildId == g
    }

    /** The state a guild's player has, or would have once `GetPlayer` creates it. */
    ghost function StateOf(guildId: string): PlayerState
      reads this, players.Values
    {
      if guildId in players then players[guildId].State() else FreshPlayerState()
    }

    /** Changing one registered player leaves every other player's state as it was. */
    twostate lemma OthersUnchanged(p: Player)
      requires old(Valid()) && p.guildId in old(players) && old(players[p.guildId]) == p
      requires players == old(players)
      requires forall o :: o in old(players.Values) && o != p ==> unchanged(o)
      ensures Valid()
      ensures forall g :: g in players && g != p.guildId ==> players[g].State() == old(players[g].State())
    {
      forall g | g in players && g != p.guildId
        ensures players[g].State() == old(players[g].State())
      {
        var q := old(players[g]);
        assert q in old(players.Values) && q.guildId == g;
      }
    }

    /** The REST precondition at node `i`, combined with that node's HTTP outcome. */
    ghost predicate Accepts(i: int, httpOk: seq<bool>)
      requires |httpOk| == |nodes|
      reads nodes
    {
      0 <= i < |nodes| && nodes[i].CanServe() && httpOk[i]
    }

    constructor (nodeCount: nat)
      ensures Valid() && players == map[] && progressTickers == {}
      ensures |nodes| == nodeCount
      ensures forall i :: 0 <= i < nodeCount ==> fresh(nodes[i]) && !nodes[i].connected && nodes[i].sessionId == ""
    {
      var ns: seq<Node> := [];
      while |ns| < nodeCount
        invariant |ns| <= nodeCount
        invariant forall i :: 0 <= i < |ns| ==> fresh(ns[i]) && !ns[i].connected && ns[i].sessionId == ""
      {
        var n := new Node();
        ns := ns + [n];
      }
      nodes := ns;
      players := map[];
      progressTickers := {};
    }

    /**
     * The node loop of Play, Pause, Stop, Skip, SetVolume and handleTrackEnd:
     * connected nodes are tried in order until one accepts the update.
     */
    method SendUpdate(httpOk: seq<bool>) returns (delivered: bool)
      requires |httpOk| == |nodes|
      ensures delivered <==> exists i :: 0 <= i < |nodes| && Accepts(i, httpOk)
    {
      delivered := false;
      var i := 0;
      while i < |nodes| && !delivered
        invariant 0 <= i <= |nodes|
        invariant delivered ==> exists j :: 0 <= j < i && Accepts(j, httpOk)
        invariant !delivered ==> forall j :: 0 <= j < i ==> !Accepts(j, httpOk)
      {
        if nodes[i].connected {
          var ok := nodes[i].UpdatePlayer(httpOk[i]);
          if ok {
            assert Accepts(i, httpOk);
            delivered := true;
          }
        }
        i := i + 1;
      }
    }

    /** The node loop of DestroyPlayer: only the first connected node is sent the DELETE. */
    method DestroyOnNodes(transportOk: seq<bool>) returns (sentTo: Option<nat>)
      requires |transportOk| == |nodes|
      ensures sentTo.Some? ==> sentTo.value < |nodes| && nodes[sentTo.value].connected
      ensures forall j :: 0 <= j < |nodes| && (sentTo.None? || j < sentTo.value) ==> !nodes[j].connected
    {
      var i := 0;
      while i < |nodes|
        invariant 0 <= i <= |nodes|
        invariant forall j :: 0 <= j < i ==> !nodes[j].connected
      {
        if nodes[i].connected {
          var _ := nodes[i].DestroyPlayer(transportOk[i]);
          return Some(i);
        }
        i := i + 1;
      }
      return None;
    }

    /** `GetPlayer`: the registered player, or a fresh one registered on the spot. */
    method GetPlayer(guildId: string) returns (p: Player)
      requires Valid()
      modifies this
      ensures Valid() && progressTickers == old(progressTickers)
      ensures guildId in players && p == players[guildId] && p.State() == old(StateOf(guildId))
      ensures guildId in old(players) ==> p == old(players[guildId]) && players == old(players)
      ensures guildId !in old(players) ==> fresh(p) && players == old(players)[guildId := p]
      ensures forall g :: g in old(players) ==> players[g] == old(players[g]) && players[g].State() == old(players[g].State())
    {
      if guildId in players {
        return players[guildId];
      }
      p := new Player(guildId);
      players := players[guildId := p];
    }

    /** `DestroyPlayer`: the entry and the guild's ticker go; the first connected node is told. */
    method DestroyPlayer(guildId: string, transportOk: seq<bool>)
      requires Valid() && |transportOk| == |nodes|
      modifies this
      ensures Valid()
      ensures players == old(players) - {guildId}
      ensures progressTickers == old(progressTickers) - {guildId}
    {
      players := players - {guildId};
      StopProgressUpdates(guildId);
      var _ := DestroyOnNodes(transportOk);
    }

    /** `stopProgressUpdates`. */
    method StopProgressUpdates(guildId: string)
      modifies this`progressTickers
      ensures progressTickers == old(progressTickers) - {guildId}
    {
      if guildId in progressTickers {
        progressTickers := progressTickers - {guildId};
      }
    }

    /** `startProgressUpdates`: any running ticker is replaced, so there is one per guild. */
    method StartProgressUpdates(guildId: string)
      modifies this`progressTickers
      ensures progressTickers == old(progressTickers) + {guildId}
    {
      StopProgressUpdates(guildId);
      progressTickers := progressTickers + {guildId};
    }

    /**
     * `Play`. A failed voice join returns an error after the channels were
     * recorded; otherwise the result is nil whatever the nodes answer.
     */
    method Play(guildId: string, voiceChannelId: string, textChannelId: string, track: Track,
                joinError: Option<string>, httpOk: seq<bool>) returns (err: Option<PlaybackError>)
      requires Valid() && |httpOk| == |nodes|
      modifies this, players.Values
      ensures Valid() && progressTickers == old(progressTickers)
      ensures players.Keys == old(players.Keys) + {guildId}
      ensures players[guildId].State() == PlayState(old(StateOf(guildId)), voiceChannelId, textChannelId, track, joinError.None?)
      ensures forall g :: g in old(players) && g != guildId ==> players[g] == old(players[g]) && players[g].State() == old(players[g].State())
      ensures err == if joinError.None? then None else Some(JoinVoiceFailed(joinError.value))
    {
      var player := GetPlayer(guildId);
      label fetched:
      player.SetChannels(voiceChannelId, textChannelId);
      if joinError.Some? {
        OthersUnchanged@fetched(player);
        return Some(JoinVoiceFailed(joinError.value));
      }
      var wasPlaying := player.isPlaying;
      player.PlayOrQueue(track);
      OthersUnchanged@fetched(player);
      if !wasPlaying {
        var _ := SendUpdate(httpOk);
      }
      return None;
    }

    /** `Pause`: the flag is stored; the error says whether no node accepted it. */
    method Pause(guildId: string, pause: bool, httpOk: seq<bool>) returns (err: Option<PlaybackError>)
      requires Valid() && |httpOk| == |nodes|
      modifies this, players.Values
      ensures Valid() && progressTickers == old(progressTickers)
      ensures players.Keys == old(players.Keys) + {guildId}
      ensures players[guildId].State() == old(StateOf(guildId)).(isPaused := pause)
      ensures guildId in old(players) ==> players[guildId] == old(players[guildId])
      ensures guildId !in old(players) ==> fresh(players[guildId])
      ensures forall g :: g in old(players) && g != guildId ==> players[g] == old(players[g]) && players[g].State() == old(players[g].State())
      ensures err.None? <==> exists i :: 0 <= i < |nodes| && Accepts(i, httpOk)
      ensures err.Some? ==> err.value == NoAvailableNodes
    {
      var player := GetPlayer(guildId);
      label fetched:
      player.SetPaused(pause);
      OthersUnchanged@fetched(player);
      var delivered := SendUpdate(httpOk);
      err := if delivered then None else Some(NoAvailableNodes);
    }

    /** `Stop`: playback cleared, ticker stopped, nodes told. */
    method Stop(guildId: string, httpOk: seq<bool>) returns (err: Option<PlaybackError>)
      requires Valid() && |httpOk| == |nodes|
      modifies this, players.Values
      ensures Valid() && progressTickers == old(progressTickers) - {guildId}
      ensures players.Keys == old(players.Keys) + {guildId}
      ensures players[guildId].State() == StopState(old(StateOf(guildId)))
      ensures forall g :: g in old(players) && g != guildId ==> players[g] == old(players[g]) && players[g].State() == old(players[g].State())
      ensures err.None? <==> exists i :: 0 <= i < |nodes| && Accepts(i, httpOk)
      ensures err.Some? ==> err.value == NoAvailableNodes
    {
      var player := GetPlayer(guildId);
      label fetched:
      player.Clear();
      OthersUnchanged@fetched(player);
      StopProgressUpdates(guildId);
      var delivered := SendUpdate(httpOk);
      err := if delivered then None else Some(NoAvailableNodes);
    }

    /** `Skip`: the next queued track, or exactly `Stop` when the queue is empty. */
    method Skip(guildId: string, httpOk: seq<bool>) returns (err: Option<PlaybackError>)
      requires Valid() && |httpOk| == |nodes|
      modifies this, players.Values
      ensures Valid()
      ensures players.Keys == old(players.Keys) + {guildId}
      ensures players[guildId].State() == SkipState(old(StateOf(guildId)))
      ensures progressTickers == if old(StateOf(guildId)).queue == [] then old(progressTickers) - {guildId} else old(progressTickers)
      ensures forall g :: g in old(players) && g != guildId ==> players[g] == old(players[g]) && players[g].State() == old(players[g].State())
      ensures err == if exists i :: 0 <= i < |nodes| && Accepts(i, httpOk) then None else Some(NoAvailableNodes)
    {
      var player := GetPlayer(guildId);
      label fetched:
      if |player.queue| == 0 {
        err := Stop(guildId, httpOk);
        return;
      }
      var delivered := PlayNext(player, httpOk);
      OthersUnchanged@fetched(player);
      err := if delivered then None else Some(NoAvailableNodes);
    }

    /**
     * The step `Skip` and `handleTrackEnd` share: the queue head becomes the
     * current track and is sent to the nodes.
     */
    method PlayNext(player: Player, httpOk: seq<bool>) returns (delivered: bool)
      requires player.queue != [] && |httpOk| == |nodes|
      modifies player
      ensures player.State() == AdvanceQueue(old(player.State()))
      ensures delivered <==> exists i :: 0 <= i < |nodes| && Accepts(i, httpOk)
    {
      var _ := player.Advance();
      delivered := SendUpdate(httpOk);
    }

    /** `SetVolume`: the clamped volume is stored and sent. */
    method SetVolume(guildId: string, volume: int, httpOk: seq<bool>) returns (err: Option<PlaybackError>)
      requires Valid() && |httpOk| == |nodes|
      modifies this, players.Values
      ensures Valid() && progressTickers == old(progressTickers)
      ensures players.Keys == old(players.Keys) + {guildId}
      ensures players[guildId].State() == old(StateOf(guildId)).(volume := ClampVolume(volume))
      ensures forall g :: g in old(players) && g != guildId ==> players[g] == old(players[g]) && players[g].State() == old(players[g].State())
      ensures err.None? <==> exists i :: 0 <= i < |nodes| && Accepts(i, httpOk)
      ensures err.Some? ==> err.value == NoAvailableNodes
    {
      var v := volume;
      if v < MinVolume {
        v := MinVolume;
      }
      if v > MaxVolume {
        v := MaxVolume;
      }
      var player := GetPlayer(guildId);
      label fetched:
      player.SetVolume(v);
      OthersUnchanged@fetched(player);
      var delivered := SendUpdate(httpOk);
      err := if delivered then None else Some(NoAvailableNodes);
    }

    /** `handleTrackStart`: the ticker starts only if the (possibly new) player has a current track. */
    method HandleTrackStart(guildId: string)
      requires Valid()
      modifies this
      ensures Valid()
      ensures players.Keys == old(players.Keys) + {guildId}
      ensures players[guildId].State() == old(StateOf(guildId))
      ensures progressTickers == if old(StateOf(guildId)).currentTrack.Some? then old(progressTickers) + {guildId} else old(progressTickers)
      ensures forall g :: g in old(players) && g != guildId ==> players[g] == old(players[g]) && players[g].State() == old(players[g].State())
    {
      var player := GetPlayer(guildId);
      if player.currentTrack.None? {
        return;
      }
      StartProgressUpdates(guildId);
    }

    /** `handleTrackEnd`: the ticker stops; the queue head plays next, or the player goes idle. */
    method HandleTrackEnd(guildId: string, httpOk: seq<bool>)
      requires Valid() && |httpOk| == |nodes|
      modifies this, players.Values
      ensures Valid() && progressTickers == old(progressTickers) - {guildId}
      ensures players.Keys == old(players.Keys) + {guildId}
      ensures players[guildId].State() == TrackEndState(old(StateOf(guildId)))
      ensures forall g :: g in old(players) && g != guildId ==> players[g] == old(players[g]) && players[g].State() == old(players[g].State())
    {
      StopProgressUpdates(guildId);
      var player := GetPlayer(guildId);
      label fetched:
      if |player.queue| > 0 {
        var _ := PlayNext(player, httpOk);
      } else {
        player.GoIdle();
      }
      OthersUnchanged@fetched(player);
    }

    /** `handlePlayerUpdate`: only the position of an already registered player changes. */
    method HandlePlayerUpdate(payload: map<string, Json>)
      requires Valid()
      modifies players.Values
      ensures Valid() && players == old(players) && progressTickers == old(progressTickers)
      ensures forall g :: g in players ==>
        players[g].State() == match PlayerUpdateRequest(payload)
          case Some((guildId, position)) => if g == guildId then old(players[g].State()).(position := position) else old(players[g].State())
          case None => old(players[g].State())
    {
      var request := PlayerUpdateRequest(payload);
      if request.Some? {
        var (guildId, position) := request.value;
        if guildId in players {
          players[guildId].SetPosition(position);
        }
      }
    }

    /**
     * `handleMessage` for frames from `node`: "ready" may set the session ID,
     * "playerUpdate" and "event" frames go to their handlers, anything else
     * (a non-string op included) is ignored.
     */
    method HandleMessage(node: Node, payload: map<string, Json>, httpOk: seq<bool>)
      requires Valid() && |httpOk| == |nodes|
      modifies this, players.Values, node
      ensures Valid()
      ensures node.connected == old(node.connected) && node.reconnecting == old(node.reconnecting)
      ensures node.sessionId ==
        if StringField(payload, "op") == Some("ready") && StringField(payload, "sessionId").Some?
        then StringField(payload, "sessionId").value else old(node.sessionId)
      ensures StringField(payload, "op") !in {Some("playerUpdate"), Some("event")} ==>
        players == old(players) && progressTickers == old(progressTickers)
        && forall g :: g in players ==> players[g].State() == old(players[g].State())
      ensures StringField(payload, "op") == Some("playerUpdate") ==>
        players == old(players) && progressTickers == old(progressTickers)
        && forall g :: g in players ==>
          players[g].State() == match PlayerUpdateRequest(payload)
            case Some((guildId, position)) => if g == guildId then old(players[g].State()).(position := position) else old(players[g].State())
            case None => old(players[g].State())
      ensures var g := EventGuild(payload);
        StringField(payload, "op") == Some("event") && StringField(payload, "type") == Some("TrackStartEvent") ==>
          players.Keys == old(players.Keys) + {g} && players[g].State() == old(StateOf(g))
          && progressTickers == (if old(StateOf(g)).currentTrack.Some? then old(progressTickers) + {g} else old(progressTickers))
      ensures var g := EventGuild(payload);
        StringField(payload, "op") == Some("event") && StringField(payload, "type") == Some("TrackEndEvent") ==>
          players.Keys == old(players.Keys) + {g} && players[g].State() == TrackEndState(old(StateOf(g)))
          && progressTickers == old(progressTickers) - {g}
      ensures StringField(payload, "op") == Some("event") ==>
        forall g :: g in old(players) && g != EventGuild(payload) ==> g in players && players[g] == old(players[g]) && players[g].State() == old(players[g].State())
      ensures StringField(payload, "op") == Some("event") && StringField(payload, "type") !in {Some("TrackStartEvent"), Some("TrackEndEvent")} ==>
        players == old(players) && progressTickers == old(progressTickers)
    {
      var op := StringField(payload, "op");
      if op.None? {
        return;
      }
      match op.value
      case "ready" =>
        node.HandleReady(payload);
      case "playerUpdate" =>
        HandlePlayerUpdate(payload);
      case "event" =>
        HandleEvent(payload, httpOk);
      case _ =>
    }

    /** The guild an event frame names; a missing or non-string guild ID reads as "". */
    function EventGuild(payload: map<string, Json>): string
    {
      match StringField(payload, "guildId") case Some(g) => g case None => ""
    }

    /**
     * `handleEvent`: a track start event has the effect of `HandleTrackStart`
     * and a track end event that of `HandleTrackEnd` on the event's guild;
     * any other event changes nothing.
     */
    method HandleEvent(payload: map<string, Json>, httpOk: seq<bool>)
      requires Valid() && |httpOk| == |nodes|
      modifies this, players.Values
      ensures Valid()
      ensures var g := EventGuild(payload);
        StringField(payload, "type") == Some("TrackStartEvent") ==>
          players.Keys == old(players.Keys) + {g} && players[g].State() == old(StateOf(g))
          && progressTickers == (if old(StateOf(g)).currentTrack.Some? then old(progressTickers) + {g} else old(progressTickers))
      ensures var g := EventGuild(payload);
        StringField(payload, "type") == Some("TrackEndEvent") ==>
          players.Keys == old(players.Keys) + {g} && players[g].State() == TrackEndState(old(StateOf(g)))
          && progressTickers == old(progressTickers) - {g}
      ensures forall g :: g in old(players) && g != EventGuild(payload) ==> g in players && players[g] == old(players[g]) && players[g].State() == old(players[g].State())
      ensures StringField(payload, "type") !in {Some("TrackStartEvent"), Some("TrackEndEvent")} ==>
        players == old(players) && progressTickers == old(progressTickers)
    {
      var eventType := StringField(payload, "type");
      if eventType.None? {
        return;
      }
      var guildId := match StringField(payload, "guildId") case Some(g) => g case None => "";
      if eventType.value == "TrackStartEvent" {
        HandleTrackStart(guildId);
      } else if eventType.value == "TrackEndEvent" {
        HandleTrackEnd(guildId, httpOk);
      }
    }

    /** `Disconnect`: every node is marked disconnected and every ticker stopped. */
    method Disconnect()
      modifies this`progressTickers, nodes
      ensures progressTickers == {}
      ensures forall i :: 0 <= i < |nodes| ==> !nodes[i].connected && nodes[i].sessionId == old(nodes[i].sessionId)
    {
      var i := 0;
      while i < |nodes|
        invariant 0 <= i <= |nodes|
        invariant forall j :: 0 <= j < i ==> !nodes[j].connected
        invariant forall j :: 0 <= j < |nodes| ==> nodes[j].sessionId == old(nodes[j].sessionId)
      {
        nodes[i].connected := false;
        i := i + 1;
      }
      progressTickers := {};
    }
  }
}
