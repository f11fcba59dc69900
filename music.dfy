/**
 * The music slash commands: how a duration is printed, the queue listing,
 * and the guards `/play` and `/pause` apply before touching the Lavalink
 * client. A missing Lavalink client (`lavalink.Get()` returning nil) is a
 * null `LavalinkClient`.
 */
module Music {
  import opened Wrappers
  import opened Text
  import Lavalink

  // -----------------------------------------------------------------------
  // Durations

  /** Go's `/` on integers: the quotient truncated toward zero. */
  function Quot(a: int, b: int): (q: int)
    requires b > 0
    ensures a >= 0 ==> q == a / b
  {
    if a >= 0 then a / b else -((-a) / b)
  }

  /** Go's `%` on integers: the remainder takes the sign of the dividend. */
  function Rem(a: int, b: int): (r: int)
    requires b > 0
    ensures a == b * Quot(a, b) + r
    ensures a >= 0 ==> r == a % b
  {
    a - b * Quot(a, b)
  }

  /** `fmt.Sprintf("%02d", n)`: a sign counts toward the width. */
  function Pad2Int(n: int): string
  {
    if n < 0 then "-" + NatToString(-n) else Pad2(n)
  }

  /** `formatDuration`: milliseconds as minutes, ":" and two-digit seconds. */
  function FormatDuration(ms: int): string
  {
    var seconds := Quot(ms, 1000);
    IntToString(Quot(seconds, 60)) + ":" + Pad2Int(Rem(seconds, 60))
  }

  /** The position of the first ':' in `s`. */
  function ColonIndex(s: string): (k: Option<nat>)
    ensures k.Some? ==> k.value < |s| && s[k.value] == ':'
    ensures k.Some? ==> forall i :: 0 <= i < k.value ==> s[i] != ':'
  {
    if s == [] then None
    else if s[0] == ':' then Some(0)
    else
      match ColonIndex(s[1..])
      case None => None
      case Some(k) => Some(k + 1)
  }

  predicate AllDigits(s: string) {
    forall i :: 0 <= i < |s| ==> IsDigit(s[i])
  }

  /**
   * Reads an "m:ss" clock back as a number of whole seconds: the minutes
   * are one or more digits, the seconds exactly two digits below 60.
   */
  function ParseClock(s: string): Option<nat>
  {
    match ColonIndex(s)
    case None => None
    case Some(k) =>
      var minutes, secs := s[..k], s[k + 1..];
      if |minutes| >= 1 && AllDigits(minutes) && |secs| == 2 && AllDigits(secs) && ParseDigits(secs) < 60
      then Some(ParseDigits(minutes) * 60 + ParseDigits(secs))
      else None
  }

  lemma {:induction false} ColonAfterDigits(d: string, rest: string)
    requires AllDigits(d)
    ensures ColonIndex(d + ":" + rest) == Some(|d|)
  {
    if d != [] {
      assert (d + ":" + rest)[1..] == d[1..] + ":" + rest;
      ColonAfterDigits(d[1..], rest);
    }
  }

  /**
   * For a non-negative length the clock printed has seconds below 60 and
   * stands for exactly the whole seconds of the input: minutes × 60 +
   * seconds = ms / 1000.
   */
  lemma FormatDurationReadsBack(ms: int)
    requires ms >= 0
    ensures ParseClock(FormatDuration(ms)) == Some(ms / 1000)
  {
    var seconds := ms / 1000;
    var m, s := NatToString(seconds / 60), Pad2(seconds % 60);
    assert FormatDuration(ms) == m + ":" + s;
    ColonAfterDigits(m, s);
    var t := m + ":" + s;
    assert t[..|m|] == m && t[|m| + 1..] == s;
    ParseNatToString(seconds / 60);
  }

  /** Two lengths print the same clock exactly when they have the same whole seconds. */
  lemma FormatDurationSameSecond(a: int, b: int)
    requires a >= 0 && b >= 0
    ensures FormatDuration(a) == FormatDuration(b) <==> a / 1000 == b / 1000
  {
    FormatDurationReadsBack(a);
    FormatDurationReadsBack(b);
  }

  // -----------------------------------------------------------------------
  // The queue listing

  const EmptyQueue := "📭 La cola está vacía."
  const QueueHeader := "📋 **Cola de reproducción**\n\n"
  const NextHeader := "**Siguiente:**\n"
  /** How many queued tracks the listing names. */
  const MaxListed := 10

  function NowPlayingLine(t: Lavalink.Track): string
  {
    "🎵 **Reproduciendo:** [" + t.info.title + "](" + t.info.uri + ") - " + FormatDuration(t.info.length) + "\n\n"
  }

  function QueueLine(n: nat, t: Lavalink.Track): string
  {
    NatToString(n) + ". " + t.info.title + " - " + FormatDuration(t.info.length) + "\n"
  }

  /** The lines for `ts`, numbered from `first`. */
  function Lines(ts: seq<Lavalink.Track>, first: nat): string
  {
    if ts == [] then "" else QueueLine(first, ts[0]) + Lines(ts[1..], first + 1)
  }

  /** The closing line for the `n` tracks past the tenth. */
  function Remaining(n: int): string
  {
    "\n... y " + IntToString(n) + " más"
  }

  lemma {:induction false} LinesAppend(a: seq<Lavalink.Track>, b: seq<Lavalink.Track>, first: nat)
    ensures Lines(a + b, first) == Lines(a, first) + Lines(b, first + |a|)
  {
    if a == [] {
      assert a + b == b;
    } else {
      assert (a + b)[1..] == a[1..] + b;
      LinesAppend(a[1..], b, first + 1);
    }
  }

  /** The "Reproduciendo" line when a track is playing. */
  function CurrentPart(current: Option<Lavalink.Track>): string
  {
    if current.Some? then NowPlayingLine(current.value) else ""
  }

  /** The closing line, only when more than ten tracks wait. */
  function Tail(queue: seq<Lavalink.Track>): string
  {
    if |queue| > MaxListed then Remaining(|queue| - MaxListed) else ""
  }

  function Min(a: int, b: int): int { if a < b then a else b }

  /**
   * The `/queue` reply: the empty-queue message when nothing plays and
   * nothing waits; otherwise the header, the current track if any, and the
   * first ten queued tracks numbered from 1, then how many more there are.
   */
  function QueueListing(current: Option<Lavalink.Track>, queue: seq<Lavalink.Track>): (r: string)
    ensures r == EmptyQueue <==> current.None? && queue == []
  {
    if current.None? && queue == [] then EmptyQueue
    else
      var r := if |queue| == 0 then QueueHeader + CurrentPart(current)
        else QueueHeader + CurrentPart(current) + NextHeader + Lines(queue[..Min(|queue|, MaxListed)], 1) + Tail(queue);
      assert r[0] == QueueHeader[0] != EmptyQueue[0];
      r
  }

  /** With more than ten tracks waiting, the listing ends by saying how many more there are. */
  lemma QueueListingCountsRest(current: Option<Lavalink.Track>, queue: seq<Lavalink.Track>)
    requires |queue| > MaxListed
    ensures var r := QueueListing(current, queue);
      |r| >= |Remaining(|queue| - MaxListed)| && r[|r| - |Remaining(|queue| - MaxListed)|..] == Remaining(|queue| - MaxListed)
  {
    var front := QueueHeader + CurrentPart(current) + NextHeader + Lines(queue[..MaxListed], 1);
    var rest := Remaining(|queue| - MaxListed);
    assert QueueListing(current, queue) == front + rest;
    assert (front + rest)[|front|..] == rest;
  }

  /**
   * Each of the first ten queued tracks is named in the listing under its
   * position counted from 1.
   */
  lemma QueueListingNamesTrack(current: Option<Lavalink.Track>, queue: seq<Lavalink.Track>, k: int)
    requires 0 <= k < |queue| && k < MaxListed
    ensures Contains(QueueListing(current, queue), QueueLine(k + 1, queue[k]))
  {
    var shown := queue[..Min(|queue|, MaxListed)];
    assert shown == shown[..k] + shown[k..];
    LinesAppend(shown[..k], shown[k..], 1);
    var line := QueueLine(k + 1, queue[k]);
    var first, after := Lines(shown[..k], 1), Lines(shown[k..][1..], k + 2);
    assert Lines(shown, 1) == first + (line + after);
    var pre := QueueHeader + CurrentPart(current) + NextHeader;
    var r := QueueListing(current, queue);
    assert r == pre + (first + (line + after)) + Tail(queue);
    Regroup(pre, first, line, after, Tail(queue));
    assert OccursAt(r, line, |pre + first|);
  }

  /** Concatenation regrouped; kept apart so the proofs above it stay small. */
  lemma Assoc(a: string, b: string, c: string)
    ensures (a + b) + c == a + (b + c)
  {
  }

  /** Regrouping a concatenation of five pieces around the middle one. */
  lemma Regroup(a: string, b: string, c: string, d: string, e: string)
    ensures a + (b + (c + d)) + e == (a + b) + c + (d + e)
  {
  }

  /** Tracks past the tenth only count: two queues of one length that agree on their first ten list the same. */
  lemma {:induction false} QueueListingIgnoresTail(current: Option<Lavalink.Track>, q1: seq<Lavalink.Track>, q2: seq<Lavalink.Track>)
    requires |q1| == |q2| && q1[..Min(|q1|, MaxListed)] == q2[..Min(|q2|, MaxListed)]
    ensures QueueListing(current, q1) == QueueListing(current, q2)
  {
    if |q1| <= MaxListed {
      assert q1 == q1[..|q1|] && q2 == q2[..|q2|];
    } else {
      assert Tail(q1) == Tail(q2);
    }
  }

  /** `queueHandler`'s reply as the string builder assembles it. */
  method BuildQueueListing(current: Option<Lavalink.Track>, queue: seq<Lavalink.Track>) returns (text: string)
    ensures text == QueueListing(current, queue)
  {
    if current.None? && |queue| == 0 {
      return EmptyQueue;
    }
    text := QueueHeader;
    if current.Some? {
      text := text + NowPlayingLine(current.value);
    }
    assert text == QueueHeader + CurrentPart(current);
    if |queue| > 0 {
      text := WriteQueue(text + NextHeader, queue);
    }
  }

  /**
   * The loop over the queue: one numbered line per track until the tenth,
   * then the count of the rest, appended to `start`.
   */
  method WriteQueue(start: string, queue: seq<Lavalink.Track>) returns (text: string)
    ensures text == start + Lines(queue[..Min(|queue|, MaxListed)], 1) + Tail(queue)
  {
    text := start;
    var i := 0;
    assert queue[..0] == [] && start + Lines([], 1) == start + "" == start;
    while i < |queue|
      invariant 0 <= i <= |queue| && i <= MaxListed
      invariant text == start + Lines(queue[..i], 1)
    {
      if i >= MaxListed {
        text := text + Remaining(|queue| - MaxListed);
        break;
      }
      var line := QueueLine(i + 1, queue[i]);
      LinesAppend(queue[..i], [queue[i]], 1);
      assert queue[..i + 1] == queue[..i] + [queue[i]];
      assert Lines([queue[i]], 1 + i) == line + Lines([], i + 2) == line;
      Assoc(start, Lines(queue[..i], 1), line);
      text := text + line;
      i := i + 1;
    }
    assert i < |queue| ==> i == MaxListed;
    assert i == |queue| ==> queue[..i] == queue && text == text + "";
  }

  // -----------------------------------------------------------------------
  // Command replies

  const NoQuery := "❌ Debes proporcionar una canción para reproducir."
  const NotInVoice := "❌ Debes estar en un canal de voz."
  const Unavailable := "❌ El sistema de música no está disponible."
  const NoResults := "❌ No se encontraron resultados."
  const Resumed := "▶️ Reproducción resumida."
  const Paused := "⏸️ Reproducción pausada."

  /**
   * A reply: `Ephemeral` only the invoker sees, `Message` a public reply,
   * `Edited` the edit of a deferred reply; `Failed` carries an error printed
   * after a fixed prefix, on a deferred reply or not; `TrackAdded` is the
   * "Añadido a la cola" embed for a track.
   */
  datatype Response =
    | Ephemeral(text: string)
    | Message(text: string)
    | Edited(text: string)
    | Failed(deferred: bool, prefix: string, detail: string)
    | TrackAdded(track: Lavalink.Track)

  /** What a search answered: the error it returned, or the decoded response. */
  datatype SearchOutcome = SearchError(message: string) | Searched(result: Lavalink.SearchResult)

  /** After the query and voice checks: the reply, or the track to play. */
  datatype PlayChoice = Reply(response: Response) | PlayFirst(track: Lavalink.Track)

  /**
   * The result checks of `playHandler` as written: no tracks is reported
   * before a failed load is looked at.
   */
  function ChooseTrackAsWritten(search: SearchOutcome): PlayChoice
  {
    match search
    case SearchError(m) => Reply(Failed(true, "❌ Error buscando: ", m))
    case Searched(result) =>
      var tracks := Lavalink.GetTracks(result);
      if result.loadType == "empty" || |tracks| == 0 then Reply(Edited(NoResults))
      else if result.loadType == "error" && result.exception.Some? then
        Reply(Failed(true, "❌ Error: ", result.exception.value.message))
      else PlayFirst(tracks[0])
  }

  /** As written, a failed load never reaches its own message: it is reported as having no results. */
  lemma LoadErrorReportedAsNoResults(result: Lavalink.SearchResult)
    requires result.loadType == "error" && result.exception.Some?
    ensures ChooseTrackAsWritten(Searched(result)) == Reply(Edited(NoResults))
    ensures ChooseTrackAsWritten(Searched(result)) != Reply(Failed(true, "❌ Error: ", result.exception.value.message))
  {
  }

  /**
   * The result checks with the failed-load message first. A failed load is
   * reported with its exception message; an empty result as no results;
   * otherwise the first track is played.
   */
  function ChooseTrack(search: SearchOutcome): (c: PlayChoice)
    ensures search.Searched? && search.result.loadType == "error" && search.result.exception.Some? ==>
      c == Reply(Failed(true, "❌ Error: ", search.result.exception.value.message))
    ensures c.PlayFirst? <==> search.Searched? && Lavalink.GetTracks(search.result) != []
                              && search.result.loadType != "empty"
    ensures c.PlayFirst? ==> c.track == Lavalink.GetTracks(search.result)[0]
  {
    match search
    case SearchError(m) => Reply(Failed(true, "❌ Error buscando: ", m))
    case Searched(result) =>
      var tracks := Lavalink.GetTracks(result);
      if result.loadType == "error" && result.exception.Some? then
        Reply(Failed(true, "❌ Error: ", result.exception.value.message))
      else if result.loadType == "empty" || |tracks| == 0 then Reply(Edited(NoResults))
      else PlayFirst(tracks[0])
  }

  /** The correction changes nothing but the failed-load reply. */
  lemma ChooseTrackOnlyFixesLoadError(search: SearchOutcome)
    requires !(search.Searched? && search.result.loadType == "error" && search.result.exception.Some?)
    ensures ChooseTrack(search) == ChooseTrackAsWritten(search)
  {
  }

  /** The text of a Lavalink error; a failed voice join is followed by the error it wraps. */
  function PlaybackErrorText(e: Lavalink.PlaybackError): (t: string)
    ensures e.JoinVoiceFailed? ==> t == "error joining voice channel: " + e.cause
    ensures e.NoAvailableNodes? ==> t == "no available nodes"
  {
    match e
    case JoinVoiceFailed(cause) => "error joining voice channel: " + cause
    case NoAvailableNodes => "no available nodes"
  }

  /**
   * `playHandler`. `voiceChannel` is the invoker's voice channel as the
   * session state knows it (None when the lookup fails), `search` what the
   * search returns, `joinError` the voice join's error (None when it
   * succeeds) and `httpOk` how the node requests go. `searched` says whether a search was made.
   * The search result is judged by the corrected `ChooseTrack`, so a failed
   * load is answered with its error; as written it is answered as having no
   * results (`LoadErrorReportedAsNoResults`).
   */
  method PlayHandler(query: string, voiceChannel: Option<string>, lava: Lavalink.LavalinkClient?,
                     guildId: string, channelId: string, search: SearchOutcome,
                     joinError: Option<string>, httpOk: seq<bool>) returns (r: Response, searched: bool)
    requires lava != null ==> lava.Valid() && |httpOk| == |lava.nodes|
    modifies lava, if lava != null then lava.players.Values else {}
    ensures query == "" ==> r == Ephemeral(NoQuery) && !searched
    ensures query != "" && (voiceChannel.None? || voiceChannel.value == "") ==> r == Ephemeral(NotInVoice) && !searched
    ensures query != "" && voiceChannel.Some? && voiceChannel.value != "" && lava == null ==> r == Edited(Unavailable) && !searched
    ensures searched <==> query != "" && voiceChannel.Some? && voiceChannel.value != "" && lava != null
    ensures searched && ChooseTrack(search).Reply? ==> r == ChooseTrack(search).response && lava != null && unchanged(lava)
    ensures searched && ChooseTrack(search).PlayFirst? ==>
      var track := ChooseTrack(search).track;
      lava.Valid() && guildId in lava.players
      && lava.players[guildId].State() == Lavalink.PlayState(old(lava.StateOf(guildId)), voiceChannel.value, channelId, track, joinError.None?)
      && r == if joinError.None? then TrackAdded(track)
              else Failed(true, "❌ Error reproduciendo: ", "error joining voice channel: " + joinError.value)
    ensures !searched && lava != null ==> unchanged(lava)
  {
    if query == "" {
      return Ephemeral(NoQuery), false;
    }
    if voiceChannel.None? || voiceChannel.value == "" {
      return Ephemeral(NotInVoice), false;
    }
    if lava == null {
      return Edited(Unavailable), false;
    }
    searched := true;
    var choice := ChooseTrack(search);
    if choice.Reply? {
      return choice.response, searched;
    }
    var err := lava.Play(guildId, voiceChannel.value, channelId, choice.track, joinError, httpOk);
    if err.Some? {
      return Failed(true, "❌ Error reproduciendo: ", PlaybackErrorText(err.value)), searched;
    }
    r := TrackAdded(choice.track);
  }

  /**
   * `pauseHandler`: the player is told the opposite of what it is, and the
   * reply says which way it went.
   */
  method PauseHandler(lava: Lavalink.LavalinkClient?, guildId: string, httpOk: seq<bool>) returns (r: Response)
    requires lava != null ==> lava.Valid() && |httpOk| == |lava.nodes|
    modifies lava, if lava != null then lava.players.Values else {}
    ensures lava == null ==> r == Ephemeral(Unavailable)
    ensures lava != null ==>
      lava.Valid() && guildId in lava.players
      && lava.players[guildId].State() == old(lava.StateOf(guildId)).(isPaused := !old(lava.StateOf(guildId)).isPaused)
    ensures lava != null ==> lava.players.Keys == old(lava.players.Keys) + {guildId}
    ensures lava != null ==> forall g :: g in old(lava.players) ==> lava.players[g] == old(lava.players[g])
    ensures lava != null && guildId !in old(lava.players) ==> fresh(lava.players[guildId])
    ensures lava != null && r.Message? ==> r.text == if old(lava.StateOf(guildId)).isPaused then Resumed else Paused
    ensures lava != null ==> (r.Message? <==> exists i :: 0 <= i < |lava.nodes| && lava.Accepts(i, httpOk))
  {
    if lava == null {
      return Ephemeral(Unavailable);
    }
    var player := lava.GetPlayer(guildId);
    var isPaused := player.isPaused;
    var err := lava.Pause(guildId, !isPaused, httpOk);
    if err.Some? {
      return Failed(false, "❌ Error: ", PlaybackErrorText(err.value));
    }
    if isPaused {
      return Message(Resumed);
    }
    return Message(Paused);
  }

  /**
   * `/pause` twice in a row on the same guild leaves its player as it was
   * (a player created by the first call stays registered, fresh), and when
   * both replies are messages the second says the opposite of the first.
   */
  method PauseTwiceRestores(lava: Lavalink.LavalinkClient, guildId: string, httpOk1: seq<bool>, httpOk2: seq<bool>)
    returns (first: Response, second: Response)
    requires lava.Valid() && |httpOk1| == |lava.nodes| && |httpOk2| == |lava.nodes|
    modifies lava, lava.players.Values
    ensures lava.Valid() && guildId in lava.players
    ensures lava.players[guildId].State() == old(lava.StateOf(guildId))
    ensures first.Message? && second.Message? ==> first.text != second.text
    ensures first.Message? ==> (first.text == Paused <==> !old(lava.StateOf(guildId)).isPaused)
  {
    first := PauseHandler(lava, guildId, httpOk1);
    second := PauseHandler(lava, guildId, httpOk2);
  }

  /** `queueHandler`: the listing of the guild's player, created on the spot when there is none. */
  method QueueHandler(lava: Lavalink.LavalinkClient?, guildId: string) returns (r: Response)
    requires lava != null ==> lava.Valid()
    modifies lava
    ensures lava == null ==> r == Ephemeral(Unavailable)
    ensures lava != null ==>
      lava.Valid() && guildId in lava.players
      && r == Message(QueueListing(old(lava.StateOf(guildId)).currentTrack, old(lava.StateOf(guildId)).queue))
  {
    if lava == null {
      return Ephemeral(Unavailable);
    }
    var player := lava.GetPlayer(guildId);
    var text := BuildQueueListing(player.currentTrack, player.queue);
    return Message(text);
  }
}
