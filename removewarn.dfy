/**
 * The moderation `/removewarn` command, which deletes one warning from a
 * user's document by its short ID, and its autocomplete, which offers the
 * user's warnings by ID. Both go through the shared warn data manager, whose
 * collection is "warns"; `/warn` opens its own on "Warns", and collection
 * names are case-sensitive, so the two commands do not see each other's
 * documents. The documents and the outcome of the database calls are
 * modelled as in the Warn module.
 */
module RemoveWarn {
  import opened Wrappers
  import opened Text
  import opened Replies
  import Paging
  import Warn

  type Warning = Warn.Warning
  type WarnStore = Warn.WarnStore
  type User = Warn.User

  /** The collection of the shared warn data manager, which this command reads and writes. */
  const RemoveWarnCollection := "warns"

  // -----------------------------------------------------------------------
  // The removal loop

  /** Whether a warning does not carry the given ID. */
  function KeepsOtherIds(id: string): Warning -> bool
  {
    (w: Warning) => w.id != id
  }

  /** The position of the last warning carrying the ID, or -1 when none does. */
  function LastIdAt(warns: seq<Warning>, id: string): (at: int)
    ensures -1 <= at < |warns|
  {
    if warns == [] then -1
    else if warns[|warns| - 1].id == id then |warns| - 1
    else LastIdAt(warns[..|warns| - 1], id)
  }

  lemma LastIdAtStep(warns: seq<Warning>, id: string, i: int)
    requires 0 <= i < |warns|
    ensures LastIdAt(warns[..i + 1], id) == if warns[i].id == id then i else LastIdAt(warns[..i], id)
  {
    assert warns[..i + 1][..i] == warns[..i];
  }

  /**
   * `LastIdAt` finds the last warning carrying the ID: it carries it, none
   * after it does, and it is -1 exactly when no warning carries the ID.
   */
  lemma {:induction false} LastIdAtIsLast(warns: seq<Warning>, id: string)
    ensures LastIdAt(warns, id) >= 0 ==> warns[LastIdAt(warns, id)].id == id
    ensures forall j :: LastIdAt(warns, id) < j < |warns| ==> warns[j].id != id
    ensures LastIdAt(warns, id) >= 0 <==> exists w :: w in warns && w.id == id
  {
    if warns != [] {
      var n := |warns| - 1;
      LastIdAtIsLast(warns[..n], id);
      assert warns == warns[..n] + [warns[n]];
      if warns[n].id != id {
        assert forall w :: w in warns ==> w in warns[..n] || w == warns[n];
        assert forall w :: w in warns[..n] ==> w in warns;
      } else {
        assert warns[n] in warns;
      }
    }
  }

  /**
   * The removal loop: every warning with a different ID is kept in order;
   * `found` says whether any carried the ID, and `removed` is the last one
   * that did.
   */
  method SplitWarnings(warns: seq<Warning>, id: string) returns (kept: seq<Warning>, found: bool, removed: Warning)
    ensures kept == Filter(warns, KeepsOtherIds(id))
    ensures found <==> exists w :: w in warns && w.id == id
    ensures found ==> LastIdAt(warns, id) >= 0 && removed == warns[LastIdAt(warns, id)]
    ensures found ==> removed.id == id && forall j :: LastIdAt(warns, id) < j < |warns| ==> warns[j].id != id
  {
    kept := [];
    found := false;
    removed := Warn.Warning("", "", "", 0);
    for i := 0 to |warns|
      invariant kept == Filter(warns[..i], KeepsOtherIds(id))
      invariant found <==> LastIdAt(warns[..i], id) >= 0
      invariant found ==> removed == warns[LastIdAt(warns[..i], id)]
    {
      FilterStep(warns, i, KeepsOtherIds(id));
      LastIdAtStep(warns, id, i);
      if warns[i].id == id {
        removed := warns[i];
        found := true;
      } else {
        assert KeepsOtherIds(id)(warns[i]);
        kept := kept + [warns[i]];
      }
    }
    assert warns[..|warns|] == warns;
    LastIdAtIsLast(warns, id);
  }

  /**
   * Removal loses exactly the warnings carrying the ID: none of them is
   * left, every other one is, and the count drops by how many carried it.
   */
  lemma {:induction false} RemovalCounts(warns: seq<Warning>, id: string)
    ensures forall w :: w in Filter(warns, KeepsOtherIds(id)) <==> w in warns && w.id != id
    ensures |Filter(warns, KeepsOtherIds(id))| + |Filter(warns, (w: Warning) => w.id == id)| == |warns|
  {
    if warns != [] {
      var n := |warns| - 1;
      RemovalCounts(warns[..n], id);
      assert warns[..n] + [warns[n]] == warns;
      FilterStep(warns, n, KeepsOtherIds(id));
      FilterStep(warns, n, (w: Warning) => w.id == id);
    }
  }

  /**
   * `/warn` followed by `/removewarn` with the new warning's ID gives the
   * user back the warnings they had, provided none of them shared that ID.
   */
  lemma RemoveUndoesWarn(prior: seq<Warning>, w: Warning)
    requires forall v :: v in prior ==> v.id != w.id
    ensures Filter(prior + [w], KeepsOtherIds(w.id)) == prior
  {
    FilterStep(prior + [w], |prior|, KeepsOtherIds(w.id));
    assert (prior + [w])[..|prior| + 1] == prior + [w];
    assert (prior + [w])[..|prior|] == prior;
    FilterKeepsAll(prior, KeepsOtherIds(w.id));
  }

  // -----------------------------------------------------------------------
  // removeWarnHandler

  const NoId := "❌ Debes especificar el ID de la advertencia."
  const NoWarningsMessage := "❌ El usuario no tiene advertencias."
  const NotFoundMessage := "❌ No se encontró una advertencia con ese ID."

  /**
   * How the command ended: refused with an ephemeral message, the first
   * reply failed, the read failed, the user had no warnings, none had the
   * ID, the write failed, or the warning was removed.
   */
  datatype RemoveOutcome =
    | Refused(message: string)
    | ReplyFailed
    | ReadFailed
    | NoWarnings
    | NotFound
    | SaveFailed
    | Removed(warning: Warning)

  /**
   * `removeWarnHandler` in guild `guildId` against the collection
   * `RemoveWarnCollection`: the user and the ID are checked before anything
   * else, the database is read only after the first reply, and the document
   * is rewritten only when a warning with the ID exists. A failed write is
   * queued (and the cached document it came from is already rewritten), so
   * the removal lands even then; only the reply differs.
   */
  method RemoveWarning(target: Option<User>, warnId: string, guildId: string, replyOk: bool,
                       store: WarnStore, readOk: bool, writeOk: bool)
    returns (outcome: RemoveOutcome, after: WarnStore)
    ensures !(outcome.Removed? || outcome == SaveFailed) ==> after == store
    ensures target.None? ==> outcome == Refused(Warn.NoUser)
    ensures target.Some? && warnId == "" ==> outcome == Refused(NoId)
    ensures !outcome.Refused? <==> target.Some? && warnId != ""
    ensures outcome == ReplyFailed <==> !outcome.Refused? && !replyOk
    ensures outcome == ReadFailed <==> !outcome.Refused? && replyOk && !readOk
    ensures outcome == NoWarnings <==> !outcome.Refused? && replyOk && readOk && Warn.Prior(store, guildId, target.value.id) == []
    ensures outcome == NotFound <==>
      !outcome.Refused? && replyOk && readOk && Warn.Prior(store, guildId, target.value.id) != []
      && forall w :: w in Warn.Prior(store, guildId, target.value.id) ==> w.id != warnId
    ensures outcome == SaveFailed <==>
      !outcome.Refused? && replyOk && readOk && !writeOk
      && exists w :: w in Warn.Prior(store, guildId, target.value.id) && w.id == warnId
    ensures outcome.Removed? <==>
      !outcome.Refused? && replyOk && readOk && writeOk
      && exists w :: w in Warn.Prior(store, guildId, target.value.id) && w.id == warnId
    ensures outcome.Removed? ==>
      var key := (guildId, target.value.id);
      key in store && outcome.warning in store[key].warns && outcome.warning.id == warnId
      && after == store[key := store[key].(warns := Filter(store[key].warns, KeepsOtherIds(warnId)))]
    ensures outcome.Removed? || outcome == SaveFailed ==>
      var key := (guildId, target.value.id);
      key in store && after == store[key := store[key].(warns := Filter(store[key].warns, KeepsOtherIds(warnId)))]
  {
    after := store;
    if target.None? {
      return Refused(Warn.NoUser), after;
    }
    if warnId == "" {
      return Refused(NoId), after;
    }
    if !replyOk {
      return ReplyFailed, after;
    }
    if !readOk {
      return ReadFailed, after;
    }
    var key := (guildId, target.value.id);
    if key !in store || store[key].warns == [] {
      return NoWarnings, after;
    }
    var doc := store[key];
    var kept, found, removed := SplitWarnings(doc.warns, warnId);
    if !found {
      return NotFound, after;
    }
    after := store[key := doc.(warns := kept)];
    if !writeOk {
      return SaveFailed, after;
    }
    assert doc.warns[LastIdAt(doc.warns, warnId)] in doc.warns;
    return Removed(removed), after;
  }

  // -----------------------------------------------------------------------
  // The two warn collections

  /** The warn collections of the database by name; a collection never written is empty. */
  type Collections = map<string, WarnStore>

  function Collection(db: Collections, name: string): WarnStore
  {
    if name in db then db[name] else map[]
  }

  /** A successful `/warn` as written: the warning is recorded in `Warn.WarnCollection`. */
  function WarnAsWritten(db: Collections, guildId: string, userId: string, w: Warning): (after: Collections)
    ensures Warn.Prior(Collection(after, Warn.WarnCollection), guildId, userId)
         == Warn.Prior(Collection(db, Warn.WarnCollection), guildId, userId) + [w]
  {
    db[Warn.WarnCollection := Warn.Record(Collection(db, Warn.WarnCollection), guildId, userId, w)]
  }

  /** A successful `/warn` recording into the collection `/removewarn` reads. */
  function WarnShared(db: Collections, guildId: string, userId: string, w: Warning): (after: Collections)
    ensures Warn.Prior(Collection(after, RemoveWarnCollection), guildId, userId)
         == Warn.Prior(Collection(db, RemoveWarnCollection), guildId, userId) + [w]
  {
    db[RemoveWarnCollection := Warn.Record(Collection(db, RemoveWarnCollection), guildId, userId, w)]
  }

  /**
   * As written, a warning just given cannot be removed: with every call
   * succeeding, `/removewarn` with the new warning's ID answers that the
   * user has no warnings, as long as the shared collection held none for
   * them (a fresh database, say).
   */
  method RemoveAfterWarnAsWritten(db: Collections, target: User, guildId: string, w: Warning)
    returns (outcome: RemoveOutcome)
    requires Warn.Prior(Collection(db, RemoveWarnCollection), guildId, target.id) == []
    requires w.id != ""
    ensures outcome == NoWarnings
  {
    var warned := WarnAsWritten(db, guildId, target.id, w);
    assert Collection(warned, RemoveWarnCollection) == Collection(db, RemoveWarnCollection);
    var after;
    outcome, after := RemoveWarning(Some(target), w.id, guildId, true, Collection(warned, RemoveWarnCollection), true, true);
  }

  /**
   * With both commands on the shared collection, `/removewarn` with the new
   * warning's ID removes exactly that warning and gives the user back the
   * warnings they had, provided none of them shared the ID.
   */
  method RemoveAfterWarn(db: Collections, target: User, guildId: string, w: Warning)
    returns (outcome: RemoveOutcome, after: WarnStore)
    requires forall v :: v in Warn.Prior(Collection(db, RemoveWarnCollection), guildId, target.id) ==> v.id != w.id
    requires w.id != ""
    ensures outcome == Removed(w)
    ensures Warn.Prior(after, guildId, target.id) == Warn.Prior(Collection(db, RemoveWarnCollection), guildId, target.id)
  {
    var prior := Warn.Prior(Collection(db, RemoveWarnCollection), guildId, target.id);
    var warned := Collection(WarnShared(db, guildId, target.id, w), RemoveWarnCollection);
    assert w in Warn.Prior(warned, guildId, target.id) by {
      assert Warn.Prior(warned, guildId, target.id) == prior + [w];
    }
    outcome, after := RemoveWarning(Some(target), w.id, guildId, true, warned, true, true);
    RemoveUndoesWarn(prior, w);
  }

  // -----------------------------------------------------------------------
  // removeWarnAutoComplete

  /** "ID: <id> - Razón: <reason>", with the "ó" spelled as its two UTF-8 bytes, cut to 100 bytes. */
  function WarnChoice(w: Warning): (c: Choice)
    ensures c.value == w.id && |c.name| <= MaxChoiceName
  {
    Choice(TruncateChoiceName("ID: " + w.id + " - Raz\U{C3}\U{B3}n: " + w.reason), w.id)
  }

  /**
   * The choices offered for a user's warnings: the first 25 in stored
   * order, whatever has been typed, each valued by its warning's ID.
   */
  function WarnChoices(warns: seq<Warning>): (cs: seq<Choice>)
    ensures |cs| == Paging.Min(|warns|, MaxChoices)
    ensures forall i :: 0 <= i < |cs| ==> cs[i] == WarnChoice(warns[i])
  {
    Paging.Map(warns[..Paging.Min(|warns|, MaxChoices)], WarnChoice)
  }

  /** The choosing loop, which stops after 25 warnings. */
  method FirstChoices(warns: seq<Warning>) returns (choices: seq<Choice>)
    ensures choices == WarnChoices(warns)
  {
    choices := [];
    var i := 0;
    while i < |warns|
      invariant 0 <= i <= |warns| && i <= MaxChoices
      invariant choices == Paging.Map(warns[..i], WarnChoice)
    {
      if i >= MaxChoices {
        break;
      }
      Paging.MapSnoc(warns[..i], warns[i], WarnChoice);
      assert warns[..i + 1] == warns[..i] + [warns[i]];
      choices := choices + [WarnChoice(warns[i])];
      i := i + 1;
    }
  }

  /**
   * `removeWarnAutoComplete`: no answer at all (None) without a user, when
   * the read fails, or when the user has no warnings; otherwise between 1
   * and 25 choices naming the user's first warnings.
   */
  method AutoComplete(target: Option<User>, guildId: string, store: WarnStore, readOk: bool)
    returns (answer: Option<seq<Choice>>)
    ensures answer.None? <==> target.None? || !readOk || Warn.Prior(store, guildId, target.value.id) == []
    ensures answer.Some? ==> answer.value == WarnChoices(Warn.Prior(store, guildId, target.value.id))
    ensures answer.Some? ==> 1 <= |answer.value| <= MaxChoices
    ensures answer.Some? ==> forall c :: c in answer.value ==>
      |c.name| <= MaxChoiceName && exists w :: w in Warn.Prior(store, guildId, target.value.id) && c.value == w.id
  {
    if target.None? || !readOk {
      return None;
    }
    var key := (guildId, target.value.id);
    if key !in store || store[key].warns == [] {
      return None;
    }
    var warns := store[key].warns;
    var choices := FirstChoices(warns);
    assert forall c :: c in choices ==> exists i :: 0 <= i < |choices| && choices[i] == c && warns[i] in warns;
    return Some(choices);
  }
}
