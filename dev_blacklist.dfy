/**
 * The developer `/blacklist` command: add, remove and list entries, and the
 * autocomplete for removal. The database calls it makes are not part of
 * this model; their outcomes are parameters, and each handler returns the
 * call it would make so the order of checks can be stated. A time of 0
 * stands for Go's zero `time.Time`.
 */
module DevBlacklist {
  import opened Wrappers
  import opened Text
  import opened Replies
  import Paging
  import Blacklists

  type Blacklist = Blacklists.Blacklist

  // -----------------------------------------------------------------------
  // Names

  /** `getTypeName`: "usuario" for the user type, "servidor" for anything else. */
  function TypeName(kind: string): (n: string)
    ensures n == (if kind == Blacklists.UserType then "usuario" else "servidor")
  {
    if kind == Blacklists.UserType then "usuario" else "servidor"
  }

  /** `getTypeEmoji`, as UTF-8 bytes. */
  function TypeEmoji(kind: string): (e: string)
    ensures |e| == 4
    ensures e == UserEmoji <==> kind == Blacklists.UserType
  {
    if kind == Blacklists.UserType then UserEmoji else GuildEmoji
  }

  /** `getFilterName`. */
  function FilterName(filter: string): (n: string)
    ensures filter == Blacklists.UserType ==> n == "Usuarios"
    ensures filter == Blacklists.GuildType ==> n == "Servidores"
    ensures filter != Blacklists.UserType && filter != Blacklists.GuildType ==> n == "Todos"
  {
    match filter
    case "user" => "Usuarios"
    case "guild" => "Servidores"
    case _ => "Todos"
  }

  // -----------------------------------------------------------------------
  // formatBlacklistEntry

  function TypeLine(e: Blacklist): string { "**Tipo:** " + TypeName(e.kind) }
  function ReasonLine(e: Blacklist): string { "**Razón:** " + e.reason }
  function AddedByLine(e: Blacklist): string { "**Añadido por:** <@" + e.addedBy + ">" }
  function DateLine(e: Blacklist): string { "**Fecha:** <t:" + IntToString(e.addedAt / 1000) + ":R>" }

  /**
   * The lines of an entry's description: the type always comes first; the
   * reason, who added it and when follow only when they are set, in that
   * order.
   */
  function EntryParts(e: Blacklist): (parts: seq<string>)
    ensures |parts| >= 1 && parts[0] == TypeLine(e)
    ensures ReasonLine(e) in parts <==> e.reason != ""
    ensures AddedByLine(e) in parts <==> e.addedBy != ""
    ensures DateLine(e) in parts <==> e.addedAt != 0
    ensures |parts| == 1 + (if e.reason != "" then 1 else 0) + (if e.addedBy != "" then 1 else 0) + (if e.addedAt != 0 then 1 else 0)
  {
    var parts := [TypeLine(e)]
      + (if e.reason != "" then [ReasonLine(e)] else [])
      + (if e.addedBy != "" then [AddedByLine(e)] else [])
      + (if e.addedAt != 0 then [DateLine(e)] else []);
    assert TypeLine(e)[..2] == "**" && TypeLine(e)[2] == 'T';
    assert ReasonLine(e)[2] == 'R' && AddedByLine(e)[2] == 'A' && DateLine(e)[2] == 'F';
    parts
  }

  /** `formatBlacklistEntry`: the lines joined by newlines. */
  function FormatEntry(e: Blacklist): string
  {
    Join(EntryParts(e), "\n")
  }

  // -----------------------------------------------------------------------
  // blacklistAddHandler

  const InvalidType := "❌ Tipo inválido. Usa 'user' o 'guild'."
  const AlreadyListed := "❌ Este ID ya está en la blacklist."
  const AddFailed := "❌ Error al añadir a la blacklist."
  const DefaultReason := "No especificada"

  /** What `database.AddToBlacklist` answered. */
  datatype AddOutcome = AddOk | AlreadyBlacklisted | AddError

  /** The guild being blacklisted, as the session sees it; `ownerReachable` when a DM channel to its owner opens. */
  datatype GuildSeen = GuildSeen(name: string, ownerReachable: bool)

  /** The call `database.AddToBlacklist(id, type, reason, addedBy)`. */
  datatype AddCall = AddCall(id: string, kind: string, reason: string, addedBy: string)

  /** The reply, the database call made (if any), and whether the owner was told and the guild left. */
  datatype AddEffects = AddEffects(reply: Embed, call: Option<AddCall>, ownerNotified: bool, leftGuild: bool)

  function AddedEmbed(kind: string, id: string, reason: string): Embed
  {
    Embed("✅ Añadido a la Blacklist",
          "El " + TypeName(kind) + " con ID `" + id + "` ha sido añadido a la blacklist.",
          Green,
          [Field("Tipo", TypeName(kind), true), Field("ID", "`" + id + "`", true), Field("Razón", reason, false)])
  }

  /**
   * `blacklistAddHandler`. Only the developer gets past the gate; only
   * "user" and "guild" reach the database; the reason defaults to "No
   * especificada"; a guild the bot is in is left once it is blacklisted.
   */
  function Add(caller: string, tipo: string, id: string, razon: string, outcome: AddOutcome, guild: Option<GuildSeen>): (r: AddEffects)
    ensures !IsDev(caller) ==> r == AddEffects(ErrorEmbed(AccessDenied, DevOnly), None, false, false)
    ensures IsDev(caller) && tipo != Blacklists.UserType && tipo != Blacklists.GuildType ==>
      r == AddEffects(ErrorEmbed("Error", InvalidType), None, false, false)
    ensures r.call.Some? <==> IsDev(caller) && (tipo == Blacklists.UserType || tipo == Blacklists.GuildType)
    ensures r.call.Some? ==>
      r.call.value == AddCall(id, tipo, if razon == "" then DefaultReason else razon, caller)
    ensures r.leftGuild <==> r.call.Some? && tipo == Blacklists.GuildType && outcome == AddOk && guild.Some?
    ensures r.ownerNotified <==> r.leftGuild && guild.value.ownerReachable
    ensures r.call.Some? && outcome == AlreadyBlacklisted ==> r.reply == ErrorEmbed("Error", AlreadyListed)
    ensures r.call.Some? && outcome == AddError ==> r.reply == ErrorEmbed("Error", AddFailed)
    ensures r.call.Some? && outcome == AddOk ==> r.reply == AddedEmbed(tipo, id, r.call.value.reason)
  {
    if !IsDev(caller) then AddEffects(ErrorEmbed(AccessDenied, DevOnly), None, false, false)
    else
      var reason := if razon == "" then DefaultReason else razon;
      if tipo != Blacklists.UserType && tipo != Blacklists.GuildType then
        AddEffects(ErrorEmbed("Error", InvalidType), None, false, false)
      else
        var call := Some(AddCall(id, tipo, reason, caller));
        match outcome
        case AlreadyBlacklisted => AddEffects(ErrorEmbed("Error", AlreadyListed), call, false, false)
        case AddError => AddEffects(ErrorEmbed("Error", AddFailed), call, false, false)
        case AddOk =>
          var leave := tipo == Blacklists.GuildType && guild.Some?;
          AddEffects(AddedEmbed(tipo, id, reason), call, leave && guild.value.ownerReachable, leave)
  }

  // -----------------------------------------------------------------------
  // blacklistRemoveHandler

  const NoId := "❌ Debes especificar un ID válido."
  const NotListed := "❌ Este ID no está en la blacklist."
  const RemoveFailed := "❌ Error al eliminar de la blacklist."

  function RemovedEmbed(e: Blacklist, id: string): Embed
  {
    Embed("✅ Eliminado de la Blacklist",
          "El " + TypeName(e.kind) + " con ID `" + id + "` ha sido eliminado de la blacklist.",
          Green,
          [Field("Tipo", TypeName(e.kind), true), Field("ID", "`" + id + "`", true)]
          + (if e.reason != "" then [Field("Razón Original", e.reason, false)] else []))
  }

  /**
   * `blacklistRemoveHandler`: `entry` is what `GetBlacklistEntry` found,
   * `removeOk` whether `RemoveFromBlacklist` succeeded. The result says
   * whether the removal was attempted: only for the developer, a non-empty
   * ID and an entry that exists.
   */
  function Remove(caller: string, id: string, entry: Option<Blacklist>, removeOk: bool): (r: (Embed, bool))
    ensures r.1 <==> IsDev(caller) && id != "" && entry.Some?
    ensures !IsDev(caller) ==> r.0 == ErrorEmbed(AccessDenied, DevOnly)
    ensures IsDev(caller) && id == "" ==> r.0 == ErrorEmbed("Error", NoId)
    ensures IsDev(caller) && id != "" && entry.None? ==> r.0 == ErrorEmbed("Error", NotListed)
    ensures r.1 && removeOk ==> r.0 == RemovedEmbed(entry.value, id)
    ensures r.1 && removeOk ==> (|r.0.fields| == 3 <==> entry.value.reason != "")
    ensures r.1 && !removeOk ==> r.0 == ErrorEmbed("Error", RemoveFailed)
  {
    if !IsDev(caller) then (ErrorEmbed(AccessDenied, DevOnly), false)
    else if id == "" then (ErrorEmbed("Error", NoId), false)
    else if entry.None? then (ErrorEmbed("Error", NotListed), false)
    else if !removeOk then (ErrorEmbed("Error", RemoveFailed), true)
    else (RemovedEmbed(entry.value, id), true)
  }

  // -----------------------------------------------------------------------
  // blacklistListHandler

  const AllFilter := "all"
  const ListFailed := "❌ Error al obtener la blacklist."

  /** The filter: the `tipo` option when given, "all" otherwise. */
  function ListFilter(hasTipo: bool, tipo: string): string
  {
    if hasTipo then tipo else AllFilter
  }

  /** Which database listing the filter asks for. */
  datatype ListQuery = AllEntries | EntriesOfType(kind: string)

  /** "all" lists everything, "user" the users, and any other filter the guilds. */
  function QueryFor(filter: string): (q: ListQuery)
    ensures q == AllEntries <==> filter == AllFilter
    ensures filter == Blacklists.UserType ==> q == EntriesOfType(Blacklists.UserType)
    ensures filter != AllFilter && filter != Blacklists.UserType ==> q == EntriesOfType(Blacklists.GuildType)
  {
    if filter == AllFilter then AllEntries
    else if filter == Blacklists.UserType then EntriesOfType(Blacklists.UserType)
    else EntriesOfType(Blacklists.GuildType)
  }

  const EmptyListEmbed := Embed("📋 Blacklist", "No hay entradas en la blacklist con los filtros especificados.", Yellow, [])

  function EntryField(e: Blacklist): Field
  {
    Field(TypeEmoji(e.kind) + " `" + e.id + "`", FormatEntry(e), false)
  }

  function EntryFields(es: seq<Blacklist>): (fs: seq<Field>)
    ensures |fs| == |es| && forall i :: 0 <= i < |es| ==> fs[i] == EntryField(es[i])
  {
    Paging.Map(es, EntryField)
  }

  /** The embed for page `k`: its range "(first-last de n)" and the fields of its entries. */
  function PageEmbed(entries: seq<Blacklist>, filter: string, k: nat): Embed
    requires k < Paging.PageCount(|entries|)
  {
    Embed("📋 Blacklist (" + NatToString(k * Paging.PageSize + 1) + "-" + NatToString(Paging.PageEnd(|entries|, k))
          + " de " + NatToString(|entries|) + ")",
          if filter != AllFilter then "Filtrando por: " + FilterName(filter) else "",
          Red,
          EntryFields(Paging.Page(entries, k)))
  }

  /** The inner loop: one field per entry of the page, in order. */
  method PageFields(page: seq<Blacklist>) returns (fields: seq<Field>)
    ensures fields == EntryFields(page)
  {
    fields := [];
    for i := 0 to |page|
      invariant fields == EntryFields(page[..i])
    {
      fields := fields + [EntryField(page[i])];
    }
    assert page[..|page|] == page;
  }

  /** One pass of the outer loop: the embed for the page starting at entry `10·k`. */
  method BuildPage(entries: seq<Blacklist>, filter: string, k: nat) returns (e: Embed)
    requires k < Paging.PageCount(|entries|)
    ensures e == PageEmbed(entries, filter, k)
  {
    var i := k * Paging.PageSize;
    var end := i + Paging.PageSize;
    if end > |entries| {
      end := |entries|;
    }
    var title := "📋 Blacklist (" + NatToString(i + 1) + "-" + NatToString(end) + " de " + NatToString(|entries|) + ")";
    var description := if filter != AllFilter then "Filtrando por: " + FilterName(filter) else "";
    var fields := PageFields(entries[i..end]);
    e := Embed(title, description, Red, fields);
  }

  /** The embeds of a listing: one yellow embed when empty, else one per page of ten. */
  method ListEmbeds(entries: seq<Blacklist>, filter: string) returns (embeds: seq<Embed>)
    ensures entries == [] ==> embeds == [EmptyListEmbed]
    ensures entries != [] ==> |embeds| == Paging.PageCount(|entries|)
    ensures entries != [] ==> forall k :: 0 <= k < |embeds| ==> embeds[k] == PageEmbed(entries, filter, k)
  {
    if |entries| == 0 {
      return [EmptyListEmbed];
    }
    embeds := [];
    var i := 0;
    while i < |entries|
      invariant |embeds| <= Paging.PageCount(|entries|)
      invariant i == if |embeds| == Paging.PageCount(|entries|) then |entries| else |embeds| * Paging.PageSize
      invariant |embeds| < Paging.PageCount(|entries|) ==> |embeds| * Paging.PageSize < |entries|
      invariant forall k :: 0 <= k < |embeds| ==> embeds[k] == PageEmbed(entries, filter, k)
    {
      Paging.PageStep(|entries|, |embeds|);
      var e := BuildPage(entries, filter, |embeds|);
      embeds := embeds + [e];
      i := if i + Paging.PageSize > |entries| then |entries| else i + Paging.PageSize;
      if |embeds| < Paging.PageCount(|entries|) {
        Paging.PageStep(|entries|, |embeds|);
      }
    }
  }

  /** Every listed entry appears in exactly one embed, in order: the embeds' fields laid end to end are the entries' fields. */
  lemma ListingCoversEntries(entries: seq<Blacklist>, filter: string, embeds: seq<Embed>)
    requires entries != [] && |embeds| == Paging.PageCount(|entries|)
    requires forall k :: 0 <= k < |embeds| ==> embeds[k] == PageEmbed(entries, filter, k)
    ensures Paging.Concat(seq(|embeds|, k requires 0 <= k < |embeds| => embeds[k].fields)) == EntryFields(entries)
  {
    var pages := Paging.Pages(entries);
    Paging.PagesPartition(entries);
    Paging.ConcatMap(pages, EntryField);
    assert seq(|embeds|, k requires 0 <= k < |embeds| => embeds[k].fields)
        == seq(|pages|, k requires 0 <= k < |pages| => Paging.Map(pages[k], EntryField));
  }

  /**
   * `blacklistListHandler`: the developer gate, then the query for the
   * filter; `fetched` is what the database returned (None for an error).
   */
  method List(caller: string, hasTipo: bool, tipo: string, fetched: Option<seq<Blacklist>>)
    returns (query: Option<ListQuery>, embeds: seq<Embed>)
    ensures !IsDev(caller) ==> query.None? && embeds == [ErrorEmbed(AccessDenied, DevOnly)]
    ensures IsDev(caller) ==> query == Some(QueryFor(ListFilter(hasTipo, tipo)))
    ensures IsDev(caller) && fetched.None? ==> embeds == [ErrorEmbed("Error", ListFailed)]
    ensures IsDev(caller) && fetched.Some? && fetched.value != [] ==>
      |embeds| == Paging.PageCount(|fetched.value|)
      && forall k :: 0 <= k < |embeds| ==> embeds[k] == PageEmbed(fetched.value, ListFilter(hasTipo, tipo), k)
    ensures IsDev(caller) && fetched == Some([]) ==> embeds == [EmptyListEmbed]
  {
    if !IsDev(caller) {
      return None, [ErrorEmbed(AccessDenied, DevOnly)];
    }
    var filter := ListFilter(hasTipo, tipo);
    query := Some(QueryFor(filter));
    if fetched.None? {
      return query, [ErrorEmbed("Error", ListFailed)];
    }
    embeds := ListEmbeds(fetched.value, filter);
  }

  // -----------------------------------------------------------------------
  // blacklistRemoveAutoComplete

  const NoEntriesChoice := Choice("No se encontraron entradas", "none")

  /** Whether an entry matches what the user has typed (ASCII case folding). */
  function MatchesFocus(focused: string): Blacklist -> bool
  {
    (e: Blacklist) => focused == "" || Contains(ToLowerAscii(e.id), ToLowerAscii(focused))
  }

  function EntryChoice(e: Blacklist): Choice
  {
    Choice(TruncateChoiceName(TypeEmoji(e.kind) + " " + e.id), e.id)
  }

  function EntryChoices(es: seq<Blacklist>): (cs: seq<Choice>)
    ensures |cs| == |es| && forall i :: 0 <= i < |es| ==> cs[i] == EntryChoice(es[i])
  {
    Paging.Map(es, EntryChoice)
  }

  /**
   * The choices offered: the first 25 matching entries in listing order,
   * or the "none" placeholder when nothing matches.
   */
  function AutoCompleteChoices(entries: seq<Blacklist>, focused: string): (cs: seq<Choice>)
    ensures 1 <= |cs| <= MaxChoices
    ensures forall c :: c in cs ==> |c.name| <= MaxChoiceName
    ensures cs == [NoEntriesChoice] <==> forall e :: e in entries ==> !MatchesFocus(focused)(e)
    ensures cs != [NoEntriesChoice] ==> forall c :: c in cs ==> exists e :: e in entries && MatchesFocus(focused)(e) && c.value == e.id
  {
    var m := FirstMatches(entries, MatchesFocus(focused), MaxChoices);
    if m == [] then
      assert Filter(entries, MatchesFocus(focused)) == [];
      [NoEntriesChoice]
    else
      var cs := EntryChoices(m);
      assert forall c :: c in cs ==> exists i :: 0 <= i < |m| && c == EntryChoice(m[i]);
      assert m[0] in Filter(entries, MatchesFocus(focused));
      assert cs[0].name != NoEntriesChoice.name by {
        assert |TypeEmoji(m[0].kind)| == 4;
        assert cs[0].name[0] == TypeEmoji(m[0].kind)[0] != 'N';
      }
      cs
  }

  /** The choosing loop: stops at 25 choices, keeps the matching entries in order. */
  method FirstChoices(es: seq<Blacklist>, focused: string) returns (choices: seq<Choice>)
    ensures choices == EntryChoices(FirstMatches(es, MatchesFocus(focused), MaxChoices))
  {
    var keep := MatchesFocus(focused);
    choices := [];
    ghost var taken: seq<Blacklist> := [];
    var i := 0;
    assert es[..0] == [];
    while i < |es|
      invariant 0 <= i <= |es|
      invariant taken == Filter(es[..i], keep)
      invariant choices == EntryChoices(taken)
      invariant |taken| <= MaxChoices
    {
      if |choices| >= MaxChoices {
        break;
      }
      FilterStep(es, i, keep);
      var matches := keep(es[i]);
      if matches {
        Paging.MapSnoc(taken, es[i], EntryChoice);
        taken := taken + [es[i]];
        choices := choices + [EntryChoice(es[i])];
      }
      i := i + 1;
    }
    if i < |es| {
      FirstMatchesOfPrefix(es, i, keep, MaxChoices);
    } else {
      assert es[..i] == es;
    }
  }

  /** `blacklistRemoveAutoComplete`: no choices when the listing fails. */
  method AutoComplete(entries: Option<seq<Blacklist>>, focused: string) returns (choices: seq<Choice>)
    ensures entries.None? ==> choices == []
    ensures entries.Some? ==> choices == AutoCompleteChoices(entries.value, focused)
  {
    if entries.None? {
      return [];
    }
    choices := FirstChoices(entries.value, focused);
    if |choices| == 0 {
      choices := [NoEntriesChoice];
    }
  }
}
