/**
 * The developer `/codelist` command: filter the premium codes by status and
 * type, render them ten to an embed, and send the embeds one after another
 * until a send fails. Whether each send succeeds is a parameter.
 */
module CodeList {
  import opened Wrappers
  import opened Text
  import opened Replies
  import Paging
  import Premium

  type PremiumCode = Premium.PremiumCode

  const AllFilter := "all"
  const AvailableFilter := "available"
  const ClaimedFilter := "claimed"

  // -----------------------------------------------------------------------
  // Filtering

  /** Whether a code survives the status filter and the type filter ("" for any type). */
  function Keeps(filter: string, kind: string): PremiumCode -> bool
  {
    (pc: PremiumCode) =>
      !(filter == AvailableFilter && pc.isClaimed)
      && !(filter == ClaimedFilter && !pc.isClaimed)
      && (kind == "" || pc.codeType == kind)
  }

  /** The filtering loop of `codelistHandler`. */
  method FilterCodes(codes: seq<PremiumCode>, filter: string, kind: string) returns (kept: seq<PremiumCode>)
    ensures kept == Filter(codes, Keeps(filter, kind))
  {
    kept := [];
    assert codes[..0] == [];
    for i := 0 to |codes|
      invariant kept == Filter(codes[..i], Keeps(filter, kind))
    {
      FilterStep(codes, i, Keeps(filter, kind));
      if filter == AvailableFilter && codes[i].isClaimed {
        continue;
      }
      if filter == ClaimedFilter && !codes[i].isClaimed {
        continue;
      }
      if kind != "" && codes[i].codeType != kind {
        continue;
      }
      kept := kept + [codes[i]];
    }
    assert codes[..|codes|] == codes;
  }

  /**
   * What survives: "available" keeps exactly the unclaimed codes, "claimed"
   * exactly the claimed ones, any other filter both; a type keeps only codes
   * of that type.
   */
  lemma KeptCodes(codes: seq<PremiumCode>, filter: string, kind: string)
    ensures forall pc :: pc in Filter(codes, Keeps(filter, kind)) <==>
      pc in codes
      && (filter == AvailableFilter ==> !pc.isClaimed)
      && (filter == ClaimedFilter ==> pc.isClaimed)
      && (kind != "" ==> pc.codeType == kind)
  {
  }

  /** With no status or type filter every code is listed, in its order. */
  lemma NoFilterKeepsAll(codes: seq<PremiumCode>, filter: string)
    requires filter != AvailableFilter && filter != ClaimedFilter
    ensures Filter(codes, Keeps(filter, "")) == codes
  {
    FilterKeepsAll(codes, Keeps(filter, ""));
  }

  /** Filtering twice with the same filters changes nothing: the result is already filtered. */
  lemma FilterIdempotent(codes: seq<PremiumCode>, filter: string, kind: string)
    ensures Filter(Filter(codes, Keeps(filter, kind)), Keeps(filter, kind)) == Filter(codes, Keeps(filter, kind))
  {
    FilterKeepsAll(Filter(codes, Keeps(filter, kind)), Keeps(filter, kind));
  }

  // -----------------------------------------------------------------------
  // formatCodeInfo and getFilterDescription

  /** The kinds of line `formatCodeInfo` can write, in the order it writes them. */
  datatype InfoLine = TypeLine | StatusLine | ClaimedByLine | ClaimedAtLine | DurationLine | CreatedAtLine | CreatedByLine

  /**
   * The lines describing a code: its type, its status, who claimed it and
   * when (only for a claimed code, and only when known), its duration,
   * then when and by whom it was created, when known.
   */
  function CodeInfoLines(pc: PremiumCode): (lines: seq<InfoLine>)
    ensures |lines| >= 3 && lines[0] == TypeLine && lines[1] == StatusLine
    ensures ClaimedByLine in lines <==> pc.isClaimed && pc.claimedBy != ""
    ensures ClaimedAtLine in lines <==> pc.isClaimed && pc.claimedAt != 0
    ensures DurationLine in lines
    ensures CreatedAtLine in lines <==> pc.createdAt != 0
    ensures CreatedByLine in lines <==> pc.createdBy != ""
  {
    [TypeLine, StatusLine]
    + (if pc.isClaimed && pc.claimedBy != "" then [ClaimedByLine] else [])
    + (if pc.isClaimed && pc.claimedAt != 0 then [ClaimedAtLine] else [])
    + [DurationLine]
    + (if pc.createdAt != 0 then [CreatedAtLine] else [])
    + (if pc.createdBy != "" then [CreatedByLine] else [])
  }

  /** The text of one line. */
  function RenderLine(pc: PremiumCode, line: InfoLine): string
  {
    match line
    case TypeLine => if pc.codeType == Premium.UserCodeType then "**Tipo:** 👤 Usuario" else "**Tipo:** 🏰 Servidor"
    case StatusLine => if pc.isClaimed then "**Estado:** ✅ Canjeado" else "**Estado:** 🎫 Disponible"
    case ClaimedByLine => "**Canjeado por:** <@" + pc.claimedBy + ">"
    case ClaimedAtLine => "**Canjeado el:** <t:" + IntToString(pc.claimedAt / 1000) + ":R>"
    case DurationLine => if pc.permanent then "**Duración:** ⭐ Permanente" else "**Duración:** " + IntToString(pc.durationDays) + " días"
    case CreatedAtLine => "**Creado:** <t:" + IntToString(pc.createdAt / 1000) + ":R>"
    case CreatedByLine => "**Creado por:** <@" + pc.createdBy + ">"
  }

  /** `formatCodeInfo`: the lines joined by newlines. */
  function FormatCodeInfo(pc: PremiumCode): string
  {
    Join(Paging.Map(CodeInfoLines(pc), line => RenderLine(pc, line)), "\n")
  }

  function StatusLabel(filter: string): string
  {
    match filter
    case "available" => "🎫 Solo disponibles"
    case "claimed" => "✅ Solo canjeados"
    case _ => "📋 Todos los códigos"
  }

  /**
   * `getFilterDescription`: the status label, then " | " and the type when
   * one is given. Its "Sin filtros" branch is never taken, since the status
   * label is always there.
   */
  function FilterDescription(filter: string, kind: string): (d: string)
    ensures StatusLabel(filter) <= d
    ensures kind == "" ==> d == StatusLabel(filter)
    ensures kind != "" ==> d == StatusLabel(filter) + " | " + (if kind == Premium.UserCodeType then "👤 Usuario" else "🏰 Servidor")
    ensures d != "Sin filtros"
  {
    var parts := [StatusLabel(filter)] + (if kind != "" then [if kind == Premium.UserCodeType then "👤 Usuario" else "🏰 Servidor"] else []);
    if |parts| == 0 then "Sin filtros"
    else
      assert kind != "" ==> parts[1..] == [parts[1]] && Join(parts[1..], " | ") == parts[1];
      assert "Sin filtros"[0] == 'S' != StatusLabel(filter)[0];
      Join(parts, " | ")
  }

  // -----------------------------------------------------------------------
  // The embeds

  const NoCodesEmbed := Embed("📋 Lista de Códigos Premium", "No se encontraron códigos con los filtros especificados.", Yellow, [])
  const FetchFailed := "❌ Error al obtener los códigos premium."

  function CodeField(pc: PremiumCode): Field
  {
    Field("`" + pc.code + "`", FormatCodeInfo(pc), false)
  }

  function FilterField(filter: string, kind: string): Field
  {
    Field("Filtros Aplicados", FilterDescription(filter, kind), false)
  }

  /** Page `k`: its range "(first-last de n)", the filter field, then one field per code on it. */
  function PageEmbed(codes: seq<PremiumCode>, filter: string, kind: string, k: nat): Embed
    requires k < Paging.PageCount(|codes|)
  {
    Embed("📋 Lista de Códigos Premium (" + NatToString(k * Paging.PageSize + 1) + "-"
          + NatToString(Paging.PageEnd(|codes|, k)) + " de " + NatToString(|codes|) + ")",
          "",
          LightBlue,
          [FilterField(filter, kind)] + Paging.Map(Paging.Page(codes, k), CodeField))
  }

  /** The inner loop: the filter field, then one field per code of the page, in order. */
  method PageFields(first: Field, page: seq<PremiumCode>) returns (fields: seq<Field>)
    ensures fields == [first] + Paging.Map(page, CodeField)
  {
    fields := [first];
    for j := 0 to |page|
      invariant fields == [first] + Paging.Map(page[..j], CodeField)
    {
      assert page[..j + 1] == page[..j] + [page[j]];
      Paging.MapSnoc(page[..j], page[j], CodeField);
      fields := fields + [CodeField(page[j])];
    }
    assert page[..|page|] == page;
  }

  /** One pass of the outer loop: the embed for the page starting at code `10·k`. */
  method BuildPage(codes: seq<PremiumCode>, filter: string, kind: string, k: nat) returns (e: Embed)
    requires k < Paging.PageCount(|codes|)
    ensures e == PageEmbed(codes, filter, kind, k)
  {
    var i := k * Paging.PageSize;
    var end := i + Paging.PageSize;
    if end > |codes| {
      end := |codes|;
    }
    var title := "📋 Lista de Códigos Premium (" + NatToString(i + 1) + "-" + NatToString(end) + " de " + NatToString(|codes|) + ")";
    var fields := PageFields(FilterField(filter, kind), codes[i..end]);
    e := Embed(title, "", LightBlue, fields);
  }

  /** The embeds for the filtered codes: one yellow embed when there are none, else one per page of ten. */
  method ListEmbeds(codes: seq<PremiumCode>, filter: string, kind: string) returns (embeds: seq<Embed>)
    ensures codes == [] ==> embeds == [NoCodesEmbed]
    ensures codes != [] ==> |embeds| == Paging.PageCount(|codes|)
    ensures codes != [] ==> forall k :: 0 <= k < |embeds| ==> embeds[k] == PageEmbed(codes, filter, kind, k)
  {
    if |codes| == 0 {
      return [NoCodesEmbed];
    }
    embeds := [];
    var i := 0;
    while i < |codes|
      invariant |embeds| <= Paging.PageCount(|codes|)
      invariant i == if |embeds| == Paging.PageCount(|codes|) then |codes| else |embeds| * Paging.PageSize
      invariant |embeds| < Paging.PageCount(|codes|) ==> |embeds| * Paging.PageSize < |codes|
      invariant forall k :: 0 <= k < |embeds| ==> embeds[k] == PageEmbed(codes, filter, kind, k)
    {
      Paging.PageStep(|codes|, |embeds|);
      var e := BuildPage(codes, filter, kind, |embeds|);
      embeds := embeds + [e];
      i := if i + Paging.PageSize > |codes| then |codes| else i + Paging.PageSize;
      if |embeds| < Paging.PageCount(|codes|) {
        Paging.PageStep(|codes|, |embeds|);
      }
    }
  }

  /** Every embed carries the filter field and between one and ten codes. */
  lemma PagesAreSmall(codes: seq<PremiumCode>, filter: string, kind: string, k: nat)
    requires k < Paging.PageCount(|codes|)
    ensures PageEmbed(codes, filter, kind, k).fields[0] == FilterField(filter, kind)
    ensures 2 <= |PageEmbed(codes, filter, kind, k).fields| <= 1 + Paging.PageSize
  {
  }

  /** The fields of an embed after its filter field. */
  function CodeFieldsOf(e: Embed): seq<Field>
  {
    if e.fields == [] then [] else e.fields[1..]
  }

  /** Every filtered code is listed exactly once, in order: the code fields of the embeds, laid end to end, render the whole list. */
  lemma ListingCoversCodes(codes: seq<PremiumCode>, filter: string, kind: string, embeds: seq<Embed>)
    requires codes != [] && |embeds| == Paging.PageCount(|codes|)
    requires forall k :: 0 <= k < |embeds| ==> embeds[k] == PageEmbed(codes, filter, kind, k)
    ensures Paging.Concat(seq(|embeds|, k requires 0 <= k < |embeds| => CodeFieldsOf(embeds[k]))) == Paging.Map(codes, CodeField)
  {
    var pages := Paging.Pages(codes);
    Paging.PagesPartition(codes);
    Paging.ConcatMap(pages, CodeField);
    assert seq(|embeds|, k requires 0 <= k < |embeds| => CodeFieldsOf(embeds[k]))
        == seq(|pages|, k requires 0 <= k < |pages| => Paging.Map(pages[k], CodeField));
  }

  // -----------------------------------------------------------------------
  // Sending

  /**
   * The reply and its follow-ups: embeds are sent in order, and the first
   * send that fails (`delivered(i)` false for the i-th) ends the sending.
   * The result is what reached the channel.
   */
  method Send(embeds: seq<Embed>, delivered: nat -> bool) returns (sent: seq<Embed>)
    ensures sent <= embeds
    ensures forall j :: 0 <= j < |sent| ==> delivered(j)
    ensures |sent| < |embeds| ==> !delivered(|sent|)
  {
    sent := [];
    if |embeds| == 0 {
      return;
    }
    if !delivered(0) {
      return;
    }
    sent := [embeds[0]];
    var i := 1;
    while i < |embeds|
      invariant 1 <= i <= |embeds|
      invariant sent == embeds[..i]
      invariant forall j :: 0 <= j < i ==> delivered(j)
    {
      if !delivered(i) {
        break;
      }
      sent := sent + [embeds[i]];
      i := i + 1;
    }
  }

  // -----------------------------------------------------------------------
  // codelistHandler

  /**
   * `codelistHandler`: the developer gate, the two optional filters, the
   * listing (None when it fails), then the embeds and what reached the
   * channel.
   */
  method List(caller: string, hasFilter: bool, filterOption: string, hasKind: bool, kindOption: string,
              fetched: Option<seq<PremiumCode>>, delivered: nat -> bool)
    returns (embeds: seq<Embed>, sent: seq<Embed>)
    ensures !IsDev(caller) ==> embeds == [ErrorEmbed(AccessDenied, DevOnly)]
    ensures IsDev(caller) && fetched.None? ==> embeds == [ErrorEmbed("Error", FetchFailed)]
    ensures IsDev(caller) && fetched.Some? ==>
      var filter := if hasFilter then filterOption else AllFilter;
      var kind := if hasKind then kindOption else "";
      var kept := Filter(fetched.value, Keeps(filter, kind));
      (kept == [] ==> embeds == [NoCodesEmbed])
      && (kept != [] ==> |embeds| == Paging.PageCount(|kept|)
                         && forall k :: 0 <= k < |embeds| ==> embeds[k] == PageEmbed(kept, filter, kind, k))
    ensures sent <= embeds
    ensures forall j :: 0 <= j < |sent| ==> delivered(j)
    ensures |sent| < |embeds| ==> !delivered(|sent|)
  {
    if !IsDev(caller) {
      embeds := [ErrorEmbed(AccessDenied, DevOnly)];
    } else {
      var filter := if hasFilter then filterOption else AllFilter;
      var kind := if hasKind then kindOption else "";
      if fetched.None? {
        embeds := [ErrorEmbed("Error", FetchFailed)];
      } else {
        var kept := FilterCodes(fetched.value, filter, kind);
        embeds := ListEmbeds(kept, filter, kind);
      }
    }
    sent := Send(embeds, delivered);
  }
}
