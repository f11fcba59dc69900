/**
 * The developer `/codedel` command: deleting a premium code, the
 * autocomplete that lists codes, and the case-insensitive match it uses.
 * The lookup goes through the premium store; whether the deletion itself
 * succeeds is a parameter.
 */
module CodeDel {
  import opened Wrappers
  import opened Text
  import opened Replies
  import Premium
  import Paging

  type PremiumCode = Premium.PremiumCode

  // -----------------------------------------------------------------------
  // containsIgnoreCase

  /** `containsIgnoreCase` as a property: the ASCII-lowered `sub` occurs in the ASCII-lowered `s`. */
  predicate MatchesIgnoringCase(s: string, sub: string)
  {
    Contains(ToLowerAscii(s), ToLowerAscii(sub))
  }

  /** One of the two lowering loops: every 'A'..'Z' gains 32, everything else is copied. */
  method LowerRunes(s: string) returns (r: string)
    ensures r == ToLowerAscii(s)
  {
    r := "";
    for i := 0 to |s|
      invariant |r| == i
      invariant forall j :: 0 <= j < i ==> r[j] == LowerAscii(s[j])
    {
      if 'A' <= s[i] <= 'Z' {
        r := r + [(s[i] as int + 32) as char];
      } else {
        r := r + [s[i]];
      }
    }
  }

  /** `containsIgnoreCase`: lower both, then try every offset in turn. */
  method ContainsIgnoreCase(str: string, substr: string) returns (found: bool)
    ensures found <==> MatchesIgnoringCase(str, substr)
    ensures substr == "" ==> found
    ensures |substr| > |str| ==> !found
  {
    if substr == "" {
      assert OccursAt(ToLowerAscii(str), ToLowerAscii(substr), 0);
      return true;
    }
    var strLower := LowerRunes(str);
    var subLower := LowerRunes(substr);
    if |subLower| > |strLower| {
      return false;
    }
    var i := 0;
    while i <= |strLower| - |subLower|
      invariant 0 <= i <= |strLower| - |subLower| + 1
      invariant forall j :: 0 <= j < i ==> !OccursAt(strLower, subLower, j)
    {
      if strLower[i..i + |subLower|] == subLower {
        assert OccursAt(strLower, subLower, i);
        return true;
      }
      i := i + 1;
    }
    return false;
  }

  /** Lowering twice is lowering once. */
  lemma LowerIdempotent(s: string)
    ensures ToLowerAscii(ToLowerAscii(s)) == ToLowerAscii(s)
  {
  }

  /** Lowering undoes raising: only the case of ASCII letters is lost. */
  lemma LowerOfUpper(s: string)
    ensures ToLowerAscii(ToUpperAscii(s)) == ToLowerAscii(s)
  {
  }

  /**
   * The match ignores case on both sides: typing the query in upper case,
   * or the code in lower case, changes nothing; and every code matches
   * itself.
   */
  lemma MatchIgnoresCase(s: string, sub: string)
    ensures MatchesIgnoringCase(s, ToUpperAscii(sub)) <==> MatchesIgnoringCase(s, sub)
    ensures MatchesIgnoringCase(ToLowerAscii(s), sub) <==> MatchesIgnoringCase(s, sub)
    ensures MatchesIgnoringCase(s, s)
  {
    LowerOfUpper(sub);
    LowerIdempotent(s);
    assert OccursAt(ToLowerAscii(s), ToLowerAscii(s), 0);
  }

  // -----------------------------------------------------------------------
  // Names

  /** `getCodeTypeName`: "user" is the user type, anything else a server. */
  function CodeTypeName(codeType: string): (n: string)
    ensures codeType == Premium.UserCodeType <==> n == "👤 Usuario"
    ensures codeType != Premium.UserCodeType <==> n == "🏰 Servidor"
  {
    if codeType == Premium.UserCodeType then "👤 Usuario" else "🏰 Servidor"
  }

  /** `getCodeStatus`. */
  function CodeStatus(isClaimed: bool): (n: string)
    ensures isClaimed <==> n == "✅ Canjeado"
    ensures !isClaimed <==> n == "🎫 Disponible"
  {
    if isClaimed then "✅ Canjeado" else "🎫 Disponible"
  }

  // -----------------------------------------------------------------------
  // codedelHandler

  const NoCode := "❌ Debes especificar un código válido."

  function Missing(code: string): string { "❌ El código `" + code + "` no existe." }
  function DeleteFailed(code: string): string { "❌ Error al eliminar el código `" + code + "`." }

  function DurationField(pc: PremiumCode): Field
  {
    Field("Duración", if pc.permanent then "⭐ Permanente" else IntToString(pc.durationDays) + " días", true)
  }

  /** The fields of the confirmation: type, status, duration, then who claimed it and when, if known. */
  function DeletedFields(pc: PremiumCode): (fs: seq<Field>)
    ensures |fs| >= 3 && fs[0].name == "Tipo" && fs[1].name == "Estado" && fs[2] == DurationField(pc)
    ensures (|fs| >= 4) <==> pc.isClaimed && pc.claimedBy != ""
    ensures |fs| >= 4 ==> fs[3] == Field("Canjeado por", "<@" + pc.claimedBy + ">", true)
    ensures (|fs| == 5) <==> pc.isClaimed && pc.claimedBy != "" && pc.claimedAt != 0
    ensures |fs| <= 5
  {
    [Field("Tipo", CodeTypeName(pc.codeType), true), Field("Estado", CodeStatus(pc.isClaimed), true), DurationField(pc)]
    + (if pc.isClaimed && pc.claimedBy != "" then
         [Field("Canjeado por", "<@" + pc.claimedBy + ">", true)]
         + (if pc.claimedAt != 0 then [Field("Canjeado el", "<t:" + IntToString(pc.claimedAt / 1000) + ":R>", true)] else [])
       else [])
  }

  function DeletedEmbed(code: string, pc: PremiumCode): Embed
  {
    Embed("🗑️ Código Premium Eliminado", "El código `" + code + "` ha sido eliminado correctamente.", Red, DeletedFields(pc))
  }

  /**
   * `codedelHandler` against the premium store `st`: the developer gate
   * comes before any lookup, an empty code before the lookup, and a code
   * the store does not yield (for any reason) is reported missing before
   * any deletion. `readOk` and `deleteOk` say whether the lookup and the
   * deletion succeed. The second component says whether the deletion was
   * attempted.
   */
  function Delete(caller: string, code: string, st: Premium.Store, readOk: bool, deleteOk: bool): (r: (Embed, bool))
    ensures r.1 <==> IsDev(caller) && code != "" && Premium.GetPremiumCode(st, code, readOk).Ok?
    ensures !IsDev(caller) ==> r.0 == ErrorEmbed(AccessDenied, DevOnly)
    ensures IsDev(caller) && code == "" ==> r.0 == ErrorEmbed("Error", NoCode)
    ensures IsDev(caller) && code != "" && (!st.codeManager || !readOk || code !in st.codes) ==> r.0 == ErrorEmbed("Error", Missing(code))
    ensures r.1 && !deleteOk ==> r.0 == ErrorEmbed("Error", DeleteFailed(code))
    ensures r.1 && deleteOk ==> r.0 == DeletedEmbed(code, st.codes[code])
  {
    if !IsDev(caller) then (ErrorEmbed(AccessDenied, DevOnly), false)
    else if code == "" then (ErrorEmbed("Error", NoCode), false)
    else
      match Premium.GetPremiumCode(st, code, readOk)
      case Err(_) => (ErrorEmbed("Error", Missing(code)), false)
      case Ok(pc) =>
        if !deleteOk then (ErrorEmbed("Error", DeleteFailed(code)), true)
        else (DeletedEmbed(code, pc), true)
  }

  // -----------------------------------------------------------------------
  // codedelAutoComplete

  const NoCodesChoice := Choice("No se encontraron códigos", "none")

  function MatchesFocus(focused: string): PremiumCode -> bool
  {
    (pc: PremiumCode) => focused == "" || MatchesIgnoringCase(pc.code, focused)
  }

  /** "🎫" for an available code, "✅" for a claimed one, as UTF-8 bytes. */
  function StatusIcon(pc: PremiumCode): string
  {
    if pc.isClaimed then CheckEmoji else TicketEmoji
  }

  /** "🏰" for a guild code and "👤" for anything else, as UTF-8 bytes. */
  function TypeIcon(pc: PremiumCode): string
  {
    if pc.codeType == Premium.GuildCodeType then GuildEmoji else UserEmoji
  }

  function CodeChoice(pc: PremiumCode): Choice
  {
    Choice(TruncateChoiceName(StatusIcon(pc) + " " + TypeIcon(pc) + " " + pc.code), pc.code)
  }

  function CodeChoices(pcs: seq<PremiumCode>): (cs: seq<Choice>)
    ensures |cs| == |pcs| && forall i :: 0 <= i < |pcs| ==> cs[i] == CodeChoice(pcs[i])
  {
    Paging.Map(pcs, CodeChoice)
  }

  /**
   * The choices offered: the first 25 matching codes in listing order, each
   * named within 100 bytes and valued by its code, or the "none"
   * placeholder when nothing matches.
   */
  function AutoCompleteChoices(codes: seq<PremiumCode>, focused: string): (cs: seq<Choice>)
    ensures 1 <= |cs| <= MaxChoices
    ensures forall c :: c in cs ==> |c.name| <= MaxChoiceName
    ensures cs == [NoCodesChoice] <==> forall pc :: pc in codes ==> !MatchesFocus(focused)(pc)
    ensures cs != [NoCodesChoice] ==> forall c :: c in cs ==> exists pc :: pc in codes && MatchesFocus(focused)(pc) && c.value == pc.code
  {
    var m := FirstMatches(codes, MatchesFocus(focused), MaxChoices);
    if m == [] then
      assert Filter(codes, MatchesFocus(focused)) == [];
      [NoCodesChoice]
    else
      var cs := CodeChoices(m);
      assert forall c :: c in cs ==> exists i :: 0 <= i < |m| && c == CodeChoice(m[i]);
      assert m[0] in Filter(codes, MatchesFocus(focused));
      assert cs[0].name != NoCodesChoice.name by {
        assert |StatusIcon(m[0])| >= 3;
        assert cs[0].name[0] == StatusIcon(m[0])[0] != 'N';
      }
      cs
  }

  /** The choosing loop: stops at 25 choices, keeps the matching codes in order. */
  method FirstChoices(pcs: seq<PremiumCode>, focused: string) returns (choices: seq<Choice>)
    ensures choices == CodeChoices(FirstMatches(pcs, MatchesFocus(focused), MaxChoices))
  {
    var keep := MatchesFocus(focused);
    choices := [];
    ghost var taken: seq<PremiumCode> := [];
    var i := 0;
    assert pcs[..0] == [];
    while i < |pcs|
      invariant 0 <= i <= |pcs|
      invariant taken == Filter(pcs[..i], keep)
      invariant choices == CodeChoices(taken)
      invariant |taken| <= MaxChoices
    {
      if |choices| >= MaxChoices {
        break;
      }
      FilterStep(pcs, i, keep);
      var matches := focused == "";
      if !matches {
        matches := ContainsIgnoreCase(pcs[i].code, focused);
      }
      if matches {
        Paging.MapSnoc(taken, pcs[i], CodeChoice);
        taken := taken + [pcs[i]];
        choices := choices + [CodeChoice(pcs[i])];
      }
      i := i + 1;
    }
    if i < |pcs| {
      FirstMatchesOfPrefix(pcs, i, keep, MaxChoices);
    } else {
      assert pcs[..i] == pcs;
    }
  }

  /** `codedelAutoComplete`: no choices when the listing fails. */
  method AutoComplete(codes: Option<seq<PremiumCode>>, focused: string) returns (choices: seq<Choice>)
    ensures codes.None? ==> choices == []
    ensures codes.Some? ==> choices == AutoCompleteChoices(codes.value, focused)
  {
    if codes.None? {
      return [];
    }
    choices := FirstChoices(codes.value, focused);
    if |choices| == 0 {
      choices := [NoCodesChoice];
    }
  }
}
