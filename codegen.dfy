/**
 * The developer `/codegen` command: generate `cantidad` premium codes in the
 * premium store, and report which were stored and which were not. The
 * random source is a parameter: attempt `i` draws `draw(i)`, either twelve
 * random bytes or a failed read together with the clock in nanoseconds.
 */
module CodeGen {
  import opened Wrappers
  import opened Text
  import opened Replies
  import Paging
  import Premium

  // -----------------------------------------------------------------------
  // generateRandomCode

  type Byte = b: int | 0 <= b < 256

  /** What `rand.Read` gave one attempt. */
  datatype Draw = RandomBytes(bytes: seq<Byte>) | ReadFailed(unixNano: int)

  const CodePrefix := "PANC-"

  function HexDigit(d: int): (c: char)
    requires 0 <= d < 16
    ensures '0' <= c <= '9' || 'a' <= c <= 'f'
  {
    if d < 10 then ('0' as int + d) as char else ('a' as int + d - 10) as char
  }

  /** `hex.EncodeToString`: two lower-case digits per byte, high nibble first. */
  function HexEncode(bytes: seq<Byte>): (s: string)
    ensures |s| == 2 * |bytes|
    ensures forall i :: 0 <= i < |s| ==> '0' <= s[i] <= '9' || 'a' <= s[i] <= 'f'
  {
    if bytes == [] then [] else [HexDigit(bytes[0] / 16), HexDigit(bytes[0] % 16)] + HexEncode(bytes[1..])
  }

  predicate IsUpperHex(c: char) { '0' <= c <= '9' || 'A' <= c <= 'F' }

  function UpperHexValue(c: char): (v: int)
    requires IsUpperHex(c)
    ensures 0 <= v < 16
  {
    if '0' <= c <= '9' then c as int - '0' as int else c as int - 'A' as int + 10
  }

  /** Reads upper-case hex digits back, two per byte. */
  function HexDecode(s: string): seq<Byte>
    requires |s| % 2 == 0 && forall i :: 0 <= i < |s| ==> IsUpperHex(s[i])
  {
    if s == [] then [] else [16 * UpperHexValue(s[0]) + UpperHexValue(s[1])] + HexDecode(s[2..])
  }

  /** The first `n` bytes encode to the first `2n` digits. */
  lemma {:induction false} HexEncodePrefix(bytes: seq<Byte>, n: nat)
    requires n <= |bytes|
    ensures HexEncode(bytes)[..2 * n] == HexEncode(bytes[..n])
  {
    if n > 0 {
      HexEncodePrefix(bytes[1..], n - 1);
      assert bytes[..n][1..] == bytes[1..][..n - 1];
    }
  }

  /** One digit, upper-cased, reads back as its value. */
  lemma DigitReadsBack(d: int)
    requires 0 <= d < 16
    ensures IsUpperHex(UpperAscii(HexDigit(d))) && UpperHexValue(UpperAscii(HexDigit(d))) == d
  {
  }

  /** Upper-casing the hex digits loses nothing: they decode back to the bytes. */
  lemma {:induction false} HexRoundTrip(bytes: seq<Byte>)
    ensures HexDecode(ToUpperAscii(HexEncode(bytes))) == bytes
  {
    if bytes != [] {
      var s := ToUpperAscii(HexEncode(bytes));
      HexRoundTrip(bytes[1..]);
      assert s[2..] == ToUpperAscii(HexEncode(bytes[1..]));
      var hi, lo := bytes[0] / 16, bytes[0] % 16;
      DigitReadsBack(hi);
      DigitReadsBack(lo);
      assert s[0] == UpperAscii(HexDigit(hi)) && s[1] == UpperAscii(HexDigit(lo));
    }
  }

  /** `generateRandomCode`: "PANC-" and the first twelve hex digits of the bytes, upper-cased; on a failed read, "PANC-" and the clock. */
  function GenerateRandomCode(d: Draw): (code: string)
    requires d.RandomBytes? ==> |d.bytes| == 12
    ensures CodePrefix <= code
    ensures d.RandomBytes? ==> |code| == 17 && forall i :: 5 <= i < 17 ==> IsUpperHex(code[i])
    ensures d.ReadFailed? ==> code == CodePrefix + IntToString(d.unixNano)
  {
    match d
    case RandomBytes(bytes) => CodePrefix + ToUpperAscii(HexEncode(bytes)[..12])
    case ReadFailed(nanos) => CodePrefix + IntToString(nanos)
  }

  /** A code made from random bytes names the first six of them: its digits decode back to them. */
  lemma RandomCodeReadsBack(bytes: seq<Byte>)
    requires |bytes| == 12
    ensures HexDecode(GenerateRandomCode(RandomBytes(bytes))[5..]) == bytes[..6]
  {
    var code := GenerateRandomCode(RandomBytes(bytes));
    HexEncodePrefix(bytes, 6);
    assert code[5..] == ToUpperAscii(HexEncode(bytes[..6]));
    HexRoundTrip(bytes[..6]);
  }

  /** Different first six bytes give different codes. */
  lemma RandomCodesDiffer(a: seq<Byte>, b: seq<Byte>)
    requires |a| == 12 && |b| == 12 && a[..6] != b[..6]
    ensures GenerateRandomCode(RandomBytes(a)) != GenerateRandomCode(RandomBytes(b))
  {
    RandomCodeReadsBack(a);
    RandomCodeReadsBack(b);
  }

  // -----------------------------------------------------------------------
  // Options and names

  /** A duration of 0, which is also what a missing option reads as, makes the codes permanent. */
  function IsPermanent(duration: int): (p: bool)
    ensures p <==> duration == 0
  {
    duration == 0
  }

  /** "user" is the user code type; any other `tipo` makes guild codes. */
  function CodeTypeFor(tipo: string): (t: string)
    ensures t == Premium.UserCodeType <==> tipo == Premium.UserCodeType
    ensures t == Premium.UserCodeType || t == Premium.GuildCodeType
  {
    if tipo == Premium.UserCodeType then Premium.UserCodeType else Premium.GuildCodeType
  }

  /** `getTipeName`. */
  function TipeName(tipo: string): (n: string)
    ensures n == (if tipo == Premium.UserCodeType then "👤 Usuario" else "🏰 Servidor")
    ensures n == "👤 Usuario" <==> CodeTypeFor(tipo) == Premium.UserCodeType
  {
    if tipo == Premium.UserCodeType then "👤 Usuario" else "🏰 Servidor"
  }

  /** How many attempts `for i := 0; i < int(cantidad); i++` makes. */
  function Attempts(cantidad: int): (n: nat)
    ensures cantidad <= 0 ==> n == 0
    ensures cantidad > 0 ==> n == cantidad
  {
    if cantidad > 0 then cantidad else 0
  }

  // -----------------------------------------------------------------------
  // The generation loop

  /** How one attempt's database calls end: the lookup for an existing code, then the write. */
  datatype Calls = Calls(readOk: bool, writeOk: bool)

  /** The outcome of the attempts so far: the store, the stored codes and the refused ones, in order. */
  datatype Batch = Batch(store: Premium.Store, generated: seq<string>, failed: seq<string>)

  /** The attempts for `codes`, one after another against the evolving store; attempt `i`'s calls end as `calls(i)` says. */
  function Run(st: Premium.Store, codes: seq<string>, calls: nat -> Calls, codeType: string, duration: int, creator: string, now: int)
    : (b: Batch)
    ensures |b.generated| + |b.failed| == |codes|
  {
    if codes == [] then Batch(st, [], [])
    else
      var n := |codes| - 1;
      var before := Run(st, codes[..n], calls, codeType, duration, creator, now);
      Attempt(before, codes[n], calls(n), codeType, duration, creator, now)
  }

  /** One attempt: `CreatePremiumCode` on the batch's store, the code listed as generated or failed by its result. */
  function Attempt(before: Batch, code: string, call: Calls, codeType: string, duration: int, creator: string, now: int)
    : (b: Batch)
    ensures b.store == Premium.CreatePremiumCode(before.store, code, codeType, duration, IsPermanent(duration), creator, now,
                                                 call.readOk, call.writeOk).store
    ensures (b.generated == before.generated + [code] && b.failed == before.failed)
         || (b.generated == before.generated && b.failed == before.failed + [code])
  {
    var reply := Premium.CreatePremiumCode(before.store, code, codeType, duration, IsPermanent(duration), creator, now,
                                           call.readOk, call.writeOk);
    if reply.result.Err? then Batch(reply.store, before.generated, before.failed + [code])
    else Batch(reply.store, before.generated + [code], before.failed)
  }

  /** Every attempt lands in exactly one of the two lists. */
  lemma {:induction false} RunPartitions(st: Premium.Store, codes: seq<string>, calls: nat -> Calls, codeType: string, duration: int, creator: string, now: int)
    ensures multiset(Run(st, codes, calls, codeType, duration, creator, now).generated)
          + multiset(Run(st, codes, calls, codeType, duration, creator, now).failed) == multiset(codes)
  {
    if codes != [] {
      var n := |codes| - 1;
      RunPartitions(st, codes[..n], calls, codeType, duration, creator, now);
      var before := Run(st, codes[..n], calls, codeType, duration, creator, now);
      var b := Attempt(before, codes[n], calls(n), codeType, duration, creator, now);
      assert Run(st, codes, calls, codeType, duration, creator, now) == b;
      assert multiset(codes) == multiset(codes[..n]) + multiset{codes[n]} by {
        assert codes[..n] + [codes[n]] == codes;
      }
      if b.generated == before.generated + [codes[n]] && b.failed == before.failed {
        assert multiset(b.generated) == multiset(before.generated) + multiset{codes[n]};
      } else {
        assert multiset(b.failed) == multiset(before.failed) + multiset{codes[n]};
      }
    }
  }

  /** Whether every attempt that drew `c` looked it up successfully. */
  predicate LookedUp(codes: seq<string>, calls: nat -> Calls, c: string)
  {
    forall i :: 0 <= i < |codes| && codes[i] == c ==> calls(i).readOk
  }

  /** What one attempt does to the store: at most the drawn code changes, and only as this batch creates it. */
  lemma AttemptStep(before: Batch, code: string, call: Calls, codeType: string, duration: int, creator: string, now: int)
    ensures var b := Attempt(before, code, call, codeType, duration, creator, now);
      b.store.(codes := before.store.codes) == before.store
      && before.store.codes.Keys <= b.store.codes.Keys <= before.store.codes.Keys + {code}
      && (forall c :: c in b.store.codes && c != code ==> b.store.codes[c] == before.store.codes[c])
      && (code in b.store.codes ==>
            (code in before.store.codes && b.store.codes[code] == before.store.codes[code])
            || (Created(b.store.codes[code], codeType, duration, creator) && !(call.readOk && code in before.store.codes)))
      && (b.generated == before.generated + [code] ==>
            code in b.store.codes && Created(b.store.codes[code], codeType, duration, creator)
            && (call.readOk ==> code !in before.store.codes))
      && (b.generated != before.generated + [code] ==> b.generated == before.generated)
  {
  }

  /** Attempting `codes` is attempting all but the last, then the last. */
  lemma RunSnoc(st: Premium.Store, codes: seq<string>, calls: nat -> Calls, codeType: string, duration: int, creator: string, now: int)
    requires codes != []
    ensures var n := |codes| - 1;
      Run(st, codes, calls, codeType, duration, creator, now)
      == Attempt(Run(st, codes[..n], calls, codeType, duration, creator, now), codes[n], calls(n), codeType, duration, creator, now)
    ensures var n := |codes| - 1; (set c | c in codes) == (set c | c in codes[..n]) + {codes[n]}
    ensures var n := |codes| - 1;
      forall c :: LookedUp(codes, calls, c) ==> LookedUp(codes[..n], calls, c) && (c == codes[n] ==> calls(n).readOk)
  {
    var n := |codes| - 1;
    assert codes == codes[..n] + [codes[n]];
  }

  /**
   * What the attempts do to the store: only the codes change, the codes
   * drawn are the only new ones, and every entry is either as it was or
   * stored as this batch creates it (so every new one is, including one
   * whose write failed and was queued).
   */
  lemma {:induction false} RunStoresCreated(st: Premium.Store, codes: seq<string>, calls: nat -> Calls, codeType: string, duration: int, creator: string, now: int)
    ensures var b := Run(st, codes, calls, codeType, duration, creator, now);
      b.store.(codes := st.codes) == st
      && st.codes.Keys <= b.store.codes.Keys <= st.codes.Keys + (set c | c in codes)
      && (forall c :: c in b.store.codes ==>
            (c in st.codes && b.store.codes[c] == st.codes[c]) || Created(b.store.codes[c], codeType, duration, creator))
      && (forall c :: c in b.store.codes && c !in st.codes ==> Created(b.store.codes[c], codeType, duration, creator))
  {
    if codes != [] {
      var n := |codes| - 1;
      RunStoresCreated(st, codes[..n], calls, codeType, duration, creator, now);
      RunSnoc(st, codes, calls, codeType, duration, creator, now);
      AttemptStep(Run(st, codes[..n], calls, codeType, duration, creator, now), codes[n], calls(n), codeType, duration, creator, now);
    }
  }

  /**
   * Every generated code is in the store as this batch creates it; a code
   * already there is left alone unless an attempt drew it and its lookup
   * failed; and a generated code whose lookups all succeeded is new.
   */
  lemma {:induction false} RunStoresGenerated(st: Premium.Store, codes: seq<string>, calls: nat -> Calls, codeType: string, duration: int, creator: string, now: int)
    ensures var b := Run(st, codes, calls, codeType, duration, creator, now);
      (forall c :: c in b.generated ==> c in b.store.codes && Created(b.store.codes[c], codeType, duration, creator))
      && (forall c :: c in st.codes && LookedUp(codes, calls, c) ==> c in b.store.codes && b.store.codes[c] == st.codes[c])
      && (forall c :: c in b.generated && LookedUp(codes, calls, c) ==> c !in st.codes)
  {
    if codes != [] {
      var n := |codes| - 1;
      RunStoresGenerated(st, codes[..n], calls, codeType, duration, creator, now);
      RunStoresCreated(st, codes[..n], calls, codeType, duration, creator, now);
      RunSnoc(st, codes, calls, codeType, duration, creator, now);
      AttemptStep(Run(st, codes[..n], calls, codeType, duration, creator, now), codes[n], calls(n), codeType, duration, creator, now);
    }
  }

  /** A code as `CreatePremiumCode` stores it for this batch. */
  predicate Created(pc: Premium.PremiumCode, codeType: string, duration: int, creator: string)
  {
    pc.codeType == codeType && !pc.isClaimed && pc.durationDays == duration
    && pc.permanent == IsPermanent(duration) && pc.createdBy == creator
  }

  /** Without the premium code manager every attempt fails and nothing is stored. */
  lemma {:induction false} RunWithoutManager(st: Premium.Store, codes: seq<string>, calls: nat -> Calls, codeType: string, duration: int, creator: string, now: int)
    requires !st.codeManager
    ensures Run(st, codes, calls, codeType, duration, creator, now) == Batch(st, [], codes)
  {
    if codes != [] {
      var n := |codes| - 1;
      RunWithoutManager(st, codes[..n], calls, codeType, duration, creator, now);
      assert codes[..n] + [codes[n]] == codes;
    }
  }

  /** The codes the attempts draw. */
  function DrawnCodes(draw: nat -> Draw, n: nat): (codes: seq<string>)
    requires forall i: nat :: draw(i).RandomBytes? ==> |draw(i).bytes| == 12
    ensures |codes| == n && forall i :: 0 <= i < n ==> codes[i] == GenerateRandomCode(draw(i))
  {
    seq(n, i requires 0 <= i < n => GenerateRandomCode(draw(i)))
  }

  /** One pass of the loop: create the code, then list it as generated or failed by the result. */
  method TryCode(b: Batch, code: string, premiumType: string, duration: int, permanent: bool, creator: string, now: int,
                 call: Calls)
    returns (next: Batch)
    requires permanent == IsPermanent(duration)
    ensures next == Attempt(b, code, call, premiumType, duration, creator, now)
  {
    var reply := Premium.CreatePremiumCode(b.store, code, premiumType, duration, permanent, creator, now,
                                           call.readOk, call.writeOk);
    if reply.result.Err? {
      next := Batch(reply.store, b.generated, b.failed + [code]);
    } else {
      next := Batch(reply.store, b.generated + [code], b.failed);
    }
  }

  /** The loop of `codegenHandler`. */
  method Generate(st: Premium.Store, tipo: string, duration: int, cantidad: int, creator: string, draw: nat -> Draw,
                  calls: nat -> Calls, now: int)
    returns (b: Batch)
    requires forall i: nat :: draw(i).RandomBytes? ==> |draw(i).bytes| == 12
    ensures b == Run(st, DrawnCodes(draw, Attempts(cantidad)), calls, CodeTypeFor(tipo), duration, creator, now)
    ensures |b.generated| + |b.failed| == Attempts(cantidad)
  {
    var permanent := IsPermanent(duration);
    ghost var codes := DrawnCodes(draw, Attempts(cantidad));
    b := Batch(st, [], []);
    var i := 0;
    while i < cantidad
      invariant 0 <= i <= Attempts(cantidad)
      invariant b == Run(st, codes[..i], calls, CodeTypeFor(tipo), duration, creator, now)
    {
      var code := GenerateRandomCode(draw(i));
      var premiumType := if tipo == Premium.UserCodeType then Premium.UserCodeType else Premium.GuildCodeType;
      b := TryCode(b, code, premiumType, duration, permanent, creator, now, calls(i));
      assert codes[..i + 1][..i] == codes[..i] && codes[..i + 1][i] == code;
      RunSnoc(st, codes[..i + 1], calls, CodeTypeFor(tipo), duration, creator, now);
      i := i + 1;
    }
    assert codes[..i] == codes;
  }

  // -----------------------------------------------------------------------
  // The reply

  function CodeLine(code: string): string { "`" + code + "`\n" }

  /** The codes, one per line in back-quotes. */
  function CodeListing(codes: seq<string>): string
  {
    Paging.Concat(Paging.Map(codes, CodeLine))
  }

  /** The loop that builds `codesText` and `failedText`. */
  method ListCodes(codes: seq<string>) returns (text: string)
    ensures text == CodeListing(codes)
  {
    text := "";
    for i := 0 to |codes|
      invariant text == CodeListing(codes[..i])
    {
      assert codes[..i + 1] == codes[..i] + [codes[i]];
      Paging.MapSnoc(codes[..i], codes[i], CodeLine);
      assert Paging.Map(codes[..i + 1], CodeLine)[..i] == Paging.Map(codes[..i], CodeLine);
      text := text + CodeLine(codes[i]);
    }
    assert codes[..|codes|] == codes;
  }

  /** Every code of the listing is on its own line of it. */
  lemma ListingShowsEveryCode(codes: seq<string>, i: int)
    requires 0 <= i < |codes|
    ensures Contains(CodeListing(codes), CodeLine(codes[i]))
  {
    var lines := Paging.Map(codes, CodeLine);
    Paging.ConcatSplit(lines, i);
    var offset := |Paging.Concat(lines[..i])|;
    assert OccursAt(CodeListing(codes), CodeLine(codes[i]), offset);
  }

  const GeneratedTitle := "🎫 Códigos Premium Generados"

  function DurationField(duration: int): Field
  {
    Field("Duración", if IsPermanent(duration) then "⭐ Permanente" else IntToString(duration) + " días", true)
  }

  function GeneratedField(generated: seq<string>): Field
  {
    Field("✅ Códigos Generados (" + NatToString(|generated|) + ")", CodeListing(generated), false)
  }

  function FailedField(failed: seq<string>): Field
  {
    Field("❌ Códigos Fallidos (" + NatToString(|failed|) + ")", CodeListing(failed), false)
  }

  /**
   * The reply to a batch: green unless some code failed, then orange; the
   * type and duration, then a field of stored codes and one of failed
   * codes, each only when not empty.
   */
  function BatchEmbed(tipo: string, duration: int, b: Batch): (e: Embed)
    ensures e.color == (if b.failed != [] then Orange else Green)
    ensures |e.fields| == 2 + (if b.generated != [] then 1 else 0) + (if b.failed != [] then 1 else 0)
    ensures e.fields[..2] == [Field("Tipo", TipeName(tipo), true), DurationField(duration)]
    ensures b.generated != [] ==> e.fields[2] == GeneratedField(b.generated)
    ensures b.failed != [] ==> e.fields[|e.fields| - 1] == FailedField(b.failed)
  {
    Embed(GeneratedTitle, "", if b.failed != [] then Orange else Green,
          [Field("Tipo", TipeName(tipo), true), DurationField(duration)]
          + (if b.generated != [] then [GeneratedField(b.generated)] else [])
          + (if b.failed != [] then [FailedField(b.failed)] else []))
  }

  /**
   * `codegenHandler`: the developer gate, then the attempts against the
   * store, then the reply. A non-developer changes nothing.
   */
  method Handle(caller: string, tipo: string, duration: int, cantidad: int, st: Premium.Store, draw: nat -> Draw,
                calls: nat -> Calls, now: int)
    returns (reply: Embed, after: Premium.Store)
    requires forall i: nat :: draw(i).RandomBytes? ==> |draw(i).bytes| == 12
    ensures !IsDev(caller) ==> reply == ErrorEmbed(AccessDenied, DevOnly) && after == st
    ensures IsDev(caller) ==>
      var b := Run(st, DrawnCodes(draw, Attempts(cantidad)), calls, CodeTypeFor(tipo), duration, caller, now);
      after == b.store && reply == BatchEmbed(tipo, duration, b)
  {
    if !IsDev(caller) {
      return ErrorEmbed(AccessDenied, DevOnly), st;
    }
    var b := Generate(st, tipo, duration, cantidad, caller, draw, calls, now);
    var embed := Embed(GeneratedTitle, "", Green, [Field("Tipo", TipeName(tipo), true), DurationField(duration)]);
    if |b.generated| > 0 {
      var codesText := ListCodes(b.generated);
      embed := embed.(fields := embed.fields + [Field("✅ Códigos Generados (" + NatToString(|b.generated|) + ")", codesText, false)]);
    }
    if |b.failed| > 0 {
      var failedText := ListCodes(b.failed);
      embed := embed.(color := Orange, fields := embed.fields + [Field("❌ Códigos Fallidos (" + NatToString(|b.failed|) + ")", failedText, false)]);
    }
    return embed, b.store;
  }
}
