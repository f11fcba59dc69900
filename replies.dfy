/**
 * What the dev and moderation commands send back: embeds (timestamps,
 * footers and thumbnails aside), autocomplete choices, and the developer
 * gate they share.
 */
module Replies {
  import opened Wrappers

  // -----------------------------------------------------------------------
  // Embeds

  datatype Field = Field(name: string, value: string, inline: bool)

  datatype Embed = Embed(title: string, description: string, color: int, fields: seq<Field>)

  const Red := 0xFF0000
  const Green := 0x00FF00
  const Yellow := 0xFFFF00
  const Orange := 0xFFA500
  const LightBlue := 0x00BFFF

  const ErrorMark := "❌ "

  /** `sendErrorEmbed`: a red embed without fields, its title marked as an error. */
  function ErrorEmbed(title: string, description: string): (e: Embed)
    ensures e.color == Red && e.fields == [] && e.description == description
    ensures ErrorMark <= e.title && e.title[|ErrorMark|..] == title
  {
    Embed(ErrorMark + title, description, Red, [])
  }

  // -----------------------------------------------------------------------
  // The developer gate

  /** The one developer account the dev commands accept. */
  const DevUserId := "852683369899622430"

  const AccessDenied := "Acceso Denegado"
  const DevOnly := "❌ Este comando solo está disponible para desarrolladores."

  /** `isDev`. */
  predicate IsDev(userId: string) {
    userId == DevUserId
  }

  /**
   * The ID the dev commands check: the member's user inside a guild, else
   * the interaction's user, else "" (which is never the developer).
   */
  function CallerId(memberUser: Option<string>, user: Option<string>): (id: string)
    ensures memberUser.Some? ==> id == memberUser.value
    ensures memberUser.None? && user.Some? ==> id == user.value
    ensures memberUser.None? && user.None? ==> id == "" && !IsDev(id)
  {
    if memberUser.Some? then memberUser.value else if user.Some? then user.value else ""
  }

  // -----------------------------------------------------------------------
  // Autocomplete

  datatype Choice = Choice(name: string, value: string)

  /** Discord's limit on the choices of one autocomplete answer. */
  const MaxChoices := 25

  /** The elements of `xs` that `keep` accepts, in order. */
  function Filter<T>(xs: seq<T>, keep: T -> bool): (r: seq<T>)
    ensures |r| <= |xs|
    ensures forall x :: x in r ==> x in xs && keep(x)
    ensures forall x :: x in xs && keep(x) ==> x in r
  {
    if xs == [] then []
    else
      var n := |xs| - 1;
      Filter(xs[..n], keep) + (if keep(xs[n]) then [xs[n]] else [])
  }

  /** Filtering a prefix gives a prefix of the filtered whole. */
  lemma {:induction false} FilterPrefix<T>(xs: seq<T>, i: int, keep: T -> bool)
    requires 0 <= i <= |xs|
    ensures Filter(xs[..i], keep) <= Filter(xs, keep)
    decreases |xs| - i
  {
    if i < |xs| {
      FilterPrefix(xs, i + 1, keep);
      assert xs[..i + 1][..i] == xs[..i];
    } else {
      assert xs[..i] == xs;
    }
  }

  /** A filter that accepts everything keeps everything, in order. */
  lemma {:induction false} FilterKeepsAll<T>(xs: seq<T>, keep: T -> bool)
    requires forall x :: x in xs ==> keep(x)
    ensures Filter(xs, keep) == xs
  {
    if xs != [] {
      var n := |xs| - 1;
      FilterKeepsAll(xs[..n], keep);
      assert xs[..n] + [xs[n]] == xs;
    }
  }

  /** The first `limit` elements `keep` accepts. */
  function FirstMatches<T>(xs: seq<T>, keep: T -> bool, limit: nat): (r: seq<T>)
    ensures |r| <= limit
    ensures r <= Filter(xs, keep)
    ensures |Filter(xs, keep)| <= limit ==> r == Filter(xs, keep)
  {
    var f := Filter(xs, keep);
    if |f| <= limit then f else f[..limit]
  }

  /**
   * Once `limit` matches have been seen in a prefix, the later elements
   * cannot change which are taken.
   */
  lemma FirstMatchesOfPrefix<T>(xs: seq<T>, i: int, keep: T -> bool, limit: nat)
    requires 0 <= i <= |xs| && |Filter(xs[..i], keep)| == limit
    ensures FirstMatches(xs, keep, limit) == Filter(xs[..i], keep)
  {
    FilterPrefix(xs, i, keep);
  }

  /** One step of a filtering loop: the prefix grows by one element. */
  lemma FilterStep<T>(xs: seq<T>, i: int, keep: T -> bool)
    requires 0 <= i < |xs|
    ensures Filter(xs[..i + 1], keep) == Filter(xs[..i], keep) + (if keep(xs[i]) then [xs[i]] else [])
  {
    assert xs[..i + 1][..i] == xs[..i];
  }
}
