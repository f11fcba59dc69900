/**
 * Splitting a listing into embeds of at most ten entries: the loop the
 * blacklist and premium-code listings share, stated once as pages of a
 * sequence.
 */
module Paging {
  /** Entries per embed (`entriesPerEmbed`, `codesPerEmbed`). */
  const PageSize := 10

  function Min(a: int, b: int): int { if a < b then a else b }

  /** How many pages `n` entries fill: n / 10 rounded up. */
  function PageCount(n: nat): (c: nat)
    ensures c * PageSize >= n && (c == 0 || (c - 1) * PageSize < n)
  {
    (n + PageSize - 1) / PageSize
  }

  /** One past the last index of page `k`. */
  function PageEnd(n: nat, k: nat): nat
  {
    Min(k * PageSize + PageSize, n)
  }

  /**
   * One step of a paging loop: a page that exists starts inside the input,
   * ends where the loop clamps it, and is the last page exactly when it
   * reaches the end of the input.
   */
  lemma PageStep(n: nat, k: nat)
    requires k < PageCount(n)
    ensures k * PageSize < n
    ensures PageEnd(n, k) == if k * PageSize + PageSize > n then n else k * PageSize + PageSize
    ensures PageEnd(n, k) == n <==> k + 1 == PageCount(n)
  {
  }

  /** Page `k` of `xs`. */
  function Page<T>(xs: seq<T>, k: nat): (p: seq<T>)
    requires k < PageCount(|xs|)
    ensures 1 <= |p| <= PageSize
  {
    xs[k * PageSize..PageEnd(|xs|, k)]
  }

  /** The pages laid end to end. */
  function Concat<T>(pages: seq<seq<T>>): seq<T>
  {
    if pages == [] then [] else Concat(pages[..|pages| - 1]) + pages[|pages| - 1]
  }

  /** Laying two runs of pages end to end. */
  lemma {:induction false} ConcatAppend<T>(a: seq<seq<T>>, b: seq<seq<T>>)
    ensures Concat(a + b) == Concat(a) + Concat(b)
    decreases |b|
  {
    if b != [] {
      var n := |b| - 1;
      ConcatAppend(a, b[..n]);
      assert (a + b)[..|a + b| - 1] == a + b[..n];
    } else {
      assert a + b == a;
    }
  }

  /** Page `i` sits between the pages before it and the pages after it. */
  lemma {:induction false} ConcatSplit<T>(pages: seq<seq<T>>, i: int)
    requires 0 <= i < |pages|
    ensures Concat(pages) == Concat(pages[..i]) + pages[i] + Concat(pages[i + 1..])
  {
    assert pages == pages[..i + 1] + pages[i + 1..];
    ConcatAppend(pages[..i + 1], pages[i + 1..]);
    assert pages[..i + 1][..i] == pages[..i];
    assert Concat(pages[..i + 1]) == Concat(pages[..i]) + pages[i];
  }

  /** Every element rendered by `f`, in order (one field or choice per entry). */
  function Map<T, U>(xs: seq<T>, f: T -> U): (ys: seq<U>)
    ensures |ys| == |xs| && forall i :: 0 <= i < |xs| ==> ys[i] == f(xs[i])
  {
    seq(|xs|, i requires 0 <= i < |xs| => f(xs[i]))
  }

  /** Rendering one more element appends its rendering. */
  lemma MapSnoc<T, U>(xs: seq<T>, x: T, f: T -> U)
    ensures Map(xs + [x], f) == Map(xs, f) + [f(x)]
  {
  }

  /** Rendering page by page and laying the results end to end is rendering the whole. */
  lemma {:induction false} ConcatMap<T, U>(pages: seq<seq<T>>, f: T -> U)
    ensures Concat(seq(|pages|, k requires 0 <= k < |pages| => Map(pages[k], f))) == Map(Concat(pages), f)
  {
    if pages != [] {
      var n := |pages| - 1;
      ConcatMap(pages[..n], f);
      var ms := seq(|pages|, k requires 0 <= k < |pages| => Map(pages[k], f));
      assert ms[..n] == seq(n, k requires 0 <= k < n => Map(pages[..n][k], f));
      assert Map(Concat(pages[..n]) + pages[n], f) == Map(Concat(pages[..n]), f) + Map(pages[n], f);
    }
  }

  function Pages<T>(xs: seq<T>): seq<seq<T>>
  {
    seq(PageCount(|xs|), k requires 0 <= k < PageCount(|xs|) => Page(xs, k))
  }

  /** The first `j` pages hold exactly the first `j * 10` entries. */
  lemma {:induction false} PagesPrefix<T>(xs: seq<T>, j: nat)
    requires j <= PageCount(|xs|)
    ensures Concat(Pages(xs)[..j]) == xs[..Min(j * PageSize, |xs|)]
  {
    if j > 0 {
      PagesPrefix(xs, j - 1);
      var ps := Pages(xs);
      assert ps[..j][..j - 1] == ps[..j - 1];
      assert ps[j - 1] == xs[(j - 1) * PageSize..PageEnd(|xs|, j - 1)];
      assert xs[..(j - 1) * PageSize] + xs[(j - 1) * PageSize..PageEnd(|xs|, j - 1)] == xs[..PageEnd(|xs|, j - 1)];
    }
  }

  /**
   * The pages partition the listing: laid end to end they give it back in
   * order, and none is empty or longer than ten.
   */
  lemma PagesPartition<T>(xs: seq<T>)
    ensures Concat(Pages(xs)) == xs
    ensures forall k :: 0 <= k < |Pages(xs)| ==> 1 <= |Pages(xs)[k]| <= PageSize
  {
    PagesPrefix(xs, PageCount(|xs|));
    assert Pages(xs)[..PageCount(|xs|)] == Pages(xs);
    assert xs[..|xs|] == xs;
  }
}
