/**
 The play history: most recent first, never longer than `MaxHistSize`.
 Recording inserts at the front and then keeps only the first
 `MaxHistSize` entries, exactly like a list `insert(0, x)` followed by the
 slice `[:MAX_HIST_SIZE]`.
 */
module History {

  const MaxHistSize: nat := 100

  function Min(a: int, b: int): int {
    if a < b then a else b
  }

  /** The first `n` elements of `xs`, or all of them when there are fewer (Python's `xs[:n]`). */
  function Take<T>(xs: seq<T>, n: nat): (r: seq<T>)
    ensures |r| == Min(|xs|, n)
    ensures r == xs[..|r|]
  {
    xs[..Min(|xs|, n)]
  }

  /** Records `x` as the most recently played entry of history `h`. */
  function Record<T>(h: seq<T>, x: T): (r: seq<T>)
    ensures |r| == Min(|h| + 1, MaxHistSize)
    ensures r[0] == x
    ensures r[1..] == h[..|r| - 1]
  {
    Take([x] + h, MaxHistSize)
  }

  /** `xs` in reverse order: the last element first. */
  function Reverse<T>(xs: seq<T>): (r: seq<T>)
    ensures |r| == |xs|
    ensures forall i :: 0 <= i < |xs| ==> r[i] == xs[|xs| - 1 - i]
  {
    if |xs| == 0 then [] else [xs[|xs| - 1]] + Reverse(xs[..|xs| - 1])
  }

  /** Records every element of `xs` in turn, first element first. */
  function RecordAll<T>(h: seq<T>, xs: seq<T>): seq<T>
    decreases |xs|
  {
    if |xs| == 0 then h else Record(RecordAll(h, xs[..|xs| - 1]), xs[|xs| - 1])
  }

  lemma TakeOfCons<T>(x: T, ys: seq<T>, n: nat)
    requires 1 <= n
    ensures Take([x] + Take(ys, n), n) == Take([x] + ys, n)
  {
  }

  /**
   After any run of recordings, starting from a history within bounds, the
   history is the newest-first list of everything recorded followed by the
   old history, cut to the `MaxHistSize` most recent entries.
   */
  lemma {:induction false} RecordAllIsNewestFirst<T>(h: seq<T>, xs: seq<T>)
    requires |h| <= MaxHistSize
    ensures RecordAll(h, xs) == Take(Reverse(xs) + h, MaxHistSize)
    decreases |xs|
  {
    if |xs| == 0 {
      assert Reverse(xs) + h == h;
    } else {
      var pre := xs[..|xs| - 1];
      var x := xs[|xs| - 1];
      RecordAllIsNewestFirst(h, pre);
      assert Reverse(xs) == [x] + Reverse(pre);
      TakeOfCons(x, Reverse(pre) + h, MaxHistSize);
      assert [x] + (Reverse(pre) + h) == Reverse(xs) + h;
    }
  }

  /**
   Recording `k` items into an empty history leaves `min(k, 100)` entries,
   the latest item first, and never more than `MaxHistSize`.
   */
  lemma RecordAllFromEmpty<T>(xs: seq<T>)
    ensures |RecordAll([], xs)| == Min(|xs|, MaxHistSize)
    ensures |xs| > 0 ==> RecordAll([], xs)[0] == xs[|xs| - 1]
    ensures forall i :: 0 <= i < |RecordAll([], xs)| ==> RecordAll([], xs)[i] == xs[|xs| - 1 - i]
  {
  }

  /** Recording `a` and then `b` is recording `a + b`. */
  lemma {:induction false} RecordAllAppend<T>(h: seq<T>, a: seq<T>, b: seq<T>)
    ensures RecordAll(RecordAll(h, a), b) == RecordAll(h, a + b)
    decreases |b|
  {
    if |b| == 0 {
      assert a + b == a;
    } else {
      RecordAllAppend(h, a, b[..|b| - 1]);
      assert (a + b)[..|a + b| - 1] == a + b[..|b| - 1];
      assert (a + b)[|a + b| - 1] == b[|b| - 1];
    }
  }
}
