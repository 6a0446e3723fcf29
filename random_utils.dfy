/** The random-number source the builder draws from (commons-lang3 `RandomUtils`),
    modelled as an oracle: an arbitrary stream of raw numbers and a cursor into it.
    Every property proved for all `Rng` values holds whatever the generator does. */
module RandomUtils {
  import opened JavaLang

  /** `raw` is what the underlying generator yields, draw after draw; `pos` counts
      the draws consumed so far. */
  datatype Rng = Rng(raw: nat -> nat, pos: nat)

  /** A drawn value together with the generator state after drawing it. */
  datatype Drawn<+T> = Drawn(value: T, rest: Rng)

  /** `RandomUtils.nextInt(startInclusive, endExclusive)`. The library rejects a
      negative start and an end below the start; an empty range returns the start
      without touching the generator; otherwise one draw lands in `[lo, hi)`. */
  function NextInt(lo: Int32, hi: Int32, g: Rng): (d: Drawn<Int32>)
    requires 0 <= lo <= hi
    ensures lo == hi ==> d.value == lo && d.rest == g
    ensures lo < hi ==> lo <= d.value < hi && d.rest.raw == g.raw && d.rest.pos == g.pos + 1
  {
    if lo == hi then Drawn(lo, g)
    else Drawn(lo + g.raw(g.pos) % (hi - lo), g.(pos := g.pos + 1))
  }

  /** `RandomUtils.nextInt()`, which commons-lang3 defines as
      `nextInt(0, Integer.MAX_VALUE)`. */
  function NextIntAny(g: Rng): (d: Drawn<Int32>)
    ensures 0 <= d.value < MAX_INT
    ensures d.rest.raw == g.raw && d.rest.pos == g.pos + 1
  {
    NextInt(0, MAX_INT, g)
  }

  /** The oracle is no narrower than its contract: every value of a non-empty
      range is the outcome of some generator. */
  lemma NextIntReachable(lo: Int32, hi: Int32, t: int)
    requires 0 <= lo <= t < hi
    ensures exists g: Rng :: NextInt(lo, hi, g).value == t
  {
    var offset: nat := t - lo;
    var g := Rng(k => offset, 0);
    assert g.raw(g.pos) == offset;
    SmallRemainder(offset, hi - lo);
    assert NextInt(lo, hi, g).value == t;
  }

  lemma SmallRemainder(a: nat, n: nat)
    requires a < n
    ensures a % n == a
  {
  }
}
