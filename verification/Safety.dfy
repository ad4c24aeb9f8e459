/** The KV-cache estimate of safety.py: nested floors over an exact product. Quant scales and products with
    them are exact here. */
module Safety {
  const MIB := 1024 * 1024

  /** A product whose factors the proofs below keep apart. */
  function Prod(a: real, b: real): real {
    a * b
  }

  /** `estimate_kv_cache_mib`: gguf MiB, then KB per token at f16, then scaled, each rounded down. */
  function EstimateKvCacheMib(ctxSize: int, ggufBytes: int, scale: real): int
    requires scale >= 0.0
  {
    if ctxSize <= 0 || ggufBytes <= 0 then 0
    else
      var ggufMib := ggufBytes / MIB;
      var perTokenF16 := 9 * ggufMib / 1024;
      var perToken := Prod(perTokenF16 as real, scale).Floor;
      perToken * ctxSize / 1024
  }

  /** The product the estimate rounds down, in MiB. */
  function ExactKvMib(ctxSize: int, ggufBytes: int, scale: real): real {
    if ctxSize <= 0 || ggufBytes <= 0 then 0.0
    else 9.0 * (ggufBytes / MIB) as real * scale * ctxSize as real / 1048576.0
  }

  /** `check_kv_cache_fit`: whether the gate passes, given what the probe reads. */
  predicate KvCacheFits(ctxSize: int, ggufBytes: int, overheadMib: int, scale: real, freeMib: int, probed: bool)
    requires scale >= 0.0
  {
    || ctxSize <= 0 || ggufBytes <= 0 || !probed
    || ggufBytes / MIB + EstimateKvCacheMib(ctxSize, ggufBytes, scale) + overheadMib <= freeMib
  }

  lemma Times(a: real, b: real, c: real)
    requires a <= b && c >= 0.0
    ensures Prod(a, c) <= Prod(b, c)
  {
  }

  lemma Spread(a: real, b: real, c: real)
    ensures Prod(a + b, c) == Prod(a, c) + Prod(b, c)
  {
  }

  lemma One(c: real)
    ensures Prod(1.0, c) == c && Prod(0.0, c) == 0.0
  {
  }

  lemma DivBounds(n: int)
    ensures (n / 1024) as real <= n as real / 1024.0 < (n / 1024) as real + 1.0
  {
    assert n == 1024 * (n / 1024) + n % 1024;
  }

  /** One rounding before a product: what is lost is at most the factor. */
  lemma RoundThenScale(x: real, y: real, k: real)
    requires y <= x < y + 1.0 && k >= 0.0
    ensures Prod(y, k) <= Prod(x, k) <= Prod(y, k) + k
  {
    hide Prod;
    Times(y, x, k);
    Times(x, y + 1.0, k);
    Spread(y, 1.0, k);
    One(k);
  }

  /** The last two of three roundings, each before the next product. */
  lemma LastRoundings(xs: real, ys: real, c: real, d: real, s: real, k: real)
    requires ys <= xs <= ys + s && s >= 0.0 && k >= 0.0
    requires c <= ys < c + 1.0 && d <= Prod(c, k) < d + 1.0
    ensures d <= Prod(xs, k) < d + Prod(1.0 + s, k) + 1.0
  {
    hide Prod;
    RoundThenScale(ys, c, k);
    Times(ys, xs, k);
    Times(xs, ys + s, k);
    Spread(ys, s, k);
    Spread(1.0, s, k);
    One(k);
  }

  /** The products as the formulas write them. */
  lemma Formulas(a: real, s: real, n: real, c: real)
    ensures Prod(Prod(a / 1024.0, s), n / 1024.0) == a * s * n / 1048576.0
    ensures Prod(1.0 + s, n / 1024.0) == (1.0 + s) * n / 1024.0
    ensures Prod(c, n / 1024.0) == c * n / 1024.0
  {
    var t := a * s;
    assert (a / 1024.0) * s == t / 1024.0;
    assert (t / 1024.0) * (n / 1024.0) == t * n / 1048576.0;
  }

  lemma IntTimes(c: int, n: int)
    ensures (c * n) as real == c as real * n as real
  {
  }

  /** The roundings of an estimate with `a` = 9 * gguf MiB. */
  lemma Rounded(a: int, n: int, s: real, p: real, d: int)
    requires s >= 0.0 && n > 0 && p == Prod((a / 1024) as real, s) && d == p.Floor * n / 1024
    ensures d as real <= a as real * s * n as real / 1048576.0 < d as real + (1.0 + s) * n as real / 1024.0 + 1.0
  {
    var x, c, nr := a as real / 1024.0, p.Floor, n as real;
    DivBounds(a);
    DivBounds(c * n);
    IntTimes(c, n);
    Formulas(a as real, s, nr, c as real);
    hide Prod;
    RoundThenScale(x, (a / 1024) as real, s);
    LastRoundings(Prod(x, s), p, c as real, d as real, s, nr / 1024.0);
  }

  lemma Positive(x: real, s: real)
    requires x >= 0.0 && s >= 0.0
    ensures 0.0 < (1.0 + s) * x / 1024.0 + 1.0
  {
    Times(0.0, x, 1.0 + s);
  }

  /** The estimate never exceeds the exact product and falls short of it by less than (1 + scale) * ctx / 1024
      + 1 MiB. */
  lemma EstimateIsClose(ctxSize: int, ggufBytes: int, scale: real)
    requires scale >= 0.0 && ctxSize >= 0
    ensures var est := EstimateKvCacheMib(ctxSize, ggufBytes, scale) as real;
            var exact := ExactKvMib(ctxSize, ggufBytes, scale);
            est <= exact < est + (1.0 + scale) * ctxSize as real / 1024.0 + 1.0
  {
    if ctxSize > 0 && ggufBytes > 0 {
      var a := 9 * (ggufBytes / MIB);
      assert a as real == 9.0 * (ggufBytes / MIB) as real;
      Rounded(a, ctxSize, scale, Prod((a / 1024) as real, scale), EstimateKvCacheMib(ctxSize, ggufBytes, scale));
    } else {
      Positive(ctxSize as real, scale);
    }
  }

  // ---- the gate ----

  lemma MoreContextNeedsMore(smaller: int, larger: int, ggufBytes: int, scale: real)
    requires scale >= 0.0 && smaller <= larger
    ensures 0 <= EstimateKvCacheMib(smaller, ggufBytes, scale) <= EstimateKvCacheMib(larger, ggufBytes, scale)
  {
    if ggufBytes > 0 && larger > 0 {
      var p := Prod((9 * (ggufBytes / MIB) / 1024) as real, scale);
      Times(0.0, (9 * (ggufBytes / MIB) / 1024) as real, scale);
      One(scale);
      TimesInt(p.Floor, if smaller > 0 then smaller else 0, larger);
    }
  }

  lemma TimesInt(c: int, m: int, n: int)
    requires 0 <= c && 0 <= m <= n
    ensures 0 <= c * m <= c * n
  {
  }

  /** Accepting a context accepts every smaller one. */
  lemma SmallerContextsFit(smaller: int, larger: int, ggufBytes: int, overheadMib: int, scale: real, freeMib: int,
                           probed: bool)
    requires scale >= 0.0 && smaller <= larger && KvCacheFits(larger, ggufBytes, overheadMib, scale, freeMib, probed)
    ensures KvCacheFits(smaller, ggufBytes, overheadMib, scale, freeMib, probed)
  {
    MoreContextNeedsMore(smaller, larger, ggufBytes, scale);
    hide EstimateKvCacheMib;
  }

  /** Without a reading of the free memory, or of the sizes, nothing is refused; with them, one more MiB of free memory
      never turns a pass into a refusal, and one more of overhead never the reverse. */
  lemma UnknownIsLetThrough(ctxSize: int, ggufBytes: int, overheadMib: int, scale: real, freeMib: int, probed: bool)
    requires scale >= 0.0
    ensures !probed || ctxSize <= 0 || ggufBytes <= 0 ==>
              KvCacheFits(ctxSize, ggufBytes, overheadMib, scale, freeMib, probed)
    ensures KvCacheFits(ctxSize, ggufBytes, overheadMib, scale, freeMib, probed) ==>
              KvCacheFits(ctxSize, ggufBytes, overheadMib, scale, freeMib + 1, probed)
              && KvCacheFits(ctxSize, ggufBytes, overheadMib - 1, scale, freeMib, probed)
  {
    hide EstimateKvCacheMib;
  }

  /** The gate never refuses a load whose exact need fits, and a load it lets through needs less than
      (1 + scale) * ctx / 1024 + 1 MiB beyond the free memory. */
  lemma GateIsExactUpToRounding(ctxSize: int, ggufBytes: int, overheadMib: int, scale: real, freeMib: int)
    requires scale >= 0.0 && ctxSize > 0 && ggufBytes > 0
    ensures var need := (ggufBytes / MIB + overheadMib) as real + ExactKvMib(ctxSize, ggufBytes, scale);
            && (need <= freeMib as real ==> KvCacheFits(ctxSize, ggufBytes, overheadMib, scale, freeMib, true))
            && (KvCacheFits(ctxSize, ggufBytes, overheadMib, scale, freeMib, true) ==>
                  need < freeMib as real + (1.0 + scale) * ctxSize as real / 1024.0 + 1.0)
  {
    EstimateIsClose(ctxSize, ggufBytes, scale);
    hide EstimateKvCacheMib, ExactKvMib;
  }
}
