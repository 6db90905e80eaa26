/** Error injection of the preorder coordinator: which payload indices get corrupted. */
module ErrorInjection {
  import opened Arith

  /** The setting held by the coordinator. */
  datatype Injection = Injection(enabled: bool, rps: int)

  /** How many payloads of every `rps` consecutive ones are corrupted. */
  function WrongCount(rps: int): int {
    if rps >= 10 then rps / 10 else 1
  }

  predicate ShouldCorrupt(c: Injection, idx: nat) {
    if !c.enabled || c.rps <= 1 then false else idx % c.rps < WrongCount(c.rps)
  }

  /** The number of corrupted indices in the half-open window [lo, hi). */
  function CorruptedIn(c: Injection, lo: nat, hi: nat): nat
    requires lo <= hi
    decreases hi
  {
    if lo == hi then 0 else CorruptedIn(c, lo, hi - 1) + (if ShouldCorrupt(c, hi - 1) then 1 else 0)
  }

  lemma {:induction false} PrefixCountAt(c: Injection, q: nat, r: nat)
    requires c.enabled && c.rps >= 2 && r < c.rps
    ensures 0 <= c.rps * q
    ensures CorruptedIn(c, 0, c.rps * q + r) == WrongCount(c.rps) * q + Min(r, WrongCount(c.rps))
    decreases q, r
  {
    var w := WrongCount(c.rps);
    if r > 0 {
      PrefixCountAt(c, q, r - 1);
      DivModUnique(c.rps * q + r - 1, c.rps, q, r - 1);
    } else if q > 0 {
      PrefixCountAt(c, q - 1, c.rps - 1);
      Distribute(c.rps, q - 1, 1);
      Distribute(w, q - 1, 1);
      DivModUnique(c.rps * q - 1, c.rps, q - 1, c.rps - 1);
      assert w < c.rps;
    }
  }

  /** Exact count over every prefix. */
  lemma PrefixCount(c: Injection, n: nat)
    requires c.enabled && c.rps >= 2
    ensures CorruptedIn(c, 0, n) == WrongCount(c.rps) * (n / c.rps) + Min(n % c.rps, WrongCount(c.rps))
  {
    var q, r := n / c.rps, n % c.rps;
    assert n == c.rps * q + r;
    PrefixCountAt(c, q, r);
  }

  lemma {:induction false} CountSplits(c: Injection, a: nat, b: nat)
    requires a <= b
    ensures CorruptedIn(c, 0, b) == CorruptedIn(c, 0, a) + CorruptedIn(c, a, b)
  {
    if a < b {
      CountSplits(c, a, b - 1);
    }
  }

  /** One of every `rps` payloads below a rate of ten, and a tenth of them, rounded down, from ten on. */
  lemma HowManyWrong(c: Injection, offset: nat)
    requires c.enabled && c.rps >= 2
    ensures c.rps < 10 ==> CorruptedIn(c, offset, offset + c.rps) == 1
    ensures c.rps >= 10 ==> CorruptedIn(c, offset, offset + c.rps) == c.rps / 10 >= 1
  {
    WindowCount(c, offset);
  }

  /** Any `rps` consecutive payloads, from any offset, contain exactly WrongCount corrupted ones. */
  lemma WindowCount(c: Injection, offset: nat)
    requires c.enabled && c.rps >= 2
    ensures CorruptedIn(c, offset, offset + c.rps) == WrongCount(c.rps)
  {
    var q, r := offset / c.rps, offset % c.rps;
    assert offset == c.rps * q + r;
    PrefixCountAt(c, q, r);
    PrefixCountAt(c, q + 1, r);
    Distribute(c.rps, q, 1);
    Distribute(WrongCount(c.rps), q, 1);
    CountSplits(c, offset, offset + c.rps);
  }

  /** Injection off, or a target of at most one request per second, corrupts nothing at all. */
  lemma {:induction false} OffMeansNone(c: Injection, lo: nat, hi: nat)
    requires lo <= hi
    ensures (forall n: nat :: CorruptedIn(c, 0, n) == 0) <==> !c.enabled || c.rps <= 1
    ensures !c.enabled || c.rps <= 1 ==> CorruptedIn(c, lo, hi) == 0
    decreases hi
  {
    if !c.enabled || c.rps <= 1 {
      if lo < hi {
        OffMeansNone(c, lo, hi - 1);
      }
      forall n: nat ensures CorruptedIn(c, 0, n) == 0 {
        NeverCorrupted(c, n);
      }
    } else {
      PrefixCount(c, 1);
      DivModUnique(1, c.rps, 0, 1);
      assert CorruptedIn(c, 0, 1) == 1;
    }
  }

  lemma {:induction false} NeverCorrupted(c: Injection, n: nat)
    requires !c.enabled || c.rps <= 1
    ensures CorruptedIn(c, 0, n) == 0
  {
    if n > 0 {
      NeverCorrupted(c, n - 1);
    }
  }
}
