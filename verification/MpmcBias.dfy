/** The starting slots that `Sender::clone` deals out. */
module MpmcBias {
  import opened Status
  import Mpmc

  const WORD: nat := 0x1_0000_0000

  /** Thirty clones in a row, from a count of `n`, get each starting slot once. */
  ghost predicate DealsEverySlot(n: nat) {
    && (forall b: nat :: b < SLOTS ==> Dealt(n, b))
    && (forall k, l :: n <= k < l < n + SLOTS ==> Mpmc.CloneBias(k) != Mpmc.CloneBias(l))
  }

  ghost predicate Dealt(n: nat, b: nat) {
    exists k :: n <= k < n + SLOTS && Mpmc.CloneBias(k) == b
  }

  /** How often `k * 7` has wrapped round. */
  function Wraps(k: nat): nat {
    k * 7 / WORD
  }

  lemma BiasIs(k: nat)
    ensures Mpmc.CloneBias(k) == (k * 7 + 14 * Wraps(k)) % 30
  {
    var q := Wraps(k);
    assert k * 7 == q * WORD + k * 7 % WORD;
    assert WORD == 30 * 143165576 + 16;
    var r := k * 7 % WORD;
    assert r + 30 * (143165577 * q) == k * 7 + 14 * q;
    AddThirties(r, 143165577 * q);
  }

  lemma AddThirties(r: nat, m: int)
    requires r + 30 * m >= 0
    ensures (r + 30 * m) % 30 == r % 30
  {
  }

  /** Between two wraps the biases go round all the slots. */
  lemma SameWrapDeals(n: nat)
    requires Wraps(n) == Wraps(n + 29)
    ensures DealsEverySlot(n)
  {
    forall b: nat | b < SLOTS
      ensures Dealt(n, b)
    {
      var q := Wraps(n);
      var d := (13 * (b + 16 * q) + 29 * n) % 30;
      var k := n + d;
      BiasIs(k);
      assert Wraps(k) == q;
      Solves(n, q, b, d);
    }
    forall k, l | n <= k < l < n + SLOTS
      ensures Mpmc.CloneBias(k) != Mpmc.CloneBias(l)
    {
      BiasIs(k);
      BiasIs(l);
      assert Wraps(k) == Wraps(l) == Wraps(n);
      SevenApart(k * 7 + 14 * Wraps(n), l - k);
    }
  }

  lemma Solves(n: nat, q: nat, b: nat, d: nat)
    requires b < 30 && d == (13 * (b + 16 * q) + 29 * n) % 30
    ensures ((n + d) * 7 + 14 * q) % 30 == b
  {
    var e := (13 * (b + 16 * q) + 29 * n) / 30;
    assert (n + d) * 7 + 14 * q == b + 30 * (7 * n + 3 * b + 49 * q - 7 * e);
    AddThirties(b, 7 * n + 3 * b + 49 * q - 7 * e);
  }

  lemma SevenApart(a: nat, d: nat)
    requires 0 < d < 30
    ensures a % 30 != (a + d * 7) % 30
  {
  }

  /** If `k * 7` wraps within the thirty, some slot is dealt twice. */
  lemma WrapRepeats(n: nat)
    requires Wraps(n) != Wraps(n + 29)
    ensures !DealsEverySlot(n)
  {
    var q := Wraps(n);
    assert Wraps(n + 29) == q + 1;
    if Wraps(n + 28) == q + 1 {
      Repeats(n, n + 28);
    } else {
      assert Wraps(n + 1) == q;
      Repeats(n + 1, n + 29);
    }
  }

  lemma Repeats(k: nat, l: nat)
    requires l == k + 28 && Wraps(l) == Wraps(k) + 1
    ensures Mpmc.CloneBias(k) == Mpmc.CloneBias(l)
  {
    BiasIs(k);
    BiasIs(l);
    AddThirties(k * 7 + 14 * Wraps(k), 7);
  }

  /** Exactly when the clones spread over all the slots: the multiplication by 7 must not
      overflow within the thirty. */
  lemma DealsEverySlotIff(n: nat)
    ensures DealsEverySlot(n) <==> Wraps(n) == Wraps(n + 29)
  {
    if Wraps(n) == Wraps(n + 29) {
      SameWrapDeals(n);
    } else {
      WrapRepeats(n);
    }
  }
}
