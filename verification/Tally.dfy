/** Items, and sums of the items that the parts of a state hold. */
module Tally {
  type Item(==, !new)

  datatype Option<T> = None | Some(value: T)

  function InSlot(o: Option<Item>): multiset<Item> {
    if o.Some? then multiset{o.value} else multiset{}
  }

  function Total<X>(xs: seq<X>, f: X -> multiset<Item>): multiset<Item> {
    if xs == [] then multiset{} else Total(xs[..|xs| - 1], f) + f(xs[|xs| - 1])
  }

  lemma {:induction false} TotalUpdate<X>(xs: seq<X>, f: X -> multiset<Item>, k: nat, x: X)
    requires k < |xs|
    ensures Total(xs[k := x], f) + f(xs[k]) == Total(xs, f) + f(x)
  {
    var n := |xs| - 1;
    var ys := xs[k := x];
    if k == n {
      assert ys[..n] == xs[..n];
      Exchange(Total(xs[..n], f), f(x), f(xs[k]));
    } else {
      assert ys[..n] == xs[..n][k := x] && ys[n] == xs[n];
      TotalUpdate(xs[..n], f, k, x);
      Exchange(Total(ys[..n], f), f(xs[n]), f(xs[k]));
      Exchange(Total(xs[..n], f), f(xs[n]), f(x));
    }
  }

  lemma Exchange(a: multiset<Item>, b: multiset<Item>, c: multiset<Item>)
    ensures a + b + c == a + c + b
  {
  }

  lemma {:induction false} TotalSame<X>(xs: seq<X>, ys: seq<X>, f: X -> multiset<Item>)
    requires |xs| == |ys| && forall k :: 0 <= k < |xs| ==> f(xs[k]) == f(ys[k])
    ensures Total(xs, f) == Total(ys, f)
  {
    if xs != [] {
      TotalSame(xs[..|xs| - 1], ys[..|ys| - 1], f);
    }
  }

  lemma TotalAppend<X>(xs: seq<X>, x: X, f: X -> multiset<Item>)
    ensures Total(xs + [x], f) == Total(xs, f) + f(x)
  {
    assert (xs + [x])[..|xs|] == xs;
  }

  /** The books balance again after `inn` was handed in, `out` handed out, and the thread
      and the slots exchanged the rest. */
  lemma Balance(i: multiset<Item>, o: multiset<Item>, h: multiset<Item>, b: multiset<Item>,
                inn: multiset<Item>, out: multiset<Item>, h': multiset<Item>, b': multiset<Item>,
                th: multiset<Item>, th': multiset<Item>, sl: multiset<Item>, sl': multiset<Item>)
    requires i == o + h + b
    requires h' + th == h + th' && b' + sl == b + sl'
    requires th' + sl' + out == th + sl + inn
    ensures i + inn == (o + out) + h' + b'
  {
    forall x: Item
      ensures (i + inn)[x] == (o + out + h' + b')[x]
    {
      assert i[x] == (o + h + b)[x];
      assert (h' + th)[x] == (h + th')[x] && (b' + sl)[x] == (b + sl')[x];
      assert (th' + sl' + out)[x] == (th + sl + inn)[x];
    }
  }

  lemma Nothing(a: multiset<Item>)
    ensures a + multiset{} == a
  {
  }
}
