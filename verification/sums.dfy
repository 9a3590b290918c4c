/** The four sales channels a report is split into and the arithmetic of
    their sums. */
module Sums {

  datatype Channel = Hall | Baemin | Coupang | Yogiyo

  /** One amount per channel: hall (in-store payments), Baemin, Coupang
      Eats and Yogiyo. */
  datatype Buckets = Buckets(hall: int, baemin: int, coupang: int, yogiyo: int)

  const NoSales := Buckets(0, 0, 0, 0)

  function Plus(a: Buckets, b: Buckets): Buckets {
    Buckets(a.hall + b.hall, a.baemin + b.baemin, a.coupang + b.coupang, a.yogiyo + b.yogiyo)
  }

  /** `amount` booked to channel `k` and nothing to the others. */
  function Credit(k: Channel, amount: int): Buckets {
    match k
    case Hall => Buckets(amount, 0, 0, 0)
    case Baemin => Buckets(0, amount, 0, 0)
    case Coupang => Buckets(0, 0, amount, 0)
    case Yogiyo => Buckets(0, 0, 0, amount)
  }

  function Share(b: Buckets, k: Channel): int {
    match k
    case Hall => b.hall
    case Baemin => b.baemin
    case Coupang => b.coupang
    case Yogiyo => b.yogiyo
  }

  /** The sum of all channels: the report's total. */
  function Total(b: Buckets): int {
    b.hall + b.baemin + b.coupang + b.yogiyo
  }

  /** The channel-wise sum of a run of sums, added up from the left. */
  function Sum(xs: seq<Buckets>): Buckets {
    if xs == [] then NoSales else Plus(Sum(xs[..|xs| - 1]), xs[|xs| - 1])
  }

  lemma SumSnoc(xs: seq<Buckets>, x: Buckets)
    ensures Sum(xs + [x]) == Plus(Sum(xs), x)
  {
    assert (xs + [x])[..|xs|] == xs;
  }

  /** Growing a run by the next element adds that element. */
  lemma SumRangeStep(xs: seq<Buckets>, lo: nat, hi: nat)
    requires lo <= hi < |xs|
    ensures Sum(xs[lo..hi + 1]) == Plus(Sum(xs[lo..hi]), xs[hi])
  {
    assert xs[lo..hi + 1][..hi - lo] == xs[lo..hi];
  }

  lemma SumWhole(xs: seq<Buckets>)
    ensures Sum(xs[..|xs|]) == Sum(xs)
  {
    assert xs[..|xs|] == xs;
  }

  /** Growing a prefix by the next element adds that element. */
  lemma SumPrefixStep(xs: seq<Buckets>, c: nat)
    requires c < |xs|
    ensures Sum(xs[..c + 1]) == Plus(Sum(xs[..c]), xs[c])
  {
    assert xs[..c + 1][..c] == xs[..c];
  }

  lemma PlusAssoc(a: Buckets, b: Buckets, c: Buckets)
    ensures Plus(Plus(a, b), c) == Plus(a, Plus(b, c))
  {
  }

  lemma PlusNoSales(a: Buckets)
    ensures Plus(a, NoSales) == a
  {
  }

  lemma {:induction false} SumAppend(xs: seq<Buckets>, ys: seq<Buckets>)
    ensures Sum(xs + ys) == Plus(Sum(xs), Sum(ys))
    decreases |ys|
  {
    if ys == [] {
      assert xs + ys == xs;
    } else {
      var n := |ys| - 1;
      assert xs + ys == (xs + ys[..n]) + [ys[n]];
      SumAppend(xs, ys[..n]);
      SumSnoc(xs + ys[..n], ys[n]);
    }
  }

  lemma PlusNothing(a: Buckets, b: Buckets)
    requires a == NoSales && b == NoSales
    ensures Plus(a, b) == NoSales
  {}

  lemma {:induction false} SumOfNothing(xs: seq<Buckets>)
    requires forall i :: 0 <= i < |xs| ==> xs[i] == NoSales
    ensures Sum(xs) == NoSales
  {
    if xs != [] {
      var p := xs[..|xs| - 1];
      SumOfNothing(p);
      PlusNothing(Sum(p), xs[|xs| - 1]);
    }
  }

  lemma {:induction false} SumShareZero(xs: seq<Buckets>, k: Channel)
    requires forall i :: 0 <= i < |xs| ==> Share(xs[i], k) == 0
    ensures Share(Sum(xs), k) == 0
  {
    if xs != [] {
      SumShareZero(xs[..|xs| - 1], k);
    }
  }
}
