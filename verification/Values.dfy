/** Value objects shared by the model, and sums over sequences.

    `Decimal` is modelled as an exact real. A price or a quantity that a caller
    supplies has passed `Price::new` / `Quantity::new` and is therefore positive;
    the unchecked constructors (used for sums, averages and zero) give plain reals. */
module Values {

  datatype Option<+T> = None | Some(value: T)

  datatype Result<+T, +E> = Ok(value: T) | Err(error: E)

  datatype Unit = Unit

  /** What a repository write reports: success, or an error with or without effect. */
  datatype WriteOutcome = Done | Failed(persisted: bool)
  {
    predicate TakesEffect() {
      Done? || persisted
    }
  }

  type Decimal = real
  type Price = p: real | p > 0.0 witness 1.0
  type Quantity = q: real | q > 0.0 witness 1.0
  type Symbol = string

  datatype Side = Buy | Sell
  {
    function Sign(): real {
      match this
      case Buy => 1.0
      case Sell => -1.0
    }

    /** x times the sign */
    function Signed(x: real): real {
      match this
      case Buy => x
      case Sell => -x
    }
  }

  function Abs(x: real): real {
    if x < 0.0 then -x else x
  }

  function Max(x: real, y: real): real {
    if x < y then y else x
  }

  // ---------------------------------------------------------------- sequences

  function Last<T>(s: seq<T>): T
    requires s != []
  {
    s[|s| - 1]
  }

  function Front<T>(s: seq<T>): seq<T>
    requires s != []
  {
    s[..|s| - 1]
  }

  lemma FrontLast<T>(s: seq<T>, x: T)
    ensures Front(s + [x]) == s && Last(s + [x]) == x
  {
  }

  ghost predicate Distinct<T>(s: seq<T>) {
    forall i, j :: 0 <= i < j < |s| ==> s[i] != s[j]
  }

  /** The sum of f over s. */
  function Sum<T>(f: T -> real, s: seq<T>): real {
    if s == [] then 0.0 else Sum(f, Front(s)) + f(Last(s))
  }

  lemma SumSnoc<T>(f: T -> real, s: seq<T>, x: T)
    ensures Sum(f, s + [x]) == Sum(f, s) + f(x)
  {
    FrontLast(s, x);
  }

  lemma {:induction false} SumConcat<T>(f: T -> real, s: seq<T>, t: seq<T>)
    ensures Sum(f, s + t) == Sum(f, s) + Sum(f, t)
    decreases |t|
  {
    if t == [] {
      assert s + t == s;
    } else {
      SumConcat(f, s, Front(t));
      assert Front(s + t) == s + Front(t) && Last(s + t) == Last(t);
    }
  }

  /** The sum of f over the elements of s that pass the filter. */
  function SumWhere<T>(f: T -> real, keep: T -> bool, s: seq<T>): real {
    if s == [] then 0.0
    else SumWhere(f, keep, Front(s)) + (if keep(Last(s)) then f(Last(s)) else 0.0)
  }

  function CountWhere<T>(keep: T -> bool, s: seq<T>): nat {
    if s == [] then 0 else CountWhere(keep, Front(s)) + (if keep(Last(s)) then 1 else 0)
  }

  /** A sum depends only on which elements are added, not on their order. */
  lemma {:induction false} SumPermutation<T>(f: T -> real, s: seq<T>, t: seq<T>)
    requires multiset(s) == multiset(t)
    ensures Sum(f, s) == Sum(f, t)
    decreases |s|
  {
    if s == [] {
      assert |multiset(t)| == 0;
    } else {
      var x := Last(s);
      assert s == Front(s) + [x];
      assert x in multiset(s);
      assert x in t;
      var i :| 0 <= i < |t| && t[i] == x;
      var u := t[..i] + t[i + 1..];
      assert t == t[..i] + [x] + t[i + 1..];
      assert multiset(t) == multiset(u) + multiset{x};
      assert multiset(s) == multiset(Front(s) + [x]) == multiset(Front(s)) + multiset{x};
      assert multiset(u) == multiset(t) - multiset{x} == multiset(Front(s));
      SumPermutation(f, Front(s), u);
      SumConcat(f, t[..i], t[i + 1..]);
      SumConcat(f, t[..i] + [x], t[i + 1..]);
      SumSnoc(f, t[..i], x);
    }
  }

  // ------------------------------------------------------- weighted averages

  /** Total notional over total quantity. */
  function Mean(notional: real, quantity: real): real
    requires quantity != 0.0
  {
    notional / quantity
  }

  /** The average after mixing `notional` worth of `quantity` into `prevQuantity` held at `avg`. */
  function Blend(avg: real, prevQuantity: real, notional: real, quantity: real): real
    requires prevQuantity + quantity != 0.0
  {
    (avg * prevQuantity + notional) / (prevQuantity + quantity)
  }

  /** Blending an average that is the mean of what it covers gives the mean of the whole. */
  lemma BlendOfMean(avg: real, prevQ: real, prevN: real, pq: real, q: real)
    requires prevQ + q > 0.0 && avg * prevQ == prevN
    ensures Blend(avg, prevQ, pq, q) * (prevQ + q) == prevN + pq
  {
  }

  lemma MeanUnique(avg: real, n: real, q: real)
    requires q > 0.0
    ensures avg * q == n <==> avg == Mean(n, q)
  {
    if avg * q == n {
      assert avg == n / q;
    }
  }

  /** Mixing in an exact price never widens an error: the old error shrinks by
      prevQ / (prevQ + q), and this division adds its own. */
  lemma ErrorStep(avg: real, prevQ: real, prevN: real, pq: real, q: real)
    requires prevQ > 0.0 && q > 0.0
    ensures Abs(Blend(avg, prevQ, pq, q) - Mean(prevN + pq, prevQ + q)) <= Abs(avg - Mean(prevN, prevQ))
  {
    var total := prevQ + q;
    var d := avg - prevN / prevQ;
    assert prevN / prevQ * prevQ == prevN;
    assert avg * prevQ - prevN == d * prevQ;
    assert (avg * prevQ + pq) / total - (prevN + pq) / total == d * prevQ / total;
    ShrunkError(d, prevQ, total);
  }

  lemma ShrunkError(d: real, part: real, total: real)
    requires 0.0 < part < total
    ensures Abs(d * part / total) <= Abs(d)
  {
    var share := part / total;
    assert d * part / total == d * share;
    assert 0.0 <= share <= 1.0;
    if d >= 0.0 {
      assert d * share <= d;
    } else {
      assert d * share >= d;
    }
  }
}
