/**
 Splitting an amount by weights (`project-financial-calculations.ts`) without losing a cent. Amounts and
 weights are exact: an amount is a count of units of which `scale` make a cent, and weights are whole
 numbers of some common unit, so every decimal input has such a form.
 */
module Allocation {
  import opened Outcomes

  function Sum(s: seq<int>): int {
    if s == [] then 0 else Sum(s[..|s| - 1]) + s[|s| - 1]
  }

  predicate OutOfRange(total: int, weights: seq<int>) {
    total < 0 || weights == [] || (exists w :: w in weights && w < 0) || Sum(weights) <= 0
  }

  /** The total in cents, rounded half up. */
  function RoundedCents(total: nat, scale: nat): nat
    requires scale > 0
  {
    (2 * total + scale) / (2 * scale)
  }

  // ----- Arithmetic -----

  lemma Positive(a: nat, b: nat)
    requires a > 0 && b > 0
    ensures a * b > 0
  {
  }

  lemma Distributes(a: int, b: int, c: int)
    ensures a * (b + c) == a * b + a * c
  {
  }

  lemma Associates(a: int, b: int, c: int)
    ensures a * b * c == a * (b * c)
    ensures a * b == b * a
  {
  }

  lemma Order(d: nat, x: int, y: int)
    requires x <= y
    ensures d * x <= d * y
  {
    Distributes(d, x, y - x);
  }

  lemma Cancel(d: nat, x: int, y: int)
    requires d * x < d * y
    ensures x < y
  {
    if y <= x {
      Order(d, y, x);
    }
  }

  lemma DivisionLoses(x: nat, d: nat)
    requires d > 0
    ensures 0 <= x - d * (x / d) <= d - 1
  {
  }

  lemma {:induction false} SumUpdate(s: seq<int>, i: nat, x: int)
    requires i < |s|
    ensures Sum(s[i := x]) == Sum(s) - s[i] + x
  {
    var n := |s| - 1;
    if i == n {
      assert s[i := x][..n] == s[..n];
    } else {
      assert s[i := x][..n] == s[..n][i := x];
      SumUpdate(s[..n], i, x);
    }
  }

  // ----- How much rounding down leaves over -----

  /** The share of a weight in cents, rounded down; `d` is the sum of all weights times the scale. */
  function Proportional(total: nat, d: nat, weight: nat): int
    requires d > 0
  {
    total * weight / d
  }

  ghost predicate Floored(total: nat, d: nat, weights: seq<int>, shares: seq<int>)
    requires d > 0
  {
    |shares| == |weights| && forall i :: 0 <= i < |weights| ==>
        weights[i] >= 0 && shares[i] == Proportional(total, d, weights[i])
  }

  lemma ShareLoses(total: nat, d: nat, weight: nat)
    requires d > 0
    ensures 0 <= total * weight - d * Proportional(total, d, weight) <= d - 1
  {
    DivisionLoses(total * weight, d);
  }

  /** Rounding down loses less than one cent on each share. */
  lemma {:induction false} FloorsLose(total: nat, d: nat, weights: seq<int>, shares: seq<int>)
    requires d > 0 && Floored(total, d, weights, shares)
    ensures 0 <= total * Sum(weights) - d * Sum(shares) <= |weights| * (d - 1)
  {
    if weights != [] {
      var n := |weights| - 1;
      var w, f := weights[n], shares[n];
      assert Floored(total, d, weights[..n], shares[..n]);
      ShareLoses(total, d, w);
      hide Proportional, Floored;
      FloorsLose(total, d, weights[..n], shares[..n]);
      Distributes(total, Sum(weights[..n]), w);
      Distributes(d, Sum(shares[..n]), f);
      Distributes(d - 1, n, 1);
      Associates(n, d - 1, 1);
      Associates(n + 1, d - 1, 1);
    }
  }

  /** So between zero and `n` cents are left, and fewer than `n` when the total is whole cents. */
  lemma LeftOver(total: nat, scale: nat, weights: seq<int>, shares: seq<int>)
    requires scale > 0 && Sum(weights) > 0 && weights != []
    requires scale * Sum(weights) > 0 && Floored(total, scale * Sum(weights), weights, shares)
    ensures 0 <= RoundedCents(total, scale) - Sum(shares) <= |weights|
    ensures total % scale == 0 ==> RoundedCents(total, scale) - Sum(shares) < |weights|
  {
    var w := Sum(weights);
    var d, n := scale * w, |weights|;
    var q, f := RoundedCents(total, scale), Sum(shares);
    FloorsLose(total, d, weights, shares);
    Rounding(total, scale);
    hide Sum, RoundedCents, Floored;
    ScaleUp(scale, w, q, total);
    LeftOverBounds(d, n, q, f, total * w);
    if total % scale == 0 {
      WholeCents(total, scale, w, q);
      LeftOverWhole(d, n, q, f);
    }
  }

  lemma Rounding(total: nat, scale: nat)
    requires scale > 0
    ensures var q := RoundedCents(total, scale);
            2 * total - scale < 2 * (scale * q) <= 2 * total + scale
    ensures total % scale == 0 ==> total == scale * RoundedCents(total, scale)
  {
    var q := RoundedCents(total, scale);
    DivisionLoses(2 * total + scale, 2 * scale);
    Associates(2, scale, q);
    if total % scale == 0 {
      SameRounding(scale, total / scale, q);
    }
  }

  lemma SameRounding(scale: nat, c: int, q: int)
    requires scale > 0
    requires 2 * (scale * c) - scale < 2 * (scale * q) <= 2 * (scale * c) + scale
    ensures c == q
  {
    Distributes(scale, c, 1);
    Distributes(scale, c, -1);
    Cancel(scale, q, c + 1);
    Cancel(scale, c - 1, q);
  }

  lemma ScaleUp(scale: nat, w: nat, q: nat, total: nat)
    requires scale > 0 && w > 0 && 2 * total - scale < 2 * (scale * q) <= 2 * total + scale
    ensures 2 * (total * w) - scale * w < 2 * (scale * w * q) <= 2 * (total * w) + scale * w
  {
    var y := scale * q;
    Swap(scale, w, q);
    Widen(w, y, total, scale);
  }

  lemma Swap(a: int, b: int, c: int)
    ensures a * b * c == b * (a * c)
  {
    Associates(a, b, c);
    Associates(b, a, c);
  }

  lemma Widen(w: nat, y: int, total: int, scale: int)
    requires w > 0 && 2 * total - scale < 2 * y <= 2 * total + scale
    ensures 2 * (total * w) - scale * w < 2 * (w * y) <= 2 * (total * w) + scale * w
  {
    var low, high := 2 * y - (2 * total - scale), 2 * total + scale - 2 * y;
    Order(w, 1, low);
    Order(w, 0, high);
    Expand(w, y, total, scale);
  }

  lemma Expand(w: int, y: int, total: int, scale: int)
    ensures w * (2 * y - (2 * total - scale)) == 2 * (w * y) - 2 * (total * w) + scale * w
    ensures w * (2 * total + scale - 2 * y) == 2 * (total * w) + scale * w - 2 * (w * y)
  {
  }

  lemma LeftOverBounds(d: nat, n: nat, q: int, f: int, tw: int)
    requires d > 0 && 0 <= tw - d * f <= n * (d - 1)
    requires 2 * tw - d < 2 * (d * q) <= 2 * tw + d
    ensures 0 <= q - f <= n
  {
    Distributes(d, f, q - f);
    Distributes(n, d, -1);
    Associates(n, d, 1);
    Distributes(d, n, 1);
    Cancel(d, -1, q - f);
    Cancel(d, q - f, n + 1);
  }

  lemma WholeCents(total: nat, scale: nat, w: nat, q: nat)
    requires total == scale * q
    ensures total * w == scale * w * q
  {
    Swap(scale, w, q);
    Associates(total, w, 1);
  }

  lemma LeftOverWhole(d: nat, n: nat, q: int, f: int)
    requires d > 0 && n > 0 && 0 <= d * q - d * f <= n * (d - 1)
    ensures q - f < n
  {
    Distributes(d, f, q - f);
    Distributes(n, d, -1);
    Associates(n, d, 1);
    Cancel(d, q - f, n);
  }

  // ----- The allocation -----

  /** The proportional shares in cents, rounded down. */
  function Floors(total: nat, d: nat, weights: seq<int>): (r: seq<int>)
    requires d > 0 && forall i :: 0 <= i < |weights| ==> weights[i] >= 0
    ensures Floored(total, d, weights, r)
  {
    seq(|weights|, i requires 0 <= i < |weights| => Proportional(total, d, weights[i]))
  }

  /** The first `extra` shares raised by one cent. */
  function Topped(shares: seq<int>, extra: int): seq<int> {
    seq(|shares|, i requires 0 <= i < |shares| => shares[i] + if i < extra then 1 else 0)
  }

  /** What an allocation is: floored shares with the cents left over given to the first ones. */
  ghost predicate IsAllocation(total: nat, scale: nat, weights: seq<int>, shares: seq<int>)
    requires scale > 0 && Sum(weights) > 0 && scale * Sum(weights) > 0
  {
    exists floors :: Floored(total, scale * Sum(weights), weights, floors)
                     && shares == Topped(floors, RoundedCents(total, scale) - Sum(floors))
  }

  /** `allocateAmount`, in cents; `rounds` counts the turns of the loop that gives out what is left. */
  method AllocateAmount(total: int, scale: nat, weights: seq<int>) returns (r: Option<seq<int>>, rounds: nat)
    requires scale > 0
    ensures r.None? <==> OutOfRange(total, weights)
    ensures r.Some? ==> scale * Sum(weights) > 0 && IsAllocation(total, scale, weights, r.value)
    ensures rounds <= |weights|
    ensures r.Some? && total % scale == 0 ==> rounds < |weights|
  {
    rounds := 0;
    if OutOfRange(total, weights) {
      return None, 0;
    }
    var sum := Sum(weights);
    Positive(scale, sum);
    hide Floored, Sum, RoundedCents;
    forall i | 0 <= i < |weights|
      ensures weights[i] >= 0
    {
      assert weights[i] in weights;
    }
    hide OutOfRange;
    var floors := Floors(total, scale * sum, weights);
    LeftOver(total, scale, weights, floors);
    var cents;
    cents, rounds := TopUp(floors, RoundedCents(total, scale) - Sum(floors));
    r := Some(cents);
  }

  /** The loop: one cent to each share in turn until nothing is left. */
  method TopUp(floors: seq<int>, left: nat) returns (cents: seq<int>, rounds: nat)
    requires left <= |floors|
    ensures cents == Topped(floors, left) && rounds == left
  {
    cents, rounds := floors, 0;
    var index, remaining := 0, left;
    while remaining > 0
      invariant 0 <= remaining <= left && rounds == left - remaining
      invariant |cents| == |floors| && index == if rounds == |floors| then 0 else rounds
      invariant cents == Topped(floors, rounds)
    {
      cents := cents[index := cents[index] + 1];
      remaining, rounds := remaining - 1, rounds + 1;
      index := (index + 1) % |cents|;
    }
  }

  lemma {:induction false} ToppedSum(shares: seq<int>, extra: nat)
    requires extra <= |shares|
    ensures Sum(Topped(shares, extra)) == Sum(shares) + extra
  {
    if extra == 0 {
      assert Topped(shares, 0) == shares;
    } else {
      ToppedSum(shares, extra - 1);
      assert Topped(shares, extra) == Topped(shares, extra - 1)[extra - 1 := shares[extra - 1] + 1];
      SumUpdate(Topped(shares, extra - 1), extra - 1, shares[extra - 1] + 1);
    }
  }

  /** No cent is lost or made: the shares sum to the total rounded half up to cents. */
  lemma SharesSumToTotal(total: nat, scale: nat, weights: seq<int>, shares: seq<int>)
    requires scale > 0 && Sum(weights) > 0 && weights != []
    requires scale * Sum(weights) > 0 && IsAllocation(total, scale, weights, shares)
    ensures Sum(shares) == RoundedCents(total, scale)
  {
    var floors :| Floored(total, scale * Sum(weights), weights, floors)
                  && shares == Topped(floors, RoundedCents(total, scale) - Sum(floors));
    LeftOver(total, scale, weights, floors);
    ToppedSum(floors, RoundedCents(total, scale) - Sum(floors));
  }

  lemma FloorMonotone(total: nat, d: nat, v: nat, w: nat)
    requires d > 0 && v >= w
    ensures Proportional(total, d, v) >= Proportional(total, d, w)
  {
    var a, b := total * v, total * w;
    Order(total, w, v);
    DivisionLoses(a, d);
    DivisionLoses(b, d);
    Distributes(d, a / d, 1);
    Cancel(d, b / d, a / d + 1);
  }

  /** Each share is the proportional cents rounded down, or one cent more. */
  lemma ShareIsProportional(total: nat, scale: nat, weights: seq<int>, shares: seq<int>, i: nat)
    requires scale > 0 && Sum(weights) > 0 && weights != []
    requires scale * Sum(weights) > 0 && IsAllocation(total, scale, weights, shares) && i < |weights|
    ensures |shares| == |weights| && weights[i] >= 0
    ensures var exact := Proportional(total, scale * Sum(weights), weights[i]);
            exact <= shares[i] <= exact + 1
  {
    hide Sum, RoundedCents, Proportional;
  }

  /**
   The shares that got a cent more come first, and of two shares the earlier is not the smaller unless
   its weight is.
   */
  lemma SharesAreFair(total: nat, scale: nat, weights: seq<int>, shares: seq<int>, i: nat, j: nat)
    requires scale > 0 && Sum(weights) > 0 && weights != []
    requires scale * Sum(weights) > 0 && IsAllocation(total, scale, weights, shares)
    requires i < j < |weights|
    ensures |shares| == |weights| && weights[i] >= 0 && weights[j] >= 0
    ensures var d := scale * Sum(weights);
            shares[j] == Proportional(total, d, weights[j]) + 1 ==> shares[i] == Proportional(total, d, weights[i]) + 1
    ensures weights[i] >= weights[j] ==> shares[i] >= shares[j]
  {
    var d := scale * Sum(weights);
    var floors :| Floored(total, d, weights, floors)
                  && shares == Topped(floors, RoundedCents(total, scale) - Sum(floors));
    hide Sum, RoundedCents;
    if weights[i] >= weights[j] {
      FloorMonotone(total, d, weights[i], weights[j]);
    }
  }
}
