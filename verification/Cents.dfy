/**
 Money columns: the program computes with exact decimals, here the count of cents as a `real`, and the
 database keeps two decimals, rounding halves away from zero.
 */
module Cents {

  function Stored(amount: real): int {
    if amount >= 0.0 then (amount + 0.5).Floor else -((0.5 - amount).Floor)
  }

  predicate Whole(amount: real) {
    amount == amount.Floor as real
  }

  lemma FloorIs(x: real, n: int)
    requires n as real <= x < n as real + 1.0
    ensures x.Floor == n
  {
    var f := x.Floor;
    assert f as real <= x < f as real + 1.0;
    assert (f as real) < (n + 1) as real && (n as real) < (f + 1) as real;
  }

  /** Storing rounds to the nearest. */
  lemma StoredNear(amount: real)
    ensures -0.5 <= Stored(amount) as real - amount <= 0.5
    ensures amount >= 0.0 ==> Stored(amount) >= 0
  {
    var up, down := (amount + 0.5).Floor, (0.5 - amount).Floor;
    assert up as real <= amount + 0.5 < up as real + 1.0;
    assert down as real <= 0.5 - amount < down as real + 1.0;
  }

  /** What is stored, by the interval it rounds; a half goes away from zero. */
  lemma StoredExactly(amount: real, cents: int)
    ensures Stored(amount) == cents <==>
            if amount >= 0.0 then -0.5 < cents as real - amount <= 0.5 else -0.5 <= cents as real - amount < 0.5
  {
    var up, down := (amount + 0.5).Floor, (0.5 - amount).Floor;
    assert up as real <= amount + 0.5 < up as real + 1.0;
    assert down as real <= 0.5 - amount < down as real + 1.0;
    assert cents as real <= amount + 0.5 < cents as real + 1.0 ==> up == cents by {
      if cents as real <= amount + 0.5 < cents as real + 1.0 {
        FloorIs(amount + 0.5, cents);
      }
    }
    assert -cents as real <= 0.5 - amount < -cents as real + 1.0 ==> down == -cents by {
      if -cents as real <= 0.5 - amount < -cents as real + 1.0 {
        FloorIs(0.5 - amount, -cents);
      }
    }
  }

  /** Whole cents are stored as they are. */
  lemma StoredWhole(cents: int)
    ensures Stored(cents as real) == cents && Whole(cents as real)
  {
    FloorIs(cents as real + 0.5, cents);
    FloorIs(0.5 - cents as real, -cents);
    FloorIs(cents as real, cents);
  }

  /** Whole cents stay whole, and adding and storing them commute. */
  lemma WholeSum(x: real, y: real)
    requires Whole(x) && Whole(y)
    ensures Whole(x + y) && Stored(x) == x.Floor && Stored(y) == y.Floor
    ensures Stored(x + y) == Stored(x) + Stored(y)
    ensures Stored(x - y) == Stored(x) - Stored(y)
  {
    var a, b := x.Floor, y.Floor;
    StoredWhole(a);
    StoredWhole(b);
    StoredWhole(a + b);
    StoredWhole(a - b);
    assert (a + b) as real == x + y && (a - b) as real == x - y;
  }

  /** The same with what a column holds. */
  lemma WholeColumn(cents: int, amount: real)
    requires Whole(amount)
    ensures Stored(cents as real + amount) == cents + Stored(amount)
    ensures Stored(cents as real - amount) == cents - Stored(amount)
    ensures amount == Stored(amount) as real
  {
    StoredWhole(cents);
    WholeSum(cents as real, amount);
  }

  /** Adding whole cents and rounding commute but for a half that changes sides of zero. */
  lemma WholeAddedExactly(x: real, cents: int)
    ensures Stored(x + cents as real) == Stored(x) + cents <==> !Half(x) || (x >= 0.0 <==> x + cents as real >= 0.0)
  {
    StoredExactly(x, Stored(x));
    StoredExactly(x + cents as real, Stored(x) + cents);
    var part := x - x.Floor as real;
    var off := Stored(x) as real - x;
    assert off == 0.5 || off == -0.5 ==> Half(x) by {
      if off == 0.5 {
        FloorIs(x, Stored(x) - 1);
      }
      if off == -0.5 {
        FloorIs(x, Stored(x));
      }
    }
    if Half(x) {
      if x >= 0.0 {
        FloorIs(x + 0.5, x.Floor + 1);
      } else {
        FloorIs(0.5 - x, -x.Floor);
      }
    }
  }

  /** Exactly half a cent over. */
  predicate Half(amount: real) {
    amount == amount.Floor as real + 0.5
  }

  lemma MoveRoundsUp(from: int, to: int, whole: int, part: real)
    requires 0.0 <= part < 1.0 && 0.0 <= whole as real + part <= from as real && to >= 0
    ensures Stored(to as real + (whole as real + part)) == to + whole + if part >= 0.5 then 1 else 0
    ensures Stored(from as real - (whole as real + part)) == from - whole - if part > 0.5 then 1 else 0
  {
    FloorIs(to as real + (whole as real + part) + 0.5, to + whole + if part >= 0.5 then 1 else 0);
    FloorIs(from as real - (whole as real + part) + 0.5, from - whole - if part > 0.5 then 1 else 0);
  }

  /** Adding to a column that is not negative rounds the amount alone. */
  lemma AddCents(cents: nat, amount: real)
    requires amount >= 0.0
    ensures Stored(cents as real + amount) == cents + Stored(amount)
  {
    var up := (amount + 0.5).Floor;
    FloorIs(cents as real + amount + 0.5, cents + up);
  }

  /**
   Moving an amount from one column to another keeps their sum unless the amount ends in exactly half a
   cent: then both columns round up.
   */
  lemma MoveKeepsSumExactly(from: int, to: int, amount: real)
    requires 0.0 <= amount <= from as real && to >= 0
    ensures Stored(to as real + amount) + Stored(from as real - amount) == to + from <==> !Half(amount)
  {
    MoveRoundsUp(from, to, amount.Floor, amount - amount.Floor as real);
  }
}
