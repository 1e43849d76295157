/** Positions on a ring of m slots: integers that agree up to a multiple of m. */
module Congruence {

  function Times(k: int, m: int): int { k * m }

  ghost predicate Cong(a: int, b: int, m: nat)
  {
    exists k :: a - b == Times(k, m)
  }

  lemma CongBy(a: int, b: int, m: nat, k: int)
    requires a - b == k * m
    ensures Cong(a, b, m)
  {
    assert a - b == Times(k, m);
  }

  lemma CongSum(a: int, b: int, c: int, d: int, m: nat)
    requires Cong(a, b, m) && Cong(c, d, m)
    ensures Cong(a + c, b + d, m) && Cong(a - c, b - d, m)
  {
    var k :| a - b == Times(k, m);
    var l :| c - d == Times(l, m);
    assert (k + l) * m == k * m + l * m && (k - l) * m == k * m - l * m;
    CongBy(a + c, b + d, m, k + l);
    CongBy(a - c, b - d, m, k - l);
  }

  lemma CongSym(a: int, b: int, m: nat)
    requires Cong(a, b, m)
    ensures Cong(b, a, m)
  {
    CongBy(0, 0, m, 0);
    CongSum(0, 0, a, b, m);
    CongShift(-a, -b, a + b, m);
  }

  lemma CongShift(a: int, b: int, c: int, m: nat)
    requires Cong(a, b, m)
    ensures Cong(a + c, b + c, m)
  {
    CongBy(c, c, m, 0);
    CongSum(a, b, c, c, m);
  }

  lemma CongTrans(a: int, b: int, c: int, m: nat)
    requires Cong(a, b, m) && Cong(b, c, m)
    ensures Cong(a, c, m)
  {
    CongSum(a, b, b, c, m);
    CongShift(a + b, b + c, -b, m);
  }

  /** Numbers less than m apart agree only if they are equal. */
  lemma CongNear(a: int, b: int, m: nat)
    requires Cong(a, b, m) && -(m as int) < a - b < m
    ensures a == b
  {
    var k :| a - b == Times(k, m);
    MultipleIsFar(k, m);
  }

  lemma MultipleIsFar(k: int, m: nat)
    ensures k == 0 || k * m >= m || -(k * m) >= m
  {
    if k > 0 {
      AtLeastOnce(k, m);
    } else if k < 0 {
      AtLeastOnce(-k, m);
      assert (-k) * m == -(k * m);
    }
  }

  lemma {:induction false} AtLeastOnce(k: nat, m: nat)
    requires k > 0
    ensures k * m >= m
  {
    if k > 1 {
      AtLeastOnce(k - 1, m);
      assert k * m == (k - 1) * m + m;
    }
  }

  lemma ModCong(a: int, m: nat)
    requires m > 0
    ensures 0 <= a % m < m && Cong(a % m, a, m) && Cong(a, a % m, m)
  {
    CongBy(a, a % m, m, a / m);
    CongSym(a, a % m, m);
  }

  /** What agrees on a ring agrees on every smaller ring that divides it. */
  lemma CongDivides(a: int, b: int, m: nat, k: nat)
    requires Cong(a, b, k * m)
    ensures Cong(a, b, m)
  {
    var l :| a - b == Times(l, k * m);
    assert l * (k * m) == (l * k) * m;
    CongBy(a, b, m, l * k);
  }

  // ---------------------------------------------------------------- slots

  function Slot(p: int, m: nat): (r: nat)
    requires m > 0
    ensures r < m
  {
    p % m
  }

  lemma SlotCong(p: int, m: nat)
    requires m > 0
    ensures Cong(Slot(p, m), p, m)
  {
    ModCong(p, m);
  }

  lemma SameSlot(a: int, b: int, m: nat)
    requires m > 0
    ensures Slot(a, m) == Slot(b, m) <==> Cong(a, b, m)
  {
    SlotCong(a, m);
    SlotCong(b, m);
    CongSym(Slot(a, m), a, m);
    CongSym(Slot(b, m), b, m);
    if Slot(a, m) == Slot(b, m) {
      CongTrans(a, Slot(a, m), b, m);
    }
    if Cong(a, b, m) {
      CongTrans(Slot(a, m), a, b, m);
      CongTrans(Slot(a, m), b, Slot(b, m), m);
      CongNear(Slot(a, m), Slot(b, m), m);
    }
  }

  lemma OwnSlot(p: nat, m: nat)
    requires p < m
    ensures Slot(p, m) == p
  {
    SlotCong(p, m);
    CongNear(Slot(p, m), p, m);
  }

  lemma SlotOfSlot(a: int, b: int, m: nat)
    requires m > 0
    ensures Slot(Slot(a, m) + b, m) == Slot(a + b, m)
  {
    SlotCong(a, m);
    CongShift(Slot(a, m), a, b, m);
    SameSlot(Slot(a, m) + b, a + b, m);
  }
}
