/** The ticket quantity selector: one counter per ticket row, clamped at zero, and the rule
    that enables the action button. */
module SelectTicket {

  /** `Math.max(0, current + change)`: the new count of a row. */
  function Bump(current: int, change: int): (r: int)
    ensures r >= 0 && r >= current + change
    ensures r == current + change || r == 0
  {
    if current + change > 0 then current + change else 0
  }

  /** `quantities.reduce((sum, qty) => sum + qty, 0)`. */
  function Sum(q: seq<int>): int {
    if q == [] then 0 else q[0] + Sum(q[1..])
  }

  predicate AllNonNegative(q: seq<int>) {
    forall i :: 0 <= i < |q| ==> q[i] >= 0
  }

  /** Over non-negative counts the total is positive exactly when some row is. */
  lemma {:induction false} SumPositiveIffSomeRow(q: seq<int>)
    requires AllNonNegative(q)
    ensures Sum(q) >= 0
    ensures Sum(q) > 0 <==> exists i :: 0 <= i < |q| && q[i] > 0
  {
    if q != [] {
      assert AllNonNegative(q[1..]) by {
        forall i | 0 <= i < |q[1..]| ensures q[1..][i] >= 0 {
          assert q[1..][i] == q[i + 1];
        }
      }
      SumPositiveIffSomeRow(q[1..]);
      if Sum(q[1..]) > 0 {
        var j :| 0 <= j < |q[1..]| && q[1..][j] > 0;
        assert q[j + 1] > 0;
      }
      if exists i :: 0 <= i < |q| && q[i] > 0 {
        var i :| 0 <= i < |q| && q[i] > 0;
        if i > 0 {
          assert q[1..][i - 1] > 0;
        }
      }
    }
  }

  /** Changing one row changes the total by exactly that row's difference. */
  lemma {:induction false} SumUpdate(q: seq<int>, i: nat, v: int)
    requires i < |q|
    ensures Sum(q[i := v]) == Sum(q) - q[i] + v
  {
    if i > 0 {
      assert q[i := v][1..] == q[1..][i - 1 := v];
      SumUpdate(q[1..], i - 1, v);
    } else {
      assert q[i := v][1..] == q[1..];
    }
  }

  /** A plus press always adds exactly one: there is no upper bound. */
  lemma PlusAddsOne(current: int)
    requires current >= 0
    ensures Bump(current, 1) == current + 1
  {
  }

  /** A minus press at zero would keep the row at zero (the control is disabled there anyway). */
  lemma MinusAtZeroStaysZero()
    ensures Bump(0, -1) == 0
  {
  }

  class TicketSelector {
    var quantities: seq<int>

    ghost predicate Valid()
      reads this
    {
      AllNonNegative(quantities)
    }

    constructor ()
      ensures Valid() && quantities == [0, 0]
    {
      quantities := [0, 0];
    }

    function TotalQuantity(): int
      reads this
    {
      Sum(quantities)
    }

    /** `disabled={totalQuantity === 0}` on the action button, negated. */
    predicate ContinueEnabled()
      reads this
    {
      TotalQuantity() != 0
    }

    /** `disabled={quantities[i] === 0}` on a row's minus control, negated. */
    predicate MinusEnabled(i: nat)
      reads this
      requires i < |quantities|
    {
      quantities[i] != 0
    }

    /** The action button is enabled exactly when some row has a ticket. */
    lemma ContinueEnabledIffSomeRow()
      requires Valid()
      ensures ContinueEnabled() <==> TotalQuantity() > 0
      ensures ContinueEnabled() <==> exists i :: 0 <= i < |quantities| && quantities[i] > 0
    {
      SumPositiveIffSomeRow(quantities);
    }

    method UpdateQuantity(index: nat, change: int)
      requires Valid() && index < |quantities|
      modifies this
      ensures Valid()
      ensures |quantities| == |old(quantities)|
      ensures quantities[index] == Bump(old(quantities)[index], change)
      ensures forall j :: 0 <= j < |quantities| && j != index ==> quantities[j] == old(quantities)[j]
      ensures TotalQuantity() == old(TotalQuantity()) - old(quantities)[index] + quantities[index]
    {
      SumUpdate(quantities, index, Bump(quantities[index], change));
      quantities := quantities[index := Bump(quantities[index], change)];
    }

    /** A press on a row's minus control: a disabled control (at zero) does nothing; an enabled
        one takes exactly one ticket off that row. */
    method OnMinusPress(index: nat)
      requires Valid() && index < |quantities|
      modifies this
      ensures Valid()
      ensures !old(MinusEnabled(index)) ==> quantities == old(quantities)
      ensures old(MinusEnabled(index)) ==> quantities == old(quantities)[index := old(quantities)[index] - 1]
    {
      if MinusEnabled(index) {
        UpdateQuantity(index, -1);
      }
    }
  }
}
