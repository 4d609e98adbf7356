/** The total sent to the payment service against the prices stored with the order, in
    exact arithmetic. */
module Amounts {
  import opened Tables
  import opened Reservations

  function LineTotal(price: real, amount: int): real {
    price * amount as real
  }

  function Gross(items: seq<Line>): real {
    if items == [] then 0.0
    else
      var last := items[|items| - 1];
      Gross(items[..|items| - 1]) + LineTotal(last.price, last.amount)
  }

  /** What `create` asks the payment service to authorize. */
  function Authorised(items: seq<Line>): real {
    Round2(Gross(items))
  }

  function StoredTotal(items: seq<Item>): real {
    if items == [] then 0.0
    else
      var last := items[|items| - 1];
      StoredTotal(items[..|items| - 1]) + LineTotal(last.price, last.amount)
  }

  function Units(items: seq<Line>): int {
    if items == [] then 0 else Units(items[..|items| - 1]) + items[|items| - 1].amount
  }

  /** The gross total is the sum of price times amount over the lines. */
  lemma {:induction false} GrossExactly(line: Line, items: seq<Line>, more: seq<Line>)
    ensures Gross([]) == 0.0 && Gross([line]) == line.price * line.amount as real
    ensures Gross(items + more) == Gross(items) + Gross(more)
  {
    assert [line][..0] == [];
    if more == [] {
      assert items + more == items;
    } else {
      var n := |more| - 1;
      GrossExactly(line, items, more[..n]);
      assert (items + more)[..|items| + n] == items + more[..n];
    }
  }

  /** The total that `create` sends: the loop over the lines, then the rounding to cents. */
  method TotalAmount(items: seq<Line>) returns (total: real)
    ensures total == Authorised(items)
    ensures Gross(items) - 0.005 < total <= Gross(items) + 0.005
    ensures (total * 100.0).Floor as real == total * 100.0
  {
    var sum, i := 0.0, 0;
    while i < |items|
      invariant 0 <= i <= |items|
      invariant sum == Gross(items[..i])
    {
      assert items[..i + 1] == items[..i] + [items[i]];
      GrossExactly(items[i], items[..i], [items[i]]);
      sum := sum + items[i].price * items[i].amount as real;
      i := i + 1;
    }
    assert items[..i] == items;
    total := (sum * 100.0 + 0.5).Floor as real / 100.0;
    RoundsUp(sum);
  }

  /** The nearest whole cents, and the higher ones of two that are equally near. */
  lemma RoundsUp(x: real)
    ensures x - 0.005 < Round2(x) <= x + 0.005
    ensures (Round2(x) * 100.0).Floor as real == Round2(x) * 100.0
  {
    var c := Cents(x);
    assert c as real <= x * 100.0 + 0.5 < c as real + 1.0;
    assert Round2(x) * 100.0 == c as real;
    assert (c as real).Floor == c;
  }

  predicate Within(x: real, y: real, tolerance: real) {
    -tolerance <= x - y <= tolerance
  }

  lemma Round2Within(x: real)
    ensures Within(Round2(x), x, 0.005)
  {
    var c := Cents(x) as real;
    assert c <= x * 100.0 + 0.5 < c + 1.0;
    assert Round2(x) * 100.0 == c;
  }

  lemma StoredPrefix(items: seq<Line>)
    requires items != []
    ensures StoredItems(items)[..|items| - 1] == StoredItems(items[..|items| - 1])
  {
  }

  lemma WithinAdd(x: real, y: real, m: int, x': real, y': real, n: int)
    requires Within(x, y, 0.005 * m as real) && Within(x', y', 0.005 * n as real)
    ensures Within(x + x', y + y', 0.005 * (m + n) as real)
  {
    assert (m + n) as real == m as real + n as real;
  }

  lemma {:induction false} GrossNearStored(items: seq<Line>)
    requires Positive(items)
    ensures Within(Gross(items), StoredTotal(StoredItems(items)), 0.005 * Units(items) as real)
  {
    if items != [] {
      var n := |items| - 1;
      var last, front := items[n], items[..n];
      assert forall i :: 0 <= i < n ==> front[i] == items[i];
      GrossNearStored(front);
      StoredPrefix(items);
      Round2Within(last.price);
      ScaledWithin(last.price, Round2(last.price), last.amount);
      WithinAdd(Gross(front), StoredTotal(StoredItems(front)), Units(front),
                LineTotal(last.price, last.amount), LineTotal(Round2(last.price), last.amount), last.amount);
    }
  }

  lemma ScaledWithin(x: real, y: real, n: int)
    requires Within(x, y, 0.005) && n >= 0
    ensures Within(LineTotal(x, n), LineTotal(y, n), 0.005 * n as real)
  {
    var k := n as real;
    assert x * k - y * k == (x - y) * k;
    ProductNonnegative(0.005 - (x - y), k);
    ProductNonnegative(0.005 + (x - y), k);
  }

  lemma ProductNonnegative(x: real, y: real)
    requires x >= 0.0 && y >= 0.0
    ensures x * y >= 0.0
  {
  }

  /** The authorised total is within half a cent per unit, and half a cent more, of the
      total the stored prices give. */
  lemma AmountBound(items: seq<Line>)
    requires Positive(items)
    ensures Within(Authorised(items), StoredTotal(StoredItems(items)), 0.005 * (1 + Units(items)) as real)
  {
    Round2Within(Gross(items));
    GrossNearStored(items);
    assert (1 + Units(items)) as real == 1.0 + Units(items) as real;
  }

  predicate TwoDecimals(x: real) {
    (x * 100.0).Floor as real == x * 100.0
  }

  lemma Round2Exact(x: real)
    ensures Round2(x) == x <==> TwoDecimals(x)
  {
    var whole := (x * 100.0).Floor;
    if TwoDecimals(x) {
      assert x * 100.0 == whole as real;
      assert Cents(x) == whole;
    }
    if Round2(x) == x {
      assert x * 100.0 == Cents(x) as real;
    }
  }

  /** An order's items are its lines, price and discount kept exactly when they have two
      decimals and moved by at most half a cent otherwise. */
  lemma StoredExactly(items: seq<Line>, i: nat)
    requires i < |items|
    ensures |StoredItems(items)| == |items|
    ensures var line, item := items[i], StoredItems(items)[i];
            && item.product == line.product && item.amount == line.amount
            && Within(item.price, line.price, 0.005) && (item.price == line.price <==> TwoDecimals(line.price))
            && Within(item.discount, line.discount, 0.005)
            && (item.discount == line.discount <==> TwoDecimals(line.discount))
  {
    Round2Within(items[i].price);
    Round2Exact(items[i].price);
    Round2Within(items[i].discount);
    Round2Exact(items[i].discount);
  }

  lemma WholeCents(x: real, cents: int)
    requires x * 100.0 == cents as real
    ensures TwoDecimals(x)
  {
  }

  lemma ScaledByHundred(x: real, k: real)
    ensures x * k * 100.0 == x * 100.0 * k
  {
  }

  lemma TwoDecimalsScaled(x: real, n: int)
    requires TwoDecimals(x)
    ensures TwoDecimals(LineTotal(x, n))
  {
    var cents := (x * 100.0).Floor;
    assert (cents * n) as real == cents as real * n as real;
    ScaledByHundred(x, n as real);
    assert x * n as real * 100.0 == cents as real * n as real;
    WholeCents(x * n as real, cents * n);
  }

  lemma TwoDecimalsSum(x: real, y: real)
    requires TwoDecimals(x) && TwoDecimals(y)
    ensures TwoDecimals(x + y)
  {
    WholeCents(x + y, (x * 100.0).Floor + (y * 100.0).Floor);
  }

  lemma {:induction false} GrossExact(items: seq<Line>)
    requires forall i :: 0 <= i < |items| ==> TwoDecimals(items[i].price)
    ensures TwoDecimals(Gross(items)) && Gross(items) == StoredTotal(StoredItems(items))
  {
    if items == [] {
      WholeCents(0.0, 0);
    } else {
      var n := |items| - 1;
      var last, front := items[n], items[..n];
      assert forall i :: 0 <= i < n ==> front[i] == items[i];
      GrossExact(front);
      StoredPrefix(items);
      Round2Exact(last.price);
      TwoDecimalsScaled(last.price, last.amount);
      TwoDecimalsSum(Gross(front), LineTotal(last.price, last.amount));
    }
  }

  /** With two-decimal prices the two totals are the same. */
  lemma AmountExact(items: seq<Line>)
    requires forall i :: 0 <= i < |items| ==> TwoDecimals(items[i].price)
    ensures Authorised(items) == StoredTotal(StoredItems(items))
  {
    GrossExact(items);
    Round2Exact(Gross(items));
  }

  /** Discounts enter neither total. */
  lemma {:induction false} DiscountIgnored(items: seq<Line>, others: seq<Line>)
    requires |items| == |others|
    requires forall i :: 0 <= i < |items| ==> others[i] == items[i].(discount := others[i].discount)
    ensures Authorised(items) == Authorised(others) && Gross(items) == Gross(others)
    ensures StoredTotal(StoredItems(items)) == StoredTotal(StoredItems(others))
  {
    if items != [] {
      StoredPrefix(items);
      StoredPrefix(others);
      DiscountIgnored(items[..|items| - 1], others[..|others| - 1]);
      var n := |items| - 1;
      assert others[n].price == items[n].price && others[n].amount == items[n].amount;
      assert StoredItems(items)[n] == Stored(items[n]) && StoredItems(others)[n] == Stored(others[n]);
      assert Gross(items) == Gross(items[..n]) + LineTotal(items[n].price, items[n].amount);
      assert Gross(others) == Gross(others[..n]) + LineTotal(items[n].price, items[n].amount);
    }
  }
}
