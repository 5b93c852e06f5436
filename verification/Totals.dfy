/** Invoice totals in 64-bit arithmetic: `create_invoice` computes every line
    amount and their sum in i64, with overflow checks in a debug build and
    wrap-around in a release build (no profile turns the checks on). */
module Totals {
  import opened Domain

  const TWO_63: int := 0x8000_0000_0000_0000
  const TWO_64: int := 0x1_0000_0000_0000_0000

  predicate InI64(x: int) {
    -TWO_63 <= x < TWO_63
  }

  /** Two's-complement wrap-around to 64 bits. */
  function Wrap(x: int): (r: int)
    ensures InI64(r)
  {
    (x + TWO_63) % TWO_64 - TWO_63
  }

  predicate Congruent(x: int, y: int) {
    (x - y) % TWO_64 == 0
  }

  /** What the validation loop accepts. */
  predicate ValidLine(item: LineItem) {
    item.quantity > 0 && item.unitAmountCents >= 0
  }

  predicate ValidLines(items: seq<LineItem>) {
    items != [] && forall i :: 0 <= i < |items| ==> ValidLine(items[i])
  }

  /** The money the customer owes, in unbounded arithmetic. */
  function ExactAmount(item: LineItem): int {
    item.quantity * item.unitAmountCents
  }

  function ExactTotal(items: seq<LineItem>): int {
    if items == [] then 0 else ExactTotal(items[..|items| - 1]) + ExactAmount(items[|items| - 1])
  }

  /** The amount stored with a line in a release build. */
  function LineAmount(item: LineItem): (r: int)
    ensures InI64(r)
  {
    Wrap(ExactAmount(item))
  }

  /** The total stored in a release build: the iterator sum, wrapping at each addition. */
  function WrappingTotal(items: seq<LineItem>): (r: int)
    ensures InI64(r)
  {
    if items == [] then 0 else Wrap(WrappingTotal(items[..|items| - 1]) + LineAmount(items[|items| - 1]))
  }

  /** The total in a debug build: None where an overflow check panics. */
  function CheckedTotal(items: seq<LineItem>): Option<int> {
    if items == [] then Some(0)
    else
      var before := CheckedTotal(items[..|items| - 1]);
      var amount := ExactAmount(items[|items| - 1]);
      if before.None? || !InI64(amount) || !InI64(before.value + amount) then None
      else Some(before.value + amount)
  }

  /** The sum of the amounts as they are stored with the lines, taken exactly. */
  function StoredLineSum(items: seq<LineItem>): int {
    if items == [] then 0 else StoredLineSum(items[..|items| - 1]) + LineAmount(items[|items| - 1])
  }

  /** Do the CHECK constraints accept the row and its lines? */
  predicate PassesChecks(items: seq<LineItem>) {
    WrappingTotal(items) >= 0 && forall i :: 0 <= i < |items| ==> LineAmount(items[i]) >= 0
  }

  lemma WrapKeepsI64(x: int)
    requires InI64(x)
    ensures Wrap(x) == x
  {
  }

  lemma WrapIsCongruent(x: int)
    ensures Congruent(Wrap(x), x)
  {
    var q := (x + TWO_63) / TWO_64;
    assert Wrap(x) - x == -q * TWO_64;
  }

  lemma CongruentInRangeIsEqual(x: int, y: int)
    requires InI64(x) && InI64(y) && Congruent(x, y)
    ensures x == y
  {
    var q := (x - y) / TWO_64;
    assert x - y == q * TWO_64;
  }

  lemma CongruentSum(a: int, b: int, c: int, d: int)
    requires Congruent(a, b) && Congruent(c, d)
    ensures Congruent(a + c, b + d)
  {
    var p, q := (a - b) / TWO_64, (c - d) / TWO_64;
    assert (a + c) - (b + d) == (p + q) * TWO_64;
  }

  lemma CongruentChain(a: int, b: int, c: int)
    requires Congruent(a, b) && Congruent(b, c)
    ensures Congruent(a, c) && Congruent(c, a)
  {
    var p, q := (a - b) / TWO_64, (b - c) / TWO_64;
    assert a - c == (p + q) * TWO_64;
    assert c - a == -(p + q) * TWO_64;
  }

  /** Wrapping at every addition gives the exact total modulo 2^64, and so does
      wrapping the sum of the stored line amounts once. */
  lemma {:induction false} TotalModulo(items: seq<LineItem>)
    ensures Congruent(WrappingTotal(items), ExactTotal(items))
    ensures Congruent(StoredLineSum(items), ExactTotal(items))
    ensures WrappingTotal(items) == Wrap(StoredLineSum(items)) == Wrap(ExactTotal(items))
  {
    if items == [] {
      assert Wrap(0) == 0;
    } else {
      var rest, item := items[..|items| - 1], items[|items| - 1];
      TotalModulo(rest);
      WrapIsCongruent(ExactAmount(item));
      var sum := WrappingTotal(rest) + LineAmount(item);
      WrapIsCongruent(sum);
      CongruentSum(WrappingTotal(rest), ExactTotal(rest), LineAmount(item), ExactAmount(item));
      CongruentSum(StoredLineSum(rest), ExactTotal(rest), LineAmount(item), ExactAmount(item));
      CongruentChain(WrappingTotal(items), sum, ExactTotal(items));
      SameWrap(WrappingTotal(items), StoredLineSum(items), ExactTotal(items));
    }
  }

  lemma SameWrap(total: int, stored: int, exact: int)
    requires InI64(total) && Congruent(total, exact) && Congruent(stored, exact)
    ensures total == Wrap(stored) == Wrap(exact)
  {
    WrapIsCongruent(exact);
    WrapIsCongruent(stored);
    CongruentChain(Wrap(stored), stored, exact);
    CongruentChain(Wrap(exact), exact, exact);
    CongruentChain(Wrap(stored), exact, Wrap(exact));
    CongruentInRangeIsEqual(Wrap(stored), Wrap(exact));
    CongruentChain(total, exact, Wrap(exact));
    CongruentInRangeIsEqual(total, Wrap(exact));
  }

  lemma ValidAmount(item: LineItem)
    requires ValidLine(item)
    ensures ExactAmount(item) >= 0
  {
  }

  lemma {:induction false} ExactTotalIsMonotone(items: seq<LineItem>)
    requires forall i :: 0 <= i < |items| ==> ValidLine(items[i])
    ensures ExactTotal(items) >= 0
    ensures items != [] ==> 0 <= ExactTotal(items[..|items| - 1]) <= ExactTotal(items)
    ensures forall i :: 0 <= i < |items| ==> 0 <= ExactAmount(items[i]) <= ExactTotal(items)
  {
    if items != [] {
      ExactTotalIsMonotone(items[..|items| - 1]);
      ValidAmount(items[|items| - 1]);
    }
  }

  /** For validated lines the debug build succeeds exactly when the true total
      fits, and then computes it. */
  lemma {:induction false} CheckedTotalIsExact(items: seq<LineItem>)
    requires forall i :: 0 <= i < |items| ==> ValidLine(items[i])
    ensures CheckedTotal(items) == if ExactTotal(items) < TWO_63 then Some(ExactTotal(items)) else None
  {
    ExactTotalIsMonotone(items);
    if items != [] {
      CheckedTotalIsExact(items[..|items| - 1]);
      assert ExactAmount(items[|items| - 1]) <= ExactTotal(items);
    }
  }

  /** The release build stores the true total exactly when it fits in an i64. */
  lemma WrappingTotalIsExactIff(items: seq<LineItem>)
    requires forall i :: 0 <= i < |items| ==> ValidLine(items[i])
    ensures WrappingTotal(items) == ExactTotal(items) <==> ExactTotal(items) < TWO_63
    ensures ExactTotal(items) < TWO_63 ==> PassesChecks(items)
  {
    ExactTotalIsMonotone(items);
    TotalModulo(items);
    if ExactTotal(items) < TWO_63 {
      WrapKeepsI64(ExactTotal(items));
      forall i | 0 <= i < |items| ensures LineAmount(items[i]) >= 0 {
        WrapKeepsI64(ExactAmount(items[i]));
      }
    }
  }

  /** The constraints do not catch every overflow: 2^32 units at 2^32 cents are
      accepted and stored as a total of 0. */
  lemma OverflowStoredAsZero()
    ensures var items := [LineItem(0x1_0000_0000, 0x1_0000_0000)];
            ValidLines(items) && PassesChecks(items) && WrappingTotal(items) == 0 && ExactTotal(items) == TWO_64
  {
    var item := LineItem(0x1_0000_0000, 0x1_0000_0000);
    var items := [item];
    assert items[..0] == [];
    assert ExactAmount(item) == TWO_64;
    assert LineAmount(item) == 0;
  }
}
