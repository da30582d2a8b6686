/**
 * OrderItem: an immutable line of an order. Its constructor validates the
 * product id, the quantity and the unit price, in that order, and caches
 * the line total. Amounts are exact decimals at a fixed scale of two
 * digits, held as their unscaled value (a number of cents).
 */
module OrderItems {
  import opened Wrappers

  /** Java's `int`. */
  type Int32 = x: int | -0x8000_0000 <= x < 0x8000_0000

  /** Java's wrap-around of an exact result to `int`. */
  function Wrap32(x: int): (r: Int32)
    ensures (r - x) % 0x1_0000_0000 == 0
  {
    (x + 0x8000_0000) % 0x1_0000_0000 - 0x8000_0000
  }

  /** An exact decimal amount at scale 2, held as its unscaled value. */
  type Amount = int

  const AmountScale: nat := 2

  /** Which validation of the constructor threw IllegalArgumentException. */
  datatype ItemError = BlankProductId | NonPositiveQuantity | NonPositivePrice

  datatype OrderItem = OrderItem(productId: string, quantity: Int32, pricePerUnit: Amount, totalPrice: Amount)

  /**
   * `s.trim().isEmpty()`: trim drops every character up to U+0020 from both
   * ends, so the result is empty exactly when every character is one of those.
   */
  predicate IsBlank(s: string) {
    s == [] || (s[0] <= ' ' && IsBlank(s[1..]))
  }

  /** What every constructed item satisfies. */
  predicate ValidItem(it: OrderItem) {
    && !IsBlank(it.productId)
    && it.quantity > 0
    && it.pricePerUnit > 0
    && it.totalPrice == it.pricePerUnit * it.quantity
  }

  /** An item the constructor can produce: Java has no other OrderItem objects. */
  type Item = it: OrderItem | ValidItem(it) witness OrderItem("A", 1, 1, 1)

  /**
   * The constructor. A null product id or price is None. The first failing
   * check, in the order product id, quantity, price, decides the error.
   */
  function NewOrderItem(productId: Option<string>, quantity: Int32, pricePerUnit: Option<Amount>): (r: Result<OrderItem, ItemError>)
    ensures r == Failure(BlankProductId) <==> productId.None? || IsBlank(productId.value)
    ensures r == Failure(NonPositiveQuantity) <==>
              productId.Some? && !IsBlank(productId.value) && quantity <= 0
    ensures r == Failure(NonPositivePrice) <==>
              productId.Some? && !IsBlank(productId.value) && quantity > 0 && (pricePerUnit.None? || pricePerUnit.value <= 0)
    ensures r.Success? ==>
              && ValidItem(r.value)
              && productId == Some(r.value.productId)
              && r.value.quantity == quantity
              && pricePerUnit == Some(r.value.pricePerUnit)
  {
    if productId.None? || IsBlank(productId.value) then
      Failure(BlankProductId)
    else if quantity <= 0 then
      Failure(NonPositiveQuantity)
    else if pricePerUnit.None? || pricePerUnit.value <= 0 then
      Failure(NonPositivePrice)
    else
      Success(OrderItem(productId.value, quantity, pricePerUnit.value, pricePerUnit.value * quantity))
  }

  /** Every constructed item has a positive line total. */
  lemma ItemTotalIsPositive(it: OrderItem)
    requires ValidItem(it)
    ensures it.totalPrice > 0 && it.totalPrice >= it.pricePerUnit
  {
    var q: int := it.quantity;
    assert it.pricePerUnit * q == it.pricePerUnit * (q - 1) + it.pricePerUnit;
    assert it.pricePerUnit * (q - 1) >= 0;
  }

  /** The example of the tests: 2 units at 10.00 give 20.00. */
  lemma TwoAtTenIsTwenty()
    ensures NewOrderItem(Some("TEST-1"), 2, Some(1000)) == Success(OrderItem("TEST-1", 2, 1000, 2000))
  {
    assert "TEST-1"[0] == 'T';
  }

  /** `equals`: product id, quantity and unit price; the cached total is not compared. */
  predicate ItemEquals(a: OrderItem, b: OrderItem) {
    a.productId == b.productId && a.quantity == b.quantity && a.pricePerUnit == b.pricePerUnit
  }

  lemma ItemEqualsIsEquivalence(a: OrderItem, b: OrderItem, c: OrderItem)
    ensures ItemEquals(a, a)
    ensures ItemEquals(a, b) ==> ItemEquals(b, a)
    ensures ItemEquals(a, b) && ItemEquals(b, c) ==> ItemEquals(a, c)
  {
  }

  /** Since the total is derived, two constructed items are equal exactly when they are the same value. */
  lemma EqualItemsAreIdentical(a: OrderItem, b: OrderItem)
    requires ValidItem(a) && ValidItem(b)
    ensures ItemEquals(a, b) <==> a == b
  {
  }

  /** String.hashCode: h = 31 * h + c over the characters, in `int` arithmetic. */
  function StringHash(s: string): Int32 {
    if s == [] then 0 else Wrap32(31 * StringHash(s[..|s| - 1]) + s[|s| - 1] as int)
  }

  /** BigInteger's hash of a magnitude: h = 31 * h + w over its 32-bit words, most significant first. */
  function MagnitudeHash(n: nat): Int32
    decreases n
  {
    if n == 0 then 0 else Wrap32(31 * MagnitudeHash(n / 0x1_0000_0000) + n % 0x1_0000_0000)
  }

  /** BigDecimal.hashCode: 31 times the hash of the unscaled value, plus the scale. */
  function AmountHash(v: Amount): Int32 {
    var h: int := MagnitudeHash(if v < 0 then -v else v);
    var signed := if v < 0 then -h else h;
    Wrap32(31 * signed + AmountScale)
  }

  /** `hashCode`: Objects.hash(productId, quantity, pricePerUnit). */
  function HashCode(it: OrderItem): Int32 {
    Wrap32(31 * Wrap32(31 * Wrap32(31 * 1 + StringHash(it.productId)) + it.quantity) + AmountHash(it.pricePerUnit))
  }

  /** Equal items have equal hash codes. */
  lemma HashCodeRespectsEquals(a: OrderItem, b: OrderItem)
    requires ItemEquals(a, b)
    ensures HashCode(a) == HashCode(b)
  {
  }
}
