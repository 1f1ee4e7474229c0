/** Values shared by the whole model: identifiers, clock readings, money, optional columns. */
module Types {

  /** A nullable column, or a result that may be absent. */
  datatype Option<+T> = None | Some(value: T)

  /** A UUID. Only equality of identifiers matters anywhere in the system. */
  type Id = nat

  /** A clock reading, in whatever unit the clocks tick. */
  type Time = int

  const TWO_63: int := 0x8000_0000_0000_0000
  const TWO_64: int := 0x1_0000_0000_0000_0000

  /** Go's `int64`. */
  type Int64 = n: int | -TWO_63 <= n < TWO_63

  /** The value a Go `int64` holds after an addition whose exact result is `n`. */
  function Wrap64(n: int): (w: Int64)
    ensures -TWO_63 <= n < TWO_63 ==> w == n
    ensures (w - n) % TWO_64 == 0
  {
    (n + TWO_63) % TWO_64 - TWO_63
  }

  /** An amount in the smallest unit of a currency. */
  datatype Money = Money(cents: Int64, currency: string)

  /** `Money.Add`: fails on a currency mismatch, otherwise adds as `int64` does. */
  function AddMoney(a: Money, b: Money): (sum: Option<Money>)
    ensures sum.Some? <==> a.currency == b.currency
    ensures sum.Some? ==> sum.value.currency == a.currency
    ensures sum.Some? && -TWO_63 <= a.cents + b.cents < TWO_63 ==> sum.value.cents == a.cents + b.cents
  {
    if a.currency != b.currency then None
    else Some(Money(Wrap64(a.cents + b.cents), a.currency))
  }

  /** Wrapping as one goes is wrapping at the end. */
  lemma WrapAdds(a: int, b: int)
    ensures Wrap64(Wrap64(a) + b) == Wrap64(a + b)
  {
    var k := (Wrap64(a) - a) / TWO_64;
    assert Wrap64(a) + b == a + b + k * TWO_64;
  }
}
