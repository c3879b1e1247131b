/**
 * `ValueObject` and `Money` (core/domain/value_objects.py). A value object is
 * equal to another when the other is an instance of its class and both carry
 * the same attribute dictionary. `Money` is an amount with a currency; `+` and
 * `-` refuse to mix currencies.
 */
module CoreValueObjects {
  import opened Prelude

  /** An object as `ValueObject.__eq__` sees it: its class, the classes that
      class derives from, and its `__dict__`. */
  datatype PyObject = PyObject(cls: string, bases: set<string>, attrs: map<string, Json>)

  predicate IsInstance(o: PyObject, cls: string)
  {
    o.cls == cls || cls in o.bases
  }

  /** `ValueObject.__eq__`. */
  function ValueEquals(self: PyObject, other: PyObject): (r: bool)
    ensures r ==> IsInstance(other, self.cls) && other.attrs == self.attrs
    ensures other == self ==> r
  {
    IsInstance(other, self.cls) && self.attrs == other.attrs
  }

  /** Objects of one class are equal exactly when their attributes are. */
  lemma SameClassEqualIffSameAttributes(a: PyObject, b: PyObject)
    requires a.cls == b.cls
    ensures ValueEquals(a, b) <==> a.attrs == b.attrs
    ensures ValueEquals(a, b) <==> ValueEquals(b, a)
  {
  }

  /** An object of an unrelated class is never equal, whatever its attributes. */
  lemma UnrelatedClassNeverEqual(a: PyObject, b: PyObject)
    requires b.cls != a.cls && a.cls !in b.bases
    ensures !ValueEquals(a, b)
  {
  }

  /** The `isinstance` test makes equality one-sided across a subclass: the base
      instance equals the subclass instance but not the other way round. */
  lemma SubclassEqualityIsOneSided(base: PyObject, sub: PyObject)
    requires base.cls in sub.bases && sub.cls != base.cls && sub.cls !in base.bases
    requires base.attrs == sub.attrs
    ensures ValueEquals(base, sub) && !ValueEquals(sub, base)
  {
  }

  const DefaultCurrency: string := "CNY"

  datatype Money = Money(amount: real, currency: string)

  datatype MoneyError = CurrencyMismatch(left: string, right: string)

  /** `Money(amount)` with the default currency. */
  function MoneyOf(amount: real): (m: Money)
    ensures m.currency == "CNY" && m.amount == amount
  {
    Money(amount, DefaultCurrency)
  }

  /** `Money.__add__`. */
  function Add(a: Money, b: Money): (r: Result<Money, MoneyError>)
    ensures r.Ok? <==> a.currency == b.currency
    ensures r.Ok? ==> r.value.currency == a.currency && r.value.amount == a.amount + b.amount
    ensures r.Err? ==> r.error == CurrencyMismatch(a.currency, b.currency)
  {
    if a.currency != b.currency then Err(CurrencyMismatch(a.currency, b.currency))
    else Ok(Money(a.amount + b.amount, a.currency))
  }

  /** `Money.__sub__`. */
  function Sub(a: Money, b: Money): (r: Result<Money, MoneyError>)
    ensures r.Ok? <==> a.currency == b.currency
    ensures r.Ok? ==> r.value.currency == a.currency && r.value.amount == a.amount - b.amount
    ensures r.Err? ==> r.error == CurrencyMismatch(a.currency, b.currency)
  {
    if a.currency != b.currency then Err(CurrencyMismatch(a.currency, b.currency))
    else Ok(Money(a.amount - b.amount, a.currency))
  }

  /** `Money.__mul__`: scales the amount and keeps the currency. */
  function Mul(a: Money, multiplier: real): (r: Money)
    ensures r.currency == a.currency && r.amount == a.amount * multiplier
  {
    Money(a.amount * multiplier, a.currency)
  }

  /** Subtracting what was added gives back the original amount. */
  lemma AddThenSubRoundTrip(a: Money, b: Money)
    requires a.currency == b.currency
    ensures Add(a, b).Ok? && Sub(Add(a, b).value, b) == Ok(a)
  {
  }

  /** Addition of one currency is commutative; mixing currencies fails both ways. */
  lemma AddCommutes(a: Money, b: Money)
    ensures Add(a, b).Ok? <==> Add(b, a).Ok?
    ensures Add(a, b).Ok? ==> Add(a, b) == Add(b, a)
  {
  }

  /** `Money.to_dict`; `amountText` is `str()` of the Decimal amount. */
  function MoneyToDict(m: Money, amountText: real -> string): (d: Json)
    ensures d.JObj? && d.fields.Keys == {"amount", "currency"}
    ensures d.fields["amount"] == JStr(amountText(m.amount))
    ensures d.fields["currency"] == JStr(m.currency)
  {
    JObj(map["amount" := JStr(amountText(m.amount)), "currency" := JStr(m.currency)])
  }
}
