/** The payment activities of the Python version (python/expirable_workflow/activities.py):
    two threshold checks and the transaction id. The sleeps and the logging are left out. */
module PythonPaymentActivities {
  import opened Strings

  /** An amount is valid when it is positive and below 10000. */
  function ValidatePayment(paymentId: string, amount: real): bool
  {
    amount > 0.0 && amount < 10000.0
  }

  /** The fraud check flags amounts above 5000 and returns true for an amount it does not flag. */
  function CheckFraud(paymentId: string, amount: real): bool
  {
    var isFraudulent := amount > 5000.0;
    !isFraudulent
  }

  /** Python's `int` of a real: the integer part, rounded toward zero. */
  function TruncateTowardZero(x: real): (r: int)
    ensures x >= 0.0 ==> 0 <= r && r as real <= x < r as real + 1.0
    ensures x < 0.0 ==> r <= 0 && r as real - 1.0 < x <= r as real
  {
    if x >= 0.0 then x.Floor else -((-x).Floor)
  }

  /** The amount in cents, as the transaction id renders it. */
  function Cents(amount: real): int
  {
    TruncateTowardZero(amount * 100.0)
  }

  /** "TXN-", the payment id, "-", and the amount in whole cents. */
  function AcceptPayment(paymentId: string, amount: real): string
  {
    "TXN-" + paymentId + "-" + IntToString(Cents(amount))
  }

  /** Only amounts in (0, 5000] pass both checks; amounts in (5000, 10000) are valid but
      flagged; nothing at or above 10000 and nothing at or below 0 validates. */
  lemma ChecksTogether(paymentId: string, amount: real)
    ensures ValidatePayment(paymentId, amount) && CheckFraud(paymentId, amount) <==> 0.0 < amount <= 5000.0
    ensures 5000.0 < amount < 10000.0 ==> ValidatePayment(paymentId, amount) && !CheckFraud(paymentId, amount)
    ensures amount <= 0.0 || amount >= 10000.0 ==> !ValidatePayment(paymentId, amount)
  {
  }

  /** The transaction id starts with "TXN-", the payment id and "-", and ends with the
      amount's cents in decimal; for a positive amount these are digits only. */
  lemma TransactionIdShape(paymentId: string, amount: real)
    ensures var t := AcceptPayment(paymentId, amount);
      && |t| > 5 + |paymentId|
      && t[..4] == "TXN-"
      && t[4..4 + |paymentId|] == paymentId
      && t[4 + |paymentId|] == '-'
      && t[5 + |paymentId|..] == IntToString(Cents(amount))
      && (amount >= 0.0 ==> IsDigits(t[5 + |paymentId|..]))
  {
    var t := AcceptPayment(paymentId, amount);
    assert t == "TXN-" + paymentId + "-" + IntToString(Cents(amount));
    assert 0.0 <= amount ==> 0.0 <= amount * 100.0;
  }

  /** For one payment id, two non-negative amounts that differ in whole cents give different
      transaction ids. */
  lemma TransactionIdDistinguishesCents(paymentId: string, a: real, b: real)
    requires a >= 0.0 && b >= 0.0
    requires AcceptPayment(paymentId, a) == AcceptPayment(paymentId, b)
    ensures Cents(a) == Cents(b)
  {
    TransactionIdShape(paymentId, a);
    TransactionIdShape(paymentId, b);
    var ta, tb := AcceptPayment(paymentId, a), AcceptPayment(paymentId, b);
    assert ta[5 + |paymentId|..] == tb[5 + |paymentId|..];
    NatToStringInjective(Cents(a), Cents(b));
  }
}

/** The payment activities of the Java version (PaymentActivitiesImpl.java). The threshold
    checks are the Python ones written again; the transaction id differs in how the amount
    is cast to an integer. */
module JavaPaymentActivities {
  import opened Strings
  import Py = PythonPaymentActivities

  const IntMin: int := -0x8000_0000
  const IntMax: int := 0x7fff_ffff

  function ValidatePayment(paymentId: string, amount: real): bool
  {
    amount > 0.0 && amount < 10000.0
  }

  function CheckFraud(paymentId: string, amount: real): bool
  {
    var isFraudulent := amount > 5000.0;
    !isFraudulent
  }

  /** Java's `(int)` of a double: rounded toward zero, and saturated at the bounds of a
      32-bit `int`. */
  function IntCast(x: real): (r: int)
    ensures IntMin <= r <= IntMax
  {
    var t := Py.TruncateTowardZero(x);
    if t > IntMax then IntMax else if t < IntMin then IntMin else t
  }

  /** Inside the range of `int` the cast is Python's truncation; beyond it, it saturates. */
  lemma IntCastTruncates(x: real)
    ensures IntMin as real < x < IntMax as real + 1.0 ==> IntCast(x) == Py.TruncateTowardZero(x)
    ensures x >= IntMax as real ==> IntCast(x) == IntMax
    ensures x <= IntMin as real ==> IntCast(x) == IntMin
  {
  }

  function AcceptPayment(paymentId: string, amount: real): string
  {
    "TXN-" + paymentId + "-" + IntToString(IntCast(amount * 100.0))
  }

  /** The two versions agree on both checks for every amount. */
  lemma ChecksAgree(paymentId: string, amount: real)
    ensures ValidatePayment(paymentId, amount) == Py.ValidatePayment(paymentId, amount)
    ensures CheckFraud(paymentId, amount) == Py.CheckFraud(paymentId, amount)
    ensures ValidatePayment(paymentId, amount) && CheckFraud(paymentId, amount) <==> 0.0 < amount <= 5000.0
  {
  }

  /** For every amount that validates, the Java transaction id is the Python one: the cast
      saturates only far beyond the valid amounts. */
  lemma TransactionIdsAgree(paymentId: string, amount: real)
    requires ValidatePayment(paymentId, amount)
    ensures AcceptPayment(paymentId, amount) == Py.AcceptPayment(paymentId, amount)
  {
    assert 0.0 < amount * 100.0 < 1000000.0;
    IntCastTruncates(amount * 100.0);
  }

  /** Beyond the valid amounts the versions part: from 21474836.48 on the Java cents saturate
      at 2147483647 while the Python ones keep growing. */
  lemma TransactionIdsDifferWhenSaturated(paymentId: string)
    ensures AcceptPayment(paymentId, 30000000.0) != Py.AcceptPayment(paymentId, 30000000.0)
  {
    var j, p := AcceptPayment(paymentId, 30000000.0), Py.AcceptPayment(paymentId, 30000000.0);
    IntCastTruncates(3000000000.0);
    assert IntCast(3000000000.0) == IntMax;
    assert Py.Cents(30000000.0) == 3000000000;
    if j == p {
      assert j[5 + |paymentId|..] == IntToString(IntMax);
      assert p[5 + |paymentId|..] == IntToString(3000000000);
      NatToStringInjective(IntMax, 3000000000);
    }
  }
}
