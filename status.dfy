/** `str(response.status)`: every endpoint picks its response table by comparing
    the decimal text of the HTTP status with "200" (and "400"). */
module Status {

  function DigitChar(d: nat): char
    requires d < 10
  {
    "0123456789"[d]
  }

  /** Decimal digits of a natural number, most significant first, no leading zero. */
  function Digits(n: nat): string
    decreases n
  {
    if n < 10 then [DigitChar(n)] else Digits(n / 10) + [DigitChar(n % 10)]
  }

  /** Python's `str` of an `int`. */
  function StatusText(n: int): string
  {
    if n < 0 then "-" + Digits(-n) else Digits(n)
  }

  /** Every digit string is non-empty and starts with a digit, never a sign. */
  lemma {:induction false} DigitsShape(n: nat)
    ensures |Digits(n)| >= 1
    ensures n >= 10 ==> |Digits(n)| >= 2
    ensures Digits(n)[0] != '-'
    decreases n
  {
    if n >= 10 {
      DigitsShape(n / 10);
    }
  }

  /** Different numbers have different digit strings. */
  lemma {:induction false} DigitsInjective(a: nat, b: nat)
    requires Digits(a) == Digits(b)
    ensures a == b
    decreases a
  {
    DigitsShape(a);
    DigitsShape(b);
    if a >= 10 && b >= 10 {
      var da, db := Digits(a), Digits(b);
      assert da[|da| - 1] == DigitChar(a % 10) && db[|db| - 1] == DigitChar(b % 10);
      assert da[..|da| - 1] == Digits(a / 10) && db[..|db| - 1] == Digits(b / 10);
      DigitsInjective(a / 10, b / 10);
    }
  }

  /** `str` is injective on integers, so comparing the text with "200" or "400" is
      comparing the status with 200 or 400. */
  lemma {:induction false} StatusTextInjective(a: int, b: int)
    requires StatusText(a) == StatusText(b)
    ensures a == b
  {
    DigitsShape(if a < 0 then -a else a);
    DigitsShape(if b < 0 then -b else b);
    if a < 0 && b < 0 {
      assert Digits(-a) == StatusText(a)[1..] && Digits(-b) == StatusText(b)[1..];
      DigitsInjective(-a, -b);
    } else if a >= 0 && b >= 0 {
      DigitsInjective(a, b);
    }
  }

  /** The two texts the endpoints test for. */
  lemma StatusTexts()
    ensures StatusText(200) == "200"
    ensures StatusText(400) == "400"
  {
    assert Digits(200) == Digits(20) + ['0'] == Digits(2) + ['0'] + ['0'];
    assert Digits(400) == Digits(40) + ['0'] == Digits(4) + ['0'] + ['0'];
  }

  /** `str(status) == "200"` holds exactly for status 200, likewise for 400. */
  lemma StatusIs(n: int)
    ensures StatusText(n) == "200" <==> n == 200
    ensures StatusText(n) == "400" <==> n == 400
  {
    StatusTexts();
    if StatusText(n) == "200" {
      StatusTextInjective(n, 200);
    }
    if StatusText(n) == "400" {
      StatusTextInjective(n, 400);
    }
  }
}
