/** Failure-compatible wrappers and the error values the collaborators of the core can report. */
module Common {

  datatype Option<+T> = None | Some(value: T)

  /** What a Node-style callback receives: an error, or a value. */
  datatype Result<+T> = Ok(value: T) | Err(error: Error)

  /** Errors raised by the database, by Stripe, or by the JavaScript runtime itself. */
  datatype Error =
    | DbError(message: string)                    // any failure the pool or the server reports
    | UniqueViolation(table: string, key: string) // an insert whose key the table already holds
    | StripeError(message: string)                // a failed call to the Stripe API
    | TypeError(message: string)                  // the runtime dereferenced undefined
    | ReferenceError(name: string)                // the runtime read an undeclared variable
}

/** Small string utilities: decimal numerals, joining, and character counts. */
module Strings {

  predicate IsDigit(c: char) {
    '0' <= c <= '9'
  }

  predicate AllDigits(s: string) {
    forall k :: 0 <= k < |s| ==> IsDigit(s[k])
  }

  function DigitChar(d: nat): (c: char)
    requires d < 10
    ensures IsDigit(c)
  {
    "0123456789"[d]
  }

  function DigitValue(c: char): nat {
    if IsDigit(c) then (c as int - '0' as int) as nat else 0
  }

  /** The decimal numeral JavaScript writes for a non-negative integer (`'' + n`). */
  function Decimal(n: nat): (s: string)
    ensures |s| >= 1 && AllDigits(s)
    ensures n >= 10 <==> |s| >= 2
  {
    if n < 10 then [DigitChar(n)] else Decimal(n / 10) + [DigitChar(n % 10)]
  }

  /** Reads a string of decimal digits back as a number. */
  function ParseDecimal(s: string): nat {
    if |s| == 0 then 0 else ParseDecimal(s[..|s| - 1]) * 10 + DigitValue(s[|s| - 1])
  }

  lemma DigitRoundTrip(d: nat)
    requires d < 10
    ensures DigitValue(DigitChar(d)) == d
  {
    assert "0123456789"[d] as int == '0' as int + d by {
      assert "0123456789"[0] == '0' && "0123456789"[1] == '1' && "0123456789"[2] == '2';
      assert "0123456789"[3] == '3' && "0123456789"[4] == '4' && "0123456789"[5] == '5';
      assert "0123456789"[6] == '6' && "0123456789"[7] == '7' && "0123456789"[8] == '8';
      assert "0123456789"[9] == '9';
    }
  }

  lemma {:induction false} DecimalRoundTrip(n: nat)
    ensures ParseDecimal(Decimal(n)) == n
    decreases n
  {
    var s := Decimal(n);
    if n < 10 {
      DigitRoundTrip(n);
      assert s[..|s| - 1] == [];
    } else {
      DecimalRoundTrip(n / 10);
      DigitRoundTrip(n % 10);
      assert s[..|s| - 1] == Decimal(n / 10);
    }
  }

  /** Distinct numbers have distinct numerals. */
  lemma DecimalInjective(m: nat, n: nat)
    requires m != n
    ensures Decimal(m) != Decimal(n)
  {
    DecimalRoundTrip(m);
    DecimalRoundTrip(n);
  }

  /** `xs.join(sep)` */
  function Join(xs: seq<string>, sep: string): string
    decreases |xs|
  {
    if |xs| == 0 then "" else if |xs| == 1 then xs[0] else xs[0] + sep + Join(xs[1..], sep)
  }

  /** How often `c` occurs in `s`. */
  function Count(s: string, c: char): nat
    decreases |s|
  {
    if |s| == 0 then 0 else (if s[0] == c then 1 else 0) + Count(s[1..], c)
  }

  lemma {:induction false} CountAppend(a: string, b: string, c: char)
    ensures Count(a + b, c) == Count(a, c) + Count(b, c)
    decreases |a|
  {
    if |a| > 0 {
      assert (a + b)[1..] == a[1..] + b;
      CountAppend(a[1..], b, c);
    } else {
      assert a + b == b;
    }
  }

  lemma {:induction false} CountAbsent(s: string, c: char)
    requires c !in s
    ensures Count(s, c) == 0
    decreases |s|
  {
    if |s| > 0 {
      CountAbsent(s[1..], c);
    }
  }

  /** How often `c` occurs in all of `xs` together. */
  function CountIn(xs: seq<string>, c: char): nat
    decreases |xs|
  {
    if |xs| == 0 then 0 else Count(xs[0], c) + CountIn(xs[1..], c)
  }

  /** A separator that does not contain `c` adds no `c` to a join. */
  lemma {:induction false} JoinCount(xs: seq<string>, sep: string, c: char)
    requires c !in sep
    ensures Count(Join(xs, sep), c) == CountIn(xs, c)
    decreases |xs|
  {
    if |xs| > 1 {
      JoinCount(xs[1..], sep, c);
      CountAbsent(sep, c);
      CountAppend(xs[0], sep, c);
      CountAppend(xs[0] + sep, Join(xs[1..], sep), c);
    } else if |xs| == 1 {
      assert CountIn(xs[1..], c) == 0;
    }
  }
}
