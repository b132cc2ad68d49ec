/**
 * The booking form's phone field: on every input the value is reduced to its
 * digits, cut to ten, and laid out as (ddd) ddd-dddd or a partial form of it.
 */
module PhoneFormat {

  const MaxDigits: nat := 10

  /** JavaScript's \d: an ASCII digit. */
  predicate IsDigit(c: char) {
    '0' <= c <= '9'
  }

  predicate AllDigits(s: string) {
    forall k :: 0 <= k < |s| ==> IsDigit(s[k])
  }

  /** `replace(/\D/g, '')`: the digits of `s`, in order. */
  function DigitsOf(s: string): (d: string)
    ensures AllDigits(d)
    ensures |d| <= |s|
  {
    if |s| == 0 then "" else (if IsDigit(s[0]) then [s[0]] else "") + DigitsOf(s[1..])
  }

  /** The digits kept are exactly the digits that occur in `s`. */
  lemma {:induction false} DigitsOfMembers(s: string, c: char)
    ensures c in DigitsOf(s) <==> c in s && IsDigit(c)
  {
    if |s| > 0 {
      DigitsOfMembers(s[1..], c);
      assert c in s <==> c == s[0] || c in s[1..];
    }
  }

  /** The digits the field keeps: at most the first ten. */
  function KeptDigits(raw: string): (d: string)
    ensures |d| <= MaxDigits
    ensures d <= DigitsOf(raw)
    ensures |DigitsOf(raw)| <= MaxDigits ==> d == DigitsOf(raw)
    ensures |d| == if |DigitsOf(raw)| > MaxDigits then MaxDigits else |DigitsOf(raw)|
  {
    var all := DigitsOf(raw);
    if |all| > MaxDigits then all[..MaxDigits] else all
  }

  /** The layout for a string of at most ten digits. */
  function Layout(d: string): string {
    if |d| >= 6 then "(" + d[..3] + ") " + d[3..6] + "-" + d[6..]
    else if |d| >= 3 then "(" + d[..3] + ") " + d[3..]
    else d
  }

  /** The field's value after one input event. */
  function FormatPhone(raw: string): string {
    Layout(KeptDigits(raw))
  }

  /** The input handler: strip, truncate, format, in that order, on one local value. */
  method FormatPhoneInput(raw: string) returns (value: string)
    ensures value == FormatPhone(raw)
    ensures var d := KeptDigits(raw);
      && (|d| < 3 ==> value == d)
      && (3 <= |d| < 6 ==> value == "(" + d[..3] + ") " + d[3..])
      && (6 <= |d| ==> value == "(" + d[..3] + ") " + d[3..6] + "-" + d[6..])
  {
    value := DigitsOf(raw);
    if |value| > 10 {
      value := value[..10];
    }
    if |value| >= 6 {
      value := "(" + value[..3] + ") " + value[3..6] + "-" + value[6..];
    } else if |value| >= 3 {
      value := "(" + value[..3] + ") " + value[3..];
    }
  }

  lemma {:induction false} DigitsOfAppend(a: string, b: string)
    ensures DigitsOf(a + b) == DigitsOf(a) + DigitsOf(b)
  {
    if |a| > 0 {
      var head: string := if IsDigit(a[0]) then [a[0]] else "";
      assert (a + b)[0] == a[0] && (a + b)[1..] == a[1..] + b;
      assert DigitsOf(a + b) == head + DigitsOf(a[1..] + b);
      DigitsOfAppend(a[1..], b);
      assert DigitsOf(a) == head + DigitsOf(a[1..]);
    } else {
      assert a + b == b;
    }
  }

  lemma {:induction false} DigitsOfDigits(d: string)
    requires AllDigits(d)
    ensures DigitsOf(d) == d
  {
    if |d| > 0 {
      DigitsOfDigits(d[1..]);
    }
  }

  /** The `(ddd) ` prefix contributes exactly its three digits. */
  lemma AreaCodeDigits(x: string)
    requires AllDigits(x)
    ensures DigitsOf("(" + x + ") ") == x
  {
    DigitsOfAppend("(" + x, ") ");
    DigitsOfAppend("(", x);
    DigitsOfDigits(x);
    assert DigitsOf(") ") == "" && DigitsOf("(") == "";
  }

  lemma LongLayoutDigits(d: string)
    requires AllDigits(d) && |d| >= 6
    ensures DigitsOf(Layout(d)) == d
  {
    var head := "(" + d[..3] + ") ";
    assert Layout(d) == head + d[3..6] + "-" + d[6..];
    AreaCodeDigits(d[..3]);
    DigitsOfAppend(head + d[3..6] + "-", d[6..]);
    DigitsOfAppend(head + d[3..6], "-");
    DigitsOfAppend(head, d[3..6]);
    DigitsOfDigits(d[3..6]);
    DigitsOfDigits(d[6..]);
    assert DigitsOf("-") == "";
    assert d[..3] + d[3..6] + d[6..] == d;
  }

  lemma MiddleLayoutDigits(d: string)
    requires AllDigits(d) && 3 <= |d| < 6
    ensures DigitsOf(Layout(d)) == d
  {
    var head := "(" + d[..3] + ") ";
    assert Layout(d) == head + d[3..];
    AreaCodeDigits(d[..3]);
    DigitsOfAppend(head, d[3..]);
    DigitsOfDigits(d[3..]);
    assert d[..3] + d[3..] == d;
  }

  /** Stripping the non-digits from the output gives back exactly the kept digits. */
  lemma RoundTrip(raw: string)
    ensures DigitsOf(FormatPhone(raw)) == KeptDigits(raw)
  {
    var d := KeptDigits(raw);
    if |d| >= 6 {
      LongLayoutDigits(d);
    } else if |d| >= 3 {
      MiddleLayoutDigits(d);
    } else {
      DigitsOfDigits(d);
    }
  }

  /** Formatting an already formatted value changes nothing. */
  lemma Idempotent(raw: string)
    ensures FormatPhone(FormatPhone(raw)) == FormatPhone(raw)
  {
    RoundTrip(raw);
  }

  /** The output is at most `(ddd) ddd-dddd`, fourteen characters. */
  lemma LengthBound(raw: string)
    ensures |FormatPhone(raw)| <= 14
  {
  }

  /** Every digit of the output occurs in the input; the output's digits are a prefix of the input's. */
  lemma NoNewDigits(raw: string)
    ensures DigitsOf(FormatPhone(raw)) <= DigitsOf(raw)
    ensures forall c :: c in FormatPhone(raw) && IsDigit(c) ==> c in raw
  {
    RoundTrip(raw);
    var d := KeptDigits(raw);
    forall c | c in FormatPhone(raw) && IsDigit(c) ensures c in raw {
      DigitsOfMembers(FormatPhone(raw), c);
      assert c in d;
      DigitsOfMembers(raw, c);
    }
  }
}
