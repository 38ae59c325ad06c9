/** `formatPhoneNumber`: the live re-rendering of the phone field as the user types.
    Every non-digit is dropped, then at most ten digits are laid out as a North
    American number, `(ddd) ddd-dddd`, as far as the digits go. */
module PhoneFormat {
  import opened Text

  predicate AllDigits(s: string) {
    forall k | 0 <= k < |s| :: IsDigit(s[k])
  }

  /** `value.replace(/\D/g, '')`: the digits of `s`, in order. */
  function Digits(s: string): (d: string)
    ensures AllDigits(d)
    ensures |d| <= |s|
  {
    if s == [] then []
    else (if IsDigit(s[0]) then [s[0]] else []) + Digits(s[1..])
  }

  function Min(a: int, b: int): int {
    if a < b then a else b
  }

  /** The layout of a digit string: nothing, `(d..`, `(ddd) d..` or `(ddd) ddd-d..`,
      with `slice(6, 10)` dropping every digit after the tenth. */
  function Layout(d: string): (r: string)
    ensures d == [] <==> r == []
    ensures r != [] ==> r[0] == '('
    ensures |r| <= 14
  {
    if |d| == 0 then []
    else if |d| <= 3 then "(" + d
    else if |d| <= 6 then "(" + d[..3] + ") " + d[3..]
    else "(" + d[..3] + ") " + d[3..6] + "-" + d[6..Min(10, |d|)]
  }

  /** The new value of the phone field: empty exactly when no digit was typed, and
      never longer than `(ddd) ddd-dddd`. */
  function Format(s: string): (r: string)
    ensures r == [] <==> Digits(s) == []
    ensures |r| <= 14
  {
    Layout(Digits(s))
  }

  /** Taking digits distributes over concatenation. */
  lemma {:induction false} DigitsAppend(a: string, b: string)
    ensures Digits(a + b) == Digits(a) + Digits(b)
  {
    if a == [] {
      assert a + b == b;
    } else {
      assert (a + b)[1..] == a[1..] + b;
      DigitsAppend(a[1..], b);
    }
  }

  /** Nothing is left exactly when no character is a digit: every non-digit is
      removed and every digit kept. */
  lemma {:induction false} DigitsNoneIff(s: string)
    ensures Digits(s) == [] <==> forall k | 0 <= k < |s| :: !IsDigit(s[k])
  {
    if s != [] {
      DigitsNoneIff(s[1..]);
      assert forall k | 1 <= k < |s| :: s[k] == s[1..][k - 1];
    }
  }

  /** A string of digits is its own digit string. */
  lemma {:induction false} DigitsOfDigits(d: string)
    requires AllDigits(d)
    ensures Digits(d) == d
  {
    if d != [] {
      DigitsOfDigits(d[1..]);
    }
  }

  lemma DigitsOfSeparators()
    ensures Digits("(") == [] && Digits(") ") == [] && Digits("-") == []
  {
    assert Digits(") ") == Digits(" ");
  }

  /** A separator followed by digits contributes only those digits. */
  lemma DigitsAfterSeparator(prefix: string, sep: string, d: string)
    requires Digits(sep) == [] && AllDigits(d)
    ensures Digits(prefix + sep + d) == Digits(prefix) + d
  {
    DigitsAppend(prefix + sep, d);
    DigitsAppend(prefix, sep);
    DigitsOfDigits(d);
  }

  lemma LayoutDigitsMedium(d: string)
    requires AllDigits(d) && 3 < |d| <= 6
    ensures Digits(Layout(d)) == d
  {
    DigitsOfSeparators();
    DigitsAfterSeparator([], "(", d[..3]);
    assert [] + "(" + d[..3] == "(" + d[..3];
    DigitsAfterSeparator("(" + d[..3], ") ", d[3..]);
    assert d[..3] + d[3..] == d;
  }

  lemma LayoutDigitsLong(d: string)
    requires AllDigits(d) && 6 < |d|
    ensures Digits(Layout(d)) == d[..Min(10, |d|)]
  {
    var e := Min(10, |d|);
    DigitsOfSeparators();
    DigitsAfterSeparator([], "(", d[..3]);
    assert [] + "(" + d[..3] == "(" + d[..3];
    DigitsAfterSeparator("(" + d[..3], ") ", d[3..6]);
    DigitsAfterSeparator("(" + d[..3] + ") " + d[3..6], "-", d[6..e]);
    assert d[..3] + d[3..6] + d[6..e] == d[..e];
  }

  /** The digits of the formatted value are the first ten digits typed, in order:
      formatting never invents, reorders or changes a digit. */
  lemma FormatKeepsDigits(s: string)
    ensures Digits(Format(s)) == Digits(s)[..Min(10, |Digits(s)|)]
  {
    var d := Digits(s);
    if |d| == 0 {
    } else if |d| <= 3 {
      DigitsOfSeparators();
      DigitsAfterSeparator([], "(", d);
      assert [] + "(" + d == "(" + d;
    } else if |d| <= 6 {
      LayoutDigitsMedium(d);
    } else {
      LayoutDigitsLong(d);
    }
  }

  /** The layout looks only at the first ten digits. */
  lemma LayoutFirstTen(d: string)
    ensures Layout(d[..Min(10, |d|)]) == Layout(d)
  {
    var t := d[..Min(10, |d|)];
    if |d| > 6 {
      assert t[..3] == d[..3] && t[3..6] == d[3..6];
      assert t[6..Min(10, |t|)] == d[6..Min(10, |d|)];
    } else {
      assert t == d;
    }
  }

  /** Formatting an already formatted value changes nothing, so the handler can run
      on every input event. */
  lemma FormatIdempotent(s: string)
    ensures Format(Format(s)) == Format(s)
  {
    FormatKeepsDigits(s);
    LayoutFirstTen(Digits(s));
  }

  /** The formatted value is empty exactly when no digit was typed; otherwise it opens
      with a parenthesis and holds at most ten digits. */
  lemma FormatShape(s: string)
    ensures Format(s) == [] <==> Digits(s) == []
    ensures Format(s) != [] ==> Format(s)[0] == '('
    ensures |Digits(Format(s))| <= 10
  {
    FormatKeepsDigits(s);
  }

  /** Every character of a layout is a digit, a parenthesis, a space or a hyphen. */
  lemma LayoutCharacters(d: string, k: int)
    requires AllDigits(d) && 0 <= k < |Layout(d)|
    ensures var c := Layout(d)[k]; IsDigit(c) || c == '(' || c == ')' || c == ' ' || c == '-'
  {
  }

  /** A full ten-digit number. */
  lemma FormatFullNumber()
    ensures Format("5551234567") == "(555) 123-4567"
  {
    var d := "5551234567";
    assert Layout(d) == "(555) 123-4567" by {
      assert d[..3] == "555" && d[3..6] == "123" && d[6..10] == "4567";
    }
    DigitsOfDigits(d);
  }

  /** An area code alone. */
  lemma FormatAreaCode()
    ensures Format("555") == "(555"
  {
    DigitsOfDigits("555");
  }

  /** Letters are dropped before the layout. */
  lemma FormatDropsLetters()
    ensures Format("abc123") == "(123"
  {
    DigitsNoneIff("abc");
    DigitsOfDigits("123");
    DigitsAppend("abc", "123");
    assert "abc" + "123" == "abc123";
    assert Digits("abc123") == "123";
  }

  /** Digits past the tenth are dropped. */
  lemma FormatDropsExtraDigits()
    ensures Format("55512345678888") == "(555) 123-4567"
  {
    var d := "55512345678888";
    assert Layout(d) == "(555) 123-4567" by {
      assert d[..3] == "555" && d[3..6] == "123" && d[6..10] == "4567";
    }
    DigitsOfDigits(d);
  }
}
