/**
 * The three JavaScript string operations the control panel relies on:
 * `String.prototype.padStart`, `String.prototype.split` with a one-character
 * separator, and `parseInt(text, 10)`, whose NaN result is modelled as None.
 */
module JsStrings {
  import opened Wrappers

  /** `n` copies of the character `c`. */
  function Repeat(c: char, n: nat): (r: string)
    ensures |r| == n
    ensures forall i :: 0 <= i < n ==> r[i] == c
  {
    if n == 0 then [] else [c] + Repeat(c, n - 1)
  }

  // ---------------------------------------------------------------------------
  // padStart

  /**
   * `s.padStart(width, fill)` for a one-character fill: text already at least
   * `width` long is returned as it is; shorter text gets fill characters in front
   * until it is exactly `width` long.
   */
  function PadStart(s: string, width: nat, fill: char): (r: string)
    ensures |s| >= width ==> r == s
    ensures |r| == if |s| >= width then |s| else width
    ensures r[|r| - |s|..] == s
    ensures r[..|r| - |s|] == Repeat(fill, |r| - |s|)
  {
    if |s| >= width then s else Repeat(fill, width - |s|) + s
  }

  // ---------------------------------------------------------------------------
  // split

  /**
   * `s.split(sep)`: the maximal runs of text between separators, in order. There
   * is always at least one field, and no field contains the separator.
   */
  function Split(s: string, sep: char): (parts: seq<string>)
    ensures |parts| >= 1
    ensures NoneContains(parts, sep)
  {
    if s == [] then [[]]
    else
      var rest := Split(s[1..], sep);
      if s[0] == sep then [[]] + rest
      else [[s[0]] + rest[0]] + rest[1..]
  }

  predicate NoneContains(parts: seq<string>, sep: char)
  {
    forall i :: 0 <= i < |parts| ==> sep !in parts[i]
  }

  /** `parts.join(sep)`, the inverse of Split. */
  function Join(parts: seq<string>, sep: char): string
    requires |parts| >= 1
  {
    if |parts| == 1 then parts[0] else parts[0] + [sep] + Join(parts[1..], sep)
  }

  /** A prefix free of separators is glued onto the first field of what follows it. */
  lemma {:induction false} SplitPrefix(a: string, sep: char, rest: string)
    requires sep !in a
    ensures Split(a + rest, sep) == [a + Split(rest, sep)[0]] + Split(rest, sep)[1..]
  {
    if a == [] {
      assert a + rest == rest;
      assert a + Split(rest, sep)[0] == Split(rest, sep)[0];
      assert Split(rest, sep) == [Split(rest, sep)[0]] + Split(rest, sep)[1..];
    } else {
      SplitPrefix(a[1..], sep, rest);
      assert (a + rest)[1..] == a[1..] + rest;
      assert [a[0]] + (a[1..] + Split(rest, sep)[0]) == a + Split(rest, sep)[0];
    }
  }

  /** Joining the fields of a split gives back the text that was split. */
  lemma {:induction false} JoinSplit(s: string, sep: char)
    ensures Join(Split(s, sep), sep) == s
  {
    if s != [] {
      var rest := Split(s[1..], sep);
      JoinSplit(s[1..], sep);
      if s[0] == sep {
        assert ([[]] + rest)[1..] == rest;
        assert s == [sep] + s[1..];
      } else {
        var parts := [[s[0]] + rest[0]] + rest[1..];
        if |rest| == 1 {
          assert s == [s[0]] + s[1..];
        } else {
          assert parts[1..] == rest[1..];
          assert s == [s[0]] + s[1..];
          assert Join(rest, sep) == rest[0] + [sep] + Join(rest[1..], sep);
        }
      }
    }
  }

  /** Splitting joined separator-free fields gives back exactly those fields. */
  lemma {:induction false} SplitJoin(parts: seq<string>, sep: char)
    requires |parts| >= 1
    requires NoneContains(parts, sep)
    ensures Split(Join(parts, sep), sep) == parts
  {
    if |parts| == 1 {
      SplitPrefix(parts[0], sep, []);
      assert parts[0] + [] == parts[0];
    } else {
      var tail := Join(parts[1..], sep);
      SplitJoin(parts[1..], sep);
      SplitPrefix(parts[0], sep, [sep] + tail);
      assert Join(parts, sep) == parts[0] + ([sep] + tail);
      assert ([sep] + tail)[1..] == tail;
      assert Split([sep] + tail, sep) == [[]] + parts[1..];
      assert parts[0] + [] == parts[0];
      assert [parts[0]] + parts[1..] == parts;
    }
  }

  /** The field at `i` of a split, or None (JavaScript's `undefined`) past the end. */
  function FieldAt(parts: seq<string>, i: nat): Option<string>
  {
    if i < |parts| then Some(parts[i]) else None
  }

  // ---------------------------------------------------------------------------
  // parseInt(text, 10)

  predicate IsDigit(c: char)
  {
    '0' <= c <= '9'
  }

  predicate AllDigits(s: string)
  {
    forall i :: 0 <= i < |s| ==> IsDigit(s[i])
  }

  /** The characters `parseInt` skips at the front: white space and line terminators. */
  predicate IsJsWhiteSpace(c: char)
  {
    c == '\t' || c == '\n' || c == '\U{000B}' || c == '\U{000C}' || c == '\r' || c == ' '
    || c == '\U{00A0}' || c == '\U{1680}' || ('\U{2000}' <= c <= '\U{200A}')
    || c == '\U{2028}' || c == '\U{2029}' || c == '\U{202F}' || c == '\U{205F}'
    || c == '\U{3000}' || c == '\U{FEFF}'
  }

  predicate AllWhiteSpace(s: string)
  {
    forall i :: 0 <= i < |s| ==> IsJsWhiteSpace(s[i])
  }

  /** The text after its leading white space. */
  function TrimStart(s: string): string
  {
    if s != [] && IsJsWhiteSpace(s[0]) then TrimStart(s[1..]) else s
  }

  /** TrimStart drops exactly the white space at the front. */
  lemma {:induction false} TrimStartDropsLeadingWhiteSpace(s: string)
    ensures |TrimStart(s)| <= |s| && TrimStart(s) == s[|s| - |TrimStart(s)|..]
    ensures TrimStart(s) == [] || !IsJsWhiteSpace(TrimStart(s)[0])
    ensures AllWhiteSpace(s[..|s| - |TrimStart(s)|])
  {
    if s != [] && IsJsWhiteSpace(s[0]) {
      TrimStartDropsLeadingWhiteSpace(s[1..]);
      var r := TrimStart(s[1..]);
      assert s[1..][|s| - 1 - |r|..] == s[|s| - |r|..];
      var dropped := s[..|s| - |r|];
      assert forall i :: 1 <= i < |dropped| ==> dropped[i] == s[1..][..|s| - 1 - |r|][i - 1];
    }
  }

  /** The longest prefix made of decimal digits. */
  function DigitPrefix(s: string): string
  {
    if s != [] && IsDigit(s[0]) then [s[0]] + DigitPrefix(s[1..]) else []
  }

  /** DigitPrefix is the longest run of digits at the front. */
  lemma {:induction false} DigitPrefixIsLongestDigitRun(s: string)
    ensures |DigitPrefix(s)| <= |s| && DigitPrefix(s) == s[..|DigitPrefix(s)|]
    ensures AllDigits(DigitPrefix(s))
    ensures |DigitPrefix(s)| == |s| || !IsDigit(s[|DigitPrefix(s)|])
  {
    if s != [] && IsDigit(s[0]) {
      DigitPrefixIsLongestDigitRun(s[1..]);
      var r := DigitPrefix(s[1..]);
      assert s[..|r| + 1] == [s[0]] + s[1..][..|r|];
      assert s[|r| + 1..] == s[1..][|r|..];
    }
  }

  function DigitValue(c: char): nat
  {
    if IsDigit(c) then (c as int - '0' as int) as nat else 0
  }

  function DigitChar(d: nat): (c: char)
    requires d < 10
    ensures IsDigit(c) && DigitValue(c) == d
  {
    ('0' as int + d) as char
  }

  /** The number a string of decimal digits denotes, read from the left. */
  function DigitsValue(ds: string): nat
  {
    if ds == [] then 0 else DigitsValue(ds[..|ds| - 1]) * 10 + DigitValue(ds[|ds| - 1])
  }

  /**
   * `parseInt(s, 10)`: skip leading white space, read an optional sign, then the
   * longest run of decimal digits; NaN (None) when that run is empty. Whatever
   * follows the digits is ignored.
   */
  function ParseInt(s: string): Option<int>
  {
    var t := TrimStart(s);
    var negative := |t| > 0 && t[0] == '-';
    var unsigned := if |t| > 0 && (t[0] == '-' || t[0] == '+') then t[1..] else t;
    var ds := DigitPrefix(unsigned);
    if ds == [] then None
    else
      var v: int := DigitsValue(ds);
      Some(if negative then -v else v)
  }

  /** A sign followed by a digit, or a digit, at position `i`. */
  predicate SignedDigitAt(s: string, i: nat)
  {
    i < |s|
    && (IsDigit(s[i]) || ((s[i] == '-' || s[i] == '+') && i + 1 < |s| && IsDigit(s[i + 1])))
  }

  /**
   * The text parseInt reads a number from: white space, then a digit, possibly
   * after one sign. Whatever follows plays no part.
   */
  predicate StartsNumber(s: string)
  {
    exists i: nat :: i <= |s| && AllWhiteSpace(s[..i]) && SignedDigitAt(s, i)
  }

  /** Leading white space followed by a non-white-space character is dropped up to that character. */
  lemma {:induction false} TrimStartAfterWhiteSpace(w: string, rest: string)
    requires AllWhiteSpace(w)
    requires rest == [] || !IsJsWhiteSpace(rest[0])
    ensures TrimStart(w + rest) == rest
  {
    if w == [] {
      assert w + rest == rest;
    } else {
      assert (w + rest)[0] == w[0] && IsJsWhiteSpace(w[0]);
      assert (w + rest)[1..] == w[1..] + rest;
      assert AllWhiteSpace(w[1..]) by {
        forall i | 0 <= i < |w[1..]|
          ensures IsJsWhiteSpace(w[1..][i])
        {
          assert w[1..][i] == w[i + 1];
        }
      }
      TrimStartAfterWhiteSpace(w[1..], rest);
    }
  }

  /** parseInt is NaN exactly when the text does not start, after white space, with an optionally signed digit. */
  lemma ParseIntDefinedIff(s: string)
    ensures ParseInt(s).Some? <==> StartsNumber(s)
  {
    var t := TrimStart(s);
    TrimStartDropsLeadingWhiteSpace(s);
    var k := |s| - |t|;
    if ParseInt(s).Some? {
      assert t == s[k..];
      if t[0] == '-' || t[0] == '+' {
        assert DigitPrefix(t[1..]) != [];
        assert SignedDigitAt(s, k);
      } else {
        assert DigitPrefix(t) != [];
        assert SignedDigitAt(s, k);
      }
    }
    if StartsNumber(s) {
      var i: nat :| i <= |s| && AllWhiteSpace(s[..i]) && SignedDigitAt(s, i);
      assert !IsJsWhiteSpace(s[i]);
      assert s[..i] + s[i..] == s;
      TrimStartAfterWhiteSpace(s[..i], s[i..]);
      assert t == s[i..];
      if s[i] == '-' || s[i] == '+' {
        assert t[1..][0] == s[i + 1];
      }
    }
  }

  /** The decimal digits of a natural number, most significant first, without leading zeros. */
  function Decimal(n: nat): (r: string)
    ensures r != [] && AllDigits(r)
  {
    if n < 10 then [DigitChar(n)] else Decimal(n / 10) + [DigitChar(n % 10)]
  }

  /** A string of digits, with nothing else around it, parses to the number it denotes. */
  lemma ParseIntOfDigits(ds: string)
    requires ds != [] && AllDigits(ds)
    ensures ParseInt(ds) == Some(DigitsValue(ds))
  {
    assert !IsJsWhiteSpace(ds[0]) && ds[0] != '-' && ds[0] != '+';
    assert TrimStart(ds) == ds;
    DigitPrefixStops(ds, []);
    assert ds + [] == ds;
  }

  /** Reading back a number's decimal text gives the number. */
  lemma {:induction false} DigitsValueOfDecimal(n: nat)
    ensures DigitsValue(Decimal(n)) == n
  {
    if n >= 10 {
      var d := Decimal(n / 10);
      DigitsValueOfDecimal(n / 10);
      assert (d + [DigitChar(n % 10)])[..|d|] == d;
    }
  }

  /** parseInt reads back the decimal digits of every natural number. */
  lemma ParseIntOfDecimal(n: nat)
    ensures ParseInt(Decimal(n)) == Some(n)
  {
    ParseIntOfDigits(Decimal(n));
    DigitsValueOfDecimal(n);
  }

  /** A leading zero does not change the value of a digit string. */
  lemma {:induction false} LeadingZeroValue(ds: string)
    requires AllDigits(ds)
    ensures AllDigits(['0'] + ds) && DigitsValue(['0'] + ds) == DigitsValue(ds)
  {
    if ds != [] {
      var init := ds[..|ds| - 1];
      LeadingZeroValue(init);
      assert (['0'] + ds)[..|ds|] == ['0'] + init;
    }
  }

  /** Any number of leading zeros does not change the value of a digit string. */
  lemma {:induction false} LeadingZerosValue(k: nat, ds: string)
    requires AllDigits(ds)
    ensures AllDigits(Repeat('0', k) + ds) && DigitsValue(Repeat('0', k) + ds) == DigitsValue(ds)
  {
    if k == 0 {
      assert Repeat('0', k) + ds == ds;
    } else {
      LeadingZerosValue(k - 1, ds);
      LeadingZeroValue(Repeat('0', k - 1) + ds);
      assert Repeat('0', k) == ['0'] + Repeat('0', k - 1);
      assert Repeat('0', k) + ds == ['0'] + (Repeat('0', k - 1) + ds);
    }
  }

  /** Zero-padding a digit string, as the alarm fields do, keeps the number parseInt reads. */
  lemma ParseIntOfPadded(ds: string, width: nat)
    requires ds != [] && AllDigits(ds)
    ensures ParseInt(PadStart(ds, width, '0')) == ParseInt(ds)
  {
    ParseIntOfDigits(ds);
    if |ds| < width {
      var p := PadStart(ds, width, '0');
      LeadingZerosValue(width - |ds|, ds);
      assert p == Repeat('0', width - |ds|) + ds;
      ParseIntOfDigits(p);
    }
  }

  /** The digit run of digits followed by a non-digit is exactly those digits. */
  lemma {:induction false} DigitPrefixStops(ds: string, rest: string)
    requires AllDigits(ds)
    requires rest == [] || !IsDigit(rest[0])
    ensures DigitPrefix(ds + rest) == ds
  {
    if ds == [] {
      assert ds + rest == rest;
    } else {
      DigitPrefixStops(ds[1..], rest);
      assert (ds + rest)[1..] == ds[1..] + rest;
      assert [ds[0]] + ds[1..] == ds;
    }
  }

  /** parseInt stops at the first character that is not a digit. */
  lemma ParseIntStopsAtNonDigit(ds: string, rest: string)
    requires ds != [] && AllDigits(ds)
    requires rest == [] || !IsDigit(rest[0])
    ensures ParseInt(ds + rest) == Some(DigitsValue(ds))
  {
    var s := ds + rest;
    assert s[0] == ds[0];
    assert TrimStart(s) == s;
    DigitPrefixStops(ds, rest);
  }

  /**
   * parseInt skips leading white space, applies an optional sign, and reads the
   * digits up to the first non-digit.
   */
  lemma ParseIntOfSignedDigits(w: string, sign: string, ds: string, rest: string)
    requires AllWhiteSpace(w)
    requires sign == "" || sign == "-" || sign == "+"
    requires ds != [] && AllDigits(ds)
    requires rest == [] || !IsDigit(rest[0])
    ensures ParseInt(w + sign + ds + rest) == Some(if sign == "-" then -(DigitsValue(ds) as int) else DigitsValue(ds))
  {
    var u := sign + ds + rest;
    assert w + sign + ds + rest == w + u;
    assert u[0] == if sign == "" then ds[0] else sign[0];
    TrimStartAfterWhiteSpace(w, u);
    if sign != "" {
      assert u[1..] == ds + rest;
    } else {
      assert u == ds + rest;
    }
    DigitPrefixStops(ds, rest);
  }

  /** An empty field is NaN, and so is `undefined`, which parseInt reads as the text "undefined". */
  lemma ParseIntNaN()
    ensures ParseInt("") == None
    ensures ParseInt("undefined") == None
  {
    assert TrimStart("undefined") == "undefined";
    assert DigitPrefix("undefined") == [];
  }
}
