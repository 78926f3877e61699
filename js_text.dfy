/**
 * The JavaScript string built-ins the client's form code relies on, written out
 * so that their edge cases are part of the model: truthiness of optional strings
 * and the `||` fallback, `trim`, `split` on one character, `join`, `parseInt`
 * with no radix argument, and `Number.prototype.toString` on integers.
 */
module JsText {
  import opened Wrappers

  // ---------------------------------------------------------------------------
  // Truthiness and the `||` fallback

  /** JavaScript truthiness of an optional string: `null`, `undefined` and "" are falsy. */
  predicate Truthy(s: Option<string>) {
    s.Some? && s.value != ""
  }

  /**
   * `s || fallback`: the value itself when it is truthy, otherwise the
   * fallback; so the result is empty only when both are.
   */
  function Or(s: Option<string>, fallback: string): (r: string)
    ensures r == fallback || (Truthy(s) && r == s.value)
    ensures Truthy(s) ==> r == s.value
    ensures r == "" <==> !Truthy(s) && fallback == ""
  {
    if Truthy(s) then s.value else fallback
  }

  /**
   * `s || null`: a truthy value is kept, anything else becomes null, so the
   * result is never the empty string and has the same truthiness.
   */
  function OrNull(s: Option<string>): (r: Option<string>)
    ensures r == None || r == s
    ensures Truthy(r) <==> Truthy(s)
    ensures r != Some("")
  {
    if Truthy(s) then s else None
  }

  // ---------------------------------------------------------------------------
  // trim

  /** The characters `trim` and `parseInt` strip: ECMAScript WhiteSpace and LineTerminator. */
  predicate IsWhitespace(c: char) {
    c == '\t' || c == '\n' || c == '\U{000B}' || c == '\U{000C}' || c == '\r' || c == ' '
    || c == '\U{00A0}' || c == '\U{1680}' || ('\U{2000}' <= c <= '\U{200A}')
    || c == '\U{2028}' || c == '\U{2029}' || c == '\U{202F}' || c == '\U{205F}'
    || c == '\U{3000}' || c == '\U{FEFF}'
  }

  /** A string with no whitespace at either end: what `trim` leaves. */
  predicate IsTrimmed(s: string) {
    s == [] || (!IsWhitespace(s[0]) && !IsWhitespace(s[|s| - 1]))
  }

  /** Drops leading whitespace: the result is the suffix after a run of whitespace. */
  function TrimStart(s: string): (r: string)
    ensures |r| <= |s| && r == s[|s| - |r|..]
    ensures forall k :: 0 <= k < |s| - |r| ==> IsWhitespace(s[k])
    ensures r == [] || !IsWhitespace(r[0])
  {
    if s != [] && IsWhitespace(s[0]) then TrimStart(s[1..]) else s
  }

  /** Drops trailing whitespace: the result is the prefix before a run of whitespace. */
  function TrimEnd(s: string): (r: string)
    ensures |r| <= |s| && r == s[..|r|]
    ensures forall k :: |r| <= k < |s| ==> IsWhitespace(s[k])
    ensures r == [] || !IsWhitespace(r[|r| - 1])
  {
    if s != [] && IsWhitespace(s[|s| - 1]) then TrimEnd(s[..|s| - 1]) else s
  }

  /**
   * `s.trim()`: the infix of `s` left once the whitespace runs at both ends
   * are cut off; nothing else is removed, and no whitespace is left at an end.
   */
  function Trim(s: string): (r: string)
    ensures IsTrimmed(r)
    ensures |r| <= |s|
    ensures var i := |s| - |TrimStart(s)|;
            i + |r| <= |s| && r == s[i..i + |r|] &&
            (forall k :: 0 <= k < i ==> IsWhitespace(s[k])) &&
            (forall k :: i + |r| <= k < |s| ==> IsWhitespace(s[k]))
  {
    var t := TrimStart(s);
    var r := TrimEnd(t);
    PrefixOfSuffix(s, |s| - |t|, r);
    BlanksOfSuffix(s, |s| - |t|, |r|);
    r
  }

  /** A prefix of the suffix of `s` from `i` is the infix of `s` starting at `i`. */
  lemma PrefixOfSuffix(s: string, i: nat, r: string)
    requires i <= |s| && |r| <= |s| - i && r == s[i..][..|r|]
    ensures r == s[i..i + |r|]
  {
  }

  /** Blanks after position `n` of the suffix from `i` are blanks after position `i + n` of `s`. */
  lemma BlanksOfSuffix(s: string, i: nat, n: nat)
    requires i + n <= |s| && forall k :: n <= k < |s| - i ==> IsWhitespace(s[i..][k])
    ensures forall k :: i + n <= k < |s| ==> IsWhitespace(s[k])
  {
    forall k | i + n <= k < |s|
      ensures IsWhitespace(s[k])
    {
      assert s[k] == s[i..][k - i];
    }
  }

  /** `trim` leaves an already trimmed string alone, and strips one leading blank from it. */
  lemma TrimOfTrimmed(s: string)
    requires IsTrimmed(s)
    ensures Trim(s) == s
    ensures Trim(" " + s) == s
  {
    assert (" " + s)[1..] == s;
  }

  // ---------------------------------------------------------------------------
  // split and join

  /** Number of occurrences of `c` in `s`. */
  function Count(s: string, c: char): nat {
    if s == [] then 0 else (if s[0] == c then 1 else 0) + Count(s[1..], c)
  }

  /** `xs.join(sep)` */
  function Join(xs: seq<string>, sep: string): string {
    if xs == [] then ""
    else if |xs| == 1 then xs[0]
    else xs[0] + sep + Join(xs[1..], sep)
  }

  /**
   * `s.split(sep)` for a one-character separator: one piece more than there are
   * separators, no piece contains the separator, and joining the pieces back
   * with the separator gives `s` again.
   */
  function Split(s: string, sep: char): (r: seq<string>)
    ensures |r| == Count(s, sep) + 1
    ensures forall i :: 0 <= i < |r| ==> sep !in r[i]
    ensures Join(r, [sep]) == s
  {
    if s == [] then [""]
    else
      var rest := Split(s[1..], sep);
      if s[0] == sep then
        assert ([""] + rest)[1..] == rest;
        [""] + rest
      else
        var r := [[s[0]] + rest[0]] + rest[1..];
        assert r[1..] == rest[1..];
        assert |rest| > 1 ==> Join(rest, [sep]) == rest[0] + [sep] + Join(rest[1..], [sep]);
        assert [s[0]] + s[1..] == s;
        r
  }

  /** A string without the separator splits into itself alone. */
  lemma {:induction false} SplitWithoutSeparator(a: string, sep: char)
    requires sep !in a
    ensures Split(a, sep) == [a]
  {
    if a != [] {
      SplitWithoutSeparator(a[1..], sep);
      assert [a[0]] + a[1..] == a;
    }
  }

  /** Splitting `a + sep + b` where `a` has no separator yields `a` and then the pieces of `b`. */
  lemma {:induction false} SplitAfterFirstSeparator(a: string, b: string, sep: char)
    requires sep !in a
    ensures Split(a + [sep] + b, sep) == [a] + Split(b, sep)
  {
    if a == [] {
      assert (a + [sep] + b)[1..] == b;
    } else {
      assert (a + [sep] + b)[1..] == a[1..] + [sep] + b;
      SplitAfterFirstSeparator(a[1..], b, sep);
      assert [a[0]] + a[1..] == a;
    }
  }

  /** `split` undoes `join` when no piece contains the separator. */
  lemma {:induction false} SplitOfJoin(xs: seq<string>, sep: char)
    requires xs != []
    requires forall i :: 0 <= i < |xs| ==> sep !in xs[i]
    ensures Split(Join(xs, [sep]), sep) == xs
  {
    if |xs| == 1 {
      SplitWithoutSeparator(xs[0], sep);
    } else {
      SplitOfJoin(xs[1..], sep);
      SplitAfterFirstSeparator(xs[0], Join(xs[1..], [sep]), sep);
      assert [xs[0]] + xs[1..] == xs;
    }
  }

  /** Every piece after the first gets a leading blank: what `join(", ")` then `split(",")` produce. */
  function Blanked(xs: seq<string>): (r: seq<string>)
    ensures |r| == |xs|
    ensures forall i :: 0 <= i < |xs| ==> r[i] == " " + xs[i]
  {
    if xs == [] then [] else [" " + xs[0]] + Blanked(xs[1..])
  }

  /**
   * Splitting a `join(", ")` on "," gives the first piece and then every other
   * piece with a leading blank, when no piece contains a comma.
   */
  lemma {:induction false} SplitOfCommaBlankJoin(xs: seq<string>)
    requires xs != []
    requires forall i :: 0 <= i < |xs| ==> ',' !in xs[i]
    ensures Split(Join(xs, ", "), ',') == [xs[0]] + Blanked(xs[1..])
  {
    if |xs| == 1 {
      SplitWithoutSeparator(xs[0], ',');
    } else {
      var tail := Join(xs[1..], ", ");
      assert Join(xs, ", ") == xs[0] + [','] + (" " + tail);
      SplitAfterFirstSeparator(xs[0], " " + tail, ',');
      SplitOfCommaBlankJoin(xs[1..]);
      assert (" " + tail)[1..] == tail;
      assert xs[1..][1..] == xs[2..];
    }
  }

  /** `xs.map((s) => s.trim())` */
  function TrimEach(xs: seq<string>): seq<string> {
    seq(|xs|, i requires 0 <= i < |xs| => Trim(xs[i]))
  }

  /** Trimming the pieces of a `join(", ")` split on "," undoes the blanks the join put in. */
  lemma {:induction false} TrimEachOfCommaBlankSplit(xs: seq<string>)
    requires xs != []
    requires forall i :: 0 <= i < |xs| ==> ',' !in xs[i] && IsTrimmed(xs[i])
    ensures TrimEach(Split(Join(xs, ", "), ',')) == xs
  {
    SplitOfCommaBlankJoin(xs);
    var pieces := Split(Join(xs, ", "), ',');
    forall i | 0 <= i < |xs|
      ensures Trim(pieces[i]) == xs[i]
    {
      if i == 0 {
        TrimOfTrimmed(xs[0]);
      } else {
        assert pieces[i] == Blanked(xs[1..])[i - 1] == " " + xs[i];
        TrimOfTrimmed(xs[i]);
      }
    }
    TrimEachPointwise(pieces, xs);
  }

  /** `TrimEach` gives `ys` when each piece trims to the matching element of `ys`. */
  lemma TrimEachPointwise(pieces: seq<string>, ys: seq<string>)
    requires |pieces| == |ys| && forall i :: 0 <= i < |ys| ==> Trim(pieces[i]) == ys[i]
    ensures TrimEach(pieces) == ys
  {
    assert forall i :: 0 <= i < |ys| ==> TrimEach(pieces)[i] == ys[i];
  }

  // ---------------------------------------------------------------------------
  // parseInt and Number#toString

  predicate IsDecimalDigit(c: char) {
    '0' <= c <= '9'
  }

  /** Value of a digit or Latin letter as a digit in radix up to 36; 36 for any other character. */
  function DigitValue(c: char): nat {
    if '0' <= c <= '9' then c as int - '0' as int
    else if 'a' <= c <= 'z' then c as int - 'a' as int + 10
    else if 'A' <= c <= 'Z' then c as int - 'A' as int + 10
    else 36
  }

  predicate IsRadixDigit(c: char, radix: nat) {
    DigitValue(c) < radix
  }

  /** The longest prefix of `s` made of digits in `radix`. */
  function DigitPrefix(s: string, radix: nat): (r: string)
    ensures |r| <= |s| && r == s[..|r|]
    ensures forall k :: 0 <= k < |r| ==> IsRadixDigit(r[k], radix)
    ensures |r| < |s| ==> !IsRadixDigit(s[|r|], radix)
  {
    if s != [] && IsRadixDigit(s[0], radix) then [s[0]] + DigitPrefix(s[1..], radix) else []
  }

  /** Positional value of a digit string, most significant digit first. */
  function ValueOf(digits: string, radix: nat): nat {
    if digits == [] then 0
    else ValueOf(digits[..|digits| - 1], radix) * radix + DigitValue(digits[|digits| - 1])
  }

  /**
   * `parseInt(s)` with no radix: leading whitespace is skipped, one sign is
   * read, a "0x"/"0X" prefix switches to radix 16, and the longest run of
   * digits that follows is the value; no digits at all is `NaN` (None), which
   * `JSON.stringify` sends as `null`.
   */
  function ParseInt(s: string): (r: Option<int>)
    ensures TrimStart(s) == [] ==> r.None?
    ensures r.Some? && r.value < 0 ==> TrimStart(s) != [] && TrimStart(s)[0] == '-'
  {
    ParseNumeral(TrimStart(s))
  }

  /** `parseInt` after the leading whitespace: one optional sign, then an unsigned numeral. */
  function ParseNumeral(t: string): (r: Option<int>)
    ensures t == [] ==> r.None?
    ensures r.Some? && r.value < 0 ==> t != [] && t[0] == '-'
    ensures t != [] && t[0] != '-' && t[0] != '+' && !IsRadixDigit(t[0], 10) ==> r.None?
  {
    var negative := t != [] && t[0] == '-';
    var u := if t != [] && (t[0] == '-' || t[0] == '+') then t[1..] else t;
    match ParseUnsigned(u)
    case None => None
    case Some(value) => Some(if negative then 0 - value else value)
  }

  /** An unsigned numeral: a "0x"/"0X" prefix selects radix 16, then the longest run of digits. */
  function ParseUnsigned(u: string): (r: Option<int>)
    ensures r.Some? ==> r.value >= 0
    ensures u == [] || !IsRadixDigit(u[0], 10) ==> r.None?
    ensures u != [] && IsRadixDigit(u[0], 10) && !(|u| >= 2 && u[0] == '0' && (u[1] == 'x' || u[1] == 'X')) ==> r.Some?
    ensures |u| >= 2 && u[0] == '0' && (u[1] == 'x' || u[1] == 'X') && (|u| == 2 || !IsRadixDigit(u[2], 16)) ==> r.None?
  {
    var hex := |u| >= 2 && u[0] == '0' && (u[1] == 'x' || u[1] == 'X');
    var radix := if hex then 16 else 10;
    var digits := DigitPrefix(if hex then u[2..] else u, radix);
    if digits == [] then None else Some(ValueOf(digits, radix) as int)
  }

  /** Leading blanks do not change what `parseInt` reads. */
  lemma {:induction false} ParseIntSkipsBlanks(s: string, blanks: nat)
    ensures ParseInt(seq(blanks, _ => ' ') + s) == ParseInt(s)
  {
    var t := seq(blanks, _ => ' ') + s;
    TrimStartSkipsBlanks(s, blanks);
    assert TrimStart(t) == TrimStart(s);
  }

  lemma {:induction false} TrimStartSkipsBlanks(s: string, blanks: nat)
    ensures TrimStart(seq(blanks, _ => ' ') + s) == TrimStart(s)
  {
    if blanks > 0 {
      var t := seq(blanks, _ => ' ') + s;
      assert t[1..] == seq(blanks - 1, _ => ' ') + s;
      TrimStartSkipsBlanks(s, blanks - 1);
    } else {
      assert seq(blanks, _ => ' ') + s == s;
    }
  }

  function DigitChar(d: nat): char
    requires d < 10
  {
    ('0' as int + d) as char
  }

  /**
   * The decimal numeral of `n`: at least one digit, every character a digit,
   * and a leading "0" only for zero itself.
   */
  function Decimal(n: nat): (r: string)
    ensures |r| >= 1
    ensures forall k :: 0 <= k < |r| ==> IsDecimalDigit(r[k])
    ensures (r[0] == '0') == (n == 0)
    ensures (|r| == 1) == (n < 10)
  {
    if n < 10 then [DigitChar(n)] else Decimal(n / 10) + [DigitChar(n % 10)]
  }

  /**
   * `n.toString()` for an integer-valued number: a minus sign exactly for a
   * negative number, then at least one decimal digit and nothing else.
   */
  function NumberToString(n: int): (r: string)
    ensures |r| >= 1
    ensures r[0] == '-' <==> n < 0
    ensures n < 0 ==> |r| >= 2
    ensures forall k :: (if n < 0 then 1 else 0) <= k < |r| ==> IsDecimalDigit(r[k])
  {
    if n < 0 then "-" + Decimal(-n) else Decimal(n)
  }

  /** Reading a decimal numeral back gives the number it was written from. */
  lemma {:induction false} ValueOfDecimal(n: nat)
    ensures ValueOf(Decimal(n), 10) == n
  {
    if n >= 10 {
      var d := Decimal(n);
      assert d[..|d| - 1] == Decimal(n / 10);
      ValueOfDecimal(n / 10);
    }
  }

  /** A string of decimal digits is its own longest decimal prefix. */
  lemma {:induction false} DigitPrefixOfDigits(d: string)
    requires forall k :: 0 <= k < |d| ==> IsDecimalDigit(d[k])
    ensures DigitPrefix(d, 10) == d
  {
    if d != [] {
      DigitPrefixOfDigits(d[1..]);
    }
  }

  /** A string of decimal digits is read, in radix 10, as its value. */
  lemma {:induction false} UnsignedOfDigits(d: string)
    requires |d| >= 1 && forall k :: 0 <= k < |d| ==> IsDecimalDigit(d[k])
    ensures ParseUnsigned(d) == Some(ValueOf(d, 10) as int)
  {
    assert |d| >= 2 ==> IsDecimalDigit(d[1]);
    DigitPrefixOfDigits(d);
  }

  /** An unsigned decimal numeral is read as its value. */
  lemma ParseNumeralOfDigits(d: string)
    requires |d| >= 1 && forall k :: 0 <= k < |d| ==> IsDecimalDigit(d[k])
    ensures ParseNumeral(d) == Some(ValueOf(d, 10) as int)
  {
    UnsignedOfDigits(d);
    assert d[0] != '-' && d[0] != '+';
  }

  /** A decimal numeral after a minus sign is read as its negated value. */
  lemma ParseNumeralOfNegativeDigits(t: string)
    requires |t| >= 2 && t[0] == '-' && forall k :: 1 <= k < |t| ==> IsDecimalDigit(t[k])
    ensures ParseNumeral(t) == Some(0 - ValueOf(t[1..], 10))
  {
    UnsignedOfDigits(t[1..]);
    NegativeNumeral(t);
  }

  /** After a minus sign `parseInt` reads an unsigned numeral and negates it. */
  lemma NegativeNumeral(t: string)
    requires t != [] && t[0] == '-'
    ensures ParseNumeral(t) == (match ParseUnsigned(t[1..]) case None => None case Some(v) => Some(0 - v))
  {
  }

  /** An empty text is `NaN`. */
  lemma ParseIntOfEmpty()
    ensures ParseInt("") == None
  {
    assert TrimStart("") == "";
    assert DigitPrefix("", 10) == "";
  }

  /** `parseInt(n.toString())` is `n` for every integer `n`. */
  lemma ParseIntOfNumberToString(n: int)
    ensures ParseInt(NumberToString(n)) == Some(n)
  {
    var m := if n < 0 then -n else n;
    var s := NumberToString(n);
    assert !IsWhitespace(s[0]);
    assert TrimStart(s) == s;
    if n < 0 {
      assert s[1..] == Decimal(m);
      ParseNumeralOfNegativeDigits(s);
    } else {
      ParseNumeralOfDigits(Decimal(m));
    }
    ValueOfDecimal(m);
  }
}
