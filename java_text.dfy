/**
 * The Java library string operations that the point-of-sale code relies on:
 * `String.length()` (UTF-16 code units), `String.hashCode()`,
 * `Objects.hash(a, b)`, `String.split(",")`, `Integer.parseInt` and the
 * decimal rendering that string concatenation gives a number.
 */
module JavaText {
  import opened JavaInt
  import opened Wrappers

  // ---------------------------------------------------------------- UTF-16

  /** The UTF-16 code units Java stores for one Unicode scalar value. */
  function CharUnits(c: char): (u: seq<int>)
    ensures |u| == (if c as int < 0x10000 then 1 else 2)
    ensures forall i :: 0 <= i < |u| ==> 0 <= u[i] < 0x10000
  {
    var v := c as int;
    if v < 0x10000 then [v]
    else [0xD800 + (v - 0x10000) / 0x400, 0xDC00 + (v - 0x10000) % 0x400]
  }

  /** The UTF-16 code units of a string, as `String.charAt` sees them. */
  function Utf16(s: string): (u: seq<int>)
    ensures |s| <= |u| <= 2 * |s|
    ensures forall i :: 0 <= i < |u| ==> 0 <= u[i] < 0x10000
  {
    if s == [] then [] else CharUnits(s[0]) + Utf16(s[1..])
  }

  /** Java's `String.length()`. */
  function Length(s: string): (r: nat)
  {
    |Utf16(s)|
  }

  /** A string of characters from the Basic Multilingual Plane has one code unit per character. */
  lemma {:induction false} LengthOfBmp(s: string)
    requires forall i :: 0 <= i < |s| ==> s[i] as int < 0x10000
    ensures Length(s) == |s|
  {
    if s != [] {
      LengthOfBmp(s[1..]);
    }
  }

  // ------------------------------------------------------------ hash codes

  /** The loop of `String.hashCode()` continued from hash `h` over `units`. */
  function HashFrom(h: Int32, units: seq<int>): (r: Int32)
    decreases |units|
  {
    if units == [] then h else HashFrom(Wrap32(31 * h + units[0]), units[1..])
  }

  /** Java's `String.hashCode()`. */
  function StringHash(s: string): (r: Int32)
  {
    HashFrom(0, Utf16(s))
  }

  /** The loop of `Arrays.hashCode` continued from hash `h` over non-null strings. */
  function HashParts(h: Int32, parts: seq<string>): (r: Int32)
    decreases |parts|
  {
    if parts == [] then h else HashParts(Wrap32(31 * h + StringHash(parts[0])), parts[1..])
  }

  /** Java's `Objects.hash(parts...)` for non-null strings. */
  function ObjectsHash(parts: seq<string>): (r: Int32)
  {
    HashParts(1, parts)
  }

  /** Different brand names can share a hash: "Aa" and "BB" both hash to 2112. */
  lemma HashCollision(name: string)
    ensures "Aa" != "BB"
    ensures ObjectsHash(["Aa", name]) == ObjectsHash(["BB", name])
  {
    assert StringHash("Aa") == 2112 by {
      assert Utf16("Aa") == [65, 97] by {
        assert Utf16("a") == [97];
      }
      assert HashFrom(0, [65, 97]) == HashFrom(65, [97]) by {
        assert [65, 97][1..] == [97];
      }
      assert HashFrom(65, [97]) == HashFrom(2112, []);
    }
    assert StringHash("BB") == 2112 by {
      assert Utf16("BB") == [66, 66] by {
        assert Utf16("B") == [66];
      }
      assert HashFrom(0, [66, 66]) == HashFrom(66, [66]) by {
        assert [66, 66][1..] == [66];
      }
      assert HashFrom(66, [66]) == HashFrom(2112, []);
    }
    assert ["Aa", name][1..] == [name] && ["BB", name][1..] == [name];
  }

  // ---------------------------------------------------------------- split

  /** Every field between occurrences of `sep`, empty fields included. */
  function SplitAll(s: string, sep: char): (r: seq<string>)
    ensures |r| >= 1
    ensures forall i :: 0 <= i < |r| ==> sep !in r[i]
    decreases |s|
  {
    if s == [] then [""]
    else if s[0] == sep then [""] + SplitAll(s[1..], sep)
    else
      var rest := SplitAll(s[1..], sep);
      [[s[0]] + rest[0]] + rest[1..]
  }

  /** Fields put back together with `sep` between them. */
  function Join(parts: seq<string>, sep: char): (r: string)
    requires |parts| >= 1
  {
    if |parts| == 1 then parts[0] else parts[0] + [sep] + Join(parts[1..], sep)
  }

  /** Splitting loses nothing: joining the fields gives the string back. */
  lemma {:induction false} JoinSplitAll(s: string, sep: char)
    ensures Join(SplitAll(s, sep), sep) == s
    decreases |s|
  {
    if s == [] {
    } else if s[0] == sep {
      JoinSplitAll(s[1..], sep);
      assert SplitAll(s, sep)[1..] == SplitAll(s[1..], sep);
    } else {
      var rest := SplitAll(s[1..], sep);
      JoinSplitAll(s[1..], sep);
      var r := SplitAll(s, sep);
      if |rest| == 1 {
        assert r == [[s[0]] + rest[0]];
      } else {
        assert r[1..] == rest[1..];
        assert Join(rest, sep) == rest[0] + [sep] + Join(rest[1..], sep);
      }
    }
  }

  /** A string without the separator is a single field. */
  lemma {:induction false} SplitAllWithoutSeparator(s: string, sep: char)
    requires sep !in s
    ensures SplitAll(s, sep) == [s]
    decreases |s|
  {
    if s != [] {
      SplitAllWithoutSeparator(s[1..], sep);
      assert [s[0]] + s[1..] == s;
    }
  }

  /** Splitting at one separator splits each side on its own. */
  lemma {:induction false} SplitAllConcat(a: string, b: string, sep: char)
    ensures SplitAll(a + [sep] + b, sep) == SplitAll(a, sep) + SplitAll(b, sep)
    decreases |a|
  {
    if a == [] {
      assert a + [sep] + b == [sep] + b;
      assert ([sep] + b)[1..] == b;
    } else {
      var s := a + [sep] + b;
      assert s[0] == a[0] && s[1..] == a[1..] + [sep] + b;
      SplitAllConcat(a[1..], b, sep);
    }
  }

  /** The fields left once the trailing empty ones are removed. */
  function DropTrailingEmpty(parts: seq<string>): (r: seq<string>)
    ensures |r| <= |parts| && r == parts[..|r|]
    ensures |r| > 0 ==> r[|r| - 1] != ""
    ensures forall i :: |r| <= i < |parts| ==> parts[i] == ""
  {
    if |parts| == 0 then []
    else if parts[|parts| - 1] == "" then DropTrailingEmpty(parts[..|parts| - 1])
    else parts
  }

  /**
   * Java's `s.split(String.valueOf(sep))` for a separator that is not a
   * regular-expression metacharacter: the whole string when `sep` does not
   * occur, otherwise every field with the trailing empty ones removed.
   */
  function JavaSplit(s: string, sep: char): (r: seq<string>)
    ensures sep !in s ==> r == [s]
    ensures sep in s ==> r == DropTrailingEmpty(SplitAll(s, sep))
  {
    if sep !in s then [s] else DropTrailingEmpty(SplitAll(s, sep))
  }

  // ------------------------------------------------------ decimal numbers

  predicate IsAsciiDigit(c: char) { '0' <= c <= '9' }

  predicate AllDigits(s: string) { forall i :: 0 <= i < |s| ==> IsAsciiDigit(s[i]) }

  /** The number a string of decimal digits denotes. */
  function DigitsValue(ds: string): (r: nat)
    requires AllDigits(ds)
  {
    if ds == [] then 0
    else 10 * DigitsValue(ds[..|ds| - 1]) + ((ds[|ds| - 1] as int) - ('0' as int))
  }

  /**
   * `Integer.parseInt` without its range check: an optional `+` or `-`
   * followed by one or more digits; anything else is a NumberFormatException.
   */
  function ParseDecimal(s: string): (r: Option<int>)
    ensures r.Some? <==>
      |s| > 0 && (if s[0] == '-' || s[0] == '+' then |s| > 1 && AllDigits(s[1..]) else AllDigits(s))
  {
    if |s| == 0 then None
    else if s[0] == '-' || s[0] == '+' then
      if |s| > 1 && AllDigits(s[1..]) then
        Some(if s[0] == '-' then 0 - DigitsValue(s[1..]) else DigitsValue(s[1..]) as int)
      else None
    else if AllDigits(s) then Some(DigitsValue(s))
    else None
  }

  /** Java's `Integer.parseInt(s)`: the number, or None where it throws. */
  function ParseInt(s: string): (r: Option<Int32>)
    ensures r.Some? <==> ParseDecimal(s).Some? && InInt(ParseDecimal(s).value)
    ensures r.Some? ==> r.value == ParseDecimal(s).value
  {
    match ParseDecimal(s)
    case Some(n) => if InInt(n) then Some(n) else None
    case None => None
  }

  function DigitChar(d: nat): (c: char)
    requires d < 10
    ensures IsAsciiDigit(c) && (c as int) - ('0' as int) == d
  {
    ('0' as int + d) as char
  }

  /** The decimal digits of `n`, without leading zeros. */
  function NatDigits(n: nat): (r: string)
    ensures |r| > 0 && AllDigits(r) && DigitsValue(r) == n
    ensures r[0] == '0' ==> n == 0
  {
    if n < 10 then [DigitChar(n)]
    else
      var r := NatDigits(n / 10) + [DigitChar(n % 10)];
      assert r[..|r| - 1] == NatDigits(n / 10);
      r
  }

  /** What Java's string concatenation `"" + n` writes for an int or long `n`. */
  function Decimal(n: int): (r: string)
  {
    if n < 0 then "-" + NatDigits(-n) else NatDigits(n)
  }

  /** Reading back what was written gives the number again. */
  lemma DecimalRoundTrip(n: int)
    ensures ParseDecimal(Decimal(n)) == Some(n)
  {
    if n < 0 {
      assert Decimal(n)[1..] == NatDigits(-n);
    }
  }

  /** `Integer.parseInt` accepts everything an `int` renders to. */
  lemma ParseIntDecimal(n: Int32)
    ensures ParseInt(Decimal(n)) == Some(n)
  {
    DecimalRoundTrip(n);
  }
}
