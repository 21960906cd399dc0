/**
 * The pieces of the Java platform that the client's value types rely on:
 * `String.format("%0nX")`, `Integer.parseInt`/`Long.parseLong` in radix 16,
 * `String.split(":")`, `String.hashCode` and `Integer.compare`/`Long.compare`.
 * Java's fixed-width integers are written out with their ranges.
 */
module JavaLang {
  import opened Outcomes

  const INT_MIN: int := -0x8000_0000
  const INT_MAX: int := 0x7FFF_FFFF
  const LONG_MIN: int := -0x8000_0000_0000_0000
  const LONG_MAX: int := 0x7FFF_FFFF_FFFF_FFFF

  /** A Java `int`. */
  type Int32 = x: int | INT_MIN <= x <= INT_MAX

  /** `Integer.compare(x, y)` and `Long.compare(x, y)`: -1, 0 or 1. */
  function Compare(x: int, y: int): (r: int)
    ensures r == -1 <==> x < y
    ensures r == 0 <==> x == y
    ensures r == 1 <==> x > y
  {
    if x < y then -1 else if x == y then 0 else 1
  }

  function Pow16(n: nat): (p: nat)
    ensures p >= 1
  {
    if n == 0 then 1 else 16 * Pow16(n - 1)
  }

  predicate IsUpperHexDigit(c: char) {
    '0' <= c <= '9' || 'A' <= c <= 'F'
  }

  /** The digit `%X` prints for a value below 16. */
  function UpperHexDigit(v: int): (c: char)
    requires 0 <= v < 16
    ensures IsUpperHexDigit(c)
    ensures HexDigitValue(c) == Some(v)
  {
    "0123456789ABCDEF"[v]
  }

  /** `Character.digit(c, 16)` on ASCII: the value of a hex digit of either case, None otherwise. */
  function HexDigitValue(c: char): (r: Option<nat>)
    ensures r.Some? ==> r.value < 16
  {
    if '0' <= c <= '9' then Some(c as int - '0' as int)
    else if 'a' <= c <= 'f' then Some(c as int - 'a' as int + 10)
    else if 'A' <= c <= 'F' then Some(c as int - 'A' as int + 10)
    else None
  }

  /** The number a string of hex digits denotes; None when some character is not a hex digit. */
  function HexDigitsValue(s: string): (r: Option<nat>)
    ensures r.Some? ==> r.value < Pow16(|s|)
  {
    if |s| == 0 then Some(0)
    else
      match (HexDigitsValue(s[..|s| - 1]), HexDigitValue(s[|s| - 1]))
      case (Some(high), Some(low)) => Some(high * 16 + low)
      case _ => None
  }

  /** `String.format("%0<width>X", n)` for an n that fits in width digits. */
  function FormatHex(n: nat, width: nat): (s: string)
    requires n < Pow16(width)
    ensures |s| == width
    ensures forall i :: 0 <= i < |s| ==> IsUpperHexDigit(s[i])
  {
    if width == 0 then "" else FormatHex(n / 16, width - 1) + [UpperHexDigit(n % 16)]
  }

  /** The digits `%0nX` prints denote the number printed. */
  lemma {:induction false} FormatHexValue(n: nat, width: nat)
    requires n < Pow16(width)
    ensures HexDigitsValue(FormatHex(n, width)) == Some(n)
  {
    if width > 0 {
      var high := FormatHex(n / 16, width - 1);
      FormatHexValue(n / 16, width - 1);
      HexDigitsValueSnoc(high, UpperHexDigit(n % 16));
      assert (n / 16) * 16 + n % 16 == n;
    }
  }

  /** The part of a number's text after an optional leading sign. */
  function DigitsAfterSign(s: string): (digits: string)
    ensures digits == s || (|s| > 0 && (s[0] == '-' || s[0] == '+') && digits == s[1..])
  {
    if |s| > 0 && (s[0] == '-' || s[0] == '+') then s[1..] else s
  }

  /**
   * `Integer.parseInt(s, 16)` when [min, max] is the int range, `Long.parseLong(s, 16)`
   * when it is the long range: an optional sign, then at least one hex digit; a value
   * outside the range is a format error, as an overflow is in Java.
   */
  function ParseHex(s: string, min: int, max: int): (r: Outcome<int>)
    ensures r.Returned? ==> min <= r.value <= max
    ensures r.Threw? ==> r.exception == NumberFormatException
    ensures |DigitsAfterSign(s)| == 0 || HexDigitsValue(DigitsAfterSign(s)).None? ==> r == Threw(NumberFormatException)
    ensures r.Returned? ==> HexDigitsValue(DigitsAfterSign(s)) == Some(if r.value < 0 then -r.value else r.value)
    ensures r.Returned? && r.value < 0 ==> |s| > 0 && s[0] == '-'
    ensures |DigitsAfterSign(s)| > 0 && HexDigitsValue(DigitsAfterSign(s)).Some? ==>
      var magnitude: int := HexDigitsValue(DigitsAfterSign(s)).value;
      var value := if s[0] == '-' then -magnitude else magnitude;
      r == if min <= value <= max then Returned(value) else Threw(NumberFormatException)
  {
    var digits := DigitsAfterSign(s);
    if |digits| == 0 then Threw(NumberFormatException)
    else
      match HexDigitsValue(digits)
      case None => Threw(NumberFormatException)
      case Some(magnitude) =>
        var value: int := if s[0] == '-' then 0 - (magnitude as int) else magnitude;
        if min <= value <= max then Returned(value) else Threw(NumberFormatException)
  }

  /** `Integer.parseInt(s, 16)`: an int, or a format error. */
  function ParseInt(s: string): (r: Outcome<int>)
    ensures r.Returned? ==> INT_MIN <= r.value <= INT_MAX
    ensures r.Threw? ==> r.exception == NumberFormatException
  {
    ParseHex(s, INT_MIN, INT_MAX)
  }

  /** `Long.parseLong(s, 16)`: a long, or a format error. */
  function ParseLong(s: string): (r: Outcome<int>)
    ensures r.Returned? ==> LONG_MIN <= r.value <= LONG_MAX
    ensures r.Threw? ==> r.exception == NumberFormatException
  {
    ParseHex(s, LONG_MIN, LONG_MAX)
  }

  /** Parsing what `%0nX` printed gives back the number, whenever the range holds it. */
  lemma ParseFormatHex(n: nat, width: nat, min: int, max: int)
    requires 0 < width && n < Pow16(width)
    requires min <= n <= max
    ensures ParseHex(FormatHex(n, width), min, max) == Returned(n)
  {
    var s := FormatHex(n, width);
    assert IsUpperHexDigit(s[0]);
    FormatHexValue(n, width);
  }

  /** Every field between ':' separators, empty ones included. */
  function SplitAtColons(s: string): (parts: seq<string>)
    ensures |parts| >= 1
    ensures forall k :: 0 <= k < |parts| ==> ':' !in parts[k]
  {
    if |s| == 0 then [""]
    else
      var rest := SplitAtColons(s[1..]);
      if s[0] == ':' then [""] + rest else [[s[0]] + rest[0]] + rest[1..]
  }

  /** Drops the empty strings at the end, as `split` does with limit 0. */
  function DropTrailingEmpty(parts: seq<string>): (r: seq<string>)
    ensures |r| <= |parts| && r == parts[..|r|]
    ensures |r| > 0 ==> r[|r| - 1] != ""
    ensures forall k :: |r| <= k < |parts| ==> parts[k] == ""
  {
    if |parts| > 0 && parts[|parts| - 1] == "" then DropTrailingEmpty(parts[..|parts| - 1])
    else parts
  }

  /** The fields joined back with ':' between them. */
  function JoinColons(parts: seq<string>): (s: string)
    requires |parts| >= 1
    ensures |s| >= |parts| - 1
  {
    if |parts| == 1 then parts[0] else parts[0] + ":" + JoinColons(parts[1..])
  }

  /** Splitting at every ':' loses nothing: joining the fields gives the text back. */
  lemma {:induction false} SplitAtColonsJoin(s: string)
    ensures JoinColons(SplitAtColons(s)) == s
  {
    if |s| > 0 {
      var rest := SplitAtColons(s[1..]);
      SplitAtColonsJoin(s[1..]);
      if s[0] == ':' {
        assert [""] + rest == SplitAtColons(s);
        assert ([""] + rest)[1..] == rest;
        assert s == "" + ":" + s[1..];
      } else {
        var parts := SplitAtColons(s);
        assert parts == [[s[0]] + rest[0]] + rest[1..];
        if |rest| == 1 {
          assert parts == [[s[0]] + rest[0]];
          assert [s[0]] + s[1..] == s;
        } else {
          assert parts[1..] == rest[1..];
          assert JoinColons(rest) == rest[0] + ":" + JoinColons(rest[1..]);
          assert [s[0]] + s[1..] == s;
        }
      }
    }
  }

  /** `s.split(":")`: the whole string when it has no ':', otherwise the fields without trailing empty ones. */
  function SplitOnColon(s: string): (parts: seq<string>)
    ensures ':' !in s ==> parts == [s]
    ensures forall k :: 0 <= k < |parts| ==> ':' !in parts[k]
    ensures |parts| > 0 ==> parts[|parts| - 1] != "" || parts == [s]
    ensures ':' in s ==> |parts| <= |SplitAtColons(s)| && parts == SplitAtColons(s)[..|parts|]
    ensures ':' in s ==> forall k :: |parts| <= k < |SplitAtColons(s)| ==> SplitAtColons(s)[k] == ""
  {
    if ':' !in s then [s] else DropTrailingEmpty(SplitAtColons(s))
  }

  lemma {:induction false} SplitAtColonsNone(s: string)
    requires ':' !in s
    ensures SplitAtColons(s) == [s]
  {
    if |s| > 0 {
      SplitAtColonsNone(s[1..]);
      assert [s[0]] + s[1..] == s;
    }
  }

  /** A colon-free field before the first ':' is the first part. */
  lemma {:induction false} SplitAtColonsCons(a: string, b: string)
    requires ':' !in a
    ensures SplitAtColons(a + ":" + b) == [a] + SplitAtColons(b)
  {
    if |a| == 0 {
      assert a + ":" + b == [':'] + b;
      assert (a + ":" + b)[1..] == b;
    } else {
      SplitAtColonsCons(a[1..], b);
      assert (a + ":" + b)[1..] == a[1..] + ":" + b;
      assert [a[0]] + a[1..] == a;
    }
  }

  /** Two colon-free fields, the second non-empty, split back into themselves. */
  lemma SplitOnColonTwoFields(a: string, b: string)
    requires ':' !in a && ':' !in b && b != ""
    ensures SplitOnColon(a + ":" + b) == [a, b]
  {
    assert (a + ":" + b)[|a|] == ':';
    SplitAtColonsCons(a, b);
    SplitAtColonsNone(b);
  }

  /** A trailing ':' after two fields is dropped with the empty field it opens. */
  lemma SplitOnColonTrailingColon(a: string, b: string)
    requires ':' !in a && ':' !in b && b != ""
    ensures SplitOnColon(a + ":" + b + ":") == [a, b]
  {
    var text := a + ":" + b + ":";
    assert text[|a|] == ':';
    assert text == a + ":" + (b + ":" + "");
    SplitAtColonsCons(a, b + ":" + "");
    SplitAtColonsCons(b, "");
    SplitAtColonsNone("");
    assert SplitAtColons(text) == [a, b, ""];
    assert [a, b, ""][..2] == [a, b];
    assert ':' in text;
    assert DropTrailingEmpty([a, b, ""]) == DropTrailingEmpty([a, b]);
  }

  /** The value of digits followed by one more digit. */
  lemma HexDigitsValueSnoc(s: string, c: char)
    ensures HexDigitsValue(s + [c]) ==
      if HexDigitsValue(s).Some? && HexDigitValue(c).Some?
      then Some(HexDigitsValue(s).value * 16 + HexDigitValue(c).value)
      else None
  {
    assert (s + [c])[..|s|] == s;
  }

  /** Java's `(int)` narrowing of an exact value: keep the low 32 bits, two's complement. */
  function Wrap32(x: int): (r: int)
    ensures INT_MIN <= r <= INT_MAX
    ensures (r - x) % 0x1_0000_0000 == 0
  {
    var low := x % 0x1_0000_0000;
    if low <= INT_MAX then low else low - 0x1_0000_0000
  }

  /** The polynomial `String.hashCode` promises, over unbounded integers. */
  function ExactHash(s: string): int {
    if |s| == 0 then 0 else 31 * ExactHash(s[..|s| - 1]) + s[|s| - 1] as int
  }

  /** `String.hashCode`: h = 31 * h + c over the characters, in int arithmetic. */
  function StringHashCode(s: string): (h: int)
    ensures INT_MIN <= h <= INT_MAX
  {
    if |s| == 0 then 0 else Wrap32(31 * StringHashCode(s[..|s| - 1]) + s[|s| - 1] as int)
  }

  /** A string of digits 'f' denotes the largest number of its length. */
  lemma {:induction false} LowerFsValue(s: string)
    requires forall i :: 0 <= i < |s| ==> s[i] == 'f'
    ensures HexDigitsValue(s) == Some(Pow16(|s|) - 1)
  {
    if |s| > 0 {
      var init := s[..|s| - 1];
      LowerFsValue(init);
      assert HexDigitValue(s[|s| - 1]) == Some(15);
      assert (Pow16(|init|) - 1) * 16 + 15 == Pow16(|s|) - 1;
    }
  }

  /** A one followed by zeros denotes a power of 16. */
  lemma {:induction false} OneThenZerosValue(s: string)
    requires |s| > 0 && s[0] == '1'
    requires forall i :: 0 < i < |s| ==> s[i] == '0'
    ensures HexDigitsValue(s) == Some(Pow16(|s| - 1))
  {
    var init := s[..|s| - 1];
    if |init| == 0 {
      assert HexDigitsValue(init) == Some(0);
    } else {
      OneThenZerosValue(init);
      assert HexDigitValue(s[|s| - 1]) == Some(0);
    }
  }

  /** A multiple of 2^32 is 0 modulo 2^32. */
  lemma MultipleOfTwoToThe32(q: int)
    ensures (0x1_0000_0000 * q) % 0x1_0000_0000 == 0
  {
  }

  /** `String.hashCode` in int arithmetic agrees with the exact polynomial modulo 2^32. */
  lemma {:induction false} StringHashCodeValue(s: string)
    ensures (StringHashCode(s) - ExactHash(s)) % 0x1_0000_0000 == 0
  {
    if |s| > 0 {
      var init := s[..|s| - 1];
      StringHashCodeValue(init);
      var x := 31 * StringHashCode(init) + s[|s| - 1] as int;
      var a := StringHashCode(s) - x;
      var b := StringHashCode(init) - ExactHash(init);
      assert a % 0x1_0000_0000 == 0;
      assert a == 0x1_0000_0000 * (a / 0x1_0000_0000);
      assert b == 0x1_0000_0000 * (b / 0x1_0000_0000);
      assert StringHashCode(s) - ExactHash(s) == a + 31 * b;
      assert a + 31 * b == 0x1_0000_0000 * (a / 0x1_0000_0000 + 31 * (b / 0x1_0000_0000));
      MultipleOfTwoToThe32(a / 0x1_0000_0000 + 31 * (b / 0x1_0000_0000));
    }
  }
}
