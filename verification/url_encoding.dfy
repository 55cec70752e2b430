/** Python's `urllib.parse.quote_plus` with its defaults (`safe=''`, UTF-8):
    the text is encoded as UTF-8, every byte outside the unreserved set of
    section 2.3 of RFC 3986 is percent-encoded as in section 2.1 (upper-case
    hex digits), and the space byte is written as `+`. */
module UrlEncoding {
  import opened Wrappers
  import opened Ascii

  type byte = b: int | 0 <= b < 256

  const HEX_DIGITS: string := "0123456789ABCDEF"

  /** UTF-8 encoding of one Unicode scalar value (section 3 of RFC 3629). */
  function Utf8Char(c: char): (bs: seq<byte>)
    ensures 1 <= |bs| <= 4
    ensures c as int < 0x80 <==> |bs| == 1
    ensures |bs| == 1 ==> bs[0] == c as int
    ensures forall i :: 1 <= i < |bs| ==> 0x80 <= bs[i] < 0xC0
    ensures |bs| > 1 ==> 0xC0 <= bs[0]
  {
    var n := c as int;
    if n < 0x80 then [n]
    else if n < 0x800 then [0xC0 + n / 0x40, 0x80 + n % 0x40]
    else if n < 0x1_0000 then [0xE0 + n / 0x1000, 0x80 + (n / 0x40) % 0x40, 0x80 + n % 0x40]
    else [0xF0 + n / 0x4_0000, 0x80 + (n / 0x1000) % 0x40, 0x80 + (n / 0x40) % 0x40, 0x80 + n % 0x40]
  }

  /** The code point a well-formed 1- to 4-byte UTF-8 sequence stands for. */
  function Utf8CodePoint(bs: seq<byte>): int
    requires 1 <= |bs| <= 4
  {
    var b := seq(|bs|, i requires 0 <= i < |bs| => bs[i] as int);
    if |b| == 1 then b[0]
    else if |b| == 2 then (b[0] - 0xC0) * 0x40 + (b[1] - 0x80)
    else if |b| == 3 then ((b[0] - 0xE0) * 0x40 + (b[1] - 0x80)) * 0x40 + (b[2] - 0x80)
    else (((b[0] - 0xF0) * 0x40 + (b[1] - 0x80)) * 0x40 + (b[2] - 0x80)) * 0x40 + (b[3] - 0x80)
  }

  /** Decoding the bytes of one character gives the character back. */
  lemma Utf8CharDecodes(c: char)
    ensures Utf8CodePoint(Utf8Char(c)) == c as int
  {
    var n := c as int;
    if n < 0x80 {
    } else if n < 0x800 {
      assert n == (n / 0x40) * 0x40 + n % 0x40;
    } else if n < 0x1_0000 {
      assert n / 0x40 == (n / 0x1000) * 0x40 + (n / 0x40) % 0x40;
      assert n == (n / 0x40) * 0x40 + n % 0x40;
    } else {
      assert n / 0x1000 == (n / 0x4_0000) * 0x40 + (n / 0x1000) % 0x40;
      assert n / 0x40 == (n / 0x1000) * 0x40 + (n / 0x40) % 0x40;
      assert n == (n / 0x40) * 0x40 + n % 0x40;
    }
  }

  /** The length of a UTF-8 sequence, read off its lead byte. */
  function Utf8Length(lead: byte): nat {
    if lead < 0x80 then 1 else if lead < 0xE0 then 2 else if lead < 0xF0 then 3 else 4
  }

  /** The lead byte of a character's encoding announces its length. */
  lemma Utf8CharLength(c: char)
    ensures |Utf8Char(c)| == Utf8Length(Utf8Char(c)[0])
  {
    var n := c as int;
    if 0x80 <= n < 0x800 {
      assert n / 0x40 < 0x20;
    } else if 0x800 <= n < 0x1_0000 {
      assert n / 0x1000 < 0x10;
    }
  }

  /** Different characters have different encodings. */
  lemma Utf8CharInjective(a: char, b: char)
    requires Utf8Char(a) == Utf8Char(b)
    ensures a == b
  {
    Utf8CharDecodes(a);
    Utf8CharDecodes(b);
  }

  /** `s.encode("utf-8")` */
  function Utf8(s: string): (bs: seq<byte>)
    ensures |bs| >= |s|
  {
    if |s| == 0 then [] else Utf8Char(s[0]) + Utf8(s[1..])
  }

  lemma {:induction false} Utf8Append(a: string, b: string)
    ensures Utf8(a + b) == Utf8(a) + Utf8(b)
    decreases |a|
  {
    if |a| == 0 {
      assert a + b == b;
    } else {
      assert (a + b)[1..] == a[1..] + b;
      Utf8Append(a[1..], b);
    }
  }

  /** UTF-8 loses nothing: different strings have different encodings. */
  lemma {:induction false} Utf8Injective(a: string, b: string)
    requires Utf8(a) == Utf8(b)
    ensures a == b
    decreases |a|
  {
    if |a| > 0 && |b| > 0 {
      var x, y := Utf8Char(a[0]), Utf8Char(b[0]);
      assert Utf8(a) == x + Utf8(a[1..]);
      assert Utf8(b) == y + Utf8(b[1..]);
      assert x[0] == Utf8(a)[0] == y[0];
      Utf8CharLength(a[0]);
      Utf8CharLength(b[0]);
      assert x == Utf8(a)[..|x|] == y;
      Utf8CharInjective(a[0], b[0]);
      assert Utf8(a[1..]) == Utf8(a)[|x|..] == Utf8(b[1..]);
      Utf8Injective(a[1..], b[1..]);
      assert a == [a[0]] + a[1..] && b == [b[0]] + b[1..];
    }
  }

  /** The bytes `quote` never escapes: ALPHA / DIGIT / "-" / "." / "_" / "~". */
  predicate Unreserved(b: byte) {
    ('A' as int <= b <= 'Z' as int) || ('a' as int <= b <= 'z' as int)
    || ('0' as int <= b <= '9' as int)
    || b == '-' as int || b == '.' as int || b == '_' as int || b == '~' as int
  }

  /** A character that can appear in `quote_plus` output. */
  predicate IsQuotedChar(c: char) {
    (c as int < 0x80 && Unreserved(c as int)) || c == '+' || c == '%'
  }

  /** Text made only of characters `quote_plus` can produce. */
  predicate AllQuoted(s: string) {
    forall i :: 0 <= i < |s| ==> IsQuotedChar(s[i])
  }

  /** The text one byte becomes. */
  function QuoteByte(b: byte): (s: string)
    ensures 1 <= |s| <= 3
    ensures AllQuoted(s)
  {
    if b == 0x20 then "+"
    else if Unreserved(b) then [b as char]
    else ['%', HEX_DIGITS[b / 16], HEX_DIGITS[b % 16]]
  }

  /** `quote_from_bytes` with space as `+`. */
  function QuoteBytes(bs: seq<byte>): (s: string)
    ensures |s| >= |bs|
    ensures AllQuoted(s)
  {
    if |bs| == 0 then "" else QuoteByte(bs[0]) + QuoteBytes(bs[1..])
  }

  lemma {:induction false} QuoteBytesAppend(a: seq<byte>, b: seq<byte>)
    ensures QuoteBytes(a + b) == QuoteBytes(a) + QuoteBytes(b)
    decreases |a|
  {
    if |a| == 0 {
      assert a + b == b;
    } else {
      assert (a + b)[1..] == a[1..] + b;
      QuoteBytesAppend(a[1..], b);
    }
  }

  /** `quote_plus(s)` */
  function QuotePlus(s: string): (r: string)
    ensures AllQuoted(r)
    ensures forall i :: 0 <= i < |r| ==> r[i] != ' '
  {
    QuoteBytes(Utf8(s))
  }

  lemma QuotePlusAppend(a: string, b: string)
    ensures QuotePlus(a + b) == QuotePlus(a) + QuotePlus(b)
  {
    Utf8Append(a, b);
    QuoteBytesAppend(Utf8(a), Utf8(b));
  }

  /** A string of ASCII letters and digits is its own `quote_plus`. */
  lemma {:induction false} QuotePlusAlnum(s: string)
    requires forall i :: 0 <= i < |s| ==> IsAlnum(s[i])
    ensures QuotePlus(s) == s
    decreases |s|
  {
    if |s| > 0 {
      assert s == [s[0]] + s[1..];
      QuotePlusAppend([s[0]], s[1..]);
      QuotePlusAlnum(s[1..]);
      assert Utf8([s[0]]) == [s[0] as int];
      assert QuoteBytes([s[0] as int]) == [s[0]];
    }
  }

  /** A single space becomes `+`. */
  lemma QuotePlusSpace()
    ensures QuotePlus(" ") == "+"
  {
    assert Utf8(" ") == [0x20];
    assert QuoteBytes([0x20]) == "+";
  }

  /** A character `quote_plus` writes as itself or, for a space, as `+`. */
  predicate IsPlain(c: char) {
    c == ' ' || (c as int < 0x80 && Unreserved(c as int))
  }

  /** Text of unreserved ASCII characters and spaces is kept, with every
      space written as `+`. */
  lemma {:induction false} QuotePlusPlain(s: string)
    requires forall i :: 0 <= i < |s| ==> IsPlain(s[i])
    ensures |QuotePlus(s)| == |s|
    ensures forall i :: 0 <= i < |s| ==> QuotePlus(s)[i] == if s[i] == ' ' then '+' else s[i]
    decreases |s|
  {
    if |s| > 0 {
      assert s == [s[0]] + s[1..];
      QuotePlusAppend([s[0]], s[1..]);
      QuotePlusPlain(s[1..]);
      assert Utf8([s[0]]) == [s[0] as int];
      assert QuoteBytes([s[0] as int]) == QuoteByte(s[0] as int);
      var q := QuotePlus(s);
      forall i | 0 <= i < |s|
        ensures q[i] == if s[i] == ' ' then '+' else s[i]
      {
        if i > 0 {
          assert q[i] == QuotePlus(s[1..])[i - 1];
        }
      }
    }
  }

  /** A space becomes `+` wherever it stands. */
  lemma QuotePlusSpaceBetween(a: string, b: string)
    ensures QuotePlus(a + " " + b) == QuotePlus(a) + "+" + QuotePlus(b)
  {
    QuotePlusSpace();
    QuotePlusAppend(a, " ");
    QuotePlusAppend(a + " ", b);
  }

  function HexValue(c: char): Option<int>
  {
    if '0' <= c <= '9' then Some(c as int - '0' as int)
    else if 'A' <= c <= 'F' then Some(c as int - 'A' as int + 10)
    else None
  }

  lemma HexDigitValue(d: int)
    requires 0 <= d < 16
    ensures HexValue(HEX_DIGITS[d]) == Some(d)
  {
  }

  /** A strict form decoder for what `quote_plus` emits: `+` is a space
      and `%XX` with upper-case hex digits is one byte. Unlike Python's
      `unquote_to_bytes`, a lower-case or malformed escape gives None. */
  function UnquotePlus(s: string): Option<seq<byte>>
    decreases |s|
  {
    if |s| == 0 then Some([])
    else if s[0] == '+' then
      match UnquotePlus(s[1..])
      case Some(rest) => Some([0x20] + rest)
      case None => None
    else if s[0] == '%' then
      if |s| >= 3 && HexValue(s[1]).Some? && HexValue(s[2]).Some? then
        match UnquotePlus(s[3..])
        case Some(rest) => Some([HexValue(s[1]).value * 16 + HexValue(s[2]).value] + rest)
        case None => None
      else None
    else if s[0] as int < 0x80 then
      match UnquotePlus(s[1..])
      case Some(rest) => Some([s[0] as int] + rest)
      case None => None
    else None
  }

  /** Decoding undoes one byte's escape whatever follows it. */
  lemma UnquoteByte(b: byte, t: string)
    ensures UnquotePlus(QuoteByte(b) + t) ==
      match UnquotePlus(t)
      case Some(rest) => Some([b] + rest)
      case None => None
  {
    var q := QuoteByte(b);
    if b == 0x20 {
      assert (q + t)[1..] == t;
    } else if Unreserved(b) {
      assert (q + t)[1..] == t;
    } else {
      HexDigitValue(b / 16);
      HexDigitValue(b % 16);
      assert (q + t)[3..] == t;
    }
  }

  /** Form decoding recovers exactly the bytes `quote_plus` encoded. */
  lemma {:induction false} QuoteBytesRoundTrip(bs: seq<byte>)
    ensures UnquotePlus(QuoteBytes(bs)) == Some(bs)
    decreases |bs|
  {
    if |bs| == 0 {
    } else {
      QuoteBytesRoundTrip(bs[1..]);
      UnquoteByte(bs[0], QuoteBytes(bs[1..]));
      assert [bs[0]] + bs[1..] == bs;
    }
  }

  /** `quote_plus` loses nothing: decoding gives back the UTF-8 of the input. */
  lemma QuotePlusRoundTrip(s: string)
    ensures UnquotePlus(QuotePlus(s)) == Some(Utf8(s))
  {
    QuoteBytesRoundTrip(Utf8(s));
  }
}
