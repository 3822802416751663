/** Text helpers the SDK takes from Python's standard library: decimal
    rendering and parsing of integers (`str(int)`, `int(str)`), `str.split`
    and `str.join` on one separator character, and the form encoding of
    `urllib.parse.urlencode` (which applies `quote_plus` with no extra safe
    characters to every key and value). */
module Text {
  import opened Common

  // ---------------------------------------------------------------------
  // Decimal integers

  predicate IsDigit(c: char) {
    '0' <= c <= '9'
  }

  predicate AllDigits(s: string) {
    forall i :: 0 <= i < |s| ==> IsDigit(s[i])
  }

  function DigitChar(d: nat): (c: char)
    requires d < 10
    ensures IsDigit(c) && (c as int) - ('0' as int) == d
  {
    (('0' as int) + d) as char
  }

  /** `str(n)` for a natural number. */
  function NatToString(n: nat): (s: string)
    decreases n
  {
    if n < 10 then [DigitChar(n)] else NatToString(n / 10) + [DigitChar(n % 10)]
  }

  /** `str(i)` for an integer: a minus sign before the digits of `-i`. */
  function IntToString(i: int): string {
    if i < 0 then "-" + NatToString(-i) else NatToString(i)
  }

  /** The value of a string of decimal digits, most significant first. */
  function DigitsValue(s: string): nat
    requires AllDigits(s)
    decreases |s|
  {
    if s == [] then 0
    else DigitsValue(s[..|s| - 1]) * 10 + ((s[|s| - 1] as int) - ('0' as int))
  }

  /** `int(s)` for the forms the model accepts: an optional sign followed by
      one or more ASCII digits; anything else is refused (`None`). */
  function ParseInt(s: string): (r: Option<int>)
    ensures r.Some? ==> |s| > 0
  {
    if |s| > 1 && (s[0] == '-' || s[0] == '+') && AllDigits(s[1..]) then
      var magnitude: int := DigitsValue(s[1..]);
      Some(if s[0] == '-' then -magnitude else magnitude)
    else if |s| > 0 && AllDigits(s) then Some(DigitsValue(s))
    else None
  }

  lemma {:induction false} NatToStringDigits(n: nat)
    ensures |NatToString(n)| > 0
    ensures AllDigits(NatToString(n))
    ensures DigitsValue(NatToString(n)) == n
    decreases n
  {
    if n >= 10 {
      NatToStringDigits(n / 10);
      var s := NatToString(n);
      assert s[..|s| - 1] == NatToString(n / 10);
    }
  }

  /** Parsing undoes rendering: `int(str(i)) == i` for every integer. */
  lemma ParseIntToString(i: int)
    ensures ParseInt(IntToString(i)) == Some(i)
  {
    if i < 0 {
      NatToStringDigits(-i);
      var s := IntToString(i);
      assert s[1..] == NatToString(-i);
    } else {
      NatToStringDigits(i);
      assert IntToString(i)[0] != '-' && IntToString(i)[0] != '+';
    }
  }

  // ---------------------------------------------------------------------
  // str.split(sep) and sep.join(parts)

  /** `s.split(sep)`: the maximal runs between separators, always at least one. */
  function Split(s: string, sep: char): (parts: seq<string>)
    ensures |parts| >= 1
    ensures forall i :: 0 <= i < |parts| ==> sep !in parts[i]
    decreases |s|
  {
    if s == [] then [""]
    else
      var rest := Split(s[1..], sep);
      if s[0] == sep then [""] + rest else [[s[0]] + rest[0]] + rest[1..]
  }

  /** `sep.join(parts)`. */
  function Join(parts: seq<string>, sep: char): string
    decreases |parts|
  {
    if |parts| == 0 then ""
    else if |parts| == 1 then parts[0]
    else parts[0] + [sep] + Join(parts[1..], sep)
  }

  lemma {:induction false} SplitSepFree(p: string, t: string, sep: char)
    requires sep !in p
    ensures Split(p + t, sep) == [p + Split(t, sep)[0]] + Split(t, sep)[1..]
    decreases |p|
  {
    if p != [] {
      SplitSepFree(p[1..], t, sep);
      assert (p + t)[1..] == p[1..] + t;
      assert [p[0]] + (p[1..] + Split(t, sep)[0]) == p + Split(t, sep)[0];
    } else {
      var st := Split(t, sep);
      assert p + t == t;
      assert p + st[0] == st[0];
      assert st == [st[0]] + st[1..];
    }
  }

  /** Splitting undoes joining when no part contains the separator. */
  lemma {:induction false} SplitJoin(parts: seq<string>, sep: char)
    requires |parts| >= 1
    requires forall i :: 0 <= i < |parts| ==> sep !in parts[i]
    ensures Split(Join(parts, sep), sep) == parts
    decreases |parts|
  {
    if |parts| == 1 {
      SplitSepFree(parts[0], "", sep);
      assert Split("", sep) == [""];
      assert parts[0] + "" == parts[0];
      assert Join(parts, sep) == parts[0];
    } else {
      var rest := Join(parts[1..], sep);
      SplitJoin(parts[1..], sep);
      SplitSepFree(parts[0], [sep] + rest, sep);
      assert ([sep] + rest)[1..] == rest;
      assert Split([sep] + rest, sep) == [""] + parts[1..];
      assert parts[0] + [sep] + rest == parts[0] + ([sep] + rest);
      assert parts[0] + "" == parts[0];
      assert parts == [parts[0]] + parts[1..];
    }
  }

  // ---------------------------------------------------------------------
  // quote_plus / urlencode

  /** The characters `quote` never escapes: ASCII letters, digits and `_.-~`. */
  predicate Unreserved(c: char) {
    ('A' <= c <= 'Z') || ('a' <= c <= 'z') || ('0' <= c <= '9') || c == '_' || c == '.' || c == '-' || c == '~'
  }

  function HexDigit(n: nat): (c: char)
    requires n < 16
    ensures Unreserved(c) && IsHex(c)
  {
    "0123456789ABCDEF"[n]
  }

  /** The UTF-8 encoding of one character. */
  function Utf8(c: char): (bytes: seq<nat>)
    ensures 1 <= |bytes| <= 4
    ensures forall i :: 0 <= i < |bytes| ==> bytes[i] < 256
    ensures (c as int) < 0x80 <==> bytes == [c as int]
  {
    var cp := c as int;
    if cp < 0x80 then [cp]
    else if cp < 0x800 then [0xC0 + cp / 64, 0x80 + cp % 64]
    else if cp < 0x10000 then [0xE0 + cp / 4096, 0x80 + (cp / 64) % 64, 0x80 + cp % 64]
    else [0xF0 + (cp / 262144) % 8, 0x80 + (cp / 4096) % 64, 0x80 + (cp / 64) % 64, 0x80 + cp % 64]
  }

  /** `%XX` escapes, upper-case hex, for a sequence of bytes. */
  function PercentEscape(bytes: seq<nat>): (s: string)
    requires forall i :: 0 <= i < |bytes| ==> bytes[i] < 256
    ensures |s| == 3 * |bytes|
    decreases |bytes|
  {
    if bytes == [] then ""
    else ['%', HexDigit(bytes[0] / 16), HexDigit(bytes[0] % 16)] + PercentEscape(bytes[1..])
  }

  function QuoteChar(c: char): string {
    if Unreserved(c) then [c]
    else if c == ' ' then "+"
    else PercentEscape(Utf8(c))
  }

  /** `urllib.parse.quote_plus(s, safe='')`. */
  function QuotePlus(s: string): string
    decreases |s|
  {
    if s == [] then "" else QuoteChar(s[0]) + QuotePlus(s[1..])
  }

  /** A character that can appear in the output of `QuotePlus`. */
  predicate Quoted(c: char) {
    Unreserved(c) || c == '+' || c == '%'
  }

  lemma {:induction false} PercentEscapeQuoted(bytes: seq<nat>)
    requires forall i :: 0 <= i < |bytes| ==> bytes[i] < 256
    ensures forall i :: 0 <= i < |PercentEscape(bytes)| ==> Quoted(PercentEscape(bytes)[i])
    decreases |bytes|
  {
    if bytes != [] {
      PercentEscapeQuoted(bytes[1..]);
    }
  }

  /** Every character `quote_plus` emits is unreserved, `+` or `%`; in
      particular neither `&` nor `=`, the separators of a query string. */
  lemma {:induction false} QuotePlusQuoted(s: string)
    ensures forall i :: 0 <= i < |QuotePlus(s)| ==> Quoted(QuotePlus(s)[i])
    ensures '&' !in QuotePlus(s) && '=' !in QuotePlus(s)
    decreases |s|
  {
    if s != [] {
      QuotePlusQuoted(s[1..]);
      if !Unreserved(s[0]) && s[0] != ' ' {
        PercentEscapeQuoted(Utf8(s[0]));
      }
      var q := QuotePlus(s);
      assert q == QuoteChar(s[0]) + QuotePlus(s[1..]);
      forall i | 0 <= i < |q| ensures Quoted(q[i]) {
        if i >= |QuoteChar(s[0])| {
          assert q[i] == QuotePlus(s[1..])[i - |QuoteChar(s[0])|];
        }
      }
    }
    assert !Quoted('&') && !Quoted('=');
  }

  /** A hexadecimal digit, in either case. */
  predicate IsHex(c: char) {
    ('0' <= c <= '9') || ('A' <= c <= 'F') || ('a' <= c <= 'f')
  }

  function HexValue(c: char): (v: nat)
    requires IsHex(c)
    ensures v < 16
  {
    if '0' <= c <= '9' then (c as int) - ('0' as int)
    else if 'A' <= c <= 'F' then (c as int) - ('A' as int) + 10
    else (c as int) - ('a' as int) + 10
  }

  /** `unquote_plus`: `+` is a space, and `%` followed by two hex digits (of
      either case) is the character with that code; a `%` not followed by two
      hex digits, and every other character, stands for itself. */
  function UnquotePlusAscii(s: string): string
    decreases |s|
  {
    if s == [] then ""
    else if s[0] == '+' then " " + UnquotePlusAscii(s[1..])
    else if s[0] == '%' && |s| >= 3 && IsHex(s[1]) && IsHex(s[2]) then
      [(HexValue(s[1]) * 16 + HexValue(s[2])) as char] + UnquotePlusAscii(s[3..])
    else [s[0]] + UnquotePlusAscii(s[1..])
  }

  /** Both hex cases decode, and an invalid escape is kept as it is. */
  lemma UnquoteEscapeForms()
    ensures UnquotePlusAscii("a%2fb") == "a/b" && UnquotePlusAscii("a%2Fb") == "a/b"
    ensures UnquotePlusAscii("%zz") == "%zz" && UnquotePlusAscii("%4") == "%4"
  {
    assert "a%2fb"[1..] == "%2fb" && "%2fb"[3..] == "b" && "b"[1..] == "";
    assert "a%2Fb"[1..] == "%2Fb" && "%2Fb"[3..] == "b";
    assert "%zz"[1..] == "zz" && "zz"[1..] == "z" && "z"[1..] == "";
    assert "%4"[1..] == "4" && "4"[1..] == "";
  }

  predicate Ascii(s: string) {
    forall i :: 0 <= i < |s| ==> (s[i] as int) < 0x80
  }

  lemma HexValueDigit(n: nat)
    requires n < 16
    ensures HexValue(HexDigit(n)) == n
  {
    if n < 10 {
      assert HexDigit(n) == "0123456789"[n];
    } else {
      assert HexDigit(n) == "ABCDEF"[n - 10];
    }
  }

  lemma UnquoteEscaped(b: nat, t: string)
    requires b < 0x80
    ensures UnquotePlusAscii(['%', HexDigit(b / 16), HexDigit(b % 16)] + t) == [b as char] + UnquotePlusAscii(t)
  {
    var q := ['%', HexDigit(b / 16), HexDigit(b % 16)] + t;
    assert q[3..] == t;
    HexValueDigit(b / 16);
    HexValueDigit(b % 16);
  }

  lemma UnquoteQuoteChar(c: char, t: string)
    requires (c as int) < 0x80
    ensures UnquotePlusAscii(QuoteChar(c) + t) == [c] + UnquotePlusAscii(t)
  {
    if Unreserved(c) || c == ' ' {
      assert (QuoteChar(c) + t)[1..] == t;
    } else {
      var b := c as int;
      assert QuoteChar(c) == PercentEscape([b]);
      assert PercentEscape([b]) == ['%', HexDigit(b / 16), HexDigit(b % 16)];
      UnquoteEscaped(b, t);
    }
  }

  /** On ASCII text, decoding undoes `quote_plus`. */
  lemma {:induction false} UnquoteQuotePlus(s: string)
    requires Ascii(s)
    ensures UnquotePlusAscii(QuotePlus(s)) == s
    decreases |s|
  {
    if s != [] {
      UnquoteQuotePlus(s[1..]);
      UnquoteQuoteChar(s[0], QuotePlus(s[1..]));
      assert s == [s[0]] + s[1..];
    }
  }

  /** The `key=value` items of `urlencode(pairs)`, in order. */
  function EncodedItems(pairs: seq<(string, string)>): (items: seq<string>)
    ensures |items| == |pairs|
  {
    seq(|pairs|, i requires 0 <= i < |pairs| => QuotePlus(pairs[i].0) + "=" + QuotePlus(pairs[i].1))
  }

  /** `urllib.parse.urlencode(pairs)` for a mapping given in insertion order. */
  function UrlEncode(pairs: seq<(string, string)>): string {
    Join(EncodedItems(pairs), '&')
  }

  /** A non-empty `urlencode` result splits back on `&` into exactly one item
      per pair, and each item splits on `=` into the encoded key and value. */
  lemma UrlEncodeSplits(pairs: seq<(string, string)>)
    requires |pairs| >= 1
    ensures Split(UrlEncode(pairs), '&') == EncodedItems(pairs)
    ensures forall i :: 0 <= i < |pairs| ==>
      Split(EncodedItems(pairs)[i], '=') == [QuotePlus(pairs[i].0), QuotePlus(pairs[i].1)]
  {
    var items := EncodedItems(pairs);
    forall i | 0 <= i < |pairs| ensures '&' !in items[i] {
      QuotePlusQuoted(pairs[i].0);
      QuotePlusQuoted(pairs[i].1);
    }
    SplitJoin(items, '&');
    forall i | 0 <= i < |pairs|
      ensures Split(items[i], '=') == [QuotePlus(pairs[i].0), QuotePlus(pairs[i].1)]
    {
      var k, v := QuotePlus(pairs[i].0), QuotePlus(pairs[i].1);
      QuotePlusQuoted(pairs[i].0);
      QuotePlusQuoted(pairs[i].1);
      assert items[i] == Join([k, v], '=');
      SplitJoin([k, v], '=');
    }
  }
}
