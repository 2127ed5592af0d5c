/** Percent-encoding (section 2.1 of RFC 3986), query strings and decimal numbers. */
module Encoding {
  import opened Text

  /** Where the text goes: one path segment, or a key or value of a query. */
  datatype Place = Segment | Query

  predicate Unreserved(c: char) {
    'a' <= c <= 'z' || 'A' <= c <= 'Z' || '0' <= c <= '9' || c in {'-', '_', '.', '~'}
  }

  /** Go strings are bytes; a character beyond a byte never occurs in one and is passed through. */
  predicate Plain(place: Place, c: char) {
    Unreserved(c) || c >= '\U{0100}' || (place.Segment? && c in {'$', '&', '+', ':', '=', '@'})
  }

  function HexDigit(n: nat): char
    requires n < 16
  {
    if n < 10 then '0' + n as char else 'A' + (n - 10) as char
  }

  function HexValue(c: char): (n: nat)
    ensures n < 16
  {
    if '0' <= c <= '9' then (c - '0') as int else if 'A' <= c <= 'F' then (c - 'A') as int + 10 else 0
  }

  function EscapeChar(place: Place, c: char): string {
    if Plain(place, c) then [c]
    else if place.Query? && c == ' ' then "+"
    else ['%', HexDigit(c as int / 16), HexDigit(c as int % 16)]
  }

  function Escape(place: Place, s: string): string {
    if s == "" then "" else EscapeChar(place, s[0]) + Escape(place, s[1..])
  }

  function Unescape(place: Place, s: string): string {
    if s == "" then ""
    else if s[0] == '%' && |s| >= 3 then [(HexValue(s[1]) * 16 + HexValue(s[2])) as char] + Unescape(place, s[3..])
    else if s[0] == '+' && place.Query? then " " + Unescape(place, s[1..])
    else [s[0]] + Unescape(place, s[1..])
  }

  lemma UnescapeChar(place: Place, c: char, rest: string)
    ensures Unescape(place, EscapeChar(place, c) + rest) == [c] + Unescape(place, rest)
  {
    var e := EscapeChar(place, c);
    assert (e + rest)[|e|..] == rest;
    if !Plain(place, c) && !(place.Query? && c == ' ') {
      var n := c as int;
      assert HexValue(HexDigit(n / 16)) == n / 16 && HexValue(HexDigit(n % 16)) == n % 16;
    }
  }

  /** Encoding is reversible. */
  lemma {:induction false} EscapeRoundTrip(place: Place, s: string)
    ensures Unescape(place, Escape(place, s)) == s
  {
    if s != "" {
      EscapeRoundTrip(place, s[1..]);
      UnescapeChar(place, s[0], Escape(place, s[1..]));
    }
  }

  /** Encoding hides every delimiter: only plain characters, `%` and, in a query, `+` come out. */
  lemma {:induction false} EscapeHides(place: Place, s: string, d: char)
    requires !Plain(place, d) && d != '%' && d != '+'
    ensures d !in Escape(place, s)
  {
    if s != "" {
      EscapeHides(place, s[1..], d);
      assert forall n: nat :: n < 16 ==> Unreserved(HexDigit(n));
    }
  }

  // ---------- Queries ----------

  type Params = seq<(string, string)>

  function EncodePair(p: (string, string)): string {
    Escape(Query, p.0) + "=" + Escape(Query, p.1)
  }

  function EncodePairs(params: Params): (items: seq<string>)
    ensures |items| == |params|
  {
    seq(|params|, i requires 0 <= i < |params| => EncodePair(params[i]))
  }

  function EncodeParams(params: Params): string {
    Join(EncodePairs(params), '&')
  }

  function DecodePair(item: string): (string, string) {
    var eq := Find(item, '=');
    (Unescape(Query, item[..eq]), if eq < |item| then Unescape(Query, item[eq + 1..]) else "")
  }

  function DecodePairs(items: seq<string>): Params {
    seq(|items|, i requires 0 <= i < |items| => DecodePair(items[i]))
  }

  function DecodeParams(query: string): Params {
    if query == "" then [] else DecodePairs(Split(query, '&'))
  }

  lemma PairRoundTrip(p: (string, string))
    ensures DecodePair(EncodePair(p)) == p && '&' !in EncodePair(p) && '?' !in EncodePair(p) && EncodePair(p) != ""
  {
    hide Escape, Unescape, Find;
    var k, v := Escape(Query, p.0), Escape(Query, p.1);
    EscapeHides(Query, p.0, '=');
    EscapeHides(Query, p.0, '&');
    EscapeHides(Query, p.1, '&');
    EscapeHides(Query, p.0, '?');
    EscapeHides(Query, p.1, '?');
    FindAt(k, '=', v);
    assert (k + "=" + v)[..|k|] == k && (k + "=" + v)[|k| + 1..] == v;
    EscapeRoundTrip(Query, p.0);
    EscapeRoundTrip(Query, p.1);
  }

  /** A query string gives back its parameters, in order. */
  lemma ParamsRoundTrip(params: Params)
    ensures DecodeParams(EncodeParams(params)) == params
    ensures '?' !in EncodeParams(params) && (EncodeParams(params) == "" <==> params == [])
  {
    hide EncodePair, DecodePair, Join, Split;
    var items := EncodePairs(params);
    forall i | 0 <= i < |params|
      ensures DecodePair(items[i]) == params[i] && '&' !in items[i] && '?' !in items[i] && items[i] != ""
    {
      PairRoundTrip(params[i]);
    }
    JoinFree(items, '&', '?');
    if params == [] {
      JoinEmpty('&');
    } else {
      SplitJoin(items, '&');
      JoinNonEmpty(items, '&');
      assert DecodePairs(items) == params;
    }
  }

  lemma JoinEmpty(sep: char)
    ensures Join([], sep) == ""
  {
  }

  lemma JoinNonEmpty(parts: seq<string>, sep: char)
    requires parts != [] && parts[0] != ""
    ensures Join(parts, sep) != ""
  {
  }

  /** Letters, digits and a few marks stay; a space in a query becomes a plus sign; any other byte becomes a percent
      sign and its two upper-case hexadecimal digits. */
  lemma EscapedByte(place: Place, c: char)
    requires c as int < 256
    ensures var e := EscapeChar(place, c);
            if 'a' <= c <= 'z' || 'A' <= c <= 'Z' || '0' <= c <= '9' then e == [c]
            else if c == '-' || c == '_' || c == '.' || c == '~' then e == [c]
            else if place == Segment && (c == '$' || c == '&' || c == '+' || c == ':' || c == '=' || c == '@') then
              e == [c]
            else if place == Query && c == ' ' then e == "+"
            else e == ['%', "0123456789ABCDEF"[c as int / 16], "0123456789ABCDEF"[c as int % 16]]
  {
  }

  lemma {:induction false} EscapeAppend(place: Place, a: string, b: string)
    ensures Escape(place, a + b) == Escape(place, a) + Escape(place, b)
  {
    if a == "" {
      assert a + b == b;
    } else {
      assert (a + b)[1..] == a[1..] + b;
      EscapeAppend(place, a[1..], b);
    }
  }

  // ---------- Decimal numbers ----------

  function Digits(n: nat): string {
    if n < 10 then [HexDigit(n)] else Digits(n / 10) + [HexDigit(n % 10)]
  }

  function Itoa(n: int): string {
    if n < 0 then "-" + Digits(-n) else Digits(n)
  }

  function DigitsValue(s: string): nat {
    if s == "" then 0 else DigitsValue(s[..|s| - 1]) * 10 + HexValue(s[|s| - 1])
  }

  lemma {:induction false} DigitsRoundTrip(n: nat)
    ensures DigitsValue(Digits(n)) == n && Digits(n) != "" && Digits(n)[0] != '-'
  {
    if n < 10 {
      assert Digits(n)[..0] == "";
    } else {
      DigitsRoundTrip(n / 10);
      assert Digits(n)[..|Digits(n)| - 1] == Digits(n / 10);
    }
  }

  /** The last digit counts units, and what stands before it tens. */
  lemma ItoaDigits(n: nat)
    ensures n < 10 ==> Itoa(n) == ["0123456789"[n]]
    ensures n >= 10 ==> Itoa(n) == Itoa(n / 10) + ["0123456789"[n % 10]]
    ensures n > 0 ==> Itoa(-(n as int)) == "-" + Itoa(n)
  {
  }

  function AtoiValue(s: string): int {
    if s != "" && s[0] == '-' then -(DigitsValue(s[1..]) as int) else DigitsValue(s)
  }

  /** A decimal text gives its number back. */
  lemma ItoaRoundTrip(n: int)
    ensures AtoiValue(Itoa(n)) == n && Itoa(n) != ""
  {
    hide Digits, DigitsValue;
    DigitsRoundTrip(if n < 0 then -n else n);
    if n < 0 {
      assert Itoa(n)[1..] == Digits(-n);
    }
  }
}
