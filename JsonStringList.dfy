/**
  The JSON text of a list of strings (section 5 of RFC 8259 for arrays,
  section 7 for strings), as `json_encode(array_keys(...))` writes the
  custom-attribute header with its default flags and `json_decode($value, true)`
  reads it back. Strings are sequences of Unicode code points.
*/
module JsonStringList {
  import opened Wrappers
  import opened Seqs

  const Backspace: char := 8 as char
  const FormFeed: char := 12 as char

  function HexDigit(d: nat): (c: char)
    requires d < 16
  {
    if d < 10 then ('0' as int + d) as char else ('a' as int + d - 10) as char
  }

  function HexValue(c: char): (r: Option<nat>)
    ensures r.Some? ==> r.value < 16
  {
    if '0' <= c <= '9' then Some(c as int - '0' as int)
    else if 'a' <= c <= 'f' then Some(c as int - 'a' as int + 10)
    else if 'A' <= c <= 'F' then Some(c as int - 'A' as int + 10)
    else None
  }

  /** The escape `\uXXXX` of a UTF-16 code unit, with lower-case hex digits. */
  function U4(n: nat): (e: string)
    requires n < 0x10000
    ensures |e| == 6 && e[0] == '\\' && e[1] == 'u'
  {
    var r0 := n % 4096;
    var r1 := r0 % 256;
    ['\\', 'u', HexDigit(n / 4096), HexDigit(r0 / 256), HexDigit(r1 / 16), HexDigit(r1 % 16)]
  }

  /** The high and low UTF-16 surrogates of a code point beyond the Basic Multilingual Plane. */
  function HighSurrogate(c: char): (h: nat)
    requires (c as int) >= 0x10000
    ensures 0xD800 <= h < 0xDC00
  {
    0xD800 + (c as int - 0x10000) / 0x400
  }

  function LowSurrogate(c: char): (l: nat)
    requires (c as int) >= 0x10000
    ensures 0xDC00 <= l < 0xE000
  {
    0xDC00 + (c as int - 0x10000) % 0x400
  }

  /**
    How the encoder writes one character inside a string literal: the short
    escapes, `\u00XX` for the other control characters, the character itself
    up to U+007F, `\uXXXX` above that, and a surrogate pair beyond U+FFFF.
  */
  function EscapeChar(c: char): string {
    if c == '"' then ['\\', '"']
    else if c == '\\' then ['\\', '\\']
    else if c == '/' then ['\\', '/']
    else if c == Backspace then ['\\', 'b']
    else if c == FormFeed then ['\\', 'f']
    else if c == '\n' then ['\\', 'n']
    else if c == '\r' then ['\\', 'r']
    else if c == '\t' then ['\\', 't']
    else if (c as int) < 0x20 then U4(c as int)
    else if (c as int) < 0x80 then [c]
    else if (c as int) < 0x10000 then U4(c as int)
    else U4(HighSurrogate(c)) + U4(LowSurrogate(c))
  }

  function Escape(s: string): string {
    if s == [] then [] else EscapeChar(s[0]) + Escape(s[1..])
  }

  /** A JSON string literal. */
  function Quote(s: string): string {
    "\"" + Escape(s) + "\""
  }

  function Items(ks: seq<string>): string {
    if ks == [] then ""
    else if |ks| == 1 then Quote(ks[0])
    else Quote(ks[0]) + "," + Items(ks[1..])
  }

  /** `json_encode` of a list of strings, e.g. `["a","b"]`, and `[]` for the empty list. */
  function EncodeList(ks: seq<string>): string {
    "[" + Items(ks) + "]"
  }

  predicate IsWs(c: char) { c == ' ' || c == '\t' || c == '\n' || c == '\r' }

  function SkipWs(s: string): (t: string)
    ensures |t| <= |s|
    ensures t == [] || !IsWs(t[0])
  {
    if s != [] && IsWs(s[0]) then SkipWs(s[1..]) else s
  }

  /** The character a two-character escape `\x` stands for. */
  function UnescapeShort(e: char): Option<char> {
    if e == '"' then Some('"')
    else if e == '\\' then Some('\\')
    else if e == '/' then Some('/')
    else if e == 'b' then Some(Backspace)
    else if e == 'f' then Some(FormFeed)
    else if e == 'n' then Some('\n')
    else if e == 'r' then Some('\r')
    else if e == 't' then Some('\t')
    else None
  }

  /** The code point of a `\uXXXX` escape's four hex digits. */
  function Hex4(h: string): (r: Option<nat>)
    requires |h| == 4
    ensures r.Some? ==> r.value < 0x10000
  {
    match (HexValue(h[0]), HexValue(h[1]), HexValue(h[2]), HexValue(h[3]))
    case (Some(a), Some(b), Some(c), Some(d)) => Some(((a * 16 + b) * 16 + c) * 16 + d)
    case _ => None
  }

  function Prepend(c: char, r: Option<(string, string)>): Option<(string, string)> {
    match r
    case None => None
    case Some((t, rest)) => Some(([c] + t, rest))
  }

  /** The code point a high and a low surrogate stand for together. */
  function Combine(h: nat, l: nat): (c: char)
    requires 0xD800 <= h < 0xDC00 && 0xDC00 <= l < 0xE000
    ensures (c as int) >= 0x10000
  {
    (0x10000 + (h - 0xD800) * 0x400 + (l - 0xDC00)) as char
  }

  /**
    Reads a string literal's characters up to its closing quote; the result
    is the decoded text and what follows the closing quote. A `\uXXXX`
    escape of a surrogate must be a high one followed by an escaped low one;
    an unpaired surrogate is an error.
  */
  function ParseStringBody(s: string): (r: Option<(string, string)>)
    ensures r.Some? ==> |r.value.1| < |s|
    decreases |s|
  {
    if s == [] then None
    else if s[0] == '"' then Some(([], s[1..]))
    else if s[0] == '\\' then
      if |s| >= 2 && UnescapeShort(s[1]).Some? then
        Prepend(UnescapeShort(s[1]).value, ParseStringBody(s[2..]))
      else if |s| >= 6 && s[1] == 'u' && Hex4(s[2..6]).Some? then
        var h := Hex4(s[2..6]).value;
        if h < 0xD800 || 0xE000 <= h then
          Prepend(h as char, ParseStringBody(s[6..]))
        else if h < 0xDC00 && |s| >= 12 && s[6] == '\\' && s[7] == 'u' && Hex4(s[8..12]).Some?
                && 0xDC00 <= Hex4(s[8..12]).value < 0xE000 then
          Prepend(Combine(h, Hex4(s[8..12]).value), ParseStringBody(s[12..]))
        else None
      else None
    else if (s[0] as int) < 0x20 then None
    else Prepend(s[0], ParseStringBody(s[1..]))
  }

  function ParseString(s: string): (r: Option<(string, string)>)
    ensures r.Some? ==> |r.value.1| < |s|
  {
    if s != [] && s[0] == '"' then ParseStringBody(s[1..]) else None
  }

  /** One or more string literals separated by commas; returns them and the text after the last one. */
  function ParseItems(s: string): (r: Option<(seq<string>, string)>)
    ensures r.Some? ==> |r.value.1| < |s|
    decreases |s|
  {
    match ParseString(SkipWs(s))
    case None => None
    case Some((k, rest)) =>
      var u := SkipWs(rest);
      if u != [] && u[0] == ',' then
        match ParseItems(u[1..])
        case None => None
        case Some((ks, tail)) => Some(([k] + ks, tail))
      else Some(([k], u))
  }

  /**
    `json_decode($text, true)` when the text is a JSON array of strings;
    None for any other text (for which the caller iterates over nothing).
  */
  function DecodeList(s: string): Option<seq<string>> {
    var t := SkipWs(s);
    if t == [] || t[0] != '[' then None else DecodeElements(SkipWs(t[1..]))
  }

  /** What follows an array's opening bracket: `]`, or string literals and then `]`, each with trailing blanks only. */
  function DecodeElements(u: string): Option<seq<string>> {
    if u != [] && u[0] == ']' then
      if SkipWs(u[1..]) == [] then Some([]) else None
    else
      match ParseItems(u)
      case None => None
      case Some((ks, rest)) =>
        if rest != [] && rest[0] == ']' && SkipWs(rest[1..]) == [] then Some(ks) else None
  }

  lemma SkipWsNone(s: string)
    requires s != [] && !IsWs(s[0])
    ensures SkipWs(s) == s
  {
  }

  /** The characters the encoder writes as a backslash and one letter or sign. */
  predicate ShortEscaped(c: char) {
    c == '"' || c == '\\' || c == '/' || c == Backspace || c == FormFeed || c == '\n' || c == '\r' || c == '\t'
  }

  lemma UnescapeShortOf(c: char)
    requires ShortEscaped(c)
    ensures |EscapeChar(c)| == 2 && EscapeChar(c)[0] == '\\' && UnescapeShort(EscapeChar(c)[1]) == Some(c)
  {
  }

  lemma EscapeShortParse(c: char, t: string)
    requires ShortEscaped(c)
    ensures ParseStringBody(EscapeChar(c) + t) == Prepend(c, ParseStringBody(t))
  {
    var s := EscapeChar(c) + t;
    UnescapeShortOf(c);
    assert s[1] == EscapeChar(c)[1];
    assert s[2..] == t;
  }

  lemma HexDigitValue(d: nat)
    requires d < 16
    ensures HexValue(HexDigit(d)) == Some(d)
  {
  }

  /** The four hex digits of `\uXXXX` read back as the code unit. */
  lemma U4Hex(n: nat)
    requires n < 0x10000
    ensures Hex4(U4(n)[2..6]) == Some(n)
  {
    var r0 := n % 4096;
    var r1 := r0 % 256;
    HexDigitValue(n / 4096);
    HexDigitValue(r0 / 256);
    HexDigitValue(r1 / 16);
    HexDigitValue(r1 % 16);
    assert n == n / 4096 * 4096 + r0;
    assert r0 == r0 / 256 * 256 + r1;
    assert r1 == r1 / 16 * 16 + r1 % 16;
  }

  /** A `\uXXXX` escape of a code unit outside the surrogates decodes to that character. */
  lemma U4Parse(c: char, t: string)
    requires (c as int) < 0x10000
    ensures ParseStringBody(U4(c as int) + t) == Prepend(c, ParseStringBody(t))
  {
    var s := U4(c as int) + t;
    U4Hex(c as int);
    assert s[2..6] == U4(c as int)[2..6];
    assert s[6..] == t;
    assert (Hex4(s[2..6]).value as char) == c;
  }

  lemma SurrogatesCombine(c: char)
    requires (c as int) >= 0x10000
    ensures Combine(HighSurrogate(c), LowSurrogate(c)) == c
  {
    var m := c as int - 0x10000;
    assert m == m / 0x400 * 0x400 + m % 0x400;
  }

  /** A surrogate pair decodes to the character beyond U+FFFF it was made from. */
  lemma PairParse(c: char, t: string)
    requires (c as int) >= 0x10000
    ensures ParseStringBody(U4(HighSurrogate(c)) + U4(LowSurrogate(c)) + t) == Prepend(c, ParseStringBody(t))
  {
    var h, l := HighSurrogate(c), LowSurrogate(c);
    var s := U4(h) + U4(l) + t;
    U4Hex(h);
    U4Hex(l);
    assert s[2..6] == U4(h)[2..6];
    assert s[6] == '\\' && s[7] == 'u';
    assert s[8..12] == U4(l)[2..6];
    assert s[12..] == t;
    SurrogatesCombine(c);
  }

  lemma EscapePlainParse(c: char, t: string)
    requires 0x20 <= (c as int) < 0x80 && !ShortEscaped(c)
    ensures ParseStringBody(EscapeChar(c) + t) == Prepend(c, ParseStringBody(t))
  {
    var s := EscapeChar(c) + t;
    assert EscapeChar(c) == [c];
    assert s[1..] == t;
  }

  /** Decoding an escaped character yields the character and continues after it. */
  lemma EscapeCharParse(c: char, t: string)
    ensures ParseStringBody(EscapeChar(c) + t) == Prepend(c, ParseStringBody(t))
  {
    if ShortEscaped(c) {
      EscapeShortParse(c, t);
    } else if (c as int) < 0x20 || 0x80 <= (c as int) < 0x10000 {
      U4Parse(c, t);
    } else if (c as int) < 0x80 {
      EscapePlainParse(c, t);
    } else {
      PairParse(c, t);
    }
  }

  /** A string literal's body decodes to the string, leaving what follows the closing quote. */
  lemma {:induction false} EscapeParse(s: string, rest: string)
    ensures ParseStringBody(Escape(s) + "\"" + rest) == Some((s, rest))
    decreases |s|
  {
    if s == [] {
      assert Escape(s) + "\"" + rest == ['"'] + rest;
    } else {
      EscapeParse(s[1..], rest);
      assert Escape(s) + "\"" + rest == EscapeChar(s[0]) + (Escape(s[1..]) + "\"" + rest);
      EscapeCharParse(s[0], Escape(s[1..]) + "\"" + rest);
      assert [s[0]] + s[1..] == s;
    }
  }

  lemma QuoteParse(s: string, rest: string)
    ensures ParseString(Quote(s) + rest) == Some((s, rest))
  {
    assert (Quote(s) + rest)[1..] == Escape(s) + "\"" + rest;
    EscapeParse(s, rest);
  }

  /** A literal followed by the closing bracket is the last item. */
  lemma ItemsLast(k: string, rest: string)
    requires rest != [] && rest[0] == ']'
    ensures ParseItems(Quote(k) + rest) == Some(([k], rest))
  {
    var s := Quote(k) + rest;
    SkipWsNone(s);
    QuoteParse(k, rest);
  }

  /** A literal followed by a comma is the first of several items. */
  lemma ItemsNext(k: string, tail: string)
    ensures ParseItems(Quote(k) + ("," + tail)) ==
      match ParseItems(tail)
      case None => None
      case Some((ks, t)) => Some(([k] + ks, t))
  {
    var s := Quote(k) + ("," + tail);
    SkipWsNone(s);
    QuoteParse(k, "," + tail);
    SkipWsNone("," + tail);
    assert ("," + tail)[1..] == tail;
  }

  /** The encoded items decode to the same list, leaving the closing bracket. */
  lemma ItemsCons(ks: seq<string>, rest: string)
    requires |ks| >= 2
    ensures Items(ks) + rest == Quote(ks[0]) + ("," + (Items(ks[1..]) + rest))
  {
    assert Items(ks) == Quote(ks[0]) + "," + Items(ks[1..]);
    AppendAssoc4(Quote(ks[0]), ",", Items(ks[1..]), rest);
  }

  lemma ItemsParseCons(ks: seq<string>, rest: string)
    requires |ks| >= 2 && ParseItems(Items(ks[1..]) + rest) == Some((ks[1..], rest))
    ensures ParseItems(Items(ks) + rest) == Some((ks, rest))
  {
    ItemsCons(ks, rest);
    ItemsNext(ks[0], Items(ks[1..]) + rest);
    assert [ks[0]] + ks[1..] == ks;
  }

  lemma {:induction false} ItemsParse(ks: seq<string>, rest: string)
    requires ks != [] && rest != [] && rest[0] == ']'
    ensures ParseItems(Items(ks) + rest) == Some((ks, rest))
    decreases |ks|
  {
    if |ks| == 1 {
      ItemsLast(ks[0], rest);
      assert [ks[0]] == ks;
    } else {
      ItemsParse(ks[1..], rest);
      ItemsParseCons(ks, rest);
    }
  }

  lemma DecodeEncodeEmpty()
    ensures DecodeList(EncodeList([])) == Some([])
  {
    var s := EncodeList([]);
    assert s == "[]";
    SkipWsNone(s);
    SkipWsNone(s[1..]);
    assert s[1..][1..] == [];
  }

  /** The items of a non-empty list and the closing bracket decode to the list. */
  lemma ElementsOfItems(ks: seq<string>)
    requires ks != []
    ensures DecodeElements(Items(ks) + "]") == Some(ks)
  {
    ItemsParse(ks, "]");
    assert (Items(ks) + "]")[0] == '"';
    assert "]"[1..] == [];
  }

  /** Blanks before and after the opening bracket are skipped. */
  lemma DecodeListOpen(u: string)
    requires u != [] && !IsWs(u[0])
    ensures DecodeList(['['] + u) == DecodeElements(u)
  {
    SkipWsNone(['['] + u);
    assert (['['] + u)[1..] == u;
    SkipWsNone(u);
  }

  lemma EncodeListShape(ks: seq<string>)
    requires ks != []
    ensures EncodeList(ks) == ['['] + (Items(ks) + "]")
    ensures (Items(ks) + "]")[0] == '"'
  {
    AppendAssoc("[", Items(ks), "]");
  }

  lemma DecodeEncodeNonEmpty(ks: seq<string>)
    requires ks != []
    ensures DecodeList(EncodeList(ks)) == Some(ks)
  {
    EncodeListShape(ks);
    DecodeListOpen(Items(ks) + "]");
    ElementsOfItems(ks);
  }

  /** Decoding the encoded list gives the list back. */
  lemma DecodeEncodeList(ks: seq<string>)
    ensures DecodeList(EncodeList(ks)) == Some(ks)
  {
    if ks == [] {
      DecodeEncodeEmpty();
    } else {
      DecodeEncodeNonEmpty(ks);
    }
  }
}
