/** JSON string literals as text (section 7 of RFC 8259): escaping a string
    into the body of a literal, and reading a literal's body back up to its
    closing quote. */
module JsonText {
  import opened Wrappers

  /** A hexadecimal digit, lower case. */
  function HexDigit(d: nat): (c: char)
    requires d < 16
  {
    if d < 10 then ('0' as int + d) as char else ('a' as int + d - 10) as char
  }

  /** The value of a hexadecimal digit of either case. */
  function HexValue(c: char): Option<nat> {
    if '0' <= c <= '9' then Some(c as int - '0' as int)
    else if 'a' <= c <= 'f' then Some(c as int - 'a' as int + 10)
    else if 'A' <= c <= 'F' then Some(c as int - 'A' as int + 10)
    else None
  }

  lemma HexDigitValue(d: nat)
    requires d < 16
    ensures HexValue(HexDigit(d)) == Some(d)
  {
  }

  /** A character that may stand for itself inside a literal. */
  predicate Plain(c: char) {
    c != '"' && c != '\\' && c >= ' '
  }

  /** Every character of `s` may stand for itself in a literal. */
  predicate AllPlain(s: string) {
    forall i :: 0 <= i < |s| ==> Plain(s[i])
  }

  /** The escape sequence of one character: `\"`, `\\`, `\u00XX` for a
      control character, the character itself otherwise. */
  function EscapeChar(c: char): (t: string)
    ensures |t| >= 1
    ensures Plain(c) <==> t == [c]
  {
    if c == '"' then ['\\', '"']
    else if c == '\\' then ['\\', '\\']
    else if c < ' ' then ['\\', 'u', '0', '0', HexDigit(c as int / 16), HexDigit(c as int % 16)]
    else [c]
  }

  /** The body of the literal that denotes `s`. */
  function Escape(s: string): string {
    if |s| == 0 then "" else EscapeChar(s[0]) + Escape(s[1..])
  }

  /** Prepends a character to the text half of a reading. */
  function Cons(c: char, o: Option<(string, string)>): Option<(string, string)> {
    match o
    case None => None
    case Some((s, rest)) => Some(([c] + s, rest))
  }

  /** The character a one-letter escape `\x` stands for, if `x` is one. */
  function ShortEscape(x: char): Option<char> {
    if x == '"' || x == '\\' || x == '/' then Some(x)
    else if x == 'b' then Some(8 as char)
    else if x == 'f' then Some(12 as char)
    else if x == 'n' then Some(10 as char)
    else if x == 'r' then Some(13 as char)
    else if x == 't' then Some(9 as char)
    else None
  }

  /** The value of four hexadecimal digits. */
  function Hex4(a: char, b: char, c: char, d: char): Option<nat> {
    match (HexValue(a), HexValue(b), HexValue(c), HexValue(d))
    case (Some(x), Some(y), Some(z), Some(w)) => Some(((x * 16 + y) * 16 + z) * 16 + w)
    case _ => None
  }

  /** Reads the body of a literal whose opening quote has been consumed:
      the denoted string and the text after the closing quote, or `None`
      when the text is not such a body (an unescaped control character, a
      bad escape, no closing quote). */
  function ReadBody(t: string): (r: Option<(string, string)>)
    decreases |t|
  {
    if |t| == 0 then None
    else if t[0] == '"' then Some(("", t[1..]))
    else if t[0] == '\\' then
      if |t| < 2 then None
      else if ShortEscape(t[1]).Some? then Cons(ShortEscape(t[1]).value, ReadBody(t[2..]))
      else if t[1] == 'u' && |t| >= 6 then
        match Hex4(t[2], t[3], t[4], t[5])
        case None => None
        case Some(v) =>
          if v < 0xD800 || 0xE000 <= v then Cons(v as char, ReadBody(t[6..])) else None
      else None
    else if t[0] < ' ' then None
    else Cons(t[0], ReadBody(t[1..]))
  }

  /** Reading one escaped character yields that character and continues
      with what follows it. */
  lemma ReadEscapeChar(c: char, u: string)
    ensures ReadBody(EscapeChar(c) + u) == Cons(c, ReadBody(u))
  {
    var t := EscapeChar(c) + u;
    if c == '"' || c == '\\' {
      assert t[2..] == u;
    } else if c < ' ' {
      var hi, lo := c as int / 16, c as int % 16;
      HexDigitValue(hi);
      HexDigitValue(lo);
      assert t[1] == 'u' && t[2] == '0' && t[3] == '0' && t[4] == HexDigit(hi) && t[5] == HexDigit(lo);
      assert Hex4(t[2], t[3], t[4], t[5]) == Some(c as int);
      assert t[6..] == u;
    } else {
      assert t[1..] == u;
    }
  }

  /** Escaping round-trips: the body of the literal for `s`, closed by a
      quote, reads back as `s` followed by whatever comes after the quote. */
  lemma {:induction false} EscapeRoundTrip(s: string, rest: string)
    ensures ReadBody(Escape(s) + ['"'] + rest) == Some((s, rest))
  {
    if |s| == 0 {
      assert Escape(s) + ['"'] + rest == ['"'] + rest;
      assert (['"'] + rest)[1..] == rest;
    } else {
      var u := Escape(s[1..]) + ['"'] + rest;
      assert Escape(s) + ['"'] + rest == EscapeChar(s[0]) + u;
      ReadEscapeChar(s[0], u);
      EscapeRoundTrip(s[1..], rest);
      assert [s[0]] + s[1..] == s;
    }
  }

  /** A reading consumes at least one character of text per character it
      yields, plus the closing quote; it consumes exactly that many only when
      every yielded character stood for itself. */
  lemma {:induction false} ReadBodyConsumes(t: string)
    ensures ReadBody(t).Some? ==>
              var (s, rest) := ReadBody(t).value;
              && |t| - |rest| - 1 >= |s|
              && (|t| - |rest| - 1 == |s| ==> AllPlain(s))
    decreases |t|
  {
    if |t| > 0 && t[0] != '"' {
      if t[0] == '\\' {
        if |t| >= 2 && ShortEscape(t[1]).Some? {
          ReadBodyConsumes(t[2..]);
        } else if |t| >= 6 && t[1] == 'u' {
          ReadBodyConsumes(t[6..]);
        }
      } else {
        ReadBodyConsumes(t[1..]);
        if ReadBody(t).Some? {
          var (s, rest) := ReadBody(t).value;
          var (s', rest') := ReadBody(t[1..]).value;
          assert s == [t[0]] + s' && rest == rest';
          if |t| - |rest| - 1 == |s| {
            assert forall i :: 1 <= i < |s| ==> s[i] == s'[i - 1];
          }
        }
      }
    }
  }

  /** Strings made of plain characters are their own escape. */
  lemma {:induction false} EscapePlain(s: string)
    requires AllPlain(s)
    ensures Escape(s) == s
  {
    if |s| > 0 {
      EscapePlain(s[1..]);
      assert [s[0]] + s[1..] == s;
    }
  }

  /** ... and only they are: any other character changes the text. */
  lemma {:induction false} EscapeChangesNonPlain(s: string, i: int)
    requires 0 <= i < |s| && !Plain(s[i])
    ensures Escape(s) != s
  {
    EscapeLength(s);
    EscapeCharLonger(s, i);
  }

  lemma {:induction false} EscapeLength(s: string)
    ensures |Escape(s)| >= |s|
  {
    if |s| > 0 {
      EscapeLength(s[1..]);
    }
  }

  lemma {:induction false} EscapeCharLonger(s: string, i: int)
    requires 0 <= i < |s| && !Plain(s[i])
    ensures |Escape(s)| > |s|
  {
    if i == 0 {
      EscapeLength(s[1..]);
    } else {
      EscapeCharLonger(s[1..], i - 1);
    }
  }
}
