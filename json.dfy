/** `JSON.stringify` and `JSON.parse` on arrays of strings, the encoding the `members` column of a
    room is stored in (section 25.5 of ECMA-262, sections 2, 5 and 7 of RFC 8259).

    The encoder writes exactly what `JSON.stringify` writes for an array of strings: no whitespace,
    `"` and `\` escaped with a backslash, the five short escapes for backspace, tab, line feed,
    form feed and carriage return, a lower-case `\u00xx` for every other control character and
    every other character as it is. The decoder accepts JSON texts whose value is an array of
    strings, with whitespace between tokens, the short escapes, `\/`, `\u` escapes (hex digits in
    either case) of characters outside the surrogate range, and no unescaped control character.
    It answers `None` where `JSON.parse` would throw, for JSON texts whose value is not an array of
    strings, and also for every `\u` escape in the surrogate range `D800` to `DFFF`, which a Dafny
    `char` cannot hold on its own: a lone half, which `JSON.parse` keeps as it is, and each half of
    a pair such as `\ud83d\ude00`, which `JSON.parse` combines into one character. */
module Json {
  import opened Common

  const QuoteMark: char := '\"'
  const Backslash: char := '\\'

  const Backspace: char := 8 as char
  const Tab: char := 9 as char
  const LineFeed: char := 10 as char
  const FormFeed: char := 12 as char
  const CarriageReturn: char := 13 as char

  /** The four whitespace characters JSON allows between tokens. */
  predicate IsWhitespace(c: char)
  {
    c == ' ' || c == Tab || c == LineFeed || c == CarriageReturn
  }

  /** Drops the leading whitespace: what is left does not start with whitespace, and nothing is dropped
      from a text that does not start with it. */
  function SkipWhitespace(s: string): (t: string)
    ensures |t| <= |s|
    ensures t == [] || !IsWhitespace(t[0])
    ensures s == [] || !IsWhitespace(s[0]) ==> t == s
  {
    if s != [] && IsWhitespace(s[0]) then SkipWhitespace(s[1..]) else s
  }

  /** The lower-case hexadecimal digit for `d`. */
  function HexDigit(d: nat): char
    requires d < 16
  {
    if d < 10 then (('0' as int) + d) as char else (('a' as int) + d - 10) as char
  }

  /** The value of a hexadecimal digit of either case. */
  function HexValue(c: char): (v: Option<nat>)
    ensures v.Some? ==> v.value < 16
  {
    if '0' <= c <= '9' then Some(c as int - '0' as int)
    else if 'a' <= c <= 'f' then Some(c as int - 'a' as int + 10)
    else if 'A' <= c <= 'F' then Some(c as int - 'A' as int + 10)
    else None
  }

  lemma HexDigitValue(d: nat)
    requires d < 16
    ensures HexValue(HexDigit(d)) == Some(d)
  {
  }

  /** How `JSON.stringify` writes one character inside a string literal. */
  function EscapeChar(c: char): string
  {
    if c == QuoteMark then [Backslash, QuoteMark]
    else if c == Backslash then [Backslash, Backslash]
    else if c == Backspace then [Backslash, 'b']
    else if c == Tab then [Backslash, 't']
    else if c == LineFeed then [Backslash, 'n']
    else if c == FormFeed then [Backslash, 'f']
    else if c == CarriageReturn then [Backslash, 'r']
    else if (c as int) < 0x20 then [Backslash, 'u', '0', '0', HexDigit(c as int / 16), HexDigit(c as int % 16)]
    else [c]
  }

  function EscapeString(s: string): string
  {
    if s == [] then [] else EscapeChar(s[0]) + EscapeString(s[1..])
  }

  /** A string literal: the escaped characters between double quotes. */
  function QuoteString(s: string): string
  {
    [QuoteMark] + EscapeString(s) + [QuoteMark]
  }

  /** The string literals of `v`, separated by commas. */
  function EncodeElements(v: seq<string>): string
  {
    if |v| == 0 then ""
    else if |v| == 1 then QuoteString(v[0])
    else QuoteString(v[0]) + [','] + EncodeElements(v[1..])
  }

  /** `JSON.stringify(v)` for an array of strings: a bracketed text, `[]` exactly for the empty
      array. `ParseStringify` proves that `Parse` reads it back. */
  function Stringify(v: seq<string>): (text: string)
    ensures |text| >= 2 && text[0] == '[' && text[|text| - 1] == ']'
    ensures v == [] <==> text == "[]"
  {
    assert v != [] ==> |EncodeElements(v)| >= 2;
    ['['] + EncodeElements(v) + [']']
  }

  /** The character an escape sequence stands for, and the text after it; `s` is the text after the
      backslash. A `\u` escape naming a surrogate half has no character of its own and is refused. */
  function ParseEscape(s: string): (r: Option<(char, string)>)
    ensures r.Some? ==> |r.value.1| < |s|
  {
    if s == [] then None
    else if s[0] == QuoteMark || s[0] == Backslash || s[0] == '/' then Some((s[0], s[1..]))
    else if s[0] == 'b' then Some((Backspace, s[1..]))
    else if s[0] == 't' then Some((Tab, s[1..]))
    else if s[0] == 'n' then Some((LineFeed, s[1..]))
    else if s[0] == 'f' then Some((FormFeed, s[1..]))
    else if s[0] == 'r' then Some((CarriageReturn, s[1..]))
    else if s[0] == 'u' && |s| >= 5 then
      var h1, h2, h3, h4 := HexValue(s[1]), HexValue(s[2]), HexValue(s[3]), HexValue(s[4]);
      if h1.None? || h2.None? || h3.None? || h4.None? then None
      else
        var v := ((h1.value * 16 + h2.value) * 16 + h3.value) * 16 + h4.value;
        if 0xD800 <= v < 0xE000 then None else Some((v as char, s[5..]))
    else None
  }

  /** Puts `c` in front of the decoded text of a successful parse. */
  function Prepend(c: char, r: Option<(string, string)>): Option<(string, string)>
  {
    if r.None? then None else Some(([c] + r.value.0, r.value.1))
  }

  /** The characters of a string literal up to its closing quote, and the text after that quote;
      `s` is the text after the opening quote. */
  function ParseStringBody(s: string): (r: Option<(string, string)>)
    ensures r.Some? ==> |r.value.1| < |s|
    decreases |s|
  {
    if s == [] then None
    else if s[0] == QuoteMark then Some(("", s[1..]))
    else if s[0] == Backslash then
      match ParseEscape(s[1..])
      case None => None
      case Some(e) => Prepend(e.0, ParseStringBody(e.1))
    else if (s[0] as int) < 0x20 then None
    else Prepend(s[0], ParseStringBody(s[1..]))
  }

  /** One or more string literals separated by commas and ended by `]`, with whitespace between the
      tokens; `s` starts at the first literal. Gives the strings and the text after `]`. */
  function ParseElements(s: string): Option<(seq<string>, string)>
    decreases |s|
  {
    if s == [] || s[0] != QuoteMark then None
    else
      match ParseStringBody(s[1..])
      case None => None
      case Some(p) =>
        var t := SkipWhitespace(p.1);
        if t != [] && t[0] == ']' then Some(([p.0], t[1..]))
        else if t != [] && t[0] == ',' then
          ConsElement(p.0, ParseElements(SkipWhitespace(t[1..])))
        else None
  }

  /** Puts `x` in front of the strings of a successful parse. */
  function ConsElement(x: string, r: Option<(seq<string>, string)>): Option<(seq<string>, string)>
  {
    if r.None? then None else Some(([x] + r.value.0, r.value.1))
  }

  /** `JSON.parse(text)` where the value is an array of strings; `None` for text that is not JSON
      or whose value is something else. */
  function Parse(text: string): (r: Option<seq<string>>)
    ensures r.Some? ==> SkipWhitespace(text) != [] && SkipWhitespace(text)[0] == '['
  {
    var t := SkipWhitespace(text);
    if t == [] || t[0] != '[' then None
    else
      var u := SkipWhitespace(t[1..]);
      if u != [] && u[0] == ']' then
        if SkipWhitespace(u[1..]) == [] then Some([]) else None
      else
        match ParseElements(u)
        case None => None
        case Some(q) => if SkipWhitespace(q.1) == [] then Some(q.0) else None
  }

  /** Decoding the escape of one character gives that character back, whatever follows. */
  lemma EscapeCharParses(c: char, t: string)
    ensures ParseStringBody(EscapeChar(c) + t) == Prepend(c, ParseStringBody(t))
  {
    if c == QuoteMark || c == Backslash || c == Backspace || c == Tab || c == LineFeed ||
       c == FormFeed || c == CarriageReturn {
      ShortEscapeParses(c, t);
    } else if (c as int) < 0x20 {
      UnicodeEscapeParses(c, t);
    } else {
      assert EscapeChar(c) == [c];
      assert (EscapeChar(c) + t)[1..] == t;
    }
  }

  /** A two-character escape: a backslash and one letter or the character itself. */
  lemma ShortEscapeParses(c: char, t: string)
    requires c == QuoteMark || c == Backslash || c == Backspace || c == Tab || c == LineFeed ||
             c == FormFeed || c == CarriageReturn
    ensures ParseStringBody(EscapeChar(c) + t) == Prepend(c, ParseStringBody(t))
  {
    var s := EscapeChar(c) + t;
    assert |EscapeChar(c)| == 2 && s[0] == Backslash;
    assert s[1..][1..] == t;
    assert ParseEscape(s[1..]) == Some((c, t));
  }

  /** A `\u00xx` escape of a control character without a short form. */
  lemma UnicodeEscapeParses(c: char, t: string)
    requires (c as int) < 0x20
    requires c != QuoteMark && c != Backslash && c != Backspace && c != Tab && c != LineFeed &&
             c != FormFeed && c != CarriageReturn
    ensures ParseStringBody(EscapeChar(c) + t) == Prepend(c, ParseStringBody(t))
  {
    var hi, lo := c as int / 16, c as int % 16;
    var e := [Backslash, 'u', '0', '0', HexDigit(hi), HexDigit(lo)];
    assert EscapeChar(c) == e;
    HexDigitValue(hi);
    HexDigitValue(lo);
    assert HexValue('0') == Some(0);
    var u := (e + t)[1..];
    assert u == ['u', '0', '0', HexDigit(hi), HexDigit(lo)] + t;
    assert u[5..] == t;
    assert ((0 * 16 + 0) * 16 + hi) * 16 + lo == c as int;
    assert ParseEscape(u) == Some((c, t));
  }

  /** The body of a string literal decodes to the string it was written from. */
  lemma {:induction false} EscapeStringParses(s: string, t: string)
    ensures ParseStringBody(EscapeString(s) + [QuoteMark] + t) == Some((s, t))
    decreases |s|
  {
    if s == [] {
      assert EscapeString(s) + [QuoteMark] + t == [QuoteMark] + t;
    } else {
      var tail := EscapeString(s[1..]) + [QuoteMark] + t;
      assert EscapeString(s) + [QuoteMark] + t == EscapeChar(s[0]) + tail;
      EscapeCharParses(s[0], tail);
      EscapeStringParses(s[1..], t);
      assert [s[0]] + s[1..] == s;
    }
  }

  /** A last literal followed by `]`. */
  lemma LastElementParses(x: string, t: string)
    ensures ParseElements(QuoteString(x) + [']'] + t) == Some(([x], t))
  {
    var s := QuoteString(x) + [']'] + t;
    var rest := [']'] + t;
    assert s[0] == QuoteMark;
    assert ParseStringBody(s[1..]) == Some((x, rest)) by {
      assert s[1..] == EscapeString(x) + [QuoteMark] + rest;
      EscapeStringParses(x, rest);
    }
    assert SkipWhitespace(rest) == rest;
    assert rest[1..] == t;
  }

  /** One step of the element parser: a literal directly followed by a comma. */
  lemma CommaStep(s: string, x: string, rest: string)
    requires s != [] && s[0] == QuoteMark && ParseStringBody(s[1..]) == Some((x, rest))
    requires rest != [] && rest[0] == ','
    ensures ParseElements(s) == ConsElement(x, ParseElements(SkipWhitespace(rest[1..])))
  {
  }

  /** A literal followed by a comma and, after any whitespace, further literals. */
  lemma NextElementParses(x: string, more: string)
    ensures ParseElements(QuoteString(x) + [','] + more) == ConsElement(x, ParseElements(SkipWhitespace(more)))
  {
    var s := QuoteString(x) + [','] + more;
    var rest := [','] + more;
    assert s[0] == QuoteMark;
    assert ParseStringBody(s[1..]) == Some((x, rest)) by {
      assert s[1..] == EscapeString(x) + [QuoteMark] + rest;
      EscapeStringParses(x, rest);
    }
    assert rest[1..] == more;
    CommaStep(s, x, rest);
  }

  /** The encoded elements of a non-empty list, closed by `]`, decode to that list. */
  lemma {:induction false} ElementsParse(v: seq<string>, t: string)
    requires |v| >= 1
    ensures ParseElements(EncodeElements(v) + [']'] + t) == Some((v, t))
    decreases |v|
  {
    if |v| == 1 {
      LastElementParses(v[0], t);
      assert [v[0]] == v;
    } else {
      var more := EncodeElements(v[1..]) + [']'] + t;
      assert EncodeElements(v) + [']'] + t == QuoteString(v[0]) + [','] + more;
      ElementsParse(v[1..], t);
      NextElementParses(v[0], more);
      assert more[0] == QuoteMark;
      assert SkipWhitespace(more) == more;
      assert [v[0]] + v[1..] == v;
    }
  }

  /** Decoding undoes encoding: `JSON.parse(JSON.stringify(v))` is `v` for every list of strings. */
  lemma {:induction false} ParseStringify(v: seq<string>)
    ensures Parse(Stringify(v)) == Some(v)
  {
    var text := Stringify(v);
    assert SkipWhitespace(text) == text;
    assert text[1..] == EncodeElements(v) + [']'] + [];
    if |v| == 0 {
      assert text[1..] == [']'];
      assert SkipWhitespace(text[1..]) == text[1..];
    } else {
      ElementsParse(v, "");
      assert text[1..][0] == QuoteMark;
      assert SkipWhitespace(text[1..]) == text[1..];
    }
  }

  /** So two lists with the same encoding are the same list. */
  lemma StringifyInjective(v: seq<string>, w: seq<string>)
    requires Stringify(v) == Stringify(w)
    ensures v == w
  {
    ParseStringify(v);
    ParseStringify(w);
  }

  /** The encoding never contains a raw control character: every character below 0x20 is escaped. */
  lemma {:induction false} EscapeStringHasNoControl(s: string)
    ensures forall i :: 0 <= i < |EscapeString(s)| ==> EscapeString(s)[i] as int >= 0x20
    decreases |s|
  {
    if s != [] {
      EscapeStringHasNoControl(s[1..]);
      var e := EscapeChar(s[0]);
      assert forall i :: 0 <= i < |e| ==> e[i] as int >= 0x20;
      assert EscapeString(s) == e + EscapeString(s[1..]);
    }
  }

  /** Whitespace around and inside the brackets is accepted. */
  lemma WhitespaceAccepted()
    ensures Parse(" [ ] ") == Some([])
  {
  }

  /** `\/` decodes to `/`, an escape `JSON.stringify` never writes. */
  lemma SolidusEscapeAccepted()
    ensures Parse("[\"\\/\"]") == Some(["/"])
  {
    var body := "\\/\"]";
    assert ParseEscape(body[1..]) == Some(('/', "\"]"));
    assert ParseStringBody("\"]") == Some(("", "]"));
    assert body[0] == Backslash && ['/'] + "" == "/";
    assert ParseStringBody(body) == Some(("/", "]"));
    var elements := "\"" + body;
    assert elements[0] == QuoteMark && elements[1..] == body;
    assert SkipWhitespace("]") == "]" && "]"[1..] == "";
    assert ParseElements(elements) == Some((["/"], ""));
    assert "[\"\\/\"]"[1..] == elements;
  }
}
