/** The JSON channel the forms use for lists of strings: the browser sends
    `JSON.stringify(list)` in a form field and the server action reads it
    back with `JSON.parse` (components/admin/class-form.tsx:34 with
    app/actions/admin.ts:28; components/volunteer-form.tsx:25 with
    app/actions/volunteer.ts). Serialisation follows section 25.5.2 of
    ECMA-262 (JSON.stringify) and the parser accepts the JSON grammar of
    RFC 8259 for an array of strings written without insignificant
    whitespace. */
module Json {
  import opened Types
  import opened Text

  /** QuoteJSONString on one character: `"` and `\` are escaped, the short
      escapes \b \f \n \r \t are used, other control characters become
      \u00xx with lowercase hex digits, everything else is copied. */
  function EscapeChar(c: char): string {
    if c == '"' then ['\\', '"']
    else if c == '\\' then ['\\', '\\']
    else if c == '\U{0008}' then ['\\', 'b']
    else if c == '\U{000C}' then ['\\', 'f']
    else if c == '\n' then ['\\', 'n']
    else if c == '\r' then ['\\', 'r']
    else if c == '\t' then ['\\', 't']
    else if (c as int) < 0x20 then ['\\', 'u', '0', '0', HexDigit(c as int / 16), HexDigit(c as int % 16)]
    else [c]
  }

  function Escape(s: string): string {
    if s == [] then [] else EscapeChar(s[0]) + Escape(s[1..])
  }

  function Quote(s: string): string {
    ['"'] + Escape(s) + ['"']
  }

  /** The quoted items separated by commas. */
  function Elements(xs: seq<string>): string {
    if xs == [] then []
    else if |xs| == 1 then Quote(xs[0])
    else Quote(xs[0]) + [','] + Elements(xs[1..])
  }

  /** `JSON.stringify(xs)` for an array of strings. */
  function Stringify(xs: seq<string>): string {
    ['['] + Elements(xs) + [']']
  }

  /** The character an escape sequence stands for, and how many characters
      after the backslash it takes. A \u escape naming a surrogate code
      unit has no `char` here and is refused. */
  function Unescape(t: string): Option<(char, nat)> {
    if t == [] then None
    else if t[0] == '"' then Some(('"', 1))
    else if t[0] == '\\' then Some(('\\', 1))
    else if t[0] == '/' then Some(('/', 1))
    else if t[0] == 'b' then Some(('\U{0008}', 1))
    else if t[0] == 'f' then Some(('\U{000C}', 1))
    else if t[0] == 'n' then Some(('\n', 1))
    else if t[0] == 'r' then Some(('\r', 1))
    else if t[0] == 't' then Some(('\t', 1))
    else if t[0] == 'u' && |t| >= 5 && IsHexChar(t[1]) && IsHexChar(t[2]) && IsHexChar(t[3]) && IsHexChar(t[4]) then
      var code := 4096 * HexValue(t[1]) + 256 * HexValue(t[2]) + 16 * HexValue(t[3]) + HexValue(t[4]);
      if 0xD800 <= code < 0xE000 then None else Some((code as char, 5))
    else None
  }

  function Prepend(c: char, r: Option<(string, string)>): Option<(string, string)> {
    match r
    case None => None
    case Some((body, rest)) => Some(([c] + body, rest))
  }

  /** The body of a string literal up to its closing quote, decoded, and
      the text after the quote. */
  function ParseChars(s: string): (r: Option<(string, string)>)
    ensures r.Some? ==> |r.value.1| < |s|
    decreases |s|
  {
    if s == [] then None
    else if s[0] == '"' then Some(([], s[1..]))
    else if s[0] == '\\' then
      match Unescape(s[1..])
      case None => None
      case Some((c, k)) =>
        if 1 + k <= |s| then Prepend(c, ParseChars(s[1 + k..])) else None
    else if (s[0] as int) < 0x20 then None
    else Prepend(s[0], ParseChars(s[1..]))
  }

  /** One or more string literals separated by commas, then the closing
      bracket and nothing else. */
  function ParseItems(s: string): Option<seq<string>>
    decreases |s|
  {
    if s == [] || s[0] != '"' then None
    else
      match ParseChars(s[1..])
      case None => None
      case Some((v, rest)) =>
        if rest == [']'] then Some([v])
        else if rest != [] && rest[0] == ',' then
          match ParseItems(rest[1..])
          case None => None
          case Some(vs) => Some([v] + vs)
        else None
  }

  /** `JSON.parse(text)` where the text is an array of strings; None where
      JSON.parse would throw. */
  function ParseStringArray(s: string): Option<seq<string>> {
    if s == ['[', ']'] then Some([])
    else if s != [] && s[0] == '[' then ParseItems(s[1..])
    else None
  }

  lemma {:induction false} EscapeCharParse(c: char, t: string)
    ensures ParseChars(EscapeChar(c) + t) == Prepend(c, ParseChars(t))
  {
    var s := EscapeChar(c) + t;
    if (c as int) < 0x20 && c != '\U{0008}' && c != '\U{000C}' && c != '\n' && c != '\r' && c != '\t' {
      UnicodeEscapeParse(c, t);
    } else if c == '"' || c == '\\' || c == '\U{0008}' || c == '\U{000C}' || c == '\n' || c == '\r' || c == '\t' {
      assert s[1..][0] == EscapeChar(c)[1];
      assert Unescape(s[1..]) == Some((c, 1));
      assert s[2..] == t;
    } else {
      assert s[0] == c && s[1..] == t;
    }
  }

  /** A control character without a short escape goes out as \u00xx and
      comes back as itself. */
  lemma {:induction false} UnicodeEscapeParse(c: char, t: string)
    requires (c as int) < 0x20 && c != '\U{0008}' && c != '\U{000C}' && c != '\n' && c != '\r' && c != '\t'
    ensures ParseChars(EscapeChar(c) + t) == Prepend(c, ParseChars(t))
  {
    var v := c as int;
    var h1, h2 := HexDigit(v / 16), HexDigit(v % 16);
    HexDigitValue(v / 16);
    HexDigitValue(v % 16);
    HexDigitValue(0);
    var s := EscapeChar(c) + t;
    assert EscapeChar(c) == ['\\', 'u', '0', '0', h1, h2];
    var u := s[1..];
    assert u == ['u', '0', '0', h1, h2] + t;
    assert u[0] == 'u' && u[1] == '0' && u[2] == '0' && u[3] == h1 && u[4] == h2;
    assert 16 * HexValue(h1) + HexValue(h2) == v;
    assert Unescape(u) == Some((c, 5));
    assert s[0] == '\\';
    assert s[6..] == t;
  }

  /** Parsing an escaped body followed by the closing quote gives back the
      original text and whatever followed the quote. */
  lemma {:induction false} EscapeRoundTrip(s: string, rest: string)
    ensures ParseChars(Escape(s) + ['"'] + rest) == Some((s, rest))
  {
    if s == [] {
      assert Escape(s) + ['"'] + rest == ['"'] + rest;
    } else {
      var t := Escape(s[1..]) + ['"'] + rest;
      assert Escape(s) + ['"'] + rest == EscapeChar(s[0]) + t;
      EscapeCharParse(s[0], t);
      EscapeRoundTrip(s[1..], rest);
      assert [s[0]] + s[1..] == s;
    }
  }

  /** The last literal of the list, then the closing bracket. */
  lemma {:induction false} ParseItemsLast(x: string)
    ensures ParseItems(['"'] + Escape(x) + ['"'] + [']']) == Some([x])
  {
    var s := ['"'] + Escape(x) + ['"'] + [']'];
    assert s[1..] == Escape(x) + ['"'] + [']'];
    EscapeRoundTrip(x, [']']);
  }

  /** A literal, a comma, and the rest of the list. */
  lemma {:induction false} ParseItemsCons(x: string, more: string)
    ensures ParseItems(['"'] + Escape(x) + ['"'] + ([','] + more)) ==
      if ParseItems(more).Some? then Some([x] + ParseItems(more).value) else None
  {
    var tail := [','] + more;
    var s := ['"'] + Escape(x) + ['"'] + tail;
    assert s[1..] == Escape(x) + ['"'] + tail;
    EscapeRoundTrip(x, tail);
    assert tail != [']'] && tail[0] == ',' && tail[1..] == more;
  }

  /** The text of a one-item list, ready for ParseItemsStep. */
  lemma {:induction false} ElementsOne(xs: seq<string>)
    requires |xs| == 1
    ensures Elements(xs) + [']'] == ['"'] + Escape(xs[0]) + ['"'] + [']']
  {
  }

  /** The text of a longer list: the first literal, a comma, the rest. */
  lemma {:induction false} ElementsCons(xs: seq<string>)
    requires |xs| > 1
    ensures Elements(xs) + [']'] == ['"'] + Escape(xs[0]) + ['"'] + ([','] + (Elements(xs[1..]) + [']']))
  {
    var q, e := Quote(xs[0]), Elements(xs[1..]);
    assert Elements(xs) == q + [','] + e;
    Regroup(q, [','], e, [']']);
  }

  lemma {:induction false} Regroup(a: string, b: string, c: string, d: string)
    ensures a + b + c + d == a + (b + (c + d))
  {
  }

  lemma {:induction false} ItemsRoundTrip(xs: seq<string>)
    requires xs != []
    ensures ParseItems(Elements(xs) + [']']) == Some(xs)
  {
    if |xs| == 1 {
      ElementsOne(xs);
      ParseItemsLast(xs[0]);
      assert xs == [xs[0]];
    } else {
      ElementsCons(xs);
      ParseItemsCons(xs[0], Elements(xs[1..]) + [']']);
      ItemsRoundTrip(xs[1..]);
      assert [xs[0]] + xs[1..] == xs;
    }
  }

  /** What the server's JSON.parse reads back is exactly the list the form
      serialised. */
  lemma {:induction false} StringifyRoundTrip(xs: seq<string>)
    ensures ParseStringArray(Stringify(xs)) == Some(xs)
  {
    var s := Stringify(xs);
    if xs == [] {
      assert s == ['[', ']'];
    } else {
      assert Elements(xs)[0] == '"';
      assert s != ['[', ']'];
      assert s[1..] == Elements(xs) + [']'];
      ItemsRoundTrip(xs);
    }
  }
}
