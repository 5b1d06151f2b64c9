/** HTML to text and back: the escaping of outgoing bodies and the reading of
    incoming ones. */
module Text {
  import opened Wrappers
  import opened Truncation

  /* ---- the pieces of a tag ---- */

  function LowerChar(c: char): char {
    if 'A' <= c <= 'Z' then 'a' + (c - 'A') else c
  }

  /** `to_ascii_lowercase`. */
  function Lower(s: string): (r: string)
    ensures |r| == |s|
  {
    seq(|s|, i requires 0 <= i < |s| => LowerChar(s[i]))
  }

  predicate IsAlphanumeric(c: char) {
    'a' <= c <= 'z' || 'A' <= c <= 'Z' || '0' <= c <= '9'
  }

  function Find(s: string, c: char): (r: Option<nat>)
    ensures r.Some? ==> r.value < |s| && s[r.value] == c && c !in s[..r.value]
    ensures r.None? ==> c !in s
  {
    if s == [] then None
    else if s[0] == c then Some(0)
    else
      match Find(s[1..], c)
      case None => None
      case Some(k) => assert s[..k + 1] == [s[0]] + s[1..][..k]; Some(k + 1)
  }

  lemma {:induction false} FindIs(s: string, c: char, k: nat)
    requires k < |s| && s[k] == c && c !in s[..k]
    ensures Find(s, c) == Some(k)
  {
    if k > 0 {
      assert s[..k] == [s[0]] + s[1..][..k - 1];
      FindIs(s[1..], c, k - 1);
    }
  }

  /** The first place a text stands at. */
  function FindText(s: string, what: string): (r: Option<nat>)
    ensures r.Some? ==> r.value + |what| <= |s|
  {
    if what <= s then Some(0)
    else if s == [] then None
    else
      match FindText(s[1..], what)
      case None => None
      case Some(k) => Some(k + 1)
  }

  function TrimStart(s: string, c: char): string {
    if s != [] && s[0] == c then TrimStart(s[1..], c) else s
  }

  function Leading(s: string): string {
    if s != [] && IsAlphanumeric(s[0]) then [s[0]] + Leading(s[1..]) else []
  }

  const LINE_TAGS := {"p", "div", "li", "h1", "h2", "h3", "h4", "h5", "h6", "tr"}

  /** What a tag leaves in the text. */
  function TagText(tag: string): string {
    var name := Leading(TrimStart(TrimStart(tag, '<'), '/'));
    var closing := "</" <= tag;
    if name == "br" || (closing && name in LINE_TAGS) || (!closing && name == "tr") then "\n"
    else if !closing && name in {"td", "th"} then " "
    else ""
  }

  /** What follows an element skipped whole, or the text itself. */
  function AfterElement(s: string, tag: string): (r: string)
    ensures |r| <= |s|
  {
    if "<" + tag <= Lower(s) then
      match FindText(Lower(s), "</" + tag + ">")
      case Some(at) => s[at + |tag| + 3..]
      case None => []
    else s
  }

  function TagEnd(s: string): (end: nat)
    requires s != []
    ensures 0 < end <= |s|
  {
    match Find(s, '>')
    case Some(e) => e + 1
    case None => |s|
  }

  /* ---- entities ---- */

  function DigitValue(c: char, radix: nat): Option<nat>
    requires radix in {10, 16}
  {
    if '0' <= c <= '9' then Some((c - '0') as nat)
    else if radix == 16 && 'a' <= c <= 'f' then Some((c - 'a') as nat + 10)
    else if radix == 16 && 'A' <= c <= 'F' then Some((c - 'A') as nat + 10)
    else None
  }

  function Digits(s: string, radix: nat, acc: nat): Option<nat>
    requires radix in {10, 16}
  {
    if s == [] then Some(acc)
    else if DigitValue(s[0], radix).None? then None
    else Digits(s[1..], radix, acc * radix + DigitValue(s[0], radix).value)
  }

  /** `u32::from_str_radix`: a plus sign may lead, nothing may overflow. */
  function ParseU32(s: string, radix: nat): Option<nat>
    requires radix in {10, 16}
  {
    var digits := if s != [] && s[0] == '+' then s[1..] else s;
    if digits == [] then None
    else
      match Digits(digits, radix, 0)
      case Some(n) => if n < 0x1_0000_0000 then Some(n) else None
      case None => None
  }

  /** `char::from_u32`: surrogates and what lies past Unicode are no characters. */
  function CharFrom(n: Option<nat>): Option<string> {
    if n.None? || 0xD800 <= n.value < 0xE000 || n.value > 0x10_FFFF then None
    else Some([n.value as char])
  }

  function EntityText(body: string): Option<string> {
    if body == "amp" then Some("&")
    else if body == "lt" then Some("<")
    else if body == "gt" then Some(">")
    else if body == "quot" then Some("\"")
    else if body == "apos" then Some("'")
    else if body == "nbsp" then Some(" ")
    else if "#x" <= body || "#X" <= body then CharFrom(ParseU32(body[2..], 16))
    else if "#" <= body then CharFrom(ParseU32(body[1..], 10))
    else None
  }

  datatype Entity = Entity(text: string, len: nat)

  const ENTITY_BYTES: nat := 12

  function DecodeEntity(s: string): (r: Option<Entity>)
    requires s != [] && s[0] == '&'
    ensures r.Some? ==> 0 < r.value.len <= |s|
  {
    match Find(s, ';')
    case None => None
    case Some(semi) =>
      if Bytes(s[..semi]) > ENTITY_BYTES then None
      else
        match EntityText(s[1..semi])
        case None => None
        case Some(text) => Some(Entity(text, semi + 1))
  }

  /* ---- the parser ---- */

  /** The text of some HTML, before its white space is collapsed. */
  function Parse(s: string): string
    decreases |s|
  {
    if s == [] then []
    else if s[0] == '<' then
      var rest := AfterElement(AfterElement(s, "script"), "style");
      if rest == [] then []
      else TagText(Lower(rest[..TagEnd(rest)])) + Parse(rest[TagEnd(rest)..])
    else if s[0] == '&' && DecodeEntity(s).Some? then
      DecodeEntity(s).value.text + Parse(s[DecodeEntity(s).value.len..])
    else [s[0]] + Parse(s[1..])
  }

  method SkipElement(html: string, i: nat, tag: string) returns (j: nat)
    requires i <= |html|
    ensures i <= j <= |html| && html[j..] == AfterElement(html[i..], tag)
  {
    j := i;
    if "<" + tag <= Lower(html[i..]) {
      match FindText(Lower(html[i..]), "</" + tag + ">")
      case Some(off) => j := i + off + |tag| + 3;
      case None => j := |html|;
    }
  }

  /** What the tag at `i` gives, once script and style elements are skipped. */
  method ReadTag(html: string, i: nat) returns (text: string, next: nat)
    requires i < |html| && html[i] == '<'
    ensures i < next <= |html| && Parse(html[i..]) == text + Parse(html[next..])
  {
    ghost var s := html[i..];
    assert s[0] == '<';
    var j := SkipElement(html, i, "script");
    j := SkipElement(html, j, "style");
    if j >= |html| {
      assert html[j..] == [];
      return "", |html|;
    }
    ghost var rest := html[j..];
    assert rest == AfterElement(AfterElement(s, "script"), "style");
    next := j + TagEnd(html[j..]);
    assert rest[..next - j] == html[j..next] && rest[next - j..] == html[next..];
    text := TagText(Lower(html[j..next]));
    assert Parse(s) == TagText(Lower(rest[..TagEnd(rest)])) + Parse(rest[TagEnd(rest)..]);
  }

  /** What an entity or a character at `i` gives. */
  method ReadCharacter(html: string, i: nat) returns (text: string, next: nat)
    requires i < |html| && html[i] != '<'
    ensures i < next <= |html| && Parse(html[i..]) == text + Parse(html[next..])
  {
    ghost var s := html[i..];
    assert s[0] == html[i];
    if html[i] == '&' {
      var entity := DecodeEntity(html[i..]);
      if entity.Some? {
        next := i + entity.value.len;
        assert s[entity.value.len..] == html[next..];
        return entity.value.text, next;
      }
    }
    assert s[1..] == html[i + 1..];
    return [html[i]], i + 1;
  }

  /** `out` is the text up to `i`. */
  ghost predicate ReadTo(html: string, i: nat, out: string) {
    i <= |html| && out + Parse(html[i..]) == Parse(html)
  }

  lemma ReadFurther(html: string, i: nat, out: string, piece: string, next: nat)
    requires ReadTo(html, i, out) && next <= |html| && Parse(html[i..]) == piece + Parse(html[next..])
    ensures ReadTo(html, next, out + piece)
  {
    assert out + (piece + Parse(html[next..])) == out + piece + Parse(html[next..]);
  }

  lemma ReadEnds(html: string, out: string)
    ensures ReadTo(html, 0, [])
    ensures ReadTo(html, |html|, out) ==> out == Parse(html)
  {
    assert html[0..] == html && html[|html|..] == [];
  }

  method HtmlToText(html: string) returns (text: string)
    ensures text == Collapse(Parse(html), false, Nothing)
  {
    var out: string := [];
    var i: nat := 0;
    ReadEnds(html, out);
    while i < |html|
      invariant i <= |html| && ReadTo(html, i, out)
      decreases |html| - i
    {
      var piece: string, next: nat;
      if html[i] == '<' {
        piece, next := ReadTag(html, i);
      } else {
        piece, next := ReadCharacter(html, i);
      }
      ReadFurther(html, i, out, piece, next);
      out, i := out + piece, next;
    }
    ReadEnds(html, out);
    text := CollapseWhitespace(out);
  }

  /* ---- white space ---- */

  predicate IsLineBreak(c: char) {
    c == '\n' || c == '\r'
  }

  /** The Unicode property White_Space. */
  predicate IsWhitespace(c: char) {
    || '\U{9}' <= c <= '\U{D}' || c == ' ' || c == '\U{85}' || c == '\U{A0}' || c == '\U{1680}'
    || '\U{2000}' <= c <= '\U{200A}' || c == '\U{2028}' || c == '\U{2029}' || c == '\U{202F}'
    || c == '\U{205F}' || c == '\U{3000}'
  }

  /** What stands before a character: nothing, blanks, or blanks and a line break. */
  datatype Gap = Nothing | Blank | Line {
    function Then(c: char): Gap {
      if IsLineBreak(c) || this == Line then Line else Blank
    }

    function Text(): string {
      match this
      case Nothing => ""
      case Blank => " "
      case Line => "\n"
    }
  }

  /** What the loop still emits, once it has `started` and after a gap. */
  function Collapse(s: string, started: bool, gap: Gap): string {
    if s == [] then []
    else if IsWhitespace(s[0]) then Collapse(s[1..], started, gap.Then(s[0]))
    else (if started then gap.Text() else "") + [s[0]] + Collapse(s[1..], true, Nothing)
  }

  /** The gap two flags stand for: a line break wins. */
  function Pending(space: bool, newline: bool): Gap {
    if newline then Line else if space then Blank else Nothing
  }

  method PushAfter(out: string, space: bool, newline: bool, c: char) returns (next: string)
    ensures next == out + ((if out != [] then Pending(space, newline).Text() else "") + [c])
  {
    next := out;
    if newline {
      if out != [] {
        next := next + "\n";
      }
    } else if space && out != [] {
      next := next + " ";
    }
    next := next + [c];
  }

  method CollapseWhitespace(s: string) returns (out: string)
    ensures out == Collapse(s, false, Nothing)
  {
    out := [];
    var space, newline := false, false;
    assert s[0..] == s;
    for i := 0 to |s|
      invariant out + Collapse(s[i..], out != [], Pending(space, newline)) == Collapse(s, false, Nothing)
    {
      assert s[i..][0] == s[i] && s[i..][1..] == s[i + 1..];
      if IsLineBreak(s[i]) {
        newline := true;
      } else if IsWhitespace(s[i]) {
        space := true;
      } else {
        ghost var lead := (if out != [] then Pending(space, newline).Text() else "") + [s[i]];
        ghost var rest := Collapse(s[i + 1..], true, Nothing);
        assert out + (lead + rest) == out + lead + rest;
        out := PushAfter(out, space, newline, s[i]);
        newline, space := false, false;
      }
    }
    assert s[|s|..] == [];
  }

  /** Each character that is not white space, with the gap before it. */
  function Gaps(s: string, gap: Gap): seq<(Gap, char)> {
    if s == [] then []
    else if IsWhitespace(s[0]) then Gaps(s[1..], gap.Then(s[0]))
    else [(gap, s[0])] + Gaps(s[1..], Nothing)
  }

  /** Single blanks and line breaks, and only between characters. */
  predicate Tidy(s: string, started: bool) {
    s != [] ==>
      if IsWhitespace(s[0]) then
        started && s[0] in " \n" && |s| > 1 && !IsWhitespace(s[1]) && Tidy(s[1..], started)
      else Tidy(s[1..], true)
  }

  /** Collapsing keeps every character with the kind of gap before it, in tidy form. */
  lemma {:induction false} CollapseKeepsGaps(s: string, started: bool, gap: Gap)
    ensures Tidy(Collapse(s, started, gap), started)
    ensures started ==> Gaps(Collapse(s, started, gap), Nothing) == Gaps(s, gap)
    ensures !started && Gaps(s, gap) == [] ==> Collapse(s, started, gap) == []
    ensures !started && Gaps(s, gap) != [] ==>
              Gaps(Collapse(s, started, gap), Nothing) == Gaps(s, gap)[0 := (Nothing, Gaps(s, gap)[0].1)]
  {
    if s != [] {
      if IsWhitespace(s[0]) {
        CollapseKeepsGaps(s[1..], started, gap.Then(s[0]));
      } else {
        CollapseKeepsGaps(s[1..], true, Nothing);
        var rest := Collapse(s[1..], true, Nothing);
        var lead := if started then gap.Text() else "";
        var out := Collapse(s, started, gap);
        assert out == lead + ([s[0]] + rest);
        assert ([s[0]] + rest)[1..] == rest;
        if lead != "" {
          assert out[0] == lead[0] && out[1..] == [s[0]] + rest;
        } else {
          assert out == [s[0]] + rest;
        }
      }
    }
  }

  /** What is tidy already stays as it is. */
  lemma {:induction false} TidyStays(s: string, started: bool)
    requires Tidy(s, started)
    ensures Collapse(s, started, Nothing) == s
  {
    if s != [] {
      if IsWhitespace(s[0]) {
        TidyStays(s[2..], true);
        assert s[1..][0] == s[1] && s[1..][1..] == s[2..];
        assert s == [s[0]] + [s[1]] + s[2..];
      } else {
        TidyStays(s[1..], true);
        assert s == [s[0]] + s[1..];
      }
    }
  }

  /** Collapsing twice is collapsing once, and fixes exactly the tidy texts. */
  lemma CollapsedTwice(s: string)
    ensures Collapse(Collapse(s, false, Nothing), false, Nothing) == Collapse(s, false, Nothing)
    ensures Collapse(s, false, Nothing) == s <==> Tidy(s, false)
  {
    CollapseKeepsGaps(s, false, Nothing);
    TidyStays(Collapse(s, false, Nothing), false);
    if Tidy(s, false) {
      TidyStays(s, false);
    }
  }

  /* ---- escaping ---- */

  function EscapeChar(c: char): string {
    match c
    case '&' => "&amp;"
    case '<' => "&lt;"
    case '>' => "&gt;"
    case '"' => "&quot;"
    case '\n' => "<br>"
    case _ => [c]
  }

  function Escape(s: string): string {
    if s == [] then [] else EscapeChar(s[0]) + Escape(s[1..])
  }

  method EscapeHtml(s: string) returns (out: string)
    ensures out == Escape(s)
  {
    out := [];
    assert s[0..] == s;
    for i := 0 to |s|
      invariant out + Escape(s[i..]) == Escape(s)
    {
      assert s[i..][0] == s[i] && s[i..][1..] == s[i + 1..];
      assert out + (EscapeChar(s[i]) + Escape(s[i + 1..])) == out + EscapeChar(s[i]) + Escape(s[i + 1..]);
      out := out + EscapeChar(s[i]);
    }
    assert s[|s|..] == [];
  }

  /** A named entity at the front reads as its character. */
  lemma ParseEntity(s: string, body: string, text: string, rest: string)
    requires s == "&" + body + ";" && |body| < ENTITY_BYTES && ';' !in body && EntityText(body) == Some(text)
    requires forall i | 0 <= i < |body| :: body[i] < '\U{80}'
    ensures Parse(s + rest) == text + Parse(rest)
  {
    var html := s + rest;
    var semi := |body| + 1;
    assert html[semi] == ';' && html[1..semi] == body && html[..semi] == "&" + body;
    FindIs(html, ';', semi);
    AsciiBytes("&" + body);
    assert html[semi + 1..] == rest;
  }

  lemma {:induction false} AsciiBytes(s: string)
    requires forall i | 0 <= i < |s| :: s[i] < '\U{80}'
    ensures Bytes(s) == |s|
  {
    if s != [] {
      AsciiBytes(s[1..]);
    }
  }

  function DigitChar(v: nat): (c: char)
    requires v < 16
    ensures '0' <= c <= '9' || 'a' <= c <= 'f'
    ensures DigitValue(c, 16) == Some(v) && (v < 10 ==> DigitValue(c, 10) == Some(v))
  {
    if v < 10 then '0' + v as char else 'a' + (v - 10) as char
  }

  /** A number written in a radix, with lower-case letters. */
  function Numeral(n: nat, radix: nat): (s: string)
    requires radix in {10, 16}
    ensures s != [] && forall i | 0 <= i < |s| :: '0' <= s[i] <= '9' || 'a' <= s[i] <= 'f'
  {
    if n < radix then [DigitChar(n)] else Numeral(n / radix, radix) + [DigitChar(n % radix)]
  }

  lemma {:induction false} DigitsAppend(s: string, d: char, radix: nat, acc: nat)
    requires radix in {10, 16} && DigitValue(d, radix).Some? && Digits(s, radix, acc).Some?
    ensures Digits(s + [d], radix, acc) == Some(Digits(s, radix, acc).value * radix + DigitValue(d, radix).value)
  {
    if s == [] {
      assert ([] + [d])[1..] == [];
    } else {
      assert (s + [d])[1..] == s[1..] + [d];
      DigitsAppend(s[1..], d, radix, acc * radix + DigitValue(s[0], radix).value);
    }
  }

  lemma {:induction false} NumeralParses(n: nat, radix: nat)
    requires radix in {10, 16}
    ensures Digits(Numeral(n, radix), radix, 0) == Some(n)
  {
    if n < radix {
      assert [DigitChar(n)][1..] == [];
    } else {
      NumeralParses(n / radix, radix);
      DigitsAppend(Numeral(n / radix, radix), DigitChar(n % radix), radix, 0);
    }
  }

  function Power(radix: nat, k: nat): nat {
    if k == 0 then 1 else radix * Power(radix, k - 1)
  }

  lemma {:induction false} NumeralLength(n: nat, radix: nat, k: nat)
    requires radix in {10, 16} && k >= 1 && n < Power(radix, k)
    ensures |Numeral(n, radix)| <= k
    decreases k
  {
    if n >= radix {
      assert Power(radix, 1) == radix * Power(radix, 0);
      NumeralLength(n / radix, radix, k - 1);
    }
  }

  lemma CodePointsAreShort(n: nat)
    requires n <= 0x10_FFFF
    ensures |Numeral(n, 16)| <= 6 && |Numeral(n, 10)| <= 7
  {
    assert Power(16, 2) == 256 && Power(16, 4) == 65536 by {
      assert Power(16, 1) == 16 && Power(16, 3) == 4096;
    }
    assert Power(16, 6) == 0x100_0000 by { assert Power(16, 5) == 0x10_0000; }
    assert Power(10, 2) == 100 && Power(10, 4) == 10_000 by {
      assert Power(10, 1) == 10 && Power(10, 3) == 1000;
    }
    assert Power(10, 7) == 10_000_000 by { assert Power(10, 5) == 100_000 && Power(10, 6) == 1_000_000; }
    NumeralLength(n, 16, 6);
    NumeralLength(n, 10, 7);
  }

  lemma NumeralIsChar(c: char, radix: nat)
    requires radix in {10, 16}
    ensures CharFrom(ParseU32(Numeral(c as nat, radix), radix)) == Some([c])
  {
    NumeralParses(c as nat, radix);
    assert Numeral(c as nat, radix)[0] != '+';
  }

  lemma HexBody(digits: string)
    requires digits != []
    ensures EntityText("#x" + digits) == CharFrom(ParseU32(digits, 16))
  {
    var body := "#x" + digits;
    assert body[0] == '#' && body[2..] == digits;
  }

  lemma DecimalBody(digits: string)
    requires digits != [] && ('0' <= digits[0] <= '9' || 'a' <= digits[0] <= 'f')
    ensures EntityText("#" + digits) == CharFrom(ParseU32(digits, 10))
  {
    var body := "#" + digits;
    assert body[0] == '#' && body[1] == digits[0] && body[1..] == digits;
    assert "#x"[1] == 'x' && "#X"[1] == 'X';
  }

  /** Every character can be written as its number, in hexadecimal. */
  lemma HexEntities(c: char, rest: string)
    ensures Parse(("&" + ("#x" + Numeral(c as nat, 16)) + ";") + rest) == [c] + Parse(rest)
  {
    var hex := Numeral(c as nat, 16);
    CodePointsAreShort(c as nat);
    NumeralIsChar(c, 16);
    HexBody(hex);
    ParseEntity("&" + ("#x" + hex) + ";", "#x" + hex, [c], rest);
  }

  /** ... and in decimal. */
  lemma DecimalEntities(c: char, rest: string)
    ensures Parse(("&" + ("#" + Numeral(c as nat, 10)) + ";") + rest) == [c] + Parse(rest)
  {
    var dec := Numeral(c as nat, 10);
    CodePointsAreShort(c as nat);
    NumeralIsChar(c, 10);
    DecimalBody(dec);
    ParseEntity("&" + ("#" + dec) + ";", "#" + dec, [c], rest);
  }

  lemma ParseBreak(rest: string)
    ensures Parse("<br>" + rest) == "\n" + Parse(rest)
  {
    var s := "<br>" + rest;
    assert Lower(s)[1] == 'b';
    assert AfterElement(s, "script") == s && AfterElement(s, "style") == s;
    var tag := Lower(s[..4]);
    assert s[3] == '>' && '>' !in s[..3];
    FindIs(s, '>', 3);
    assert tag == "<br>" && s[4..] == rest;
    assert TrimStart("<br>", '<') == "br>" by { assert "<br>"[1..] == "br>"; }
    assert Leading("br>") == "br" by {
      assert "br>"[1..] == "r>" && "r>"[1..] == ">";
      assert Leading(">") == "" && Leading("r>") == "r";
    }
  }

  /** One escaped character at the front reads as that character. */
  lemma ParseEscapedChar(c: char, rest: string)
    ensures Parse(EscapeChar(c) + rest) == [c] + Parse(rest)
  {
    match c
    case '&' => ParseEntity("&amp;", "amp", "&", rest);
    case '<' => ParseEntity("&lt;", "lt", "<", rest);
    case '>' => ParseEntity("&gt;", "gt", ">", rest);
    case '"' => ParseEntity("&quot;", "quot", "\"", rest);
    case '\n' => ParseBreak(rest);
    case _ => assert ([c] + rest)[1..] == rest;
  }

  /** Reading undoes escaping, so escaping loses nothing. */
  lemma {:induction false} ParseUndoesEscape(s: string)
    ensures Parse(Escape(s)) == s
  {
    if s != [] {
      ParseUndoesEscape(s[1..]);
      ParseEscapedChar(s[0], Escape(s[1..]));
    }
  }

  /** What goes out escaped comes back as itself, with its white space collapsed. */
  method ThereAndBack(s: string) returns (text: string)
    ensures text == Collapse(s, false, Nothing)
  {
    var html := EscapeHtml(s);
    ParseUndoesEscape(s);
    text := HtmlToText(html);
  }

  /** No angle bracket, quote or line break but in a line-break tag. */
  predicate Clean(t: string) {
    t != [] ==>
      if "<br>" <= t then Clean(t[4..])
      else t[0] != '<' && t[0] != '>' && t[0] != '"' && t[0] != '\n' && Clean(t[1..])
  }

  lemma {:induction false} PlainIsClean(plain: string, rest: string)
    requires forall i | 0 <= i < |plain| :: plain[i] != '<' && plain[i] != '>' && plain[i] != '"' && plain[i] != '\n'
    requires Clean(rest)
    ensures Clean(plain + rest)
  {
    if plain == [] {
      assert plain + rest == rest;
    } else {
      PlainIsClean(plain[1..], rest);
      assert (plain + rest)[1..] == plain[1..] + rest && (plain + rest)[0] == plain[0];
    }
  }

  /** Escaped text has none of the characters that escaping is for, and no line break but
      as a tag. */
  lemma {:induction false} EscapedIsClean(s: string)
    ensures Clean(Escape(s))
  {
    if s != [] {
      EscapedIsClean(s[1..]);
      if s[0] == '\n' {
        assert ("<br>" + Escape(s[1..]))[4..] == Escape(s[1..]);
      } else {
        PlainIsClean(EscapeChar(s[0]), Escape(s[1..]));
      }
    }
  }

  /* ---- elements ---- */

  /** A tag's name as it is looked up. */
  predicate IsName(name: string) {
    name != [] && forall i | 0 <= i < |name| :: 'a' <= name[i] <= 'z' || '0' <= name[i] <= '9'
  }

  /** The elements that are skipped, found by how their opening tags begin. */
  predicate IsSkipped(name: string) {
    "script" <= name || "style" <= name
  }

  function TagOf(name: string, closing: bool): string {
    (if closing then "</" else "<") + name + ">"
  }

  lemma {:induction false} NameLeads(name: string)
    requires forall i | 0 <= i < |name| :: IsAlphanumeric(name[i])
    ensures Leading(name + ">") == name
  {
    if name == [] {
      assert name + ">" == ">";
    } else {
      NameLeads(name[1..]);
      assert (name + ">")[1..] == name[1..] + ">";
    }
  }

  lemma NameOfTag(name: string, closing: bool)
    requires IsName(name)
    ensures Leading(TrimStart(TrimStart(TagOf(name, closing), '<'), '/')) == name
  {
    NameLeads(name);
    var tag := TagOf(name, closing);
    if closing {
      assert tag[1..] == "/" + name + ">" && ("/" + name + ">")[1..] == name + ">";
    } else {
      assert tag[1..] == name + ">";
    }
  }

  lemma NotSkipped(name: string, rest: string, word: string)
    requires IsName(name) && IsName(word) && !(word <= name)
    ensures !("<" + word <= Lower(TagOf(name, false) + rest))
  {
    var s := TagOf(name, false) + rest;
    if |name| < |word| {
      assert Lower(s)[|name| + 1] == '>' && ("<" + word)[|name| + 1] == word[|name|];
    } else {
      var i :| 0 <= i < |word| && word[i] != name[i];
      assert Lower(s)[i + 1] == name[i] && ("<" + word)[i + 1] == word[i];
    }
  }

  lemma NothingSkipped(name: string, closing: bool, rest: string)
    requires IsName(name) && (closing || !IsSkipped(name))
    ensures var s := TagOf(name, closing) + rest; AfterElement(s, "script") == s && AfterElement(s, "style") == s
  {
    var s := TagOf(name, closing) + rest;
    if closing {
      assert Lower(s)[1] == LowerChar(s[1]) == '/';
      assert ("<" + "script")[1] == 's' && ("<" + "style")[1] == 's';
    } else {
      NotSkipped(name, rest, "script");
      NotSkipped(name, rest, "style");
    }
  }

  /** A tag at the front leaves what it is for. */
  lemma TagReads(name: string, closing: bool, rest: string)
    requires IsName(name) && (closing || !IsSkipped(name))
    ensures Parse(TagOf(name, closing) + rest) == TagText(TagOf(name, closing)) + Parse(rest)
    ensures TagText(TagOf(name, closing)) ==
              if name == "br" || (closing && name in LINE_TAGS) || (!closing && name == "tr") then "\n"
              else if !closing && name in {"td", "th"} then " "
              else ""
  {
    var tag := TagOf(name, closing);
    var s, n := tag + rest, |tag|;
    NothingSkipped(name, closing, rest);
    assert s[n - 1] == '>' && '>' !in s[..n - 1];
    FindIs(s, '>', n - 1);
    assert s[..n] == tag && s[n..] == rest && Lower(tag) == tag;
    NameOfTag(name, closing);
    assert "</" <= tag <==> closing by { assert !closing ==> tag[1] == name[0]; }
  }

  predicate IsPlain(s: string) {
    '<' !in s && '&' !in s
  }

  predicate ReadsAt(k: int, s: string, text: string) {
    Parse(s) == text
  }

  /** `s` is read as `text`. The quantifier only keeps the definition folded. */
  ghost predicate Reads(s: string, text: string) {
    forall k :: ReadsAt(k, s, text)
  }

  lemma PlainCharacterReads(c: char, rest: string, text: string)
    requires Reads(rest, text) && c != '<' && c != '&'
    ensures Reads([c] + rest, [c] + text)
  {
    var s := [c] + rest;
    assert s[0] == c && s[1..] == rest;
    assert ReadsAt(0, rest, text);
  }

  lemma {:induction false} PlainTextReads(plain: string, rest: string, text: string)
    requires Reads(rest, text) && IsPlain(plain)
    ensures Reads(plain + rest, plain + text)
  {
    if plain == [] {
      assert plain + rest == rest && plain + text == text;
    } else {
      PlainTextReads(plain[1..], rest, text);
      PlainCharacterReads(plain[0], plain[1..] + rest, plain[1..] + text);
      assert plain + rest == [plain[0]] + (plain[1..] + rest);
      assert plain + text == [plain[0]] + (plain[1..] + text);
    }
  }

  lemma PlainReads(plain: string, rest: string)
    requires IsPlain(plain)
    ensures Parse(plain + rest) == plain + Parse(rest)
  {
    var text := Parse(rest);
    assert Reads(rest, text);
    PlainTextReads(plain, rest, text);
    assert ReadsAt(0, plain + rest, plain + text);
  }

  /** What stands around the text of an element. */
  function Opening(name: string): string {
    if name in {"br", "tr"} then "\n" else if name in {"td", "th"} then " " else ""
  }

  function Closing(name: string): string {
    if name == "br" || name in LINE_TAGS then "\n" else ""
  }

  /** A paragraph, heading or list item ends its line; a table row stands on lines of its
      own; a cell is set off by a blank; any other element leaves its text alone. */
  lemma ElementReads(name: string, plain: string, rest: string)
    requires IsName(name) && !IsSkipped(name) && IsPlain(plain)
    ensures Parse(TagOf(name, false) + (plain + (TagOf(name, true) + rest)))
            == Opening(name) + (plain + (Closing(name) + Parse(rest)))
  {
    TagReads(name, false, plain + (TagOf(name, true) + rest));
    PlainReads(plain, TagOf(name, true) + rest);
    TagReads(name, true, rest);
  }
}
