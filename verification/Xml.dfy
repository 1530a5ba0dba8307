/**
 The part of Go's encoding/xml that the scheduled-task code leans on: escaping, tokens, element
 trees (sections 2.2 and 2.4 of XML 1.0), and printing in the form the task template has.
 */
module Xml {
  import opened Wrappers
  import opened Text

  // ---- Characters and escaping -----------------------------------------------------------

  predicate IsXmlChar(c: char) {
    var n := c as int;
    n == 9 || n == 10 || n == 13 || 0x20 <= n <= 0xD7FF || 0xE000 <= n <= 0xFFFD || n >= 0x1_0000
  }

  predicate IsXmlText(s: string) {
    forall i :: 0 <= i < |s| ==> IsXmlChar(s[i])
  }

  /** The reference EscapeText writes for a character, if it does not stand for itself. */
  function Reference(c: char): string {
    if c == '"' then "#34"
    else if c == '\'' then "#39"
    else if c == '&' then "amp"
    else if c == '<' then "lt"
    else if c == '>' then "gt"
    else if c == '\t' then "#x9"
    else if c == '\n' then "#xA"
    else if c == '\r' then "#xD"
    else ""
  }

  /** EscapeText, one character at a time; what XML cannot hold becomes the replacement character. */
  function EscapeChar(c: char): string {
    if Reference(c) != "" then "&" + Reference(c) + ";"
    else if !IsXmlChar(c) then "\U{FFFD}"
    else [c]
  }

  function Escape(s: string): string {
    if s == "" then "" else EscapeChar(s[0]) + Escape(s[1..])
  }

  function DigitValue(c: char): int {
    if '0' <= c <= '9' then c as int - '0' as int
    else if 'a' <= c <= 'f' then c as int - 'a' as int + 10
    else if 'A' <= c <= 'F' then c as int - 'A' as int + 10
    else 16
  }

  function Number(digits: string, base: int): Option<int> {
    if digits == "" then Some(0)
    else
      var d := DigitValue(digits[|digits| - 1]);
      var front := Number(digits[..|digits| - 1], base);
      if front.None? || d >= base then None else Some(front.value * base + d)
  }

  /** The character a reference between `&` and `;` stands for, if XML may hold it. */
  function Entity(name: string): Option<char> {
    if name == "lt" then Some('<')
    else if name == "gt" then Some('>')
    else if name == "amp" then Some('&')
    else if name == "apos" then Some('\'')
    else if name == "quot" then Some('"')
    else if |name| >= 2 && name[0] == '#' then
      var n := if name[1] == 'x' then (if |name| == 2 then None else Number(name[2..], 16)) else Number(name[1..], 10);
      if n.None? || !(0 <= n.value <= 0x10_FFFF) then None
      else if 0xD800 <= n.value < 0xE000 then Some('\U{FFFD}')
      else if IsXmlChar(n.value as char) then Some(n.value as char) else None
    else None
  }

  /** Character data: references resolved, line ends brought to a line feed. */
  function Unescape(raw: string): Option<string>
    decreases |raw|
  {
    if raw == "" then Some("")
    else if raw[0] == '&' then
      var k := IndexOf(raw, ';');
      if k == |raw| then None
      else
        var c := Entity(raw[1..k]);
        var rest := Unescape(raw[k + 1..]);
        if c.None? || rest.None? then None else Some([c.value] + rest.value)
    else if raw[0] == '\r' then
      var rest := Unescape(if |raw| >= 2 && raw[1] == '\n' then raw[2..] else raw[1..]);
      if rest.None? then None else Some("\n" + rest.value)
    else if !IsXmlChar(raw[0]) then None
    else
      var rest := Unescape(raw[1..]);
      if rest.None? then None else Some([raw[0]] + rest.value)
  }

  /** What EscapeText keeps of a string. */
  function Kept(s: string): string {
    if s == "" then "" else [if IsXmlChar(s[0]) then s[0] else '\U{FFFD}'] + Kept(s[1..])
  }

  lemma {:induction false} KeptText(s: string)
    ensures |Kept(s)| == |s| && IsXmlText(Kept(s))
    ensures Kept(s) == s <==> IsXmlText(s)
  {
    if s != "" {
      KeptText(s[1..]);
      assert s == [s[0]] + s[1..];
      var k := Kept(s[1..]);
      assert Kept(s)[1..] == k;
      forall i | 0 <= i < |s|
        ensures IsXmlChar(Kept(s)[i])
      {
        assert i == 0 || Kept(s)[i] == k[i - 1];
      }
      if IsXmlText(s) {
        assert forall i :: 0 <= i < |s[1..]| ==> s[1..][i] == s[i + 1];
      }
    }
  }

  lemma TwoDigits(a: char, b: char)
    requires '0' <= a <= '9' && '0' <= b <= '9'
    ensures Number([a, b], 10) == Some(DigitValue(a) * 10 + DigitValue(b))
  {
    assert [a, b][..1] == [a] && [a][..0] == "";
    assert Number([a], 10) == Some(DigitValue(a));
  }

  lemma OneDigit(a: char)
    requires DigitValue(a) < 16
    ensures Number([a], 16) == Some(DigitValue(a))
  {
    assert [a][..0] == "";
  }

  /** Every reference EscapeText writes resolves to its character. */
  lemma ReferenceResolves(c: char)
    requires Reference(c) != ""
    ensures Entity(Reference(c)) == Some(c)
    ensures forall i :: 0 <= i < |Reference(c)| ==> Reference(c)[i] != ';'
  {
    var r := Reference(c);
    if c == '"' || c == '\'' {
      TwoDigits(r[1], r[2]);
      assert r[1..] == [r[1], r[2]];
    } else if c in {'\t', '\n', '\r'} {
      OneDigit(r[2]);
      assert r[2..] == [r[2]];
    }
  }

  lemma UnescapeReference(r: string, rest: string)
    requires forall i :: 0 <= i < |r| ==> r[i] != ';'
    ensures var raw := "&" + r + ";" + rest;
      Unescape(raw) ==
        if Entity(r).None? || Unescape(rest).None? then None else Some([Entity(r).value] + Unescape(rest).value)
  {
    var raw := "&" + r + ";" + rest;
    var k := |r| + 1;
    assert raw[k] == ';' && forall i :: 0 <= i < k ==> raw[i] != ';';
    assert IndexOf(raw, ';') == k;
    assert raw[1..k] == r && raw[k + 1..] == rest;
  }

  lemma UnescapeOne(c: char, rest: string)
    requires Unescape(rest).Some?
    ensures Unescape(EscapeChar(c) + rest) ==
      Some([if IsXmlChar(c) then c else '\U{FFFD}'] + Unescape(rest).value)
  {
    if Reference(c) != "" {
      ReferenceResolves(c);
      UnescapeReference(Reference(c), rest);
    } else {
      assert (EscapeChar(c) + rest)[1..] == rest;
    }
  }

  /** Escaping then unescaping is the identity on XML text, and loses nothing but what XML cannot hold. */
  lemma {:induction false} UnescapeEscaped(s: string)
    ensures Unescape(Escape(s)) == Some(Kept(s))
    ensures IsXmlText(s) ==> Unescape(Escape(s)) == Some(s)
  {
    KeptText(s);
    if s != "" {
      UnescapeEscaped(s[1..]);
      UnescapeOne(s[0], Escape(s[1..]));
    }
  }

  /** Cannot open or close a tag, end a quoted value, or be taken for a raw line end. */
  predicate NoMarkup(s: string) {
    forall i :: 0 <= i < |s| ==>
      s[i] != '<' && s[i] != '>' && s[i] != '"' && s[i] != '\'' && s[i] != '\r' && s[i] != '\n' && s[i] != '\t'
  }

  lemma ReferenceHasNoMarkup(c: char)
    ensures NoMarkup(Reference(c))
  {
  }

  lemma EscapedCharHasNoMarkup(c: char)
    ensures NoMarkup(EscapeChar(c)) && EscapeChar(c) != ""
  {
    ReferenceHasNoMarkup(c);
  }

  /** No escaped text holds markup, whatever it escapes. */
  lemma {:induction false} EscapedHasNoMarkup(s: string)
    ensures NoMarkup(Escape(s))
    ensures Escape(s) == "" <==> s == ""
  {
    if s != "" {
      EscapedHasNoMarkup(s[1..]);
      EscapedCharHasNoMarkup(s[0]);
    }
  }

  // ---- Tokens ----------------------------------------------------------------------------

  datatype Token =
    | Open(name: string, attributes: string)
    | Close(name: string)
    | Characters(text: string)
    | Declaration(content: string)

  predicate IsNameChar(c: char) {
    'a' <= c <= 'z' || 'A' <= c <= 'Z' || '0' <= c <= '9' || c == '_' || c == '-' || c == '.' || c == ':' || c as int >= 0x80
  }

  predicate IsName(s: string) {
    && s != "" && !('0' <= s[0] <= '9') && s[0] != '-' && s[0] != '.'
    && forall i :: 0 <= i < |s| ==> IsNameChar(s[i])
  }

  predicate IsBlank(c: char) {
    c == ' ' || c == '\t' || c == '\n' || c == '\r'
  }

  function NameLength(s: string): (k: nat)
    ensures k <= |s|
    ensures forall i :: 0 <= i < k ==> IsNameChar(s[i])
    ensures k < |s| ==> !IsNameChar(s[k])
  {
    if s == "" || !IsNameChar(s[0]) then 0 else 1 + NameLength(s[1..])
  }

  predicate AllBlank(s: string) {
    forall i :: 0 <= i < |s| ==> IsBlank(s[i])
  }

  /** The tokens of a tag, given what stands between its angle brackets. */
  function TagTokens(body: string): Option<seq<Token>> {
    if body == "" || body[0] == '!' then None
    else if body[0] == '?' then
      if |body| < 2 || body[|body| - 1] != '?' then None else Some([Declaration(body[1..|body| - 1])])
    else if body[0] == '/' then
      var k := NameLength(body[1..]);
      var name := body[1..][..k];
      if !IsName(name) || !AllBlank(body[1..][k..]) then None else Some([Close(name)])
    else
      var closed := body[|body| - 1] == '/';
      var inner := if closed then body[..|body| - 1] else body;
      var k := NameLength(inner);
      var name, attributes := inner[..k], inner[k..];
      if !IsName(name) || (attributes != "" && !IsBlank(attributes[0])) || '<' in attributes then None
      else Some([Open(name, attributes)] + if closed then [Close(name)] else [])
  }

  /** `]]>` may not stand in character data. */
  predicate HasCDataEnd(s: string) {
    exists i :: 0 <= i && i + 2 < |s| && s[i] == ']' && s[i + 1] == ']' && s[i + 2] == '>'
  }

  function Joined(first: Option<seq<Token>>, rest: Option<seq<Token>>): Option<seq<Token>> {
    if first.None? || rest.None? then None else Some(first.value + rest.value)
  }

  function Lex(s: string): Option<seq<Token>>
    decreases |s|
  {
    if s == "" then Some([])
    else if s[0] == '<' then
      var k := IndexOf(s, '>');
      if k == |s| then None else Joined(TagTokens(s[1..k]), Lex(s[k + 1..]))
    else
      var k := IndexOf(s, '<');
      var text := Unescape(s[..k]);
      if text.None? || HasCDataEnd(s[..k]) then None
      else Joined(Some([Characters(text.value)]), Lex(s[k..]))
  }

  // ---- Trees -----------------------------------------------------------------------------

  /** `Layout` is character data printed as it is; what is read is always `Text`. */
  datatype Node =
    | Element(name: string, attributes: string, children: seq<Node>)
    | Text(text: string)
    | Layout(text: string)

  function Tag(body: string): string {
    "<" + body + ">"
  }

  function Print(node: Node): string {
    match node
    case Element(name, attributes, children) =>
      Tag(name + attributes) + PrintAll(children) + Tag("/" + name)
    case Text(text) => Escape(text)
    case Layout(text) => text
  }

  function PrintAll(nodes: seq<Node>): string {
    if nodes == [] then "" else Print(nodes[0]) + PrintAll(nodes[1..])
  }

  function Tokens(node: Node): seq<Token> {
    match node
    case Element(name, attributes, children) => [Open(name, attributes)] + TokensAll(children) + [Close(name)]
    case Text(text) => [Characters(text)]
    case Layout(text) => [Characters(text)]
  }

  function TokensAll(nodes: seq<Node>): seq<Token> {
    if nodes == [] then [] else Tokens(nodes[0]) + TokensAll(nodes[1..])
  }

  function Read(node: Node): Node {
    match node
    case Element(name, attributes, children) => Element(name, attributes, ReadAll(children))
    case Text(_) => node
    case Layout(text) => Text(text)
  }

  function ReadAll(nodes: seq<Node>): seq<Node> {
    if nodes == [] then [] else [Read(nodes[0])] + ReadAll(nodes[1..])
  }

  /** Nodes up to the first closing tag or the end; declarations are passed over. */
  function ParseNodes(tokens: seq<Token>): (r: Option<(seq<Node>, seq<Token>)>)
    ensures r.Some? ==> |r.value.1| <= |tokens| && (r.value.1 == [] || r.value.1[0].Close?)
    decreases |tokens|
  {
    if tokens == [] || tokens[0].Close? then Some(([], tokens))
    else
      match tokens[0]
      case Declaration(_) => ParseNodes(tokens[1..])
      case Characters(text) =>
        var rest := ParseNodes(tokens[1..]);
        if rest.None? then None else Some(([Text(text)] + rest.value.0, rest.value.1))
      case Open(name, attributes) =>
        var inner := ParseNodes(tokens[1..]);
        if inner.None? || inner.value.1 == [] || inner.value.1[0] != Close(name) then None
        else
          var rest := ParseNodes(inner.value.1[1..]);
          if rest.None? then None
          else Some(([Element(name, attributes, inner.value.0)] + rest.value.0, rest.value.1))
  }

  // ---- Printing and reading undo each other ----------------------------------------------

  /** Text that stands for itself between tags. */
  predicate IsRaw(s: string) {
    IsXmlText(s) && s != "" && forall i :: 0 <= i < |s| ==> s[i] != '<' && s[i] != '&' && s[i] != '\r' && s[i] != ']'
  }

  predicate IsAttributes(s: string) {
    && (s != "" ==> IsBlank(s[0]) && s[|s| - 1] != '/')
    && forall i :: 0 <= i < |s| ==> s[i] != '<' && s[i] != '>' && s[i] != '\0'
  }

  predicate Printable(node: Node) {
    match node
    case Element(name, attributes, children) => IsName(name) && IsAttributes(attributes) && PrintableAll(children)
    case Text(text) => IsXmlText(text) && text != ""
    case Layout(text) => IsRaw(text)
  }

  /** No two pieces of character data side by side: they would be read as one. */
  predicate PrintableAll(nodes: seq<Node>) {
    nodes == [] ||
    (&& Printable(nodes[0]) && PrintableAll(nodes[1..])
     && (nodes[0].Element? || |nodes| == 1 || nodes[1].Element?))
  }

  /** An element's tokens are read as that element, once its children and what follows are. */
  lemma ParseElement(name: string, attributes: string, inner: seq<Token>, kids: seq<Node>,
                     tail: seq<Token>, others: seq<Node>, rest: seq<Token>)
    requires ParseNodes(inner + ([Close(name)] + tail)) == Some((kids, [Close(name)] + tail))
    requires ParseNodes(tail) == Some((others, rest))
    ensures ParseNodes([Open(name, attributes)] + inner + [Close(name)] + tail) ==
      Some(([Element(name, attributes, kids)] + others, rest))
  {
    var tokens := [Open(name, attributes)] + inner + [Close(name)] + tail;
    assert tokens[1..] == inner + ([Close(name)] + tail);
    assert ([Close(name)] + tail)[1..] == tail;
  }

  lemma ParseCharacters(text: string, tail: seq<Token>, others: seq<Node>, rest: seq<Token>)
    requires ParseNodes(tail) == Some((others, rest))
    ensures ParseNodes([Characters(text)] + tail) == Some(([Text(text)] + others, rest))
  {
    assert ([Characters(text)] + tail)[1..] == tail;
  }

  lemma {:induction false} ParseTokens(nodes: seq<Node>, rest: seq<Token>)
    requires rest == [] || rest[0].Close?
    ensures ParseNodes(TokensAll(nodes) + rest) == Some((ReadAll(nodes), rest))
  {
    if nodes == [] {
      assert TokensAll(nodes) + rest == rest;
    } else {
      var node, tail := nodes[0], TokensAll(nodes[1..]) + rest;
      assert TokensAll(nodes) + rest == Tokens(node) + tail;
      ParseTokens(nodes[1..], rest);
      if node.Element? {
        ParseTokens(node.children, [Close(node.name)] + tail);
        ParseElement(node.name, node.attributes, TokensAll(node.children), ReadAll(node.children),
          tail, ReadAll(nodes[1..]), rest);
      } else {
        ParseCharacters(node.text, tail, ReadAll(nodes[1..]), rest);
      }
    }
  }

  lemma IndexIs(s: string, c: char, k: nat)
    requires k <= |s| && (forall i :: 0 <= i < k ==> s[i] != c) && (k < |s| ==> s[k] == c)
    ensures IndexOf(s, c) == k
  {
  }

  lemma NameIs(s: string, k: nat)
    requires k <= |s| && (forall i :: 0 <= i < k ==> IsNameChar(s[i])) && (k < |s| ==> !IsNameChar(s[k]))
    ensures NameLength(s) == k
  {
  }

  lemma LexTag(body: string, rest: string)
    requires forall i :: 0 <= i < |body| ==> body[i] != '>'
    ensures Lex(Tag(body) + rest) == Joined(TagTokens(body), Lex(rest))
  {
    var s := Tag(body) + rest;
    IndexIs(s, '>', |body| + 1);
    assert s[1..|body| + 1] == body && s[|body| + 2..] == rest;
  }

  lemma OpenTagTokens(name: string, attributes: string)
    requires IsName(name) && IsAttributes(attributes)
    ensures TagTokens(name + attributes) == Some([Open(name, attributes)])
  {
    var body := name + attributes;
    NameIs(body, |name|);
    assert body[..|name|] == name && body[|name|..] == attributes;
    assert body[0] == name[0] && IsNameChar(body[0]);
    assert body[|body| - 1] == if attributes == "" then name[|name| - 1] else attributes[|attributes| - 1];
    assert attributes == "" ==> IsNameChar(name[|name| - 1]);
    assert '<' !in attributes;
    assert [Open(name, attributes)] + [] == [Open(name, attributes)];
  }

  lemma CloseTagTokens(name: string)
    requires IsName(name)
    ensures TagTokens("/" + name) == Some([Close(name)])
  {
    NameIs(name, |name|);
    assert ("/" + name)[1..] == name && name[..|name|] == name && name[|name|..] == "";
  }

  lemma JoinedTwice(a: seq<Token>, b: seq<Token>, rest: Option<seq<Token>>)
    ensures Joined(Some(a), Joined(Some(b), rest)) == Joined(Some(a + b), rest)
  {
    if rest.Some? {
      assert a + (b + rest.value) == a + b + rest.value;
    }
  }

  lemma LexCharacters(raw: string, text: string, rest: string)
    requires raw != "" && (forall i :: 0 <= i < |raw| ==> raw[i] != '<')
    requires Unescape(raw) == Some(text) && !HasCDataEnd(raw)
    requires rest == "" || rest[0] == '<'
    ensures Lex(raw + rest) == Joined(Some([Characters(text)]), Lex(rest))
  {
    IndexIs(raw + rest, '<', |raw|);
    assert (raw + rest)[..|raw|] == raw && (raw + rest)[|raw|..] == rest;
  }

  lemma {:induction false} UnescapeRaw(s: string)
    requires IsXmlText(s) && forall i :: 0 <= i < |s| ==> s[i] != '&' && s[i] != '\r'
    ensures Unescape(s) == Some(s)
  {
    if s != "" {
      UnescapeRaw(s[1..]);
      assert s == [s[0]] + s[1..];
    }
  }

  lemma LexOneText(node: Node, rest: string)
    requires Printable(node) && !node.Element? && (rest == "" || rest[0] == '<')
    ensures Lex(Print(node) + rest) == Joined(Some(Tokens(node)), Lex(rest))
  {
    if node.Text? {
      EscapedHasNoMarkup(node.text);
      UnescapeEscaped(node.text);
      LexCharacters(Escape(node.text), node.text, rest);
    } else {
      UnescapeRaw(node.text);
      LexCharacters(node.text, node.text, rest);
    }
  }

  lemma PrintStarts(nodes: seq<Node>, rest: string)
    requires nodes == [] || nodes[0].Element?
    requires rest == "" || rest[0] == '<'
    ensures PrintAll(nodes) + rest == "" || (PrintAll(nodes) + rest)[0] == '<'
  {
    if nodes == [] {
      assert PrintAll(nodes) + rest == rest;
    } else {
      assert Print(nodes[0])[0] == '<';
    }
  }

  lemma LexOpen(name: string, attributes: string, rest: string)
    requires IsName(name) && IsAttributes(attributes)
    ensures Lex(Tag(name + attributes) + rest) == Joined(Some([Open(name, attributes)]), Lex(rest))
  {
    OpenTagTokens(name, attributes);
    LexTag(name + attributes, rest);
  }

  lemma LexClose(name: string, rest: string)
    requires IsName(name)
    ensures Lex(Tag("/" + name) + rest) == Joined(Some([Close(name)]), Lex(rest))
  {
    CloseTagTokens(name);
    LexTag("/" + name, rest);
  }

  /** Reading `a` then `b` is reading `a + b`; said of any reader, so that none is unfolded. */
  lemma Chained(lex: string -> Option<seq<Token>>, a: string, b: string, c: string, ta: seq<Token>, tb: seq<Token>)
    requires lex(a + (b + c)) == Joined(Some(ta), lex(b + c)) && lex(b + c) == Joined(Some(tb), lex(c))
    ensures lex(a + b + c) == Joined(Some(ta + tb), lex(c))
  {
    assert a + (b + c) == a + b + c;
    JoinedTwice(ta, tb, lex(c));
  }

  lemma LexElement(name: string, attributes: string, kids: string, tokens: seq<Token>, rest: string)
    requires IsName(name) && IsAttributes(attributes)
    requires Lex(kids + (Tag("/" + name) + rest)) == Joined(Some(tokens), Lex(Tag("/" + name) + rest))
    ensures Lex(Tag(name + attributes) + kids + Tag("/" + name) + rest) ==
      Joined(Some([Open(name, attributes)] + tokens + [Close(name)]), Lex(rest))
  {
    var open, close := Tag(name + attributes), Tag("/" + name);
    LexOpen(name, attributes, kids + (close + rest));
    LexClose(name, rest);
    Chained(Lex, open, kids, close + rest, [Open(name, attributes)], tokens);
    Chained(Lex, open + kids, close, rest, [Open(name, attributes)] + tokens, [Close(name)]);
  }

  lemma LexNone(rest: string)
    ensures Lex(PrintAll([]) + rest) == Joined(Some([]), Lex(rest))
  {
    assert PrintAll([]) + rest == rest;
    if Lex(rest).Some? {
      assert [] + Lex(rest).value == Lex(rest).value;
    }
  }

  /** What is printed is read back token by token, whatever follows. */
  lemma {:induction false} LexPrinted(nodes: seq<Node>, rest: string)
    requires PrintableAll(nodes) && (rest == "" || rest[0] == '<')
    ensures Lex(PrintAll(nodes) + rest) == Joined(Some(TokensAll(nodes)), Lex(rest))
  {
    if nodes == [] {
      LexNone(rest);
    } else {
      var node, others := nodes[0], nodes[1..];
      var tail := PrintAll(others) + rest;
      LexPrinted(others, rest);
      if node.Element? {
        LexPrinted(node.children, Tag("/" + node.name) + tail);
        LexElement(node.name, node.attributes, PrintAll(node.children), TokensAll(node.children), tail);
      } else {
        assert others == [] || others[0].Element?;
        PrintStarts(others, rest);
        LexOneText(node, tail);
      }
      Chained(Lex, Print(node), PrintAll(others), rest, Tokens(node), TokensAll(others));
    }
  }

  lemma {:induction false} EscapedHasNoNul(s: string)
    ensures '\0' !in Escape(s)
  {
    if s != "" {
      EscapedHasNoNul(s[1..]);
      assert '\0' !in Reference(s[0]);
      assert '\0' !in EscapeChar(s[0]);
    }
  }

  lemma TagHasNoNul(name: string, attributes: string)
    requires IsName(name) && IsAttributes(attributes)
    ensures '\0' !in Tag(name + attributes) && '\0' !in Tag("/" + name)
  {
  }

  lemma {:induction false} PrintedHasNoNul(nodes: seq<Node>)
    requires PrintableAll(nodes)
    ensures '\0' !in PrintAll(nodes)
  {
    if nodes != [] {
      PrintedHasNoNul(nodes[1..]);
      match nodes[0] {
        case Element(name, attributes, children) =>
          PrintedHasNoNul(children);
          TagHasNoNul(name, attributes);
        case Text(text) => EscapedHasNoNul(text);
        case Layout(text) =>
      }
      assert '\0' !in Print(nodes[0]);
    }
  }

  /** Printing then reading gives back every element, attribute text and piece of character data, in order. */
  lemma ReadPrinted(nodes: seq<Node>)
    requires PrintableAll(nodes)
    ensures Lex(PrintAll(nodes)).Some?
    ensures ParseNodes(Lex(PrintAll(nodes)).value) == Some((ReadAll(nodes), []))
  {
    LexPrinted(nodes, "");
    assert PrintAll(nodes) + "" == PrintAll(nodes);
    assert TokensAll(nodes) + [] == TokensAll(nodes);
    ParseTokens(nodes, []);
  }
}
