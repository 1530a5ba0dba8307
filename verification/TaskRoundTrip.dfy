/** What is built is what is read (internal/runtime/process_control.go). */
module TaskRoundTrip {
  import opened Wrappers
  import opened Text
  import opened Unicode
  import opened TaskEncoding
  import opened Xml
  import opened TaskXml

  // ---- Reading a document back -----------------------------------------------------------

  lemma {:induction false} NamedInLines(children: seq<Node>, inner: nat, outer: nat, name: string)
    requires forall i :: 0 <= i < |children| ==> children[i].Element?
    ensures Named(ReadAll(Lines(children, inner, outer)), name) == Named(ReadAll(children), name)
  {
    var lines := Lines(children, inner, outer);
    if children == [] {
      assert lines[1..] == [];
    } else {
      NamedInLines(children[1..], inner, outer, name);
      assert lines[1..] == [children[0]] + Lines(children[1..], inner, outer);
      assert lines[1..][1..] == Lines(children[1..], inner, outer);
      assert ReadAll(lines) == [Text(lines[0].text)] + ([Read(children[0])] + ReadAll(lines[1..][1..]));
    }
  }

  lemma ReadTwo(a: Node, b: Node)
    ensures ReadAll([a]) == [Read(a)] && ReadAll([a, b]) == [Read(a), Read(b)]
  {
    assert [a, b][1..] == [b] && [a][1..] == [] && [b][1..] == [];
  }

  lemma NamedTwo(a: Node, b: Node, name: string)
    ensures Named([a, b], name) ==
      (if a.Element? && a.name == name then [a] else []) + (if b.Element? && b.name == name then [b] else [])
  {
    assert [a, b][1..] == [b] && [b][1..] == [];
    assert Named([b], name) == (if b.Element? && b.name == name then [b] else []) + Named([], name);
  }

  lemma OneTextField(nodes: seq<Node>, name: string, text: string)
    requires Named(nodes, name) == [Element(name, "", [Text(text)])]
    ensures Field(nodes, name) == text
  {
    assert [Text(text)][1..] == [];
    assert TextOf([]) == "" && text + "" == text;
  }

  lemma LeafRead(name: string, value: string)
    ensures Read(Leaf(name, value)) == Element(name, "", [Text(value)])
    ensures Read(Element(name, "", [Text(value)])) == Element(name, "", [Text(value)])
  {
    ReadTwo(Layout(value), Layout(value));
    ReadTwo(Text(value), Text(value));
  }

  /** The two fields of a block with two leaves of different names. */
  lemma TwoFields(first: Node, second: Node, indent: nat, a: string, x: string, b: string, y: string)
    requires Read(first) == Element(a, "", [Text(x)]) && Read(second) == Element(b, "", [Text(y)]) && a != b
    requires first.Element? && second.Element?
    ensures var nodes := ReadAll(Lines([first, second], indent + 2, indent)); Field(nodes, a) == x && Field(nodes, b) == y
  {
    NamedInLines([first, second], indent + 2, indent, a);
    NamedInLines([first, second], indent + 2, indent, b);
    ReadTwo(first, second);
    NamedTwo(Read(first), Read(second), a);
    NamedTwo(Read(first), Read(second), b);
    var nodes := ReadAll(Lines([first, second], indent + 2, indent));
    OneTextField(nodes, a, x);
    OneTextField(nodes, b, y);
  }

  lemma ChildrenOfOne(node: Node)
    requires node.Element?
    ensures ChildrenOf([node]) == node.children
  {
    assert [node][1..] == [] && ChildrenOf([]) == [];
    assert node.children + [] == node.children;
  }

  lemma NamedFour(a: Node, b: Node, c: Node, d: Node, name: string)
    requires a.Element? && b.Element? && c.Element? && d.Element?
    ensures Named([a, b, c, d], name) ==
      (if a.name == name then [a] else []) + ((if b.name == name then [b] else [])
        + ((if c.name == name then [c] else []) + (if d.name == name then [d] else [])))
  {
    NamedTwo(c, d, name);
    assert [a, b, c, d][1..] == [b, c, d] && [b, c, d][1..] == [c, d];
  }

  lemma TaskSections(t: Template, command: string)
    ensures var children := Read(Task(t, command)).children;
      && Named(children, "RegistrationInfo") == [Read(Registration(t))]
      && Named(children, "Actions") == [Read(Actions(t, command))]
  {
    var parts := [Registration(t), Triggers(t), Settings(t), Actions(t, command)];
    NamedInLines(parts, 2, 0, "RegistrationInfo");
    NamedInLines(parts, 2, 0, "Actions");
    var a, b, c, d := Read(parts[0]), Read(parts[1]), Read(parts[2]), Read(parts[3]);
    assert ReadAll(parts) == [a, b, c, d] by {
      assert parts[1..][1..] == [parts[2], parts[3]];
      ReadTwo(parts[2], parts[3]);
    }
    NamedFour(a, b, c, d, "RegistrationInfo");
    NamedFour(a, b, c, d, "Actions");
  }

  lemma RegistrationFields(t: Template)
    ensures Field(Read(Registration(t)).children, "Description") == t.marker
    ensures Field(Read(Registration(t)).children, "URI") == t.path
  {
    LeafRead("Description", t.marker);
    LeafRead("URI", t.path);
    TwoFields(Leaf("Description", t.marker), Leaf("URI", t.path), 2, "Description", t.marker, "URI", t.path);
  }

  lemma ExecFields(t: Template, command: string)
    ensures Field(Read(Exec(t, command)).children, "Command") == command
    ensures Field(Read(Exec(t, command)).children, "Arguments") == t.arguments
  {
    LeafRead("Command", command);
    LeafRead("Arguments", t.arguments);
    TwoFields(Element("Command", "", [Text(command)]), Leaf("Arguments", t.arguments), 4,
      "Command", command, "Arguments", t.arguments);
  }

  lemma ActionsHoldExec(t: Template, command: string)
    ensures Named(Read(Actions(t, command)).children, "Exec") == [Read(Exec(t, command))]
  {
    var exec := Exec(t, command);
    NamedInLines([exec], 4, 2, "Exec");
    ReadTwo(exec, exec);
    assert [Read(exec)][1..] == [];
  }

  lemma DefinitionOfTask(t: Template, command: string)
    ensures DefinitionOf(Read(Task(t, command))) == Some(Definition(t.path, t.marker, command, t.arguments))
  {
    TaskSections(t, command);
    ChildrenOfOne(Read(Registration(t)));
    ChildrenOfOne(Read(Actions(t, command)));
    RegistrationFields(t);
    ActionsHoldExec(t, command);
    ExecFields(t, command);
  }

  // ---- The whole document ----------------------------------------------------------------

  lemma {:induction false} NoDeclarations(nodes: seq<Node>, i: nat)
    requires i < |TokensAll(nodes)|
    ensures !TokensAll(nodes)[i].Declaration?
  {
    var first := Tokens(nodes[0]);
    if i >= |first| {
      NoDeclarations(nodes[1..], i - |first|);
    } else if nodes[0].Element? && 0 < i < |first| - 1 {
      NoDeclarations(nodes[0].children, i - 1);
      assert first[i] == TokensAll(nodes[0].children)[i - 1];
    }
  }

  predicate QuietEncoding(encoding: string) {
    forall i :: 0 <= i < |encoding| ==> encoding[i] != '"' && encoding[i] != '>' && encoding[i] != '\0'
  }

  lemma DeclaredHasNoAngle(encoding: string)
    requires QuietEncoding(encoding)
    ensures var body := "?" + Declared(encoding) + "?";
      && (forall i :: 0 <= i < |body| ==> body[i] != '>' && body[i] != '\0')
      && TagTokens(body) == Some([Token.Declaration(Declared(encoding))])
  {
    var content := Declared(encoding);
    VersionPartHasNoAngle();
    var body := "?" + content + "?";
    assert body[1..|body| - 1] == content;
  }

  lemma VersionPartHasNoAngle()
    ensures forall i :: 0 <= i < |VERSION_PART| ==> VERSION_PART[i] != '>' && VERSION_PART[i] != '\0'
  {
  }

  lemma LexOpening(encoding: string, rest: string)
    requires QuietEncoding(encoding)
    ensures Lex(Opening(encoding) + rest) == Joined(Some([Token.Declaration(Declared(encoding))]), Lex(rest))
  {
    DeclaredHasNoAngle(encoding);
    LexTag("?" + Declared(encoding) + "?", rest);
  }

  /** A document that declares any encoding but UTF-8 is refused, whatever follows the declaration. */
  lemma OtherEncodingIsRefused(encoding: string, rest: string)
    requires QuietEncoding(encoding) && !EncodingRead(encoding)
    ensures ReadDocument(Opening(encoding) + rest) == None
  {
    LexOpening(encoding, rest);
    DeclarationByEncoding(encoding);
    var tokens := Lex(Opening(encoding) + rest);
    if tokens.Some? {
      assert tokens.value[0] == Token.Declaration(Declared(encoding));
    }
  }

  lemma LexOne(node: Node)
    requires Printable(node) && node.Element?
    ensures Lex(Print(node)) == Some(TokensAll([node])) && Print(node) != "" && Print(node)[0] == '<'
  {
    assert PrintableAll([node]) && [node][1..] == [];
    LexPrinted([node], "");
    assert PrintAll([node]) + "" == Print(node);
    assert Lex("") == Some([]) && TokensAll([node]) + [] == TokensAll([node]);
  }

  lemma LexNewLine(rest: string)
    requires rest != "" && rest[0] == '<'
    ensures Lex("\n" + rest) == Joined(Some([Characters("\n")]), Lex(rest))
  {
    UnescapeRaw("\n");
    LexCharacters("\n", "\n", rest);
  }

  lemma Prefixed(lex: string -> Option<seq<Token>>, a: string, b: string, body: string,
                 ta: Token, tb: Token, tokens: seq<Token>)
    requires lex(a + (b + body)) == Joined(Some([ta]), lex(b + body))
    requires lex(b + body) == Joined(Some([tb]), lex(body)) && lex(body) == Some(tokens)
    ensures lex(a + (b + body)) == Some([ta, tb] + tokens)
  {
    assert [ta] + ([tb] + tokens) == [ta, tb] + tokens;
  }

  lemma LexDocument(t: Template, encoding: string, command: string)
    requires GoodTemplate(t) && IsXmlText(command) && command != "" && QuietEncoding(encoding)
    ensures Lex(Document(t, encoding, command)) ==
      Some([Token.Declaration(Declared(encoding)), Characters("\n")] + TokensAll([Task(t, command)]))
  {
    TaskIsPrintable(t, command);
    var task := Task(t, command);
    LexOne(task);
    LexNewLine(Print(task));
    LexOpening(encoding, "\n" + Print(task));
    Prefixed(Lex, Opening(encoding), "\n", Print(task),
      Token.Declaration(Declared(encoding)), Characters("\n"), TokensAll([task]));
  }

  lemma ParseDocument(declaration: string, node: Node)
    requires node.Element?
    ensures ParseNodes([Token.Declaration(declaration), Characters("\n")] + TokensAll([node])) ==
      Some(([Text("\n"), Read(node)], []))
  {
    ReadTwo(node, node);
    ParseTokens([node], []);
    assert TokensAll([node]) + [] == TokensAll([node]);
    ParseCharacters("\n", TokensAll([node]), [Read(node)], []);
    var tokens := [Token.Declaration(declaration), Characters("\n")] + TokensAll([node]);
    assert tokens[1..] == [Characters("\n")] + TokensAll([node]);
    assert [Text("\n")] + [Read(node)] == [Text("\n"), Read(node)];
  }

  lemma DocumentDeclarations(declaration: string, node: Node)
    requires DeclarationAccepted(declaration)
    ensures DeclarationsAccepted([Token.Declaration(declaration), Characters("\n")] + TokensAll([node]))
  {
    var tokens := [Token.Declaration(declaration), Characters("\n")] + TokensAll([node]);
    forall i | 0 <= i < |tokens| && tokens[i].Declaration?
      ensures DeclarationAccepted(tokens[i].content)
    {
      if i >= 2 {
        NoDeclarations([node], i - 2);
      }
    }
  }

  lemma OneElement(node: Node)
    requires node.Element?
    ensures Elements([Text("\n"), node]) == [node]
  {
    assert [Text("\n"), node][1..] == [node] && [node][1..] == [];
    assert Elements([node]) == [node] + Elements([]);
  }

  lemma TokensAreRead(declaration: string, node: Node)
    requires node.Element? && DeclarationAccepted(declaration)
    ensures ReadTokens([Token.Declaration(declaration), Characters("\n")] + TokensAll([node])) ==
      DefinitionOf(Read(node))
  {
    DocumentDeclarations(declaration, node);
    ParseDocument(declaration, node);
    OneElement(Read(node));
  }

  /** Any command of XML characters comes back from its document, with the fixed path, marker and arguments. */
  lemma DocumentIsRead(t: Template, encoding: string, command: string)
    requires GoodTemplate(t) && IsXmlText(command) && command != ""
    requires QuietEncoding(encoding) && EncodingRead(encoding)
    ensures ReadDocument(Document(t, encoding, command)) ==
      Some(Definition(t.path, t.marker, command, t.arguments))
  {
    LexDocument(t, encoding, command);
    DeclarationByEncoding(encoding);
    TokensAreRead(Declared(encoding), Task(t, command));
    DefinitionOfTask(t, command);
  }

  // ---- What XML cannot hold --------------------------------------------------------------

  lemma {:induction false} EscapeOfKept(s: string)
    ensures Escape(Kept(s)) == Escape(s)
  {
    if s != "" {
      EscapeOfKept(s[1..]);
      assert Kept(s)[1..] == Kept(s[1..]);
      assert EscapeChar('\U{FFFD}') == "\U{FFFD}";
    }
  }

  lemma {:induction false} LinesPrintAlike(a: seq<Node>, b: seq<Node>, inner: nat, outer: nat)
    requires |a| == |b| && forall i :: 0 <= i < |a| ==> Print(a[i]) == Print(b[i])
    ensures PrintAll(Lines(a, inner, outer)) == PrintAll(Lines(b, inner, outer))
  {
    if a != [] {
      LinesPrintAlike(a[1..], b[1..], inner, outer);
      FirstLine(a, inner, outer);
      FirstLine(b, inner, outer);
    }
  }

  lemma FirstLine(children: seq<Node>, inner: nat, outer: nat)
    requires children != []
    ensures PrintAll(Lines(children, inner, outer)) ==
      Print(Layout("\n" + Spaces(inner))) + (Print(children[0]) + PrintAll(Lines(children[1..], inner, outer)))
  {
    var lines := Lines(children, inner, outer);
    assert lines[1..] == [children[0]] + Lines(children[1..], inner, outer);
    assert lines[1..][1..] == Lines(children[1..], inner, outer);
  }

  lemma BlocksPrintAlike(name: string, attributes: string, a: seq<Node>, b: seq<Node>, indent: nat)
    requires |a| == |b| && forall i :: 0 <= i < |a| ==> Print(a[i]) == Print(b[i])
    ensures Print(Block(name, attributes, a, indent)) == Print(Block(name, attributes, b, indent))
  {
    LinesPrintAlike(a, b, indent + 2, indent);
  }

  lemma OnePrint(node: Node)
    ensures PrintAll([node]) == Print(node)
  {
    assert [node][1..] == [] && Print(node) + "" == Print(node);
  }

  lemma CommandsPrintAlike(command: string)
    ensures Print(Element("Command", "", [Text(Kept(command))])) == Print(Element("Command", "", [Text(command)]))
  {
    EscapeOfKept(command);
    OnePrint(Text(command));
    OnePrint(Text(Kept(command)));
  }

  /** The document of a command is that of what XML keeps of it. */
  lemma DocumentOfKept(t: Template, encoding: string, command: string)
    ensures Document(t, encoding, Kept(command)) == Document(t, encoding, command)
  {
    var kept, leaf := Kept(command), Leaf("Arguments", t.arguments);
    CommandsPrintAlike(command);
    BlocksPrintAlike("Exec", "", [Element("Command", "", [Text(kept)]), leaf],
      [Element("Command", "", [Text(command)]), leaf], 4);
    BlocksPrintAlike("Actions", t.actionsAttributes, [Exec(t, kept)], [Exec(t, command)], 2);
    BlocksPrintAlike("Task", t.taskAttributes,
      [Registration(t), Triggers(t), Settings(t), Actions(t, kept)],
      [Registration(t), Triggers(t), Settings(t), Actions(t, command)], 0);
  }

  /** So what is read is always what XML keeps of the command, and nothing else changes. */
  lemma DocumentIsReadAsKept(t: Template, encoding: string, command: string)
    requires GoodTemplate(t) && command != "" && QuietEncoding(encoding) && EncodingRead(encoding)
    ensures ReadDocument(Document(t, encoding, command)) ==
      Some(Definition(t.path, t.marker, Kept(command), t.arguments))
  {
    KeptText(command);
    DocumentOfKept(t, encoding, command);
    DocumentIsRead(t, encoding, Kept(command));
  }

  // ---- Building --------------------------------------------------------------------------

  lemma DocumentHasNoNul(t: Template, encoding: string, command: string)
    requires GoodTemplate(t) && command != "" && QuietEncoding(encoding)
    ensures '\0' !in Document(t, encoding, command)
    ensures Document(t, encoding, command) != "" && Document(t, encoding, command)[0] == '<'
  {
    KeptText(command);
    DocumentOfKept(t, encoding, command);
    var task := Task(t, Kept(command));
    TaskIsPrintable(t, Kept(command));
    assert PrintableAll([task]) && [task][1..] == [];
    PrintedHasNoNul([task]);
    assert PrintAll([task]) == Print(task) + "";
    DeclaredHasNoAngle(encoding);
  }

  lemma ParsedPlain(text: string)
    requires text != "" && text[0] == '<' && '\0' !in text && |EncodeUtf8(text)| <= MAX_XML_BYTES
    ensures ParseTaskXml(EncodeUtf8(text)) == ReadDocument(text)
  {
    Utf8Agrees(text);
    DecodeEncoded(text);
  }

  lemma Utf8IsRead()
    ensures QuietEncoding("UTF-8") && EncodingRead("UTF-8")
  {
    assert ToLower("UTF-8") == "utf-8";
  }

  lemma FixedPathIsEqual()
    ensures PathEqual(TASK_PATH, TASK_PATH)
  {
  }

  lemma MeantExactly(read: string, command: string)
    requires ValidAction(command, ARGUMENTS)
    ensures AsMeant(Definition(TASK_PATH, OWNER_MARKER, read, ARGUMENTS), command) <==> read == command
  {
    FixedPathIsEqual();
  }

  lemma BuiltIsParsed(t: Template, encoding: string, command: string)
    requires GoodTemplate(t) && command != "" && QuietEncoding(encoding) && EncodingRead(encoding)
    ensures var text := Document(t, encoding, command);
      ParseTaskXml(EncodeUtf8(text)) ==
        if |EncodeUtf8(text)| <= MAX_XML_BYTES then Some(Definition(t.path, t.marker, Kept(command), t.arguments))
        else None
  {
    var text := Document(t, encoding, command);
    if |EncodeUtf8(text)| <= MAX_XML_BYTES {
      DocumentHasNoNul(t, encoding, command);
      ParsedPlain(text);
      DocumentIsReadAsKept(t, encoding, command);
    }
  }

  lemma RereadExactly(parse: Bytes -> Option<Definition>, data: Bytes, command: string, kept: string)
    requires ValidAction(command, ARGUMENTS)
    requires parse(data) ==
      if |data| <= MAX_XML_BYTES then Some(Definition(TASK_PATH, OWNER_MARKER, kept, ARGUMENTS)) else None
    ensures Reread(parse, data, command) ==
      if |data| <= MAX_XML_BYTES && kept == command then Some(data) else None
  {
    MeantExactly(kept, command);
  }

  lemma BuildsFromExactly(t: Template, encoding: string, command: string)
    requires GoodTemplate(t) && QuietEncoding(encoding) && EncodingRead(encoding)
    requires t.path == TASK_PATH && t.marker == OWNER_MARKER && t.arguments == ARGUMENTS
    ensures var data := EncodeUtf8(Document(t, encoding, command));
      BuildFrom(t, encoding, command) ==
        if ValidAction(command, ARGUMENTS) && IsXmlText(command) && |data| <= MAX_XML_BYTES then Some(data) else None
  {
    if ValidAction(command, ARGUMENTS) {
      KeptText(command);
      BuiltIsParsed(t, encoding, command);
      RereadExactly(ParseTaskXml, EncodeUtf8(Document(t, encoding, command)), command, Kept(command));
    }
  }

  /** Building succeeds exactly for the commands the contract allows that XML can hold and that keep
      the document within the size the reader takes; what it yields is read as that very command. */
  lemma BuildsExactly(command: string)
    ensures BuildTaskXml(command).Some? <==>
      && ValidAction(command, ARGUMENTS) && IsXmlText(command)
      && |EncodeUtf8(Document(TEMPLATE, "UTF-8", command))| <= MAX_XML_BYTES
    ensures BuildTaskXml(command).Some? ==>
      ParseTaskXml(BuildTaskXml(command).value) == Some(Definition(TASK_PATH, OWNER_MARKER, command, ARGUMENTS))
  {
    TemplateIsGood();
    Utf8IsRead();
    BuildsFromExactly(TEMPLATE, "UTF-8", command);
    if BuildTaskXml(command).Some? {
      KeptText(command);
      BuiltIsParsed(TEMPLATE, "UTF-8", command);
    }
  }

  /** The marked forms of a text are read as its UTF-8. */
  lemma FormsAreReadAlike(text: string)
    requires text != "" && text[0] == '<' && '\0' !in text
    requires |EncodeUtf8(text)| + 3 <= MAX_XML_BYTES && |Utf16Bytes(text, true)| + 2 <= MAX_XML_BYTES
    ensures ParseTaskXml(UTF8_BOM + EncodeUtf8(text)) == ParseTaskXml(EncodeUtf8(text)) == ReadDocument(text)
    ensures ParseTaskXml(Bom16(true) + Utf16Bytes(text, true)) == ReadDocument(text)
    ensures ParseTaskXml(Bom16(false) + Utf16Bytes(text, false)) == ReadDocument(text)
  {
    EncodingsAgree(text);
    DecodeEncoded(text);
  }

  /** UTF-16 bytes of a document that declares any encoding but UTF-8 are refused: they are brought to
      UTF-8, but what they declare is not. */
  lemma OtherDeclarationIsRefused(encoding: string, rest: string, little: bool)
    requires QuietEncoding(encoding) && !EncodingRead(encoding)
    requires '\0' !in rest && |Utf16Bytes(Opening(encoding) + rest, little)| + 2 <= MAX_XML_BYTES
    ensures ParseTaskXml(Bom16(little) + Utf16Bytes(Opening(encoding) + rest, little)) == None
  {
    var text := Opening(encoding) + rest;
    DeclaredHasNoAngle(encoding);
    assert '\0' !in text;
    Utf16WithBomAgrees(text, little);
    DecodeEncoded(text);
    OtherEncodingIsRefused(encoding, rest);
  }

  /** The declaration Task Scheduler itself writes is such a one. */
  lemma Utf16IsOtherEncoding()
    ensures QuietEncoding("UTF-16") && !EncodingRead("UTF-16")
  {
    assert ToLower("UTF-16") == "utf-16";
  }

  /** So is the same document in UTF-8. */
  lemma OtherDeclarationIsRefusedInUtf8(encoding: string, rest: string)
    requires QuietEncoding(encoding) && !EncodingRead(encoding)
    requires '\0' !in rest && |EncodeUtf8(Opening(encoding) + rest)| <= MAX_XML_BYTES
    ensures ParseTaskXml(EncodeUtf8(Opening(encoding) + rest)) == None
  {
    DeclaredHasNoAngle(encoding);
    ParsedPlain(Opening(encoding) + rest);
    OtherEncodingIsRefused(encoding, rest);
  }
}
