/**
 The one scheduled task the Manager registers: its document, and the reading of any such document
 (internal/runtime/process_control.go).
 */
module TaskXml {
  import opened Wrappers
  import opened Text
  import opened Unicode
  import opened TaskEncoding
  import opened Xml

  const TASK_PATH := "\\LongHub\\OpenClaw Gateway"
  const OWNER_MARKER := "longhub/manager-gateway/v2"
  const ARGUMENTS := "--autostart-gateway"

  datatype Definition = Definition(taskPath: string, ownerMarker: string, command: string, arguments: string)

  // ---- The action contract ---------------------------------------------------------------

  function Lower(c: char): char {
    if 'A' <= c <= 'Z' then ((c as int) + 32) as char else c
  }

  function ToLower(s: string): string {
    if s == "" then "" else [Lower(s[0])] + ToLower(s[1..])
  }

  predicate IsSeparator(c: char) {
    c == '\\' || c == '/'
  }

  /** What follows the last separator. */
  function BaseName(s: string): string {
    if s == "" || IsSeparator(s[|s| - 1]) then "" else BaseName(s[..|s| - 1]) + [s[|s| - 1]]
  }

  predicate IsAbsoluteWindowsPath(s: string) {
    |s| >= 3 && s[1] == ':' && IsSeparator(s[2]) && ('A' <= s[0] <= 'Z' || 'a' <= s[0] <= 'z')
  }

  predicate ValidAction(command: string, arguments: string) {
    && command == TrimSpace(command) && arguments == TrimSpace(arguments)
    && command != "" && !ContainsAny(command, {'\0', '\r', '\n', '\t', '"'}) && IsAbsoluteWindowsPath(command)
    && ToLower(BaseName(command)) in {"longhubmanager.exe", "longhub-manager.exe"}
    && arguments == ARGUMENTS
  }

  // ---- Reading ---------------------------------------------------------------------------

  predicate At(s: string, part: string, k: nat) {
    k + |part| <= |s| && forall i :: 0 <= i < |part| ==> s[k + i] == part[i]
  }

  /** The first place from `k` on where `part` occurs, or the length. */
  function Find(s: string, part: string, k: nat): (found: nat)
    requires k <= |s|
    ensures k <= found <= |s|
    decreases |s| - k
  {
    if k == |s| || At(s, part, k) then k else Find(s, part, k + 1)
  }

  /** A quoted parameter of an XML declaration, or "" where the decoder finds none. */
  function Parameter(content: string, name: string): string {
    var k := Find(content, name + "=", 0);
    var rest := if k + |name| + 1 <= |content| then content[k + |name| + 1..] else "";
    if rest == "" || (rest[0] != '\'' && rest[0] != '"') then ""
    else
      var end := IndexOf(rest[1..], rest[0]);
      if end == |rest[1..]| then "" else rest[1..][..end]
  }

  predicate IsXmlTarget(content: string) {
    |content| >= 3 && content[..3] == "xml" && (|content| == 3 || IsBlank(content[3]))
  }

  predicate VersionRead(version: string) {
    version == "" || version == "1.0"
  }

  /** The decoder has no reader for a declared encoding other than UTF-8. */
  predicate EncodingRead(encoding: string) {
    encoding == "" || ToLower(encoding) == "utf-8"
  }

  predicate DeclarationAccepted(content: string) {
    IsXmlTarget(content) ==>
      VersionRead(Parameter(content, "version")) && EncodingRead(Parameter(content, "encoding"))
  }

  predicate DeclarationsAccepted(tokens: seq<Token>) {
    forall i :: 0 <= i < |tokens| && tokens[i].Declaration? ==> DeclarationAccepted(tokens[i].content)
  }

  function Elements(nodes: seq<Node>): seq<Node> {
    if nodes == [] then []
    else (if nodes[0].Element? then [nodes[0]] else []) + Elements(nodes[1..])
  }

  /** The children named `name`, in order. */
  function Named(nodes: seq<Node>, name: string): seq<Node> {
    if nodes == [] then []
    else (if nodes[0].Element? && nodes[0].name == name then [nodes[0]] else []) + Named(nodes[1..], name)
  }

  /** The character data directly inside, nested elements passed over. */
  function TextOf(nodes: seq<Node>): string {
    if nodes == [] then ""
    else (if nodes[0].Text? then nodes[0].text else "") + TextOf(nodes[1..])
  }

  function ChildrenOf(nodes: seq<Node>): seq<Node> {
    if nodes == [] then []
    else (if nodes[0].Element? then nodes[0].children else []) + ChildrenOf(nodes[1..])
  }

  /** A string field takes the last element of its name. */
  function Field(nodes: seq<Node>, name: string): string {
    var found := Named(nodes, name);
    if found == [] || !found[|found| - 1].Element? then "" else TextOf(found[|found| - 1].children)
  }

  /** What is read from the one element a document has. */
  function DefinitionOf(root: Node): Option<Definition> {
    if !root.Element? || root.name != "Task" then None
    else
      var info := ChildrenOf(Named(root.children, "RegistrationInfo"));
      var execs := Named(ChildrenOf(Named(root.children, "Actions")), "Exec");
      if |execs| != 1 || !execs[0].Element? then None
      else Some(Definition(
        Field(info, "URI"), Field(info, "Description"),
        Field(execs[0].children, "Command"), Field(execs[0].children, "Arguments")))
  }

  /** One element and nothing after it but character data and declarations. */
  function ReadTokens(tokens: seq<Token>): Option<Definition> {
    if !DeclarationsAccepted(tokens) then None
    else
      var parsed := ParseNodes(tokens);
      if parsed.None? || parsed.value.1 != [] then None
      else
        var elements := Elements(parsed.value.0);
        if |elements| != 1 then None else DefinitionOf(elements[0])
  }

  function ReadDocument(text: string): Option<Definition> {
    var tokens := Lex(text);
    if tokens.None? then None else ReadTokens(tokens.value)
  }

  function ParseTaskXml(data: Bytes): Option<Definition> {
    var plain := Normalized(data);
    if plain.None? then None
    else
      var text := DecodeUtf8(plain.value);
      if text.None? then None else ReadDocument(text.value)
  }

  // ---- Building --------------------------------------------------------------------------

  predicate PathEqual(actual: string, expected: string) {
    && actual == TrimSpace(actual) && expected == TrimSpace(expected)
    && actual != "" && ToLower(Backslashes(actual)) == ToLower(Backslashes(expected))
  }

  function Backslashes(s: string): string {
    if s == "" then "" else [if s[0] == '/' then '\\' else s[0]] + Backslashes(s[1..])
  }

  /** What was read is what was meant. */
  predicate AsMeant(d: Definition, command: string) {
    && PathEqual(d.taskPath, TASK_PATH) && d.ownerMarker == OWNER_MARKER && d.command == command
    && ValidAction(d.command, d.arguments)
  }

  /** What was built, if it reads back as meant. */
  function Reread(parse: Bytes -> Option<Definition>, data: Bytes, command: string): Option<Bytes> {
    var read := parse(data);
    if read.None? || !AsMeant(read.value, command) then None else Some(data)
  }

  /** Built from a template, then read back and held against the same contract. */
  function BuildFrom(t: Template, encoding: string, command: string): Option<Bytes> {
    if !ValidAction(command, ARGUMENTS) then None
    else Reread(ParseTaskXml, EncodeUtf8(Document(t, encoding, command)), command)
  }

  function BuildTaskXml(command: string): Option<Bytes> {
    BuildFrom(TEMPLATE, "UTF-8", command)
  }

  // ---- The document ----------------------------------------------------------------------

  /** The fixed parts of the document; lists give element names with their text. */
  datatype Template = Template(
    marker: string, path: string, arguments: string, taskAttributes: string, actionsAttributes: string,
    trigger: seq<(string, string)>, settings: seq<(string, string)>, restart: seq<(string, string)>)

  const TASK_NAMESPACE_HOST := "http://schemas.microsoft.com/"
  const TASK_NAMESPACE_PATH := "windows/2004/02/mit/task"
  const TASK_ATTRIBUTES :=
    " version=\"1.2\" xmlns=\"" + TASK_NAMESPACE_HOST + TASK_NAMESPACE_PATH + "\""
  const ACTIONS_ATTRIBUTES := " Context=\"Author\""

  const TEMPLATE := Template(
    OWNER_MARKER, TASK_PATH, ARGUMENTS, TASK_ATTRIBUTES, ACTIONS_ATTRIBUTES,
    [("Enabled", "true")],
    [("MultipleInstancesPolicy", "IgnoreNew"),
     ("DisallowStartIfOnBatteries", "false"),
     ("StopIfGoingOnBatteries", "false"),
     ("AllowHardTerminate", "true"),
     ("StartWhenAvailable", "true"),
     ("AllowStartOnDemand", "true"),
     ("Enabled", "true"),
     ("Hidden", "false"),
     ("ExecutionTimeLimit", "PT0S")],
    [("Interval", "PT1M"), ("Count", "3")])

  function Spaces(n: nat): string {
    if n == 0 then "" else " " + Spaces(n - 1)
  }

  /** Children on lines of their own, indented by `inner`, and the closing tag by `outer`. */
  function Lines(children: seq<Node>, inner: nat, outer: nat): seq<Node> {
    if children == [] then [Layout("\n" + Spaces(outer))]
    else [Layout("\n" + Spaces(inner)), children[0]] + Lines(children[1..], inner, outer)
  }

  function Block(name: string, attributes: string, children: seq<Node>, indent: nat): Node {
    Element(name, attributes, Lines(children, indent + 2, indent))
  }

  function Leaf(name: string, value: string): Node {
    Element(name, "", [Layout(value)])
  }

  function Leaves(pairs: seq<(string, string)>): seq<Node> {
    if pairs == [] then [] else [Leaf(pairs[0].0, pairs[0].1)] + Leaves(pairs[1..])
  }

  function Registration(t: Template): Node {
    Block("RegistrationInfo", "", [Leaf("Description", t.marker), Leaf("URI", t.path)], 2)
  }

  function Triggers(t: Template): Node {
    Block("Triggers", "", [Block("LogonTrigger", "", Leaves(t.trigger), 4)], 2)
  }

  function Settings(t: Template): Node {
    Block("Settings", "", Leaves(t.settings) + [Block("RestartOnFailure", "", Leaves(t.restart), 4)], 2)
  }

  function Exec(t: Template, command: string): Node {
    Block("Exec", "", [Element("Command", "", [Text(command)]), Leaf("Arguments", t.arguments)], 4)
  }

  function Actions(t: Template, command: string): Node {
    Block("Actions", t.actionsAttributes, [Exec(t, command)], 2)
  }

  function Task(t: Template, command: string): Node {
    Block("Task", t.taskAttributes, [Registration(t), Triggers(t), Settings(t), Actions(t, command)], 0)
  }

  const VERSION_PART := "xml version=\"1.0\" "

  /** An XML 1.0 declaration of an encoding. */
  function Declared(encoding: string): string {
    VERSION_PART + "encoding=\"" + encoding + "\""
  }

  function Opening(encoding: string): string {
    Tag("?" + Declared(encoding) + "?")
  }

  function Document(t: Template, encoding: string, command: string): string {
    Opening(encoding) + ("\n" + Print(Task(t, command)))
  }

  // ---- The document can be printed -------------------------------------------------------

  predicate GoodPairs(pairs: seq<(string, string)>) {
    forall i :: 0 <= i < |pairs| ==> GoodPair(pairs[i])
  }

  predicate GoodTemplate(t: Template) {
    && IsRaw(t.marker) && IsRaw(t.path) && IsRaw(t.arguments)
    && IsAttributes(t.taskAttributes) && IsAttributes(t.actionsAttributes)
    && GoodPairs(t.trigger) && GoodPairs(t.settings) && GoodPairs(t.restart)
  }

  lemma {:induction false} SpacesAreBlank(n: nat)
    ensures |Spaces(n)| == n && forall i :: 0 <= i < n ==> Spaces(n)[i] == ' '
  {
    if n > 0 {
      SpacesAreBlank(n - 1);
    }
  }

  lemma NewLineIsRaw(n: nat)
    ensures IsRaw("\n" + Spaces(n))
  {
    SpacesAreBlank(n);
  }

  lemma OneLayout(nodes: seq<Node>)
    requires |nodes| == 1 && nodes[0].Layout? && IsRaw(nodes[0].text)
    ensures PrintableAll(nodes)
  {
    assert nodes[1..] == [] && PrintableAll(nodes[1..]);
    assert Printable(nodes[0]);
  }

  predicate PrintableElements(nodes: seq<Node>) {
    forall i :: 0 <= i < |nodes| ==> nodes[i].Element? && Printable(nodes[i])
  }

  lemma {:induction false} LinesArePrintable(children: seq<Node>, inner: nat, outer: nat)
    requires PrintableElements(children)
    ensures PrintableAll(Lines(children, inner, outer))
  {
    var lines := Lines(children, inner, outer);
    if children == [] {
      NewLineIsRaw(outer);
      OneLayout(lines);
    } else {
      NewLineIsRaw(inner);
      LinesArePrintable(children[1..], inner, outer);
      assert lines[1..] == [children[0]] + Lines(children[1..], inner, outer);
      assert lines[1..][1..] == Lines(children[1..], inner, outer);
      assert Printable(children[0]) && PrintableAll(lines[1..]);
    }
  }

  lemma BlockIsPrintable(name: string, attributes: string, children: seq<Node>, indent: nat)
    requires IsName(name) && IsAttributes(attributes) && PrintableElements(children)
    ensures Printable(Block(name, attributes, children, indent))
  {
    LinesArePrintable(children, indent + 2, indent);
  }

  lemma LeafIsPrintable(name: string, value: string)
    requires IsName(name) && IsRaw(value)
    ensures Printable(Leaf(name, value))
  {
    assert [Layout(value)][1..] == [];
  }

  lemma {:induction false} LeavesArePrintable(pairs: seq<(string, string)>)
    requires GoodPairs(pairs)
    ensures PrintableElements(Leaves(pairs))
  {
    if pairs != [] {
      LeafIsPrintable(pairs[0].0, pairs[0].1);
      LeavesArePrintable(pairs[1..]);
    }
  }

  lemma RegistrationIsPrintable(t: Template)
    requires GoodTemplate(t)
    ensures Printable(Registration(t))
  {
    LeafIsPrintable("Description", t.marker);
    LeafIsPrintable("URI", t.path);
    BlockIsPrintable("RegistrationInfo", "", [Leaf("Description", t.marker), Leaf("URI", t.path)], 2);
  }

  lemma TriggersIsPrintable(t: Template)
    requires GoodTemplate(t)
    ensures Printable(Triggers(t))
  {
    LeavesArePrintable(t.trigger);
    BlockIsPrintable("LogonTrigger", "", Leaves(t.trigger), 4);
    BlockIsPrintable("Triggers", "", [Block("LogonTrigger", "", Leaves(t.trigger), 4)], 2);
  }

  lemma SettingsIsPrintable(t: Template)
    requires GoodTemplate(t)
    ensures Printable(Settings(t))
  {
    LeavesArePrintable(t.settings);
    LeavesArePrintable(t.restart);
    BlockIsPrintable("RestartOnFailure", "", Leaves(t.restart), 4);
    BlockIsPrintable("Settings", "", Leaves(t.settings) + [Block("RestartOnFailure", "", Leaves(t.restart), 4)], 2);
  }

  lemma CommandIsPrintable(command: string)
    requires IsXmlText(command) && command != ""
    ensures Printable(Element("Command", "", [Text(command)]))
  {
    assert [Text(command)][1..] == [];
  }

  lemma ActionsIsPrintable(t: Template, command: string)
    requires GoodTemplate(t) && IsXmlText(command) && command != ""
    ensures Printable(Actions(t, command))
  {
    CommandIsPrintable(command);
    LeafIsPrintable("Arguments", t.arguments);
    BlockIsPrintable("Exec", "", [Element("Command", "", [Text(command)]), Leaf("Arguments", t.arguments)], 4);
    BlockIsPrintable("Actions", t.actionsAttributes, [Exec(t, command)], 2);
  }

  lemma TaskIsPrintable(t: Template, command: string)
    requires GoodTemplate(t) && IsXmlText(command) && command != ""
    ensures Printable(Task(t, command))
  {
    RegistrationIsPrintable(t);
    TriggersIsPrintable(t);
    SettingsIsPrintable(t);
    ActionsIsPrintable(t, command);
    BlockIsPrintable("Task", t.taskAttributes, [Registration(t), Triggers(t), Settings(t), Actions(t, command)], 0);
  }

  predicate GoodPair(pair: (string, string)) {
    IsName(pair.0) && IsRaw(pair.1)
  }

  lemma MarkerIsGood()
    ensures IsRaw(OWNER_MARKER)
  {
  }

  lemma PathIsGood()
    ensures IsRaw(TASK_PATH) && IsRaw(ARGUMENTS)
  {
  }

  predicate NoAngles(s: string) {
    forall i :: 0 <= i < |s| ==> s[i] != '<' && s[i] != '>' && s[i] != '\0'
  }

  lemma NamespaceHasNoAngles()
    ensures NoAngles(TASK_NAMESPACE_HOST) && NoAngles(TASK_NAMESPACE_PATH)
  {
  }

  lemma QuotedAttributes(first: string, host: string, path: string)
    requires first != "" && IsBlank(first[0]) && NoAngles(first) && NoAngles(host) && NoAngles(path)
    ensures IsAttributes(first + host + path + "\"")
  {
  }

  lemma AttributesAreGood()
    ensures IsAttributes(TASK_ATTRIBUTES) && IsAttributes(ACTIONS_ATTRIBUTES)
  {
    NamespaceHasNoAngles();
    QuotedAttributes(" version=\"1.2\" xmlns=\"", TASK_NAMESPACE_HOST, TASK_NAMESPACE_PATH);
  }

  lemma PolicyIsGood()
    ensures GoodPair(("MultipleInstancesPolicy", "IgnoreNew"))
  {
  }

  lemma BatteriesAreGood()
    ensures GoodPair(("DisallowStartIfOnBatteries", "false"))
    ensures GoodPair(("StopIfGoingOnBatteries", "false"))
  {
  }

  lemma AvailabilityIsGood()
    ensures GoodPair(("AllowHardTerminate", "true"))
    ensures GoodPair(("StartWhenAvailable", "true"))
    ensures GoodPair(("AllowStartOnDemand", "true"))
  {
  }

  lemma LimitsAreGood()
    ensures GoodPair(("Enabled", "true")) && GoodPair(("Hidden", "false")) && GoodPair(("ExecutionTimeLimit", "PT0S"))
    ensures GoodPair(("Interval", "PT1M")) && GoodPair(("Count", "3"))
  {
  }

  lemma TemplateIsGood()
    ensures GoodTemplate(TEMPLATE)
  {
    MarkerIsGood();
    PathIsGood();
    AttributesAreGood();
    PolicyIsGood();
    BatteriesAreGood();
    AvailabilityIsGood();
    LimitsAreGood();
  }

  // ---- The declaration -------------------------------------------------------------------

  lemma {:induction false} FindAt(s: string, part: string, from: nat, k: nat)
    requires from <= k < |s| && At(s, part, k)
    requires forall j :: from <= j < k ==> !At(s, part, j)
    ensures Find(s, part, from) == k
    decreases k - from
  {
    if from < k {
      FindAt(s, part, from + 1, k);
    }
  }

  lemma VersionPartLetters(j: nat)
    requires j < |VERSION_PART|
    ensures |VERSION_PART| == 18
    ensures VERSION_PART[j] == 'e' ==> j == 5
    ensures VERSION_PART[j] == 'v' ==> j == 4
    ensures VERSION_PART[6] == 'r'
  {
  }

  lemma DeclaredEncoding(encoding: string)
    requires '"' !in encoding
    ensures Parameter(Declared(encoding), "encoding") == encoding
  {
    var content := Declared(encoding);
    VersionPartLetters(0);
    assert At(content, "encoding=", 18);
    forall j | 0 <= j < 18
      ensures !At(content, "encoding=", j)
    {
      VersionPartLetters(j);
      assert content[j] == VERSION_PART[j] && content[6] == VERSION_PART[6];
      assert "encoding="[0] == 'e' && "encoding="[1] == 'n';
      assert content[j + 0] == 'e' ==> content[j + 1] != 'n';
    }
    FindAt(content, "encoding=", 0, 18);
    var rest := content[27..];
    assert rest == "\"" + encoding + "\"";
    assert rest[1..] == encoding + "\"";
    IndexIs(rest[1..], '"', |encoding|);
    assert "encoding" + "=" == "encoding=";
  }

  lemma DeclaredVersion(encoding: string)
    ensures Parameter(Declared(encoding), "version") == "1.0"
  {
    var content := Declared(encoding);
    assert VERSION_PART[4..12] == "version=" && VERSION_PART[12..17] == "\"1.0\"";
    assert At(content, "version=", 4);
    forall j | 0 <= j < 4
      ensures !At(content, "version=", j)
    {
      VersionPartLetters(j);
      assert content[j] == VERSION_PART[j] && "version="[0] == 'v';
      assert content[j + 0] != 'v';
    }
    FindAt(content, "version=", 0, 4);
    var rest := content[12..];
    assert rest[1..][..3] == VERSION_PART[13..16] && rest[1..][3] == VERSION_PART[16];
    assert forall i :: 0 <= i < 3 ==> rest[1..][i] == VERSION_PART[13 + i];
    IndexIs(rest[1..], '"', 3);
    assert "version" + "=" == "version=";
  }

  lemma DeclaredTarget(encoding: string)
    ensures IsXmlTarget(Declared(encoding))
  {
    VersionPartLetters(0);
    assert Declared(encoding)[..3] == VERSION_PART[..3] && Declared(encoding)[3] == VERSION_PART[3];
  }

  /** The decoder goes on exactly when UTF-8 is what is declared, in any case of letters. */
  lemma DeclarationByEncoding(encoding: string)
    requires '"' !in encoding
    ensures DeclarationAccepted(Declared(encoding)) <==> EncodingRead(encoding)
  {
    DeclaredEncoding(encoding);
    DeclaredVersion(encoding);
    DeclaredTarget(encoding);
  }
}
