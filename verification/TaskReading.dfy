/**
 What the reading of a task document takes from any document, not only from one the Manager built
 (internal/runtime/process_control.go): which tags belong together, and which of the elements count.
 */
module TaskReading {
  import opened Wrappers
  import opened Text
  import opened Xml
  import opened TaskXml

  // ---- The action contract ---------------------------------------------------------------

  /** The same but for the case of ASCII letters. */
  predicate SameLetters(a: string, b: string) {
    |a| == |b| && forall i :: 0 <= i < |a| ==> Lower(a[i]) == Lower(b[i])
  }

  lemma {:induction false} ToLowerAt(s: string)
    ensures |ToLower(s)| == |s| && forall i :: 0 <= i < |s| ==> ToLower(s)[i] == Lower(s[i])
  {
    if s != "" {
      ToLowerAt(s[1..]);
    }
  }

  lemma SameLettersLower(a: string, b: string)
    ensures ToLower(a) == ToLower(b) <==> SameLetters(a, b)
  {
    ToLowerAt(a);
    ToLowerAt(b);
    if ToLower(a) == ToLower(b) {
      forall i | 0 <= i < |a|
        ensures Lower(a[i]) == Lower(b[i])
      {
        assert ToLower(a)[i] == ToLower(b)[i];
      }
    }
  }

  /** What stands at the end, without a separator, and behind one unless it is all there is. */
  predicate IsBase(s: string, base: string) {
    && |base| <= |s| && s[|s| - |base|..] == base && (forall i :: 0 <= i < |base| ==> !IsSeparator(base[i]))
    && (|base| < |s| ==> IsSeparator(s[|s| - |base| - 1]))
  }

  lemma BaseOneMore(front: string, base: string, c: char)
    requires IsBase(front, base) && !IsSeparator(c)
    ensures IsBase(front + [c], base + [c])
  {
  }

  lemma BaseFromFront(s: string, base: string, front: string, frontBase: string)
    requires s != "" && front == s[..|s| - 1] && !IsSeparator(s[|s| - 1])
    requires IsBase(front, frontBase) && base == frontBase + [s[|s| - 1]]
    ensures IsBase(s, base)
  {
    BaseOneMore(front, frontBase, s[|s| - 1]);
    assert s == front + [s[|s| - 1]];
  }

  lemma NoBase(s: string)
    requires s == "" || IsSeparator(s[|s| - 1])
    ensures IsBase(s, "")
  {
  }

  lemma {:induction false} BaseNameIsBase(s: string)
    ensures IsBase(s, BaseName(s))
  {
    if s == "" || IsSeparator(s[|s| - 1]) {
      NoBase(s);
    } else {
      var front := s[..|s| - 1];
      BaseNameIsBase(front);
      BaseFromFront(s, BaseName(s), front, BaseName(front));
    }
  }

  /** The file name is what follows the last separator. */
  lemma BaseNameExactly(s: string)
    ensures |BaseName(s)| <= |s| && s[|s| - |BaseName(s)|..] == BaseName(s)
    ensures forall i :: |s| - |BaseName(s)| <= i < |s| ==> !IsSeparator(s[i])
    ensures |BaseName(s)| < |s| ==> IsSeparator(s[|s| - |BaseName(s)| - 1])
  {
    BaseNameIsBase(s);
    NoSeparatorsBehind(s, BaseName(s));
  }

  lemma NoSeparatorsBehind(s: string, base: string)
    requires IsBase(s, base)
    ensures forall i :: |s| - |base| <= i < |s| ==> !IsSeparator(s[i])
  {
    var k := |s| - |base|;
    forall i | k <= i < |s|
      ensures !IsSeparator(s[i])
    {
      assert base[i - k] == s[k..][i - k];
    }
  }

  /** The command may be the Manager's own: an absolute path on a drive, trimmed, without quotes or control
      characters, whose last part is one of its two file names in any case; with the one fixed argument. */
  predicate IsOwnAction(command: string, arguments: string) {
    && command == TrimSpace(command) && arguments == "--autostart-gateway"
    && (forall i :: 0 <= i < |command| ==> command[i] !in {'\0', '\r', '\n', '\t', '"'})
    && |command| >= 3 && 'a' <= Lower(command[0]) <= 'z' && command[1] == ':' && command[2] in {'\\', '/'}
    && exists k :: 2 < k <= |command| && IsLastPart(command, k) && IsOwnName(command[k..])
  }

  predicate IsLastPart(s: string, k: nat) {
    0 < k <= |s| && IsSeparator(s[k - 1]) && forall i :: k <= i < |s| ==> !IsSeparator(s[i])
  }

  predicate IsOwnName(name: string) {
    SameLetters(name, "longhubmanager.exe") || SameLetters(name, "longhub-manager.exe")
  }

  predicate IsLowerWord(word: string) {
    forall i :: 0 <= i < |word| ==> !('A' <= word[i] <= 'Z')
  }

  lemma OneName(name: string, own: string)
    requires IsLowerWord(own)
    ensures ToLower(name) == own <==> SameLetters(name, own)
  {
    ToLowerAt(own);
    assert ToLower(own) == own;
    SameLettersLower(name, own);
  }

  lemma OwnNameExactly(name: string)
    ensures ToLower(name) in {"longhubmanager.exe", "longhub-manager.exe"} <==> IsOwnName(name)
  {
    OneName(name, "longhubmanager.exe");
    OneName(name, "longhub-manager.exe");
  }

  lemma LastPartIs(command: string, k: nat)
    requires |command| >= 3 && IsSeparator(command[2])
    ensures 2 < k <= |command| && IsLastPart(command, k) <==> k == |command| - |BaseName(command)|
  {
    BaseNameExactly(command);
  }

  lemma ControlsExactly(command: string)
    ensures !ContainsAny(command, {'\0', '\r', '\n', '\t', '"'}) <==>
      forall i :: 0 <= i < |command| ==> command[i] !in {'\0', '\r', '\n', '\t', '"'}
  {
  }

  lemma FixedArgument()
    ensures ARGUMENTS == TrimSpace(ARGUMENTS) == "--autostart-gateway"
  {
    assert ARGUMENTS[0] == '-' && ARGUMENTS[|ARGUMENTS| - 1] == 'y';
  }

  lemma ActionExactly(command: string, arguments: string)
    ensures ValidAction(command, arguments) <==> IsOwnAction(command, arguments)
  {
    FixedArgument();
    ControlsExactly(command);
    if IsAbsoluteWindowsPath(command) {
      BaseNameExactly(command);
      var k := |command| - |BaseName(command)|;
      LastPartIs(command, k);
      OwnNameExactly(BaseName(command));
      if j :| 2 < j <= |command| && IsLastPart(command, j) && IsOwnName(command[j..]) {
        LastPartIs(command, j);
      }
    }
  }

  // ---- The task path ---------------------------------------------------------------------

  function Slanted(c: char): char {
    if c == '/' then '\\' else c
  }

  lemma {:induction false} BackslashesAt(s: string)
    ensures |Backslashes(s)| == |s| && forall i :: 0 <= i < |s| ==> Backslashes(s)[i] == Slanted(s[i])
  {
    if s != "" {
      BackslashesAt(s[1..]);
    }
  }

  /** The path that is read is the expected one, but for case and the slant of its separators. */
  predicate IsSamePath(actual: string, expected: string) {
    && actual == TrimSpace(actual) && actual != "" && |actual| == |expected|
    && forall i :: 0 <= i < |actual| ==> Lower(Slanted(actual[i])) == Lower(Slanted(expected[i]))
  }

  lemma PathExactly(actual: string, expected: string)
    requires expected == TrimSpace(expected)
    ensures PathEqual(actual, expected) <==> IsSamePath(actual, expected)
  {
    BackslashesAt(actual);
    BackslashesAt(expected);
    SameLettersLower(Backslashes(actual), Backslashes(expected));
  }

  // ---- Tags ------------------------------------------------------------------------------

  function WithoutDeclarations(tokens: seq<Token>): seq<Token> {
    if tokens == [] then []
    else (if tokens[0].Declaration? then [] else [tokens[0]]) + WithoutDeclarations(tokens[1..])
  }

  /** A tree is read only from its own tokens: every opening tag has its closing tag, in order, with
      nothing left out and nothing added but declarations. */
  lemma {:induction false} TreeIsItsTokens(tokens: seq<Token>)
    requires ParseNodes(tokens).Some?
    ensures var (nodes, rest) := ParseNodes(tokens).value;
      WithoutDeclarations(tokens) == TokensAll(nodes) + WithoutDeclarations(rest)
    decreases |tokens|
  {
    var (nodes, rest) := ParseNodes(tokens).value;
    if tokens != [] && !tokens[0].Close? {
      if tokens[0].Open? {
        ElementIsItsTokens(tokens);
      } else {
        TreeIsItsTokens(tokens[1..]);
      }
    }
  }

  lemma {:induction false} ElementIsItsTokens(tokens: seq<Token>)
    requires tokens != [] && tokens[0].Open? && ParseNodes(tokens).Some?
    ensures var (nodes, rest) := ParseNodes(tokens).value;
      WithoutDeclarations(tokens) == TokensAll(nodes) + WithoutDeclarations(rest)
    decreases |tokens|, 0
  {
    var (inside, behind) := ParseNodes(tokens[1..]).value;
    TreeIsItsTokens(tokens[1..]);
    TreeIsItsTokens(behind[1..]);
    var (others, rest) := ParseNodes(behind[1..]).value;
    ElementTokens(tokens[0], WithoutDeclarations(tokens[1..]), inside, others, WithoutDeclarations(behind[1..]),
                  WithoutDeclarations(rest));
  }

  lemma ElementTokens(
      open: Token, all: seq<Token>, inside: seq<Node>, others: seq<Node>, behind: seq<Token>, rest: seq<Token>)
    requires open.Open? && all == TokensAll(inside) + ([Close(open.name)] + behind) && behind == TokensAll(others) + rest
    ensures [open] + all == TokensAll([Element(open.name, open.attributes, inside)] + others) + rest
  {
    var nodes := [Element(open.name, open.attributes, inside)] + others;
    assert nodes[1..] == others;
    assert TokensAll(nodes) == [open] + TokensAll(inside) + [Close(open.name)] + TokensAll(others);
  }

  // ---- Elements by name ------------------------------------------------------------------

  predicate NamedAt(nodes: seq<Node>, name: string, k: nat) {
    k < |nodes| && nodes[k].Element? && nodes[k].name == name
  }

  lemma NamedBehind(nodes: seq<Node>, name: string, from: nat, k: nat)
    requires from <= |nodes|
    ensures NamedAt(nodes[from..], name, k) ==> NamedAt(nodes, name, from + k)
  {
  }

  lemma NamedBefore(nodes: seq<Node>, name: string, to: nat, k: nat)
    requires to <= |nodes|
    ensures NamedAt(nodes[..to], name, k) ==> NamedAt(nodes, name, k) && nodes[..to][k] == nodes[k]
  {
  }

  /** The element at `k` stands among those of its name, before those behind it. */
  lemma {:induction false} NamedSplits(nodes: seq<Node>, name: string, k: nat)
    requires NamedAt(nodes, name, k)
    ensures Named(nodes, name) == Named(nodes[..k], name) + [nodes[k]] + Named(nodes[k + 1..], name)
  {
    if k > 0 {
      NamedSplits(nodes[1..], name, k - 1);
      assert nodes[1..][..k - 1] == nodes[..k][1..] && nodes[1..][k..] == nodes[k + 1..];
    }
  }

  lemma {:induction false} NoneNamed(nodes: seq<Node>, name: string)
    ensures Named(nodes, name) == [] <==> forall k :: 0 <= k < |nodes| ==> !NamedAt(nodes, name, k)
  {
    if nodes != [] {
      NoneNamed(nodes[1..], name);
      assert forall k :: 0 <= k < |nodes[1..]| ==> (NamedAt(nodes[1..], name, k) <==> NamedAt(nodes, name, k + 1));
      if Named(nodes, name) == [] {
        forall k | 0 <= k < |nodes|
          ensures !NamedAt(nodes, name, k)
        {
          assert k > 0 ==> !NamedAt(nodes[1..], name, k - 1);
        }
      } else {
        assert NamedAt(nodes, name, 0) || exists k :: 0 <= k < |nodes[1..]| && NamedAt(nodes[1..], name, k);
      }
    }
  }

  /** A field is the text of the last element of its name, and empty without one. */
  lemma FieldIsTheLast(nodes: seq<Node>, name: string, k: nat)
    requires NamedAt(nodes, name, k) && forall j :: k < j < |nodes| ==> !NamedAt(nodes, name, j)
    ensures Field(nodes, name) == TextOf(nodes[k].children)
  {
    var behind := nodes[k + 1..];
    NamedSplits(nodes, name, k);
    NoneNamed(behind, name);
    forall j: nat | j < |behind|
      ensures !NamedAt(behind, name, j)
    {
      NamedBehind(nodes, name, k + 1, j);
    }
  }

  // ---- The actions -----------------------------------------------------------------------


  /** An Exec in an Actions element of the task. */
  predicate ExecAt(nodes: seq<Node>, i: nat, j: nat) {
    NamedAt(nodes, "Actions", i) && NamedAt(nodes[i].children, "Exec", j)
  }

  lemma ExecBehind(nodes: seq<Node>, from: nat, k: nat, l: nat)
    requires from <= |nodes|
    ensures ExecAt(nodes[from..], k, l) ==> ExecAt(nodes, from + k, l)
  {
    NamedBehind(nodes, "Actions", from, k);
  }

  lemma ExecBefore(nodes: seq<Node>, to: nat, k: nat, l: nat)
    requires to <= |nodes|
    ensures ExecAt(nodes[..to], k, l) ==> ExecAt(nodes, k, l)
  {
    NamedBefore(nodes, "Actions", to, k);
  }

  lemma {:induction false} NamedOfTwo(a: seq<Node>, b: seq<Node>, name: string)
    ensures Named(a + b, name) == Named(a, name) + Named(b, name)
  {
    if a == [] {
      assert a + b == b;
    } else {
      NamedOfTwo(a[1..], b, name);
      assert (a + b)[1..] == a[1..] + b && (a + b)[0] == a[0];
      Grouped(if NamedAt(a, name, 0) then [a[0]] else [], Named(a[1..], name), Named(b, name));
    }
  }

  lemma Grouped(x: seq<Node>, y: seq<Node>, z: seq<Node>)
    ensures x + (y + z) == x + y + z
  {
  }

  lemma {:induction false} ChildrenOfTwo(a: seq<Node>, b: seq<Node>)
    ensures ChildrenOf(a + b) == ChildrenOf(a) + ChildrenOf(b)
  {
    if a == [] {
      assert a + b == b;
    } else {
      ChildrenOfTwo(a[1..], b);
      assert (a + b)[1..] == a[1..] + b;
    }
  }

  function ExecsIn(nodes: seq<Node>): seq<Node> {
    Named(ChildrenOf(Named(nodes, "Actions")), "Exec")
  }

  lemma ExecsSplit(nodes: seq<Node>, i: nat)
    requires NamedAt(nodes, "Actions", i)
    ensures ExecsIn(nodes) == ExecsIn(nodes[..i]) + Named(nodes[i].children, "Exec") + ExecsIn(nodes[i + 1..])
  {
    var before, here, behind := Named(nodes[..i], "Actions"), [nodes[i]], Named(nodes[i + 1..], "Actions");
    NamedSplits(nodes, "Actions", i);
    ChildrenOfTwo(before, here);
    ChildrenOfTwo(before + here, behind);
    assert here[1..] == [] && ChildrenOf(here) == nodes[i].children + [] == nodes[i].children;
    NamedOfTwo(ChildrenOf(before), nodes[i].children, "Exec");
    NamedOfTwo(ChildrenOf(before) + nodes[i].children, ChildrenOf(behind), "Exec");
  }

  /** Where there is one, the list is what stands before it, the element itself, and what follows. */
  lemma ExecIsListed(nodes: seq<Node>, i: nat, j: nat)
    requires ExecAt(nodes, i, j)
    ensures |ExecsIn(nodes)| >= 1
    ensures |ExecsIn(nodes)| == 1 ==> ExecsIn(nodes)[0] == nodes[i].children[j]
  {
    ExecsSplit(nodes, i);
    NamedSplits(nodes[i].children, "Exec", j);
  }

  lemma TwoExecsAreListed(nodes: seq<Node>, i: nat, j: nat, k: nat, l: nat)
    requires ExecAt(nodes, i, j) && ExecAt(nodes, k, l) && (i < k || (i == k && j < l))
    ensures |ExecsIn(nodes)| >= 2
  {
    ExecsSplit(nodes, i);
    NamedSplits(nodes[i].children, "Exec", j);
    if i < k {
      assert nodes[i + 1..][k - i - 1] == nodes[k];
      ExecIsListed(nodes[i + 1..], k - i - 1, l);
    } else {
      var behind := nodes[i].children[j + 1..];
      assert NamedAt(behind, "Exec", l - j - 1);
      NoneNamed(behind, "Exec");
    }
  }

  lemma {:induction false} ListedExecIsSomewhere(nodes: seq<Node>) returns (i: nat, j: nat)
    requires ExecsIn(nodes) != []
    ensures ExecAt(nodes, i, j)
  {
    var n := nodes[0];
    if NamedAt(nodes, "Actions", 0) && Named(n.children, "Exec") != [] {
      NoneNamed(n.children, "Exec");
      j :| 0 <= j < |n.children| && NamedAt(n.children, "Exec", j);
      i := 0;
    } else {
      if NamedAt(nodes, "Actions", 0) {
        ExecsSplit(nodes, 0);
        assert nodes[..0] == [] && ExecsIn([]) == [] && [] + [] + ExecsIn(nodes[1..]) == ExecsIn(nodes[1..]);
      } else {
        assert Named(nodes, "Actions") == Named(nodes[1..], "Actions");
      }
      var k;
      k, j := ListedExecIsSomewhere(nodes[1..]);
      i := k + 1;
    }
  }

  /** A document defines a task exactly when its element is a Task with one Exec in all its Actions; then
      command and arguments are that Exec's. A second Exec, anywhere, is refused. */
  lemma DefinitionExactly(root: Node)
    requires root.Element? && root.name == "Task"
    ensures DefinitionOf(root).Some? ==> exists i: nat, j: nat :: ExecAt(root.children, i, j)
    ensures forall i: nat, j: nat, k: nat, l: nat ::
      ExecAt(root.children, i, j) && ExecAt(root.children, k, l) && (i != k || j != l) ==> DefinitionOf(root).None?
    ensures forall i: nat, j: nat :: ExecAt(root.children, i, j) ==>
      DefinitionOf(root).None? ||
      (&& DefinitionOf(root).value.command == Field(root.children[i].children[j].children, "Command")
       && DefinitionOf(root).value.arguments == Field(root.children[i].children[j].children, "Arguments"))
  {
    var execs := ExecsIn(root.children);
    if DefinitionOf(root).Some? {
      var i, j := ListedExecIsSomewhere(root.children);
    }
    forall i: nat, j: nat, k: nat, l: nat |
      ExecAt(root.children, i, j) && ExecAt(root.children, k, l) && (i != k || j != l)
      ensures |execs| >= 2
    {
      if i < k || (i == k && j < l) {
        TwoExecsAreListed(root.children, i, j, k, l);
      } else {
        TwoExecsAreListed(root.children, k, l, i, j);
      }
    }
    forall i: nat, j: nat | ExecAt(root.children, i, j)
      ensures |execs| == 1 ==> execs[0] == root.children[i].children[j]
    {
      ExecIsListed(root.children, i, j);
    }
  }

  /** And with just one, there is a definition. */
  lemma OneExecIsEnough(root: Node, i: nat, j: nat)
    requires root.Element? && root.name == "Task" && ExecAt(root.children, i, j)
    requires forall k: nat, l: nat :: ExecAt(root.children, k, l) ==> k == i && l == j
    ensures DefinitionOf(root).Some?
  {
    var nodes := root.children;
    ExecsSplit(nodes, i);
    NamedSplits(nodes[i].children, "Exec", j);
    var children, before, behind := nodes[i].children, nodes[..i], nodes[i + 1..];
    forall k: nat, l: nat
      ensures !ExecAt(before, k, l)
    {
      ExecBefore(nodes, i, k, l);
    }
    forall k: nat, l: nat
      ensures !ExecAt(behind, k, l)
    {
      ExecBehind(nodes, i + 1, k, l);
    }
    NoExecs(before);
    NoExecs(behind);
    OnlyOneHere(children, j, (l: nat) => ExecAt(nodes, i, l));
  }

  lemma OnlyOneHere(children: seq<Node>, j: nat, here: nat -> bool)
    requires NamedAt(children, "Exec", j) && forall l: nat :: here(l) ==> l == j
    requires forall l: nat :: NamedAt(children, "Exec", l) ==> here(l)
    ensures Named(children, "Exec") == [children[j]]
  {
    var before, behind := children[..j], children[j + 1..];
    NamedSplits(children, "Exec", j);
    forall l: nat | l < j
      ensures !NamedAt(before, "Exec", l)
    {
      NamedBefore(children, "Exec", j, l);
    }
    forall l: nat | l < |behind|
      ensures !NamedAt(behind, "Exec", l)
    {
      NamedBehind(children, "Exec", j + 1, l);
    }
    NoneNamed(before, "Exec");
    NoneNamed(behind, "Exec");
  }

  lemma NoExecs(nodes: seq<Node>)
    ensures (forall k: nat, l: nat :: !ExecAt(nodes, k, l)) ==> ExecsIn(nodes) == []
  {
    if ExecsIn(nodes) != [] {
      var i, j := ListedExecIsSomewhere(nodes);
    }
  }
}
