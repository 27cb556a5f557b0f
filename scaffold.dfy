/** The scaffold parser: an indented outline of folder names becomes a tree
    of folders under a synthetic `JOB#_ProjectName` root.

    Each non-blank line is `(|  )* -- name`: its depth is the number of
    `|  ` markers in it and its name is the text after its last `--`,
    stripped. The parser keeps a stack of open folders; before each entry
    the stack is cut back to `depth + 1` folders, the entry becomes a child
    of the folder on top, and is then pushed.

    In the source the stack holds references to the nested dictionaries.
    Here the tree is a value, and the stack is the path of names `open` from
    the root to the innermost open folder: stack slot `k` of the source is
    the folder reached by `open[..k]`. The two agree because the open
    folders always form one chain down from the root (`HasPath(root, open)`,
    kept by the parser's loop), so cutting the stack is cutting the path. */
module Scaffold {
  import opened TextOps

  /** A folder and its sub-folders by name; a name occurs once among siblings. */
  datatype Node = Node(children: map<string, Node>)

  /** A folder location as the list of its path components. */
  type Path = seq<string>

  const Placeholder: string := "JOB#_ProjectName"
  const IndentMarker: string := "|  "
  const BranchMarker: string := "--"

  /** `line.count("|  ")`. */
  function Depth(line: string): nat
  {
    CountOccurrences(line, IndentMarker)
  }

  /** `line.split("--")[-1].strip()`. */
  function EntryName(line: string): string
  {
    Strip(Last(Split(line, BranchMarker)))
  }

  /** The folder reached from `n` by following `path`, if every step exists. */
  function Get(n: Node, path: Path): Option<Node>
  {
    if path == [] then Some(n)
    else if path[0] in n.children then Get(n.children[path[0]], path[1..])
    else None
  }

  predicate HasPath(n: Node, path: Path)
  {
    Get(n, path).Some?
  }

  /** `current_dict[name] = {}` where `current_dict` is the folder at `at`:
      the folder gets a new, empty child `name`, replacing any child of that name. */
  function AddChild(n: Node, at: Path, name: string): Node
  {
    if at == [] then Node(n.children[name := Node(map[])])
    else if at[0] in n.children then Node(n.children[at[0] := AddChild(n.children[at[0]], at[1..], name)])
    else n
  }

  /** The parser's variables between two lines: the tree built so far and the open path. */
  datatype ParserState = ParserState(root: Node, open: Path)

  const Start: ParserState := ParserState(Node(map[]), [])

  /** What one line of the outline does to the parser's state. */
  function Step(st: ParserState, line: string): ParserState
  {
    if IsBlank(line) then st
    else
      var depth := Depth(line);
      var kept := if depth < |st.open| then st.open[..depth] else st.open;
      var name := EntryName(line);
      ParserState(AddChild(st.root, kept, name), kept + [name])
  }

  function ParseLines(st: ParserState, lines: seq<string>): ParserState
    decreases |lines|
  {
    if lines == [] then st else ParseLines(Step(st, lines[0]), lines[1..])
  }

  /** The dictionary `parse_directory_structure` returns for `text`. */
  function ParseText(text: string): Node
  {
    Node(map[Placeholder := ParseLines(Start, Split(text, "\n")).root])
  }

  /** `parse_directory_structure`: never fails, and always returns the synthetic root alone at the top. */
  method Parse(text: string) returns (tree: Node)
    ensures tree == ParseText(text)
    ensures tree.children.Keys == {Placeholder}
  {
    var lines := Split(text, "\n");
    var root := Node(map[]);
    var open: Path := [];
    var i := 0;
    while i < |lines|
      invariant i <= |lines|
      invariant HasPath(root, open)
      invariant ParseLines(ParserState(root, open), lines[i..]) == ParseLines(Start, lines)
    {
      var line := lines[i];
      ghost var before := ParserState(root, open);
      ParseLinesStep(before, lines, i);
      if !IsBlank(line) {
        var depth := Depth(line);
        var name := EntryName(line);
        open := CutStack(open, depth);
        PrefixHasPath(root, before.open, |open|);
        AddChildHasPath(root, open, name);
        root := AddChild(root, open, name);
        open := open + [name];
      }
      assert ParserState(root, open) == Step(before, line);
      i := i + 1;
    }
    assert lines[i..] == [];
    tree := Node(map[Placeholder := root]);
  }

  /** Parsing the lines from `i` on is one step on line `i`, then the rest. */
  lemma ParseLinesStep(st: ParserState, lines: seq<string>, i: nat)
    requires i < |lines|
    ensures ParseLines(st, lines[i..]) == ParseLines(Step(st, lines[i]), lines[i + 1..])
  {
    assert lines[i..][1..] == lines[i + 1..];
  }

  /** The `while depth + 1 < len(stack): stack.pop()` loop. The stack holds
      `|open| + 1` folders; its bottom, the root, is never popped, and the
      folders kept are the first `depth` open ones below the root. */
  method CutStack(open: Path, depth: nat) returns (kept: Path)
    ensures kept == if depth < |open| then open[..depth] else open
  {
    kept := open;
    while depth + 1 < |kept| + 1
      invariant |kept| <= |open| && kept == open[..|kept|]
      invariant depth <= |kept| || kept == open
    {
      kept := kept[..|kept| - 1];
    }
  }

  /** `parsed["JOB#_ProjectName"]` followed by `.pop("JOB#_ProjectName", None)`:
      the folders of the outline's top level, less any top-level entry named like the placeholder. */
  function Unwrap(parsed: Node): Node
    requires Placeholder in parsed.children
  {
    Node(parsed.children[Placeholder].children - {Placeholder})
  }

  /** After unwrapping, the project's top-level folders are the outline's
      top-level entries, less any entry named like the placeholder. */
  lemma UnwrapParsed(text: string)
    ensures Placeholder !in Unwrap(ParseText(text)).children
    ensures Unwrap(ParseText(text)).children == ParseLines(Start, Split(text, "\n")).root.children - {Placeholder}
  {
  }

  // Lemmas about paths in a tree

  lemma {:induction false} PrefixHasPath(n: Node, path: Path, k: nat)
    requires HasPath(n, path) && k <= |path|
    ensures HasPath(n, path[..k])
  {
    if k > 0 {
      assert path[..k][1..] == path[1..][..k - 1];
      PrefixHasPath(n.children[path[0]], path[1..], k - 1);
    }
  }

  lemma {:induction false} GetAppend(n: Node, path: Path, x: string)
    ensures Get(n, path + [x]) ==
              if HasPath(n, path) && x in Get(n, path).value.children
              then Some(Get(n, path).value.children[x]) else None
  {
    if path != [] {
      assert (path + [x])[1..] == path[1..] + [x];
      if path[0] in n.children {
        GetAppend(n.children[path[0]], path[1..], x);
      }
    }
  }

  /** Adding a child changes the folder at `at` only by that child. */
  lemma {:induction false} GetAddChild(n: Node, at: Path, name: string)
    requires HasPath(n, at)
    ensures Get(AddChild(n, at, name), at) == Some(Node(Get(n, at).value.children[name := Node(map[])]))
  {
    if at != [] {
      GetAddChild(n.children[at[0]], at[1..], name);
    }
  }

  lemma AddChildHasPath(n: Node, at: Path, name: string)
    requires HasPath(n, at)
    ensures HasPath(AddChild(n, at, name), at + [name])
    ensures Get(AddChild(n, at, name), at + [name]) == Some(Node(map[]))
  {
    GetAddChild(n, at, name);
    GetAppend(AddChild(n, at, name), at, name);
  }

  /** Nothing outside the new child and the folders above it changes: every
      location that neither lies on the way to `at` nor inside `at + [name]`
      holds the same folder as before (or is missing, as before). */
  lemma {:induction false} AddChildFrame(n: Node, at: Path, name: string, q: Path)
    requires HasPath(n, at)
    requires !(q <= at) && !(at + [name] <= q)
    ensures Get(AddChild(n, at, name), q) == Get(n, q)
  {
    if at == [] {
      assert q != [] && q[0] != name;
    } else {
      assert q != [];
      if q[0] == at[0] {
        assert q == [q[0]] + q[1..] && at == [at[0]] + at[1..];
        assert at + [name] == [at[0]] + (at[1..] + [name]);
        AddChildFrame(n.children[at[0]], at[1..], name, q[1..]);
      }
    }
  }

  // What one line does

  /** One non-blank line adds exactly one folder. The open path is first cut
      back to at most `depth` names (the stack to `depth + 1` entries, never
      below the root), so a line that skips levels attaches to the last open
      folder; the new, empty folder becomes a child of the folder at the cut
      path, replacing any sibling of the same name (last write wins), every
      other child of that folder is kept, and the new folder is opened. */
  lemma StepAttaches(st: ParserState, line: string)
    requires HasPath(st.root, st.open) && !IsBlank(line)
    ensures var kept := if Depth(line) < |st.open| then Depth(line) else |st.open|;
            var parent := Get(st.root, st.open[..kept]);
            var st' := Step(st, line);
            && parent.Some?
            && |st'.open| == kept + 1
            && st'.open == st.open[..kept] + [EntryName(line)]
            && Get(st'.root, st.open[..kept]) == Some(Node(parent.value.children[EntryName(line) := Node(map[])]))
            && Get(st'.root, st'.open) == Some(Node(map[]))
  {
    var kept := if Depth(line) < |st.open| then Depth(line) else |st.open|;
    assert st.open[..kept] == if Depth(line) < |st.open| then st.open[..Depth(line)] else st.open;
    PrefixHasPath(st.root, st.open, kept);
    GetAddChild(st.root, st.open[..kept], EntryName(line));
    AddChildHasPath(st.root, st.open[..kept], EntryName(line));
  }

  /** A blank line changes nothing. */
  lemma StepSkipsBlank(st: ParserState, line: string)
    requires forall i :: 0 <= i < |line| ==> IsSpace(line[i])
    ensures Step(st, line) == st
  {
    BlankIffAllSpace(line);
  }

  /** The open folders always form a chain down from the root. */
  lemma {:induction false} ParseKeepsChain(st: ParserState, lines: seq<string>)
    requires HasPath(st.root, st.open)
    ensures HasPath(ParseLines(st, lines).root, ParseLines(st, lines).open)
    decreases |lines|
  {
    if lines != [] {
      if !IsBlank(lines[0]) {
        StepAttaches(st, lines[0]);
      }
      ParseKeepsChain(Step(st, lines[0]), lines[1..]);
    }
  }

  // The outline format

  /** A folder name the outline can hold: no surrounding blanks, no line
      break, and neither marker inside it (single `-` and `|` are allowed). */
  predicate PlainName(name: string)
  {
    && name != [] && !IsSpace(name[0]) && !IsSpace(name[|name| - 1])
    && !Contains(name, BranchMarker) && !Contains(name, IndentMarker) && '\n' !in name
  }

  /** The outline line for a folder `name` at depth `depth`. */
  function Line(depth: nat, name: string): string
  {
    Repeat(IndentMarker, depth) + BranchMarker + " " + name
  }

  lemma LineDepth(depth: nat, name: string)
    requires PlainName(name)
    ensures Depth(Line(depth, name)) == depth
  {
    var indent := Repeat(IndentMarker, depth);
    assert Line(depth, name) == indent + ("-- " + name);
    NotContainsAfter("-- ", name, IndentMarker);
    CountRepeated(IndentMarker, depth, "-- " + name);
  }

  lemma LineName(depth: nat, name: string)
    requires PlainName(name)
    ensures EntryName(Line(depth, name)) == name
  {
    var indent := Repeat(IndentMarker, depth);
    RepeatChars(IndentMarker, depth, '-');
    assert Line(depth, name) == indent + BranchMarker + (" " + name);
    NotContainsAfter(" ", name, BranchMarker);
    SplitAtFirst(indent, BranchMarker, " " + name, []);
    SplitWithoutOccurrence(" " + name, BranchMarker, []);
    assert [] + (" " + name) == " " + name;
    StripSpaceWord(name);
  }

  lemma LineNotBlank(depth: nat, name: string)
    ensures !IsBlank(Line(depth, name))
  {
    var indent := Repeat(IndentMarker, depth);
    var line := Line(depth, name);
    BlankIffAllSpace(line);
    assert line[|indent|] == '-';
  }

  /** The parser reads back the depth and the name an outline line was written with. */
  lemma LineRoundTrip(depth: nat, name: string)
    requires PlainName(name)
    ensures !IsBlank(Line(depth, name))
    ensures Depth(Line(depth, name)) == depth
    ensures EntryName(Line(depth, name)) == name
    ensures '\n' !in Line(depth, name)
  {
    LineDepth(depth, name);
    LineName(depth, name);
    LineNotBlank(depth, name);
    RepeatChars(IndentMarker, depth, '\n');
    assert Line(depth, name) == Repeat(IndentMarker, depth) + ("-- " + name);
  }

  lemma ChainFirst(a: string)
    requires PlainName(a)
    ensures Step(Start, Line(0, a)) == ParserState(Node(map[a := Node(map[])]), [a])
  {
    LineRoundTrip(0, a);
    StepAttaches(Start, Line(0, a));
  }

  lemma ChainSecond(a: string, b: string)
    requires PlainName(b)
    ensures Step(ParserState(Node(map[a := Node(map[])]), [a]), Line(1, b))
         == ParserState(Node(map[a := Node(map[b := Node(map[])])]), [a, b])
  {
    var st := ParserState(Node(map[a := Node(map[])]), [a]);
    LineRoundTrip(1, b);
    StepAttaches(st, Line(1, b));
    assert st.open[..1] == [a];
  }

  lemma ChainThird(a: string, b: string, c: string)
    requires PlainName(c)
    ensures Step(ParserState(Node(map[a := Node(map[b := Node(map[])])]), [a, b]), Line(2, c)).root
         == Node(map[a := Node(map[b := Node(map[c := Node(map[])])])])
  {
    var empty := Node(map[]);
    var st := ParserState(Node(map[a := Node(map[b := empty])]), [a, b]);
    LineRoundTrip(2, c);
    assert [a, b][1..] == [b] && [b][1..] == [];
    assert AddChild(empty, [], c) == Node(map[c := empty]);
    assert AddChild(Node(map[b := empty]), [b], c) == Node(map[b := Node(map[c := empty])]);
    assert AddChild(st.root, [a, b], c) == Node(map[a := Node(map[b := Node(map[c := empty])])]);
  }

  lemma ChainText(a: string, b: string, c: string)
    requires PlainName(a) && PlainName(b) && PlainName(c)
    ensures Split(Line(0, a) + "\n" + Line(1, b) + "\n" + Line(2, c), "\n") == [Line(0, a), Line(1, b), Line(2, c)]
  {
    LineRoundTrip(0, a);
    LineRoundTrip(1, b);
    LineRoundTrip(2, c);
    JoinThree(Line(0, a), Line(1, b), Line(2, c));
    SplitJoin([Line(0, a), Line(1, b), Line(2, c)], '\n');
  }

  lemma JoinThree(x: string, y: string, z: string)
    ensures Join([x, y, z], "\n") == x + "\n" + y + "\n" + z
  {
    assert [x, y, z][1..] == [y, z] && [y, z][1..] == [z];
    assert Join([y, z], "\n") == y + "\n" + z;
  }

  /** An outline of three lines, each one level deeper than the one before,
      gives a chain of three folders below the root; the outline
      `-- A / |  -- B / |  |  -- C` is the case `a, b, c := "A", "B", "C"`. */
  lemma {:induction false} ParseChain(a: string, b: string, c: string)
    requires PlainName(a) && PlainName(b) && PlainName(c)
    ensures ParseText(Line(0, a) + "\n" + Line(1, b) + "\n" + Line(2, c))
         == Node(map[Placeholder := Node(map[a := Node(map[b := Node(map[c := Node(map[])])])])])
  {
    var lines := [Line(0, a), Line(1, b), Line(2, c)];
    ChainText(a, b, c);
    ChainFirst(a);
    ChainSecond(a, b);
    ChainThird(a, b, c);
    var s1 := Step(Start, lines[0]);
    var s2 := Step(s1, lines[1]);
    var s3 := Step(s2, lines[2]);
    assert ParseLines(Start, lines) == ParseLines(s1, lines[1..]);
    assert ParseLines(s1, lines[1..]) == ParseLines(s2, lines[2..]);
    assert ParseLines(s2, lines[2..]) == ParseLines(s3, []);
  }

  /** The outline `-- A / |  -- B / |  |  -- C` parses to the chain root → A → B → C. */
  lemma ParseChainExample()
    ensures ParseText("-- A\n|  -- B\n|  |  -- C")
         == Node(map[Placeholder := Node(map["A" := Node(map["B" := Node(map["C" := Node(map[])])])])])
  {
    assert Repeat(IndentMarker, 2) == "|  |  ";
    assert Line(0, "A") + "\n" + Line(1, "B") + "\n" + Line(2, "C") == "-- A\n|  -- B\n|  |  -- C";
    ParseChain("A", "B", "C");
  }
}
