/** The receipt layout language: its parser, and the wrapping of what it prints. */
module Layout {
  import opened Money

  datatype Error = ForbiddenVariable | ForbiddenBlock | UnclosedTag | UnmatchedEndfor | NestedLoop | MissingEndfor

  datatype Outcome<+T> = Ok(value: T) | Err(error: Error)

  /** A loop header names the item and the collection it runs over. */
  datatype Loop = Loop(item: string, collection: string)

  /** The regular expressions of the language: allowed expressions, loop headers, and what counts as white space. */
  datatype Grammar = Grammar(variable: string -> bool, header: string -> Option<Loop>, space: char -> bool)

  /** What one chunk of the split source is. */
  datatype Token = Text(text: string) | Variable(expression: string) | For(header: Loop) | EndFor | Bad(why: Error)

  datatype Node = TextNode(text: string) | VariableNode(expression: string) | LoopNode(header: Loop, children: seq<Node>)

  predicate StartsWith(s: string, mark: string) { |mark| <= |s| && s[..|mark|] == mark }
  predicate EndsWith(s: string, mark: string) { |mark| <= |s| && s[|s| - |mark|..] == mark }
  predicate Contains(s: string, mark: string) { exists i :: 0 <= i <= |s| && StartsWith(s[i..], mark) }

  function TrimLeft(s: string, space: char -> bool): string {
    if s != [] && space(s[0]) then TrimLeft(s[1..], space) else s
  }

  /** Without its trailing white space. */
  function TrimRight(s: string, space: char -> bool): (r: string)
    ensures r <= s && (forall i :: |r| <= i < |s| ==> space(s[i])) && (r != [] ==> !space(r[|r| - 1]))
  {
    if s != [] && space(s[|s| - 1]) then TrimRight(s[..|s| - 1], space) else s
  }

  /** What is between the tag marks. */
  function Inside(g: Grammar, chunk: string): string {
    if |chunk| < 4 then "" else TrimLeft(TrimRight(chunk[2..|chunk| - 2], g.space), g.space)
  }

  function Classify(g: Grammar, chunk: string): Token {
    if StartsWith(chunk, "{{") && EndsWith(chunk, "}}") then
      if g.variable(Inside(g, chunk)) then Variable(Inside(g, chunk)) else Bad(ForbiddenVariable)
    else if StartsWith(chunk, "{%") && EndsWith(chunk, "%}") then
      if Inside(g, chunk) == "endfor" then EndFor
      else match g.header(Inside(g, chunk))
        case None => Bad(ForbiddenBlock)
        case Some(loop) => For(loop)
    else if Contains(chunk, "{{") || Contains(chunk, "{%") || Contains(chunk, "}}") || Contains(chunk, "%}") then Bad(UnclosedTag)
    else Text(chunk)
  }

  function Tokens(g: Grammar, chunks: seq<string>): seq<Token> {
    seq(|chunks|, i requires 0 <= i < |chunks| => Classify(g, chunks[i]))
  }

  ghost predicate Blank(s: string, space: char -> bool) { forall i :: 0 <= i < |s| ==> space(s[i]) }

  /** Something, with no blanks at either end. */
  ghost predicate Bare(s: string, space: char -> bool) { s != "" && !space(s[0]) && !space(s[|s| - 1]) }

  lemma {:induction false} TrimsLeft(pad: string, s: string, space: char -> bool)
    requires Blank(pad, space) && Bare(s, space)
    ensures TrimLeft(pad + s, space) == s
  {
    if pad == "" {
      assert pad + s == s;
    } else {
      TrimsLeft(pad[1..], s, space);
      assert (pad + s)[1..] == pad[1..] + s;
    }
  }

  lemma TrimsRight(s: string, pad: string, space: char -> bool)
    requires Blank(pad, space) && Bare(s, space)
    ensures TrimRight(s + pad, space) == s
  {
    var r := TrimRight(s + pad, space);
    assert (s + pad)[|s| - 1] == s[|s| - 1];
    assert forall k :: |s| <= k < |s + pad| ==> (s + pad)[k] == pad[k - |s|];
    assert (s + pad)[..|s|] == s;
  }

  lemma BetweenMarks(g: Grammar, mark: string, before: string, e: string, after: string, close: string)
    requires |mark| == 2 == |close| && Blank(before, g.space) && Blank(after, g.space) && Bare(e, g.space)
    ensures var chunk := mark + before + e + after + close;
            Inside(g, chunk) == e && StartsWith(chunk, mark) && EndsWith(chunk, close)
  {
    var chunk := mark + before + e + after + close;
    assert chunk[2..|chunk| - 2] == (before + e) + after;
    var r := TrimRight((before + e) + after, g.space);
    if before == "" {
      assert before + e == e;
      TrimsRight(e, after, g.space);
    } else {
      TrimsRightPadded(before, e, after, g.space);
    }
    TrimsLeft(before, e, g.space);
  }

  lemma TrimsRightPadded(before: string, s: string, pad: string, space: char -> bool)
    requires Blank(pad, space) && Bare(s, space)
    ensures TrimRight((before + s) + pad, space) == before + s
  {
    var whole := (before + s) + pad;
    var r := TrimRight(whole, space);
    var n := |before + s|;
    assert whole[n - 1] == s[|s| - 1];
    assert forall k :: n <= k < |whole| ==> whole[k] == pad[k - n];
    assert whole[..n] == before + s;
  }

  /** A tag is read as what is between its marks, whatever blanks are around it: a variable or a loop when the grammar
      allows it. */
  lemma TagsAreRead(g: Grammar, before: string, e: string, after: string)
    requires Blank(before, g.space) && Blank(after, g.space) && Bare(e, g.space)
    ensures Classify(g, "{{" + before + e + after + "}}") == if g.variable(e) then Variable(e) else Bad(ForbiddenVariable)
    ensures Classify(g, "{%" + before + e + after + "%}")
         == if e == "endfor" then EndFor
            else if g.header(e).Some? then For(g.header(e).value)
            else Bad(ForbiddenBlock)
  {
    hide Inside;
    BetweenMarks(g, "{{", before, e, after, "}}");
    BetweenMarks(g, "{%", before, e, after, "%}");
    var block := "{%" + before + e + after + "%}";
    assert block[1] == '%';
    assert block[..2] != "{{";
  }

  ghost predicate PairAt(s: string, i: int, a: char, b: char) { 0 <= i < |s| - 1 && s[i] == a && s[i + 1] == b }

  ghost predicate Marked(s: string) {
    exists i :: PairAt(s, i, '{', '{') || PairAt(s, i, '{', '%') || PairAt(s, i, '}', '}') || PairAt(s, i, '%', '}')
  }

  lemma ContainsPair(s: string, a: char, b: char)
    ensures Contains(s, [a, b]) <==> exists i :: PairAt(s, i, a, b)
  {
    if Contains(s, [a, b]) {
      var i :| 0 <= i <= |s| && StartsWith(s[i..], [a, b]);
      assert s[i..][..2][0] == a && s[i..][..2][1] == b;
      assert PairAt(s, i, a, b);
    }
    if i :| PairAt(s, i, a, b) {
      assert s[i..][..2] == [a, b];
      assert StartsWith(s[i..], [a, b]);
    }
  }

  /** What has no mark in it is text and is printed as it is; nothing else is. */
  lemma TextIsRead(g: Grammar, chunk: string)
    ensures Classify(g, chunk).Text? <==> !Marked(chunk)
    ensures Classify(g, chunk).Text? ==> Classify(g, chunk) == Text(chunk)
  {
    hide Inside;
    assert "{{" == ['{', '{'] && "{%" == ['{', '%'] && "}}" == ['}', '}'] && "%}" == ['%', '}'];
    ContainsPair(chunk, '{', '{');
    ContainsPair(chunk, '{', '%');
    ContainsPair(chunk, '}', '}');
    ContainsPair(chunk, '%', '}');
    if StartsWith(chunk, "{{") { assert PairAt(chunk, 0, '{', '{') by { assert chunk[..2][0] == '{' && chunk[..2][1] == '{'; } }
    if StartsWith(chunk, "{%") { assert PairAt(chunk, 0, '{', '%') by { assert chunk[..2][0] == '{' && chunk[..2][1] == '%'; } }
  }

  /** A mark outside a whole tag, one that opens and closes the chunk, is a tag left open. */
  lemma BrokenTagsAreRefused(g: Grammar, chunk: string)
    requires Marked(chunk)
    requires !(PairAt(chunk, 0, '{', '{') && PairAt(chunk, |chunk| - 2, '}', '}'))
    requires !(PairAt(chunk, 0, '{', '%') && PairAt(chunk, |chunk| - 2, '%', '}'))
    ensures Classify(g, chunk) == Bad(UnclosedTag)
  {
    hide Inside;
    TextIsRead(g, chunk);
    EndsInPair(chunk, '{', '{', '}', '}');
    EndsInPair(chunk, '{', '%', '%', '}');
    assert "{{" == ['{', '{'] && "{%" == ['{', '%'] && "}}" == ['}', '}'] && "%}" == ['%', '}'];
  }

  lemma EndsInPair(s: string, a: char, b: char, c: char, d: char)
    ensures StartsWith(s, [a, b]) <==> PairAt(s, 0, a, b)
    ensures EndsWith(s, [c, d]) <==> PairAt(s, |s| - 2, c, d)
  {
    if |s| >= 2 {
      assert s[..2] == [s[0], s[1]];
      assert s[|s| - 2..] == [s[|s| - 2], s[|s| - 1]];
    }
  }

  // What is well formed, with no parser in sight.

  function Depth(tokens: seq<Token>): int {
    if tokens == [] then 0
    else
      var last := tokens[|tokens| - 1];
      Depth(tokens[..|tokens| - 1]) + (if last.For? then 1 else if last.EndFor? then -1 else 0)
  }

  /** Only legal tags; loops open and close in turn, one at a time, and none is left open. */
  ghost predicate WellFormed(tokens: seq<Token>) {
    && (forall i :: 0 <= i < |tokens| ==> !tokens[i].Bad?)
    && (forall k: nat :: k <= |tokens| ==> 0 <= Depth(tokens[..k]) <= 1)
    && Depth(tokens) == 0
  }

  /** Why a token cannot follow. */
  function Problem(t: Token, inLoop: bool): Option<Error> {
    match t
    case Bad(why) => Some(why)
    case EndFor => if inLoop then None else Some(UnmatchedEndfor)
    case For(_) => if inLoop then Some(NestedLoop) else None
    case _ => None
  }

  /** The first problem of a template, read from the left. */
  function FirstProblem(tokens: seq<Token>): Option<Error> {
    if tokens == [] then None
    else
      var front := tokens[..|tokens| - 1];
      if FirstProblem(front).Some? then FirstProblem(front) else Problem(tokens[|tokens| - 1], Depth(front) == 1)
  }

  lemma {:induction false} NoProblemMeansShallow(tokens: seq<Token>)
    requires FirstProblem(tokens).None?
    ensures 0 <= Depth(tokens) <= 1
    ensures forall i :: 0 <= i < |tokens| ==> !tokens[i].Bad?
    ensures forall k: nat :: k <= |tokens| ==> FirstProblem(tokens[..k]).None? && 0 <= Depth(tokens[..k]) <= 1
  {
    if tokens != [] {
      var front := tokens[..|tokens| - 1];
      NoProblemMeansShallow(front);
      assert forall i :: 0 <= i < |front| ==> front[i] == tokens[i];
      forall k: nat | k <= |tokens| ensures FirstProblem(tokens[..k]).None? && 0 <= Depth(tokens[..k]) <= 1 {
        if k < |tokens| { assert tokens[..k] == front[..k]; } else { assert tokens[..k] == tokens; }
      }
    } else {
      assert forall k: nat :: k <= |tokens| ==> tokens[..k] == tokens;
    }
  }

  /** The left-to-right rule is the same as the overall one. */
  lemma {:induction false} WellFormedMeaning(tokens: seq<Token>)
    ensures WellFormed(tokens) <==> FirstProblem(tokens).None? && Depth(tokens) == 0
  {
    assert tokens[..|tokens|] == tokens;
    if FirstProblem(tokens).None? {
      NoProblemMeansShallow(tokens);
    } else if WellFormed(tokens) {
      ShallowMeansNoProblem(tokens, |tokens|);
    }
  }

  lemma {:induction false} ShallowMeansNoProblem(tokens: seq<Token>, n: nat)
    requires n <= |tokens| && forall i :: 0 <= i < |tokens| ==> !tokens[i].Bad?
    requires forall k: nat :: k <= |tokens| ==> 0 <= Depth(tokens[..k]) <= 1
    ensures FirstProblem(tokens[..n]).None?
  {
    if n > 0 {
      ShallowMeansNoProblem(tokens, n - 1);
      assert tokens[..n][..n - 1] == tokens[..n - 1];
      assert 0 <= Depth(tokens[..n]) <= 1;
    }
  }

  // The tree, and the tokens it stands for.

  function Flatten(nodes: seq<Node>): seq<Token>
    decreases nodes
  {
    if nodes == [] then []
    else Flatten(nodes[..|nodes| - 1]) + FlattenNode(nodes[|nodes| - 1])
  }

  function FlattenNode(node: Node): seq<Token>
    decreases node
  {
    match node
    case TextNode(text) => [Text(text)]
    case VariableNode(expression) => [Variable(expression)]
    case LoopNode(header, children) => [For(header)] + Flatten(children) + [EndFor]
  }

  ghost predicate Plain(nodes: seq<Node>) {
    forall i :: 0 <= i < |nodes| ==> !nodes[i].LoopNode?
  }

  /** No loop inside a loop. */
  ghost predicate Shallow(nodes: seq<Node>) {
    forall i :: 0 <= i < |nodes| && nodes[i].LoopNode? ==> Plain(nodes[i].children)
  }

  lemma NoNodes()
    ensures Flatten([]) == [] && Shallow([]) && Plain([])
  {}

  lemma AddNode(nodes: seq<Node>, node: Node, inLoop: bool)
    requires Shallow(nodes) && (inLoop ==> Plain(nodes))
    requires if node.LoopNode? then Plain(node.children) && !inLoop else true
    ensures Shallow(nodes + [node]) && (inLoop ==> Plain(nodes + [node]))
    ensures Flatten(nodes + [node]) == Flatten(nodes) + FlattenNode(node)
  {
    FlattenOneMore(nodes, node);
  }

  lemma FlattenOneMore(nodes: seq<Node>, node: Node)
    ensures Flatten(nodes + [node]) == Flatten(nodes) + FlattenNode(node)
  {
    assert (nodes + [node])[..|nodes|] == nodes;
  }

  /** What reading one more token does to the scan and to the part read so far. */
  lemma StepOver(tokens: seq<Token>, start: nat, index: nat)
    requires start <= index < |tokens| && FirstProblem(tokens[..index]).None?
    ensures tokens[start..index + 1] == tokens[start..index] + [tokens[index]]
    ensures FirstProblem(tokens[..index + 1]) == Problem(tokens[index], Depth(tokens[..index]) == 1)
    ensures var t := tokens[index];
            Depth(tokens[..index + 1]) == Depth(tokens[..index]) + (if t.For? then 1 else if t.EndFor? then -1 else 0)
  {
    assert tokens[..index + 1][..index] == tokens[..index];
  }

  /** Once there is a problem, it is the one. */
  lemma {:induction false} ProblemStays(tokens: seq<Token>, n: nat)
    requires n <= |tokens| && FirstProblem(tokens[..n]).Some?
    ensures FirstProblem(tokens) == FirstProblem(tokens[..n])
  {
    if n < |tokens| {
      assert tokens[..|tokens| - 1][..n] == tokens[..n];
      ProblemStays(tokens[..|tokens| - 1], n);
    } else {
      assert tokens[..n] == tokens;
    }
  }

  /** Reads nodes from `start`: to the end of the template, or past the `endfor` of the loop it is in. */
  method Read(tokens: seq<Token>, start: nat, inLoop: bool) returns (r: Outcome<(seq<Node>, nat)>)
    requires start <= |tokens| && FirstProblem(tokens[..start]).None?
    requires Depth(tokens[..start]) == if inLoop then 1 else 0
    ensures r.Ok? ==>
              var (nodes, next) := r.value;
              && Shallow(nodes) && (inLoop ==> Plain(nodes))
              && start <= next <= |tokens| && FirstProblem(tokens[..next]).None? && Depth(tokens[..next]) == 0
              && if inLoop then start < next && tokens[start..next] == Flatten(nodes) + [EndFor]
                 else next == |tokens| && tokens[start..] == Flatten(nodes)
    ensures r.Err? ==>
              if FirstProblem(tokens).Some? then r.error == FirstProblem(tokens).value
              else r.error == MissingEndfor && Depth(tokens) != 0
    decreases !inLoop
  {
    hide FirstProblem, Depth, Flatten, Shallow, Plain;
    var nodes: seq<Node> := [];
    var index := start;
    NoNodes();
    while index < |tokens|
      invariant start <= index <= |tokens|
      invariant FirstProblem(tokens[..index]).None? && Depth(tokens[..index]) == if inLoop then 1 else 0
      invariant Shallow(nodes) && (inLoop ==> Plain(nodes))
      invariant tokens[start..index] == Flatten(nodes)
    {
      var token := tokens[index];
      StepOver(tokens, start, index);
      if Problem(token, inLoop).Some? { ProblemStays(tokens, index + 1); }
      match token
      case Bad(why) => return Err(why);
      case EndFor =>
        if !inLoop { return Err(UnmatchedEndfor); }
        return Ok((nodes, index + 1));
      case For(header) =>
        if inLoop { return Err(NestedLoop); }
        var inner := Read(tokens, index + 1, true);
        if inner.Err? { return Err(inner.error); }
        var (children, next) := inner.value;
        AddNode(nodes, LoopNode(header, children), inLoop);
        LoopTokens(tokens, start, index, next, header, Flatten(children));
        nodes := nodes + [LoopNode(header, children)];
        index := next;
      case Text(text) =>
        AddNode(nodes, TextNode(text), inLoop);
        nodes := nodes + [TextNode(text)];
        index := index + 1;
      case Variable(expression) =>
        AddNode(nodes, VariableNode(expression), inLoop);
        nodes := nodes + [VariableNode(expression)];
        index := index + 1;
    }
    assert tokens[..|tokens|] == tokens;
    if inLoop { return Err(MissingEndfor); }
    return Ok((nodes, index));
  }

  lemma LoopTokens(tokens: seq<Token>, start: nat, index: nat, next: nat, header: Loop, children: seq<Token>)
    requires start <= index < next <= |tokens| && tokens[index] == For(header)
    requires index + 1 < next && tokens[index + 1..next] == children + [EndFor]
    ensures tokens[start..next] == tokens[start..index] + ([For(header)] + children + [EndFor])
  {
    assert tokens[start..next] == tokens[start..index] + ([tokens[index]] + tokens[index + 1..next]);
  }

  /** The parser accepts exactly the well-formed templates; the tree it returns, with its loop tags put back, is the
      template; and what it refuses it refuses for the first problem in it. */
  method Parse(g: Grammar, chunks: seq<string>) returns (r: Outcome<seq<Node>>)
    ensures r.Ok? <==> WellFormed(Tokens(g, chunks))
    ensures r.Ok? ==> Shallow(r.value) && Flatten(r.value) == Tokens(g, chunks)
    ensures r.Err? ==>
              r.error == if FirstProblem(Tokens(g, chunks)).Some? then FirstProblem(Tokens(g, chunks)).value else MissingEndfor
  {
    var tokens := Tokens(g, chunks);
    WellFormedMeaning(tokens);
    var read := Read(tokens, 0, false);
    if read.Err? { return Err(read.error); }
    assert tokens[0..] == tokens && tokens[..|tokens|] == tokens;
    return Ok(read.value.0);
  }

  // The tree is the only one.

  lemma {:induction false} PlainTokens(nodes: seq<Node>)
    requires Plain(nodes)
    ensures |Flatten(nodes)| == |nodes|
    ensures forall i :: 0 <= i < |nodes| ==> Flatten(nodes)[i] == FlattenNode(nodes[i])[0]
    ensures forall i :: 0 <= i < |nodes| ==> Flatten(nodes)[i].Text? || Flatten(nodes)[i].Variable?
  {
    if nodes != [] { PlainTokens(nodes[..|nodes| - 1]); }
  }

  lemma {:induction false} SamePlain(a: seq<Node>, b: seq<Node>)
    requires Plain(a) && Plain(b) && Flatten(a) == Flatten(b)
    ensures a == b
  {
    PlainTokens(a);
    PlainTokens(b);
    forall i | 0 <= i < |a| ensures a[i] == b[i] {
      assert FlattenNode(a[i])[0] == FlattenNode(b[i])[0];
    }
  }

  /** A loop at the end: its header is the last `for` before the closing tag. */
  lemma {:induction false} SameEnding(a: seq<Token>, x: seq<Node>, b: seq<Token>, y: seq<Node>, h: Loop, k: Loop)
    requires Plain(x) && Plain(y)
    requires a + ([For(h)] + Flatten(x) + [EndFor]) == b + ([For(k)] + Flatten(y) + [EndFor])
    ensures a == b && h == k && Flatten(x) == Flatten(y)
  {
    PlainTokens(x);
    PlainTokens(y);
    var s := a + ([For(h)] + Flatten(x) + [EndFor]);
    var t := b + ([For(k)] + Flatten(y) + [EndFor]);
    assert s[|a|] == For(h) && t[|b|] == For(k) && |s| == |t|;
    forall i | |a| < i < |s| ensures !s[i].For? {
      assert s[i] == ([For(h)] + Flatten(x) + [EndFor])[i - |a|];
    }
    forall i | |b| < i < |t| ensures !t[i].For? {
      assert t[i] == ([For(k)] + Flatten(y) + [EndFor])[i - |b|];
    }
    assert |a| == |b|;
    assert a == s[..|a|] && b == t[..|b|];
    assert Flatten(x) == s[|a| + 1..|s| - 1] && Flatten(y) == t[|b| + 1..|t| - 1];
  }

  /** Two trees with the same tokens are the same tree, so the parser returns the only one there is. */
  lemma {:induction false} TreeIsUnique(a: seq<Node>, b: seq<Node>)
    requires Shallow(a) && Shallow(b) && Flatten(a) == Flatten(b)
    ensures a == b
  {
    hide Flatten, FlattenNode, Plain;
    if a == [] || b == [] {
      NothingIsEmpty(a);
      NothingIsEmpty(b);
    } else {
      var front, back := a[..|a| - 1], b[..|b| - 1];
      var x, y := a[|a| - 1], b[|b| - 1];
      assert a == front + [x] && b == back + [y];
      FlattenOneMore(front, x);
      FlattenOneMore(back, y);
      SameLast(Flatten(front), x, Flatten(back), y);
      TreeIsUnique(front, back);
    }
  }

  lemma SameLast(front: seq<Token>, x: Node, back: seq<Token>, y: Node)
    requires front + FlattenNode(x) == back + FlattenNode(y)
    requires (x.LoopNode? ==> Plain(x.children)) && (y.LoopNode? ==> Plain(y.children))
    ensures front == back && x == y
  {
    hide Flatten;
    var tokens := front + FlattenNode(x);
    LastToken(front, x);
    LastToken(back, y);
    if x.LoopNode? && y.LoopNode? {
      SameEnding(front, x.children, back, y.children, x.header, y.header);
      SamePlain(x.children, y.children);
    } else {
      assert front == tokens[..|tokens| - 1] == back;
    }
  }

  lemma NothingIsEmpty(nodes: seq<Node>)
    ensures nodes == [] <==> Flatten(nodes) == []
  {}

  lemma LastToken(front: seq<Token>, node: Node)
    ensures var tokens := front + FlattenNode(node);
            && tokens != [] && (tokens[|tokens| - 1].EndFor? <==> node.LoopNode?)
            && (!node.LoopNode? ==> tokens == front + [tokens[|tokens| - 1]] && FlattenNode(node) == [tokens[|tokens| - 1]])
  {}

  // Rows of a fixed width.

  function Join(pieces: seq<string>): string {
    if pieces == [] then "" else Join(pieces[..|pieces| - 1]) + pieces[|pieces| - 1]
  }

  function Trimmed(pieces: seq<string>, space: char -> bool): seq<string> {
    seq(|pieces|, i requires 0 <= i < |pieces| => TrimRight(pieces[i], space))
  }

  /** A line cut at every `width` characters: full pieces, then what is left. */
  ghost predicate Cut(line: string, width: nat, pieces: seq<string>) {
    && pieces != [] && Join(pieces) == line
    && (forall i :: 0 <= i < |pieces| - 1 ==> |pieces[i]| == width)
    && |pieces[|pieces| - 1]| <= width
    && (line != [] ==> pieces[|pieces| - 1] != [])
  }

  lemma JoinOneMore(pieces: seq<string>, piece: string)
    ensures Join(pieces + [piece]) == Join(pieces) + piece
  {
    assert (pieces + [piece])[..|pieces|] == pieces;
  }

  /** A printed line: each row is a piece of it without its trailing blanks, and the pieces are the whole line. */
  method Wrap(line: string, width: nat, space: char -> bool) returns (rows: seq<string>, ghost pieces: seq<string>)
    requires width > 0
    ensures Cut(line, width, pieces) && rows == Trimmed(pieces, space)
    ensures forall i :: 0 <= i < |rows| ==> |rows[i]| <= width
  {
    hide Join, TrimRight;
    rows, pieces := [], [];
    JoinNothing();
    var rest := line;
    while |rest| > width
      invariant Join(pieces) + rest == line
      invariant forall i :: 0 <= i < |pieces| ==> |pieces[i]| == width
      invariant rows == Trimmed(pieces, space)
      invariant line != [] ==> rest != []
      decreases |rest|
    {
      JoinOneMore(pieces, rest[..width]);
      MoveOver(Join(pieces), rest, width);
      rows, pieces := rows + [TrimRight(rest[..width], space)], pieces + [rest[..width]];
      rest := rest[width..];
    }
    JoinOneMore(pieces, rest);
    rows, pieces := rows + [TrimRight(rest, space)], pieces + [rest];
  }

  function Flat<T>(groups: seq<seq<T>>): seq<T> {
    if groups == [] then [] else Flat(groups[..|groups| - 1]) + groups[|groups| - 1]
  }

  /** The whole receipt: line by line, every row within the paper's width. */
  method WrapAll(lines: seq<string>, width: nat, space: char -> bool) returns (rows: seq<string>, ghost cuts: seq<seq<string>>)
    requires width > 0
    ensures |cuts| == |lines| && forall i :: 0 <= i < |lines| ==> Cut(lines[i], width, cuts[i])
    ensures rows == Trimmed(Flat(cuts), space) && forall i :: 0 <= i < |rows| ==> |rows[i]| <= width
  {
    rows, cuts := [], [];
    for n := 0 to |lines|
      invariant |cuts| == n && forall i :: 0 <= i < n ==> Cut(lines[i], width, cuts[i])
      invariant rows == Trimmed(Flat(cuts), space) && forall i :: 0 <= i < |rows| ==> |rows[i]| <= width
    {
      var more, pieces := Wrap(lines[n], width, space);
      assert (cuts + [pieces])[..|cuts|] == cuts;
      rows, cuts := rows + more, cuts + [pieces];
    }
  }

  lemma JoinNothing()
    ensures Join([]) == ""
  {}

  lemma MoveOver(done: string, rest: string, width: nat)
    requires width <= |rest|
    ensures done + rest[..width] + rest[width..] == done + rest
  {
    assert rest == rest[..width] + rest[width..];
  }

  function Spaces(n: nat): string { seq(n, i => ' ') }

  /** The left text and, at the end of the last row, the right one. */
  ghost predicate InColumns(left: string, right: string, rows: seq<string>) {
    && rows != [] && EndsWith(rows[|rows| - 1], right)
    && exists n: nat :: Join(rows) == left + Spaces(n) + right
  }

  /** All of `left`, in order, then blanks, then `right`; flush with the edge, and within it, exactly when `right`
      fits the width at all. */
  method TwoColumn(left: string, right: string, width: nat) returns (rows: seq<string>)
    requires width > 0
    ensures InColumns(left, right, rows)
    ensures |right| <= width ==>
              |rows[|rows| - 1]| == width && forall i :: 0 <= i < |rows| ==> |rows[i]| <= width
    ensures |right| > width ==> rows[|rows| - 1] == right
  {
    hide Join;
    JoinNothing();
    if |left| + 1 + |right| <= width {
      var n := width - |left| - |right|;
      JoinOneMore([], left + Spaces(n) + right);
      rows := [left + Spaces(n) + right];
      assert rows == [] + [left + Spaces(n) + right];
      assert Join(rows) == left + Spaces(n) + right;
      return;
    }
    rows := [];
    var remaining := left;
    while |remaining| > width
      invariant Join(rows) + remaining == left
      invariant forall i :: 0 <= i < |rows| ==> |rows[i]| == width
      decreases |remaining|
    {
      JoinOneMore(rows, remaining[..width]);
      MoveOver(Join(rows), remaining, width);
      rows := rows + [remaining[..width]];
      remaining := remaining[width..];
    }
    if |remaining| <= width - |right| - 1 {
      var n := width - |remaining| - |right|;
      JoinOneMore(rows, remaining + Spaces(n) + right);
      assert Join(rows) + (remaining + Spaces(n) + right) == left + Spaces(n) + right;
      rows := rows + [remaining + Spaces(n) + right];
    } else {
      var n: nat := if width >= |right| then width - |right| else 0;
      JoinOneMore(rows, remaining);
      JoinOneMore(rows + [remaining], Spaces(n) + right);
      assert Join(rows) + remaining + (Spaces(n) + right) == left + Spaces(n) + right;
      rows := rows + [remaining] + [Spaces(n) + right];
    }
  }
}
