/** The config parser: a character state machine, an explicit-stack parser and a pretty-printer. */
module ConfigParsers {

  datatype Config = Config(statements: seq<Statement>)

  datatype Statement = Statement(tokens: seq<string>, child: Child)

  datatype Child = NoChild | Block(config: Config)

  datatype Kind = Start | Normal | StartBlock | EndBlock | Comment | StatementEnd | Eof | Error

  datatype Lexeme = Lexeme(kind: Kind, value: string)

  datatype Option<T> = None | Some(value: T)

  // ----- Printing -----

  function Indent(depth: nat): string { if depth == 0 then [] else "  " + Indent(depth - 1) }

  function Joined(tokens: seq<string>): string {
    if tokens == [] then [] else if |tokens| == 1 then tokens[0] else tokens[0] + " " + Joined(tokens[1..])
  }

  function ConfigText(c: Config, depth: nat): string
    decreases c
  {
    StatementsText(c.statements, depth)
  }

  function StatementsText(ss: seq<Statement>, depth: nat): string
    decreases ss
  {
    if ss == [] then [] else StatementText(ss[0], depth) + StatementsText(ss[1..], depth)
  }

  function StatementText(st: Statement, depth: nat): string
    decreases st
  {
    Indent(depth) + Joined(st.tokens)
    + (match st.child
       case NoChild => ";"
       case Block(c) => " {\n" + ConfigText(c, depth + 1) + Indent(depth) + "}")
    + "\n"
  }

  // ----- The printed text line by line -----

  /** A line of the printed text: how deep it stands and what it says. */
  datatype Line = Line(depth: nat, content: string)

  function Blanks(n: nat): string { seq(n, _ => ' ') }

  function LineText(l: Line): string { Blanks(2 * l.depth) + l.content + "\n" }

  function LinesText(ls: seq<Line>): string { if ls == [] then [] else LineText(ls[0]) + LinesText(ls[1..]) }

  /** A statement is one line, or its head, the lines of its block one level deeper, and a closing brace under the head. */
  function StatementLines(st: Statement, depth: nat): seq<Line>
    decreases st
  {
    match st.child
    case NoChild => [Line(depth, Joined(st.tokens) + ";")]
    case Block(c) => [Line(depth, Joined(st.tokens) + " {")] + StatementsLines(c.statements, depth + 1) + [Line(depth, "}")]
  }

  function StatementsLines(ss: seq<Statement>, depth: nat): seq<Line>
    decreases ss
  {
    if ss == [] then [] else StatementLines(ss[0], depth) + StatementsLines(ss[1..], depth)
  }

  lemma {:induction false} IndentIsBlanks(depth: nat)
    ensures Indent(depth) == Blanks(2 * depth)
  {
    if depth > 0 {
      IndentIsBlanks(depth - 1);
    }
  }

  lemma {:induction false} LinesTextConcat(a: seq<Line>, b: seq<Line>)
    ensures LinesText(a + b) == LinesText(a) + LinesText(b)
  {
    hide LineText;
    if a == [] {
      assert a + b == b;
    } else {
      LinesTextConcat(a[1..], b);
      assert (a + b)[0] == a[0] && (a + b)[1..] == a[1..] + b;
    }
  }

  lemma OneLine(l: Line)
    ensures LinesText([l]) == LineText(l)
  {
    assert LinesText([l][1..]) == [];
  }

  lemma {:induction false} StatementInLines(st: Statement, depth: nat)
    ensures StatementText(st, depth) == LinesText(StatementLines(st, depth))
    decreases st, 0
  {
    hide Joined, LinesText, Indent, Blanks;
    IndentIsBlanks(depth);
    match st.child
    case NoChild =>
      OneLine(Line(depth, Joined(st.tokens) + ";"));
    case Block(c) =>
      var head, tail := Line(depth, Joined(st.tokens) + " {"), Line(depth, "}");
      TextInLines(c.statements, depth + 1);
      OneLine(head);
      OneLine(tail);
      LinesTextConcat([head], StatementsLines(c.statements, depth + 1));
      LinesTextConcat([head] + StatementsLines(c.statements, depth + 1), [tail]);
      assert StatementText(st, depth) == LineText(head) + StatementsText(c.statements, depth + 1) + LineText(tail);
  }

  /** The printed text is made of whole lines, each indented by two blanks for every block it stands in. */
  lemma {:induction false} TextInLines(ss: seq<Statement>, depth: nat)
    ensures StatementsText(ss, depth) == LinesText(StatementsLines(ss, depth))
    decreases ss, 1
  {
    hide StatementText, StatementLines, LineText;
    if ss != [] {
      StatementInLines(ss[0], depth);
      TextInLines(ss[1..], depth);
      LinesTextConcat(StatementLines(ss[0], depth), StatementsLines(ss[1..], depth));
    }
  }

  // ----- The token stream of a tree: the grammar -----

  function Words(tokens: seq<string>): (ls: seq<Lexeme>)
    ensures |ls| == |tokens|
  {
    seq(|tokens|, i requires 0 <= i < |tokens| => Lexeme(Normal, tokens[i]))
  }

  const SEMICOLON: Lexeme := Lexeme(StatementEnd, ";")
  const OPEN: Lexeme := Lexeme(StartBlock, "{")
  const CLOSE: Lexeme := Lexeme(EndBlock, "}")

  function Flatten(ss: seq<Statement>): seq<Lexeme>
    decreases ss
  {
    if ss == [] then [] else FlattenOne(ss[0]) + Flatten(ss[1..])
  }

  function FlattenOne(st: Statement): seq<Lexeme>
    decreases st
  {
    Words(st.tokens) + match st.child
                       case NoChild => [SEMICOLON]
                       case Block(c) => [OPEN] + Flatten(c.statements) + [CLOSE]
  }

  /** Every statement has at least one token. */
  ghost predicate Worded(ss: seq<Statement>)
    decreases ss
  {
    ss == [] || (WordedOne(ss[0]) && Worded(ss[1..]))
  }

  ghost predicate WordedOne(st: Statement)
    decreases st
  {
    st.tokens != [] && (st.child.Block? ==> Worded(st.child.config.statements))
  }

  lemma {:induction false} FlattenConcat(a: seq<Statement>, b: seq<Statement>)
    ensures Flatten(a + b) == Flatten(a) + Flatten(b)
    ensures Worded(a + b) <==> Worded(a) && Worded(b)
  {
    if a == [] {
      assert a + b == b;
    } else {
      assert (a + b)[1..] == a[1..] + b;
      FlattenConcat(a[1..], b);
    }
  }

  lemma FlattenSingle(st: Statement)
    ensures Flatten([st]) == FlattenOne(st)
    ensures Worded([st]) <==> WordedOne(st)
  {
    assert Flatten([st][1..]) == [];
  }

  // ----- Tokens -----

  datatype LexState = InitialWhitespace | SingleQuote | DoubleQuote | InComment | InNormal | EscapeSingle | EscapeDouble

  datatype Lexed = Lexed(token: Lexeme, rest: string)

  predicate Blank(c: char) { c == ' ' || c == '\t' || c == '\n' || c == '\r' }

  /** What ends a normal token, and what must follow a closing quote. A carriage return does neither. */
  predicate Ends(c: char) { c == ' ' || c == '\t' || c == '\n' || c == ';' || c == '{' || c == '}' }

  /** Punctuation tokens carry their character, and no token is the start marker. */
  predicate Canonical(l: Lexeme) {
    && l.kind != Start
    && (l.kind == StatementEnd ==> l == SEMICOLON) && (l.kind == StartBlock ==> l == OPEN) && (l.kind == EndBlock ==> l == CLOSE)
  }

  /** ParseToken on the text s that is left, having read v in the given state. */
  function Lex(state: LexState, v: string, s: string): (l: Lexed)
    ensures |l.rest| <= |s|
    ensures Canonical(l.token)
    ensures !l.token.kind.Eof? && !l.token.kind.Error? && !state.InNormal? ==> |l.rest| < |s|
    decreases |s|
  {
    if s == [] then Lexed(Lexeme(if state.SingleQuote? || state.DoubleQuote? then Error else Eof, v), [])
    else
      var c, t := s[0], s[1..];
      match state
      case InitialWhitespace =>
        if c == '{' then Lexed(OPEN, t)
        else if c == '}' then Lexed(CLOSE, t)
        else if c == '#' then Lex(InComment, [c], t)
        else if c == '"' then Lex(DoubleQuote, [c], t)
        else if c == '\'' then Lex(SingleQuote, [c], t)
        else if c == ';' then Lexed(SEMICOLON, t)
        else if Blank(c) then Lex(InitialWhitespace, v, t)
        else Lex(InNormal, v + [c], t)
      case SingleQuote =>
        if c == '\'' then AfterQuote(v + [c], t)
        else if c == '\\' then Lex(EscapeSingle, v, t)
        else Lex(SingleQuote, v + [c], t)
      case DoubleQuote =>
        if c == '"' then AfterQuote(v + [c], t)
        else if c == '\\' then Lex(EscapeDouble, v, t)
        else Lex(DoubleQuote, v + [c], t)
      case InComment => if c == '\n' || c == '\r' then Lexed(Lexeme(Comment, v), t) else Lex(InComment, v + [c], t)
      case InNormal => if Ends(c) then Lexed(Lexeme(Normal, v), s) else Lex(InNormal, v + [c], t)
      case EscapeSingle => Lex(SingleQuote, v + [c], t)
      case EscapeDouble => Lex(DoubleQuote, v + [c], t)
  }

  /** A closing quote must be followed by a character that ends a token; otherwise that character is lost too. */
  function AfterQuote(v: string, t: string): (l: Lexed)
    ensures |l.rest| <= |t| && (l.token.kind == Normal || l.token.kind == Error)
  {
    if t != [] && Ends(t[0]) then Lexed(Lexeme(Normal, v), t)
    else Lexed(Lexeme(Error, v), if t == [] then [] else t[1..])
  }

  function NextToken(s: string): Lexed { Lex(InitialWhitespace, "", s) }

  lemma NextTokenShape(s: string)
    ensures var l := NextToken(s);
            Canonical(l.token) && (l.token.kind != Eof && l.token.kind != Error ==> |l.rest| < |s|)
  {
  }

  /** The tokens up to the end of the text, comments erased; None if a token is malformed. */
  function Visible(s: string): Option<seq<Lexeme>>
    decreases |s|
  {
    var l := NextToken(s);
    if l.token.kind == Error then None
    else if l.token.kind == Eof then Some([])
    else if l.token.kind == Comment then Visible(l.rest)
    else Prepend([l.token], Visible(l.rest))
  }

  function Prepend(ls: seq<Lexeme>, o: Option<seq<Lexeme>>): Option<seq<Lexeme>> {
    match o case None => None case Some(rest) => Some(ls + rest)
  }

  // ----- The stack machine -----

  /** The open configs, outermost first, and the type of the last token. */
  datatype Machine = Machine(stack: seq<Config>, last: Kind)

  const INITIAL: Machine := Machine([Config([])], Start)

  /** What makes every read of the stack and of its statements well defined. */
  ghost predicate Ready(m: Machine) {
    && |m.stack| > 0
    && (forall i :: 0 <= i < |m.stack| - 1 ==> m.stack[i].statements != [])
    && (m.last == Normal ==> Top(m.stack).statements != [])
  }

  function Top(stack: seq<Config>): Config
    requires stack != []
  {
    stack[|stack| - 1]
  }

  function WithTop(stack: seq<Config>, c: Config): (stack': seq<Config>)
    requires stack != []
  {
    stack[|stack| - 1 := c]
  }

  /** The config with its last statement replaced. */
  function WithBack(c: Config, st: Statement): Config
    requires c.statements != []
  {
    Config(c.statements[|c.statements| - 1 := st])
  }

  function Back(c: Config): Statement
    requires c.statements != []
  {
    c.statements[|c.statements| - 1]
  }

  /** One token that is neither a comment nor the end: the next machine, or None for a bad transition. */
  function Step(m: Machine, l: Lexeme): (next: Option<Machine>)
    requires Ready(m)
    ensures next.Some? ==> Ready(next.value)
  {
    var top := Top(m.stack);
    match l.kind
    case Normal =>
      if m.last == Normal then
        Some(Machine(WithTop(m.stack, WithBack(top, Back(top).(tokens := Back(top).tokens + [l.value]))), Normal))
      else if m.last == Start || m.last == StatementEnd || m.last == StartBlock || m.last == EndBlock then
        Some(Machine(WithTop(m.stack, Config(top.statements + [Statement([l.value], NoChild)])), Normal))
      else None
    case StatementEnd => if m.last != Normal then None else Some(m.(last := StatementEnd))
    case StartBlock =>
      if m.last != Normal then None
      else Some(Machine(WithTop(m.stack, WithBack(top, Back(top).(child := Block(Config([]))))) + [Config([])], StartBlock))
    case EndBlock =>
      if m.last != StatementEnd && m.last != EndBlock && m.last != StartBlock then None
      else if |m.stack| == 1 then None
      else Some(Machine(Closed(m.stack), EndBlock))
    case _ => None
  }

  /** Appending an empty statement and then its first token appends a statement of one token. */
  lemma OpenStatement(stack: seq<Config>, t: string)
    requires stack != []
    ensures var grown := WithTop(stack, Config(Top(stack).statements + [Statement([], NoChild)]));
            WithTop(grown, WithBack(Top(grown), Back(Top(grown)).(tokens := Back(Top(grown)).tokens + [t])))
            == WithTop(stack, Config(Top(stack).statements + [Statement([t], NoChild)]))
  {
    var grown := WithTop(stack, Config(Top(stack).statements + [Statement([], NoChild)]));
    assert [] + [t] == [t];
    assert WithBack(Top(grown), Statement([t], NoChild)).statements == Top(stack).statements + [Statement([t], NoChild)];
  }

  /** Pops the finished block; it is the child of the last statement of the config below. */
  function Closed(stack: seq<Config>): seq<Config>
    requires |stack| > 1 && stack[|stack| - 2].statements != []
  {
    var below := stack[|stack| - 2];
    stack[..|stack| - 2] + [WithBack(below, Back(below).(child := Block(Top(stack))))]
  }

  predicate Finished(m: Machine) {
    (m.last == StatementEnd || m.last == EndBlock || m.last == Start) && |m.stack| == 1
  }

  /** The parser on the text that is left: the tree, or None. */
  function Decide(m: Machine, s: string): Option<Config>
    requires Ready(m)
    decreases |s|
  {
    var l := NextToken(s);
    if l.token.kind == Error then None
    else if l.token.kind == Comment then Decide(m, l.rest)
    else if l.token.kind == Eof then if Finished(m) then Some(m.stack[0]) else None
    else match Step(m, l.token) case None => None case Some(m') => Decide(m', l.rest)
  }

  // ----- Soundness: what is accepted is a derivation -----

  ghost predicate OpenOk(c: Config) {
    && c.statements != []
    && Worded(c.statements[..|c.statements| - 1]) && Back(c).tokens != []
  }

  /** The tokens of a config whose last statement has not been ended. */
  ghost function Partial(c: Config): seq<Lexeme>
    requires c.statements != []
  {
    Flatten(c.statements[..|c.statements| - 1]) + Words(Back(c).tokens)
  }

  ghost function Below(stack: seq<Config>): seq<Lexeme>
    requires forall i :: 0 <= i < |stack| ==> stack[i].statements != []
  {
    if stack == [] then [] else Below(stack[..|stack| - 1]) + Partial(Top(stack)) + [OPEN]
  }

  ghost predicate Sound(m: Machine) {
    && Ready(m)
    && (forall i :: 0 <= i < |m.stack| - 1 ==> OpenOk(m.stack[i]))
    && if m.last == Normal then OpenOk(Top(m.stack)) && Back(Top(m.stack)).child == NoChild
       else Worded(Top(m.stack).statements)
  }

  /** The visible tokens that have led to a machine. */
  ghost function Spent(m: Machine): seq<Lexeme>
    requires Ready(m)
  {
    Below(m.stack[..|m.stack| - 1]) + SpentInTop(m)
  }

  ghost function SpentInTop(m: Machine): seq<Lexeme>
    requires Ready(m)
  {
    if m.last == Normal then Partial(Top(m.stack)) else Flatten(Top(m.stack).statements)
  }

  lemma SplitBack(c: Config)
    requires c.statements != []
    ensures var front := c.statements[..|c.statements| - 1];
            && Flatten(c.statements) == Flatten(front) + FlattenOne(Back(c))
            && (Worded(c.statements) <==> Worded(front) && WordedOne(Back(c)))
  {
    var front := c.statements[..|c.statements| - 1];
    assert c.statements == front + [Back(c)];
    FlattenConcat(front, [Back(c)]);
    FlattenSingle(Back(c));
  }

  lemma StepNormal(m: Machine, l: Lexeme)
    requires Sound(m) && l.kind == Normal && Step(m, l).Some?
    ensures Sound(Step(m, l).value) && Spent(Step(m, l).value) == Spent(m) + [l]
  {
    hide Worded, Flatten;
    var m' := Step(m, l).value;
    var top, top' := Top(m.stack), Top(m'.stack);
    assert m'.stack[..|m'.stack| - 1] == m.stack[..|m.stack| - 1];
    if m.last == Normal {
      assert Words(Back(top').tokens) == Words(Back(top).tokens) + [l];
      assert top'.statements[..|top'.statements| - 1] == top.statements[..|top.statements| - 1];
    } else {
      assert top'.statements[..|top'.statements| - 1] == top.statements;
      assert Words(Back(top').tokens) == [l];
    }
  }

  lemma StepStatementEnd(m: Machine)
    requires Sound(m) && Step(m, SEMICOLON).Some?
    ensures Sound(Step(m, SEMICOLON).value) && Spent(Step(m, SEMICOLON).value) == Spent(m) + [SEMICOLON]
  {
    hide Flatten, Worded, Partial, Below, Words;
    var top, below := Top(m.stack), Below(m.stack[..|m.stack| - 1]);
    EndedStatement(top);
    assert below + (Partial(top) + [SEMICOLON]) == below + Partial(top) + [SEMICOLON];
  }

  lemma EndedStatement(c: Config)
    requires OpenOk(c) && Back(c).child == NoChild
    ensures Worded(c.statements) && Flatten(c.statements) == Partial(c) + [SEMICOLON]
  {
    SplitBack(c);
    hide Flatten, Worded, Words;
  }

  lemma StepStartBlock(m: Machine)
    requires Sound(m) && Step(m, OPEN).Some?
    ensures Sound(Step(m, OPEN).value) && Spent(Step(m, OPEN).value) == Spent(m) + [OPEN]
  {
    hide Flatten, Worded;
    var stack, stack' := m.stack, Step(m, OPEN).value.stack;
    var top, open := Top(stack), stack'[|stack'| - 2];
    assert open.statements[..|open.statements| - 1] == top.statements[..|top.statements| - 1];
    var below := stack'[..|stack'| - 1];
    assert below[..|below| - 1] == stack[..|stack| - 1];
    assert Below(below) == Below(stack[..|stack| - 1]) + Partial(open) + [OPEN];
    assert Flatten([]) == [] && Worded([]) by {
      EmptyBlock();
    }
  }

  lemma EmptyBlock()
    ensures Flatten([]) == [] && Worded([])
  {
  }

  lemma StepEndBlock(m: Machine)
    requires Sound(m) && Step(m, CLOSE).Some?
    ensures Sound(Step(m, CLOSE).value) && Spent(Step(m, CLOSE).value) == Spent(m) + [CLOSE]
  {
    var stack, stack' := m.stack, Closed(m.stack);
    var open, closed, below := stack[|stack| - 2], Top(stack'), stack[..|stack| - 1];
    ClosedBlock(open, closed, Top(stack));
    assert stack'[..|stack'| - 1] == stack[..|stack| - 2] == below[..|below| - 1];
    BelowOpen(below, open);
    hide Flatten, Worded, Partial, OpenOk, Below;
    Regroup(Below(stack[..|stack| - 2]), Partial(open), Flatten(Top(stack).statements));
  }

  lemma Regroup(a: seq<Lexeme>, p: seq<Lexeme>, f: seq<Lexeme>)
    ensures a + (p + [OPEN] + f + [CLOSE]) == (a + p + [OPEN] + f) + [CLOSE]
  {
  }

  lemma BelowOpen(stack: seq<Config>, open: Config)
    requires stack != [] && Top(stack) == open && forall i :: 0 <= i < |stack| ==> stack[i].statements != []
    ensures Below(stack) == Below(stack[..|stack| - 1]) + Partial(open) + [OPEN]
  {
  }

  lemma ClosedBlock(open: Config, closed: Config, inner: Config)
    requires OpenOk(open) && Worded(inner.statements) && closed == WithBack(open, Back(open).(child := Block(inner)))
    ensures Worded(closed.statements)
    ensures Flatten(closed.statements) == Partial(open) + [OPEN] + Flatten(inner.statements) + [CLOSE]
  {
    SplitBack(closed);
    hide Flatten, Worded, Words;
    assert closed.statements[..|closed.statements| - 1] == open.statements[..|open.statements| - 1];
  }

  lemma StepSpends(m: Machine, l: Lexeme)
    requires Sound(m) && Canonical(l) && Step(m, l).Some?
    ensures Sound(Step(m, l).value) && Spent(Step(m, l).value) == Spent(m) + [l]
  {
    hide Sound, Spent;
    match l.kind {
      case Normal => StepNormal(m, l);
      case StatementEnd => StepStatementEnd(m);
      case StartBlock => StepStartBlock(m);
      case EndBlock => StepEndBlock(m);
      case _ =>
    }
  }

  lemma SoundReady(m: Machine)
    requires Sound(m)
    ensures Ready(m)
  {
  }

  lemma FinishedSpends(m: Machine)
    requires Sound(m) && Finished(m)
    ensures Spent(m) == Flatten(m.stack[0].statements) && Worded(m.stack[0].statements)
  {
    hide Flatten, Worded;
  }

  /** An accepted text spells the tree that is returned, token by token. */
  lemma {:induction false} AcceptedIsDerived(m: Machine, s: string)
    requires Sound(m) && Decide(m, s).Some?
    ensures var c := Decide(m, s).value;
            Visible(s).Some? && Spent(m) + Visible(s).value == Flatten(c.statements) && Worded(c.statements)
    decreases |s|
  {
    hide Flatten, Worded, Sound, Spent, Step, Ready, Lex;
    SoundReady(m);
    var l := NextToken(s);
    if l.token.kind == Comment {
      AcceptedIsDerived(m, l.rest);
    } else if l.token.kind != Eof {
      StepSpends(m, l.token);
      AcceptedIsDerived(Step(m, l.token).value, l.rest);
      assert Spent(m) + Visible(s).value == Spent(m) + [l.token] + Visible(l.rest).value;
    } else {
      FinishedSpends(m);
    }
  }

  // ----- Completeness: every derivation is accepted -----

  function Run(m: Machine, ls: seq<Lexeme>): Option<Machine>
    requires Ready(m)
    decreases |ls|
  {
    if ls == [] then Some(m)
    else match Step(m, ls[0]) case None => None case Some(m') => Run(m', ls[1..])
  }

  lemma {:induction false} DecideRuns(m: Machine, s: string)
    requires Ready(m) && Visible(s).Some?
    ensures Decide(m, s) == match Run(m, Visible(s).value)
                            case None => None
                            case Some(m') => if Finished(m') then Some(m'.stack[0]) else None
    decreases |s|
  {
    hide Step, Ready;
    var l := NextToken(s);
    if l.token.kind == Comment {
      DecideRuns(m, l.rest);
    } else if l.token.kind != Eof {
      assert Visible(s).value[1..] == Visible(l.rest).value;
      var next := Step(m, l.token);
      if next.Some? {
        DecideRuns(next.value, l.rest);
      }
    }
  }

  ghost predicate Between(m: Machine) { Ready(m) && m.last != Normal && m.last != Comment && m.last != Eof && m.last != Error }

  /** The machine after whole statements have been read. */
  ghost function Extended(m: Machine, ss: seq<Statement>): (m': Machine)
    requires Between(m)
    ensures Between(m')
  {
    if ss == [] then m
    else Machine(WithTop(m.stack, Config(Top(m.stack).statements + ss)),
                 if ss[|ss| - 1].child == NoChild then StatementEnd else EndBlock)
  }

  /** The machine in the middle of a statement. */
  ghost function Pending(m: Machine, tokens: seq<string>): (m': Machine)
    requires Between(m)
    ensures Ready(m')
  {
    Machine(WithTop(m.stack, Config(Top(m.stack).statements + [Statement(tokens, NoChild)])), Normal)
  }

  lemma {:induction false} RunWords(m: Machine, tokens: seq<string>, k: nat, rest: seq<Lexeme>)
    requires Between(m) && 1 <= k <= |tokens|
    ensures Run(Pending(m, tokens[..k]), Words(tokens[k..]) + rest) == Run(Pending(m, tokens), rest)
    decreases |tokens| - k
  {
    if k == |tokens| {
      assert Words(tokens[k..]) + rest == rest && tokens[..k] == tokens;
    } else {
      var ls := Words(tokens[k..]) + rest;
      assert ls[0] == Lexeme(Normal, tokens[k]) && ls[1..] == Words(tokens[k + 1..]) + rest;
      StepWord(m, tokens[..k], tokens[k]);
      assert tokens[..k] + [tokens[k]] == tokens[..k + 1];
      hide Step, Words, Ready, Pending;
      RunWords(m, tokens, k + 1, rest);
    }
  }

  lemma StepWord(m: Machine, tokens: seq<string>, t: string)
    requires Between(m)
    ensures Step(Pending(m, tokens), Lexeme(Normal, t)) == Some(Pending(m, tokens + [t]))
  {
    var p := Pending(m, tokens);
    var before := Top(m.stack).statements;
    assert WithBack(Top(p.stack), Statement(tokens + [t], NoChild)).statements == before + [Statement(tokens + [t], NoChild)];
    assert WithTop(p.stack, Config(before + [Statement(tokens + [t], NoChild)])) == Pending(m, tokens + [t]).stack;
  }

  /** The first word of a statement opens it. */
  lemma RunStatementWords(m: Machine, tokens: seq<string>, rest: seq<Lexeme>)
    requires Between(m) && tokens != []
    ensures Run(m, Words(tokens) + rest) == Run(Pending(m, tokens), rest)
  {
    var ls := Words(tokens) + rest;
    assert ls[0] == Lexeme(Normal, tokens[0]) && ls[1..] == Words(tokens[1..]) + rest;
    assert tokens[..1] == [tokens[0]];
    assert Step(m, ls[0]) == Some(Pending(m, tokens[..1]));
    RunWords(m, tokens, 1, rest);
  }

  lemma EndStatement(m: Machine, tokens: seq<string>)
    requires Between(m)
    ensures Step(Pending(m, tokens), SEMICOLON) == Some(Extended(m, [Statement(tokens, NoChild)]))
  {
  }

  /** A block is grown, filled and closed: the machine is back where it was, one statement further. */
  lemma BlockRoundTrip(m: Machine, tokens: seq<string>, c: Config)
    requires Between(m)
    ensures Step(Pending(m, tokens), OPEN).Some?
    ensures var inner := Step(Pending(m, tokens), OPEN).value;
            && Between(inner)
            && Step(Extended(inner, c.statements), CLOSE) == Some(Extended(m, [Statement(tokens, Block(c))]))
  {
    var inner := Step(Pending(m, tokens), OPEN).value;
    var filled := Extended(inner, c.statements);
    assert Top(filled.stack) == c;
    var outer := Extended(m, [Statement(tokens, Block(c))]);
    assert filled.stack[|filled.stack| - 2] == Config(Top(m.stack).statements + [Statement(tokens, Block(Config([])))]);
    assert Top(Closed(filled.stack)) == Top(outer.stack);
    assert Closed(filled.stack) == outer.stack;
  }

  lemma RunStep(m: Machine, l: Lexeme, rest: seq<Lexeme>)
    requires Ready(m)
    ensures Run(m, [l] + rest) == match Step(m, l) case None => None case Some(m') => Run(m', rest)
  {
    assert ([l] + rest)[1..] == rest;
  }

  lemma {:induction false} RunOne(m: Machine, st: Statement, rest: seq<Lexeme>)
    requires Between(m) && WordedOne(st)
    ensures Run(m, FlattenOne(st) + rest) == Run(Extended(m, [st]), rest)
    decreases st, 0
  {
    hide Run, Step, Ready, Extended, Pending, Words;
    match st.child {
      case NoChild =>
        assert FlattenOne(st) + rest == Words(st.tokens) + ([SEMICOLON] + rest);
        RunStatementWords(m, st.tokens, [SEMICOLON] + rest);
        RunStep(Pending(m, st.tokens), SEMICOLON, rest);
        EndStatement(m, st.tokens);
      case Block(c) =>
        var tail := [CLOSE] + rest;
        assert FlattenOne(st) + rest == Words(st.tokens) + ([OPEN] + (Flatten(c.statements) + tail));
        RunStatementWords(m, st.tokens, [OPEN] + (Flatten(c.statements) + tail));
        RunStep(Pending(m, st.tokens), OPEN, Flatten(c.statements) + tail);
        BlockRoundTrip(m, st.tokens, c);
        var inner := Step(Pending(m, st.tokens), OPEN).value;
        RunAll(inner, c.statements, tail);
        RunStep(Extended(inner, c.statements), CLOSE, rest);
    }
  }

  lemma {:induction false} RunAll(m: Machine, ss: seq<Statement>, rest: seq<Lexeme>)
    requires Between(m) && Worded(ss)
    ensures Run(m, Flatten(ss) + rest) == Run(Extended(m, ss), rest)
    decreases ss, 1
  {
    if ss == [] {
      assert Flatten(ss) + rest == rest;
    } else {
      ExtendedConcat(m, ss);
      hide Run, Ready, Extended, WordedOne;
      var tail := Flatten(ss[1..]) + rest;
      assert Flatten(ss) + rest == FlattenOne(ss[0]) + tail;
      RunOne(m, ss[0], tail);
      RunAll(Extended(m, [ss[0]]), ss[1..], rest);
    }
  }

  lemma ExtendedConcat(m: Machine, ss: seq<Statement>)
    requires Between(m) && ss != []
    ensures Extended(Extended(m, [ss[0]]), ss[1..]) == Extended(m, ss)
  {
    var before := Top(m.stack).statements;
    assert before + [ss[0]] + ss[1..] == before + ss;
    var one := Extended(m, [ss[0]]);
    if |ss| > 1 {
      assert WithTop(one.stack, Config(before + ss)) == WithTop(m.stack, Config(before + ss));
      assert ss[1..][|ss| - 2] == ss[|ss| - 1];
    } else {
      assert [ss[0]] == ss;
    }
  }

  /** With comments erased, the text is the token sequence of the tree. */
  ghost predicate Derives(s: string, c: Config) {
    Worded(c.statements) && Visible(s) == Some(Flatten(c.statements))
  }

  /** Main result: the parser returns a tree exactly when the visible tokens derive it. */
  lemma ParserDecidesGrammar(s: string, c: Config)
    ensures Decide(INITIAL, s) == Some(c) <==> Derives(s, c)
  {
    EmptyBlock();
    if Decide(INITIAL, s) == Some(c) {
      AcceptedIsDerived(INITIAL, s);
      assert Spent(INITIAL) + Visible(s).value == Visible(s).value;
    }
    if Derives(s, c) {
      DecideRuns(INITIAL, s);
      RunAll(INITIAL, c.statements, []);
      assert Flatten(c.statements) + [] == Flatten(c.statements);
      assert [] + c.statements == c.statements;
      assert Extended(INITIAL, c.statements).stack[0] == c;
    }
  }

  /** Main result: a text is accepted exactly when its visible tokens derive some tree, and then only one. */
  lemma AcceptedIffDerivable(s: string)
    ensures Decide(INITIAL, s).Some?
       <==> exists c :: Derives(s, c)
    ensures forall c, d :: Derives(s, c) && Derives(s, d) ==> c == d
  {
    hide Decide, Flatten, Worded, Visible;
    if Decide(INITIAL, s).Some? {
      ParserDecidesGrammar(s, Decide(INITIAL, s).value);
    }
    forall c | Derives(s, c)
      ensures Decide(INITIAL, s) == Some(c)
    {
      ParserDecidesGrammar(s, c);
    }
  }

  // ----- Parsing into a config that already holds statements -----

  function After(base: Config): Machine { Machine([base], Start) }

  /** The machine whose outermost config starts with the statements of base. */
  ghost function Prefixed(m: Machine, base: Config): (m': Machine)
    requires Ready(m)
    ensures Ready(m') && |m'.stack| == |m.stack| && m'.last == m.last
  {
    Machine(m.stack[0 := Config(base.statements + m.stack[0].statements)], m.last)
  }

  lemma BackBehind(bs: seq<Statement>, ss: seq<Statement>, st: Statement)
    ensures bs + (ss + [st]) == (bs + ss) + [st]
    ensures ss != [] ==> (bs + ss)[|bs + ss| - 1] == ss[|ss| - 1] && (bs + ss)[|bs + ss| - 1 := st] == bs + ss[|ss| - 1 := st]
  {
  }

  /** What is already there is never looked at: every step works the same behind it. */
  lemma StepBehind(m: Machine, base: Config, l: Lexeme)
    requires Ready(m)
    ensures Step(Prefixed(m, base), l)
         == match Step(m, l) case None => None case Some(m') => Some(Prefixed(m', base))
  {
    var p, bs, bottom := Prefixed(m, base), base.statements, m.stack[0].statements;
    if Step(m, l).Some? {
      var m' := Step(m, l).value;
      BackBehind(bs, bottom, Statement([l.value], NoChild));
      if bottom != [] {
        var st := Back(m.stack[0]);
        BackBehind(bs, bottom, st.(tokens := st.tokens + [l.value]));
        BackBehind(bs, bottom, st.(child := Block(Config([]))));
        BackBehind(bs, bottom, st.(child := Block(Top(m.stack))));
      }
      assert Prefixed(m', base).stack == Step(p, l).value.stack;
    }
  }

  /** Main result: a parse adds the statements of the text to those already there, and is accepted all the same. */
  lemma {:induction false} DecideBehind(m: Machine, base: Config, s: string)
    requires Ready(m)
    ensures Decide(Prefixed(m, base), s)
         == match Decide(m, s) case None => None case Some(c) => Some(Config(base.statements + c.statements))
    decreases |s|
  {
    hide Step;
    var l := NextToken(s);
    StepBehind(m, base, l.token);
    if l.token.kind == Comment {
      DecideBehind(m, base, l.rest);
    } else if l.token.kind != Eof && Step(m, l.token).Some? {
      DecideBehind(Step(m, l.token).value, base, l.rest);
    }
  }

  lemma ParseAppends(base: Config, s: string)
    ensures Decide(After(base), s)
         == match Decide(INITIAL, s) case None => None case Some(c) => Some(Config(base.statements + c.statements))
  {
    assert base.statements + [] == base.statements;
    assert Prefixed(INITIAL, base) == After(base);
    DecideBehind(INITIAL, base, s);
  }

  // ----- Round trip -----

  predicate Plain(t: string) {
    && t != [] && !Blank(t[0]) && !Ends(t[0]) && t[0] != '#' && t[0] != '"' && t[0] != '\''
    && forall i :: 0 < i < |t| ==> !Ends(t[i])
  }

  predicate Quoted(t: string) {
    && |t| >= 2 && (t[0] == '"' || t[0] == '\'') && t[|t| - 1] == t[0]
    && forall i :: 0 < i < |t| - 1 ==> t[i] != t[0] && t[i] != '\\'
  }

  predicate Admissible(t: string) { Plain(t) || Quoted(t) }

  function InQuote(q: char): LexState { if q == '"' then DoubleQuote else SingleQuote }

  /** No token is longer than the text it was read from. */
  lemma {:induction false} LexedLength(state: LexState, v: string, s: string)
    ensures var l := Lex(state, v, s); l.token.kind == Normal ==> |l.token.value| + |l.rest| <= |v| + |s|
    decreases |s|
  {
    if s != [] {
      var c, t := s[0], s[1..];
      match state {
        case InitialWhitespace =>
          LexedLength(InComment, [c], t);
          LexedLength(DoubleQuote, [c], t);
          LexedLength(SingleQuote, [c], t);
          LexedLength(InitialWhitespace, v, t);
          LexedLength(InNormal, v + [c], t);
        case SingleQuote =>
          LexedLength(EscapeSingle, v, t);
          LexedLength(SingleQuote, v + [c], t);
        case DoubleQuote =>
          LexedLength(EscapeDouble, v, t);
          LexedLength(DoubleQuote, v + [c], t);
        case InComment => LexedLength(InComment, v + [c], t);
        case InNormal => LexedLength(InNormal, v + [c], t);
        case EscapeSingle => LexedLength(SingleQuote, v + [c], t);
        case EscapeDouble => LexedLength(DoubleQuote, v + [c], t);
      }
    }
  }

  lemma {:induction false} NormalRun(v: string, w: string, s: string)
    requires s != [] && Ends(s[0])
    ensures Lex(InNormal, v, w + s) == Lexed(Lexeme(Normal, v + w), s) <==> forall i :: 0 <= i < |w| ==> !Ends(w[i])
    decreases |w|
  {
    if w == [] {
      assert w + s == s && v + w == v;
    } else if Ends(w[0]) {
      assert |w + s| != |s|;
    } else {
      assert (w + s)[1..] == w[1..] + s && v + w == v + [w[0]] + w[1..];
      NormalRun(v + [w[0]], w[1..], s);
    }
  }

  function InEscape(q: char): LexState { if q == '"' then EscapeDouble else EscapeSingle }

  lemma QuoteStep(q: char, v: string, w: string, s: string)
    requires (q == '"' || q == '\'') && w != []
    ensures Lex(InQuote(q), v, w + s)
         == if w[0] == q then AfterQuote(v + [w[0]], w[1..] + s)
            else if w[0] == '\\' then Lex(InEscape(q), v, w[1..] + s)
            else Lex(InQuote(q), v + [w[0]], w[1..] + s)
  {
    assert (w + s)[1..] == w[1..] + s;
  }

  /** The quote closes at the end of w and nowhere before, and nothing in w is escaped. */
  predicate Closes(q: char, w: string) {
    w != [] && w[|w| - 1] == q && forall i :: 0 <= i < |w| - 1 ==> w[i] != q && w[i] != '\\'
  }

  lemma ClosesLater(q: char, w: string)
    requires |w| > 1
    ensures Closes(q, w) <==> w[0] != q && w[0] != '\\' && Closes(q, w[1..])
  {
    assert forall i :: 0 <= i < |w| - 1 ==> w[i] == if i == 0 then w[0] else w[1..][i - 1];
    assert forall i :: 0 <= i < |w| - 2 ==> w[1..][i] == w[i + 1];
  }

  lemma {:induction false} QuoteRun(q: char, v: string, w: string, s: string)
    requires (q == '"' || q == '\'') && s != [] && Ends(s[0])
    ensures Lex(InQuote(q), v, w + s) == Lexed(Lexeme(Normal, v + w), s) <==> Closes(q, w)
    decreases |w|
  {
    hide Lex;
    if w == [] {
      assert w + s == s;
    } else {
      var t := w[1..] + s;
      QuoteStep(q, v, w, s);
      if w[0] == q {
        assert |w| == 1 <==> |t| == |s|;
        assert |w| == 1 ==> t == s && w == [q];
      } else if w[0] == '\\' {
        LexedLength(InEscape(q), v, t);
      } else {
        assert v + w == v + [w[0]] + w[1..];
        QuoteRun(q, v + [w[0]], w[1..], s);
        if |w| > 1 {
          ClosesLater(q, w);
        }
      }
    }
  }

  lemma QuotedSurvives(t: string, s: string)
    requires s != [] && Ends(s[0]) && t != [] && (t[0] == '"' || t[0] == '\'')
    ensures NextToken(t + s) == Lexed(Lexeme(Normal, t), s) <==> Quoted(t)
  {
    var q, w := t[0], t[1..];
    assert (t + s)[1..] == w + s && [q] + w == t;
    assert NextToken(t + s) == Lex(InQuote(q), [q], w + s);
    QuoteRun(q, [q], w, s);
    hide Lex;
    assert forall i :: 0 < i < |t| - 1 ==> t[i] == w[i - 1];
    assert forall i :: 0 <= i < |w| - 1 ==> w[i] == t[i + 1];
  }

  lemma PlainSurvives(t: string, s: string)
    requires s != [] && Ends(s[0]) && t != [] && !Blank(t[0]) && !Ends(t[0]) && t[0] != '#' && t[0] != '"' && t[0] != '\''
    ensures NextToken(t + s) == Lexed(Lexeme(Normal, t), s) <==> Plain(t)
  {
    var w := t[1..];
    assert (t + s)[1..] == w + s && [t[0]] + w == t && "" + [t[0]] == [t[0]];
    NormalRun([t[0]], w, s);
    hide Lex;
    assert forall i :: 0 < i < |t| ==> t[i] == w[i - 1];
    assert forall i :: 0 <= i < |w| ==> w[i] == t[i + 1];
  }

  /** Main result: a printed token is read back as itself exactly when it is admissible. */
  lemma TokenSurvives(t: string, s: string)
    requires s != [] && Ends(s[0])
    ensures NextToken(t + s) == Lexed(Lexeme(Normal, t), s) <==> Admissible(t)
  {
    if t == [] {
      assert t + s == s;
    } else if t[0] == '"' || t[0] == '\'' {
      QuotedSurvives(t, s);
    } else if !Blank(t[0]) && !Ends(t[0]) && t[0] != '#' {
      PlainSurvives(t, s);
    } else {
      assert (t + s)[1..] == t[1..] + s;
      LexedLength(InitialWhitespace, "", t[1..] + s);
      CommentStays([t[0]], t[1..] + s);
    }
  }

  lemma {:induction false} CommentStays(v: string, s: string)
    ensures Lex(InComment, v, s).token.kind != Normal
    decreases |s|
  {
    if s != [] {
      CommentStays(v + [s[0]], s[1..]);
    }
  }

  // ----- Comments, blanks and escapes -----

  lemma {:induction false} CommentEnds(v: string, body: string, stop: char, s: string)
    requires (stop == '\n' || stop == '\r') && '\n' !in body && '\r' !in body
    ensures Lex(InComment, v, body + [stop] + s) == Lexed(Lexeme(Comment, v + body), s)
    decreases |body|
  {
    var t := body + [stop] + s;
    if body == [] {
      assert t[1..] == s && v + body == v;
    } else {
      assert t[1..] == body[1..] + [stop] + s && v + body == v + [body[0]] + body[1..];
      CommentEnds(v + [body[0]], body[1..], stop, s);
    }
  }

  /** Main result: comments, from a hash sign to the end of the line, change nothing about a parse. */
  lemma CommentsChangeNothing(m: Machine, body: string, stop: char, s: string)
    requires Ready(m) && (stop == '\n' || stop == '\r') && '\n' !in body && '\r' !in body
    ensures Decide(m, "#" + body + [stop] + s) == Decide(m, s)
  {
    hide Step, Ready;
    var t := "#" + body + [stop] + s;
    assert t[1..] == body + [stop] + s;
    CommentEnds("#", body, stop, s);
    assert NextToken(t) == Lexed(Lexeme(Comment, "#" + body), s);
  }

  /** Nor does more white space before a token. */
  lemma BlanksChangeNothing(m: Machine, c: char, s: string)
    requires Ready(m) && (c == ' ' || c == '\t' || c == '\n' || c == '\r')
    ensures Decide(m, [c] + s) == Decide(m, s)
  {
    hide Step, Ready;
    assert ([c] + s)[1..] == s;
    assert NextToken([c] + s) == NextToken(s);
  }

  /** Any text, written so that it can stand between quotes. */
  function Escaped(q: char, w: string): string {
    if w == [] then [] else (if w[0] == q || w[0] == '\\' then ['\\', w[0]] else [w[0]]) + Escaped(q, w[1..])
  }

  lemma EscapeStep(q: char, v: string, c: char, rest: string)
    requires q == '"' || q == '\''
    ensures Lex(InQuote(q), v, ['\\', c] + rest) == Lex(InQuote(q), v + [c], rest)
  {
    assert (['\\', c] + rest)[1..] == [c] + rest && ([c] + rest)[1..] == rest;
    assert Lex(InQuote(q), v, ['\\', c] + rest) == Lex(InEscape(q), v, [c] + rest);
  }

  lemma {:induction false} EscapedRun(q: char, v: string, w: string, s: string)
    requires q == '"' || q == '\''
    ensures Lex(InQuote(q), v, Escaped(q, w) + [q] + s) == AfterQuote(v + w + [q], s)
    decreases |w|
  {
    hide Lex, AfterQuote;
    var rest := Escaped(q, if w == [] then [] else w[1..]) + [q] + s;
    if w == [] {
      QuoteStep(q, v, [q], s);
      assert Escaped(q, w) + [q] + s == [q] + s && [q][1..] + s == s && v + w == v;
    } else {
      assert v + w == v + [w[0]] + w[1..];
      EscapedRun(q, v + [w[0]], w[1..], s);
      if w[0] == q || w[0] == '\\' {
        EscapeStep(q, v, w[0], rest);
        assert Escaped(q, w) + [q] + s == ['\\', w[0]] + rest;
      } else {
        QuoteStep(q, v, [w[0]], rest);
        assert Escaped(q, w) + [q] + s == [w[0]] + rest && [w[0]][1..] + rest == rest;
      }
    }
  }

  /** Main result: with backslashes before quotes and backslashes, every text can be quoted, and is read without them. */
  lemma EscapedReads(q: char, w: string, s: string)
    requires (q == '"' || q == '\'') && s != [] && Ends(s[0])
    ensures NextToken([q] + Escaped(q, w) + [q] + s) == Lexed(Lexeme(Normal, [q] + w + [q]), s)
  {
    var t := [q] + Escaped(q, w) + [q] + s;
    assert t[1..] == Escaped(q, w) + [q] + s;
    EscapedRun(q, [q], w, s);
    assert NextToken(t) == Lex(InQuote(q), [q], t[1..]);
  }

  lemma VisibleBlank(c: char, s: string)
    requires Blank(c)
    ensures Visible([c] + s) == Visible(s)
  {
    assert ([c] + s)[1..] == s;
    assert NextToken([c] + s) == NextToken(s);
  }

  lemma VisibleMark(c: char, s: string)
    requires c == ';' || c == '{' || c == '}'
    ensures Visible([c] + s) == Prepend([if c == ';' then SEMICOLON else if c == '{' then OPEN else CLOSE], Visible(s))
  {
    assert ([c] + s)[1..] == s;
  }

  lemma {:induction false} VisibleIndent(depth: nat, s: string)
    ensures Visible(Indent(depth) + s) == Visible(s)
  {
    if depth == 0 {
      assert Indent(depth) + s == s;
    } else {
      var t := Indent(depth - 1) + s;
      assert Indent(depth) + s == [' '] + ([' '] + t);
      VisibleBlank(' ', [' '] + t);
      VisibleBlank(' ', t);
      VisibleIndent(depth - 1, s);
    }
  }

  lemma VisibleToken(t: string, s: string)
    requires Admissible(t) && s != [] && Ends(s[0])
    ensures Visible(t + s) == Prepend([Lexeme(Normal, t)], Visible(s))
  {
    TokenSurvives(t, s);
  }

  lemma {:induction false} VisibleWords(tokens: seq<string>, s: string)
    requires tokens != [] && (forall t :: t in tokens ==> Admissible(t)) && s != [] && Ends(s[0])
    ensures Visible(Joined(tokens) + s) == Prepend(Words(tokens), Visible(s))
  {
    hide Visible, Admissible;
    if |tokens| == 1 {
      assert Words(tokens) == [Lexeme(Normal, tokens[0])];
      VisibleToken(tokens[0], s);
    } else {
      var tail := Joined(tokens[1..]) + s;
      assert Joined(tokens) + s == tokens[0] + ([' '] + tail);
      VisibleToken(tokens[0], [' '] + tail);
      VisibleBlank(' ', tail);
      VisibleWords(tokens[1..], s);
      assert Words(tokens) == [Lexeme(Normal, tokens[0])] + Words(tokens[1..]);
      PrependTwice([Lexeme(Normal, tokens[0])], Words(tokens[1..]), Visible(s));
    }
  }

  lemma PrependTwice(a: seq<Lexeme>, b: seq<Lexeme>, o: Option<seq<Lexeme>>)
    ensures Prepend(a, Prepend(b, o)) == Prepend(a + b, o)
  {
    if o.Some? {
      assert a + (b + o.value) == (a + b) + o.value;
    }
  }

  /** Trees that survive printing: no empty statement, only admissible tokens. */
  ghost predicate Printable(ss: seq<Statement>)
    decreases ss
  {
    ss == [] || (PrintableOne(ss[0]) && Printable(ss[1..]))
  }

  ghost predicate PrintableOne(st: Statement)
    decreases st
  {
    && st.tokens != [] && (forall t :: t in st.tokens ==> Admissible(t))
    && (st.child.Block? ==> Printable(st.child.config.statements))
  }

  lemma {:induction false} PrintableOneIsWorded(st: Statement)
    requires PrintableOne(st)
    ensures WordedOne(st)
    decreases st, 0
  {
    if st.child.Block? {
      PrintableIsWorded(st.child.config.statements);
    }
  }

  lemma {:induction false} PrintableIsWorded(ss: seq<Statement>)
    requires Printable(ss)
    ensures Worded(ss)
    decreases ss, 1
  {
    if ss != [] {
      PrintableOneIsWorded(ss[0]);
      PrintableIsWorded(ss[1..]);
    }
  }

  lemma {:induction false} VisibleStatement(st: Statement, depth: nat, s: string)
    requires PrintableOne(st)
    ensures Visible(StatementText(st, depth) + s) == Prepend(FlattenOne(st), Visible(s))
    decreases st, 0
  {
    hide Visible, Indent, Joined, Words, Admissible, Prepend, Flatten, StatementsText;
    match st.child {
      case NoChild =>
        var tail := [';'] + (['\n'] + s);
        assert StatementText(st, depth) + s == Indent(depth) + (Joined(st.tokens) + tail);
        VisibleIndent(depth, Joined(st.tokens) + tail);
        VisibleWords(st.tokens, tail);
        VisibleMark(';', ['\n'] + s);
        VisibleBlank('\n', s);
        PrependTwice(Words(st.tokens), [SEMICOLON], Visible(s));
      case Block(c) =>
        VisibleBlock(st, c, depth, s);
    }
  }

  lemma {:induction false} VisibleBlock(st: Statement, c: Config, depth: nat, s: string)
    requires PrintableOne(st) && st.child == Block(c)
    ensures Visible(StatementText(st, depth) + s) == Prepend(FlattenOne(st), Visible(s))
    decreases c
  {
    hide Visible, Indent, Joined, Words, Admissible, Prepend, Flatten, StatementsText;
    var close := ['}'] + (['\n'] + s);
    var body := ConfigText(c, depth + 1) + (Indent(depth) + close);
    var tail := [' '] + (['{'] + (['\n'] + body));
    assert StatementText(st, depth) + s == Indent(depth) + (Joined(st.tokens) + tail);
    VisibleIndent(depth, Joined(st.tokens) + tail);
    VisibleWords(st.tokens, tail);
    VisibleBlank(' ', ['{'] + (['\n'] + body));
    VisibleMark('{', ['\n'] + body);
    VisibleBlank('\n', body);
    VisibleStatements(c.statements, depth + 1, Indent(depth) + close);
    VisibleIndent(depth, close);
    VisibleMark('}', ['\n'] + s);
    VisibleBlank('\n', s);
    var inner := Flatten(c.statements);
    PrependTwice(inner, [CLOSE], Visible(s));
    PrependTwice([OPEN], inner + [CLOSE], Visible(s));
    PrependTwice(Words(st.tokens), [OPEN] + (inner + [CLOSE]), Visible(s));
    assert FlattenOne(st) == Words(st.tokens) + ([OPEN] + (inner + [CLOSE]));
  }

  lemma {:induction false} VisibleStatements(ss: seq<Statement>, depth: nat, s: string)
    requires Printable(ss)
    ensures Visible(StatementsText(ss, depth) + s) == Prepend(Flatten(ss), Visible(s))
    decreases ss, 1
  {
    hide Visible, StatementText, FlattenOne, PrintableOne;
    if ss == [] {
      assert StatementsText(ss, depth) + s == s;
      PrependNothing(Visible(s));
    } else {
      var tail := StatementsText(ss[1..], depth) + s;
      assert StatementsText(ss, depth) + s == StatementText(ss[0], depth) + tail;
      VisibleStatement(ss[0], depth, tail);
      VisibleStatements(ss[1..], depth, s);
      PrependTwice(FlattenOne(ss[0]), Flatten(ss[1..]), Visible(s));
    }
  }

  lemma PrependNothing(o: Option<seq<Lexeme>>)
    ensures Prepend([], o) == o
  {
    if o.Some? {
      assert [] + o.value == o.value;
    }
  }

  /** Main result: what is printed at any depth is read back as the same tree. */
  lemma ConfigRoundTrip(c: Config, depth: nat)
    requires Printable(c.statements)
    ensures Decide(INITIAL, ConfigText(c, depth)) == Some(c)
  {
    PrintableIsWorded(c.statements);
    VisibleStatements(c.statements, depth, "");
    assert ConfigText(c, depth) + "" == ConfigText(c, depth);
    assert Flatten(c.statements) + [] == Flatten(c.statements);
    ParserDecidesGrammar(ConfigText(c, depth), c);
  }

  // ----- Texts that end in the middle of a token -----

  /** What one character does to the scanner; a character that ends a token leads back between tokens. */
  function NextState(state: LexState, c: char): LexState {
    match state
    case InitialWhitespace =>
      if c == '#' then InComment else if c == '"' then DoubleQuote else if c == '\'' then SingleQuote
      else if Blank(c) || Ends(c) then InitialWhitespace else InNormal
    case SingleQuote => if c == '\'' then InitialWhitespace else if c == '\\' then EscapeSingle else SingleQuote
    case DoubleQuote => if c == '"' then InitialWhitespace else if c == '\\' then EscapeDouble else DoubleQuote
    case InComment => if c == '\n' || c == '\r' then InitialWhitespace else InComment
    case InNormal => if Ends(c) then InitialWhitespace else InNormal
    case EscapeSingle => SingleQuote
    case EscapeDouble => DoubleQuote
  }

  /** Where the scanner stands after a text, character by character. */
  function EndState(state: LexState, s: string): LexState
    decreases |s|
  {
    if s == [] then state else EndState(NextState(state, s[0]), s[1..])
  }

  /** The token that a line break completes when the text has run out in a state, having read v. */
  function Completed(state: LexState, v: string): Lexed {
    match state
    case InitialWhitespace => Lexed(Lexeme(Eof, v), [])
    case InComment => Lexed(Lexeme(Comment, v), [])
    case InNormal => Lexed(Lexeme(Normal, v), "\n")
    case _ => Lexed(Lexeme(Error, v + "\n"), [])
  }

  /** What a line break after the text does to the next token. */
  ghost predicate LineBreakShifts(state: LexState, v: string, s: string) {
    var l, l' := Lex(state, v, s), Lex(state, v, s + "\n");
    if l.token.kind == Error then true
    else if l.token.kind == Eof then l' == Completed(EndState(state, s), l.token.value)
    else l' == Lexed(l.token, l.rest + "\n") && EndState(InitialWhitespace, l.rest) == EndState(state, s)
  }

  lemma LineBreakAtEnd(state: LexState, v: string)
    ensures LineBreakShifts(state, v, [])
  {
    assert [] + "\n" == "\n" && "\n"[1..] == [] && "\n"[0] == '\n';
    assert v + ['\n'] == v + "\n";
  }

  /** The character completes a token. */
  predicate Finishes(state: LexState, c: char) {
    match state
    case InitialWhitespace => c == ';' || c == '{' || c == '}'
    case SingleQuote => c == '\''
    case DoubleQuote => c == '"'
    case InComment => c == '\n' || c == '\r'
    case InNormal => Ends(c)
    case _ => false
  }

  function NextValue(state: LexState, v: string, c: char): string {
    match state
    case InitialWhitespace =>
      if c == '#' || c == '"' || c == '\'' then [c] else if Blank(c) then v else v + [c]
    case SingleQuote => if c == '\\' then v else v + [c]
    case DoubleQuote => if c == '\\' then v else v + [c]
    case _ => v + [c]
  }

  lemma Advance(state: LexState, v: string, s: string)
    requires s != [] && !Finishes(state, s[0])
    ensures Lex(state, v, s) == Lex(NextState(state, s[0]), NextValue(state, v, s[0]), s[1..])
  {
  }

  lemma LineBreakAfterToken(state: LexState, v: string, s: string)
    requires s != [] && Finishes(state, s[0])
    ensures LineBreakShifts(state, v, s)
  {
    var t := s[1..];
    assert (s + "\n")[0] == s[0] && (s + "\n")[1..] == t + "\n";
    assert NextState(state, s[0]) == InitialWhitespace && (state == InNormal ==> NextState(InitialWhitespace, s[0]) == InitialWhitespace);
    assert t != [] ==> (t + "\n")[0] == t[0];
  }

  lemma {:induction false} LineBreakAnywhere(state: LexState, v: string, s: string)
    ensures LineBreakShifts(state, v, s)
    decreases |s|
  {
    if s == [] {
      LineBreakAtEnd(state, v);
    } else if Finishes(state, s[0]) {
      LineBreakAfterToken(state, v, s);
    } else {
      Advance(state, v, s);
      Advance(state, v, s + "\n");
      assert (s + "\n")[1..] == s[1..] + "\n";
      hide Lex, NextValue, NextState, Completed;
      LineBreakAnywhere(NextState(state, s[0]), NextValue(state, v, s[0]), s[1..]);
    }
  }

  /** The end of an accepted text, with and without a line break. */
  lemma LastToken(m: Machine, state: LexState, v: string, s: string)
    requires Ready(m) && NextToken(s).token.kind == Eof && NextToken(s + "\n") == Completed(state, v) && Finished(m)
    ensures Decide(m, s + "\n") == if state in {InitialWhitespace, InComment} then Decide(m, s) else None
  {
    assert NextToken("") == Lexed(Lexeme(Eof, ""), []) && NextToken("\n").token.kind == Eof by {
      assert "\n"[1..] == "";
    }
    hide Lex;
  }

  /** Main result: a line break after an accepted text changes nothing if the text ends between tokens or in a comment,
      and otherwise makes it rejected: what an unfinished word or escape held had been dropped without an error. */
  lemma {:induction false} CutOffExactly(m: Machine, s: string)
    requires Ready(m) && Decide(m, s).Some?
    ensures Decide(m, s + "\n")
         == if EndState(InitialWhitespace, s) in {InitialWhitespace, InComment} then Decide(m, s) else None
    decreases |s|
  {
    LineBreakAnywhere(InitialWhitespace, "", s);
    var l := NextToken(s);
    hide Lex, EndState, Step;
    if l.token.kind == Comment {
      CutOffExactly(m, l.rest);
    } else if l.token.kind == Eof {
      LastToken(m, EndState(InitialWhitespace, s), l.token.value, s);
    } else {
      CutOffExactly(Step(m, l.token).value, l.rest);
    }
  }

  /** A word cut off by the end of the file is dropped. */
  lemma CutOffWord()
    ensures Decide(INITIAL, "ab") == Some(Config([])) && EndState(InitialWhitespace, "ab") == InNormal
  {
    Advance(InitialWhitespace, "", "ab");
    Advance(InNormal, "a", "b");
    assert "ab"[1..] == "b" && "b"[1..] == "";
  }

  /** So is an open quote cut off right after a backslash, although an open quote is otherwise an error. */
  lemma CutOffEscape()
    ensures Decide(INITIAL, "\"a\\") == Some(Config([])) && EndState(InitialWhitespace, "\"a\\") == EscapeDouble
    ensures Decide(INITIAL, "\"a") == None
  {
    Advance(InitialWhitespace, "", "\"a\\");
    Advance(DoubleQuote, "\"", "a\\");
    Advance(DoubleQuote, "\"a", "\\");
    Advance(InitialWhitespace, "", "\"a");
    Advance(DoubleQuote, "\"", "a");
    assert "\"a\\"[1..] == "a\\" && "a\\"[1..] == "\\" && "\\"[1..] == "" && "\"a"[1..] == "a" && "a"[1..] == "";
  }

  // ----- Only printable trees come back -----

  /** A normal token begins with what had been read when it was scanned. */
  lemma {:induction false} KeepsPrefix(state: LexState, v: string, s: string)
    requires state != InitialWhitespace
    ensures Lex(state, v, s).token.kind == Normal ==> v <= Lex(state, v, s).token.value
    decreases |s|
  {
    if s != [] && !Finishes(state, s[0]) {
      Advance(state, v, s);
      hide Lex;
      KeepsPrefix(NextState(state, s[0]), NextValue(state, v, s[0]), s[1..]);
    } else if state == InComment {
      CommentStays(v, s);
    }
  }

  predicate StartsToken(c: char) { !Blank(c) && !Ends(c) && c != '#' }

  /** Every normal token starts with a character that can start one. */
  lemma {:induction false} NormalHead(s: string)
    ensures var l := Lex(InitialWhitespace, "", s);
            l.token.kind == Normal ==> l.token.value != [] && StartsToken(l.token.value[0])
    decreases |s|
  {
    if s != [] {
      var c, t := s[0], s[1..];
      assert "" + [c] == [c];
      KeepsPrefix(InNormal, [c], t);
      KeepsPrefix(DoubleQuote, [c], t);
      KeepsPrefix(SingleQuote, [c], t);
      CommentStays([c], t);
      NormalHead(t);
    }
  }

  lemma {:induction false} VisibleHead(s: string, v: string, x: seq<Lexeme>)
    requires Visible(s) == Some([Lexeme(Normal, v)] + x)
    ensures v != [] && StartsToken(v[0])
    decreases |s|
  {
    NormalHead(s);
    var l := NextToken(s);
    hide Lex;
    if l.token.kind == Comment {
      VisibleHead(l.rest, v, x);
    } else {
      assert ([Lexeme(Normal, v)] + x)[0] == l.token;
    }
  }

  lemma {:induction false} NormalValue(v: string, w: string, s: string)
    requires Lex(InNormal, v, w + s).token == Lexeme(Normal, v + w)
    ensures forall i :: 0 <= i < |w| ==> !Ends(w[i])
    decreases |w|
  {
    if w != [] {
      assert (w + s)[1..] == w[1..] + s && (w + s)[0] == w[0];
      if !Ends(w[0]) {
        assert v + w == v + [w[0]] + w[1..];
        NormalValue(v + [w[0]], w[1..], s);
      }
    }
  }

  /** A quoted token in which a backslash has been dropped is not the text it was read from: the backslashes would have to
      go on until after the token's own end. */
  lemma {:induction false} DroppedShows(q: char, v: string, u: string, k: nat, s: string)
    requires (q == '"' || q == '\'') && s != [] && Ends(s[0]) && 1 <= k <= |u|
    requires forall i :: 0 <= i < k ==> u[i] == '\\'
    ensures Lex(InEscape(q), v, u[k..] + s).token != Lexeme(Normal, v + u)
    decreases |u|, 0
  {
    var text := u[k..] + s;
    var y := text[0];
    Advance(InEscape(q), v, text);
    KeepsPrefix(InQuote(q), v + [y], text[1..]);
    assert (v + u)[|v|] == '\\' && (v + [y])[|v|] == y;
    if y == '\\' {
      assert k < |u|;
      var u', v' := u[1..], v + ['\\'];
      assert v' + u' == v + u && text[1..] == u'[k..] + s;
      SecondBackslash(q, v', u', k, s);
    }
  }

  lemma SecondBackslash(q: char, v: string, u: string, k: nat, s: string)
    requires (q == '"' || q == '\'') && s != [] && Ends(s[0]) && 1 <= k <= |u|
    requires forall i :: 0 <= i < k ==> u[i] == '\\'
    ensures Lex(InQuote(q), v, u[k..] + s).token != Lexeme(Normal, v + u)
    decreases |u|, 1
  {
    var text := u[k..] + s;
    var z := text[0];
    assert (v + u)[|v|] == '\\' && (v + [z])[|v|] == z;
    if z == '\\' {
      assert k < |u|;
      Advance(InQuote(q), v, text);
      assert text[1..] == u[k + 1..] + s;
      DroppedShows(q, v, u, k + 1, s);
    } else if z != q {
      Advance(InQuote(q), v, text);
      KeepsPrefix(InQuote(q), v + [z], text[1..]);
    }
  }

  lemma {:induction false} QuoteValue(q: char, v: string, w: string, s: string)
    requires (q == '"' || q == '\'') && s != [] && Ends(s[0])
    requires Lex(InQuote(q), v, w + s).token == Lexeme(Normal, v + w)
    ensures Closes(q, w)
    decreases |w|
  {
    if w == [] {
      assert w + s == s;
      Advance(InQuote(q), v, s);
      KeepsPrefix(InQuote(q), v + [s[0]], s[1..]);
    } else if w[0] == q {
      QuoteStep(q, v, w, s);
      assert v + w == v + [q] ==> |w| == 1;
    } else if w[0] == '\\' {
      QuoteStep(q, v, w, s);
      DroppedShows(q, v, w, 1, s);
    } else {
      QuoteStep(q, v, w, s);
      assert v + w == v + [w[0]] + w[1..];
      QuoteValue(q, v + [w[0]], w[1..], s);
      if |w| > 1 {
        ClosesLater(q, w);
      }
    }
  }

  lemma {:induction false} NeverComment(state: LexState, v: string, s: string)
    requires state != InitialWhitespace && state != InComment
    ensures Lex(state, v, s).token.kind != Comment
    decreases |s|
  {
    if s != [] && !Finishes(state, s[0]) {
      Advance(state, v, s);
      hide Lex;
      NeverComment(NextState(state, s[0]), NextValue(state, v, s[0]), s[1..]);
    }
  }

  /** If the first token seen in a printed word and what follows is that word, the word is admissible. */
  lemma FirstTokenAdmissible(t: string, s: string, x: seq<Lexeme>)
    requires s != [] && Ends(s[0]) && Visible(t + s) == Some([Lexeme(Normal, t)] + x)
    ensures Admissible(t)
  {
    VisibleHead(t + s, t, x);
    var c, w := t[0], t[1..];
    assert (t + s)[0] == c && (t + s)[1..] == w + s && [c] + w == t && "" + [c] == [c];
    NeverComment(InQuote(c), [c], w + s);
    NeverComment(InNormal, [c], w + s);
    FirstOfVisible(t + s, Lexeme(Normal, t), x);
    if c == '"' || c == '\'' {
      assert NextToken(t + s) == Lex(InQuote(c), [c], w + s);
      QuoteValue(c, [c], w, s);
      QuoteRun(c, [c], w, s);
      QuotedSurvives(t, s);
    } else {
      assert NextToken(t + s) == Lex(InNormal, [c], w + s);
      NormalValue([c], w, s);
      assert forall i :: 0 < i < |t| ==> t[i] == w[i - 1];
    }
  }

  lemma FirstOfVisible(s: string, l: Lexeme, x: seq<Lexeme>)
    requires Visible(s) == Some([l] + x) && NextToken(s).token.kind != Comment
    ensures NextToken(s).token == l
  {
    hide Lex;
    assert ([l] + x)[0] == l;
  }

  lemma Cancel(a: seq<Lexeme>, o: Option<seq<Lexeme>>, x: seq<Lexeme>)
    requires Prepend(a, o) == Some(a + x)
    ensures o == Some(x)
  {
    assert (a + o.value)[|a|..] == o.value && (a + x)[|a|..] == x;
  }

  lemma {:induction false} WordsAdmissible(tokens: seq<string>, s: string, x: seq<Lexeme>)
    requires tokens != [] && s != [] && Ends(s[0]) && Visible(Joined(tokens) + s) == Some(Words(tokens) + x)
    ensures (forall t :: t in tokens ==> Admissible(t)) && Visible(s) == Some(x)
    decreases |tokens|
  {
    hide Visible, Admissible;
    var first := [Lexeme(Normal, tokens[0])];
    var tail := if |tokens| == 1 then s else [' '] + (Joined(tokens[1..]) + s);
    var after := if |tokens| == 1 then x else Words(tokens[1..]) + x;
    assert Joined(tokens) + s == tokens[0] + tail && Words(tokens) + x == first + after;
    FirstTokenAdmissible(tokens[0], tail, after);
    VisibleToken(tokens[0], tail);
    Cancel(first, Visible(tail), after);
    if |tokens| > 1 {
      VisibleBlank(' ', Joined(tokens[1..]) + s);
      WordsAdmissible(tokens[1..], s, x);
      assert forall t :: t in tokens ==> t == tokens[0] || t in tokens[1..];
    }
  }

  lemma {:induction false} StatementPrintable(st: Statement, depth: nat, s: string, x: seq<Lexeme>)
    requires WordedOne(st) && Visible(StatementText(st, depth) + s) == Some(FlattenOne(st) + x)
    ensures PrintableOne(st)
    decreases st, 0
  {
    hide Visible, Indent, Joined, Words, Admissible, Prepend, Flatten, StatementsText;
    match st.child {
      case NoChild =>
        var tail := [';'] + (['\n'] + s);
        assert StatementText(st, depth) + s == Indent(depth) + (Joined(st.tokens) + tail);
        assert FlattenOne(st) + x == Words(st.tokens) + ([SEMICOLON] + x);
        VisibleIndent(depth, Joined(st.tokens) + tail);
        WordsAdmissible(st.tokens, tail, [SEMICOLON] + x);
      case Block(c) =>
        BlockPrintable(st, c, depth, s, x);
    }
  }

  lemma {:induction false} BlockPrintable(st: Statement, c: Config, depth: nat, s: string, x: seq<Lexeme>)
    requires WordedOne(st) && st.child == Block(c) && Visible(StatementText(st, depth) + s) == Some(FlattenOne(st) + x)
    ensures PrintableOne(st)
    decreases c
  {
    hide Visible, Indent, Joined, Words, Admissible, Prepend, Flatten, StatementsText;
    var close := Indent(depth) + (['}'] + (['\n'] + s));
    var body, after := ConfigText(c, depth + 1) + close, Flatten(c.statements) + ([CLOSE] + x);
    var tail := [' '] + (['{'] + (['\n'] + body));
    assert StatementText(st, depth) + s == Indent(depth) + (Joined(st.tokens) + tail);
    assert FlattenOne(st) + x == Words(st.tokens) + ([OPEN] + after);
    VisibleIndent(depth, Joined(st.tokens) + tail);
    WordsAdmissible(st.tokens, tail, [OPEN] + after);
    VisibleBlank(' ', ['{'] + (['\n'] + body));
    VisibleMark('{', ['\n'] + body);
    Cancel([OPEN], Visible(['\n'] + body), after);
    VisibleBlank('\n', body);
    StatementsPrintable(c.statements, depth + 1, close, [CLOSE] + x);
  }

  lemma {:induction false} StatementsPrintable(ss: seq<Statement>, depth: nat, s: string, x: seq<Lexeme>)
    requires Worded(ss) && Visible(StatementsText(ss, depth) + s) == Some(Flatten(ss) + x)
    ensures Printable(ss)
    decreases ss, 1
  {
    hide Visible, StatementText, FlattenOne, PrintableOne, WordedOne;
    if ss != [] {
      var tail, after := StatementsText(ss[1..], depth) + s, Flatten(ss[1..]) + x;
      assert StatementsText(ss, depth) + s == StatementText(ss[0], depth) + tail;
      assert Flatten(ss) + x == FlattenOne(ss[0]) + after;
      StatementPrintable(ss[0], depth, tail, after);
      VisibleStatement(ss[0], depth, tail);
      Cancel(FlattenOne(ss[0]), Visible(tail), after);
      StatementsPrintable(ss[1..], depth, s, x);
    }
  }

  /** Main result: a tree comes back from its printed text exactly if it is printable. */
  lemma RoundTripIff(c: Config, depth: nat)
    ensures Decide(INITIAL, ConfigText(c, depth)) == Some(c) <==> Printable(c.statements)
  {
    if Printable(c.statements) {
      ConfigRoundTrip(c, depth);
    }
    if Decide(INITIAL, ConfigText(c, depth)) == Some(c) {
      ParserDecidesGrammar(ConfigText(c, depth), c);
      hide Decide, Visible, Printable, Worded, Flatten, StatementsText;
      assert ConfigText(c, depth) + "" == ConfigText(c, depth) && Flatten(c.statements) + [] == Flatten(c.statements);
      StatementsPrintable(c.statements, depth, "", []);
    }
  }

  // ----- The parser on a stream -----

  /** The part of an input stream that the parser uses: get, unget and the good bit. */
  class Input {
    const text: string
    var pos: nat
    var good: bool

    ghost predicate Valid()
      reads this
    {
      pos <= |text|
    }

    ghost function Rest(): string
      requires Valid()
      reads this
    {
      text[pos..]
    }

    constructor (text: string)
      ensures Valid() && good && Rest() == text
    {
      this.text := text;
      pos, good := 0, true;
    }

    /** The next character; at the end the good bit goes and the end marker, which is no text character, comes back. */
    method Get() returns (c: char)
      requires Valid() && good
      modifies this
      ensures Valid()
      ensures if old(Rest()) == [] then !good && Rest() == [] && c == EOF_CHAR
              else good && c == old(Rest())[0] && Rest() == old(Rest())[1..]
      ensures pos == old(pos) + if good then 1 else 0
    {
      if pos == |text| {
        good := false;
        return EOF_CHAR;
      }
      c := text[pos];
      pos := pos + 1;
    }

    method Unget()
      requires Valid() && good && pos > 0
      modifies this
      ensures Valid() && good && pos == old(pos) - 1
      ensures Rest() == [text[pos]] + old(Rest())
    {
      pos := pos - 1;
    }
  }

  const EOF_CHAR: char := 255 as char
}
