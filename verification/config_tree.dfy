/** The config tree as linked objects: the parser that fills it through a stack of pointers, and its printer. */
module ConfigTrees {
  import opened ConfigParsers

  class NginxConfigStatement {
    var tokens: seq<string>
    var child: NginxConfig?

    constructor ()
      ensures tokens == [] && child == null
    {
      tokens, child := [], null;
    }

    method ToString(depth: nat, ghost v: Statement, ghost nodes: set<object>) returns (s: string)
      requires ShowsOne(this, v, nodes)
      ensures s == StatementText(v, depth)
      decreases v, 0
    {
      s := Indented(depth);
      var joined := Join(tokens);
      s := s + joined;
      if child != null {
        s := s + " {\n";
        var block := child.ToString(depth + 1, v.child.config, nodes);
        s := s + block;
        var indent := Indented(depth);
        s := s + indent;
        s := s + "}";
      } else {
        s := s + ";";
      }
      s := s + "\n";
    }
  }

  class NginxConfig {
    var statements: seq<NginxConfigStatement>

    constructor ()
      ensures statements == []
    {
      statements := [];
    }

    method ToString(depth: nat, ghost v: Config, ghost nodes: set<object>) returns (s: string)
      requires ShowsAll(statements, v.statements, nodes)
      ensures s == ConfigText(v, depth)
      decreases v, 1
    {
      s := "";
      for i := 0 to |statements|
        invariant s == StatementsText(v.statements[..i], depth)
      {
        StatementsTextSnoc(v.statements[..i], v.statements[i], depth);
        assert v.statements[..i + 1] == v.statements[..i] + [v.statements[i]];
        var one := statements[i].ToString(depth, v.statements[i], nodes);
        s := s + one;
      }
      assert v.statements[..|statements|] == v.statements;
    }
  }

  method Indented(depth: nat) returns (s: string)
    ensures s == Indent(depth)
  {
    s := "";
    for i := 0 to depth
      invariant s == Indent(i)
    {
      IndentSnoc(i);
      s := s + "  ";
    }
  }

  lemma {:induction false} IndentSnoc(n: nat)
    ensures Indent(n) + "  " == Indent(n + 1)
  {
    if n > 0 {
      IndentSnoc(n - 1);
    }
  }

  method Join(tokens: seq<string>) returns (s: string)
    ensures s == Joined(tokens)
  {
    s := "";
    for i := 0 to |tokens|
      invariant s == Joined(tokens[..i])
    {
      JoinedSnoc(tokens[..i], tokens[i]);
      assert tokens[..i + 1] == tokens[..i] + [tokens[i]];
      if i != 0 {
        s := s + " ";
      }
      s := s + tokens[i];
    }
    assert tokens[..|tokens|] == tokens;
  }

  lemma {:induction false} JoinedSnoc(tokens: seq<string>, t: string)
    ensures Joined(tokens + [t]) == if tokens == [] then t else Joined(tokens) + " " + t
  {
    if tokens != [] {
      JoinedSnoc(tokens[1..], t);
      assert (tokens + [t])[1..] == tokens[1..] + [t];
    }
  }

  lemma {:induction false} StatementsTextSnoc(ss: seq<Statement>, st: Statement, depth: nat)
    ensures StatementsText(ss + [st], depth) == StatementsText(ss, depth) + StatementText(st, depth)
  {
    hide StatementText;
    if ss == [] {
      assert StatementsText([], depth) == [];
      assert (ss + [st])[1..] == [] && (ss + [st])[0] == st;
    } else {
      StatementsTextSnoc(ss[1..], st, depth);
      assert (ss + [st])[1..] == ss[1..] + [st];
    }
  }

  // ----- Objects and the trees they show -----

  /** The object and everything below it are among the nodes and hold the statement. */
  ghost predicate ShowsOne(o: NginxConfigStatement, v: Statement, nodes: set<object>)
    reads nodes
    decreases v
  {
    && o in nodes && o.tokens == v.tokens
    && match v.child
       case NoChild => o.child == null
       case Block(c) => o.child != null && o.child in nodes && ShowsAll(o.child.statements, c.statements, nodes)
  }

  ghost predicate ShowsAll(os: seq<NginxConfigStatement>, vs: seq<Statement>, nodes: set<object>)
    reads nodes
    decreases vs
  {
    |os| == |vs| && forall i :: 0 <= i < |vs| ==> ShowsOne(os[i], vs[i], nodes)
  }

  lemma {:induction false} ShowsOneAmongMore(o: NginxConfigStatement, v: Statement, nodes: set<object>, more: set<object>)
    requires ShowsOne(o, v, nodes) && nodes <= more
    ensures ShowsOne(o, v, more)
    decreases v
  {
    if v.child.Block? {
      ShowsAmongMore(o.child.statements, v.child.config.statements, nodes, more);
    }
  }

  lemma {:induction false} ShowsAmongMore(os: seq<NginxConfigStatement>, vs: seq<Statement>, nodes: set<object>, more: set<object>)
    requires ShowsAll(os, vs, nodes) && nodes <= more
    ensures ShowsAll(os, vs, more)
    decreases vs
  {
    forall i | 0 <= i < |vs|
      ensures ShowsOne(os[i], vs[i], more)
    {
      ShowsOneAmongMore(os[i], vs[i], nodes, more);
    }
  }

  // ----- The stack of open configs -----

  function Latest(c: NginxConfig): NginxConfigStatement
    requires c.statements != []
    reads c
  {
    c.statements[|c.statements| - 1]
  }

  ghost function LatestSet(c: NginxConfig): set<object>
    reads c
  {
    if c.statements == [] then {} else {Latest(c)}
  }

  /** A config whose last statement is still open, with the open block as its child. */
  ghost predicate OpenLevel(c: NginxConfig, v: Config, next: NginxConfig?, nodes: set<object>)
    reads nodes, c, LatestSet(c)
  {
    && c.statements != [] && v.statements != []
    && ShowsAll(c.statements[..|c.statements| - 1], v.statements[..|v.statements| - 1], nodes)
    && Latest(c) !in nodes && Latest(c).tokens == Back(v).tokens && Latest(c).child == next
    && (next == null ==> Back(v).child == NoChild)
  }

  ghost predicate ClosedLevel(c: NginxConfig, v: Config, nodes: set<object>)
    reads nodes, c
  {
    ShowsAll(c.statements, v.statements, nodes)
  }

  ghost predicate TopLevel(c: NginxConfig, v: Config, last: Kind, nodes: set<object>)
    reads nodes, c, LatestSet(c)
  {
    if last == Normal then OpenLevel(c, v, null, nodes) else ClosedLevel(c, v, nodes)
  }

  /** The objects the parser may still change. */
  ghost function Live(stack: seq<NginxConfig>): set<object>
    reads stack
  {
    (set c | c in stack :: c as object) + (set c | c in stack && c.statements != [] :: Latest(c) as object)
  }

  ghost predicate Apart(stack: seq<NginxConfig>, nodes: set<object>)
    reads stack
  {
    && (forall i :: 0 <= i < |stack| ==> stack[i] !in nodes)
    && (forall i, j :: 0 <= i < j < |stack| ==> stack[i] != stack[j])
    && (forall i, j :: 0 <= i < j < |stack| && stack[i].statements != [] && stack[j].statements != []
                       ==> Latest(stack[i]) != Latest(stack[j]))
  }

  /** The objects on the stack hold the partial trees of the machine. */
  ghost predicate Tied(stack: seq<NginxConfig>, m: Machine, nodes: set<object>)
    reads nodes, stack, Live(stack)
  {
    && |stack| == |m.stack| > 0 && Apart(stack, nodes)
    && (forall i :: 0 <= i < |stack| - 1 ==> OpenLevel(stack[i], m.stack[i], stack[i + 1], nodes))
    && TopLevel(stack[|stack| - 1], m.stack[|stack| - 1], m.last, nodes)
  }

  lemma OpenLevelAmongMore(c: NginxConfig, v: Config, next: NginxConfig?, nodes: set<object>, more: set<object>)
    requires OpenLevel(c, v, next, nodes) && nodes <= more && Latest(c) !in more
    ensures OpenLevel(c, v, next, more)
  {
    hide ShowsAll;
    ShowsAmongMore(c.statements[..|c.statements| - 1], v.statements[..|v.statements| - 1], nodes, more);
  }

  /** Ending the last statement of an open level completes it. */
  lemma CompletedLevel(c: NginxConfig, v: Config, next: NginxConfig?, nodes: set<object>, more: set<object>, child: Child)
    requires OpenLevel(c, v, next, nodes) && nodes + {Latest(c)} <= more
    requires match child
             case NoChild => next == null
             case Block(inner) => next != null && next in more && ShowsAll(next.statements, inner.statements, more)
    ensures ClosedLevel(c, WithBack(v, Back(v).(child := child)), more)
  {
    var front, vfront := c.statements[..|c.statements| - 1], v.statements[..|v.statements| - 1];
    ShowsAmongMore(front, vfront, nodes, more);
    assert ShowsOne(Latest(c), Back(v).(child := child), more);
    assert forall i :: 0 <= i < |front| ==> c.statements[i] == front[i] && v.statements[i] == vfront[i];
  }

  lemma CloseStatement(stack: seq<NginxConfig>, m: Machine, nodes: set<object>)
    requires Ready(m) && Tied(stack, m, nodes) && m.last == Normal
    ensures Tied(stack, Step(m, SEMICOLON).value, nodes + LatestSet(stack[|stack| - 1]))
  {
    hide ShowsAll;
    var top, more := stack[|stack| - 1], nodes + LatestSet(stack[|stack| - 1]);
    var v := Top(m.stack);
    CompletedLevel(top, v, null, nodes, more, NoChild);
    assert WithBack(v, Back(v).(child := NoChild)) == v;
    forall i | 0 <= i < |stack| - 1
      ensures OpenLevel(stack[i], m.stack[i], stack[i + 1], more)
    {
      OpenLevelAmongMore(stack[i], m.stack[i], stack[i + 1], nodes, more);
    }
  }

  /** The nodes after a block is closed: its config and the statement it belongs to join them. */
  ghost function Joining(stack: seq<NginxConfig>, nodes: set<object>): set<object>
    requires |stack| > 1
    reads stack
  {
    nodes + {stack[|stack| - 1]} + LatestSet(stack[|stack| - 2])
  }

  lemma CloseBlock(stack: seq<NginxConfig>, m: Machine, nodes: set<object>)
    requires Ready(m) && Tied(stack, m, nodes) && m.last != Normal && Step(m, CLOSE).Some? && |stack| > 1
    ensures Tied(stack[..|stack| - 1], Step(m, CLOSE).value, Joining(stack, nodes))
  {
    hide ShowsAll;
    var n, more := |stack|, Joining(stack, nodes);
    var top, below := stack[n - 1], stack[n - 2];
    ShowsAmongMore(top.statements, Top(m.stack).statements, nodes, more);
    CompletedLevel(below, m.stack[n - 2], top, nodes, more, Block(Top(m.stack)));
    forall i | 0 <= i < n - 2
      ensures OpenLevel(stack[i], m.stack[i], stack[i + 1], more)
    {
      OpenLevelAmongMore(stack[i], m.stack[i], stack[i + 1], nodes, more);
    }
  }

  lemma TiedAtStart(config: NginxConfig, base: Config, nodes: set<object>)
    requires ShowsAll(config.statements, base.statements, nodes) && config !in nodes
    ensures Ready(After(base)) && Tied([config], After(base), nodes) && Live([config]) <= {config} + nodes
  {
    assert config in [config];
    if config.statements != [] {
      assert ShowsOne(Latest(config), base.statements[|base.statements| - 1], nodes);
    }
  }

  ghost function WithNewStatement(m: Machine): (m': Machine)
    requires Ready(m)
    ensures Ready(m')
  {
    Machine(WithTop(m.stack, Config(Top(m.stack).statements + [Statement([], NoChild)])), Normal)
  }

  lemma OpenedMachine(m: Machine)
    requires Ready(m) && m.last == Normal
    ensures Step(m, OPEN).Some?
    ensures var m', n := Step(m, OPEN).value, |m.stack|;
            && m'.last == StartBlock && |m'.stack| == n + 1 && m'.stack[n] == Config([])
            && (forall i :: 0 <= i < n - 1 ==> m'.stack[i] == m.stack[i])
            && var v, v' := m.stack[n - 1], m'.stack[n - 1];
               && v.statements != [] && v'.statements != [] && Back(v').tokens == Back(v).tokens
               && v'.statements[..|v'.statements| - 1] == v.statements[..|v.statements| - 1]
  {
  }

  lemma StaysApart(stack: seq<NginxConfig>, c: NginxConfig, nodes: set<object>)
    requires Apart(stack, nodes) && c !in stack && c !in nodes && c.statements == []
    ensures Apart(stack + [c], nodes)
  {
  }

  lemma ShowsNothing(nodes: set<object>)
    ensures ShowsAll([], [], nodes)
  {
  }

  lemma LiveFacts(stack: seq<NginxConfig>)
    requires stack != []
    ensures forall i :: 0 <= i < |stack| ==> stack[i] in Live(stack) && LatestSet(stack[i]) <= Live(stack)
    ensures forall i :: 0 <= i < |stack| ==> stack[0] !in LatestSet(stack[i])
    ensures Live(stack[..|stack| - 1]) <= Live(stack)
  {
    forall i | 0 <= i < |stack|
      ensures stack[i] in Live(stack) && LatestSet(stack[i]) <= Live(stack)
    {
      assert stack[i] in stack;
    }
    assert forall c :: c in stack[..|stack| - 1] ==> c in stack;
  }

  /** When a token is a good transition. */
  lemma StepSucceeds(m: Machine, l: Lexeme)
    requires Ready(m)
    ensures Step(m, l).Some? ==> Step(m, l).value.last == l.kind
    ensures l.kind == Normal ==> (Step(m, l).Some? <==> m.last in {Start, StatementEnd, StartBlock, EndBlock, Normal})
    ensures l.kind == StatementEnd || l.kind == StartBlock ==> (Step(m, l).Some? <==> m.last == Normal)
    ensures l.kind == EndBlock ==> (Step(m, l).Some? <==> m.last in {StatementEnd, EndBlock, StartBlock} && |m.stack| > 1)
    ensures l.kind == Start ==> Step(m, l).None?
  {
  }

  /** A tied stack is as high as its machine's, and between statements its top is complete. */
  lemma TiedFacts(stack: seq<NginxConfig>, m: Machine, nodes: set<object>)
    requires Tied(stack, m, nodes)
    ensures |stack| == |m.stack|
    ensures forall i :: 0 < i < |stack| ==> stack[i] != stack[0]
    ensures stack[|stack| - 1] !in nodes && (m.last == Normal ==> LatestSet(stack[|stack| - 1]) !! nodes)
    ensures |stack| > 1 ==> LatestSet(stack[|stack| - 2]) !! nodes
    ensures m.last != Normal ==> ShowsAll(stack[|stack| - 1].statements, m.stack[|stack| - 1].statements, nodes)
  {
  }

  class NginxConfigParser {
    constructor () {}

    method ParseToken(input: Input) returns (kind: Kind, value: string)
      requires input.Valid() && input.good
      modifies input
      ensures input.Valid()
      ensures NextToken(old(input.Rest())) == Lexed(Lexeme(kind, value), input.Rest())
      ensures kind != Eof && kind != Error ==> input.good
    {
      var state := InitialWhitespace;
      value := "";
      while input.good
        invariant input.Valid() && input.good
        invariant Lex(state, value, input.Rest()) == NextToken(old(input.Rest()))
        decreases |input.Rest()|
      {
        var c := input.Get();
        if !input.good {
          break;
        }
        match state {
          case InitialWhitespace =>
            if c == '{' {
              return StartBlock, [c];
            } else if c == '}' {
              return EndBlock, [c];
            } else if c == '#' {
              value := [c];
              state := InComment;
            } else if c == '"' {
              value := [c];
              state := DoubleQuote;
            } else if c == '\'' {
              value := [c];
              state := SingleQuote;
            } else if c == ';' {
              return StatementEnd, [c];
            } else if !Blank(c) {
              value := value + [c];
              state := InNormal;
            }
          case SingleQuote =>
            value := value + [c];
            if c == '\'' {
              kind := CloseQuote(input);
              return;
            } else if c == '\\' {
              value := value[..|value| - 1];
              state := EscapeSingle;
            }
          case DoubleQuote =>
            value := value + [c];
            if c == '"' {
              kind := CloseQuote(input);
              return;
            } else if c == '\\' {
              value := value[..|value| - 1];
              state := EscapeDouble;
            }
          case InComment =>
            if c == '\n' || c == '\r' {
              return Comment, value;
            }
            value := value + [c];
          case InNormal =>
            if Ends(c) {
              input.Unget();
              return Normal, value;
            }
            value := value + [c];
          case EscapeDouble =>
            value := value + [c];
            state := DoubleQuote;
          case EscapeSingle =>
            value := value + [c];
            state := SingleQuote;
        }
      }
      kind := if state == SingleQuote || state == DoubleQuote then Error else Eof;
    }

    /** Looks at the character after a closing quote and puts it back if it ends the token. */
    method CloseQuote(input: Input) returns (kind: Kind)
      requires input.Valid() && input.good
      modifies input
      ensures input.Valid()
      ensures forall v :: AfterQuote(v, old(input.Rest())) == Lexed(Lexeme(kind, v), input.Rest())
      ensures kind == Normal ==> input.good
    {
      var cNext := input.Get();
      if !Ends(cNext) {
        return Error;
      }
      input.Unget();
      return Normal;
    }

    /** Adds a token to the open statement, or opens a new one for it. */
    method AddToken(stack: seq<NginxConfig>, last: Kind, token: string, ghost m: Machine, ghost nodes: set<object>)
      returns (ghost made: set<object>)
      requires Ready(m) && Tied(stack, m, nodes) && m.last == last && Step(m, Lexeme(Normal, token)).Some?
      modifies stack[|stack| - 1], if last == Normal then LatestSet(stack[|stack| - 1]) else {}
      ensures Tied(stack, Step(m, Lexeme(Normal, token)).value, nodes)
      ensures fresh(made) && Live(stack) <= old(Live(stack)) + made
      ensures old(stack[0].statements) <= stack[0].statements
    {
      hide Tied, Live, LatestSet;
      made := {};
      if last != Normal {
        OpenStatement(m.stack, token);
        made := AddStatement(stack, m, nodes);
        PushToken(stack, token, WithNewStatement(m), nodes);
      } else {
        PushToken(stack, token, m, nodes);
      }
    }

    method AddStatement(stack: seq<NginxConfig>, ghost m: Machine, ghost nodes: set<object>) returns (ghost made: set<object>)
      requires Ready(m) && Tied(stack, m, nodes) && m.last != Normal
      modifies stack[|stack| - 1]
      ensures Tied(stack, WithNewStatement(m), nodes)
      ensures fresh(made) && fresh(LatestSet(stack[|stack| - 1])) && Live(stack) <= old(Live(stack)) + made
      ensures old(stack[0].statements) <= stack[0].statements
    {
      hide ShowsAll;
      var top := stack[|stack| - 1];
      var st := new NginxConfigStatement();
      made := {st};
      top.statements := top.statements + [st];
    }

    method PushToken(stack: seq<NginxConfig>, token: string, ghost m: Machine, ghost nodes: set<object>)
      requires Ready(m) && Tied(stack, m, nodes) && m.last == Normal
      modifies LatestSet(stack[|stack| - 1])
      ensures Tied(stack, Step(m, Lexeme(Normal, token)).value, nodes)
      ensures Live(stack) == old(Live(stack)) && stack[0].statements == old(stack[0].statements)
    {
      hide ShowsAll;
      var back := Latest(stack[|stack| - 1]);
      back.tokens := back.tokens + [token];
    }

    method OpenBlock(stack: seq<NginxConfig>, ghost m: Machine, ghost nodes: set<object>)
      returns (stack': seq<NginxConfig>, ghost made: set<object>)
      requires Ready(m) && Tied(stack, m, nodes) && m.last == Normal
      modifies LatestSet(stack[|stack| - 1])
      ensures Tied(stack', Step(m, OPEN).value, nodes)
      ensures fresh(made) && Live(stack') <= old(Live(stack)) + made && |stack'| > 0 && stack'[0] == stack[0]
    {
      hide ShowsAll, Step, WithTop, WithBack, Top, Apart;
      OpenedMachine(m);
      var newConfig := new NginxConfig();
      ShowsNothing(nodes);
      made := {newConfig};
      Latest(stack[|stack| - 1]).child := newConfig;
      stack' := stack + [newConfig];
      StaysApart(stack, newConfig, nodes);
    }

    /** Adds to the config; the configs still open are on the stack, each the child of the last statement below it. */
    method Parse(input: Input, config: NginxConfig, ghost base: Config, ghost there: set<object>)
      returns (ok: bool, ghost nodes: set<object>)
      requires input.Valid() && input.good
      requires ShowsAll(config.statements, base.statements, there) && config !in there && input !in there
      modifies input, config
      ensures ok == Decide(After(base), old(input.Rest())).Some?
      ensures ok ==> ShowsAll(config.statements, Decide(After(base), old(input.Rest())).value.statements, nodes)
      ensures old(config.statements) <= config.statements && ShowsAll(old(config.statements), base.statements, there)
    {
      hide NextToken, Step, Tied, ShowsAll, Live, LatestSet;
      var stack, lastTokenType := [config], Start;
      ghost var m := After(base);
      nodes := there;
      ghost var made: set<object> := {};
      TiedAtStart(config, base, there);
      while true
        invariant input.Valid() && input.good && Ready(m) && m.last == lastTokenType && |stack| > 0 && stack[0] == config
        invariant Tied(stack, m, nodes) && Live(stack) <= made + {config} + there
        invariant fresh(made) && there <= nodes <= made + there && input !in made
        invariant Decide(m, input.Rest()) == Decide(After(base), old(input.Rest()))
        invariant old(config.statements) <= config.statements && unchanged(there)
        invariant ShowsAll(old(config.statements), base.statements, there)
        decreases |input.Rest()|
      {
        NextTokenShape(input.Rest());
        var tokenType, token := ParseToken(input);
        if tokenType == Error {
          break;
        }
        if tokenType == Comment {
          continue;
        }
        StepSucceeds(m, Lexeme(tokenType, token));
        TiedFacts(stack, m, nodes);
        LiveFacts(stack);
        if tokenType == Start {
          break;
        } else if tokenType == Normal {
          if lastTokenType == Start || lastTokenType == StatementEnd || lastTokenType == StartBlock
             || lastTokenType == EndBlock || lastTokenType == Normal {
            ghost var more := AddToken(stack, lastTokenType, token, m, nodes);
            made := made + more;
          } else {
            break;
          }
        } else if tokenType == StatementEnd {
          if lastTokenType != Normal {
            break;
          }
          CloseStatement(stack, m, nodes);
          nodes := nodes + LatestSet(stack[|stack| - 1]);
        } else if tokenType == StartBlock {
          if lastTokenType != Normal {
            break;
          }
          ghost var more;
          stack, more := OpenBlock(stack, m, nodes);
          made := made + more;
        } else if tokenType == EndBlock {
          if lastTokenType != StatementEnd && lastTokenType != EndBlock && lastTokenType != StartBlock {
            break;
          }
          if |stack| == 1 {
            break;
          }
          CloseBlock(stack, m, nodes);
          nodes := Joining(stack, nodes);
          stack := stack[..|stack| - 1];
        } else {
          if lastTokenType != StatementEnd && lastTokenType != EndBlock && lastTokenType != Start {
            break;
          } else if |stack| > 1 {
            break;
          }
          return true, nodes;
        }
        m := Step(m, Lexeme(tokenType, token)).value;
        lastTokenType := tokenType;
      }
      return false, nodes;
    }
  }
}
