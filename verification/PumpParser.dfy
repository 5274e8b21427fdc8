/**
 * The recursive-descent parser of scripts/pump.py. The functions say what the
 * parser computes from a token list; class `Parser` is the program's own form,
 * methods that pop tokens off a list they share.
 */
module PumpParser {
  import opened Wrappers
  import opened PumpSyntax
  import opened PumpText

  /** The three ways the program dies on a token list. */
  datatype ParseError =
    | ListEmpty                            // popping an empty list
    | NothingToPeek                        // asking the kind of the token that is not there
    | Expected(kind: Kind, found: Token)   // the program prints an error and exits

  datatype Parsed<+T> = Ok(value: T, rest: seq<Token>) | Err(error: ParseError)

  function Pop(ts: seq<Token>, kind: Kind): (r: Parsed<Token>)
    ensures r.Ok? ==> |r.rest| < |ts|
  {
    if ts == [] then Err(ListEmpty)
    else if ts[0].kind != kind then Err(Expected(kind, ts[0]))
    else Ok(ts[0], ts[1..])
  }

  function ParseCode(ts: seq<Token>): (r: Parsed<seq<Node>>)
    ensures r.Ok? ==> |r.rest| <= |ts|
    decreases |ts|, 3
  {
    if ts == [] then Ok([], []) else
    match ParseAtomic(ts)
    case Err(e) => Err(e)
    case Ok(None, rest) => Ok([], rest)
    case Ok(Some(n), rest) => Prepend([n], ParseCode(rest))
  }

  function Prepend(ns: seq<Node>, r: Parsed<seq<Node>>): Parsed<seq<Node>> {
    match r
    case Err(e) => Err(e)
    case Ok(more, rest) => Ok(ns + more, rest)
  }

  lemma PrependSteps(ns: seq<Node>, n: Node, r: Parsed<seq<Node>>)
    ensures Prepend([], r) == r
    ensures Prepend(ns, Prepend([n], r)) == Prepend(ns + [n], r)
  {
    if r.Ok? {
      assert [] + r.value == r.value;
      assert ns + ([n] + r.value) == ns + [n] + r.value;
    }
  }

  /** `[[ CODE ]]`. */
  function ParseBlock(ts: seq<Token>): (r: Parsed<seq<Node>>)
    ensures r.Ok? ==> |r.rest| < |ts|
    decreases |ts|, 0
  {
    match Pop(ts, OpenTok)
    case Err(e) => Err(e)
    case Ok(_, afterOpen) =>
      match ParseCode(afterOpen)
      case Err(e) => Err(e)
      case Ok(code, afterCode) =>
        match Pop(afterCode, CloseTok)
        case Err(e) => Err(e)
        case Ok(_, rest) => Ok(code, rest)
  }

  function ParseElse(ts: seq<Token>): (r: Parsed<Else>)
    ensures r.Ok? ==> |r.rest| <= |ts|
    decreases |ts|, 1
  {
    if ts == [] then Ok(NoElse, ts)
    else if ts[0].kind == ElseTok then
      match ParseBlock(ts[1..])
      case Err(e) => Err(e)
      case Ok(code, rest) => Ok(ElseBranch(code), rest)
    else if ts[0].kind == ElifTok then
      match ParseIf(ts[1..])
      case Err(e) => Err(e)
      case Ok(n, rest) => Ok(ElseBranch([n]), rest)
    else if Blank(ts[0].value) then
      match Pop(ts, CodeTok)
      case Err(e) => Err(e)
      case Ok(_, rest) => ParseElse(rest)
    else Ok(NoElse, ts)
  }

  /** What follows `$if` or `$elif`. */
  function ParseIf(ts: seq<Token>): (r: Parsed<Node>)
    ensures r.Ok? ==> |r.rest| < |ts| && r.value.If?
    decreases |ts|, 0
  {
    match Pop(ts, CodeTok)
    case Err(e) => Err(e)
    case Ok(exp, afterExp) =>
      match ParseBlock(afterExp)
      case Err(e) => Err(e)
      case Ok(code, afterCode) =>
        match ParseElse(afterCode)
        case Err(e) => Err(e)
        case Ok(els, rest) => Ok(If(exp, code, els), rest)
  }

  function ParseVar(ts: seq<Token>): (r: Parsed<Node>)
    ensures r.Ok? ==> |r.rest| < |ts|
    decreases |ts|, 0
  {
    match Pop(ts, IdTok)
    case Err(e) => Err(e)
    case Ok(id, afterId) =>
      match Pop(afterId, EqTok)
      case Err(e) => Err(e)
      case Ok(_, afterEq) =>
        if afterEq == [] then Err(NothingToPeek)
        else if afterEq[0].kind == ExpTok then Ok(Var(id, Exp(afterEq[0])), afterEq[1..])
        else
          match ParseBlock(afterEq)
          case Err(e) => Err(e)
          case Ok(code, rest) => Ok(Var(id, Code(code)), rest)
  }

  function ParseFor(ts: seq<Token>): (r: Parsed<Node>)
    ensures r.Ok? ==> |r.rest| < |ts|
    decreases |ts|, 0
  {
    match Pop(ts, IdTok)
    case Err(e) => Err(e)
    case Ok(id, afterId) =>
      if afterId == [] then Err(NothingToPeek) else
      var hasSep := afterId[0].kind == CodeTok;
      match ParseBlock(if hasSep then afterId[1..] else afterId)
      case Err(e) => Err(e)
      case Ok(code, rest) => Ok(For(id, if hasSep then Sep(afterId[0]) else NoSep, code), rest)
  }

  function ParseRange(ts: seq<Token>): (r: Parsed<Node>)
    ensures r.Ok? ==> |r.rest| < |ts|
  {
    match Pop(ts, IdTok)
    case Err(e) => Err(e)
    case Ok(id, afterId) =>
      match Pop(afterId, ExpTok)
      case Err(e) => Err(e)
      case Ok(lower, afterLower) =>
        match Pop(afterLower, DotsTok)
        case Err(e) => Err(e)
        case Ok(_, afterDots) =>
          match Pop(afterDots, ExpTok)
          case Err(e) => Err(e)
          case Ok(upper, rest) => Ok(Range(id, lower, upper), rest)
  }

  function Found(r: Parsed<Node>): (w: Parsed<Option<Node>>) {
    match r
    case Err(e) => Err(e)
    case Ok(n, rest) => Ok(Some(n), rest)
  }

  /** One atomic node, or None with the list untouched when the head starts none. */
  function ParseAtomic(ts: seq<Token>): (r: Parsed<Option<Node>>)
    requires ts != []
    ensures r.Ok? && r.value.Some? ==> |r.rest| < |ts|
    ensures r.Ok? && r.value.None? ==> r.rest == ts
    decreases |ts|, 1
  {
    var head, tail := ts[0], ts[1..];
    match head.kind
    case CodeTok => Ok(Some(RawCode(head)), tail)
    case VarTok => Found(ParseVar(tail))
    case ForTok => Found(ParseFor(tail))
    case IfTok => Found(ParseIf(tail))
    case RangeTok => Found(ParseRange(tail))
    case IdRefTok => Ok(Some(Exp(Token(IdTok, if head.value == "" then "" else head.value[1..]))), tail)
    case LiteralDollarTok => Ok(Some(LiteralDollar(head)), tail)
    case DollarTok =>
      (match Pop(tail, ExpTok)
       case Err(e) => Err(e)
       case Ok(exp, rest) => Ok(Some(Exp(exp)), rest))
    case OpenTok =>
      (match ParseBlock(ts)
       case Err(e) => Err(e)
       case Ok(code, rest) => Ok(Some(Code(code)), rest))
    case _ => Ok(None, ts)
  }

  /** A method's answer and the tokens it left, compared with what the function says. */
  predicate Agrees<T(==)>(r: Result<T, ParseError>, left: seq<Token>, p: Parsed<T>) {
    match p
    case Ok(v, rest) => r == Success(v) && left == rest
    case Err(e) => r == Failure(e)
  }

  class Parser {
    var tokens: seq<Token>

    constructor (tokens: seq<Token>)
      ensures this.tokens == tokens
    {
      this.tokens := tokens;
    }

    method PopFront() returns (head: Token)
      requires tokens != []
      modifies this
      ensures [head] + tokens == old(tokens)
    {
      head := tokens[0];
      tokens := tokens[1..];
    }

    method PopToken(kind: Kind) returns (r: Result<Token, ParseError>)
      modifies this
      ensures Agrees(r, tokens, Pop(old(tokens), kind))
    {
      if tokens == [] {
        return Failure(ListEmpty);
      }
      var head := PopFront();
      if head.kind != kind {
        return Failure(Expected(kind, head));
      }
      return Success(head);
    }

    method ParseBlockOf() returns (r: Result<seq<Node>, ParseError>)
      modifies this
      ensures Agrees(r, tokens, ParseBlock(old(tokens)))
      decreases |tokens|, 0
    {
      var _ :- PopToken(OpenTok);
      var code :- ParseCodeNode();
      var _ :- PopToken(CloseTok);
      return Success(code);
    }

    method ParseElseNode() returns (r: Result<Else, ParseError>)
      modifies this
      ensures Agrees(r, tokens, ParseElse(old(tokens)))
      decreases |tokens|, 1
    {
      if tokens == [] {
        return Success(NoElse);
      }
      var next := tokens[0];
      if next.kind == ElseTok {
        var _ := PopFront();
        var code :- ParseBlockOf();
        return Success(ElseBranch(code));
      } else if next.kind == ElifTok {
        var _ := PopFront();
        var exp :- PopToken(CodeTok);
        var code :- ParseBlockOf();
        var inner :- ParseElseNode();
        return Success(ElseBranch([If(exp, code, inner)]));
      } else if Blank(next.value) {
        var _ :- PopToken(CodeTok);
        r := ParseElseNode();
      } else {
        return Success(NoElse);
      }
    }

    /** The branches of ParseAtomicCodeNode that read more than the head. */
    method ParseVarNode() returns (r: Result<Node, ParseError>)
      modifies this
      ensures Agrees(r, tokens, ParseVar(old(tokens)))
      decreases |tokens|, 0
    {
      var id :- PopToken(IdTok);
      var _ :- PopToken(EqTok);
      if tokens == [] {
        return Failure(NothingToPeek);
      }
      if tokens[0].kind == ExpTok {
        var exp := PopFront();
        return Success(Var(id, Exp(exp)));
      }
      var code :- ParseBlockOf();
      return Success(Var(id, Code(code)));
    }

    method ParseForNode() returns (r: Result<Node, ParseError>)
      modifies this
      ensures Agrees(r, tokens, ParseFor(old(tokens)))
      decreases |tokens|, 0
    {
      var id :- PopToken(IdTok);
      if tokens == [] {
        return Failure(NothingToPeek);
      }
      var sep := NoSep;
      if tokens[0].kind == CodeTok {
        var t := PopFront();
        sep := Sep(t);
      }
      var code :- ParseBlockOf();
      return Success(For(id, sep, code));
    }

    method ParseIfNode() returns (r: Result<Node, ParseError>)
      modifies this
      ensures Agrees(r, tokens, ParseIf(old(tokens)))
      decreases |tokens|, 0
    {
      var exp :- PopToken(CodeTok);
      var code :- ParseBlockOf();
      var els :- ParseElseNode();
      return Success(If(exp, code, els));
    }

    method ParseRangeNode() returns (r: Result<Node, ParseError>)
      modifies this
      ensures Agrees(r, tokens, ParseRange(old(tokens)))
    {
      var id :- PopToken(IdTok);
      var lower :- PopToken(ExpTok);
      var _ :- PopToken(DotsTok);
      var upper :- PopToken(ExpTok);
      return Success(Range(id, lower, upper));
    }

    method ParseAtomicCodeNode() returns (r: Result<Option<Node>, ParseError>)
      requires tokens != []
      modifies this
      ensures Agrees(r, tokens, ParseAtomic(old(tokens)))
      decreases |tokens|, 1
    {
      hide ParseVar, ParseFor, ParseIf, ParseRange;
      var head := PopFront();
      match head.kind {
        case CodeTok => return Success(Some(RawCode(head)));
        case VarTok =>
          var node :- ParseVarNode();
          return Success(Some(node));
        case ForTok =>
          var node :- ParseForNode();
          return Success(Some(node));
        case IfTok =>
          var node :- ParseIfNode();
          return Success(Some(node));
        case RangeTok =>
          var node :- ParseRangeNode();
          return Success(Some(node));
        case IdRefTok =>
          return Success(Some(Exp(Token(IdTok, if head.value == "" then "" else head.value[1..]))));
        case LiteralDollarTok => return Success(Some(LiteralDollar(head)));
        case DollarTok =>
          var exp :- PopToken(ExpTok);
          return Success(Some(Exp(exp)));
        case OpenTok =>
          var code :- ParseCodeNode();
          var _ :- PopToken(CloseTok);
          return Success(Some(Code(code)));
        case _ =>
          tokens := [head] + tokens;
          return Success(None);
      }
    }

    /** Every turn of the loop consumes a token: that is why it stops. */
    method ParseCodeNode() returns (r: Result<seq<Node>, ParseError>)
      modifies this
      ensures Agrees(r, tokens, ParseCode(old(tokens)))
      decreases |tokens|, 3
    {
      var nodes: seq<Node> := [];
      PrependSteps([], RawCode(CLOSE), ParseCode(tokens));
      while tokens != []
        invariant |tokens| <= old(|tokens|)
        invariant ParseCode(old(tokens)) == Prepend(nodes, ParseCode(tokens))
        decreases |tokens|
      {
        var node :- ParseAtomicCodeNode();
        if node.None? {
          assert nodes + [] == nodes;
          return Success(nodes);
        }
        PrependSteps(nodes, node.value, ParseCode(tokens));
        nodes := nodes + [node.value];
      }
      assert nodes + [] == nodes;
      return Success(nodes);
    }
  }
}
