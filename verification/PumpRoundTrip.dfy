/** The parser undoes the printer, and its image is exactly the well-formed trees. */
module PumpRoundTrip {
  import opened Wrappers
  import opened PumpSyntax
  import opened PumpText
  import opened PumpParser

  /** End of input, or the end of the enclosing block. */
  predicate Stops(rest: seq<Token>) {
    rest == [] || (rest[0].kind == CloseTok && !Blank(rest[0].value))
  }

  /** Tokens at which ParseElse gives up without consuming anything. */
  predicate NoElseHere(rest: seq<Token>) {
    rest == [] || (rest[0].kind != ElseTok && rest[0].kind != ElifTok && !Blank(rest[0].value))
  }

  /** The printer only ever prepends: what it writes does not depend on what follows. */
  lemma {:induction false} PrintNodePrepends(sugar: bool, n: Node, rest: seq<Token>)
    ensures PrintNode(sugar, n, rest) == PrintNode(sugar, n, []) + rest
    decreases n, 0
  {
    match n
    case RawCode(t) =>
    case LiteralDollar(t) =>
    case Exp(t) =>
    case Range(id, lower, upper) =>
    case Var(id, body) =>
      if body.Exp? {
        Shift([VAR, id, EQ], [body.token], [], rest);
      } else {
        hide PrintCode, PrintElse;
        PrintNodePrepends(sugar, body, rest);
        Shift([VAR, id, EQ], PrintNode(sugar, body, []), [], rest);
      }
    case For(id, sep, code) =>
      hide PrintCode, PrintElse;
      PrintCodePrepends(sugar, code, [CLOSE] + rest);
      PrintCodePrepends(sugar, code, [CLOSE] + []);
      Shift([OPEN], PrintCode(sugar, code, []), [CLOSE], rest);
      SepPrepends(sep, [OPEN] + PrintCode(sugar, code, [CLOSE] + []), rest);
      Shift([FOR, id], PrintSep(sep, [OPEN] + PrintCode(sugar, code, [CLOSE] + [])), [], rest);
    case If(exp, code, els) =>
      hide PrintCode, PrintElse;
      PrintElsePrepends(sugar, els, rest);
      var e := PrintElse(sugar, els, []);
      PrintCodePrepends(sugar, code, [CLOSE] + PrintElse(sugar, els, rest));
      PrintCodePrepends(sugar, code, [CLOSE] + e);
      Shift([], [CLOSE], e, rest);
      Shift([IF, exp, OPEN], PrintCode(sugar, code, []), [CLOSE] + e, rest);
    case Code(code) =>
      hide PrintCode, PrintElse;
      PrintCodePrepends(sugar, code, [CLOSE] + rest);
      PrintCodePrepends(sugar, code, [CLOSE] + []);
      Shift([OPEN], PrintCode(sugar, code, []), [CLOSE], rest);
  }

  lemma Shift(a: seq<Token>, b: seq<Token>, c: seq<Token>, d: seq<Token>)
    ensures a + (b + (c + d)) == a + (b + c) + d
    ensures [] + d == d && b + [] == b && c + [] == c && [] + (b + c) == b + c && [] + (b + (c + d)) == b + (c + d)
  {
  }

  lemma SepPrepends(sep: Separator, tokens: seq<Token>, rest: seq<Token>)
    ensures PrintSep(sep, tokens + rest) == PrintSep(sep, tokens) + rest
  {
    if sep.Sep? {
      Shift([sep.token], tokens, [], rest);
    }
  }

  lemma {:induction false} PrintElsePrepends(sugar: bool, els: Else, rest: seq<Token>)
    ensures PrintElse(sugar, els, rest) == PrintElse(sugar, els, []) + rest
    decreases els, 0
  {
    match els
    case NoElse => Shift([], [], [], rest);
    case ElseBranch(code) =>
      hide PrintCode;
      if sugar && IsElif(els) {
        var inner := code[0];
        PrintElsePrepends(sugar, inner.elseBranch, rest);
        var e := PrintElse(sugar, inner.elseBranch, []);
        assert PrintElse(sugar, els, []) == [ELIF, inner.exp, OPEN] + PrintCode(sugar, inner.thenBranch, [CLOSE] + e);
        assert PrintElse(sugar, els, rest)
            == [ELIF, inner.exp, OPEN]
              + PrintCode(sugar, inner.thenBranch, [CLOSE] + PrintElse(sugar, inner.elseBranch, rest));
        hide PrintElse;
        PrintCodePrepends(sugar, inner.thenBranch, [CLOSE] + PrintElse(sugar, inner.elseBranch, rest));
        PrintCodePrepends(sugar, inner.thenBranch, [CLOSE] + e);
        Shift([], [CLOSE], e, rest);
        Shift([ELIF, inner.exp, OPEN], PrintCode(sugar, inner.thenBranch, []), [CLOSE] + e, rest);
      } else {
        PrintCodePrepends(sugar, code, [CLOSE] + rest);
        PrintCodePrepends(sugar, code, [CLOSE] + []);
        Shift([ELSE, OPEN], PrintCode(sugar, code, []), [CLOSE], rest);
      }
  }

  lemma {:induction false} PrintCodePrepends(sugar: bool, ns: seq<Node>, rest: seq<Token>)
    ensures PrintCode(sugar, ns, rest) == PrintCode(sugar, ns, []) + rest
    decreases ns, 1
  {
    if ns != [] {
      PrintCodePrepends(sugar, ns[1..], rest);
      PrintNodePrepends(sugar, ns[0], PrintCode(sugar, ns[1..], rest));
      PrintNodePrepends(sugar, ns[0], PrintCode(sugar, ns[1..], []));
    }
  }

  /** A node's printing starts with a blank token only if the node is itself that token. */
  lemma LeadOf(sugar: bool, n: Node, rest: seq<Token>)
    requires WfNode(sugar, n)
    ensures PrintNode(sugar, n, rest) != []
    ensures !BlankLead(n) ==> NoElseHere(PrintNode(sugar, n, rest))
  {
    if n.Exp? {
      assert !Blank(DOLLAR.value) by { assert !IsSpace(DOLLAR.value[0]); }
      assert !Blank("$" + n.token.value) by { assert !IsSpace(("$" + n.token.value)[0]); }
    }
    assert !IsSpace(VAR.value[0]) && !IsSpace(FOR.value[0]) && !IsSpace(IF.value[0])
        && !IsSpace(RANGE.value[0]) && !IsSpace(OPEN.value[0]);
  }

  lemma Behind(x: Token, tail: seq<Token>)
    ensures ([x] + tail)[0] == x && ([x] + tail)[1..] == tail
  {
  }

  lemma Cut(a: Token, b: Token, c: Token, tail: seq<Token>)
    ensures [a, b] + tail == [a] + ([b] + tail)
    ensures [a, b, c] + tail == [a] + ([b, c] + tail)
  {
  }

  /** Parsing behind a head token, when what follows it parses. */
  lemma ElseAhead(block: seq<Token>, code: seq<Node>, rest: seq<Token>)
    requires ParseBlock(block) == Ok(code, rest)
    ensures ParseElse([ELSE] + block) == Ok(ElseBranch(code), rest)
  {
    Behind(ELSE, block);
    hide ParseBlock;
  }

  lemma ElifAhead(tail: seq<Token>, n: Node, rest: seq<Token>)
    requires ParseIf(tail) == Ok(n, rest)
    ensures ParseElse([ELIF] + tail) == Ok(ElseBranch([n]), rest)
  {
    Behind(ELIF, tail);
    hide ParseIf;
  }

  lemma IfAhead(exp: Token, block: seq<Token>, code: seq<Node>, afterCode: seq<Token>, els: Else, rest: seq<Token>)
    requires exp.kind == CodeTok && ParseBlock(block) == Ok(code, afterCode) && ParseElse(afterCode) == Ok(els, rest)
    ensures ParseIf([exp] + block) == Ok(If(exp, code, els), rest)
  {
    Behind(exp, block);
    hide ParseBlock, ParseElse;
  }

  lemma {:induction false} BlockRoundTrip(sugar: bool, code: seq<Node>, rest: seq<Token>)
    requires WfCode(sugar, code)
    ensures ParseBlock([OPEN] + PrintCode(sugar, code, [CLOSE] + rest)) == Ok(code, rest)
    decreases code, 2
  {
    assert !Blank(CLOSE.value) by { assert !IsSpace(CLOSE.value[0]); }
    CodeRoundTrip(sugar, code, [CLOSE] + rest);
    Behind(OPEN, PrintCode(sugar, code, [CLOSE] + rest));
    Behind(CLOSE, rest);
    hide ParseCode, PrintCode;
  }

  lemma {:induction false} IfRoundTrip(sugar: bool, n: Node, rest: seq<Token>)
    requires n.If? && WfNode(sugar, n)
    requires OpenElse(sugar, n.elseBranch) ==> NoElseHere(rest)
    ensures ParseIf([n.exp, OPEN] + PrintCode(sugar, n.thenBranch, [CLOSE] + PrintElse(sugar, n.elseBranch, rest)))
         == Ok(n, rest)
    decreases n, 0
  {
    var afterCode := PrintElse(sugar, n.elseBranch, rest);
    BlockRoundTrip(sugar, n.thenBranch, afterCode);
    ElseRoundTrip(sugar, n.elseBranch, rest);
    hide *;
    var code := PrintCode(sugar, n.thenBranch, [CLOSE] + afterCode);
    IfAhead(n.exp, [OPEN] + code, n.thenBranch, afterCode, n.elseBranch, rest);
    Cut(n.exp, OPEN, OPEN, code);
  }

  lemma {:induction false} ElseRoundTrip(sugar: bool, els: Else, rest: seq<Token>)
    requires els.ElseBranch? ==> WfCode(sugar, els.code)
    requires OpenElse(sugar, els) ==> NoElseHere(rest)
    ensures ParseElse(PrintElse(sugar, els, rest)) == Ok(els, rest)
    decreases els, 1
  {
    hide PrintCode, ParseBlock, ParseIf, ParseCode, WfCode;
    match els
    case NoElse =>
    case ElseBranch(code) =>
      if sugar && IsElif(els) {
        hide PrintElse, ParseElse;
        ElifRoundTrip(els, rest);
      } else {
        assert PrintElse(sugar, els, rest) == [ELSE, OPEN] + PrintCode(sugar, code, [CLOSE] + rest);
        BlockRoundTrip(sugar, code, rest);
        hide *;
        ElseAhead([OPEN] + PrintCode(sugar, code, [CLOSE] + rest), code, rest);
        Cut(ELSE, OPEN, OPEN, PrintCode(sugar, code, [CLOSE] + rest));
      }
  }

  lemma {:induction false} ElifRoundTrip(els: Else, rest: seq<Token>)
    requires IsElif(els) && WfCode(true, els.code)
    requires OpenElse(true, els) ==> NoElseHere(rest)
    ensures ParseElse(PrintElse(true, els, rest)) == Ok(els, rest)
    decreases els, 0
  {
    var n := els.code[0];
    assert els.code == [n];
    assert OpenElse(true, els) == OpenChain(true, n);
    assert OpenChain(true, n) == OpenElse(true, n.elseBranch);
    IfRoundTrip(true, n, rest);
    var code := PrintCode(true, n.thenBranch, [CLOSE] + PrintElse(true, n.elseBranch, rest));
    assert PrintElse(true, els, rest) == [ELIF, n.exp, OPEN] + code;
    hide *;
    ElifAhead([n.exp, OPEN] + code, n, rest);
    Cut(ELIF, n.exp, OPEN, code);
  }

  lemma KeywordAhead(tail: seq<Token>)
    ensures ParseAtomic([VAR] + tail) == Found(ParseVar(tail))
    ensures ParseAtomic([FOR] + tail) == Found(ParseFor(tail))
    ensures ParseAtomic([IF] + tail) == Found(ParseIf(tail))
    ensures ParseAtomic([RANGE] + tail) == Found(ParseRange(tail))
  {
    hide ParseVar, ParseFor, ParseIf, ParseRange, ParseBlock, Found;
    Behind(VAR, tail);
    Behind(FOR, tail);
    Behind(IF, tail);
    Behind(RANGE, tail);
  }

  lemma PopAhead(x: Token, tail: seq<Token>)
    ensures Pop([x] + tail, x.kind) == Ok(x, tail)
  {
  }

  lemma VarExpAhead(id: Token, exp: Token, rest: seq<Token>)
    requires id.kind == IdTok && exp.kind == ExpTok
    ensures ParseVar([id] + ([EQ] + ([exp] + rest))) == Ok(Var(id, Exp(exp)), rest)
  {
    PopAhead(id, [EQ] + ([exp] + rest));
    PopAhead(EQ, [exp] + rest);
    Behind(exp, rest);
    hide Pop, ParseBlock;
  }

  lemma VarBlockAhead(id: Token, block: seq<Token>, code: seq<Node>, rest: seq<Token>)
    requires id.kind == IdTok && block != [] && block[0].kind != ExpTok && ParseBlock(block) == Ok(code, rest)
    ensures ParseVar([id] + ([EQ] + block)) == Ok(Var(id, Code(code)), rest)
  {
    PopAhead(id, [EQ] + block);
    PopAhead(EQ, block);
    hide Pop, ParseBlock;
  }

  lemma ForAhead(id: Token, sep: Separator, block: seq<Token>, code: seq<Node>, rest: seq<Token>)
    requires id.kind == IdTok && (sep.Sep? ==> sep.token.kind == CodeTok)
    requires block != [] && block[0].kind != CodeTok && ParseBlock(block) == Ok(code, rest)
    ensures ParseFor([id] + PrintSep(sep, block)) == Ok(For(id, sep, code), rest)
  {
    PopAhead(id, PrintSep(sep, block));
    if sep.Sep? {
      Behind(sep.token, block);
    }
    hide Pop, ParseBlock;
  }

  lemma {:induction false} VarRoundTrip(sugar: bool, n: Node, rest: seq<Token>)
    requires n.Var? && WfNode(sugar, n)
    ensures PrintNode(sugar, n, rest) != []
    ensures ParseAtomic(PrintNode(sugar, n, rest)) == Ok(Some(n), rest)
    decreases n, 0
  {
    if n.body.Exp? {
      var tail := [n.body.token] + rest;
      assert PrintNode(sugar, n, rest) == [VAR, n.id, EQ] + tail && n.body == Exp(n.body.token);
      assert n.id.kind == IdTok && n.body.token.kind == ExpTok;
      hide PrintNode, WfNode, ParseAtomic, ParseVar;
      VarExpAhead(n.id, n.body.token, rest);
      Unfolds(VAR, n.id, EQ, tail);
      KeywordAhead([n.id] + ([EQ] + tail));
    } else {
      BlockRoundTrip(sugar, n.body.nodes, rest);
      var tail := [OPEN] + PrintCode(sugar, n.body.nodes, [CLOSE] + rest);
      assert PrintNode(sugar, n, rest) == [VAR, n.id, EQ] + tail && n.body == Code(n.body.nodes);
      assert n.id.kind == IdTok;
      hide PrintNode, PrintCode, WfNode, WfCode, ParseAtomic, ParseVar, ParseBlock;
      Behind(OPEN, PrintCode(sugar, n.body.nodes, [CLOSE] + rest));
      VarBlockAhead(n.id, tail, n.body.nodes, rest);
      Unfolds(VAR, n.id, EQ, tail);
      KeywordAhead([n.id] + ([EQ] + tail));
    }
  }

  lemma Unfolds(a: Token, b: Token, c: Token, tail: seq<Token>)
    ensures [a, b, c] + tail == [a] + ([b] + ([c] + tail)) != []
    ensures [a, b] + tail == [a] + ([b] + tail) != []
  {
  }

  lemma {:induction false} ForRoundTrip(sugar: bool, n: Node, rest: seq<Token>)
    requires n.For? && WfNode(sugar, n)
    ensures PrintNode(sugar, n, rest) != []
    ensures ParseAtomic(PrintNode(sugar, n, rest)) == Ok(Some(n), rest)
    decreases n, 0
  {
    BlockRoundTrip(sugar, n.code, rest);
    var block := [OPEN] + PrintCode(sugar, n.code, [CLOSE] + rest);
    assert PrintNode(sugar, n, rest) == [FOR, n.id] + PrintSep(n.sep, block);
    assert n.id.kind == IdTok && (n.sep.Sep? ==> n.sep.token.kind == CodeTok);
    hide PrintNode, PrintCode, PrintSep, WfNode, WfCode, ParseAtomic, ParseFor, ParseBlock;
    Behind(OPEN, PrintCode(sugar, n.code, [CLOSE] + rest));
    ForAhead(n.id, n.sep, block, n.code, rest);
    Unfolds(FOR, n.id, n.id, PrintSep(n.sep, block));
    KeywordAhead([n.id] + PrintSep(n.sep, block));
  }

  lemma RangeRoundTrip(sugar: bool, n: Node, rest: seq<Token>)
    requires n.Range? && WfNode(sugar, n)
    ensures PrintNode(sugar, n, rest) != []
    ensures ParseAtomic(PrintNode(sugar, n, rest)) == Ok(Some(n), rest)
  {
    hide PrintCode, WfCode, ParseAtomic, ParseRange, Pop;
    var tail := [n.id] + ([n.lower] + ([DOTS] + ([n.upper] + rest)));
    FiveAhead(RANGE, n.id, n.lower, DOTS, n.upper, rest);
    assert PrintNode(sugar, n, rest) == [RANGE] + tail;
    RangeAhead(n.id, n.lower, n.upper, rest);
    KeywordAhead(tail);
  }

  lemma FiveAhead(a: Token, b: Token, c: Token, d: Token, e: Token, rest: seq<Token>)
    ensures [a, b, c, d, e] + rest == [a] + ([b] + ([c] + ([d] + ([e] + rest)))) != []
  {
  }

  lemma RangeAhead(id: Token, lower: Token, upper: Token, rest: seq<Token>)
    requires id.kind == IdTok && lower.kind == ExpTok && upper.kind == ExpTok
    ensures ParseRange([id] + ([lower] + ([DOTS] + ([upper] + rest)))) == Ok(Range(id, lower, upper), rest)
  {
    hide Pop;
    PopAhead(id, [lower] + ([DOTS] + ([upper] + rest)));
    PopAhead(lower, [DOTS] + ([upper] + rest));
    PopAhead(DOTS, [upper] + rest);
    PopAhead(upper, rest);
  }

  lemma {:induction false} IfNodeRoundTrip(sugar: bool, n: Node, rest: seq<Token>)
    requires n.If? && WfNode(sugar, n) && (OpenElse(sugar, n.elseBranch) ==> NoElseHere(rest))
    ensures PrintNode(sugar, n, rest) != []
    ensures ParseAtomic(PrintNode(sugar, n, rest)) == Ok(Some(n), rest)
    decreases n, 1
  {
    IfRoundTrip(sugar, n, rest);
    var code := PrintCode(sugar, n.thenBranch, [CLOSE] + PrintElse(sugar, n.elseBranch, rest));
    assert PrintNode(sugar, n, rest) == [IF, n.exp, OPEN] + code;
    hide PrintNode, PrintCode, PrintElse, WfNode, WfCode, ParseAtomic, ParseIf;
    Cut(IF, n.exp, OPEN, code);
    Behind(IF, [n.exp, OPEN] + code);
    KeywordAhead([n.exp, OPEN] + code);
  }

  lemma ExpRoundTrip(sugar: bool, n: Node, rest: seq<Token>)
    requires n.Exp? && WfNode(sugar, n)
    ensures PrintNode(sugar, n, rest) != []
    ensures ParseAtomic(PrintNode(sugar, n, rest)) == Ok(Some(n), rest)
  {
    hide PrintCode, PrintElse, ParseBlock, ParseIf, ParseVar, ParseFor, ParseRange, ParseElse, ParseCode, WfCode;
    var t := n.token;
    if t.kind == IdTok {
      assert ("$" + t.value)[1..] == t.value;
    } else {
      assert PrintNode(sugar, n, rest) == [DOLLAR] + ([t] + rest);
      PopAhead(t, rest);
      hide Pop;
    }
  }

  lemma {:induction false} NodeRoundTrip(sugar: bool, n: Node, rest: seq<Token>)
    requires WfNode(sugar, n)
    requires OpenChain(sugar, n) ==> NoElseHere(rest)
    ensures PrintNode(sugar, n, rest) != []
    ensures ParseAtomic(PrintNode(sugar, n, rest)) == Ok(Some(n), rest)
    decreases n, 2
  {
    hide PrintCode, PrintElse, ParseBlock, ParseIf, ParseVar, ParseFor, ParseRange, ParseElse, ParseCode, WfCode;
    match n
    case RawCode(t) =>
    case LiteralDollar(t) =>
    case Exp(t) => ExpRoundTrip(sugar, n, rest);
    case Range(_, _, _) => RangeRoundTrip(sugar, n, rest);
    case Var(_, _) => VarRoundTrip(sugar, n, rest);
    case For(_, _, _) => ForRoundTrip(sugar, n, rest);
    case If(_, _, _) => IfNodeRoundTrip(sugar, n, rest);
    case Code(code) => BlockRoundTrip(sugar, code, rest);
  }

  /**
   * Parse undoes print: any well-formed tree, in either spelling of its else
   * chains, comes back from its printing together with the untouched rest.
   */
  lemma {:induction false} CodeRoundTrip(sugar: bool, ns: seq<Node>, rest: seq<Token>)
    requires WfCode(sugar, ns) && Stops(rest)
    ensures ParseCode(PrintCode(sugar, ns, rest)) == Ok(ns, rest)
    decreases ns, 1
  {
    if ns == [] {
      hide ParseVar, ParseFor, ParseIf, ParseRange, ParseBlock;
    } else {
      var tail := PrintCode(sugar, ns[1..], rest);
      assert PrintCode(sugar, ns, rest) == PrintNode(sugar, ns[0], tail);
      hide PrintNode, ParseAtomic, ParseBlock;
      CodeRoundTrip(sugar, ns[1..], rest);
      if |ns| > 1 {
        LeadOf(sugar, ns[1], PrintCode(sugar, ns[1..][1..], rest));
      }
      NodeRoundTrip(sugar, ns[0], tail);
      assert [ns[0]] + ns[1..] == ns;
    }
  }

  /** `$elif` is only an abbreviation: both spellings of a tree parse to the same thing. */
  lemma ElifIsNestedIf(ns: seq<Node>, rest: seq<Token>)
    requires WfCode(true, ns) && Stops(rest)
    ensures ParseCode(PrintCode(true, ns, rest)) == ParseCode(PrintCode(false, ns, rest)) == Ok(ns, rest)
  {
    PlainWeaker(ns);
    CodeRoundTrip(true, ns, rest);
    CodeRoundTrip(false, ns, rest);
  }

  lemma OpenPlain(n: Node)
    ensures OpenChain(false, n) <==> n.If? && n.elseBranch.NoElse?
    ensures OpenChain(false, n) ==> OpenChain(true, n)
  {
    if n.If? {
      assert OpenChain(false, n) == OpenElse(false, n.elseBranch);
      assert OpenChain(true, n) == OpenElse(true, n.elseBranch);
    }
  }

  lemma {:induction false} PlainWeakerNode(n: Node)
    requires WfNode(true, n)
    ensures WfNode(false, n)
    decreases n, 0
  {
    match n
    case Var(id, body) => if !body.Exp? { PlainWeakerNode(body); }
    case For(id, sep, code) => PlainWeaker(code);
    case If(exp, code, els) =>
      PlainWeaker(code);
      if els.ElseBranch? { PlainWeaker(els.code); }
    case Code(code) => PlainWeaker(code);
    case _ =>
  }

  lemma {:induction false} PlainWeaker(ns: seq<Node>)
    requires WfCode(true, ns)
    ensures WfCode(false, ns)
    decreases ns, 1
  {
    if ns != [] {
      PlainWeakerNode(ns[0]);
      OpenPlain(ns[0]);
      PlainWeaker(ns[1..]);
    }
  }

  // ---- The image of the parser ----------------------------------------------

  lemma {:induction false} BlockYieldsWf(ts: seq<Token>)
    requires ParseBlock(ts).Ok?
    ensures WfCode(false, ParseBlock(ts).value)
    decreases |ts|, 0
  {
    CodeYieldsWf(Pop(ts, OpenTok).rest);
  }

  /** An else parse that finds nothing has skipped every blank token in its way. */
  lemma {:induction false} ElseYieldsWf(ts: seq<Token>)
    requires ParseElse(ts).Ok?
    ensures var r := ParseElse(ts);
      if r.value.NoElse? then NoElseHere(r.rest) else WfCode(false, r.value.code)
    decreases |ts|, 1
  {
    if ts == [] {
    } else if ts[0].kind == ElseTok {
      BlockYieldsWf(ts[1..]);
    } else if ts[0].kind == ElifTok {
      IfYieldsWf(ts[1..]);
    } else if Blank(ts[0].value) {
      ElseYieldsWf(ts[1..]);
    }
  }

  lemma {:induction false} IfYieldsWf(ts: seq<Token>)
    requires ParseIf(ts).Ok?
    ensures var r := ParseIf(ts);
      WfNode(false, r.value) && (OpenChain(false, r.value) ==> NoElseHere(r.rest))
    decreases |ts|, 0
  {
    BlockYieldsWf(ts[1..]);
    var afterCode := ParseBlock(ts[1..]).rest;
    ElseYieldsWf(afterCode);
    OpenPlain(ParseIf(ts).value);
    assert ParseIf(ts).value.elseBranch == ParseElse(afterCode).value;
    assert ParseIf(ts).rest == ParseElse(afterCode).rest;
  }

  lemma {:induction false} VarYieldsWf(ts: seq<Token>)
    requires ParseVar(ts).Ok?
    ensures ParseVar(ts).value.Var? && WfNode(false, ParseVar(ts).value)
    decreases |ts|, 0
  {
    var afterEq := Pop(Pop(ts, IdTok).rest, EqTok).rest;
    if afterEq[0].kind != ExpTok { BlockYieldsWf(afterEq); }
    hide ParseBlock, WfCode;
  }

  lemma {:induction false} ForYieldsWf(ts: seq<Token>)
    requires ParseFor(ts).Ok?
    ensures ParseFor(ts).value.For? && WfNode(false, ParseFor(ts).value)
    decreases |ts|, 0
  {
    var afterId := Pop(ts, IdTok).rest;
    BlockYieldsWf(if afterId[0].kind == CodeTok then afterId[1..] else afterId);
    hide ParseBlock, WfCode;
  }

  lemma RangeYieldsWf(ts: seq<Token>)
    requires ParseRange(ts).Ok?
    ensures ParseRange(ts).value.Range? && WfNode(false, ParseRange(ts).value)
  {
  }

  lemma {:induction false} AtomicYieldsWf(ts: seq<Token>)
    requires ts != [] && ParseAtomic(ts).Ok? && ParseAtomic(ts).value.Some?
    ensures var Ok(Some(n), rest) := ParseAtomic(ts);
      && WfNode(false, n)
      && (BlankLead(n) ==> !NoElseHere(ts))
      && (OpenChain(false, n) ==> NoElseHere(rest))
    decreases |ts|, 1
  {
    hide ParseVar, ParseFor, ParseIf, ParseRange, ParseBlock, WfCode, OpenElse;
    var tail := ts[1..];
    match ts[0].kind
    case VarTok => VarYieldsWf(tail);
    case ForTok => ForYieldsWf(tail);
    case IfTok => IfYieldsWf(tail);
    case RangeTok => RangeYieldsWf(tail);
    case OpenTok => BlockYieldsWf(ts);
    case _ =>
  }

  lemma {:induction false} CodeYieldsWf(ts: seq<Token>)
    requires ParseCode(ts).Ok?
    ensures WfCode(false, ParseCode(ts).value)
    decreases |ts|, 3
  {
    if ts != [] {
      match ParseAtomic(ts)
      case Ok(None, rest) =>
      case Ok(Some(n), rest) =>
        AtomicYieldsWf(ts);
        CodeYieldsWf(rest);
        var more := ParseCode(rest).value;
        assert ([n] + more)[1..] == more;
        if more != [] && OpenChain(false, n) {
          AtomicYieldsWf(rest);
          assert more[0] == ParseAtomic(rest).value.value;
        }
    }
  }

  /**
   * The well-formedness condition is exact: a tree is well formed if and only
   * if it is what the parser makes of some whole input.
   */
  lemma WellFormedIsParsable(ns: seq<Node>)
    ensures WfCode(false, ns) <==> exists ts :: ParseCode(ts) == Ok(ns, [])
  {
    if WfCode(false, ns) {
      CodeRoundTrip(false, ns, []);
    }
    forall ts | ParseCode(ts) == Ok(ns, []) ensures WfCode(false, ns) {
      CodeYieldsWf(ts);
    }
  }

  /** The parser swallows blank text after an `$if` without `$else`. */
  lemma BlankAfterIfIsLost(exp: Token, blank: Token)
    requires exp.kind == CodeTok && blank.kind == CodeTok && Blank(blank.value)
    ensures var lone := If(exp, [], NoElse);
      && !WfCode(false, [lone, RawCode(blank)])
      && ParseCode(PrintCode(false, [lone, RawCode(blank)], [])) == Ok([lone], [])
  {
    var lone := If(exp, [], NoElse);
    LoneIsIll(lone, blank);
    LonePrints(exp, blank);
    hide PrintCode, WfCode, ParseIf, ParseAtomic, ParseCode, Blank;
    var tail := [exp] + ([OPEN] + ([CLOSE] + [blank]));
    LoneParses(exp, blank);
    KeywordAhead(tail);
    LastAhead([IF] + tail, lone);
  }

  lemma LoneIsIll(lone: Node, blank: Token)
    requires lone.If? && lone.elseBranch.NoElse? && Blank(blank.value)
    ensures !WfCode(false, [lone, RawCode(blank)])
  {
    assert OpenChain(false, lone) && BlankLead([lone, RawCode(blank)][1]);
  }

  /** The last node of the input. */
  lemma LastAhead(ts: seq<Token>, n: Node)
    requires ts != [] && ParseAtomic(ts) == Ok(Some(n), [])
    ensures ParseCode(ts) == Ok([n], [])
  {
    assert ParseCode([]) == Ok([], []);
    hide ParseAtomic;
    assert [n] + [] == [n];
  }

  lemma LonePrints(exp: Token, blank: Token)
    ensures PrintCode(false, [If(exp, [], NoElse), RawCode(blank)], [])
         == [IF] + ([exp] + ([OPEN] + ([CLOSE] + [blank])))
  {
    var lone := If(exp, [], NoElse);
    assert [lone, RawCode(blank)][1..] == [RawCode(blank)] && [RawCode(blank)][1..] == [];
    assert PrintCode(false, [RawCode(blank)], []) == [blank] + [] == [blank];
    assert PrintNode(false, lone, [blank]) == [IF, exp, OPEN] + ([CLOSE] + [blank]);
    Unfolds(IF, exp, OPEN, [CLOSE] + [blank]);
  }

  lemma LoneParses(exp: Token, blank: Token)
    requires exp.kind == CodeTok && blank.kind == CodeTok && Blank(blank.value)
    ensures ParseIf([exp] + ([OPEN] + ([CLOSE] + [blank]))) == Ok(If(exp, [], NoElse), [])
  {
    Behind(CLOSE, [blank]);
    assert ParseCode([CLOSE] + [blank]) == Ok([], [CLOSE] + [blank]);
    assert ParseElse([blank]) == Ok(NoElse, []) by {
      assert [blank][1..] == [];
      assert ParseElse([]) == Ok(NoElse, []);
    }
    PopAhead(OPEN, [CLOSE] + [blank]);
    PopAhead(CLOSE, [blank]);
    hide ParseElse, ParseCode, Pop;
    IfAhead(exp, [OPEN] + ([CLOSE] + [blank]), [], [blank], NoElse, []);
  }

  /** Printing normalises: reparsing the printing of any parse gives the same tree. */
  lemma Normalises(ts: seq<Token>)
    requires ParseCode(ts).Ok?
    ensures var ns := ParseCode(ts).value; ParseCode(PrintCode(false, ns, [])) == Ok(ns, [])
  {
    CodeYieldsWf(ts);
    CodeRoundTrip(false, ParseCode(ts).value, []);
  }
}
