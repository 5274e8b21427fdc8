/**
 * The grammar of the Pump meta-language, as a relation between token lists and
 * trees that does not parse anything, and the proof that the parser accepts
 * exactly what it says.
 */
module PumpGrammar {
  import opened Wrappers
  import opened PumpSyntax
  import opened PumpText
  import opened PumpParser
  import opened PumpRoundTrip

  // ---- The grammar ----------------------------------------------------------

  /** A token that no node starts with. */
  predicate StartsNothing(t: Token) {
    t.kind == ElifTok || t.kind == ElseTok || t.kind == CloseTok || t.kind == IdTok || t.kind == EqTok
    || t.kind == ExpTok || t.kind == DotsTok
  }

  /** Where code ends. */
  predicate CodeEnds(rest: seq<Token>) {
    rest == [] || StartsNothing(rest[0])
  }

  /** `ts` is a spelling of the node, followed by `rest`. */
  ghost predicate SpellsNode(ts: seq<Token>, n: Node, rest: seq<Token>)
    decreases n, 2
  {
    match n
    case RawCode(t) => t.kind == CodeTok && ts == [t] + rest
    case LiteralDollar(t) => t.kind == LiteralDollarTok && ts == [t] + rest
    case Exp(t) =>
      || (t.kind == IdTok && exists ref: Token :: SpellsRef(ref, t) && ts == [ref] + rest)
      || (t.kind == ExpTok && |ts| >= 2 && ts[0].kind == DollarTok && ts == [ts[0], t] + rest)
    case Var(id, body) =>
      && |ts| >= 3 && ts[0].kind == VarTok && ts[1] == id && id.kind == IdTok && ts[2].kind == EqTok
      && (if body.Exp? then body.token.kind == ExpTok && ts[3..] == [body.token] + rest
          else body.Code? && SpellsBlock(ts[3..], body.nodes, rest))
    case Range(id, lower, upper) =>
      && id.kind == IdTok && lower.kind == ExpTok && upper.kind == ExpTok
      && |ts| >= 5 && ts[0].kind == RangeTok && ts[3].kind == DotsTok
      && ts == [ts[0], id, lower, ts[3], upper] + rest
    case For(id, sep, code) =>
      && |ts| >= 2 && ts[0].kind == ForTok && ts[1] == id && id.kind == IdTok
      && (match sep
          case NoSep => SpellsBlock(ts[2..], code, rest)
          case Sep(t) => |ts| >= 3 && ts[2] == t && t.kind == CodeTok && SpellsBlock(ts[3..], code, rest))
    case If(_, _, _) => |ts| >= 1 && ts[0].kind == IfTok && SpellsIf(ts[1..], n, rest)
    case Code(code) => SpellsBlock(ts, code, rest)
  }

  /** `$x`, where `x` is the identifier; only its text matters. */
  predicate SpellsRef(ref: Token, id: Token) {
    ref.kind == IdRefTok && id.value == if ref.value == "" then "" else ref.value[1..]
  }

  /** `[[ CODE ]]`. */
  ghost predicate SpellsBlock(ts: seq<Token>, code: seq<Node>, rest: seq<Token>)
    decreases code, 2
  {
    && ts != [] && ts[0].kind == OpenTok
    && exists close: Token :: close.kind == CloseTok && SpellsCode(ts[1..], code, [close] + rest)
  }

  /** What follows `$if` or `$elif`. */
  ghost predicate SpellsIf(ts: seq<Token>, n: Node, rest: seq<Token>)
    requires n.If?
    decreases n, 1
  {
    && ts != [] && ts[0] == n.exp && n.exp.kind == CodeTok
    && exists afterThen :: SpellsBlock(ts[1..], n.thenBranch, afterThen) && SpellsElse(afterThen, n.elseBranch, rest)
  }

  /** The first `n` tokens are blank text. */
  predicate BlankText(ts: seq<Token>, n: nat) {
    n <= |ts| && forall i :: 0 <= i < n ==> ts[i].kind == CodeTok && Blank(ts[i].value)
  }

  /** Any blank text, and then the branch. */
  ghost predicate SpellsElse(ts: seq<Token>, els: Else, rest: seq<Token>)
    decreases els, 1
  {
    exists n: nat :: BlankText(ts, n) && SpellsBranch(ts[n..], els, rest)
  }

  /** `$else [[ CODE ]]`, `$elif` and what follows it, or nothing, where nothing more can belong to the `$if`. */
  ghost predicate SpellsBranch(ts: seq<Token>, els: Else, rest: seq<Token>)
    decreases els, 0
  {
    match els
    case NoElse => ts == rest && NoElseHere(rest)
    case ElseBranch(code) =>
      && ts != []
      && (|| (ts[0].kind == ElseTok && SpellsBlock(ts[1..], code, rest))
          || (ts[0].kind == ElifTok && IsElif(els) && SpellsIf(ts[1..], code[0], rest)))
  }

  ghost predicate SpellsCode(ts: seq<Token>, ns: seq<Node>, rest: seq<Token>)
    decreases ns, 1
  {
    if ns == [] then ts == rest
    else exists afterFirst :: SpellsNode(ts, ns[0], afterFirst) && SpellsCode(afterFirst, ns[1..], rest)
  }

  // ---- What the parser makes is spelled so ----------------------------------

  lemma {:induction false} BlockIsSpelled(ts: seq<Token>)
    requires ParseBlock(ts).Ok?
    ensures SpellsBlock(ts, ParseBlock(ts).value, ParseBlock(ts).rest)
    decreases |ts|, 0
  {
    CodeIsSpelled(ts[1..]);
    var after := ParseCode(ts[1..]).rest;
    assert after == [after[0]] + after[1..];
  }

  /** One more blank token in front. */
  lemma BlankAhead(ts: seq<Token>, els: Else, rest: seq<Token>)
    requires ts != [] && ts[0].kind == CodeTok && Blank(ts[0].value) && SpellsElse(ts[1..], els, rest)
    ensures SpellsElse(ts, els, rest)
  {
    hide SpellsBranch, Blank;
    var n: nat :| BlankText(ts[1..], n) && SpellsBranch(ts[1..][n..], els, rest);
    assert ts[1..][n..] == ts[n + 1..];
    forall i | 0 <= i < n + 1 ensures ts[i].kind == CodeTok && Blank(ts[i].value) {
      assert i > 0 ==> ts[i] == ts[1..][i - 1];
    }
    assert BlankText(ts, n + 1);
  }

  lemma NoBlanks(ts: seq<Token>, els: Else, rest: seq<Token>)
    requires SpellsBranch(ts, els, rest)
    ensures SpellsElse(ts, els, rest)
  {
    hide SpellsBranch;
    assert ts[0..] == ts && BlankText(ts, 0);
  }

  lemma {:induction false} ElseIsSpelled(ts: seq<Token>)
    requires ParseElse(ts).Ok?
    ensures SpellsElse(ts, ParseElse(ts).value, ParseElse(ts).rest)
    decreases |ts|, 1
  {
    var els, rest := ParseElse(ts).value, ParseElse(ts).rest;
    hide SpellsElse, SpellsBlock, SpellsIf, ParseBlock, ParseIf, Blank;
    if ts == [] {
      NoBlanks(ts, els, rest);
    } else if ts[0].kind == ElseTok {
      BlockIsSpelled(ts[1..]);
      NoBlanks(ts, els, rest);
    } else if ts[0].kind == ElifTok {
      IfIsSpelled(ts[1..]);
      NoBlanks(ts, els, rest);
    } else if Blank(ts[0].value) {
      ElseIsSpelled(ts[1..]);
      hide SpellsBranch;
      BlankAhead(ts, els, rest);
    } else {
      NoBlanks(ts, els, rest);
    }
  }

  lemma {:induction false} IfIsSpelled(ts: seq<Token>)
    requires ParseIf(ts).Ok?
    ensures SpellsIf(ts, ParseIf(ts).value, ParseIf(ts).rest)
    decreases |ts|, 0
  {
    BlockIsSpelled(ts[1..]);
    ElseIsSpelled(ParseBlock(ts[1..]).rest);
  }

  lemma {:induction false} VarIsSpelled(ts: seq<Token>)
    requires ts != [] && ts[0].kind == VarTok && ParseVar(ts[1..]).Ok?
    ensures SpellsNode(ts, ParseVar(ts[1..]).value, ParseVar(ts[1..]).rest)
    decreases |ts|, 0
  {
    if ts[3].kind != ExpTok {
      BlockIsSpelled(ts[3..]);
    }
    hide ParseBlock, SpellsBlock;
  }

  lemma {:induction false} ForIsSpelled(ts: seq<Token>)
    requires ts != [] && ts[0].kind == ForTok && ParseFor(ts[1..]).Ok?
    ensures SpellsNode(ts, ParseFor(ts[1..]).value, ParseFor(ts[1..]).rest)
    decreases |ts|, 0
  {
    BlockIsSpelled(if ts[2].kind == CodeTok then ts[3..] else ts[2..]);
    hide ParseBlock, SpellsBlock;
  }

  lemma {:induction false} AtomicIsSpelled(ts: seq<Token>)
    requires ts != [] && ParseAtomic(ts).Ok?
    ensures match ParseAtomic(ts).value
      case None => StartsNothing(ts[0]) && ParseAtomic(ts).rest == ts
      case Some(n) => SpellsNode(ts, n, ParseAtomic(ts).rest)
    decreases |ts|, 1
  {
    match ts[0].kind
    case VarTok => VarIsSpelled(ts);
    case ForTok => ForIsSpelled(ts);
    case IfTok =>
      IfIsSpelled(ts[1..]);
      hide ParseIf, SpellsIf;
    case OpenTok =>
      BlockIsSpelled(ts);
      hide ParseBlock, SpellsBlock;
    case _ =>
      SimpleIsSpelled(ts);
  }

  /** The nodes without nodes in them. */
  lemma SimpleIsSpelled(ts: seq<Token>)
    requires ts != [] && ParseAtomic(ts).Ok?
    requires var k := ts[0].kind; k != VarTok && k != ForTok && k != IfTok && k != OpenTok
    ensures match ParseAtomic(ts).value
      case None => StartsNothing(ts[0]) && ParseAtomic(ts).rest == ts
      case Some(n) => SpellsNode(ts, n, ParseAtomic(ts).rest)
  {
    hide ParseBlock, ParseIf, ParseVar, ParseFor;
    if ts[0].kind == IdRefTok {
      assert SpellsRef(ts[0], ParseAtomic(ts).value.value.token);
    }
  }

  lemma {:induction false} CodeIsSpelled(ts: seq<Token>)
    requires ParseCode(ts).Ok?
    ensures SpellsCode(ts, ParseCode(ts).value, ParseCode(ts).rest) && CodeEnds(ParseCode(ts).rest)
    decreases |ts|, 3
  {
    if ts != [] {
      AtomicIsSpelled(ts);
      match ParseAtomic(ts)
      case Ok(None, rest) =>
      case Ok(Some(n), rest) =>
        CodeIsSpelled(rest);
        assert ([n] + ParseCode(rest).value)[1..] == ParseCode(rest).value;
    }
  }

  // ---- What is spelled so is parsed so --------------------------------------

  lemma {:induction false} BlockParses(ts: seq<Token>, code: seq<Node>, rest: seq<Token>)
    requires SpellsBlock(ts, code, rest)
    ensures ParseBlock(ts) == Ok(code, rest)
    decreases code, 3
  {
    var close: Token :| close.kind == CloseTok && SpellsCode(ts[1..], code, [close] + rest);
    CodeParses(ts[1..], code, [close] + rest);
    hide SpellsCode, ParseCode;
    assert ([close] + rest)[1..] == rest;
  }

  /** Blank text in front of an else branch, or of its absence, makes no difference. */
  lemma {:induction false} BlanksAreSkipped(ts: seq<Token>, n: nat)
    requires BlankText(ts, n)
    ensures ParseElse(ts) == ParseElse(ts[n..])
    decreases n
  {
    if n > 0 {
      forall i | 0 <= i < n - 1 ensures ts[1..][i].kind == CodeTok && Blank(ts[1..][i].value) {
        assert ts[1..][i] == ts[i + 1];
      }
      BlanksAreSkipped(ts[1..], n - 1);
      assert ts[1..][n - 1..] == ts[n..];
      hide ParseBlock, ParseIf, Blank;
    } else {
      assert ts[0..] == ts;
    }
  }

  lemma {:induction false} ElseParses(ts: seq<Token>, els: Else, rest: seq<Token>)
    requires SpellsElse(ts, els, rest)
    ensures ParseElse(ts) == Ok(els, rest)
    decreases els, 1
  {
    var n: nat :| BlankText(ts, n) && SpellsBranch(ts[n..], els, rest);
    BlanksAreSkipped(ts, n);
    BranchParses(ts[n..], els, rest);
  }

  lemma {:induction false} BranchParses(ts: seq<Token>, els: Else, rest: seq<Token>)
    requires SpellsBranch(ts, els, rest)
    ensures ParseElse(ts) == Ok(els, rest)
    decreases els, 0
  {
    hide SpellsBlock, SpellsIf, ParseBlock, ParseIf, Blank;
    if els.ElseBranch? {
      if ts[0].kind == ElseTok {
        BlockParses(ts[1..], els.code, rest);
      } else {
        IfParses(ts[1..], els.code[0], rest);
        assert els.code == [els.code[0]];
      }
    }
  }

  lemma {:induction false} IfParses(ts: seq<Token>, n: Node, rest: seq<Token>)
    requires n.If? && SpellsIf(ts, n, rest)
    ensures ParseIf(ts) == Ok(n, rest)
    decreases n, 1
  {
    var afterThen :| SpellsBlock(ts[1..], n.thenBranch, afterThen) && SpellsElse(afterThen, n.elseBranch, rest);
    BlockParses(ts[1..], n.thenBranch, afterThen);
    ElseParses(afterThen, n.elseBranch, rest);
    hide SpellsBlock, SpellsElse, ParseBlock, ParseElse;
  }

  lemma {:induction false} VarParses(ts: seq<Token>, n: Node, rest: seq<Token>)
    requires n.Var? && SpellsNode(ts, n, rest)
    ensures ParseVar(ts[1..]) == Ok(n, rest)
    decreases n, 0
  {
    if n.body.Exp? {
      assert ts[3..][1..] == rest && ts[3..][0] == n.body.token;
    } else {
      BlockParses(ts[3..], n.body.nodes, rest);
    }
    assert ts[1..][1..] == ts[2..] && ts[2..][1..] == ts[3..];
    hide SpellsBlock;
    assert !n.body.Exp? ==> ts[3..] != [] && ts[3..][0].kind == OpenTok by { BlockOpens(ts[3..]); }
    hide ParseBlock;
  }

  lemma BlockOpens(ts: seq<Token>)
    ensures ParseBlock(ts).Ok? ==> ts != [] && ts[0].kind == OpenTok
  {
  }

  lemma {:induction false} ForParses(ts: seq<Token>, n: Node, rest: seq<Token>)
    requires n.For? && SpellsNode(ts, n, rest)
    ensures ParseFor(ts[1..]) == Ok(n, rest)
    decreases n, 0
  {
    var block := if n.sep.Sep? then ts[3..] else ts[2..];
    BlockParses(block, n.code, rest);
    BlockOpens(block);
    assert ts[1..][1..] == ts[2..] && (n.sep.Sep? ==> ts[2..][1..] == ts[3..]);
    hide SpellsBlock, ParseBlock;
  }

  lemma RangeParses(ts: seq<Token>, n: Node, rest: seq<Token>)
    requires n.Range? && SpellsNode(ts, n, rest)
    ensures ParseRange(ts[1..]) == Ok(n, rest)
  {
    assert ts[1..] == [n.id] + ([n.lower] + ([ts[3]] + ([n.upper] + rest)));
    hide SpellsNode, Pop;
    PopAhead(n.id, [n.lower] + ([ts[3]] + ([n.upper] + rest)));
    PopAhead(n.lower, [ts[3]] + ([n.upper] + rest));
    PopAhead(ts[3], [n.upper] + rest);
    PopAhead(n.upper, rest);
  }

  lemma {:induction false} NodeParses(ts: seq<Token>, n: Node, rest: seq<Token>)
    requires SpellsNode(ts, n, rest)
    ensures ts != [] && ParseAtomic(ts) == Ok(Some(n), rest)
    decreases n, 2
  {
    hide ParseBlock, ParseIf, ParseVar, ParseFor, ParseRange, SpellsBlock, SpellsIf;
    match n
    case RawCode(t) => assert ts[1..] == rest;
    case LiteralDollar(t) => assert ts[1..] == rest;
    case Exp(t) => ExpParses(ts, n, rest);
    case Var(_, _) => VarParses(ts, n, rest);
    case Range(_, _, _) => RangeParses(ts, n, rest);
    case For(_, _, _) => ForParses(ts, n, rest);
    case If(_, _, _) => IfParses(ts[1..], n, rest);
    case Code(code) =>
      BlockParses(ts, code, rest);
      BlockOpens(ts);
  }

  lemma ExpParses(ts: seq<Token>, n: Node, rest: seq<Token>)
    requires n.Exp? && SpellsNode(ts, n, rest)
    ensures ts != [] && ParseAtomic(ts) == Ok(Some(n), rest)
  {
    hide ParseBlock, ParseIf, ParseVar, ParseFor, ParseRange;
    var t := n.token;
    if t.kind == IdTok {
      var ref: Token :| SpellsRef(ref, t) && ts == [ref] + rest;
      assert ts[1..] == rest && t == Token(IdTok, t.value);
    } else {
      assert ts[1..] == [t] + rest && ts[1..][1..] == rest;
    }
  }

  lemma {:induction false} CodeParses(ts: seq<Token>, ns: seq<Node>, rest: seq<Token>)
    requires SpellsCode(ts, ns, rest) && CodeEnds(rest)
    ensures ParseCode(ts) == Ok(ns, rest)
    decreases ns, 2
  {
    if ns == [] {
      hide ParseBlock, ParseIf, ParseVar, ParseFor, ParseRange;
    } else {
      var afterFirst :| SpellsNode(ts, ns[0], afterFirst) && SpellsCode(afterFirst, ns[1..], rest);
      NodeParses(ts, ns[0], afterFirst);
      CodeParses(afterFirst, ns[1..], rest);
      hide SpellsNode, SpellsCode, ParseAtomic;
      assert [ns[0]] + ns[1..] == ns;
    }
  }

  // ---- The parser and the grammar agree -------------------------------------

  /** The parser reads a token list as a tree and a rest if and only if the grammar says so, whatever the tokens. */
  lemma ParsesIffSpelled(ts: seq<Token>, ns: seq<Node>, rest: seq<Token>)
    ensures ParseCode(ts) == Ok(ns, rest) <==> SpellsCode(ts, ns, rest) && CodeEnds(rest)
  {
    hide ParseCode, SpellsCode;
    if ParseCode(ts) == Ok(ns, rest) {
      CodeIsSpelled(ts);
    }
    if SpellsCode(ts, ns, rest) && CodeEnds(rest) {
      CodeParses(ts, ns, rest);
    }
  }

  /** The parser dies on a token list if and only if no start of it is code that ends there. */
  lemma DiesIffUnspelled(ts: seq<Token>)
    ensures ParseCode(ts).Err? <==> forall ns, rest :: !(SpellsCode(ts, ns, rest) && CodeEnds(rest))
  {
    hide ParseCode, SpellsCode;
    forall ns, rest ensures ParseCode(ts) == Ok(ns, rest) <==> SpellsCode(ts, ns, rest) && CodeEnds(rest) {
      ParsesIffSpelled(ts, ns, rest);
    }
    if ParseCode(ts).Ok? {
      ParsesIffSpelled(ts, ParseCode(ts).value, ParseCode(ts).rest);
    }
  }

  /** The grammar is unambiguous. */
  lemma OneReading(ts: seq<Token>, ns: seq<Node>, rest: seq<Token>, ns': seq<Node>, rest': seq<Token>)
    requires SpellsCode(ts, ns, rest) && CodeEnds(rest) && SpellsCode(ts, ns', rest') && CodeEnds(rest')
    ensures ns == ns' && rest == rest'
  {
    hide ParseCode, SpellsCode;
    ParsesIffSpelled(ts, ns, rest);
    ParsesIffSpelled(ts, ns', rest');
  }

  /** Every printing of a well-formed tree is a spelling of it. */
  lemma PrintedIsSpelled(sugar: bool, ns: seq<Node>, rest: seq<Token>)
    requires WfCode(sugar, ns) && Stops(rest)
    ensures SpellsCode(PrintCode(sugar, ns, rest), ns, rest)
  {
    hide ParseCode, PrintCode, WfCode;
    CodeRoundTrip(sugar, ns, rest);
    ParsesIffSpelled(PrintCode(sugar, ns, rest), ns, rest);
  }
}
