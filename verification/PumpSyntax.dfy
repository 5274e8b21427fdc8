/**
 * Tokens and syntax trees of the Pump meta-language, and its canonical printer.
 *
 * Source positions are dropped: they only reach error messages.
 */
module PumpSyntax {
  import opened PumpText

  datatype Kind =
    | CodeTok | VarTok | ForTok | IfTok | ElifTok | ElseTok | RangeTok
    | IdRefTok | LiteralDollarTok | DollarTok | OpenTok | CloseTok
    | IdTok | EqTok | ExpTok | DotsTok

  datatype Token = Token(kind: Kind, value: string)

  /** A list of nodes is what the program calls a CodeNode. */
  datatype Node =
    | RawCode(token: Token)
    | LiteralDollar(token: Token)
    | Exp(token: Token)
    | Var(id: Token, body: Node)
    | Range(id: Token, lower: Token, upper: Token)
    | For(id: Token, sep: Separator, code: seq<Node>)
    | If(exp: Token, thenBranch: seq<Node>, elseBranch: Else)
    | Code(nodes: seq<Node>)

  datatype Separator = NoSep | Sep(token: Token)

  datatype Else = NoElse | ElseBranch(code: seq<Node>)

  // ---- Printing -------------------------------------------------------------

  const VAR := Token(VarTok, "$var ")
  const FOR := Token(ForTok, "$for ")
  const IF := Token(IfTok, "$if ")
  const ELIF := Token(ElifTok, "$elif ")
  const ELSE := Token(ElseTok, "$else ")
  const RANGE := Token(RangeTok, "$range ")
  const DOLLAR := Token(DollarTok, "$")
  const OPEN := Token(OpenTok, "[[")
  const CLOSE := Token(CloseTok, "]]")
  const EQ := Token(EqTok, "=")
  const DOTS := Token(DotsTok, "..")

  /** True when the else branch is a lone `$if`, which `$elif` abbreviates. */
  predicate IsElif(e: Else) {
    e.ElseBranch? && |e.code| == 1 && e.code[0].If?
  }

  /**
   * The tokens of a node followed by `rest`. With `sugar`, an else branch that
   * is a lone `$if` is written as `$elif`.
   */
  function PrintNode(sugar: bool, n: Node, rest: seq<Token>): seq<Token>
    decreases n, 0
  {
    match n
    case RawCode(t) => [t] + rest
    case LiteralDollar(t) => [t] + rest
    case Exp(t) =>
      if t.kind == IdTok then [Token(IdRefTok, "$" + t.value)] + rest else [DOLLAR, t] + rest
    case Var(id, body) =>
      [VAR, id, EQ] + (if body.Exp? then [body.token] + rest else PrintNode(sugar, body, rest))
    case Range(id, lower, upper) => [RANGE, id, lower, DOTS, upper] + rest
    case For(id, sep, code) =>
      [FOR, id] + PrintSep(sep, [OPEN] + PrintCode(sugar, code, [CLOSE] + rest))
    case If(exp, code, els) =>
      [IF, exp, OPEN] + PrintCode(sugar, code, [CLOSE] + PrintElse(sugar, els, rest))
    case Code(code) => [OPEN] + PrintCode(sugar, code, [CLOSE] + rest)
  }

  function PrintSep(sep: Separator, rest: seq<Token>): seq<Token> {
    match sep
    case NoSep => rest
    case Sep(t) => [t] + rest
  }

  function PrintElse(sugar: bool, els: Else, rest: seq<Token>): seq<Token>
    decreases els, 0
  {
    match els
    case NoElse => rest
    case ElseBranch(code) =>
      if sugar && IsElif(els) then
        var inner := code[0];
        [ELIF, inner.exp, OPEN]
        + PrintCode(sugar, inner.thenBranch, [CLOSE] + PrintElse(sugar, inner.elseBranch, rest))
      else
        [ELSE, OPEN] + PrintCode(sugar, code, [CLOSE] + rest)
  }

  function PrintCode(sugar: bool, ns: seq<Node>, rest: seq<Token>): seq<Token>
    decreases ns, 1
  {
    if ns == [] then rest else PrintNode(sugar, ns[0], PrintCode(sugar, ns[1..], rest))
  }

  // ---- Well-formed trees ----------------------------------------------------

  /** An `$if` chain whose printing ends without an `$else`, so the parser looks further. */
  predicate OpenChain(sugar: bool, n: Node)
    decreases n, 1
  {
    n.If? && OpenElse(sugar, n.elseBranch)
  }

  predicate OpenElse(sugar: bool, els: Else)
    decreases els, 0
  {
    match els
    case NoElse => true
    case ElseBranch(code) => sugar && IsElif(els) && OpenChain(sugar, code[0])
  }

  /** The node's printing starts with a token made of white space only. */
  predicate BlankLead(n: Node) {
    (n.RawCode? || n.LiteralDollar?) && Blank(n.token.value)
  }

  predicate WfNode(sugar: bool, n: Node)
    decreases n, 0
  {
    match n
    case RawCode(t) => t.kind == CodeTok
    case LiteralDollar(t) => t.kind == LiteralDollarTok
    case Exp(t) => t.kind == IdTok || t.kind == ExpTok
    case Var(id, body) =>
      id.kind == IdTok && (if body.Exp? then body.token.kind == ExpTok else body.Code? && WfNode(sugar, body))
    case Range(id, lower, upper) => id.kind == IdTok && lower.kind == ExpTok && upper.kind == ExpTok
    case For(id, sep, code) => id.kind == IdTok && (sep.Sep? ==> sep.token.kind == CodeTok) && WfCode(sugar, code)
    case If(exp, code, els) =>
      exp.kind == CodeTok && WfCode(sugar, code) && (els.ElseBranch? ==> WfCode(sugar, els.code))
    case Code(code) => WfCode(sugar, code)
  }

  /**
   * Tokens have the kinds the grammar asks for and, the one real restriction,
   * no blank raw code directly follows an `$if` chain without `$else`.
   */
  predicate WfCode(sugar: bool, ns: seq<Node>)
    decreases ns, 1
  {
    ns == [] ||
    (&& WfNode(sugar, ns[0])
     && (|ns| > 1 && OpenChain(sugar, ns[0]) ==> !BlankLead(ns[1]))
     && WfCode(sugar, ns[1..]))
  }
}
