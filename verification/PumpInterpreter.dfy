/**
 * The interpreter of scripts/pump.py: a denotation of every tree, the laws it
 * obeys, and the program's own interpreter over mutable environments and output,
 * proved to compute the denotation.
 */
module PumpInterpreter {
  import opened Wrappers
  import opened PumpSyntax
  import opened PumpText

  /** Python values: the two kinds the interpreter makes itself, and whatever else `eval` returns. */
  datatype Value = IntV(i: int) | StrV(s: string) | Obj(id: nat)

  /** The parts of Python the interpreter calls. `None` is a raised exception. */
  datatype Python = Python(
    eval: (string, seq<(string, Value)>) -> Option<Value>,
    parseInt: string -> Option<int>,
    show: nat -> string,
    truth: nat -> bool,
    objInt: nat -> Option<int>)

  datatype Bindings = Bindings(vars: seq<(string, Value)>, ranges: seq<(string, int, int)>)

  function LastDigit(n: nat): char {
    ("0123456789")[n % 10]
  }

  function Digits(n: nat): (s: string) {
    (if n < 10 then "" else Digits(n / 10)) + [LastDigit(n)]
  }

  function Decimal(i: int): string {
    if i < 0 then "-" + Digits(-i) else Digits(i)
  }

  function Format(py: Python, v: Value): string {
    match v
    case IntV(i) => Decimal(i)
    case StrV(s) => s
    case Obj(id) => (py.show)(id)
  }

  function Truth(py: Python, v: Value): bool {
    match v
    case IntV(i) => i != 0
    case StrV(s) => s != ""
    case Obj(id) => (py.truth)(id)
  }

  function ToInt(py: Python, v: Value): Option<int> {
    match v
    case IntV(i) => Some(i)
    case StrV(s) => (py.parseInt)(s)
    case Obj(id) => (py.objInt)(id)
  }

  /** A text that reads back as itself is stored as a number; either way it prints unchanged. */
  function Store(py: Python, text: string): (v: Value)
    ensures Format(py, v) == text
  {
    var n := (py.parseInt)(text);
    if n.Some? && Decimal(n.value) == text then IntV(n.value) else StrV(text)
  }

  function PushVar(b: Bindings, id: string, v: Value): Bindings {
    b.(vars := [(id, v)] + b.vars)
  }

  function FindRange(ranges: seq<(string, int, int)>, id: string): Option<(int, int)> {
    if ranges == [] then None
    else if ranges[0].0 == id then Some((ranges[0].1, ranges[0].2))
    else FindRange(ranges[1..], id)
  }

  function SepText(sep: Separator): string {
    if sep.Sep? then sep.token.value else ""
  }

  // ---- Denotation -----------------------------------------------------------

  type Meaning = Option<(Bindings, string)>

  function Prefixed(text: string, m: Meaning): Meaning {
    match m
    case None => None
    case Some((b, rest)) => Some((b, text + rest))
  }

  function TextOf(m: Meaning): Option<string> {
    match m
    case None => None
    case Some((_, text)) => Some(text)
  }

  /** Keeps the text of a block and throws its bindings away. */
  function Scoped(b: Bindings, text: Option<string>): Meaning {
    match text
    case None => None
    case Some(s) => Some((b, s))
  }

  function EvalInt(py: Python, b: Bindings, exp: Token): Option<int> {
    var v := (py.eval)(exp.value, b.vars);
    if v.None? then None else ToInt(py, v.value)
  }

  function Denote(py: Python, b: Bindings, n: Node): Meaning
    decreases n, 0
  {
    match n
    case RawCode(t) => Some((b, t.value))
    case LiteralDollar(_) => Some((b, "$"))
    case Exp(t) =>
      var v := (py.eval)(t.value, b.vars);
      if v.None? then None else Some((b, Format(py, v.value)))
    case Var(id, body) =>
      (match TextOf(Denote(py, b, body))
       case None => None
       case Some(text) => Some((PushVar(b, Strip(id.value), Store(py, text)), "")))
    case Range(id, lower, upper) =>
      var lo, hi := EvalInt(py, b, lower), EvalInt(py, b, upper);
      if lo.None? || hi.None? then None
      else Some((b.(ranges := [(Strip(id.value), lo.value, hi.value)] + b.ranges), ""))
    case For(id, sep, code) =>
      (match FindRange(b.ranges, Strip(id.value))
       case None => None
       case Some((lo, hi)) => Scoped(b, Loop(py, b, Strip(id.value), SepText(sep), code, lo, hi)))
    case If(exp, code, els) =>
      var v := (py.eval)(exp.value, b.vars);
      if v.None? then None
      else if Truth(py, v.value) then Scoped(b, TextOf(DenoteCode(py, b, code)))
      else if els.ElseBranch? then Scoped(b, TextOf(DenoteCode(py, b, els.code)))
      else Some((b, ""))
    case Code(code) => Scoped(b, TextOf(DenoteCode(py, b, code)))
  }

  function DenoteCode(py: Python, b: Bindings, ns: seq<Node>): Meaning
    decreases ns, 1
  {
    if ns == [] then Some((b, "")) else
    match Denote(py, b, ns[0])
    case None => None
    case Some((b', text)) => Prefixed(text, DenoteCode(py, b', ns[1..]))
  }

  /** Code run after something that meant `m`. */
  function Then(py: Python, m: Meaning, ns: seq<Node>): Meaning {
    match m
    case None => None
    case Some((b, text)) => Prefixed(text, DenoteCode(py, b, ns))
  }

  /** The text of one turn of a `$for`. */
  function Turn(py: Python, b: Bindings, id: string, code: seq<Node>, i: int): Option<string>
    decreases code, 2
  {
    TextOf(DenoteCode(py, PushVar(b, id, IntV(i)), code))
  }

  function Loop(py: Python, b: Bindings, id: string, sep: string, code: seq<Node>, lo: int, hi: int): Option<string>
    decreases code, 3, hi - lo
  {
    if lo > hi then Some("") else
    match Turn(py, b, id, code, lo)
    case None => None
    case Some(text) =>
      Joined(text, if lo != hi then sep else "", Loop(py, b, id, sep, code, lo + 1, hi))
  }

  function Joined(left: string, sep: string, right: Option<string>): Option<string> {
    match right
    case None => None
    case Some(s) => Some(left + sep + s)
  }

  lemma Steps(text: string, more: string, m: Meaning)
    ensures Prefixed("", m) == m
    ensures Prefixed(text, Prefixed(more, m)) == Prefixed(text + more, m)
  {
    if m.Some? {
      assert "" + m.value.1 == m.value.1;
      assert text + (more + m.value.1) == text + more + m.value.1;
    }
  }

  /** The meaning of a list, one node at a time. */
  lemma DenoteCons(py: Python, b: Bindings, n: Node, ns: seq<Node>)
    ensures DenoteCode(py, b, [n] + ns) == Then(py, Denote(py, b, n), ns)
  {
    assert ([n] + ns)[1..] == ns;
  }

  // ---- Laws -----------------------------------------------------------------

  function CountVars(ns: seq<Node>): (k: nat) {
    if ns == [] then 0 else (if ns[0].Var? then 1 else 0) + CountVars(ns[1..])
  }

  function CountRanges(ns: seq<Node>): (k: nat) {
    if ns == [] then 0 else (if ns[0].Range? then 1 else 0) + CountRanges(ns[1..])
  }

  /** `after` is `before` with `v` variables and `r` ranges put on top. */
  predicate OnTop(after: Bindings, before: Bindings, v: nat, r: nat) {
    && |after.vars| == v + |before.vars| && after.vars[v..] == before.vars
    && |after.ranges| == r + |before.ranges| && after.ranges[r..] == before.ranges
  }

  lemma OnTopComposes(c: Bindings, b: Bindings, a: Bindings, v: nat, r: nat, v': nat, r': nat)
    requires OnTop(b, a, v, r) && OnTop(c, b, v', r')
    ensures OnTop(c, a, v + v', r + r')
  {
    assert c.vars[v'..][v..] == c.vars[v + v'..];
    assert c.ranges[r'..][r..] == c.ranges[r + r'..];
  }

  lemma NodePushesOnly(py: Python, b: Bindings, n: Node)
    requires Denote(py, b, n).Some?
    ensures OnTop(Denote(py, b, n).value.0, b, if n.Var? then 1 else 0, if n.Range? then 1 else 0)
  {
    assert b.vars[0..] == b.vars && b.ranges[0..] == b.ranges;
  }

  /**
   * Scoping: code adds exactly one binding for each `$var` and `$range` at its
   * own level, on top of bindings it leaves untouched. Nothing a nested block
   * binds survives it.
   */
  lemma {:induction false} CodePushesOnly(py: Python, b: Bindings, ns: seq<Node>)
    requires DenoteCode(py, b, ns).Some?
    ensures OnTop(DenoteCode(py, b, ns).value.0, b, CountVars(ns), CountRanges(ns))
    decreases |ns|
  {
    if ns != [] {
      var mid := Denote(py, b, ns[0]).value.0;
      NodePushesOnly(py, b, ns[0]);
      CodePushesOnly(py, mid, ns[1..]);
      OnTopComposes(DenoteCode(py, b, ns).value.0, mid, b,
        if ns[0].Var? then 1 else 0, if ns[0].Range? then 1 else 0, CountVars(ns[1..]), CountRanges(ns[1..]));
    }
  }

  /** Running two pieces of code one after the other is running their concatenation. */
  lemma {:induction false} CodeComposes(py: Python, b: Bindings, ns: seq<Node>, more: seq<Node>)
    ensures DenoteCode(py, b, ns + more) == Then(py, DenoteCode(py, b, ns), more)
    decreases |ns|
  {
    if ns == [] {
      assert ns + more == more;
      Steps("", "", DenoteCode(py, b, more));
    } else {
      assert ns + more == [ns[0]] + (ns[1..] + more);
      DenoteCons(py, b, ns[0], ns[1..] + more);
      match Denote(py, b, ns[0])
      case None =>
      case Some((mid, text)) =>
        CodeComposes(py, mid, ns[1..], more);
        match DenoteCode(py, mid, ns[1..])
        case None =>
        case Some((last, rest)) => Steps(text, rest, DenoteCode(py, last, more));
    }
  }

  function Join(sep: string, texts: seq<string>): string {
    if texts == [] then "" else if |texts| == 1 then texts[0] else texts[0] + sep + Join(sep, texts[1..])
  }

  /** `$for` fails exactly when one of its turns does. */
  lemma {:induction false} ForFailsIffTurnDoes(py: Python, b: Bindings, id: string, sep: string, code: seq<Node>,
      lo: int, hi: int)
    ensures Loop(py, b, id, sep, code, lo, hi).Some? <==> forall i :: lo <= i <= hi ==> Turn(py, b, id, code, i).Some?
    decreases hi - lo
  {
    if lo <= hi {
      ForFailsIffTurnDoes(py, b, id, sep, code, lo + 1, hi);
      assert Loop(py, b, id, sep, code, lo, hi).Some? <==>
        Turn(py, b, id, code, lo).Some? && Loop(py, b, id, sep, code, lo + 1, hi).Some?;
    }
  }

  /** `$for` is the separator-join of its turns over the inclusive range. */
  lemma {:induction false} ForIsJoin(py: Python, b: Bindings, id: string, sep: string, code: seq<Node>, lo: int,
      hi: int, texts: seq<string>)
    requires |texts| == if lo <= hi then hi - lo + 1 else 0
    requires forall k :: 0 <= k < |texts| ==> Turn(py, b, id, code, lo + k) == Some(texts[k])
    ensures Loop(py, b, id, sep, code, lo, hi) == Some(Join(sep, texts))
    decreases hi - lo
  {
    if lo <= hi {
      assert Turn(py, b, id, code, lo + 0) == Some(texts[0]);
      forall k | 0 <= k < |texts[1..]| ensures Turn(py, b, id, code, lo + 1 + k) == Some(texts[1..][k]) {
        assert Turn(py, b, id, code, lo + (k + 1)) == Some(texts[k + 1]);
      }
      ForIsJoin(py, b, id, sep, code, lo + 1, hi, texts[1..]);
      if lo == hi {
        assert texts[0] + "" + "" == texts[0];
      }
    }
  }

  /** `$for` splits at any midpoint. */
  lemma {:induction false} ForSplits(py: Python, b: Bindings, id: string, sep: string, code: seq<Node>, lo: int,
      mid: int, hi: int)
    requires lo <= mid < hi
    ensures Loop(py, b, id, sep, code, lo, hi) ==
      var left := Loop(py, b, id, sep, code, lo, mid);
      if left.None? then None else Joined(left.value, sep, Loop(py, b, id, sep, code, mid + 1, hi))
    decreases mid - lo
  {
    match Turn(py, b, id, code, lo)
    case None =>
    case Some(text) =>
      if lo < mid {
        ForSplits(py, b, id, sep, code, lo + 1, mid, hi);
        assert forall x: string, y: string :: text + sep + (x + sep + y) == text + sep + x + sep + y;
      } else {
        assert Loop(py, b, id, sep, code, lo + 1, mid) == Some("");
        assert text + "" + "" == text;
      }
  }

  /** What one turn of a `$for` amounts to: a block that sets the variable itself. */
  function TurnBlock(id: Token, code: seq<Node>, i: int): Node {
    Code([Var(id, RawCode(Token(CodeTok, Decimal(i))))] + code)
  }

  /** A `$for` written out in full. */
  function Unrolled(id: Token, sep: Token, code: seq<Node>, lo: int, hi: int): seq<Node>
    decreases hi - lo
  {
    if lo > hi then [] else
    var more := Unrolled(id, sep, code, lo + 1, hi);
    [TurnBlock(id, code, lo)] + (if lo == hi then more else [RawCode(sep)] + more)
  }

  lemma BlockIsTurn(py: Python, b: Bindings, id: Token, code: seq<Node>, i: int)
    requires (py.parseInt)(Decimal(i)) == Some(i)
    ensures Denote(py, b, TurnBlock(id, code, i)) == Scoped(b, Turn(py, b, Strip(id.value), code, i))
  {
    var setter := Var(id, RawCode(Token(CodeTok, Decimal(i))));
    var b' := PushVar(b, Strip(id.value), IntV(i));
    assert Denote(py, b, setter) == Some((b', ""));
    DenoteCons(py, b, setter, code);
    Steps("", "", DenoteCode(py, b', code));
  }

  /** Writing a loop out in full preserves its meaning, for any sane `int`. */
  lemma {:induction false} UnrollingPreservesMeaning(py: Python, b: Bindings, id: Token, sep: Token, code: seq<Node>,
      lo: int, hi: int)
    requires forall i :: (py.parseInt)(Decimal(i)) == Some(i)
    ensures DenoteCode(py, b, Unrolled(id, sep, code, lo, hi))
         == Scoped(b, Loop(py, b, Strip(id.value), sep.value, code, lo, hi))
    decreases hi - lo
  {
    if lo <= hi {
      var more := Unrolled(id, sep, code, lo + 1, hi);
      var loop := Loop(py, b, Strip(id.value), sep.value, code, lo + 1, hi);
      UnrollingPreservesMeaning(py, b, id, sep, code, lo + 1, hi);
      BlockIsTurn(py, b, id, code, lo);
      UnrollStep(py, b, TurnBlock(id, code, lo), sep, more, Turn(py, b, Strip(id.value), code, lo), loop);
    }
  }

  lemma UnrollStep(py: Python, b: Bindings, block: Node, sep: Token, more: seq<Node>, turn: Option<string>,
      loop: Option<string>)
    requires Denote(py, b, block) == Scoped(b, turn) && DenoteCode(py, b, more) == Scoped(b, loop)
    ensures DenoteCode(py, b, [block] + more) == Scoped(b, if turn.None? then None else Joined(turn.value, "", loop))
    ensures DenoteCode(py, b, [block] + ([RawCode(sep)] + more))
         == Scoped(b, if turn.None? then None else Joined(turn.value, sep.value, loop))
  {
    DenoteCons(py, b, block, more);
    DenoteCons(py, b, RawCode(sep), more);
    DenoteCons(py, b, block, [RawCode(sep)] + more);
    if turn.Some? && loop.Some? {
      assert turn.value + "" + loop.value == turn.value + loop.value;
      assert turn.value + (sep.value + loop.value) == turn.value + sep.value + loop.value;
    }
  }

  // ---- The interpreter ------------------------------------------------------

  class Env {
    var variables: seq<(string, Value)>
    var ranges: seq<(string, int, int)>

    constructor (b: Bindings)
      ensures Bound() == b
    {
      variables := b.vars;
      ranges := b.ranges;
    }

    function Bound(): Bindings
      reads this
    {
      Bindings(variables, ranges)
    }

    method Clone() returns (clone: Env)
      ensures fresh(clone) && clone.Bound() == Bound()
    {
      clone := new Env(Bound());
    }

    method PushVariable(id: string, value: Value)
      modifies this
      ensures Bound() == PushVar(old(Bound()), id, value)
    {
      variables := [(id, value)] + variables;
    }

    method PushRange(id: string, lower: int, upper: int)
      modifies this
      ensures Bound() == old(Bound()).(ranges := [(id, lower, upper)] + old(Bound()).ranges)
    {
      ranges := [(id, lower, upper)] + ranges;
    }

    method GetRange(id: string) returns (r: Option<(int, int)>)
      ensures r == FindRange(ranges, id)
    {
      var i := 0;
      while i < |ranges|
        invariant 0 <= i <= |ranges|
        invariant FindRange(ranges, id) == FindRange(ranges[i..], id)
      {
        if ranges[i].0 == id {
          return Some((ranges[i].1, ranges[i].2));
        }
        i := i + 1;
      }
      return None;
    }
  }

  class Output {
    var text: string

    constructor ()
      ensures text == ""
    {
      text := "";
    }

    method Append(s: string)
      modifies this
      ensures text == old(text) + s
    {
      text := text + s;
    }
  }

  /** The run failed, or left exactly the bindings of `m` and appended exactly its text. */
  predicate Ran(m: Meaning, ok: bool, left: Bindings, before: string, after: string) {
    match m
    case None => !ok
    case Some((b, text)) => ok && left == b && after == before + text
  }

  /** Running a node appends its denotation to the output and leaves its bindings in the environment. */
  method RunAtomicCode(py: Python, env: Env, node: Node, output: Output) returns (ok: bool)
    modifies env, output
    ensures Ran(Denote(py, old(env.Bound()), node), ok, env.Bound(), old(output.text), output.text)
    decreases node, 1
  {
    assert output.text + "" == output.text;
    match node {
      case RawCode(t) =>
        output.Append(t.value);
        return true;
      case LiteralDollar(_) =>
        output.Append("$");
        return true;
      case Exp(t) =>
        var v := (py.eval)(t.value, env.variables);
        if v.None? {
          return false;
        }
        output.Append(Format(py, v.value));
        return true;
      case Var(id, body) =>
        ok := RunVar(py, env, node);
      case Range(id, lower, upper) =>
        ok := RunRange(py, env, node);
      case For(id, sep, code) =>
        var range := env.GetRange(Strip(id.value));
        if range.None? {
          return false;
        }
        ok := RunLoop(py, env, Strip(id.value), SepText(sep), code, range.value.0, range.value.1, output);
      case If(exp, code, els) =>
        var v := (py.eval)(exp.value, env.variables);
        if v.None? {
          return false;
        }
        if Truth(py, v.value) {
          ok := RunBlock(py, env, code, output);
        } else if els.ElseBranch? {
          ok := RunBlock(py, env, els.code, output);
        } else {
          return true;
        }
      case Code(code) =>
        ok := RunBlock(py, env, code, output);
    }
  }

  method RunVar(py: Python, env: Env, node: Node) returns (ok: bool)
    requires node.Var?
    modifies env
    ensures Ran(Denote(py, old(env.Bound()), node), ok, env.Bound(), "", "")
    decreases node, 0
  {
    var result := new Output();
    var clone := env.Clone();
    ghost var text := TextOf(Denote(py, env.Bound(), node.body));
    ok := RunAtomicCode(py, clone, node.body, result);
    assert text.Some? ==> "" + text.value == text.value;
    assert ok == text.Some? && (ok ==> text.value == result.text);
    if ok {
      env.PushVariable(Strip(node.id.value), Store(py, result.text));
    }
  }

  method RunRange(py: Python, env: Env, node: Node) returns (ok: bool)
    requires node.Range?
    modifies env
    ensures Ran(Denote(py, old(env.Bound()), node), ok, env.Bound(), "", "")
  {
    var lo, hi := EvalInt(py, env.Bound(), node.lower), EvalInt(py, env.Bound(), node.upper);
    ok := lo.Some? && hi.Some?;
    if ok {
      env.PushRange(Strip(node.id.value), lo.value, hi.value);
    }
  }

  /** A block runs in a clone, so its bindings never reach the caller. */
  method RunBlock(py: Python, env: Env, code: seq<Node>, output: Output) returns (ok: bool)
    modifies output
    ensures Ran(Scoped(env.Bound(), TextOf(DenoteCode(py, env.Bound(), code))),
                ok, env.Bound(), old(output.text), output.text)
    ensures env.Bound() == old(env.Bound())
    decreases code, 2
  {
    var clone := env.Clone();
    ok := RunCode(py, clone, code, output);
  }

  method RunCode(py: Python, env: Env, code: seq<Node>, output: Output) returns (ok: bool)
    modifies env, output
    ensures Ran(DenoteCode(py, old(env.Bound()), code), ok, env.Bound(), old(output.text), output.text)
    decreases code, 1
  {
    ghost var start, written := output.text, "";
    ghost var meaning := DenoteCode(py, env.Bound(), code);
    Steps("", "", meaning);
    var k := 0;
    while k < |code|
      invariant 0 <= k <= |code|
      invariant output.text == start + written
      invariant meaning == Prefixed(written, DenoteCode(py, env.Bound(), code[k..]))
    {
      assert code[k..] == [code[k]] + code[k + 1..];
      DenoteCons(py, env.Bound(), code[k], code[k + 1..]);
      ghost var step := Denote(py, env.Bound(), code[k]);
      ok := RunAtomicCode(py, env, code[k], output);
      if !ok {
        return;
      }
      Steps(written, step.value.1, DenoteCode(py, env.Bound(), code[k + 1..]));
      written := written + step.value.1;
      k := k + 1;
    }
    assert written + "" == written;
    return true;
  }

  /** The loop of a `$for`: a fresh clone per turn, a separator after every turn but the last. */
  method RunLoop(py: Python, env: Env, id: string, sep: string, code: seq<Node>, lower: int, upper: int, output: Output)
    returns (ok: bool)
    modifies output
    ensures Ran(Scoped(env.Bound(), Loop(py, env.Bound(), id, sep, code, lower, upper)),
                ok, env.Bound(), old(output.text), output.text)
    decreases code, 2
  {
    ghost var start, written, b := output.text, "", env.Bound();
    ghost var meaning := Loop(py, b, id, sep, code, lower, upper);
    var i := lower;
    Joins("", "", "", meaning);
    while i <= upper
      invariant env.Bound() == b && output.text == start + written
      invariant meaning == Joined(written, "", Loop(py, b, id, sep, code, i, upper))
      decreases upper - i
    {
      ghost var rest := Loop(py, b, id, sep, code, i + 1, upper);
      ghost var gap := if i != upper then sep else "";
      LoopTurn(py, b, id, sep, code, i, upper);
      hide Loop, Joined, DenoteCode;
      var clone := env.Clone();
      clone.PushVariable(id, IntV(i));
      ok := RunCode(py, clone, code, output);
      if !ok {
        LoopFails(written, Turn(py, b, id, code, i), gap, rest);
        return;
      }
      ghost var turn := Turn(py, b, id, code, i).value;
      if i != upper {
        output.Append(sep);
      }
      Joins(written, turn, gap, rest);
      TextGrows(start, written, turn, gap);
      written := written + turn + gap;
      i := i + 1;
    }
    Joins(written, "", "", Some(""));
    return true;
  }

  lemma LoopTurn(py: Python, b: Bindings, id: string, sep: string, code: seq<Node>, lo: int, hi: int)
    requires lo <= hi
    ensures Loop(py, b, id, sep, code, lo, hi) ==
      LoopStep(Turn(py, b, id, code, lo), if lo != hi then sep else "", Loop(py, b, id, sep, code, lo + 1, hi))
  {
  }

  function LoopStep(turn: Option<string>, gap: string, rest: Option<string>): Option<string> {
    if turn.None? then None else Joined(turn.value, gap, rest)
  }

  lemma LoopFails(written: string, turn: Option<string>, gap: string, rest: Option<string>)
    requires turn.None?
    ensures Joined(written, "", LoopStep(turn, gap, rest)) == None
  {
  }

  /** Texts joined one after the other. */
  lemma Joins(written: string, turn: string, gap: string, rest: Option<string>)
    ensures Joined(written, "", Joined(turn, gap, rest)) == Joined(written + turn + gap, "", rest)
    ensures Joined("", "", rest) == rest
    ensures Joined(written, "", Some("")) == Some(written)
  {
    assert "" + "" == "" && written + "" + "" == written;
    if rest.Some? {
      assert "" + "" + rest.value == rest.value;
      assert written + "" + (turn + gap + rest.value) == written + turn + gap + "" + rest.value;
    }
  }

  lemma TextGrows(start: string, written: string, turn: string, gap: string)
    ensures start + written + turn + gap == start + (written + turn + gap)
    ensures start + written + turn == start + (written + turn + "")
  {
  }
}
