/** Laws that tie the interpreter's output to what a user of the language sees. */
module PumpLaws {
  import opened Wrappers
  import opened PumpSyntax
  import opened PumpText
  import opened PumpInterpreter

  // ---- Text -----------------------------------------------------------------

  function Values(text: seq<Token>): string {
    if text == [] then "" else text[0].value + Values(text[1..])
  }

  function Raw(text: seq<Token>): (ns: seq<Node>)
    ensures |ns| == |text| && forall i :: 0 <= i < |ns| ==> ns[i] == RawCode(text[i])
  {
    seq(|text|, i requires 0 <= i < |text| => RawCode(text[i]))
  }

  /** Text without directives comes out as it is, whatever is bound. */
  lemma {:induction false} TextIsItself(py: Python, b: Bindings, text: seq<Token>)
    ensures DenoteCode(py, b, Raw(text)) == Some((b, Values(text)))
    decreases |text|
  {
    if text != [] {
      TextIsItself(py, b, text[1..]);
      assert Raw(text) == [RawCode(text[0])] + Raw(text[1..]);
      DenoteCons(py, b, RawCode(text[0]), Raw(text[1..]));
    }
  }

  /** `$($)` stands for a dollar sign. */
  lemma DollarIsItself(py: Python, b: Bindings, t: Token, more: seq<Node>)
    ensures DenoteCode(py, b, [LiteralDollar(t)] + more) == Prefixed("$", DenoteCode(py, b, more))
  {
    DenoteCons(py, b, LiteralDollar(t), more);
  }

  // ---- Conditions -----------------------------------------------------------

  /** What Python takes for false among the values that the interpreter makes itself; of others it has its own idea. */
  predicate IsFalse(py: Python, v: Value) {
    v == IntV(0) || v == StrV("") || (v.Obj? && !(py.truth)(v.id))
  }

  predicate Holds(py: Python, b: Bindings, exp: Token) {
    var v := (py.eval)(exp.value, b.vars);
    v.Some? && !IsFalse(py, v.value)
  }

  predicate Fails(py: Python, b: Bindings, exp: Token) {
    var v := (py.eval)(exp.value, b.vars);
    v.Some? && IsFalse(py, v.value)
  }

  /**
   * `$if` means its branch, as a block, if the condition is true, its else
   * branch if it is false, or nothing, and it fails if the condition does.
   */
  lemma IfChooses(py: Python, b: Bindings, exp: Token, code: seq<Node>, els: Else)
    ensures var meaning := Denote(py, b, If(exp, code, els));
      && (Holds(py, b, exp) ==> meaning == Denote(py, b, Code(code)))
      && (Fails(py, b, exp) ==> meaning == if els.ElseBranch? then Denote(py, b, Code(els.code)) else Some((b, "")))
      && ((py.eval)(exp.value, b.vars).None? ==> meaning == None)
  {
    hide DenoteCode;
  }

  /** `$if`, any number of `$elif`, and perhaps `$else`. */
  function Chain(branches: seq<(Token, seq<Node>)>, last: Else): Else {
    if branches == [] then last else ElseBranch([If(branches[0].0, branches[0].1, Chain(branches[1..], last))])
  }

  function MeaningOf(py: Python, b: Bindings, els: Else): Meaning {
    if els.NoElse? then Some((b, "")) else Denote(py, b, Code(els.code))
  }

  lemma OneNode(py: Python, b: Bindings, n: Node)
    requires n.If?
    ensures Denote(py, b, Code([n])) == Denote(py, b, n)
  {
    var m := Denote(py, b, n);
    IfChooses(py, b, n.exp, n.thenBranch, n.elseBranch);
    assert m.Some? ==> m.value.0 == b by {
      hide DenoteCode;
    }
    DenoteCons(py, b, n, []);
    assert [n] + [] == [n];
    assert m.Some? ==> m.value.1 + "" == m.value.1;
  }

  /** Of a chain of conditions the first that holds chooses the branch; with none, it is the last else, or nothing. */
  lemma {:induction false} FirstThatHolds(py: Python, b: Bindings, branches: seq<(Token, seq<Node>)>, last: Else,
      k: nat)
    requires k <= |branches| && forall i :: 0 <= i < k ==> Fails(py, b, branches[i].0)
    requires k < |branches| ==> Holds(py, b, branches[k].0)
    ensures MeaningOf(py, b, Chain(branches, last)) ==
      if k < |branches| then Denote(py, b, Code(branches[k].1)) else MeaningOf(py, b, last)
    decreases |branches|
  {
    if branches != [] {
      var n := If(branches[0].0, branches[0].1, Chain(branches[1..], last));
      OneNode(py, b, n);
      IfChooses(py, b, branches[0].0, branches[0].1, Chain(branches[1..], last));
      if k > 0 {
        FirstThatHolds(py, b, branches[1..], last, k - 1);
      }
    }
  }

  // ---- Variables and ranges -------------------------------------------------

  /** The variable bound last under a name. */
  function Lookup(vars: seq<(string, Value)>, name: string): Option<Value> {
    if vars == [] then None else if vars[0].0 == name then Some(vars[0].1) else Lookup(vars[1..], name)
  }

  /** Evaluating a name looks it up, as the interpreter arranges for every identifier in an expression. */
  ghost predicate Names(py: Python, name: string) {
    forall vars :: (py.eval)(name, vars) == Lookup(vars, name)
  }

  /** A variable is used with the text it was given, and until then hides what had its name before. */
  lemma VarThenUse(py: Python, b: Bindings, id: Token, body: Node, use: Token)
    requires Names(py, Strip(id.value)) && use.value == Strip(id.value)
    ensures TextOf(DenoteCode(py, b, [Var(id, body)] + [Exp(use)])) == TextOf(Denote(py, b, body))
  {
    DenoteCons(py, b, Var(id, body), [Exp(use)]);
    var text := TextOf(Denote(py, b, body));
    if text.Some? {
      var b' := PushVar(b, Strip(id.value), Store(py, text.value));
      assert (py.eval)(use.value, b'.vars) == Lookup(b'.vars, use.value);
      assert Denote(py, b', Exp(use)) == Some((b', text.value));
      DenoteCons(py, b', Exp(use), []);
      assert [Exp(use)] + [] == [Exp(use)] && text.value + "" == text.value && "" + text.value == text.value;
    }
  }

  /** The bounds of a range as whole numbers. */
  predicate Bound(py: Python, b: Bindings, exp: Token, i: int) {
    match (py.eval)(exp.value, b.vars)
    case None => false
    case Some(IntV(n)) => n == i
    case Some(StrV(s)) => (py.parseInt)(s) == Some(i)
    case Some(Obj(id)) => (py.objInt)(id) == Some(i)
  }

  /** A `$for` over a `$range` joins its turns, one for each number from the first bound to the last. */
  lemma RangeThenFor(py: Python, b: Bindings, range: Node, loop: Node, lo: int, hi: int, texts: seq<string>)
    requires range.Range? && loop.For? && Strip(loop.id.value) == Strip(range.id.value)
    requires Bound(py, b, range.lower, lo) && Bound(py, b, range.upper, hi)
    requires |texts| == if lo <= hi then hi - lo + 1 else 0
    requires var b' := b.(ranges := [(Strip(range.id.value), lo, hi)] + b.ranges);
      forall k :: 0 <= k < |texts| ==> Turn(py, b', Strip(range.id.value), loop.code, lo + k) == Some(texts[k])
    ensures TextOf(DenoteCode(py, b, [range] + [loop])) ==
      Some(Join(if loop.sep.Sep? then loop.sep.token.value else "", texts))
  {
    var id := Strip(range.id.value);
    var b' := b.(ranges := [(id, lo, hi)] + b.ranges);
    RangeIs(py, b, range, lo, hi);
    DenoteCons(py, b, range, [loop]);
    ForIsJoin(py, b', id, SepText(loop.sep), loop.code, lo, hi, texts);
    ForIs(py, b', loop, lo, hi);
    DenoteCons(py, b', loop, []);
    assert [loop] + [] == [loop];
    var text := Join(SepText(loop.sep), texts);
    assert text + "" == text && "" + text == text;
  }

  lemma RangeIs(py: Python, b: Bindings, range: Node, lo: int, hi: int)
    requires range.Range? && Bound(py, b, range.lower, lo) && Bound(py, b, range.upper, hi)
    ensures Denote(py, b, range) == Some((b.(ranges := [(Strip(range.id.value), lo, hi)] + b.ranges), ""))
  {
  }

  lemma ForIs(py: Python, b: Bindings, loop: Node, lo: int, hi: int)
    requires loop.For? && b.ranges != [] && b.ranges[0] == (Strip(loop.id.value), lo, hi)
    ensures Denote(py, b, loop) == Scoped(b, Loop(py, b, Strip(loop.id.value), SepText(loop.sep), loop.code, lo, hi))
  {
    hide Loop;
  }

  /** The range bound last under a name is the one that counts, whatever else is bound. */
  lemma {:induction false} NearestRange(ranges: seq<(string, int, int)>, id: string, k: nat)
    requires k <= |ranges| && forall j :: 0 <= j < k ==> ranges[j].0 != id
    requires k < |ranges| ==> ranges[k].0 == id
    ensures FindRange(ranges, id) == if k < |ranges| then Some((ranges[k].1, ranges[k].2)) else None
    decreases k
  {
    if k > 0 {
      NearestRange(ranges[1..], id, k - 1);
    }
  }

  /** Without a range of its name a `$for` fails. */
  lemma ForNeedsRange(py: Python, b: Bindings, loop: Node)
    requires loop.For? && forall j :: 0 <= j < |b.ranges| ==> b.ranges[j].0 != Strip(loop.id.value)
    ensures Denote(py, b, loop) == None
  {
    NearestRange(b.ranges, Strip(loop.id.value), |b.ranges|);
  }

  // ---- Numbers --------------------------------------------------------------

  function Digit(c: char): int {
    c as int - '0' as int
  }

  /** The number that decimal digits stand for. */
  function Number(digits: string): int {
    if digits == "" then 0 else 10 * Number(digits[..|digits| - 1]) + Digit(digits[|digits| - 1])
  }

  lemma LastIsDigit(n: nat)
    ensures '0' <= LastDigit(n) <= '9' && Digit(LastDigit(n)) == n % 10
  {
    var ds := "0123456789";
    assert ds[0] == '0' && ds[1] == '1' && ds[2] == '2' && ds[3] == '3' && ds[4] == '4';
    assert ds[5] == '5' && ds[6] == '6' && ds[7] == '7' && ds[8] == '8' && ds[9] == '9';
  }

  lemma NumberOf(front: string, last: char)
    ensures Number(front + [last]) == 10 * Number(front) + Digit(last)
  {
    assert (front + [last])[..|front|] == front;
  }

  lemma {:induction false} DigitsRead(n: nat)
    ensures Digits(n) != "" && Number(Digits(n)) == n
    ensures forall i :: 0 <= i < |Digits(n)| ==> '0' <= Digits(n)[i] <= '9'
  {
    LastIsDigit(n);
    hide LastDigit, Digit;
    var front, last := if n < 10 then "" else Digits(n / 10), LastDigit(n);
    assert Digits(n) == front + [last];
    if n >= 10 {
      DigitsRead(n / 10);
    }
    hide Digits;
    NumberOf(front, last);
    assert Number("") == 0;
    hide Number;
  }

  /** Numbers are printed in decimal: the digits read back as the number, behind a sign for a negative one. */
  lemma NumbersRead(py: Python, i: int)
    ensures var s := Format(py, IntV(i));
      if i < 0 then s != "" && s[0] == '-' && Number(s[1..]) == -i
      else Number(s) == i && forall k :: 0 <= k < |s| ==> '0' <= s[k] <= '9'
  {
    DigitsRead(if i < 0 then -i else i);
    hide Digits, Number;
  }
}
