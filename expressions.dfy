/** Integer expressions in continuation-passing style. An expression does not
    return its value: it is driven with a continuation and hands the value
    to it. The only effect an expression has is writing integers to the
    console, which here is an output trace threaded through the run. */
module Expressions {

  /** How a run ended: the last continuation returned, or it ended the
      process with an exit code. */
  datatype Status = Returned | Exited(code: int)

  /** Everything a run does: what it wrote, in order, and how it ended. */
  datatype Run = Run(output: seq<int>, status: Status)

  /** The rest of the program, waiting for an integer. */
  type Cont = int -> Run

  /** A computation that hands an integer to the continuation it is driven with. */
  type Expr = Cont -> Run

  /** A run that first writes `out` and then does everything `r` does. */
  function After(out: seq<int>, r: Run): Run
  {
    Run(out + r.output, r.status)
  }

  /** The meaning of an expression in direct style: driven with ANY
      continuation k, it writes `out`, then calls k once, with `v`, as far as
      the run can observe, and what k does is the rest of the run. A call of
      k whose run is dropped leaves no trace here; TwoCallsObservable shows
      that a second call whose run is kept does. */
  ghost predicate Behaves(e: Expr, out: seq<int>, v: int)
  {
    forall k: Cont :: e(k) == After(out, k(v))
  }

  /** Yields a constant. */
  function Literal(value: int): Expr
  {
    (k: Cont) => k(value)
  }

  /** Drives `expression` once and runs the body on a literal of its value. */
  function Let(expression: Expr, body: Expr -> Expr): Expr
  {
    (k: Cont) => expression(value => body(Literal(value))(k))
  }

  /** Drives `action0`, drops its value, then drives `action1`. */
  function Sequence(action0: Expr, action1: Expr): Expr
  {
    (k: Cont) => action0(_ => action1(k))
  }

  /** Drives `x0`, then `x1`, and passes on the sum of their values. */
  function Sum(x0: Expr, x1: Expr): Expr
  {
    (k: Cont) => x0(v0 => x1(v1 => k(v0 + v1)))
  }

  /** Writes the value of `expression`, then passes that value on. */
  function PrintAndReturn(expression: Expr): Expr
  {
    (k: Cont) => expression(value => After([value], k(value)))
  }

  /** An expression's output and value are determined by the expression:
      driving it with two suitable continuations tells them apart. */
  lemma BehavesUnique(e: Expr, out0: seq<int>, v0: int, out1: seq<int>, v1: int)
    requires Behaves(e, out0, v0) && Behaves(e, out1, v1)
    ensures out0 == out1 && v0 == v1
  {
    var quiet: Cont := _ => Run([], Returned);
    assert e(quiet) == After(out0, quiet(v0)) == After(out1, quiet(v1));
    assert out0 == out0 + [] == out1 + [] == out1;
    var report: Cont := v => Run([], Exited(v));
    assert e(report) == After(out0, report(v0)) == After(out1, report(v1));
  }

  /** An expression that writes `out0`, calls its continuation with `a`,
      writes `out1`, then calls it again with `b`, and keeps the output of
      both calls, has no meaning in the sense of Behaves, whatever it writes
      and whatever values it passes: a continuation that writes something
      shows the second call. */
  lemma TwoCallsObservable(e: Expr, out0: seq<int>, a: int, out1: seq<int>, b: int, out: seq<int>, w: int)
    requires forall k: Cont :: e(k) == After(out0, After(k(a).output, After(out1, k(b))))
    ensures !Behaves(e, out, w)
  {
    var quiet: Cont := _ => Run([], Returned);
    var loud: Cont := _ => Run([1], Returned);
    assert quiet(a) == quiet(b) == quiet(w) == Run([], Returned);
    assert loud(a) == loud(b) == loud(w) == Run([1], Returned);
    assert |e(quiet).output| == |out0| + |out1|;
    assert |e(loud).output| == |out0| + |out1| + 2;
    if Behaves(e, out, w) {
      BehavesAt(e, out, w, quiet);
      BehavesAt(e, out, w, loud);
    }
  }

  /** Instantiates the meaning of `e` at one continuation. */
  lemma BehavesAt(e: Expr, out: seq<int>, v: int, k: Cont)
    requires Behaves(e, out, v)
    ensures e(k) == After(out, k(v))
  {
  }

  /** A literal writes nothing and calls its continuation once with the constant. */
  lemma LiteralBehaves(value: int)
    ensures Behaves(Literal(value), [], value)
  {
  }

  /** The first action's output comes first; its value is dropped and the
      second action's value is the result. */
  lemma SequenceBehaves(action0: Expr, out0: seq<int>, v0: int, action1: Expr, out1: seq<int>, v1: int)
    requires Behaves(action0, out0, v0) && Behaves(action1, out1, v1)
    ensures Behaves(Sequence(action0, action1), out0 + out1, v1)
  {
  }

  /** The left operand runs, and writes, before the right one; the
      continuation is called once, with the sum. */
  lemma SumBehaves(x0: Expr, out0: seq<int>, v0: int, x1: Expr, out1: seq<int>, v1: int)
    requires Behaves(x0, out0, v0) && Behaves(x1, out1, v1)
    ensures Behaves(Sum(x0, x1), out0 + out1, v0 + v1)
  {
  }

  /** The printed value is exactly the value the inner expression produced,
      it is written after the inner output, and the same value is passed on. */
  lemma PrintAndReturnBehaves(expression: Expr, out: seq<int>, v: int)
    requires Behaves(expression, out, v)
    ensures Behaves(PrintAndReturn(expression), out + [v], v)
  {
    forall k: Cont ensures PrintAndReturn(expression)(k) == After(out + [v], k(v)) {
      var printing: Cont := value => After([value], k(value));
      assert PrintAndReturn(expression)(k) == expression(printing);
      assert expression(printing) == After(out, After([v], k(v)));
      assert out + ([v] + k(v).output) == out + [v] + k(v).output;
    }
  }

  /** The bound expression is driven once: its output comes first, once,
      and the body sees only a literal of its value. */
  lemma LetBehaves(expression: Expr, out: seq<int>, v: int, body: Expr -> Expr, bodyOut: seq<int>, w: int)
    requires Behaves(expression, out, v) && Behaves(body(Literal(v)), bodyOut, w)
    ensures Behaves(Let(expression, body), out + bodyOut, w)
  {
    forall k: Cont ensures Let(expression, body)(k) == After(out + bodyOut, k(w)) {
      var rest: Cont := value => body(Literal(value))(k);
      assert Let(expression, body)(k) == expression(rest);
      BehavesAt(expression, out, v, rest);
      assert rest(v) == body(Literal(v))(k);
      assert out + (bodyOut + k(w).output) == out + bodyOut + k(w).output;
    }
  }

  /** Using a let-bound variable twice does not repeat the bound
      expression's effects, whereas writing the expression itself twice
      does: the two differ exactly when it writes something. */
  lemma LetEvaluatesOnce(expression: Expr, out: seq<int>, v: int)
    requires Behaves(expression, out, v)
    ensures Behaves(Let(expression, x => Sequence(x, x)), out, v)
    ensures Behaves(Sequence(expression, expression), out + out, v)
    ensures Let(expression, x => Sequence(x, x)) == Sequence(expression, expression) ==> out == []
  {
    LiteralBehaves(v);
    SequenceBehaves(Literal(v), [], v, Literal(v), [], v);
    var body: Expr -> Expr := x => Sequence(x, x);
    assert body(Literal(v)) == Sequence(Literal(v), Literal(v));
    LetBehaves(expression, out, v, body, [] + [], v);
    assert out + ([] + []) == out;
    SequenceBehaves(expression, out, v, expression, out, v);
    if Let(expression, body) == Sequence(expression, expression) {
      BehavesUnique(Sequence(expression, expression), out, v, out + out, v);
      assert |out + out| == |out|;
    }
  }
}
