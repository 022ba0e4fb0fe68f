/** The sample program built from the expression combinators, and the
    process entry point that drives it. */
module Program {
  import opened Expressions

  /** Prints 5 once, binds it, then prints 5 + 1 and 5 + 2 in sequence;
      the value of the whole is the value of the last sum. */
  function App(): Expr
  {
    Let(PrintAndReturn(Literal(5)), AppBody)
  }

  /** The body of the let in App, given the bound variable. */
  function AppBody(value1: Expr): Expr
  {
    Sequence(
      PrintAndReturn(Sum(value1, Literal(1))),
      PrintAndReturn(Sum(value1, Literal(2))))
  }

  /** The top-level continuation: end the process with the result as its code. */
  function ExitWith(result: int): Run
  {
    Run([], Exited(result))
  }

  /** The process: drive the program with ExitWith; if the program never
      called it, the entry point falls through and the process ends with 0. */
  function RunProcess(): Run
  {
    var r := App()(ExitWith);
    if r.status == Returned then Run(r.output, Exited(0)) else r
  }

  /** The program writes 5, 6, 7 in that order and yields 7. The 5 is
      written once although the bound variable is used twice. */
  lemma AppBehaves()
    ensures Behaves(App(), [5, 6, 7], 7)
  {
    var v1 := Literal(5);
    LiteralBehaves(5);
    PrintAndReturnBehaves(v1, [], 5);
    LiteralBehaves(1);
    SumBehaves(v1, [], 5, Literal(1), [], 1);
    PrintAndReturnBehaves(Sum(v1, Literal(1)), [] + [], 6);
    LiteralBehaves(2);
    SumBehaves(v1, [], 5, Literal(2), [], 2);
    PrintAndReturnBehaves(Sum(v1, Literal(2)), [] + [], 7);
    var first := PrintAndReturn(Sum(v1, Literal(1)));
    var second := PrintAndReturn(Sum(v1, Literal(2)));
    assert [] + [] + [6] == [6] && [] + [] + [7] == [7];
    SequenceBehaves(first, [6], 6, second, [7], 7);
    assert AppBody(v1) == Sequence(first, second);
    assert [] + [5] == [5];
    LetBehaves(PrintAndReturn(v1), [5], 5, AppBody, [6] + [7], 7);
    assert [5] + ([6] + [7]) == [5, 6, 7];
  }

  /** Running the process writes 5, 6, 7 and exits with code 7. */
  lemma RunProcessResult()
    ensures RunProcess() == Run([5, 6, 7], Exited(7))
  {
    AppBehaves();
    assert App()(ExitWith) == After([5, 6, 7], ExitWith(7));
    assert [5, 6, 7] + [] == [5, 6, 7];
  }
}
