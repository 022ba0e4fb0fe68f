# CPS integer expressions and axis-aligned hit testing

This project models `src/main.cpp`, which has two small pieces of logic:

- **Hit testing.** `positionInAxisBounds` checks whether a coordinate lies in a
  half-open interval `[lo, hi)`. `pointInBounds` walks the two axes of a point.
  It answers false at the first axis that rejects its coordinate, and true once
  both axes accept. Module `HitTest` (`hit_test.dfy`) models the first as a
  predicate. It models the second as a method with the source's loop and early
  return, proved against a reference predicate, `InAllAxes`.
- **Continuation-passing expressions.** An expression takes a continuation
  `int -> void` and hands a value to it. The combinators are `literal`, `let`,
  `sequence`, `sum` and `printAndReturn`. Module `Expressions`
  (`expressions.dfy`) models them as a shallow embedding:
  `Expr = (int -> Run) -> Run`. Expressions produce `int` values, and
  `sequence` takes exactly two actions. A `Run` is what a drive does: the integers it
  writes to the console, in order, and how it ends (returned, or exited with a
  code). `printAndReturn` writes to the console; here it puts its value in
  front of the continuation's output.
- **The meaning of an expression.** `Behaves(e, out, v)` says that for every
  continuation `k`, driving `e` with `k` writes `out` and then calls `k` once
  with `v`, as far as the run can observe. Everything `k` does comes after
  that. Each combinator gets a lemma that computes its meaning from the
  meanings of its parts. `BehavesUnique` shows that `out` and `v` are fixed by
  the expression. `TwoCallsObservable` shows that an expression that writes
  some output, calls `k`, writes more output, calls `k` again (with any two
  values) and keeps the output of both calls has no meaning in this sense.
- **The program.** Module `Program` (`program.dfy`) builds `app` and models
  `main`. `main` drives `app` with a continuation that ends the process with
  the result as its exit code. If that continuation is never called, `main`
  returns 0.

## Model

| member | source | states |
|---|---|---|
| `HitTest.PositionInAxisBounds` | src/main.cpp:16-19 | Model of `positionInAxisBounds`; its meaning is stated by AxisBoundsHalfOpen and AdjacentAxisBoundsPartition. |
| `HitTest.AxisBoundsHalfOpen` | src/main.cpp:16-19 | The lower bound is inside exactly when lo < hi. The upper bound is never inside. Some position is inside exactly when lo < hi, so bounds with hi <= lo contain nothing. |
| `HitTest.AdjacentAxisBoundsPartition` | src/main.cpp:16-19 | Split [lo, hi) at mid: every position of [lo, hi) lies in exactly one half, and no position outside it lies in either half. |
| `HitTest.PointInBounds` | src/main.cpp:21-28 | The loop, with its early return, answers true exactly when every axis accepts its coordinate. That is, lo0 <= x < hi0 and lo1 <= y < hi1. |
| `Expressions.BehavesUnique` | src/main.cpp:34-35 | About the meaning predicate `Behaves` for the expression type (a function taking a continuation `int -> void`, first written there): an expression fixes both the output it writes before calling its continuation and the value it delivers. |
| `Expressions.TwoCallsObservable` | src/main.cpp:34-35 | Any expression whose run, for every continuation k, is its own output, then k(a)'s output, then more output of its own, then k(b)'s run, satisfies `Behaves` for no output and value: a second call of the continuation whose run is kept is observable. |
| `Expressions.Literal` | src/main.cpp:34-38 | Model of `literal`; its meaning is stated by LiteralBehaves. |
| `Expressions.Let` | src/main.cpp:40-48 | Model of `let`; its meaning is stated by LetBehaves and LetEvaluatesOnce. |
| `Expressions.Sequence` | src/main.cpp:50-58 | Model of `sequence`; its meaning is stated by SequenceBehaves. |
| `Expressions.Sum` | src/main.cpp:60-70 | Model of `sum`; its meaning is stated by SumBehaves. |
| `Expressions.PrintAndReturn` | src/main.cpp:72-79 | Model of `printAndReturn`, the console write turned into the run's output; its meaning is stated by PrintAndReturnBehaves. |
| `Program.App` | src/main.cpp:81-86 | Model of `app`; its meaning is stated by AppBehaves. |
| `Program.AppBody` | src/main.cpp:82-86 | The lambda passed to `let` in `app`, as a named function. |
| `Program.ExitWith` | src/main.cpp:89-91 | The continuation `main` passes to `app`: the run ends with the result as exit code. |
| `Program.RunProcess` | src/main.cpp:88-94 | Model of `main`; its result is stated by RunProcessResult. |
| `Expressions.LiteralBehaves` | src/main.cpp:34-38 | `literal(v)` writes nothing and calls any continuation once, with v, as far as the run can observe. |
| `Expressions.LetBehaves` | src/main.cpp:40-48 | `let(e, body)` drives e once: e's output, then the output of `body(literal(v))`, which also delivers the value. |
| `Expressions.LetEvaluatesOnce` | src/main.cpp:40-48 | Using the bound variable twice writes e's output once. Writing e itself twice writes it twice. The two forms are equal only when e writes nothing. |
| `Expressions.SequenceBehaves` | src/main.cpp:50-58 | `sequence(a0, a1)` writes a0's output before a1's, drops a0's value and delivers a1's value, once. |
| `Expressions.SumBehaves` | src/main.cpp:60-70 | `sum(x0, x1)` writes x0's output before x1's and calls the continuation once, with the sum of the two values. |
| `Expressions.PrintAndReturnBehaves` | src/main.cpp:72-79 | `printAndReturn(e)` writes e's output, then e's value, then passes that same value to the continuation. |
| `Program.AppBehaves` | src/main.cpp:81-86 | `app` writes 5, 6, 7 in that order and delivers 7. The 5 is written once although `value1` is used twice. |
| `Program.RunProcessResult` | src/main.cpp:88-94 | Running `main` writes 5, 6, 7 and ends the process with exit code 7. |

## Left out

- `struct Widget` only declares a click-handler field, and nothing in the file uses it.
- Console output is modelled as the integer appended to a trace. The `"printAndReturn "` prefix and the newline are not modelled.
- `boost::function` type erasure and closure capture are replaced by Dafny function values.
- A call of a continuation whose run is dropped is invisible in a `Run`, while in C++ it would still print or exit. The five combinators call every continuation in tail position, so none of them drops a run.
- Expressions that call their continuation zero times or many times can be written as `Expr` values. The lemmas speak only about expressions that satisfy `Behaves`, and every combinator keeps that property.
- SumBehaves: the sum is mathematical. C++ `int` overflow in `sum` is undefined behaviour and is not modelled.
- RunProcessResult: the exit code is the whole integer. POSIX keeps only its low 8 bits, which does not matter for 7.
