/** The filter-pipeline evaluator of `liquid-compiler/src/filter_chain.rs`: a
    `FilterCall` evaluates its argument expressions and applies its filter to an
    input value, annotating a filter failure; a `FilterChain` evaluates its entry
    expression and threads the value through its calls left to right; both have a
    `Display` form, and `RenderTo` writes the final value to a sink.

    Expressions, values and the binding context are type parameters `E`, `V`, `C`;
    what the core asks of them lives in `Interp`. */
module FilterPipeline {
  import opened LiquidError
  import opened Text

  /** The outside pieces the pipeline only calls: `Expression::evaluate` and the
      `Display` of expressions and of values. */
  datatype Interp<!E, !V, !C> = Interp(
    eval: (E, C) -> Result<V>,
    showExpr: E -> string,
    showValue: V -> string)

  /** A filter: the input value and the evaluated arguments, to a new value or an error. */
  type Filter<!V> = (V, seq<V>) -> Result<V>

  datatype FilterCall<E, !V> = FilterCall(name: string, filter: Filter<V>, arguments: seq<E>)

  datatype FilterChain<E, !V> = FilterChain(entry: E, filters: seq<FilterCall<E, V>>)

  const FilterErrorMessage := "Filter error"
  const RenderErrorMessage := "Failed to render"

  /** `FilterCall::new`: keeps the name, the filter and the argument expressions, in
      order; nothing is evaluated yet. */
  function NewCall<E, V>(name: string, filter: Filter<V>, arguments: seq<E>): (c: FilterCall<E, V>)
    ensures c.name == name && c.arguments == arguments
    ensures c.filter == filter
  {
    FilterCall(name, filter, arguments)
  }

  /** `FilterChain::new`: keeps the entry and the calls in the order given. */
  function NewChain<E, V>(entry: E, filters: seq<FilterCall<E, V>>): (p: FilterChain<E, V>)
    ensures p.entry == entry && |p.filters| == |filters|
    ensures forall i :: 0 <= i < |filters| ==> p.filters[i] == filters[i]
  {
    FilterChain(entry, filters)
  }

  /** The argument expressions evaluated left to right and collected; the first one
      that fails ends the evaluation and its error is the result. */
  function EvaluateArgs<E, V, C>(it: Interp<E, V, C>, args: seq<E>, ctx: C): (r: Result<seq<V>>)
    ensures r.Ok? <==> forall i :: 0 <= i < |args| ==> it.eval(args[i], ctx).Ok?
    ensures r.Ok? ==> |r.value| == |args|
    ensures r.Ok? ==> forall i :: 0 <= i < |args| ==> it.eval(args[i], ctx) == Ok(r.value[i])
    ensures r.Err? ==>
      exists i :: 0 <= i < |args| && it.eval(args[i], ctx) == Err(r.error) &&
        forall j :: 0 <= j < i ==> it.eval(args[j], ctx).Ok?
  {
    if |args| == 0 then Ok([])
    else
      var v :- it.eval(args[0], ctx);
      var vs :- EvaluateArgs(it, args[1..], ctx);
      Ok([v] + vs)
  }

  /** `Display for FilterCall`: the name, a colon and a space, then the argument
      expressions' displays separated by `", "`. */
  function ShowCall<E, V, C>(it: Interp<E, V, C>, call: FilterCall<E, V>): (s: string)
    ensures |call.arguments| == 0 ==> s == call.name + ": "
    ensures |call.arguments| == 1 ==> s == call.name + ": " + it.showExpr(call.arguments[0])
    ensures |s| >= |call.name| + 2 && s[..|call.name| + 2] == call.name + ": "
  {
    call.name + ": " + Join(ShowAll(it.showExpr, call.arguments), ", ")
  }

  /** The error a failing filter is reported with: `cause` wrapped under
      "Filter error", annotated with the call, its input and its arguments. */
  function FilterFailure(cause: Error, call: string, input: string, args: string): (e: Error)
    ensures e.message == FilterErrorMessage && e.cause == Some(cause)
    ensures e.context == [Entry("filter", call), Entry("input", input), Entry("args", args)]
  {
    var r: Result<()> := Err(cause);
    var annotated :=
      WithContext(WithContext(WithContext(ChainResult(r, FilterErrorMessage),
        "filter", call), "input", input), "args", args);
    annotated.error
  }

  /** `FilterCall::evaluate`: evaluate the arguments, then apply the filter to
      `input` and them. An argument failure comes back unchanged; a filter success
      comes back as it is; a filter failure comes back inside the diagnostic
      envelope. */
  function CallEvaluate<E, V, C>(it: Interp<E, V, C>, call: FilterCall<E, V>, ctx: C, input: V): (r: Result<V>)
    ensures EvaluateArgs(it, call.arguments, ctx).Err? ==>
      r == Err(EvaluateArgs(it, call.arguments, ctx).error)
    ensures EvaluateArgs(it, call.arguments, ctx).Ok? ==>
      var args := EvaluateArgs(it, call.arguments, ctx).value;
      var out := call.filter(input, args);
      (out.Ok? ==> r == out) &&
      (out.Err? ==>
         && r.Err?
         && r.error.message == FilterErrorMessage
         && r.error.cause == Some(out.error)
         && r.error.context == [
              Entry("filter", ShowCall(it, call)),
              Entry("input", it.showValue(input)),
              Entry("args", Join(ShowAll(it.showValue, args), ", "))])
  {
    var args :- EvaluateArgs(it, call.arguments, ctx);
    var out := call.filter(input, args);
    match out
    case Ok(_) => out
    case Err(e) =>
      Err(FilterFailure(e, ShowCall(it, call), it.showValue(input), Join(ShowAll(it.showValue, args), ", ")))
  }

  /** The loop of `FilterChain::evaluate`: the value `v` threaded through `filters`
      from the first to the last; each call gets the previous call's output, and
      the first failure is the result. */
  function Fold<E, V, C>(it: Interp<E, V, C>, filters: seq<FilterCall<E, V>>, ctx: C, v: V): (r: Result<V>)
    ensures |filters| == 0 ==> r == Ok(v)
    ensures |filters| > 0 && CallEvaluate(it, filters[0], ctx, v).Err? ==>
      r == CallEvaluate(it, filters[0], ctx, v)
    ensures |filters| == 1 ==> r == CallEvaluate(it, filters[0], ctx, v)
    decreases |filters|
  {
    if |filters| == 0 then Ok(v)
    else
      var w :- CallEvaluate(it, filters[0], ctx, v);
      Fold(it, filters[1..], ctx, w)
  }

  /** `FilterChain::evaluate`: evaluate the entry, then fold its value through the
      calls. A failing entry is the result, untouched. */
  function ChainEvaluate<E, V, C>(it: Interp<E, V, C>, chain: FilterChain<E, V>, ctx: C): (r: Result<V>)
    ensures it.eval(chain.entry, ctx).Err? ==> r == it.eval(chain.entry, ctx)
    ensures |chain.filters| == 0 ==> r == it.eval(chain.entry, ctx)
  {
    var v :- it.eval(chain.entry, ctx);
    Fold(it, chain.filters, ctx, v)
  }

  /** The display strings of `calls`, in order: `ShowAll` specialised to
      `ShowCall`. A named recursive function, because proofs that compare two
      separately built lambdas `c => ShowCall(it, c)` are costly for the solver. */
  function ShowCalls<E, V, C>(it: Interp<E, V, C>, calls: seq<FilterCall<E, V>>): (r: seq<string>)
    ensures |r| == |calls|
    ensures forall i :: 0 <= i < |calls| ==> r[i] == ShowCall(it, calls[i])
  {
    if |calls| == 0 then [] else [ShowCall(it, calls[0])] + ShowCalls(it, calls[1..])
  }

  /** `Display for FilterChain`: the entry's display, `" | "`, then the calls'
      displays separated by `" | "`. */
  function ShowChain<E, V, C>(it: Interp<E, V, C>, chain: FilterChain<E, V>): (s: string)
    ensures |chain.filters| == 0 ==> s == it.showExpr(chain.entry) + " | "
    ensures |chain.filters| == 1 ==> s == it.showExpr(chain.entry) + " | " + ShowCall(it, chain.filters[0])
    ensures var head := it.showExpr(chain.entry) + " | "; |s| >= |head| && s[..|head|] == head
  {
    it.showExpr(chain.entry) + " | " + Join(ShowCalls(it, chain.filters), " | ")
  }

  /** What one `render_to` does: its result, the texts it handed to the sink, and
      the sink's contents afterwards. */
  datatype Rendered = Rendered(status: Result<()>, attempts: seq<string>, output: string)

  /** `Renderable::render_to`: evaluate the chain; on success make exactly one write
      of the value's display. `write` is the sink: `None` when the write succeeds,
      `Some(e)` when it fails with `e`. */
  function RenderTo<E, V, C>(it: Interp<E, V, C>, chain: FilterChain<E, V>, ctx: C,
                             out: string, write: string -> Option<Error>): (r: Rendered)
    ensures ChainEvaluate(it, chain, ctx).Err? ==>
      r.status == Err(ChainEvaluate(it, chain, ctx).error) && r.attempts == [] && r.output == out
    ensures ChainEvaluate(it, chain, ctx).Ok? ==>
      var text := it.showValue(ChainEvaluate(it, chain, ctx).value);
      r.attempts == [text] &&
      (write(text).None? ==> r.status == Ok(()) && r.output == out + text) &&
      (write(text).Some? ==> r.status == Err(Wrap(write(text).value, RenderErrorMessage)) && r.output == out)
  {
    match ChainEvaluate(it, chain, ctx)
    case Err(e) => Rendered(Err(e), [], out)
    case Ok(v) =>
      var text := it.showValue(v);
      match write(text)
      case None => Rendered(Ok(()), [text], out + text)
      case Some(e) => Rendered(ChainResult(Err(e), RenderErrorMessage), [text], out)
  }

  /** Failing arguments mean the filter is never applied: any other filter in its
      place gives the same result. */
  lemma ArgFailureSkipsFilter<E, V, C>(it: Interp<E, V, C>, call: FilterCall<E, V>, ctx: C, input: V, other: Filter<V>)
    requires EvaluateArgs(it, call.arguments, ctx).Err?
    ensures CallEvaluate(it, call.(filter := other), ctx, input) == CallEvaluate(it, call, ctx, input)
    ensures CallEvaluate(it, call, ctx, input).error == EvaluateArgs(it, call.arguments, ctx).error
  {
  }

  /** A head call that succeeds hands its output on to the rest of the calls. */
  lemma FoldStep<E, V, C>(it: Interp<E, V, C>, filters: seq<FilterCall<E, V>>, ctx: C, v: V)
    requires |filters| > 0 && CallEvaluate(it, filters[0], ctx, v).Ok?
    ensures Fold(it, filters, ctx, v) == Fold(it, filters[1..], ctx, CallEvaluate(it, filters[0], ctx, v).value)
  {
  }

  /** Folding through `a + b` is folding through `a`, then through `b` from where
      `a` left off; a failure inside `a` is the result. */
  lemma {:induction false} FoldAppend<E, V, C>(it: Interp<E, V, C>, a: seq<FilterCall<E, V>>, b: seq<FilterCall<E, V>>, ctx: C, v: V)
    ensures Fold(it, a, ctx, v).Err? ==> Fold(it, a + b, ctx, v) == Fold(it, a, ctx, v)
    ensures Fold(it, a, ctx, v).Ok? ==> Fold(it, a + b, ctx, v) == Fold(it, b, ctx, Fold(it, a, ctx, v).value)
    decreases |a|
  {
    if |a| == 0 {
      assert a + b == b;
    } else {
      assert (a + b)[0] == a[0];
      assert (a + b)[1..] == a[1..] + b;
      match CallEvaluate(it, a[0], ctx, v)
      case Err(e) =>
      case Ok(w) => FoldAppend(it, a[1..], b, ctx, w);
    }
  }

  /** The last call receives the output of all the calls before it: the fold is a
      left fold. */
  lemma FoldSnoc<E, V, C>(it: Interp<E, V, C>, a: seq<FilterCall<E, V>>, last: FilterCall<E, V>, ctx: C, v: V)
    ensures Fold(it, a, ctx, v).Err? ==> Fold(it, a + [last], ctx, v) == Fold(it, a, ctx, v)
    ensures Fold(it, a, ctx, v).Ok? ==>
      Fold(it, a + [last], ctx, v) == CallEvaluate(it, last, ctx, Fold(it, a, ctx, v).value)
  {
    FoldAppend(it, a, [last], ctx, v);
    match Fold(it, a, ctx, v)
    case Err(e) =>
    case Ok(w) =>
      assert [last][1..] == [];
  }

  /** Once the calls in `a` have failed, the calls after them never matter: the
      error of `a` is the result whatever `b` holds. */
  lemma FoldFailFast<E, V, C>(it: Interp<E, V, C>, a: seq<FilterCall<E, V>>, b: seq<FilterCall<E, V>>, ctx: C, v: V)
    requires Fold(it, a, ctx, v).Err?
    ensures Fold(it, a + b, ctx, v) == Fold(it, a, ctx, v)
  {
    FoldAppend(it, a, b, ctx, v);
  }

  /** Chain-level fail-fast: if the first calls of a chain fail, the chain's result
      is their error, the same for every choice of the calls after them. */
  lemma ChainFailFast<E, V, C>(it: Interp<E, V, C>, entry: E, a: seq<FilterCall<E, V>>, b: seq<FilterCall<E, V>>, ctx: C)
    requires ChainEvaluate(it, FilterChain(entry, a), ctx).Err?
    ensures ChainEvaluate(it, FilterChain(entry, a + b), ctx) == ChainEvaluate(it, FilterChain(entry, a), ctx)
  {
    match it.eval(entry, ctx)
    case Err(e) =>
    case Ok(v) => FoldFailFast(it, a, b, ctx, v);
  }

  /** `FilterChain::evaluate` as written: the entry's value in a mutable slot that
      each call in turn replaces, with `?` on each step. `stages` records the value
      each call received, and last the final value: call `k` got `stages[k]`, so a
      call runs only after every call before it has succeeded. */
  method ChainEvaluateStepwise<E, V, C>(it: Interp<E, V, C>, chain: FilterChain<E, V>, ctx: C)
    returns (r: Result<V>, stages: seq<V>)
    ensures r == ChainEvaluate(it, chain, ctx)
    ensures it.eval(chain.entry, ctx).Err? ==> stages == []
    ensures it.eval(chain.entry, ctx).Ok? ==>
      1 <= |stages| <= |chain.filters| + 1 && stages[0] == it.eval(chain.entry, ctx).value
    ensures forall k :: 0 <= k < |stages| - 1 ==>
      CallEvaluate(it, chain.filters[k], ctx, stages[k]) == Ok(stages[k + 1])
    ensures r.Ok? ==> |stages| == |chain.filters| + 1 && r.value == stages[|stages| - 1]
    ensures r.Err? && |stages| > 0 ==>
      |stages| <= |chain.filters| &&
      CallEvaluate(it, chain.filters[|stages| - 1], ctx, stages[|stages| - 1]) == r
  {
    var first := it.eval(chain.entry, ctx);
    if first.Err? {
      return Err(first.error), [];
    }
    var entry := first.value;
    stages := [entry];
    var i := 0;
    while i < |chain.filters|
      invariant 0 <= i <= |chain.filters|
      invariant |stages| == i + 1 && stages[0] == first.value && stages[i] == entry
      invariant forall k :: 0 <= k < i ==> CallEvaluate(it, chain.filters[k], ctx, stages[k]) == Ok(stages[k + 1])
      invariant Fold(it, chain.filters, ctx, first.value) == Fold(it, chain.filters[i..], ctx, entry)
    {
      var out := CallEvaluate(it, chain.filters[i], ctx, entry);
      if out.Err? {
        return out, stages;
      }
      assert chain.filters[i..][1..] == chain.filters[i + 1..];
      entry := out.value;
      stages := stages + [entry];
      i := i + 1;
    }
    r := Ok(entry);
  }

  /** Adding an argument to a call with arguments adds `", "` and its display. */
  lemma ShowCallAppendArgument<E, V, C>(it: Interp<E, V, C>, call: FilterCall<E, V>, arg: E)
    requires |call.arguments| > 0
    ensures ShowCall(it, call.(arguments := call.arguments + [arg])) == ShowCall(it, call) + ", " + it.showExpr(arg)
  {
    ShowAllAppend(it.showExpr, call.arguments, [arg]);
    assert ShowAll(it.showExpr, [arg]) == [it.showExpr(arg)];
    JoinSnoc(ShowAll(it.showExpr, call.arguments), it.showExpr(arg), ", ");
  }

  /** Adding a call to a chain with calls adds `" | "` and the call's display. */
  lemma ShowChainAppendFilter<E, V, C>(it: Interp<E, V, C>, chain: FilterChain<E, V>, call: FilterCall<E, V>)
    requires |chain.filters| > 0
    ensures ShowChain(it, chain.(filters := chain.filters + [call])) == ShowChain(it, chain) + " | " + ShowCall(it, call)
  {
    var shown := ShowCalls(it, chain.filters);
    assert ShowCalls(it, chain.filters + [call]) == shown + [ShowCall(it, call)];
    JoinSnoc(shown, ShowCall(it, call), " | ");
  }

  /** The two ways a render fails can be told apart: an evaluation failure reaches
      no write and is returned as it is; a sink failure follows the one write and
      is wrapped under "Failed to render" with the sink's error as its cause. */
  lemma RenderFailureKinds<E, V, C>(it: Interp<E, V, C>, chain: FilterChain<E, V>, ctx: C,
                                    out: string, write: string -> Option<Error>)
    ensures var r := RenderTo(it, chain, ctx, out, write);
      r.status.Err? ==>
        (r.attempts == [] <==> ChainEvaluate(it, chain, ctx).Err?) &&
        (r.attempts != [] ==>
           write(r.attempts[0]).Some? &&
           r.status.error == Wrap(write(r.attempts[0]).value, RenderErrorMessage))
  {
  }
}
