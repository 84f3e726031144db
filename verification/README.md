# Filter-chain evaluator of liquid-rust, modelled in Dafny

This project models the filter pipeline of the Liquid template compiler
(`liquid-compiler/src/filter_chain.rs`). An output expression such as
`{{ greeting | upcase | truncate: 5 }}` compiles to a `FilterChain`. The chain
holds an entry expression and an ordered list of `FilterCall`s. Each call has a
name, a filter function and argument expressions.

- `FilterCall::evaluate` evaluates the arguments left to right and stops at the
  first failure. It then applies the filter to the input value and the argument
  values. A filter failure is wrapped under "Filter error", with three context
  entries: `filter`, `input` and `args`.
- `FilterChain::evaluate` evaluates the entry and threads its value through the
  calls in order. The first error ends the evaluation.
- `Display` shows a call as `name: a, b` and a chain as `entry | call | call`.
- `render_to` writes the display of the final value to a sink, with one write.

Files:

- `liquid_error.dfy` (module `LiquidError`): the error type of the `liquid_error`
  crate, reduced to a message, an optional cause and ordered context entries. It
  also holds `Result`, `chain` and `context_key(..).value_with(..)`.
- `text.dfy` (module `Text`): `itertools::join`, as a recursive `Join` and as the
  loop the crate runs, proved equal.
- `filter_chain.dfy` (module `FilterPipeline`): the two types, their evaluation,
  their display and `render_to`, with the ordering, fail-fast, identity and
  envelope properties.
- `scenarios.dfy` (module `Scenarios`): worked instances with a small concrete
  value language. The `upcase` filter stays a parameter: each lemma only states
  what it needs from it.

The outside pieces are parameters. Expressions, values and the binding context
are the type parameters `E`, `V` and `C`. `Expression::evaluate` and the
`Display` of expressions and values are fields of an `Interp` record. A filter
is a function value `(V, seq<V>) -> Result<V>` stored in the call. The output
sink is a function `string -> Option<Error>` that reports whether a write
failed. A successful write appends its text to the output string.

Two consequences of the code are worth noting:

- A call with no arguments displays as `name: `, with the trailing space, because
  the format is `"{}: {}"` with an empty join. So the chain
  `x | upcase | truncate: 5` displays as `"x | upcase:  | truncate: 5"`, with two
  spaces after `upcase:`. `Scenarios.DisplayWithEmptyArguments` proves this.
- Argument failures are not wrapped. An argument failure leaves through `?`
  before the `chain("Filter error")` call, so it comes back unchanged. Only a
  filter failure gets the envelope. `CallEvaluate` and `ArgFailureSkipsFilter`
  state this.

## Model

| member | source | states |
|---|---|---|
| LiquidError.Wrap | liquid-compiler/src/filter_chain.rs:42 | the wrapping error has the new message and no context of its own, and it keeps the original error unchanged as its cause |
| LiquidError.ChainResult | liquid-compiler/src/filter_chain.rs:42 | `chain` leaves a success untouched and wraps a failure under the message |
| LiquidError.WithContext | liquid-compiler/src/filter_chain.rs:43-48 | a context key/value leaves a success untouched. On a failure it appends one entry after the existing ones and keeps the message and cause |
| Text.ShowAll | liquid-compiler/src/filter_chain.rs:58 | the items joined are the displays of the arguments, one per argument, in order |
| Text.Join | liquid-compiler/src/filter_chain.rs:58 | the joined text starts with the first part and is empty for no parts |
| Text.JoinLength | liquid-compiler/src/filter_chain.rs:58 | the joined text is as long as all parts together plus one separator between each pair of neighbours, so nothing else is added |
| Text.JoinSnoc | liquid-compiler/src/filter_chain.rs:58 | adding a part at the end adds exactly one separator and that part |
| Text.JoinAppend | liquid-compiler/src/filter_chain.rs:96 | joining two non-empty lists equals joining each of them, with a single separator between the two results |
| Text.JoinDisplayed | liquid-compiler/src/filter_chain.rs:58 | the join loop (display the first item, then a separator and the display for each further item) computes the recursive `Join` of the displays |
| FilterPipeline.NewCall | liquid-compiler/src/filter_chain.rs:25-31 | the call keeps the given name, filter and argument expressions in order |
| FilterPipeline.NewChain | liquid-compiler/src/filter_chain.rs:72-74 | the chain keeps the entry and the calls, element by element, in the order given |
| FilterPipeline.EvaluateArgs | liquid-compiler/src/filter_chain.rs:34-39 | succeeds exactly when every argument evaluates. The result then has one value per argument, each that argument's value. On failure the error is the error of the first failing argument, and all arguments before it evaluated |
| FilterPipeline.ShowCall | liquid-compiler/src/filter_chain.rs:52-61 | a call shows as its name followed by `": "`. With no arguments that is all, including the trailing space. With one argument, the argument's display follows |
| FilterPipeline.ShowCallAppendArgument | liquid-compiler/src/filter_chain.rs:52-61 | each further argument adds `", "` and its display at the end |
| FilterPipeline.FilterFailure | liquid-compiler/src/filter_chain.rs:40-48 | the envelope has message "Filter error" and the filter's error as its cause. Its context is exactly `filter`, `input`, `args`, in that order |
| FilterPipeline.CallEvaluate | liquid-compiler/src/filter_chain.rs:33-49 | an argument failure is returned unchanged. A filter success is returned exactly, with nothing added. A filter failure is returned in the envelope: `filter` holds the call's display, `input` the input's display and `args` the argument values' displays joined with `", "` |
| FilterPipeline.ArgFailureSkipsFilter | liquid-compiler/src/filter_chain.rs:34-41 | when an argument fails, the filter is never applied: putting any other filter in its place changes nothing, and the error is the argument's error |
| FilterPipeline.Fold | liquid-compiler/src/filter_chain.rs:82-86 | the loop over the calls: no calls leave the value as it is. Otherwise the first call runs on the value, and its failure is the result. A single call's result is exactly that call's result |
| FilterPipeline.FoldStep | liquid-compiler/src/filter_chain.rs:82-84 | a head call that succeeds hands its output on as the input of the remaining calls |
| FilterPipeline.FoldAppend | liquid-compiler/src/filter_chain.rs:82-86 | threading through `a + b` threads through `a`, then through `b` from `a`'s output. A failure inside `a` is the result |
| FilterPipeline.FoldSnoc | liquid-compiler/src/filter_chain.rs:82-84 | the last call receives the output of all the calls before it (left fold) and does not run if they failed |
| FilterPipeline.FoldFailFast | liquid-compiler/src/filter_chain.rs:83 | once the first calls have failed, the calls after them never affect the result |
| FilterPipeline.ChainEvaluate | liquid-compiler/src/filter_chain.rs:77-87 | a failing entry is the result, unmodified. With no calls the result is the entry's value. Otherwise the entry's value goes through `Fold`, the loop at lines 82-86 |
| FilterPipeline.ChainFailFast | liquid-compiler/src/filter_chain.rs:79-86 | if a chain's first calls fail, adding any calls after them leaves the result the same |
| FilterPipeline.ChainEvaluateStepwise | liquid-compiler/src/filter_chain.rs:77-87 | the loop as written agrees with `ChainEvaluate`. Call `k` receives the entry value (for `k = 0`) or call `k-1`'s output. On success every call ran and the result is the last output. On a call failure the result is the error of the first failing call, and no later call ran. An entry failure runs no call |
| FilterPipeline.ShowCalls | liquid-compiler/src/filter_chain.rs:96 | the items joined in a chain's display are the calls' displays, one per call, in order |
| FilterPipeline.ShowChain | liquid-compiler/src/filter_chain.rs:90-99 | a chain shows as the entry's display followed by `" \| "`, even with no calls. With one call, that call's display follows |
| FilterPipeline.ShowChainAppendFilter | liquid-compiler/src/filter_chain.rs:90-99 | each further call adds `" \| "` and its display at the end |
| FilterPipeline.RenderTo | liquid-compiler/src/filter_chain.rs:101-106 | an evaluation failure is returned unchanged, and nothing is written. On success there is exactly one write, of the final value's display. If it works, the result is `Ok` and the text is appended to the output. If it fails, the sink's error comes back wrapped under "Failed to render" |
| FilterPipeline.RenderFailureKinds | liquid-compiler/src/filter_chain.rs:103-104 | a failed render with no write is exactly an evaluation failure. A failed render after a write is exactly a sink failure, wrapped under "Failed to render" |
| Scenarios.OrderIsPreserved | liquid-compiler/src/filter_chain.rs:82-86 | `"base" \| f \| g`, where each filter appends its own name, evaluates to `"basefg"` |
| Scenarios.HelloWorld | liquid-compiler/src/filter_chain.rs:77-87 | `greeting \| upcase \| truncate: 5`, with `greeting` bound to "hello world", a toy `truncate` that keeps the first 5 characters, and an `upcase` that turns "hello world" into "HELLO WORLD", evaluates to "HELLO" |
| Scenarios.DisplayWithEmptyArguments | liquid-compiler/src/filter_chain.rs:90-99 | the chain `x \| upcase \| truncate: 5` displays as `"x \| upcase:  \| truncate: 5"`, whatever the filters do |
| Scenarios.FailingStageIsReported | liquid-compiler/src/filter_chain.rs:40-48 | when `truncate` fails for lack of an argument, the chain's error is its envelope: `filter` is `"truncate: "`, `input` is `"abc"` and `args` is empty. The later `upcase` does not affect it, whatever it does |

## Left out

- `std::io::Write` is modelled as one fallible write of the whole text. Partial writes, buffering, and the several writes that `write!` may issue for one format are not modelled.
- The `std::io::Error` from the sink is represented as an `Error` value of the model. It becomes the cause of the "Failed to render" error.
- The laziness of the `value_with` closures cannot be observed in a pure model. The context strings are built only in the filter-failure branch.
- `Expression`, `Context`, `Value`, `BoxedValueFilter`/`FilterValue` and the concrete filters belong to other crates. They are type parameters and function-valued fields here. `render_to` takes the context as `&mut`, but it only passes it on to `evaluate`, so the model passes it by value.
- `liquid_error` internals are not modelled: backtraces and traces, the error's own `Display`, and the boxing of foreign causes. The model's error holds a message, an optional cause and ordered context entries.
- The `Clone`/`Debug` derives, `to_owned` copies, and thread sharing of compiled chains have no counterpart in a pure model.
- ShowCall: the contract fixes the zero-argument and one-argument forms. Longer argument lists follow from `ShowCallAppendArgument`, one argument at a time.
- ShowChain: the contract fixes the zero-call and one-call forms. Longer chains follow from `ShowChainAppendFilter`, one call at a time.
