/** Worked instances of the pipeline with a small concrete value and expression
    language: literals and variables, strings and numbers, and a few filters. */
module Scenarios {
  import opened LiquidError
  import opened Text
  import opened FilterPipeline

  datatype Val = Str(s: string) | Num(n: nat)

  datatype Expr = Lit(v: Val) | Var(name: string)

  type Bindings = map<string, Val>

  function Digits(n: nat): string
  {
    if n < 10 then ["0123456789"[n]] else Digits(n / 10) + ["0123456789"[n % 10]]
  }

  function ShowVal(v: Val): string
  {
    match v
    case Str(s) => s
    case Num(n) => Digits(n)
  }

  function ShowExpr(e: Expr): string
  {
    match e
    case Lit(v) => ShowVal(v)
    case Var(name) => name
  }

  function Lookup(e: Expr, ctx: Bindings): Result<Val>
  {
    match e
    case Lit(v) => Ok(v)
    case Var(name) =>
      if name in ctx then Ok(ctx[name]) else Err(Error("Unknown variable", None, []))
  }

  const Toy := Interp(Lookup, ShowExpr, ShowVal)

  const BadArgs := Error("Invalid arguments", None, [])

  /** A toy `truncate(n)` that keeps the first `n` characters of a string. Liquid's
      own `truncate` also counts and appends an ellipsis; that is not modelled. */
  function Truncate(v: Val, args: seq<Val>): Result<Val>
  {
    if v.Str? && |args| == 1 && args[0].Num? then
      Ok(Str(if args[0].n < |v.s| then v.s[..args[0].n] else v.s))
    else Err(BadArgs)
  }

  /** A filter that appends `suffix` to a string value. */
  function Append(suffix: string): Filter<Val>
  {
    (v: Val, args: seq<Val>) => if v.Str? then Ok(Str(v.s + suffix)) else Err(BadArgs)
  }

  /** An `upcase` call with no arguments; the filter itself is left to the lemma
      that uses it. */
  function UpcaseCall(upcase: Filter<Val>): FilterCall<Expr, Val>
  {
    FilterCall("upcase", upcase, [])
  }

  const TruncateCall: FilterCall<Expr, Val> := FilterCall("truncate", Truncate, [Lit(Num(5))])

  /** Calls run in the order written: `"base" | f | g` gives `"basefg"`. */
  lemma OrderIsPreserved()
    ensures ChainEvaluate(Toy, FilterChain(Lit(Str("base")), [FilterCall("f", Append("f"), []), FilterCall("g", Append("g"), [])]), map[])
      == Ok(Str("basefg"))
  {
    var f := FilterCall("f", Append("f"), []);
    var g := FilterCall("g", Append("g"), []);
    assert EvaluateArgs(Toy, f.arguments, map[]) == Ok([]);
    assert EvaluateArgs(Toy, g.arguments, map[]) == Ok([]);
    assert "base" + "f" == "basef" && "basef" + "g" == "basefg";
    assert CallEvaluate(Toy, f, map[], Str("base")) == Ok(Str("basef"));
    assert CallEvaluate(Toy, g, map[], Str("basef")) == Ok(Str("basefg"));
    assert [f, g][1..] == [g];
  }

  /** `greeting | upcase | truncate: 5` with `greeting` bound to "hello world",
      for an `upcase` that turns "hello world" into "HELLO WORLD", evaluates to
      "HELLO". */
  lemma HelloWorld(upcase: Filter<Val>)
    requires upcase(Str("hello world"), []) == Ok(Str("HELLO WORLD"))
    ensures ChainEvaluate(Toy, FilterChain(Var("greeting"), [UpcaseCall(upcase), TruncateCall]), map["greeting" := Str("hello world")])
      == Ok(Str("HELLO"))
  {
    var ctx := map["greeting" := Str("hello world")];
    var calls := [UpcaseCall(upcase), TruncateCall];
    assert EvaluateArgs(Toy, UpcaseCall(upcase).arguments, ctx) == Ok([]);
    assert CallEvaluate(Toy, UpcaseCall(upcase), ctx, Str("hello world")) == Ok(Str("HELLO WORLD"));
    TruncateHello(ctx);
    assert Toy.eval(Var("greeting"), ctx) == Ok(Str("hello world"));
    assert calls[1..] == [TruncateCall];
    assert Fold(Toy, [TruncateCall], ctx, Str("HELLO WORLD")) == Ok(Str("HELLO"));
    assert Fold(Toy, calls, ctx, Str("hello world")) == Ok(Str("HELLO"));
  }

  lemma TruncateHello(ctx: Bindings)
    ensures CallEvaluate(Toy, TruncateCall, ctx, Str("HELLO WORLD")) == Ok(Str("HELLO"))
  {
    var args := TruncateCall.arguments;
    assert args == [Lit(Num(5))];
    assert Toy.eval(args[0], ctx) == Ok(Num(5));
    assert EvaluateArgs(Toy, args[1..], ctx) == Ok([]);
    assert [Num(5)] + [] == [Num(5)];
    assert EvaluateArgs(Toy, args, ctx) == Ok([Num(5)]);
    assert "HELLO WORLD"[..5] == "HELLO";
    assert Truncate(Str("HELLO WORLD"), [Num(5)]) == Ok(Str("HELLO"));
  }

  /** A call with no arguments still shows `": "`, so `x | upcase | truncate: 5`
      shows two spaces after `upcase:`. */
  lemma DisplayWithEmptyArguments(upcase: Filter<Val>)
    ensures ShowChain(Toy, FilterChain(Lit(Str("x")), [UpcaseCall(upcase), TruncateCall])) == "x | upcase:  | truncate: 5"
  {
    ShownCalls(upcase);
    JoinTwo("upcase: ", "truncate: 5", " | ");
    DisplayText();
  }

  lemma DisplayText()
    ensures "x" + " | " + ("upcase: " + " | " + "truncate: 5") == "x | upcase:  | truncate: 5"
  {
  }

  lemma ShownCalls(upcase: Filter<Val>)
    ensures ShowCalls(Toy, [UpcaseCall(upcase), TruncateCall]) == ["upcase: ", "truncate: 5"]
  {
    assert ShowCall(Toy, UpcaseCall(upcase)) == "upcase: ";
    assert Digits(5) == "5";
    assert ShowCall(Toy, TruncateCall) == "truncate: 5";
  }

  lemma JoinTwo(a: string, b: string, sep: string)
    ensures Join([a, b], sep) == a + sep + b
  {
    assert [a, b][1..] == [b];
  }

  /** `"abc" | truncate | upcase`: `truncate` without its argument fails, the error
      carries the call, its input and its (empty) arguments, and `upcase` never
      gets to run, whatever it does. */
  lemma FailingStageIsReported(upcase: Filter<Val>)
    ensures var r := ChainEvaluate(Toy, FilterChain(Lit(Str("abc")), [FilterCall("truncate", Truncate, []), UpcaseCall(upcase)]), map[]);
      r == Err(Error(FilterErrorMessage, Some(BadArgs),
                     [Entry("filter", "truncate: "), Entry("input", "abc"), Entry("args", "")]))
  {
    var bad: FilterCall<Expr, Val> := FilterCall("truncate", Truncate, []);
    assert ShowCall(Toy, bad) == "truncate: ";
    assert CallEvaluate(Toy, bad, map[], Str("abc")).Err?;
  }
}
