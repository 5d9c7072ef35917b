# Step incrementors and captured variables, in Dafny

This project models a small C# collection of closure examples. Each
"incrementor" captures an integer step when it is created and afterwards maps
`value` to `value + step`. The same idea is written six ways:

- a class with a private `_step` field and a `Step` method (`Incrementor`,
  `Incrementor_ShortForm`, `Incrementor_LongForm`);
- a class that also hands out a function value bound to its own `Step`
  (`Incrementor_Generic` with `Func<int, int>`, `Incrementor_Delegated` with the
  `Transformer` delegate);
- static factories that return lambdas (`Incrementor_Anonymous`).

A console program (`LocalFunctions/Program.cs`) adds the same factory, a
local function, and `WithLocalFunctionInLoop`, where two closures read a local
`y` that a `for` loop keeps reassigning.

Modelling choices:

- C#'s `int` is the newtype `Int32Math.Int32`, and `+` is C#'s default
  unchecked addition (`Int32Math.Add`), which wraps around modulo 2^32. Every
  `Step` promises that its result is the sum modulo 2^32 (`IsUncheckedSum`, which
  fixes the result uniquely, lemma `UncheckedSumIsAdd`) and that it is the exact
  sum whenever that fits in 32 bits. No precondition is placed on the caller.
- `_step` is written only by a constructor, so it is a `const` field. `Step` is a
  function that reads no mutable state. The verifier therefore guarantees that
  `Step` changes nothing and that repeated calls agree. The `TwoIncrementors`
  methods make this explicit: they build two incrementors, use both, and call
  the first one again.
- `_transformer = Step` (a C# method-group conversion) becomes the initialiser
  `const transformer := this.Step`, which binds the function to this object.
  Dafny does not allow a constructor to assign a `const` once `this` is
  available, so the binding is written where the field is declared.
- Delegates and `Func<int, int>` are Dafny arrow values `Int32 -> Int32`. A
  transformer that outlives its incrementor is just a value that does not
  depend on the object. The `Scoped` methods take the transformer inside a
  block and apply it after the block.
- C# closures capture variables, not values. The compiler moves the captured
  locals `x` and `y` of `WithLocalFunctionInLoop` into one shared object, and
  the model does the same (`LocalFunctions.CapturedLocals`). The lambdas
  `Add_0_Lambda`, `Add_1_Lambda` and the local function `AddLocal` are Dafny
  closures with `reads` clauses on that object, so each call sees the current
  `y`. The method returns 11, not 18. The two values logged in each iteration
  are returned as a ghost sequence: 18, 7, 8, 9, 10, and lambda and local
  function agree every time. Prose about these examples sometimes describes
  every closure as taking a snapshot of its step. That holds for the
  incrementors, whose step is never reassigned. It does not hold for this loop,
  and the model follows the code.

## Model

| member | source | states |
|---|---|---|
| Int32Math.Add | Incrementor.cs:15-16 | C#'s unchecked `int` `+`: the result equals the sum modulo 2^32. It is the exact sum when that fits in 32 bits. A positive overflow gives a negative result and a negative overflow a non-negative one |
| Int32Math.UncheckedSumIsAdd | Incrementor.cs:15-16 | any 32-bit value congruent to `a + b` modulo 2^32 is `Add(a, b)`, and it is the exact sum when that fits |
| Plain.Incrementor.constructor | Incrementor.cs:12-13 | the private constructor stores its argument as the step |
| Plain.Incrementor.GetIncrementor | Incrementor.cs:9-10 | the factory returns a new object whose step is the argument |
| Plain.Incrementor.Step | Incrementor.cs:15-16 | `Step(v)` is `v + step` modulo 2^32, and exactly `v + step` when that fits |
| Plain.TwoIncrementors | ClosureTester.cs:12-16 | two incrementors built side by side each add their own step; calling the first again after the second gives the same result |
| Plain.StaticFactoryTests | ClosureTester.cs:12-16 | `GetIncrementor(3).Step(7) == 10` and `GetIncrementor(-3).Step(13) == 10` |
| ShortForm.IncrementorShortForm.constructor | Incrementor_ShortForm.cs:10-11 | the constructor stores its argument as the step |
| ShortForm.IncrementorShortForm.GetIncrementor | Incrementor_ShortForm.cs:7-8 | the factory returns a new object whose step is the argument |
| ShortForm.IncrementorShortForm.Step | Incrementor_ShortForm.cs:13-14 | `Step(v)` is `v + step` modulo 2^32, exact when it fits |
| ShortForm.TwoIncrementors | Tests_For_Evolving_Pattern.cs:12-16 | two instances each add their own step; a repeated call agrees with the first |
| ShortForm.StaticFactoryTests | Tests_For_Evolving_Pattern.cs:12-16 | step 3 takes 7 to 10; step -3 takes 13 to 10 |
| LongForm.IncrementorLongForm.constructor | Incrementor_LongForm.cs:12-15 | the constructor stores exactly the given step |
| LongForm.IncrementorLongForm.GetIncrementor | Incrementor_LongForm.cs:7-10 | the factory returns a new object whose step is the argument |
| LongForm.IncrementorLongForm.Step | Incrementor_LongForm.cs:17-20 | `Step(v)` is `v + step` modulo 2^32, exact when it fits |
| LongForm.TwoIncrementors | Tests_For_Evolving_Pattern.cs:22-26 | instances with different steps coexist without interference; a repeated call agrees with the first |
| LongForm.StaticFactoryTests | ClosureTester.cs:22-26 | `Step(7) == 10` for step 3 and `Step(13) == 10` for step -3 |
| Generic.IncrementorGeneric.constructor | Incrementor_Generic.cs:12-16 | the constructor stores the step, and the stored transformer agrees with `Step` on every input |
| Generic.IncrementorGeneric.GetIncrementor | Incrementor_Generic.cs:9-10 | the factory returns a new object whose step is the argument |
| Generic.IncrementorGeneric.Step | Incrementor_Generic.cs:18-19 | `Step(v)` is `v + step` modulo 2^32, exact when it fits |
| Generic.IncrementorGeneric.GetTransformer | Incrementor_Generic.cs:20-23 | the returned `Func<int, int>` equals `Step` on every input, so it adds the step |
| Generic.ScopedTransformer | ClosureTester.cs:57-64 | a transformer taken inside a block still adds the step after the block; two calls of `GetTransformer` return the same function |
| Generic.GenericScopedTest | Tests_For_Evolving_Pattern.cs:61-68 | the transformer of `GetIncrementor(3)` maps 7 to 10 after its incrementor left scope |
| Delegated.IncrementorDelegated.constructor | Incrementor_Delegated.cs:11-15 | the constructor stores the step, and the stored delegate agrees with `Step` on every input |
| Delegated.IncrementorDelegated.GetIncrementor | Incrementor_Delegated.cs:8-9 | the factory returns a new object whose step is the argument |
| Delegated.IncrementorDelegated.Step | Incrementor_Delegated.cs:17-18 | `Step(v)` is `v + step` modulo 2^32, exact when it fits |
| Delegated.IncrementorDelegated.GetTransformer | Incrementor_Delegated.cs:19-22 | the returned `Transformer` equals `Step` on every input, so it adds the step |
| Delegated.ScopedTransformers | Tests_For_Evolving_Pattern.cs:45-55 | delegates taken from two incrementors inside a block each keep their own step after the block |
| Delegated.DelegatedTests | Tests_For_Evolving_Pattern.cs:32-39 | `incBy3(7) == 10` and `decBy3(13) == 10` |
| Anonymous.GetIncrementor1 | Incrementor_Anonymous.cs:8-13 | the returned lambda, over a local copy of the step, maps `v` to `v + step` modulo 2^32, exact when it fits |
| Anonymous.GetIncrementor2 | Incrementor_Anonymous.cs:15-18 | the returned lambda maps `v` to `v + step` modulo 2^32, exact when it fits |
| Anonymous.GetIncrementor | Incrementor_Anonymous.cs:20-21 | the returned lambda maps `v` to `v + step` modulo 2^32, exact when it fits |
| Anonymous.FactoriesAgree | Incrementor_Anonymous.cs:8-21 | the three factories return the same value for every step and input |
| Anonymous.AnonymousTests | Tests_For_Evolving_Pattern.cs:74-80 | `GetIncrementor_2(3)(7)`, `GetIncrementor_1(2)(8)` and `GetIncrementor(1)(9)` are all 10 |
| LocalFunctions.CapturedLocals.constructor | LocalFunctions/Program.cs:78-79 | the shared cell of the captured locals starts with `x = 7` and `y = 11` |
| LocalFunctions.WithLocalFunction | LocalFunctions/Program.cs:66-74 | the local function over `x = 7` and `y = 11` returns 18 |
| LocalFunctions.GetIncrementor | LocalFunctions/Program.cs:97-98 | the returned lambda maps `v` to `v + step` modulo 2^32, exact when it fits |
| LocalFunctions.DelegateDemo | LocalFunctions/Program.cs:31-36 | `GetIncrementor(1)(10)` is 11 and `GetIncrementor(-1)(10)` is 9, as the log messages say |
| LocalFunctions.WithLocalFunctionInLoop | LocalFunctions/Program.cs:76-95 | returns 7 plus the final `y`, which is 11 and not 18. Iteration `k` logs `x + y` for the `y` current at that point: 11 before the first assignment, then `k - 1`. The lambda and the local function give the same value each time, and the logged values are 18, 7, 8, 9, 10 |

## Left out

- Logging and process set-up: the Serilog configuration, the static and default constructors of `Program`, `Environment.Exit`, `Log.CloseAndFlush` and every `Log.*` call are I/O against a library that is not part of this model. The two values `WithLocalFunctionInLoop` logs per iteration are kept as a ghost output sequence.
- `Main`: its only logic, the "playing with delegates" block, is `LocalFunctions.DelegateDemo`. The calls to `WithLocalFunction` and `WithLocalFunctionInLoop` just log their results.
- The `double` incrementors (`Inc(double)` in Test_For_Overloading_Closures.cs, `GetIncrementor(-Math.PI)` with an approximate check) depend on floating-point rounding.
- Tests_For_Final_State.cs calls a static `GetIncrementor` of `Incrementor` that returns a function and has a `double` overload. Incrementor.cs as written has neither, so that version is not modelled.
- C# overload resolution between `int` and `double` happens at compile time and has no runtime behaviour to model.
- The xUnit and FluentAssertions harness: tests appear only as the concrete scenarios above. The local `int` factories defined inside test files duplicate the core factories.
- Object lifetime and garbage collection: a transformer that outlives its incrementor is a value that does not depend on the object; reclamation is not modelled.
- Privacy: the C# constructors are private and the fields `_step`, `_transformer` private; Dafny has no access modifiers here, so this is not enforced.
