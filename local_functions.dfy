/**
 * LocalFunctions/Program.cs: a local function, a lambda factory, and two
 * lambdas declared before a loop that keeps reassigning a variable they read.
 *
 * C# lambdas and local functions capture variables, not values: the compiler
 * moves every captured local into one shared object, and each closure reads
 * that object's field when it is called. `CapturedLocals` is that object, and
 * the closures below read it through their `reads` clauses, so a lambda called
 * after `y` is reassigned sees the new `y`.
 */
module LocalFunctions {
  import opened Int32Math

  /** The locals `x` and `y` of `WithLocalFunctionInLoop`, shared by its closures. */
  class CapturedLocals {
    var x: Int32
    var y: Int32

    constructor (x: Int32, y: Int32)
      ensures this.x == x && this.y == y
    {
      this.x := x;
      this.y := y;
    }
  }

  /** A local function `Add() => x + y` over `x = 7`, `y = 11`, called once. */
  function WithLocalFunction(): (r: Int32)
    ensures r as int == 7 + 11
  {
    var x: Int32 := 7;
    var y: Int32 := 11;
    var add := () => Add(x, y);
    add()
  }

  /** `x => x + step` */
  function GetIncrementor(step: Int32): (f: Int32 -> Int32)
    ensures forall v :: IsUncheckedSum(f(v), v, step)
    ensures forall v :: Fits(v as int + step as int) ==> f(v) as int == v as int + step as int
  {
    x => Add(x, step)
  }

  /** The "playing with delegates" block of `Main`: up is 11, down is 9. */
  method DelegateDemo() returns (up: Int32, down: Int32)
    ensures up == 11 && down == 9
  {
    var inc := GetIncrementor(1);
    var dec := GetIncrementor(-1);
    up := inc(10);
    down := dec(10);
  }

  /**
   * The captured `y` when the body of iteration `i` starts: the initial 11
   * for the first iteration, and afterwards the index the previous iteration
   * stored; `i == 5` is the value after the loop.
   */
  function CapturedYAt(i: nat): Int32
    requires i <= 5
  {
    if i == 0 then 11 else (i - 1) as Int32
  }

  /**
   * `WithLocalFunctionInLoop`. `log` holds, per iteration, the two values the
   * loop logs: `Add_0_Lambda()` and `AddLocal()`, which is `Add_1_Lambda(y)`.
   * Because both closures read the shared `y`, the lambda's value follows the
   * loop, and the method returns 7 + 4 = 11 rather than the 18 it had when it
   * was created.
   */
  method WithLocalFunctionInLoop() returns (r: Int32, ghost log: seq<(Int32, Int32)>)
    ensures r == Add(7, CapturedYAt(5)) && r == 11
    ensures |log| == 5
    ensures forall k :: 0 <= k < 5 ==> log[k] == (Add(7, CapturedYAt(k)), Add(CapturedYAt(k), 7))
    ensures forall k :: 0 <= k < |log| ==> log[k].0 == log[k].1
    ensures log == [(18, 18), (7, 7), (8, 8), (9, 9), (10, 10)]
  {
    var env := new CapturedLocals(7, 11);
    var add0Lambda := () reads env => Add(env.x, env.y);
    var add1Lambda := (z: Int32) reads env => Add(z, env.x);
    var addLocal := () reads env => add1Lambda(env.y);
    log := [];
    for i := 0 to 5
      invariant env.x == 7 && env.y == CapturedYAt(i)
      invariant |log| == i
      invariant forall k :: 0 <= k < i ==> log[k] == (Add(7, CapturedYAt(k)), Add(CapturedYAt(k), 7))
    {
      log := log + [(add0Lambda(), addLocal())];
      env.y := i as Int32;
    }
    r := add0Lambda();
  }
}
