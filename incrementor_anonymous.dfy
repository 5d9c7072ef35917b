/**
 * Incrementor_Anonymous.cs: three static factories that return a lambda
 * closing over the step. None of them has any state beyond the captured step,
 * which is never reassigned, so all three are functions returning functions.
 */
module Anonymous {
  import opened Int32Math

  /** Copies `step` into a local `_step` first and captures the copy. */
  function GetIncrementor1(step: Int32): (f: Int32 -> Int32)
    ensures forall v :: IsUncheckedSum(f(v), v, step)
    ensures forall v :: Fits(v as int + step as int) ==> f(v) as int == v as int + step as int
  {
    var step' := step;
    x => Add(x, step')
  }

  /** Captures the parameter directly, in a block body. */
  function GetIncrementor2(step: Int32): (f: Int32 -> Int32)
    ensures forall v :: IsUncheckedSum(f(v), v, step)
    ensures forall v :: Fits(v as int + step as int) ==> f(v) as int == v as int + step as int
  {
    x => Add(x, step)
  }

  /** Captures the parameter directly, in an expression body. */
  function GetIncrementor(step: Int32): (f: Int32 -> Int32)
    ensures forall v :: IsUncheckedSum(f(v), v, step)
    ensures forall v :: Fits(v as int + step as int) ==> f(v) as int == v as int + step as int
  {
    x => Add(x, step)
  }

  /**
   * The three factories are extensionally equal. The proof uses only their
   * contracts: any two results that are both the unchecked sum coincide.
   */
  lemma FactoriesAgree(step: Int32, v: Int32)
    ensures GetIncrementor1(step)(v) == GetIncrementor2(step)(v) == GetIncrementor(step)(v)
  {
    var a, b, c := GetIncrementor1(step)(v), GetIncrementor2(step)(v), GetIncrementor(step)(v);
    CongruentUnique(a, b, v as int + step as int);
    CongruentUnique(b, c, v as int + step as int);
  }

  /** The anonymous test: `GetIncrementor2(3)(7)`, `GetIncrementor1(2)(8)` and `GetIncrementor(1)(9)` are 10. */
  method AnonymousTests() returns (r3: Int32, r2: Int32, r1: Int32)
    ensures r3 == 10 && r2 == 10 && r1 == 10
  {
    var incBy3 := GetIncrementor2(3);
    var incBy2 := GetIncrementor1(2);
    var incBy1 := GetIncrementor(1);
    r3 := incBy3(7);
    r2 := incBy2(8);
    r1 := incBy1(9);
  }
}
