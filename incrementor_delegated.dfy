/**
 * Incrementor_Delegated.cs: an incrementor that hands out a `Transformer`
 * delegate bound to its own `Step`. Both fields are set when the object is
 * built and never change afterwards, so both are `const`.
 */
module Delegated {
  import opened Int32Math

  /** `delegate int Transformer(int value)` */
  type Transformer = Int32 -> Int32

  class IncrementorDelegated {
    /** `_step` */
    const step: Int32
    /** `_transformer`, the method group `Step` of this object */
    const transformer: Transformer := this.Step

    constructor (step: Int32)
      ensures this.step == step
      ensures forall v :: transformer(v) == Step(v)
    {
      this.step := step;
    }

    static method GetIncrementor(step: Int32) returns (inc: IncrementorDelegated)
      ensures fresh(inc) && inc.step == step
    {
      inc := new IncrementorDelegated(step);
    }

    /** `value + _step` with unchecked `int` addition. */
    function Step(value: Int32): (r: Int32)
      ensures IsUncheckedSum(r, value, step)
      ensures Fits(value as int + step as int) ==> r as int == value as int + step as int
    {
      Add(value, step)
    }

    /** The stored delegate: it agrees with `Step`, so it adds the step. */
    function GetTransformer(): (t: Transformer)
      ensures forall v :: t(v) == Step(v)
      ensures forall v :: IsUncheckedSum(t(v), v, step)
    {
      transformer
    }
  }

  /**
   * Delegates taken from two incrementors inside a block keep their own steps
   * after both incrementors have gone out of scope.
   */
  method ScopedTransformers(s1: Int32, s2: Int32, v1: Int32, v2: Int32) returns (r1: Int32, r2: Int32)
    ensures IsUncheckedSum(r1, v1, s1) && IsUncheckedSum(r2, v2, s2)
  {
    var t1: Transformer;
    var t2: Transformer;
    {
      var inc1 := IncrementorDelegated.GetIncrementor(s1);
      var inc2 := IncrementorDelegated.GetIncrementor(s2);
      t1 := inc1.GetTransformer();
      t2 := inc2.GetTransformer();
    }
    r1 := t1(v1);
    r2 := t2(v2);
  }

  /** The delegated tests: `incBy3(7) == 10` and `decBy3(13) == 10`. */
  method DelegatedTests() returns (up: Int32, down: Int32)
    ensures up == 10 && down == 10
  {
    var inc := IncrementorDelegated.GetIncrementor(3);
    var dec := IncrementorDelegated.GetIncrementor(-3);
    var incBy3 := inc.GetTransformer();
    var decBy3 := dec.GetTransformer();
    up := incBy3(7);
    down := decBy3(13);
  }
}
