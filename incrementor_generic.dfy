/**
 * Incrementor_Generic.cs: an incrementor that also hands out a `Func<int, int>`
 * bound to its own `Step`. The C# constructor assigns `_transformer = Step`;
 * here that binding is the initialiser of a `const` field, which Dafny
 * evaluates when the object is built, since a constructor may not assign a
 * `const` after `this` is available.
 */
module Generic {
  import opened Int32Math

  class IncrementorGeneric {
    /** `_step` */
    const step: Int32
    /** `_transformer`, the method group `Step` of this object */
    const transformer: Int32 -> Int32 := this.Step

    constructor (step: Int32)
      ensures this.step == step
      ensures forall v :: transformer(v) == Step(v)
    {
      this.step := step;
    }

    static method GetIncrementor(step: Int32) returns (inc: IncrementorGeneric)
      ensures fresh(inc) && inc.step == step
    {
      inc := new IncrementorGeneric(step);
    }

    /** `value + _step` with unchecked `int` addition. */
    function Step(value: Int32): (r: Int32)
      ensures IsUncheckedSum(r, value, step)
      ensures Fits(value as int + step as int) ==> r as int == value as int + step as int
    {
      Add(value, step)
    }

    /** The stored function: it agrees with `Step` everywhere, so it adds the step. */
    function GetTransformer(): (t: Int32 -> Int32)
      ensures forall v :: t(v) == Step(v)
      ensures forall v :: IsUncheckedSum(t(v), v, step)
    {
      transformer
    }
  }

  /**
   * A transformer taken from an incrementor that then goes out of scope still
   * adds that incrementor's step; asking twice gives the same function.
   */
  method ScopedTransformer(s: Int32, v: Int32) returns (r: Int32, t1: Int32 -> Int32, t2: Int32 -> Int32)
    ensures IsUncheckedSum(r, v, s)
    ensures t1 == t2
  {
    var transformer: Int32 -> Int32;
    {
      var inc := IncrementorGeneric.GetIncrementor(s);
      t1 := inc.GetTransformer();
      t2 := inc.GetTransformer();
      transformer := t1;
    }
    r := transformer(v);
  }

  /** The scoped test: the transformer of `GetIncrementor(3)` maps 7 to 10. */
  method GenericScopedTest() returns (r: Int32)
    ensures r == 10
  {
    var incBy3: Int32 -> Int32;
    {
      var inc := IncrementorGeneric.GetIncrementor(3);
      incBy3 := inc.GetTransformer();
    }
    r := incBy3(7);
  }
}
