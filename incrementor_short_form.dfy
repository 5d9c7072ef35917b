/**
 * Incrementor_ShortForm.cs: the same incrementor written with expression
 * bodies. The constructor sets `_step` and nothing else; `Step` only reads it.
 */
module ShortForm {
  import opened Int32Math

  class IncrementorShortForm {
    /** `_step` */
    const step: Int32

    constructor (step: Int32)
      ensures this.step == step
    {
      this.step := step;
    }

    static method GetIncrementor(step: Int32) returns (inc: IncrementorShortForm)
      ensures fresh(inc) && inc.step == step
    {
      inc := new IncrementorShortForm(step);
    }

    /** `value + _step` with unchecked `int` addition. */
    function Step(value: Int32): (r: Int32)
      ensures IsUncheckedSum(r, value, step)
      ensures Fits(value as int + step as int) ==> r as int == value as int + step as int
    {
      Add(value, step)
    }
  }

  /** Two instances do not interfere, and a repeated call agrees with the first. */
  method TwoIncrementors(s1: Int32, s2: Int32, v1: Int32, v2: Int32)
    returns (r1: Int32, r2: Int32, r1Again: Int32)
    ensures IsUncheckedSum(r1, v1, s1) && IsUncheckedSum(r2, v2, s2)
    ensures r1Again == r1
  {
    var inc1 := IncrementorShortForm.GetIncrementor(s1);
    var inc2 := IncrementorShortForm.GetIncrementor(s2);
    r1 := inc1.Step(v1);
    r2 := inc2.Step(v2);
    r1Again := inc1.Step(v1);
  }

  /** The short-form test: step 3 takes 7 to 10, step -3 takes 13 to 10. */
  method StaticFactoryTests() returns (up: Int32, down: Int32)
    ensures up == 10 && down == 10
  {
    var incBy3 := IncrementorShortForm.GetIncrementor(3);
    var decBy3 := IncrementorShortForm.GetIncrementor(-3);
    up := incBy3.Step(7);
    down := decBy3.Step(13);
  }
}
