/**
 * Incrementor.cs: an object that captures a step when it is built and adds it
 * to every value passed to `Step`. The step is written only by the constructor,
 * so it is a `const` field and `Step` reads nothing that can change.
 */
module Plain {
  import opened Int32Math

  class Incrementor {
    /** `_step` */
    const step: Int32

    /** The private constructor: stores its argument. */
    constructor (step: Int32)
      ensures this.step == step
    {
      this.step := step;
    }

    /** The static factory: a new object that holds `step`. */
    static method GetIncrementor(step: Int32) returns (inc: Incrementor)
      ensures fresh(inc) && inc.step == step
    {
      inc := new Incrementor(step);
    }

    /** `value + _step` with unchecked `int` addition. */
    function Step(value: Int32): (r: Int32)
      ensures IsUncheckedSum(r, value, step)
      ensures Fits(value as int + step as int) ==> r as int == value as int + step as int
    {
      Add(value, step)
    }
  }

  /**
   * Two incrementors created side by side keep their own steps: each adds its
   * own step, and asking the first again after using the second gives the
   * same answer as before.
   */
  method TwoIncrementors(s1: Int32, s2: Int32, v1: Int32, v2: Int32)
    returns (r1: Int32, r2: Int32, r1Again: Int32)
    ensures IsUncheckedSum(r1, v1, s1) && IsUncheckedSum(r2, v2, s2)
    ensures r1Again == r1
  {
    var inc1 := Incrementor.GetIncrementor(s1);
    var inc2 := Incrementor.GetIncrementor(s2);
    r1 := inc1.Step(v1);
    r2 := inc2.Step(v2);
    r1Again := inc1.Step(v1);
  }

  /** The factory test: step 3 takes 7 to 10, step -3 takes 13 to 10. */
  method StaticFactoryTests() returns (up: Int32, down: Int32)
    ensures up == 10 && down == 10
  {
    var incBy3 := Incrementor.GetIncrementor(3);
    var decBy3 := Incrementor.GetIncrementor(-3);
    up := incBy3.Step(7);
    down := decBy3.Step(13);
  }
}
