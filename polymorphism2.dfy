/** polymorphism/example2: a variadic method on an empty struct. */
module Polymorphism2 {
  import Sums
  import Decimal
  import opened Runtime

  /** `maths`: a struct with no fields, used only as a receiver. */
  class Maths {
    constructor ()
    {
    }

    /** `add(numbers...)`: accumulates the arguments left to right. It reads no
        field of the receiver and changes nothing (no `modifies` clause). */
    method Add(numbers: seq<int>) returns (result: int)
      ensures result == Sums.Sum(numbers)
      ensures numbers == [] ==> result == 0
    {
      result := 0;
      for i := 0 to |numbers|
        invariant result == Sums.Sum(numbers[..i])
      {
        assert numbers[..i + 1] == numbers[..i] + [numbers[i]];
        Sums.SumAppend(numbers[..i], numbers[i]);
        result := result + numbers[i];
      }
      assert numbers[..|numbers|] == numbers;
    }
  }

  /** `main`: `add(2, 3)` and `add(2, 3, 4)`. */
  method Run() returns (trace: seq<string>)
    ensures trace == ["Result: 5", "Result: 9"]
  {
    var out := new Console();
    var m := new Maths();
    var r := m.Add([2, 3]);
    assert Sums.Sum([2, 3]) == 5 by {
      assert [2, 3][1..] == [3];
      assert [3][1..] == [];
    }
    var line := "Result: " + Decimal.FormatInt(r);
    assert line == "Result: 5";
    out.Println(line);
    r := m.Add([2, 3, 4]);
    assert Sums.Sum([2, 3, 4]) == 9 by {
      assert [2, 3, 4][1..] == [3, 4];
      assert [3, 4][1..] == [4];
      assert [4][1..] == [];
    }
    line := "Result: " + Decimal.FormatInt(r);
    assert line == "Result: 9";
    out.Println(line);
    trace := out.lines;
  }
}
