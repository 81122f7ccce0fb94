/** inheritance/example6: `child` embeds `base1`, which has `say` and `walk`,
    and the empty `base2`; both methods reach `child` by promotion from `base1`. */
module Inheritance6 {
  import opened Runtime

  class Base1 {
    var color: string

    constructor (color: string)
      ensures this.color == color
    {
      this.color := color;
    }

    method Say(out: Console)
      modifies out
      ensures out.lines == old(out.lines) + ["Hi from say function"]
    {
      out.Println("Hi from say function");
    }

    /** Declared on `*base1`, not on `base2`. */
    method Walk(out: Console)
      modifies out
      ensures out.lines == old(out.lines) + ["Hi from walk function"]
    {
      out.Println("Hi from walk function");
    }
  }

  /** `base2`: no fields and no methods. */
  class Base2 {
    constructor ()
    {
    }
  }

  class Child {
    var base1: Base1
    var base2: Base2
    var style: string

    /** `&child{base1: b1, base2: b2, style: style}`: copies both embedded values. */
    constructor (b1: Base1, b2: Base2, style: string)
      ensures fresh(base1) && fresh(base2) && base1.color == b1.color && this.style == style
    {
      base1 := new Base1(b1.color);
      base2 := new Base2();
      this.style := style;
    }

    /** `c.say()`: promoted from the embedded `base1`. */
    method Say(out: Console)
      modifies out
      ensures out.lines == old(out.lines) + ["Hi from say function"]
    {
      base1.Say(out);
    }

    /** `c.walk()`: promoted from the embedded `base1`; `base2` has no `walk`. */
    method Walk(out: Console)
      modifies out
      ensures out.lines == old(out.lines) + ["Hi from walk function"]
    {
      base1.Walk(out);
    }
  }

  /** A non-nil `iBase1` value: `*base1` or, by promotion, `*child`. */
  datatype IBase1 = Base1Value(b: Base1) | ChildValue(c: Child)

  /** A non-nil `iBase2` value: `walk` is on `*base1`, so again `*base1` or `*child`. */
  datatype IBase2 = Base1Walker(b: Base1) | ChildWalker(c: Child)

  /** `check1(b)`: one call of `say`, and nothing else. */
  method Check1(i: IBase1, out: Console)
    modifies out
    ensures out.lines == old(out.lines) + ["Hi from say function"]
  {
    match i
    case Base1Value(b) => b.Say(out);
    case ChildValue(c) => c.Say(out);
  }

  /** `check2(b)`: one call of `walk`, and nothing else. */
  method Check2(i: IBase2, out: Console)
    modifies out
    ensures out.lines == old(out.lines) + ["Hi from walk function"]
  {
    match i
    case Base1Walker(b) => b.Walk(out);
    case ChildWalker(c) => c.Walk(out);
  }

  /** `main`: each method directly, then each through its interface. */
  method Run() returns (trace: seq<string>)
    ensures trace == ["Hi from say function", "Hi from walk function", "Hi from say function", "Hi from walk function"]
  {
    var out := new Console();
    var base1 := new Base1("Red");
    var base2 := new Base2();
    var child := new Child(base1, base2, "somestyle");
    child.Say(out);
    child.Walk(out);
    Check1(ChildValue(child), out);
    Check2(ChildWalker(child), out);
    trace := out.lines;
  }
}
