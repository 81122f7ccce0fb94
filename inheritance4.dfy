/** inheritance/example4: `child` embeds `base` and declares its own `clear`,
    but `base`'s `say` still calls `base`'s `clear`: embedding gives no virtual
    override. The calls below are plain, statically resolved method calls. */
module Inheritance4 {
  import opened Runtime

  class Base {
    var color: string

    constructor (color: string)
      ensures this.color == color
    {
      this.color := color;
    }

    /** `say` calls the base's own `clear`. */
    method Say(out: Console)
      modifies out
      ensures out.lines == old(out.lines) + ["Clear from base's function"]
    {
      Clear(out);
    }

    method Clear(out: Console)
      modifies out
      ensures out.lines == old(out.lines) + ["Clear from base's function"]
    {
      out.Println("Clear from base's function");
    }
  }

  class Child {
    var base: Base
    var style: string

    /** `&child{base: b, style: style}`: copies `b` into a fresh embedded `base`. */
    constructor (b: Base, style: string)
      ensures fresh(base) && base.color == b.color && this.style == style
    {
      base := new Base(b.color);
      this.style := style;
    }

    /** `c.say()`: the promoted method, run on the embedded `base`; it never
        reaches the child's `clear`. */
    method Say(out: Console)
      modifies out
      ensures out.lines == old(out.lines) + ["Clear from base's function"]
    {
      base.Say(out);
    }

    /** The child's `clear`, reached only by calling it on a child directly. */
    method Clear(out: Console)
      modifies out
      ensures out.lines == old(out.lines) + ["Clear from child's function"]
    {
      out.Println("Clear from child's function");
    }
  }

  /** A non-nil `iBase` value: the implementations of `say` are `*base` and,
      by promotion, `*child`. */
  datatype IBase = BaseValue(b: Base) | ChildValue(c: Child)

  /** `check(b)`: one call of `say` through the interface. */
  method Check(i: IBase, out: Console)
    modifies out
    ensures out.lines == old(out.lines) + ["Clear from base's function"]
  {
    match i
    case BaseValue(b) => b.Say(out);
    case ChildValue(c) => c.Say(out);
  }

  /** `main`: `child.say()` prints the base's line. */
  method Run() returns (trace: seq<string>)
    ensures trace == ["Clear from base's function"]
  {
    var out := new Console();
    var base := new Base("Red");
    var child := new Child(base, "somestyle");
    child.Say(out);
    trace := out.lines;
  }

  /** For any child, `say`, directly or through `check`, never prints the
      child's line, while calling `clear` on the child directly does. */
  method ChildSayIsNotOverridden(color: string, style: string) returns (viaSay: seq<string>, viaCheck: seq<string>, direct: seq<string>)
    ensures viaSay == viaCheck == ["Clear from base's function"]
    ensures direct == ["Clear from child's function"]
  {
    var base := new Base(color);
    var child := new Child(base, style);
    var out := new Console();
    child.Say(out);
    viaSay := out.lines;
    out := new Console();
    Check(ChildValue(child), out);
    viaCheck := out.lines;
    out := new Console();
    child.Clear(out);
    direct := out.lines;
  }
}
