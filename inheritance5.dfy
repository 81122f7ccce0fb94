/** inheritance/example5: `base` holds a function-valued field `clear` that its
    `say` calls; `main` stores a closure in it before embedding `base` in `child`. */
module Inheritance5 {
  import opened Runtime

  /** A `func()` value this program can store in `base.clear`: a closure
      whose whole effect is to print `line`. */
  datatype Func = PrintlnClosure(line: string)

  /** Calls a `func()` value. */
  method Call(f: Func, out: Console)
    modifies out
    ensures out.lines == old(out.lines) + [f.line]
  {
    match f
    case PrintlnClosure(line) => out.Println(line);
  }

  class Base {
    var color: string
    /** The overridable slot; `None` is Go's nil `func`. */
    var clear: Option<Func>

    constructor (color: string, clear: Option<Func>)
      ensures this.color == color && this.clear == clear
    {
      this.color := color;
      this.clear := clear;
    }

    /** `say` calls whatever `clear` holds; with `clear` nil it panics before
        printing anything: there is no guard. */
    method Say(out: Console) returns (outcome: Outcome)
      modifies out
      ensures clear == None ==> outcome == NilDereference && out.lines == old(out.lines)
      ensures clear != None ==> outcome == Returned && out.lines == old(out.lines) + [clear.value.line]
    {
      match clear
      case None =>
        outcome := NilDereference;
      case Some(f) =>
        Call(f, out);
        outcome := Returned;
    }
  }

  class Child {
    var base: Base
    var style: string

    /** `&child{base: b, style: style}`: copies `b`, `clear` binding included,
        into a fresh embedded `base`. */
    constructor (b: Base, style: string)
      ensures fresh(base) && base.color == b.color && base.clear == b.clear && this.style == style
    {
      base := new Base(b.color, b.clear);
      this.style := style;
    }

    /** `c.say()`: the promoted method, run on the embedded `base`. */
    method Say(out: Console) returns (outcome: Outcome)
      modifies out
      ensures base.clear == None ==> outcome == NilDereference && out.lines == old(out.lines)
      ensures base.clear != None ==> outcome == Returned && out.lines == old(out.lines) + [base.clear.value.line]
    {
      outcome := base.Say(out);
    }
  }

  /** A non-nil `iBase` value: `*base` or, by promotion, `*child`. */
  datatype IBase = BaseValue(b: Base) | ChildValue(c: Child)

  /** The `clear` slot `say` consults for an `iBase` value. */
  ghost function ClearOf(i: IBase): Option<Func>
    reads if i.BaseValue? then {i.b} else {i.c, i.c.base}
  {
    match i
    case BaseValue(b) => b.clear
    case ChildValue(c) => c.base.clear
  }

  /** `check(b)`: one call of `say` through the interface. */
  method Check(i: IBase, out: Console) returns (outcome: Outcome)
    modifies out
    ensures ClearOf(i) == None ==> outcome == NilDereference && out.lines == old(out.lines)
    ensures ClearOf(i) != None ==> outcome == Returned && out.lines == old(out.lines) + [ClearOf(i).value.line]
  {
    match i
    case BaseValue(b) => outcome := b.Say(out);
    case ChildValue(c) => outcome := c.Say(out);
  }

  /** `main`: the closure stored in the base before embedding is what the
      child's `say` runs. */
  method Run() returns (trace: seq<string>, outcome: Outcome)
    ensures outcome == Returned
    ensures trace == ["Clear from child's function"]
  {
    var out := new Console();
    var base := new Base("Red", Some(PrintlnClosure("Clear from child's function")));
    var child := new Child(base, "somestyle");
    outcome := child.Say(out);
    trace := out.lines;
  }

  /** Whatever closure the base holds survives the copy into the child and is
      what `say` runs, directly or through `check`. */
  method CopyKeepsBinding(line: string) returns (viaSay: seq<string>, sayOutcome: Outcome, viaCheck: seq<string>, checkOutcome: Outcome)
    ensures sayOutcome == checkOutcome == Returned
    ensures viaSay == viaCheck == [line]
  {
    var base := new Base("Red", Some(PrintlnClosure(line)));
    var child := new Child(base, "somestyle");
    var out := new Console();
    sayOutcome := child.Say(out);
    viaSay := out.lines;
    out := new Console();
    checkOutcome := Check(ChildValue(child), out);
    viaCheck := out.lines;
  }

  /** With `clear` left nil, `say` on the child panics and prints nothing. */
  method SayWithoutClear(color: string, style: string) returns (trace: seq<string>, outcome: Outcome)
    ensures outcome == NilDereference
    ensures trace == []
  {
    var base := new Base(color, None);
    var child := new Child(base, style);
    var out := new Console();
    outcome := child.Say(out);
    trace := out.lines;
  }
}
