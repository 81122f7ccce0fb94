/** abstractClass/example3: `alpha`'s `common` takes the full `iAlpha` handle
    as an explicit parameter and dispatches `work` through it. */
module AbstractClass3 {
  import opened Runtime

  class Alpha {
    var name: string

    constructor (name: string)
      ensures this.name == name
    {
      this.name := name;
    }

    /** `common(i)`: prints its line, then calls `work` on the argument `i`, not
        on the receiver, whose name it never reads. `iAlpha`'s only implementation
        here is `*beta`, so `i` is a `Beta`, and `null` is the nil interface, on
        which the call panics. */
    method Common(i: Beta?, out: Console) returns (outcome: Outcome)
      modifies out
      ensures i == null ==> outcome == NilDereference && out.lines == old(out.lines) + ["common called"]
      ensures i != null ==> outcome == Returned && out.lines == old(out.lines) + ["common called", "work called", "Name is " + i.alpha.name]
    {
      out.Println("common called");
      if i == null {
        outcome := NilDereference;
      } else {
        i.Work(out);
        outcome := Returned;
      }
    }
  }

  class Beta {
    var alpha: Alpha

    /** `&beta{alpha: a}`: copies `a` into a fresh embedded `alpha`. */
    constructor (a: Alpha)
      ensures fresh(alpha) && alpha.name == a.name
    {
      alpha := new Alpha(a.name);
    }

    /** `b.common(i)`: the promoted method, run on the embedded `alpha`. */
    method Common(i: Beta?, out: Console) returns (outcome: Outcome)
      modifies out
      ensures i == null ==> outcome == NilDereference && out.lines == old(out.lines) + ["common called"]
      ensures i != null ==> outcome == Returned && out.lines == old(out.lines) + ["common called", "work called", "Name is " + i.alpha.name]
    {
      outcome := alpha.Common(i, out);
    }

    /** `work` prints its line and the embedded `alpha`'s name. */
    method Work(out: Console)
      modifies out
      ensures out.lines == old(out.lines) + ["work called", "Name is " + alpha.name]
    {
      out.Println("work called");
      out.Println("Name is " + alpha.name);
    }
  }

  /** `main`: `b.common(b)` passes `b` as its own dispatch target. */
  method Run() returns (trace: seq<string>, outcome: Outcome)
    ensures outcome == Returned
    ensures trace == ["common called", "work called", "Name is test"]
  {
    var out := new Console();
    var a := new Alpha("test");
    var b := new Beta(a);
    assert "Name is " + b.alpha.name == "Name is test";
    outcome := b.Common(b, out);
    trace := out.lines;
  }

  /** The name printed is the argument's, whatever the receiver's name is. */
  method CommonDispatchesOnArgument(receiverName: string, argumentName: string) returns (trace: seq<string>, outcome: Outcome)
    ensures outcome == Returned
    ensures trace == ["common called", "work called", "Name is " + argumentName]
  {
    var out := new Console();
    var r := new Alpha(receiverName);
    var receiver := new Beta(r);
    var a := new Alpha(argumentName);
    var argument := new Beta(a);
    outcome := receiver.Common(argument, out);
    trace := out.lines;
  }
}
