/** abstractClass/example2: `alpha` holds a function-valued field `work` that
    its `common` calls, and `main` binds `beta`'s own `work` into it. */
module AbstractClass2 {
  import opened Runtime

  /** A `func()` value this program can store in `alpha.work`: the method value
      `b.work`, bound to the beta `receiver`. */
  datatype Func = BetaWork(receiver: Beta)

  /** The lines a stored function prints when called, read at call time. */
  ghost function Output(f: Func): seq<string>
    reads f.receiver, f.receiver.alpha
  {
    ["work called", "name is " + f.receiver.alpha.name]
  }

  /** Calls a `func()` value. */
  method Call(f: Func, out: Console)
    modifies out
    ensures out.lines == old(out.lines) + Output(f)
  {
    match f
    case BetaWork(b) => b.Work(out);
  }

  class Alpha {
    var name: string
    /** The overridable slot; `None` is Go's nil `func`. */
    var work: Option<Func>

    /** `alpha{name: name}`: the `work` field starts out nil. */
    constructor (name: string)
      ensures this.name == name && work == None
    {
      this.name := name;
      work := None;
    }

    /** `common` prints its line and then calls whatever `work` holds now.
        With `work` nil the call panics after the line: there is no guard. */
    method Common(out: Console) returns (outcome: Outcome)
      modifies out
      ensures work == None ==> outcome == NilDereference && out.lines == old(out.lines) + ["common called"]
      ensures work != None ==> outcome == Returned && out.lines == old(out.lines) + ["common called"] + Output(work.value)
    {
      out.Println("common called");
      match work
      case None =>
        outcome := NilDereference;
      case Some(f) =>
        Call(f, out);
        outcome := Returned;
    }
  }

  class Beta {
    var alpha: Alpha

    /** `&beta{alpha: a}`: copies `a`, `work` field included, into a fresh embedded `alpha`. */
    constructor (a: Alpha)
      ensures fresh(alpha) && alpha.name == a.name && alpha.work == a.work
    {
      var copy := new Alpha(a.name);
      copy.work := a.work;
      alpha := copy;
    }

    /** `b.common()`: the promoted method, run on the embedded `alpha`. */
    method Common(out: Console) returns (outcome: Outcome)
      modifies out
      ensures alpha.work == None ==> outcome == NilDereference && out.lines == old(out.lines) + ["common called"]
      ensures alpha.work != None ==> outcome == Returned && out.lines == old(out.lines) + ["common called"] + Output(alpha.work.value)
    {
      outcome := alpha.Common(out);
    }

    /** `work` prints its line and the embedded `alpha`'s name. */
    method Work(out: Console)
      modifies out
      ensures out.lines == old(out.lines) + ["work called", "name is " + alpha.name]
    {
      out.Println("work called");
      out.Println("name is " + alpha.name);
    }
  }

  /** `b.alpha.work = b.work`: binds `b`'s own `work` into its embedded slot
      and changes nothing else. */
  method BindWork(b: Beta)
    modifies b.alpha
    ensures b.alpha.work == Some(BetaWork(b))
    ensures b.alpha.name == old(b.alpha.name)
  {
    b.alpha.work := Some(BetaWork(b));
  }

  /** `main`: after the binding, `common` reaches `beta`'s `work`. The original
      `a` is a separate copy and keeps its nil `work`. */
  method Run() returns (trace: seq<string>, outcome: Outcome)
    ensures outcome == Returned
    ensures trace == ["common called", "work called", "name is test"]
  {
    var out := new Console();
    var a := new Alpha("test");
    var b := new Beta(a);
    BindWork(b);
    assert a.work == None;
    assert "name is " + b.alpha.name == "name is test";
    outcome := b.Common(out);
    trace := out.lines;
  }

  /** Without the binding, `common` prints its line and then panics on the nil `work`. */
  method CommonWithoutBinding(name: string) returns (trace: seq<string>, outcome: Outcome)
    ensures outcome == NilDereference
    ensures trace == ["common called"]
  {
    var out := new Console();
    var a := new Alpha(name);
    var b := new Beta(a);
    outcome := b.Common(out);
    trace := out.lines;
  }

  /** The bound `work` reads the name when it runs: renaming after the binding
      shows in the output. */
  method BindingReadsNameAtCallTime(before: string, after: string) returns (trace: seq<string>, outcome: Outcome)
    ensures outcome == Returned
    ensures trace == ["common called", "work called", "name is " + after]
  {
    var out := new Console();
    var a := new Alpha(before);
    var b := new Beta(a);
    BindWork(b);
    b.alpha.name := after;
    outcome := b.Common(out);
    trace := out.lines;
  }
}
