/** abstractClass/example1: `beta` embeds `alpha` and reaches `alpha`'s
    `common` by promotion, after printing its own lines. */
module AbstractClass1 {
  import opened Runtime

  /** The "abstract" part: a name and the shared `common` behaviour. */
  class Alpha {
    var name: string

    constructor (name: string)
      ensures this.name == name
    {
      this.name := name;
    }

    /** `common` prints one fixed line and calls nothing else. */
    method Common(out: Console)
      modifies out
      ensures out.lines == old(out.lines) + ["common called"]
    {
      out.Println("common called");
    }
  }

  /** The "concrete" type. Go embeds `alpha` by value: `beta` owns a copy. */
  class Beta {
    var alpha: Alpha

    /** `&beta{alpha: a}`: copies `a` into a fresh embedded `alpha`. */
    constructor (a: Alpha)
      ensures fresh(alpha) && alpha.name == a.name
    {
      alpha := new Alpha(a.name);
    }

    /** `b.common()`: the promoted method, run on the embedded `alpha`. */
    method Common(out: Console)
      modifies out
      ensures out.lines == old(out.lines) + ["common called"]
    {
      alpha.Common(out);
    }

    /** `work` prints its own two lines, the second naming the embedded
        `alpha`'s `name`, and then `common`'s line. */
    method Work(out: Console)
      modifies out
      ensures out.lines == old(out.lines) + ["work called", "name is " + alpha.name, "common called"]
    {
      out.Println("work called");
      out.Println("name is " + alpha.name);
      Common(out);
    }
  }

  /** `main`: a beta built around an alpha named "test" does its work. */
  method Run() returns (trace: seq<string>)
    ensures trace == ["work called", "name is test", "common called"]
  {
    var out := new Console();
    var a := new Alpha("test");
    var b := new Beta(a);
    assert "name is " + b.alpha.name == "name is test";
    b.Work(out);
    trace := out.lines;
  }

  /** Whatever the name, `work` prints it between its own line and `common`'s. */
  method WorkPrintsEmbeddedName(name: string) returns (trace: seq<string>)
    ensures trace == ["work called", "name is " + name, "common called"]
  {
    var out := new Console();
    var a := new Alpha(name);
    var b := new Beta(a);
    b.Work(out);
    trace := out.lines;
  }
}
