# oop-go in Dafny

A model of the runnable teaching programs of the `oop-go` repository. Each one shows how Go, which has no classes, imitates an object-oriented idiom:

- **Polymorphic aggregation** (`polymorphism/example3`): a slice of `taxSystem` interface values (`indianTax`, `singaporeTax`, `usaTax`) is summed by calling `calculateTax` on each element. Each variant takes `income * taxPercentage / 100` with Go's truncating division.
- **Variadic accumulation** (`polymorphism/example2`): `maths.add(numbers...)` sums its arguments.
- **Method resolution through embedding** (`abstractClass/example1..3`, `inheritance/example4..6`). Each program decides which function runs when a method is called on a struct that embeds another:
  - a method promoted from the embedded struct;
  - a function-valued field that the base calls;
  - an explicit self parameter;
  - a base method whose call to `clear` is not virtual.

Modelling choices:

- Output: everything a program prints is a `Runtime.Console` object. Its field `lines` is the ordered list of printed lines, without their newlines. Each `fmt.Println`, and each `fmt.Printf` whose format ends in `\n`, appends one line.
- Dispatch: every method that prints to a console it is given is a Dafny `method` with `modifies out`. Its `ensures` gives the exact lines it appends.
- Embedding: a struct embedded by value is a field holding a fresh copy of the base object. A promoted method is an explicit forwarding method on the embedding class. All calls are static Dafny method calls on classes, so nothing is virtual unless the program routes it through a field or a parameter.
- Function fields: a `func()` field is an `Option` of a small closure datatype. `Func` names the function values the program can store: a bound method value `b.work`, or a closure that prints one line.
- Interfaces:
  - In `inheritance/example4..6`, a non-nil interface value is a datatype with one case per implementing pointer type, holding the object.
  - In `abstractClass/example3`, `iAlpha` has the single implementation `*beta`, so it is a `Beta?`, and `null` is the nil interface.
  - In `polymorphism/example3`, the `taxSystem` elements are the cases of the datatype `TaxSystem`. Each case holds the fields by value, since nothing changes them.
- Panics: calling a nil `func` or a nil interface panics in Go. The model returns the outcome `NilDereference` instead. Nothing is printed after the panic.
- Entry points: each `main` becomes a method `Run` that returns the trace. Further methods state the same trace for arbitrary names, colours or closures.
- Integers: Go's `int` is an unbounded `int`. Go's truncating `/` is written out as `Polymorphism3.GoDiv`.

`alpha.work` and `base.clear` have no default value: they start out nil, and calling them panics (`NilDereference`).

## Model

| member | source | states |
|---|---|---|
| `Runtime.Console.Println` | abstractClass/example1/program1.go:17 | printing a line appends exactly that line to the trace and changes nothing else |
| `Decimal.FormatNat` | polymorphism/example2/program2.go:19-20 | `%d` of a non-negative value: non-empty decimal digits with no leading zero, whose value is the number printed |
| `Decimal.FormatInt` | polymorphism/example3/program3.go:55 | `%d`: a '-' exactly when the value is negative, followed by decimal digits with no leading zero whose value is the magnitude |
| `Sums.SumAppend` | polymorphism/example2/program2.go:10-12 | append law: adding one more element at the end adds its value to the sum (the step of a left-to-right loop) |
| `Polymorphism3.GoDiv` | polymorphism/example3/program3.go:15 | Go's `/` truncates toward zero: for a non-negative dividend the remainder is in [0, d), for a negative one in (-d, 0] |
| `Polymorphism3.CalculateTax` | polymorphism/example3/program3.go:14-36 | each variant's `calculateTax` is `income * taxPercentage / 100` truncated toward zero: for a non-negative product the remainder `product - 100 * tax` is in [0, 100), for a negative one `100 * tax - product` is in [0, 100) |
| `Polymorphism3.TaxWithinIncome` | polymorphism/example3/program3.go:14-36 | for every variant, a non-negative income and a rate in [0, 100] give a tax between 0 and the income |
| `Polymorphism3.SameFormula` | polymorphism/example3/program3.go:14-36 | the three variants compute the same tax from equal fields |
| `Polymorphism3.TotalTaxAppend` | polymorphism/example3/program3.go:60-62 | append law: one more element adds its own tax to the total |
| `Polymorphism3.TotalTaxBounds` | polymorphism/example3/program3.go:58-64 | with valid records, 0 <= total tax <= total income |
| `Polymorphism3.CalculateTotalTax` | polymorphism/example3/program3.go:58-64 | the loop returns the sum of the elements' taxes, accumulated front to back (invariant on each prefix), and 0 for an empty slice; it only reads the records |
| `Polymorphism3.ScenarioTotal` | polymorphism/example3/program3.go:40-53 | the three taxes of `main` are 300, 200 and 200, and the total is 700 |
| `Polymorphism3.Run` | polymorphism/example3/program3.go:39-56 | `main` prints exactly `Total Tax is 700` |
| `Polymorphism2.Maths.Add` | polymorphism/example2/program2.go:8-14 | returns the sum of the arguments, accumulated left to right, and 0 with no arguments; it neither reads nor changes the receiver |
| `Polymorphism2.Run` | polymorphism/example2/program2.go:16-21 | `add(2, 3)` is 5 and `add(2, 3, 4)` is 9: the trace is `Result: 5`, `Result: 9` |
| `AbstractClass1.Alpha.constructor` | abstractClass/example1/program1.go:32-34 | the alpha carries the given name |
| `AbstractClass1.Alpha.Common` | abstractClass/example1/program1.go:16-18 | `common` appends exactly `common called` and calls nothing else |
| `AbstractClass1.Beta.constructor` | abstractClass/example1/program1.go:35-37 | the embedded alpha is a fresh copy with the same name |
| `AbstractClass1.Beta.Common` | abstractClass/example1/program1.go:21-23 | the promoted `common` on a beta prints the alpha's line |
| `AbstractClass1.Beta.Work` | abstractClass/example1/program1.go:25-29 | `work called`, then `name is ` + the embedded alpha's name, then `common called`, in that order |
| `AbstractClass1.Run` | abstractClass/example1/program1.go:31-39 | the trace is exactly `work called`, `name is test`, `common called` |
| `AbstractClass1.WorkPrintsEmbeddedName` | abstractClass/example1/program1.go:25-37 | for any name given to the alpha, `work` prints that name between its own line and `common`'s |
| `AbstractClass2.Call` | abstractClass/example2/program2.go:19 | calling the method value `b.work` prints beta's two lines, reading the name at call time |
| `AbstractClass2.Alpha.constructor` | abstractClass/example2/program2.go:33-35 | a fresh alpha has the name and a nil `work` field |
| `AbstractClass2.Alpha.Common` | abstractClass/example2/program2.go:17-20 | prints `common called`, then runs the function currently in `work`; with `work` nil it panics after the line |
| `AbstractClass2.Beta.constructor` | abstractClass/example2/program2.go:36-38 | the embedded alpha is a fresh copy: same name and same `work` binding |
| `AbstractClass2.Beta.Common` | abstractClass/example2/program2.go:23-25 | the promoted `common` behaves as the embedded alpha's, both with `work` nil and with it bound |
| `AbstractClass2.Beta.Work` | abstractClass/example2/program2.go:27-30 | `work called`, then `name is ` + the embedded name |
| `AbstractClass2.BindWork` | abstractClass/example2/program2.go:39 | `b.alpha.work = b.work` binds beta's `work` and leaves `name` unchanged |
| `AbstractClass2.Run` | abstractClass/example2/program2.go:32-41 | after the binding, `b.common()` returns normally with trace `common called`, `work called`, `name is test` |
| `AbstractClass2.CommonWithoutBinding` | abstractClass/example2/program2.go:12-20 | with `work` never assigned, `common` prints only `common called` and then panics |
| `AbstractClass2.BindingReadsNameAtCallTime` | abstractClass/example2/program2.go:27-39 | the bound method value reads the name when it runs, not when it is bound, and the call returns normally |
| `AbstractClass3.Alpha.constructor` | abstractClass/example3/program3.go:32-34 | the alpha carries the given name |
| `AbstractClass3.Alpha.Common` | abstractClass/example3/program3.go:16-19 | prints `common called`, then the argument's `work` lines (`Name is ` + the argument's name); the receiver's name is never read; a nil argument panics after the first line |
| `AbstractClass3.Beta.constructor` | abstractClass/example3/program3.go:35-37 | the embedded alpha is a fresh copy with the same name |
| `AbstractClass3.Beta.Common` | abstractClass/example3/program3.go:22-24 | the promoted `common` dispatches on its argument exactly as alpha's does |
| `AbstractClass3.Beta.Work` | abstractClass/example3/program3.go:26-29 | `work called`, then `Name is ` + the embedded name |
| `AbstractClass3.Run` | abstractClass/example3/program3.go:31-39 | `b.common(b)` returns normally with trace `common called`, `work called`, `Name is test` |
| `AbstractClass3.CommonDispatchesOnArgument` | abstractClass/example3/program3.go:16-29 | for any receiver and argument names, the call returns normally and only the argument's name is printed |
| `Inheritance4.Base.constructor` | inheritance/example4/program4.go:35 | the base carries the given colour |
| `Inheritance4.Base.Say` | inheritance/example4/program4.go:13-15 | `say` calls the base's own `clear`: one line, `Clear from base's function` |
| `Inheritance4.Base.Clear` | inheritance/example4/program4.go:17-19 | the base's `clear` prints `Clear from base's function` |
| `Inheritance4.Child.constructor` | inheritance/example4/program4.go:36-39 | the embedded base is a fresh copy with the same colour; the style is set |
| `Inheritance4.Child.Say` | inheritance/example4/program4.go:21-24 | the promoted `say` on a child prints the base's line, not the child's |
| `Inheritance4.Child.Clear` | inheritance/example4/program4.go:26-28 | the child's own `clear` prints `Clear from child's function` |
| `Inheritance4.Check` | inheritance/example4/program4.go:30-32 | `check` calls `say` once, which prints the base's line for a base and for a child alike |
| `Inheritance4.Run` | inheritance/example4/program4.go:34-41 | the trace is exactly `Clear from base's function` |
| `Inheritance4.ChildSayIsNotOverridden` | inheritance/example4/program4.go:13-32 | for any child, `say` and `check` never print the child's line; only a direct call of the child's `clear` does |
| `Inheritance5.Call` | inheritance/example5/program5.go:30-32 | calling the closure prints its one line |
| `Inheritance5.Base.constructor` | inheritance/example5/program5.go:28-33 | the base carries the colour and the `clear` binding it was given |
| `Inheritance5.Base.Say` | inheritance/example5/program5.go:14-16 | `say` runs whatever function `clear` holds; with `clear` nil it panics and prints nothing |
| `Inheritance5.Child.constructor` | inheritance/example5/program5.go:34-37 | copying the base into the child keeps its colour and its `clear` binding |
| `Inheritance5.Child.Say` | inheritance/example5/program5.go:18-21 | the promoted `say` runs the embedded base's `clear` binding |
| `Inheritance5.Check` | inheritance/example5/program5.go:23-25 | `check` calls `say` once through the interface, for a base or a child |
| `Inheritance5.Run` | inheritance/example5/program5.go:27-39 | returns normally with trace exactly `Clear from child's function` |
| `Inheritance5.CopyKeepsBinding` | inheritance/example5/program5.go:27-38 | for any closure line, the child's `say`, direct or through `check`, returns normally and prints that line |
| `Inheritance5.SayWithoutClear` | inheritance/example5/program5.go:9-16 | with `clear` nil, `say` panics and prints nothing |
| `Inheritance6.Base1.constructor` | inheritance/example6/program6.go:43-45 | base1 carries the given colour |
| `Inheritance6.Base1.Say` | inheritance/example6/program6.go:17-19 | `say` prints `Hi from say function` |
| `Inheritance6.Base1.Walk` | inheritance/example6/program6.go:24-26 | `walk`, declared on `*base1`, prints `Hi from walk function` |
| `Inheritance6.Child.constructor` | inheritance/example6/program6.go:47-51 | both embedded values are fresh copies; base1 keeps its colour |
| `Inheritance6.Child.Say` | inheritance/example6/program6.go:28-32 | the child's `say` is base1's |
| `Inheritance6.Child.Walk` | inheritance/example6/program6.go:28-32 | the child's `walk` is base1's; base2 contributes nothing |
| `Inheritance6.Check1` | inheritance/example6/program6.go:34-36 | `check1` calls only `say`, once |
| `Inheritance6.Check2` | inheritance/example6/program6.go:38-40 | `check2` calls only `walk`, once |
| `Inheritance6.Run` | inheritance/example6/program6.go:42-56 | the trace is `Hi from say function`, `Hi from walk function`, `Hi from say function`, `Hi from walk function` |

## Left out

- Console I/O: printing is the trace in `Runtime.Console`. `%s` is string concatenation and `%d` is `Decimal.FormatInt`.
- `Polymorphism3.CalculateTax`: the model does not capture overflow of Go's 64-bit `int` in `income * taxPercentage`, because integers here are unbounded.
- `Polymorphism3.CalculateTotalTax`: does not model overflow of the running total, because integers here are unbounded. It also does not model the panics Go raises on a nil interface element (`t.calculateTax()`, program3.go:61) or on a nil `*indianTax`, `*singaporeTax` or `*usaTax` (`i.income`, program3.go:15), because `TaxSystem` has no nil case and `main` builds no nil element.
- `Polymorphism2.Maths.Add`: does not model overflow of `result`, because integers here are unbounded.
- Panics are not modelled as crashes. A panic is the outcome `NilDereference`, and the Go runtime's panic message is not modelled.
- Interface values in `Inheritance4.Check`, `Inheritance5.Check`, `Inheritance6.Check1` and `Inheritance6.Check2` are never nil, because no program passes nil there.
- `AbstractClass3.Alpha.Common`: a non-nil `iAlpha` holding a nil `*beta` is not modelled. In Go, that value would print `work called` before panicking. The model has only the nil interface (`null`), which panics right after `common called`.
- The `color` and `style` fields are stored but never printed, as in the source.
- encapsulation/model/data.go and encapsulation/view/test.go are not part of this model. They show which names are visible outside a package, which is a compile-time matter. view/test.go does not compile, and the getters in data.go only read fields.
- inheritance/example2/program2.go is not part of this model. It does not compile, because it passes `*child` where `base` is expected.
- inheritance/example1/program1.go is not part of this model. It prints two constant lines through a promoted method and field; inheritance/example6 covers the same promotion.
