/**
  Runtime values of the script language and the operations on them that do not
  evaluate syntax: operators, truthiness, `typeof`, property reads, the store of
  arrays and function records, and the built-in table of src/evaluator.js.

  Arrays and user-function records are objects: they live in a store (`heap`)
  and a value refers to one by its address. Copying an environment therefore
  copies references, and an array pushed to through one binding changes for
  every binding that refers to it.
 */
module Values {
  import opened Syntax

  /** Numbers are modelled as integers (see README, "Left out"). */
  datatype Value = Undefined | Null | Num(n: int) | Str(s: string) | Bool(b: bool) | Ref(addr: nat)

  datatype Obj = ArrayObj(elems: seq<Value>) | FunctionObj(params: seq<string>, body: Node)

  type Bindings = map<string, Value>

  /** Error kinds of the evaluator, with the offending name where the source reports one. */
  datatype EvalError =
    | UndefinedVariable(name: string)
    | UnknownOperator(op: string)
    | CannotRedefine(name: string)
    | NotAFunction(prop: string)
    | UnknownFunction(callee: Option<string>)
    | ExpectedIterable(got: string)
    | FunctionNotAssigned
    | UnknownNodeType(kind: string)
    | PropertyOfNothing(prop: string)   // property read on null or undefined
    | MissingArgument                   // `print()` with no argument
    | ExpectedNumber(got: string)       // `array(length, fill)` with a non-number length
    | InvalidArrayLength                // `Array(length)` with a length outside 0 .. 2^32 - 1
    | Unmodelled(what: string)          // behaviour this model does not describe
    | OutOfFuel

  /** What a JS `throw` carries: an error, or the `{type: "return", value}` object. */
  datatype Signal = Thrown(error: EvalError) | ReturnSignal(value: Value)

  datatype Outcome<+T> = Normal(value: T) | Abrupt(signal: Signal)

  /** A line written to the output channel: the arguments of a `print` with the
      store as it was when they were printed (the text is rendered from both),
      or the report of a statement that failed. */
  datatype Line = Printed(args: seq<Value>, store: seq<Obj>) | Reported(line: nat, signal: Signal)

  /** Everything evaluation changes besides the environment: the store and the output. */
  datatype World = World(heap: seq<Obj>, output: seq<Line>)

  predicate IsArray(heap: seq<Obj>, v: Value)
  {
    v.Ref? && v.addr < |heap| && heap[v.addr].ArrayObj?
  }

  predicate IsFunction(heap: seq<Obj>, v: Value)
  {
    v.Ref? && v.addr < |heap| && heap[v.addr].FunctionObj?
  }

  /** The elements of the array stored at `addr`. */
  function Elements(heap: seq<Obj>, addr: nat): seq<Value>
  {
    if addr < |heap| && heap[addr].ArrayObj? then heap[addr].elems else []
  }

  /** A new object at the first free address. */
  function Alloc(w: World, obj: Obj): (r: (Value, World))
    ensures r.0 == Ref(|w.heap|) && r.1.output == w.output
    ensures |r.1.heap| == |w.heap| + 1 && r.1.heap[|w.heap|] == obj
    ensures forall a :: 0 <= a < |w.heap| ==> r.1.heap[a] == w.heap[a]
  {
    (Ref(|w.heap|), World(w.heap + [obj], w.output))
  }

  /** `arr.push(...args)`: the array at `addr` gets the arguments appended in
      order; every other object is left alone. */
  function Push(w: World, addr: nat, args: seq<Value>): (r: World)
    requires addr < |w.heap| && w.heap[addr].ArrayObj?
    ensures |r.heap| == |w.heap| && r.output == w.output
    ensures Elements(r.heap, addr) == Elements(w.heap, addr) + args
    ensures forall a :: 0 <= a < |w.heap| && a != addr ==> r.heap[a] == w.heap[a]
  {
    World(w.heap[addr := ArrayObj(w.heap[addr].elems + args)], w.output)
  }

  /** JavaScript truthiness. */
  predicate Truthy(v: Value)
  {
    match v
    case Undefined => false
    case Null => false
    case Num(n) => n != 0
    case Str(s) => s != ""
    case Bool(b) => b
    case Ref(_) => true
  }

  /** The JavaScript `typeof` operator: arrays and function records are objects. */
  function TypeOf(v: Value): string
  {
    match v
    case Undefined => "undefined"
    case Null => "object"
    case Num(_) => "number"
    case Str(_) => "string"
    case Bool(_) => "boolean"
    case Ref(_) => "object"
  }

  /** The UTF-16 code units of a string, as JavaScript stores it: a character
      above U+FFFF becomes a surrogate pair, every other one a single unit. */
  function Utf16(s: string): (r: seq<int>)
    ensures |r| >= |s|
    ensures forall k :: 0 <= k < |r| ==> 0 <= r[k] < 0x1_0000
  {
    if s == [] then []
    else Utf16Char(s[0]) + Utf16(s[1..])
  }

  function Utf16Char(c: char): (r: seq<int>)
    ensures |r| == (if c as int < 0x1_0000 then 1 else 2)
    ensures forall k :: 0 <= k < |r| ==> 0 <= r[k] < 0x1_0000
  {
    if c as int < 0x1_0000 then [c as int]
    else
      var v := c as int - 0x1_0000;
      [0xD800 + v / 0x400, 0xDC00 + v % 0x400]
  }

  /** The string's `length`: its number of UTF-16 code units. */
  function Length(s: string): nat
  {
    |Utf16(s)|
  }

  /** JavaScript's `<` on two strings: lexicographic order on UTF-16 code units. */
  predicate StrLess(s: string, t: string)
  {
    UnitsLess(Utf16(s), Utf16(t))
  }

  predicate UnitsLess(u: seq<int>, v: seq<int>)
  {
    if u == [] then v != []
    else if v == [] then false
    else if u[0] != v[0] then u[0] < v[0]
    else UnitsLess(u[1..], v[1..])
  }

  const Operators: set<string> := {"+", "-", "*", "/", "==", "!=", ">", "<", ">=", "<="}

  /** The operator switch of the `binary` case, applied to evaluated operands. */
  function ApplyOperator(op: string, a: Value, b: Value): (r: Outcome<Value>)
    ensures r == Abrupt(Thrown(UnknownOperator(op))) <==> op !in Operators
    ensures op == "==" ==> r == Normal(Bool(a == b))
    ensures op == "!=" ==> r == Normal(Bool(a != b))
    ensures op == "+" && a.Num? && b.Num? ==> r == Normal(Num(a.n + b.n))
    ensures op == "+" && a.Str? && b.Str? ==> r == Normal(Str(a.s + b.s))
    ensures op in Operators && r.Normal? ==> (r.value.Bool? <==> op !in {"+", "-", "*", "/"})
  {
    match op
    case "+" =>
      if a.Num? && b.Num? then Normal(Num(a.n + b.n))
      else if a.Str? && b.Str? then Normal(Str(a.s + b.s))
      else Abrupt(Thrown(Unmodelled("+ on mixed operands")))
    case "-" => if a.Num? && b.Num? then Normal(Num(a.n - b.n)) else Abrupt(Thrown(Unmodelled("- on non-numbers")))
    case "*" => if a.Num? && b.Num? then Normal(Num(a.n * b.n)) else Abrupt(Thrown(Unmodelled("* on non-numbers")))
    case "/" =>
      if a.Num? && b.Num? && b.n != 0 && a.n % b.n == 0 then Normal(Num(a.n / b.n))
      else Abrupt(Thrown(Unmodelled("inexact division")))
    case "==" => Normal(Bool(a == b))
    case "!=" => Normal(Bool(a != b))
    case ">" => Compare(b, a, false)
    case "<" => Compare(a, b, false)
    case ">=" => Compare(b, a, true)
    case "<=" => Compare(a, b, true)
    case _ => Abrupt(Thrown(UnknownOperator(op)))
  }

  /** `a < b` (or `a <= b` when `orEqual`) on two numbers or two strings. */
  function Compare(a: Value, b: Value, orEqual: bool): (r: Outcome<Value>)
    ensures r.Normal? ==> r.value.Bool?
    ensures a.Num? && b.Num? ==> r == Normal(Bool(if orEqual then a.n <= b.n else a.n < b.n))
  {
    if a.Num? && b.Num? then Normal(Bool(if orEqual then a.n <= b.n else a.n < b.n))
    else if a.Str? && b.Str? then Normal(Bool(if orEqual then !StrLess(b.s, a.s) else StrLess(a.s, b.s)))
    else Abrupt(Thrown(Unmodelled("ordered comparison of mixed operands")))
  }

  /** The `property` case after its object is evaluated: the `length` of an
      array or a string. */
  function PropertyOf(heap: seq<Obj>, v: Value, prop: string): (r: Outcome<Value>)
    ensures IsArray(heap, v) && prop == "length" ==> r == Normal(Num(|heap[v.addr].elems|))
    ensures v.Str? && prop == "length" ==> r == Normal(Num(Length(v.s)))
    ensures (v == Null || v == Undefined) ==> r == Abrupt(Thrown(PropertyOfNothing(prop)))
  {
    if IsArray(heap, v) && prop == "length" then Normal(Num(|Elements(heap, v.addr)|))
    else if v.Str? && prop == "length" then Normal(Num(Length(v.s)))
    else if v == Null || v == Undefined then Abrupt(Thrown(PropertyOfNothing(prop)))
    else Abrupt(Thrown(Unmodelled("property " + prop)))
  }

  /** A `.prop(args)` call on something other than an array's `push`. */
  function MethodFailure(v: Value, prop: string): Outcome<Value>
  {
    if v == Null || v == Undefined then Abrupt(Thrown(NotAFunction(prop)))
    else Abrupt(Thrown(Unmodelled("method " + prop)))
  }

  /** The names `scriptFunctions` defines. */
  const Builtins: set<string> := {"print", "typeof", "exit", "random", "isFart", "array"}

  /** `Array(length)` throws a RangeError unless the length is below 2^32. */
  const MaxArrayLength: int := 0x1_0000_0000

  /** A missing argument reads as undefined. */
  function ArgAt(args: seq<Value>, i: nat): Value
  {
    if i < |args| then args[i] else Undefined
  }

  /** A call of a built-in with evaluated arguments. `print` writes its
      arguments to the output and returns them as a new array. */
  function CallBuiltin(name: string, args: seq<Value>, w: World): (r: (Outcome<Value>, World))
    requires name in Builtins
    ensures name == "print" && args == [] ==> r == (Abrupt(Thrown(MissingArgument)), w)
    ensures name == "print" && args != [] ==>
              r.1.output == w.output + [Printed(args, w.heap)] && r.0 == Normal(Ref(|w.heap|))
              && r.1.heap == w.heap + [ArrayObj(args)]
    ensures name == "typeof" && ArgAt(args, 0) == Null ==> r == (Normal(Str("null")), w)
    ensures name == "isFart" ==> r == (Normal(Bool(ArgAt(args, 0) == Str("fart"))), w)
    ensures name == "array" && !ArgAt(args, 0).Num? ==> r.0.Abrupt? && r.1 == w
    ensures name == "array" && ArgAt(args, 0).Num? && !(0 <= ArgAt(args, 0).n < MaxArrayLength) ==>
              r == (Abrupt(Thrown(InvalidArrayLength)), w)
    ensures name == "array" && ArgAt(args, 0).Num? && 0 <= ArgAt(args, 0).n < MaxArrayLength ==>
              r.0.Normal? && IsArray(r.1.heap, r.0.value) && r.1.output == w.output
              && |Elements(r.1.heap, r.0.value.addr)| == ArgAt(args, 0).n
              && (forall k :: 0 <= k < ArgAt(args, 0).n ==> Elements(r.1.heap, r.0.value.addr)[k] == ArgAt(args, 1))
              && |r.1.heap| == |w.heap| + 1
              && (forall a :: 0 <= a < |w.heap| ==> r.1.heap[a] == w.heap[a])
  {
    if name == "print" then
      if |args| < 1 then (Abrupt(Thrown(MissingArgument)), w)
      else
        var (v, w') := Alloc(World(w.heap, w.output + [Printed(args, w.heap)]), ArrayObj(args));
        (Normal(v), w')
    else if name == "typeof" then
      var x := ArgAt(args, 0);
      (Normal(Str(if x == Null then "null" else TypeOf(x))), w)
    else if name == "isFart" then
      (Normal(Bool(ArgAt(args, 0) == Str("fart"))), w)
    else if name == "array" then
      var length := ArgAt(args, 0);
      if !length.Num? then (Abrupt(Thrown(ExpectedNumber(TypeOf(length)))), w)
      else if length.n < 0 || length.n >= MaxArrayLength then (Abrupt(Thrown(InvalidArrayLength)), w)
      else
        var (v, w') := Alloc(w, ArrayObj(seq(length.n, _ => ArgAt(args, 1))));
        (Normal(v), w')
    else
      (Abrupt(Thrown(Unmodelled(name))), w)
  }
}
