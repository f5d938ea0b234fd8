/** The restricted expression evaluator behind `set` in scripts and the
    `calc` command (`_safe_eval`, identical in both shells).

    The Python code parses the text with `ast.parse(..., mode="eval")` and
    walks the tree. Here the tree is an `Expr` value (the parser is a
    parameter of the shell, see `Host`), the walk is `Eval`, and every
    exception the walk can raise is an `Err`. Numbers are reals tagged with
    the Python type they would have (`bool`, `int`, `float`): the tag decides
    the type of a result exactly as Python's numeric tower does, but IEEE
    rounding is not modelled. */
module SafeEval {

  datatype NumKind = BoolK | IntK | FloatK

  /** The four allow-listed built-ins `abs`, `min`, `max`, `round`. */
  datatype Builtin = Abs | Min | Max | Round

  /** A run-time value. `Dict` is the measurement table `m` of `calc`;
      `NoneV` is the `last` of the older shell's `calc` on an empty log. */
  datatype Value =
    | Num(kind: NumKind, x: real)
    | Dict(entries: map<string, Value>)
    | Func(f: Builtin)
    | NoneV

  /** Literal constants as the parser delivers them. */
  datatype Const = IntC(i: int) | FloatC(r: real) | BoolC(b: bool) | StrC(s: string) | NoneC | OtherC

  datatype BinOp = Add | Sub | Mult | Div | Pow | Mod | FloorDiv | MatMult | LShift | RShift | BitOr | BitXor | BitAnd

  datatype UnOp = UAdd | USub | Not | Invert

  /** The expression nodes the evaluator inspects. Every other node kind
      (comparisons, boolean operators, lambdas, lists, slices, starred
      arguments, ...) is `Other`. A call's keyword arguments are never looked
      at by the evaluator and are not represented. */
  datatype Expr =
    | Constant(c: Const)
    | Name(id: string)
    | BinaryOp(left: Expr, op: BinOp, right: Expr)
    | UnaryOp(uop: UnOp, operand: Expr)
    | Subscript(base: Expr, index: Expr)
    | Call(func: Expr, args: seq<Expr>)
    | Other

  /** Why the evaluator itself raised `ValueError`. */
  datatype Reject =
    | NonNumericConstant | UnknownName | OperatorNotAllowed | UnaryNotAllowed
    | BaseNotDict | FunctionNotAllowed | ExpressionNotAllowed

  datatype EvalError =
    | Rejected(why: Reject)
    | TypeError
    | ZeroDivision
    | KeyError
    | EmptyArgument
    /** a result that is not a real number of the model (a fractional
        power, or `min`/`max` over the string keys of a table) */
    | Unmodelled

  datatype Result<T> = Ok(value: T) | Err(error: EvalError)

  function BuiltinNamed(id: string): Option<Builtin> {
    if id == "abs" then Some(Abs)
    else if id == "min" then Some(Min)
    else if id == "max" then Some(Max)
    else if id == "round" then Some(Round)
    else None
  }

  datatype Option<T> = None | Some(value: T)

  /** The type of `a op b` for `+ - * %`: float if either side is float, else int. */
  function Promote(a: NumKind, b: NumKind): NumKind {
    if a == FloatK || b == FloatK then FloatK else IntK
  }

  function IsIntegral(x: real): bool {
    x == x.Floor as real
  }

  function RealPow(b: real, n: nat): real {
    if n == 0 then 1.0 else b * RealPow(b, n - 1)
  }

  lemma {:induction false} RealPowNonZero(b: real, n: nat)
    requires b != 0.0
    ensures RealPow(b, n) != 0.0
  {
    if n > 0 {
      RealPowNonZero(b, n - 1);
    }
  }

  /** Python's floored modulo: the result has the sign of the divisor. */
  function FlooredMod(x: real, y: real): (r: real)
    requires y != 0.0
    ensures y > 0.0 ==> 0.0 <= r < y
    ensures y < 0.0 ==> y < r <= 0.0
  {
    var q := (x / y).Floor as real;
    FloorBounds(x, y, q);
    x - y * q
  }

  lemma FloorBounds(x: real, y: real, q: real)
    requires y != 0.0 && q <= x / y < q + 1.0
    ensures y > 0.0 ==> 0.0 <= x - y * q < y
    ensures y < 0.0 ==> y < x - y * q <= 0.0
  {
    var t := x / y;
    var d := t - q;
    assert 0.0 <= d < 1.0;
    assert y * t == x;
    assert x - y * q == y * d;
    assert y * d + y * (1.0 - d) == y;
    if y > 0.0 {
      assert y * d >= 0.0;
      assert y * (1.0 - d) > 0.0;
    } else {
      assert y * d <= 0.0;
      assert y * (1.0 - d) < 0.0;
    }
  }

  /** Python's `round(x)`: nearest integer, ties to the even neighbour. */
  function RoundHalfEven(x: real): (r: int)
    ensures x - 0.5 <= r as real <= x + 0.5
    ensures (r as real - x == 0.5 || x - r as real == 0.5) ==> r % 2 == 0
  {
    var f := x.Floor;
    var d := x - f as real;
    if d < 0.5 then f
    else if d > 0.5 then f + 1
    else if f % 2 == 0 then f
    else f + 1
  }

  function Pow10(n: nat): (r: real)
    ensures r >= 1.0
  {
    if n == 0 then 1.0 else 10.0 * Pow10(n - 1)
  }

  /** A binary operator: a disallowed operator is refused whatever its
      operands; an allowed one raises `TypeError` on a non-number. */
  function Arith(op: BinOp, a: Value, b: Value): Result<Value> {
    if !(op.Add? || op.Sub? || op.Mult? || op.Div? || op.Mod? || op.Pow?) then Err(Rejected(OperatorNotAllowed))
    else if !a.Num? || !b.Num? then Err(TypeError)
    else
      var k := Promote(a.kind, b.kind);
      if op.Add? then Ok(Num(k, a.x + b.x))
      else if op.Sub? then Ok(Num(k, a.x - b.x))
      else if op.Mult? then Ok(Num(k, a.x * b.x))
      else if op.Div? then (if b.x == 0.0 then Err(ZeroDivision) else Ok(Num(FloatK, a.x / b.x)))
      else if op.Mod? then (if b.x == 0.0 then Err(ZeroDivision) else Ok(Num(k, FlooredMod(a.x, b.x))))
      else Power(a, b)
  }

  /** `a ** b`: exact for an integral exponent; an int raised to a
      non-negative int stays an int; a zero base with a negative exponent
      raises `ZeroDivisionError`. */
  function Power(a: Value, b: Value): Result<Value>
    requires a.Num? && b.Num?
  {
    if !IsIntegral(b.x) then Err(Unmodelled)
    else
      var n := b.x.Floor;
      var k := if a.kind != FloatK && b.kind != FloatK && n >= 0 then IntK else FloatK;
      if n >= 0 then Ok(Num(k, RealPow(a.x, n)))
      else if a.x == 0.0 then Err(ZeroDivision)
      else
        RealPowNonZero(a.x, -n);
        Ok(Num(FloatK, 1.0 / RealPow(a.x, -n)))
  }

  function Unary(op: UnOp, a: Value): Result<Value> {
    if !a.Num? then
      if op == UAdd || op == USub then Err(TypeError) else Err(Rejected(UnaryNotAllowed))
    else
      var k := if a.kind == BoolK then IntK else a.kind;
      match op
      case UAdd => Ok(Num(k, a.x))
      case USub => Ok(Num(k, -a.x))
      case _ => Err(Rejected(UnaryNotAllowed))
  }

  /** The first smallest (`wantMax` false) or first largest argument, as
      Python's `min(a, b, ...)` / `max(a, b, ...)`; `best` is the running pick. */
  function Extreme(best: Value, rest: seq<Value>, wantMax: bool): (r: Result<Value>)
    requires best.Num?
    ensures r.Ok? ==> r.value.Num? && (r.value == best || r.value in rest)
    ensures r.Ok? ==> forall i :: 0 <= i < |rest| ==>
      rest[i].Num? && (if wantMax then rest[i].x <= r.value.x else r.value.x <= rest[i].x)
    ensures r.Ok? ==> (if wantMax then best.x <= r.value.x else r.value.x <= best.x)
    decreases |rest|
  {
    if rest == [] then Ok(best)
    else if !rest[0].Num? then Err(TypeError)
    else
      var better := if wantMax then rest[0].x > best.x else rest[0].x < best.x;
      Extreme(if better then rest[0] else best, rest[1..], wantMax)
  }

  /** `f(*args)` for an allow-listed built-in. */
  function Apply(f: Builtin, args: seq<Value>): Result<Value> {
    match f
    case Abs =>
      if |args| != 1 || !args[0].Num? then Err(TypeError)
      else
        var a := args[0];
        Ok(Num(if a.kind == BoolK then IntK else a.kind, if a.x < 0.0 then -a.x else a.x))
    case Round =>
      if |args| == 1 || (|args| == 2 && args[1].NoneV?) then
        if args[0].Num? then Ok(Num(IntK, RoundHalfEven(args[0].x) as real)) else Err(TypeError)
      else if |args| == 2 then
        var a := args[0];
        var d := args[1];
        if !a.Num? || !d.Num? || d.kind == FloatK then Err(TypeError)
        else
          var n := d.x.Floor;
          if a.kind == FloatK then
            var scale := Pow10(if n >= 0 then n else -n);
            if n >= 0 then Ok(Num(FloatK, RoundHalfEven(a.x * scale) as real / scale))
            else Ok(Num(FloatK, RoundHalfEven(a.x / scale) as real * scale))
          else if n >= 0 then Ok(Num(IntK, a.x))
          else
            var scale := Pow10(-n);
            Ok(Num(IntK, RoundHalfEven(a.x / scale) as real * scale))
      else Err(TypeError)
    case Min => MinMax(args, false)
    case Max => MinMax(args, true)
  }

  function MinMax(args: seq<Value>, wantMax: bool): Result<Value> {
    if args == [] then Err(TypeError)
    else if |args| == 1 then
      match args[0]
      case Dict(m) => if |m| == 0 then Err(EmptyArgument) else Err(Unmodelled)
      case _ => Err(TypeError)
    else if !args[0].Num? then Err(TypeError)
    else Extreme(args[0], args[1..], wantMax)
  }

  /** The subscript key a slice node denotes: a constant's own value (only a
      string can be a key of the table), a bare name's identifier, or, for
      any other expression, its value (which is never a string, so the
      lookup raises `KeyError`, or `TypeError` for an unhashable table). */
  function SubscriptKey(index: Expr, names: map<string, Value>): Result<string>
    decreases index, 1
  {
    match index
    case Constant(c) => if c.StrC? then Ok(c.s) else Err(KeyError)
    case Name(id) => Ok(id)
    case _ =>
      match Eval(index, names)
      case Err(e) => Err(e)
      case Ok(v) => if v.Dict? then Err(TypeError) else Err(KeyError)
  }

  /** `_eval(node)` with the name table `names`. */
  function Eval(e: Expr, names: map<string, Value>): Result<Value>
    decreases e, 0
  {
    match e
    case Constant(c) =>
      (match c
       case IntC(i) => Ok(Num(IntK, i as real))
       case FloatC(r) => Ok(Num(FloatK, r))
       case BoolC(b) => Ok(Num(BoolK, if b then 1.0 else 0.0))
       case _ => Err(Rejected(NonNumericConstant)))
    case Name(id) =>
      if id in names then Ok(names[id])
      else if BuiltinNamed(id).Some? then Ok(Func(BuiltinNamed(id).value))
      else Err(Rejected(UnknownName))
    case BinaryOp(l, op, r) =>
      (match Eval(l, names)
       case Err(err) => Err(err)
       case Ok(a) =>
         match Eval(r, names)
         case Err(err) => Err(err)
         case Ok(b) => Arith(op, a, b))
    case UnaryOp(op, x) =>
      (match Eval(x, names)
       case Err(err) => Err(err)
       case Ok(a) => Unary(op, a))
    case Subscript(b, index) =>
      (match Eval(b, names)
       case Err(err) => Err(err)
       case Ok(base) =>
         if !base.Dict? then Err(Rejected(BaseNotDict))
         else
           match SubscriptKey(index, names)
           case Err(err) => Err(err)
           case Ok(key) => if key in base.entries then Ok(base.entries[key]) else Err(KeyError))
    case Call(f, args) =>
      (match Eval(f, names)
       case Err(err) => Err(err)
       case Ok(fv) =>
         match EvalArgs(args, names)
         case Err(err) => Err(err)
         case Ok(vs) => if fv.Func? then Apply(fv.f, vs) else Err(Rejected(FunctionNotAllowed)))
    case Other => Err(Rejected(ExpressionNotAllowed))
  }

  /** `[_eval(arg) for arg in node.args]`: left to right, first error wins. */
  function EvalArgs(args: seq<Expr>, names: map<string, Value>): (r: Result<seq<Value>>)
    ensures r.Ok? ==> |r.value| == |args|
    decreases args
  {
    if args == [] then Ok([])
    else
      match Eval(args[0], names)
      case Err(err) => Err(err)
      case Ok(v) =>
        match EvalArgs(args[1..], names)
        case Err(err) => Err(err)
        case Ok(vs) => Ok([v] + vs)
  }

  predicate AllowedBinOp(op: BinOp) {
    op == Add || op == Sub || op == Mult || op == Div || op == Pow || op == Mod
  }

  /** The constructs the evaluator admits: numeric constants, names from the
      table or the allow-list, `+ - * / ** %`, unary `+`/`-`, a subscript of
      a dict whose key is a string constant or a bare name, and calls of one
      of the allowed functions. */
  predicate Admissible(e: Expr, names: map<string, Value>)
    decreases e
  {
    match e
    case Constant(c) => c.IntC? || c.FloatC? || c.BoolC?
    case Name(id) => id in names || BuiltinNamed(id).Some?
    case BinaryOp(l, op, r) => AllowedBinOp(op) && Admissible(l, names) && Admissible(r, names)
    case UnaryOp(op, x) => (op == UAdd || op == USub) && Admissible(x, names)
    case Subscript(b, index) =>
      Admissible(b, names) && Eval(b, names).Ok? && Eval(b, names).value.Dict?
      && ((index.Constant? && index.c.StrC?) || index.Name?)
    case Call(f, args) =>
      Admissible(f, names) && Eval(f, names).Ok? && Eval(f, names).value.Func?
      && forall i :: 0 <= i < |args| ==> Admissible(args[i], names)
    case Other => false
  }

  /** Whatever evaluates successfully is built only from admitted
      constructs; equivalently, every other construct raises. */
  lemma {:induction false} EvalOkAdmissible(e: Expr, names: map<string, Value>)
    ensures Eval(e, names).Ok? ==> Admissible(e, names)
    decreases e, 0
  {
    match e
    case Constant(c) =>
    case Name(id) =>
    case BinaryOp(l, op, r) =>
      if Eval(e, names).Ok? {
        EvalOkAdmissible(l, names);
        EvalOkAdmissible(r, names);
      }
    case UnaryOp(op, x) =>
      if Eval(e, names).Ok? {
        EvalOkAdmissible(x, names);
      }
    case Subscript(b, index) =>
      if Eval(e, names).Ok? {
        EvalOkAdmissible(b, names);
        assert SubscriptKey(index, names).Ok?;
      }
    case Call(f, args) =>
      if Eval(e, names).Ok? {
        EvalOkAdmissible(f, names);
        EvalArgsOkAdmissible(args, names);
      }
    case Other =>
  }

  lemma {:induction false} EvalArgsOkAdmissible(args: seq<Expr>, names: map<string, Value>)
    ensures EvalArgs(args, names).Ok? ==> forall i :: 0 <= i < |args| ==> Admissible(args[i], names)
    decreases args
  {
    if args != [] && EvalArgs(args, names).Ok? {
      EvalOkAdmissible(args[0], names);
      EvalArgsOkAdmissible(args[1..], names);
      forall i | 1 <= i < |args| ensures Admissible(args[i], names) {
        assert args[i] == args[1..][i - 1];
      }
    }
  }

  /** Every value in the table is a number (the table `set` builds). */
  predicate NumericTable(names: map<string, Value>) {
    forall k :: k in names ==> names[k].Num?
  }

  /** With only numbers in the table no subscript can succeed, so a
      successful evaluation yields a number or one of the built-ins. */
  lemma {:induction false} NumericTableResult(e: Expr, names: map<string, Value>)
    requires NumericTable(names)
    ensures Eval(e, names).Ok? ==> Eval(e, names).value.Num? || Eval(e, names).value.Func?
    decreases e
  {
    match e
    case Constant(c) =>
    case Name(id) =>
    case BinaryOp(l, op, r) =>
    case UnaryOp(op, x) =>
    case Subscript(b, index) =>
      NumericTableResult(b, names);
    case Call(f, args) =>
    case Other =>
  }

  /** `min(a, b, ...)` over numbers returns one of them that no other is below. */
  lemma MinIsLeast(args: seq<Value>)
    requires |args| >= 2 && forall i :: 0 <= i < |args| ==> args[i].Num?
    ensures MinMax(args, false).Ok?
    ensures MinMax(args, false).value in args
    ensures forall i :: 0 <= i < |args| ==> MinMax(args, false).value.x <= args[i].x
  {
    ExtremeOk(args[0], args[1..], false);
    var r := MinMax(args, false).value;
    forall i | 0 <= i < |args| ensures r.x <= args[i].x {
      if i > 0 { assert args[i] == args[1..][i - 1]; }
    }
  }

  lemma {:induction false} ExtremeOk(best: Value, rest: seq<Value>, wantMax: bool)
    requires best.Num? && forall i :: 0 <= i < |rest| ==> rest[i].Num?
    ensures Extreme(best, rest, wantMax).Ok?
    decreases |rest|
  {
    if rest != [] {
      var better := if wantMax then rest[0].x > best.x else rest[0].x < best.x;
      ExtremeOk(if better then rest[0] else best, rest[1..], wantMax);
    }
  }
}
