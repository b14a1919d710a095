/**
The part of the LIAF language that the C backend compiles: syntax, and a
fuel-indexed semantics that records every user call in order.
*/
module Liaf {
  import opened Wrappers
  import Int64

  datatype Op = Add | Sub | Mul | Div | Eq | Neq | Gt | Lt | Gte | Lte

  datatype Expr =
    | IntLit(n: int)
    | BoolLit(b: bool)
    | Ident(name: string)
    | Call(func: string, args: seq<Expr>)
    | Bin(op: Op, left: Expr, right: Expr)
    | Logic(isOr: bool, left: Expr, right: Expr)
    | IfExpr(cond: Expr, thn: Expr, els: Expr)

  datatype Stmt =
    | Let(name: string, value: Expr)
    | Set(name: string, value: Expr)
    | Return(result: Option<Expr>)
    | Do(value: Expr)
    | If(cond: Expr, thn: seq<Stmt>, els: seq<Stmt>)
    | While(cond: Expr, body: seq<Stmt>)
    | ForRange(name: string, start: Expr, end: Expr, body: seq<Stmt>)
    | Break
    | Continue
    | Match(value: Expr, okName: string, ok: seq<Stmt>, errName: string, err: seq<Stmt>)

  datatype Func = Func(params: seq<string>, body: seq<Stmt>)
  type Program = map<string, Func>

  datatype Value =
    | VNone
    | VInt(n: int)
    | VBool(b: bool)
    | VStr(s: string)
    | VResult(ok: bool, payload: Value)

  // One user call, with the values of its arguments.
  datatype Event = Event(func: string, args: seq<Value>)
  type Trace = seq<Event>

  // Why a run stops early. `Wrong` is what the checker rules out (type errors, unknown or
  // duplicate names); `Aborted` is the runtime's exit on overflow.
  datatype Stop = Aborted | OutOfFuel | Wrong

  datatype Res<+T> = Ok(v: T) | Halt(why: Stop)

  datatype Outcome = Normal | Broke | Continued | Returned(v: Value) | Stopped(why: Stop)

  // Innermost scope first.
  type Env = List<map<string, Value>>
  datatype State = State(env: Env, trace: Trace)

  function Push(env: Env): Env { Cons(map[], env) }

  function Pop(env: Env): Env { if env.Cons? then env.tail else Nil }

  function Lookup(env: Env, x: string): Option<Value> {
    match env
    case Nil => None
    case Cons(scope, up) => if x in scope then Some(scope[x]) else Lookup(up, x)
  }

  // None when x is already declared in the innermost scope.
  function Declare(env: Env, x: string, v: Value): Option<Env> {
    if env.Nil? || x in env.head then None else Some(Cons(env.head[x := v], env.tail))
  }

  function Assign(env: Env, x: string, v: Value): Option<Env> {
    match env
    case Nil => None
    case Cons(scope, up) =>
      if x in scope then Some(Cons(scope[x := v], up))
      else match Assign(up, x, v)
        case None => None
        case Some(up') => Some(Cons(scope, up'))
  }

  function Bind(params: seq<string>, args: seq<Value>): map<string, Value>
    requires |params| == |args|
  {
    if params == [] then map[]
    else Bind(params[..|params| - 1], args[..|args| - 1])[params[|params| - 1] := args[|args| - 1]]
  }

  function Checked(n: int): Res<Value> {
    if Int64.Fits(n) then Ok(VInt(n)) else Halt(Aborted)
  }

  const DIV_BY_ZERO := "div: divisao por zero"

  predicate Comparable(a: Value, b: Value) {
    (a.VInt? && b.VInt?) || (a.VBool? && b.VBool?) || (a.VStr? && b.VStr?)
  }

  function Arith(op: Op, a: int, b: int): Res<Value> {
    match op
    case Add => Checked(a + b)
    case Sub => Checked(a - b)
    case Mul => Checked(a * b)
    case Div =>
      if b == 0 then Ok(VResult(false, VStr(DIV_BY_ZERO)))
      else if a == Int64.MIN && b == -1 then Halt(Aborted)
      else Ok(VResult(true, VInt(Int64.TruncDiv(a, b))))
    case Gt => Ok(VBool(a > b))
    case Lt => Ok(VBool(a < b))
    case Gte => Ok(VBool(a >= b))
    case Lte => Ok(VBool(a <= b))
    case Eq => Ok(VBool(a == b))
    case Neq => Ok(VBool(a != b))
  }

  function Apply(op: Op, a: Value, b: Value): Res<Value> {
    if op == Eq || op == Neq then
      if Comparable(a, b) then Ok(VBool((a == b) == (op == Eq))) else Halt(Wrong)
    else if a.VInt? && b.VInt? then Arith(op, a.n, b.n)
    else Halt(Wrong)
  }

  function Eval(p: Program, e: Expr, env: Env, tr: Trace, fuel: nat): (Res<Value>, Trace)
    decreases fuel, e
  {
    match e
    case IntLit(n) => (if Int64.Fits(n) then Ok(VInt(n)) else Halt(Wrong), tr)
    case BoolLit(b) => (Ok(VBool(b)), tr)
    case Ident(x) =>
      var v := Lookup(env, x);
      (if v.Some? then Ok(v.value) else Halt(Wrong), tr)
    case Bin(op, l, r) =>
      var (a, tr1) := Eval(p, l, env, tr, fuel);
      if a.Halt? then (a, tr1) else
      var (b, tr2) := Eval(p, r, env, tr1, fuel);
      if b.Halt? then (b, tr2) else (Apply(op, a.v, b.v), tr2)
    case Logic(isOr, l, r) =>
      var (a, tr1) := Eval(p, l, env, tr, fuel);
      if a.Halt? then (a, tr1)
      else if !a.v.VBool? then (Halt(Wrong), tr1)
      else if a.v.b == isOr then (a, tr1)
      else Eval(p, r, env, tr1, fuel)
    case IfExpr(c, t, f) =>
      var (a, tr1) := Eval(p, c, env, tr, fuel);
      if a.Halt? then (a, tr1)
      else if !a.v.VBool? then (Halt(Wrong), tr1)
      else if a.v.b then Eval(p, t, env, tr1, fuel)
      else Eval(p, f, env, tr1, fuel)
    case Call(f, args) =>
      if f !in p then (Halt(Wrong), tr) else
      var (vals, tr1) := EvalArgs(p, args, env, tr, fuel);
      if vals.Halt? then (Halt(vals.why), tr1)
      else if |vals.v| != |p[f].params| then (Halt(Wrong), tr1)
      else if fuel == 0 then (Halt(OutOfFuel), tr1)
      else CallResult(Exec(p, p[f].body, State(Cons(Bind(p[f].params, vals.v), Nil), tr1 + [Event(f, vals.v)]), fuel - 1))
  }

  // What a finished function body hands to its caller.
  function CallResult(r: (Outcome, State)): (Res<Value>, Trace) {
    (match r.0
     case Returned(v) => Ok(v)
     case Normal => Ok(VNone)
     case Stopped(why) => Halt(why)
     case Broke => Halt(Wrong)
     case Continued => Halt(Wrong), r.1.trace)
  }

  // Arguments from left to right.
  function EvalArgs(p: Program, args: seq<Expr>, env: Env, tr: Trace, fuel: nat): (Res<seq<Value>>, Trace)
    decreases fuel, args
  {
    if args == [] then (Ok([]), tr) else
    var (o, tr1) := Eval(p, args[0], env, tr, fuel);
    if o.Halt? then (Halt(o.why), tr1) else
    var (os, tr2) := EvalArgs(p, args[1..], env, tr1, fuel);
    if os.Halt? then (os, tr2) else (Ok([o.v] + os.v), tr2)
  }

  function ExecStmt(p: Program, s: Stmt, st: State, fuel: nat): (Outcome, State)
    decreases fuel, s, 1
  {
    match s
    case Break => (Broke, st)
    case Continue => (Continued, st)
    case Return(e) =>
      if e.None? then (Returned(VNone), st) else
      var (o, tr) := Eval(p, e.value, st.env, st.trace, fuel);
      (if o.Ok? then Returned(o.v) else Stopped(o.why), State(st.env, tr))
    case Do(e) =>
      var (o, tr) := Eval(p, e, st.env, st.trace, fuel);
      (if o.Ok? then Normal else Stopped(o.why), State(st.env, tr))
    case Let(x, e) =>
      var (o, tr) := Eval(p, e, st.env, st.trace, fuel);
      if o.Halt? then (Stopped(o.why), State(st.env, tr))
      else Updated(Declare(st.env, x, o.v), st.env, tr)
    case Set(x, e) =>
      var (o, tr) := Eval(p, e, st.env, st.trace, fuel);
      if o.Halt? then (Stopped(o.why), State(st.env, tr))
      else Updated(Assign(st.env, x, o.v), st.env, tr)
    case If(c, t, f) =>
      var (o, tr) := Eval(p, c, st.env, st.trace, fuel);
      if o.Halt? then (Stopped(o.why), State(st.env, tr))
      else if !o.v.VBool? then (Stopped(Wrong), State(st.env, tr))
      else if o.v.b then Leave(Exec(p, t, State(Push(st.env), tr), fuel))
      else Leave(Exec(p, f, State(Push(st.env), tr), fuel))
    case Match(e, okName, ok, errName, err) =>
      var (o, tr) := Eval(p, e, st.env, st.trace, fuel);
      if o.Halt? then (Stopped(o.why), State(st.env, tr))
      else if !o.v.VResult? then (Stopped(Wrong), State(st.env, tr))
      else if o.v.ok then Leave(Exec(p, ok, State(Cons(map[okName := o.v.payload], st.env), tr), fuel))
      else Leave(Exec(p, err, State(Cons(map[errName := o.v.payload], st.env), tr), fuel))
    case While(_, _) =>
      Leave(WhileLoop(p, s, State(Push(st.env), st.trace), fuel))
    case ForRange(x, a, b, body) =>
      var env := Push(st.env);
      var (lo, tr1) := Eval(p, a, env, st.trace, fuel);
      if lo.Halt? then (Stopped(lo.why), State(st.env, tr1)) else
      var (hi, tr2) := Eval(p, b, env, tr1, fuel);
      if hi.Halt? then (Stopped(hi.why), State(st.env, tr2))
      else if !lo.v.VInt? || !hi.v.VInt? then (Stopped(Wrong), State(st.env, tr2))
      else Leave(RangeLoop(p, s, hi.v.n, State(Cons(map[x := lo.v], st.env), tr2), fuel))
  }

  function Updated(env': Option<Env>, env: Env, tr: Trace): (Outcome, State) {
    if env'.Some? then (Normal, State(env'.value, tr)) else (Stopped(Wrong), State(env, tr))
  }

  function Leave(r: (Outcome, State)): (Outcome, State) {
    (r.0, State(Pop(r.1.env), r.1.trace))
  }

  function Exec(p: Program, body: seq<Stmt>, st: State, fuel: nat): (Outcome, State)
    decreases fuel, body
  {
    if body == [] then (Normal, st) else
    var (o, st') := ExecStmt(p, body[0], st, fuel);
    if o == Normal then Exec(p, body[1..], st', fuel) else (o, st')
  }

  // How a loop continues after one run of its body.
  predicate Again(o: Outcome) { o == Normal || o == Continued }

  function LoopEnd(o: Outcome): Outcome { if o == Broke then Normal else o }

  function WhileLoop(p: Program, s: Stmt, st: State, fuel: nat): (Outcome, State)
    requires s.While?
    decreases fuel, s, 0
  {
    if fuel == 0 then (Stopped(OutOfFuel), st) else
    var env := Push(st.env);
    var (o, tr) := Eval(p, s.cond, env, st.trace, fuel);
    if o.Halt? then (Stopped(o.why), State(st.env, tr))
    else if !o.v.VBool? then (Stopped(Wrong), State(st.env, tr))
    else if !o.v.b then (Normal, State(st.env, tr)) else
    var (ob, st') := Leave(Exec(p, s.body, State(env, tr), fuel));
    if Again(ob) then WhileLoop(p, s, st', fuel - 1) else (LoopEnd(ob), st')
  }

  // The loop variable is an ordinary variable: the body may set it, and the step
  // increments whatever it holds then.
  function RangeLoop(p: Program, s: Stmt, end: int, st: State, fuel: nat): (Outcome, State)
    requires s.ForRange?
    decreases fuel, s, 0
  {
    if fuel == 0 then (Stopped(OutOfFuel), st) else
    var i := Lookup(st.env, s.name);
    if i.None? || !i.value.VInt? then (Stopped(Wrong), st)
    else if i.value.n >= end then (Normal, st) else
    var (ob, st') := Leave(Exec(p, s.body, State(Push(st.env), st.trace), fuel));
    if !Again(ob) then (LoopEnd(ob), st') else
    var j := Lookup(st'.env, s.name);
    if j.None? || !j.value.VInt? then (Stopped(Wrong), st') else
    var env := Assign(st'.env, s.name, VInt(Int64.Wrap(j.value.n + 1)));
    if env.None? then (Stopped(Wrong), st')
    else RangeLoop(p, s, end, State(env.value, st'.trace), fuel - 1)
  }
}
