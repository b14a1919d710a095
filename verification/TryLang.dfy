/**
The Go backend's view of `try`: the source expressions and statements that may contain it,
the Go code they become, and the meaning of both. Calls and receives go to an arbitrary world
that may answer by the whole history of calls, so equal histories mean equal interaction.
*/
module TryLang {
  import opened Wrappers
  import opened Liaf
  import Int64

  // ----- Source -----

  // `node` stands for the address of the TryExpr, the key of the generator's `hoisted` map; `zero` for the
  // zero value Go has for its type.
  datatype SExpr =
    | SLit(v: Value)
    | SIdent(name: string)
    | SCall(func: string, args: seq<SExpr>)
    | SBin(op: Op, left: SExpr, right: SExpr)
    | SLogic(isOr: bool, left: SExpr, right: SExpr)
    | SIf(cond: SExpr, thn: SExpr, els: SExpr)
    | SRecv(chan: SExpr)
    | STry(node: nat, operand: SExpr, zero: Value)

  datatype SStmt =
    | SLet(name: string, value: SExpr)
    | SSet(name: string, value: SExpr)
    | SReturn(result: Option<SExpr>)
    | SDo(value: SExpr)
    | SIfStmt(cond: SExpr, thn: seq<SStmt>, els: seq<SStmt>)
    | SWhile(cond: SExpr, body: seq<SStmt>)
    | SForRange(name: string, start: SExpr, end: SExpr, body: seq<SStmt>)
    | SBreak
    | SContinue
    | SMatch(value: SExpr, okName: string, ok: seq<SStmt>, errName: string, err: seq<SStmt>)

  // ----- Go -----

  datatype GExpr =
    | GLit(v: Value)
    | GIdent(name: string)
    | GCall(func: string, args: seq<GExpr>)
    | GBin(op: Op, left: GExpr, right: GExpr)
    | GLogic(isOr: bool, left: GExpr, right: GExpr)
    | GIf(cond: GExpr, thn: GExpr, els: GExpr)
    | GRecv(chan: GExpr)
    | GTempValue(id: nat)        // _liaf_try_id.Value
    | GValueOf(operand: GExpr, zero: Value)   // (operand).Value

  // How a failed guard leaves the function.
  datatype Leaving =
    | CallHandler         // return _liaf_on_err(id.Error)
    | CallHandlerVoid     // _liaf_on_err(id.Error); return
    | PropagateZero       // var _zero T; _zero.OK = false; _zero.Error = id.Error; return _zero

  datatype GStmt =
    | GGuard(id: nat, value: GExpr, leaving: Leaving)   // id := value; if !id.OK { .. }
    | GLet(name: string, value: GExpr)
    | GSet(name: string, value: GExpr)
    | GReturn(result: Option<GExpr>)
    | GDo(value: GExpr)
    | GIfStmt(cond: GExpr, thn: seq<GStmt>, els: seq<GStmt>)
    | GWhile(cond: GExpr, body: seq<GStmt>)
    | GForRange(name: string, start: GExpr, end: GExpr, body: seq<GStmt>)
    | GBreak
    | GContinue
    | GMatch(value: GExpr, okName: string, ok: seq<GStmt>, errName: string, err: seq<GStmt>)

  // ----- Meaning -----

  // What a call answers after a given history: a value, or the end of the program.
  type World = (Trace, string, seq<Value>) -> Res<Value>

  const RECEIVE := "<-"

  function Ask(w: World, f: string, args: seq<Value>, tr: Trace): (Res<Value>, Trace) {
    (w(tr, f, args), tr + [Event(f, args)])
  }

  // `Failed` is a try whose operand was an error; `inPlace` says that it stands where evaluation is conditional.
  datatype Out = Val(v: Value) | Failed(error: Value, inPlace: bool) | Stop(why: Stop)

  function Conditional(r: (Out, Trace)): (Out, Trace) { (if r.0.Failed? then r.0.(inPlace := true) else r.0, r.1) }

  // What a try means when its operand is an error. In the source it fails. In what the generator makes of the
  // source it fails where it is lifted; where evaluation is conditional it has no guard and gives the zero value.
  datatype Mode = Source | Guarded | Bare

  // The mode where evaluation is conditional.
  function Inner(m: Mode): Mode { if m == Guarded then Bare else m }

  function FromRes(r: Res<Value>): Out {
    match r
    case Ok(v) => Val(v)
    case Halt(why) => Stop(why)
  }

  function EvalS(w: World, m: Mode, e: SExpr, env: Env, tr: Trace): (Out, Trace)
    decreases e
  {
    match e
    case SLit(v) => (Val(v), tr)
    case SIdent(x) =>
      var v := Lookup(env, x);
      (if v.Some? then Val(v.value) else Stop(Wrong), tr)
    case SCall(f, args) =>
      var (o, vs, tr1) := EvalSArgs(w, m, args, env, tr);
      if !o.Val? then (o, tr1) else
      var (r, tr2) := Ask(w, f, vs, tr1);
      (FromRes(r), tr2)
    case SRecv(ch) =>
      var (o, tr1) := EvalS(w, m, ch, env, tr);
      if !o.Val? then (o, tr1) else
      var (r, tr2) := Ask(w, RECEIVE, [o.v], tr1);
      (FromRes(r), tr2)
    case SBin(op, l, r) =>
      var (a, tr1) := EvalS(w, m, l, env, tr);
      if !a.Val? then (a, tr1) else
      var (b, tr2) := EvalS(w, m, r, env, tr1);
      if !b.Val? then (b, tr2) else (FromRes(Apply(op, a.v, b.v)), tr2)
    case SLogic(isOr, l, r) =>
      var (a, tr1) := EvalS(w, m, l, env, tr);
      if !a.Val? then (a, tr1)
      else if !a.v.VBool? then (Stop(Wrong), tr1)
      else if a.v.b == isOr then (a, tr1)
      else Conditional(EvalS(w, Inner(m), r, env, tr1))
    case SIf(c, t, f) =>
      var (a, tr1) := EvalS(w, m, c, env, tr);
      if !a.Val? then (a, tr1)
      else if !a.v.VBool? then (Stop(Wrong), tr1)
      else if a.v.b then Conditional(EvalS(w, Inner(m), t, env, tr1))
      else Conditional(EvalS(w, Inner(m), f, env, tr1))
    case STry(_, operand, zero) =>
      var (a, tr1) := EvalS(w, m, operand, env, tr);
      if !a.Val? then (a, tr1)
      else if !a.v.VResult? then (Stop(Wrong), tr1)
      else if a.v.ok then (Val(a.v.payload), tr1)
      else if m == Bare then (Val(zero), tr1)
      else (Failed(a.v.payload, false), tr1)
  }

  // Left to right; the values are those of all arguments when the outcome is a Val.
  function EvalSArgs(w: World, m: Mode, args: seq<SExpr>, env: Env, tr: Trace): (Out, seq<Value>, Trace)
    decreases args
  {
    if args == [] then (Val(VNone), [], tr) else
    var (o, tr1) := EvalS(w, m, args[0], env, tr);
    if !o.Val? then (o, [], tr1) else
    var (os, vs, tr2) := EvalSArgs(w, m, args[1..], env, tr1);
    (os, [o.v] + vs, tr2)
  }

  // The field .Value of a Go Result: the zero value when it holds an error.
  function ValueField(r: Value, zero: Value): Res<Value> {
    if !r.VResult? then Halt(Wrong) else Ok(if r.ok then r.payload else zero)
  }

  type TempMap = map<nat, Value>

  function EvalG(w: World, e: GExpr, env: Env, temps: TempMap, tr: Trace): (Res<Value>, Trace)
    decreases e
  {
    match e
    case GLit(v) => (Ok(v), tr)
    case GIdent(x) =>
      var v := Lookup(env, x);
      (if v.Some? then Ok(v.value) else Halt(Wrong), tr)
    case GTempValue(id) => (if id in temps then ValueField(temps[id], VNone) else Halt(Wrong), tr)
    case GValueOf(operand, zero) =>
      var (o, tr1) := EvalG(w, operand, env, temps, tr);
      (if o.Ok? then ValueField(o.v, zero) else o, tr1)
    case GCall(f, args) =>
      var (vs, tr1) := EvalGArgs(w, args, env, temps, tr);
      if vs.Halt? then (Halt(vs.why), tr1) else Ask(w, f, vs.v, tr1)
    case GRecv(ch) =>
      var (o, tr1) := EvalG(w, ch, env, temps, tr);
      if o.Halt? then (o, tr1) else Ask(w, RECEIVE, [o.v], tr1)
    case GBin(op, l, r) =>
      var (a, tr1) := EvalG(w, l, env, temps, tr);
      if a.Halt? then (a, tr1) else
      var (b, tr2) := EvalG(w, r, env, temps, tr1);
      if b.Halt? then (b, tr2) else (Apply(op, a.v, b.v), tr2)
    case GLogic(isOr, l, r) =>
      var (a, tr1) := EvalG(w, l, env, temps, tr);
      if a.Halt? then (a, tr1)
      else if !a.v.VBool? then (Halt(Wrong), tr1)
      else if a.v.b == isOr then (a, tr1)
      else EvalG(w, r, env, temps, tr1)
    case GIf(c, t, f) =>
      var (a, tr1) := EvalG(w, c, env, temps, tr);
      if a.Halt? then (a, tr1)
      else if !a.v.VBool? then (Halt(Wrong), tr1)
      else if a.v.b then EvalG(w, t, env, temps, tr1)
      else EvalG(w, f, env, temps, tr1)
  }

  function EvalGArgs(w: World, args: seq<GExpr>, env: Env, temps: TempMap, tr: Trace): (Res<seq<Value>>, Trace)
    decreases args
  {
    if args == [] then (Ok([]), tr) else
    var (o, tr1) := EvalG(w, args[0], env, temps, tr);
    if o.Halt? then (Halt(o.why), tr1) else
    var (os, tr2) := EvalGArgs(w, args[1..], env, temps, tr1);
    if os.Halt? then (os, tr2) else (Ok([o.v] + os.v), tr2)
  }

  // The function around the code: does it have an (on-err ..) block, does it return void.
  datatype Ctx = Ctx(onErr: bool, isVoid: bool)

  // How a statement ends. `Handled` is the function left through its on-err block, with the value of the
  // block unless the function returns none. `Misplaced` marks, in the source, a try that failed where
  // evaluation is conditional; what it means is said by `Meaning`.
  datatype End =
    | Next | Broken | Continuing
    | Left(v: Value)
    | Handled(error: Value, returnsValue: bool)
    | Misplaced(error: Value)
    | Ended(why: Stop)

  // A failed try leaves the function: through on-err, or as the error of its own result.
  function Escape(ctx: Ctx, error: Value): End {
    if ctx.onErr then Handled(error, !ctx.isVoid) else Left(VResult(false, error))
  }

  function Meaning(ctx: Ctx, e: End): End { if e.Misplaced? then Escape(ctx, e.error) else e }

  function LeaveBy(leaving: Leaving, error: Value): End {
    match leaving
    case CallHandler => Handled(error, true)
    case CallHandlerVoid => Handled(error, false)
    case PropagateZero => Left(VResult(false, error))
  }

  function EndOf(ctx: Ctx, o: Out): End {
    match o
    case Val(_) => Next
    case Failed(error, inPlace) => if inPlace then Misplaced(error) else Escape(ctx, error)
    case Stop(why) => Ended(why)
  }

  function EndOfG(o: Res<Value>): End {
    if o.Ok? then Next else Ended(o.why)
  }

  predicate Resumes(e: End) { e == Next || e == Continuing }

  function AfterLoop(e: End): End { if e == Broken then Next else e }

  datatype SState = SState(env: Env, trace: Trace)

  function UpdatedS(env': Option<Env>, env: Env, tr: Trace): (End, SState) {
    if env'.Some? then (Next, SState(env'.value, tr)) else (Ended(Wrong), SState(env, tr))
  }

  function LeaveS(r: (End, SState)): (End, SState) { (r.0, SState(Pop(r.1.env), r.1.trace)) }

  function RunStmt(w: World, m: Mode, ctx: Ctx, s: SStmt, st: SState, fuel: nat): (End, SState)
    decreases fuel, s, 1
  {
    match s
    case SBreak => (Broken, st)
    case SContinue => (Continuing, st)
    case SReturn(e) =>
      if e.None? then (Left(VNone), st) else
      var (o, tr) := EvalS(w, m, e.value, st.env, st.trace);
      (if o.Val? then Left(o.v) else EndOf(ctx, o), SState(st.env, tr))
    case SDo(e) =>
      var (o, tr) := EvalS(w, m, e, st.env, st.trace);
      (EndOf(ctx, o), SState(st.env, tr))
    case SLet(x, e) =>
      var (o, tr) := EvalS(w, m, e, st.env, st.trace);
      if !o.Val? then (EndOf(ctx, o), SState(st.env, tr)) else UpdatedS(Declare(st.env, x, o.v), st.env, tr)
    case SSet(x, e) =>
      var (o, tr) := EvalS(w, m, e, st.env, st.trace);
      if !o.Val? then (EndOf(ctx, o), SState(st.env, tr)) else UpdatedS(Assign(st.env, x, o.v), st.env, tr)
    case SIfStmt(c, t, f) =>
      var (o, tr) := EvalS(w, m, c, st.env, st.trace);
      if !o.Val? then (EndOf(ctx, o), SState(st.env, tr))
      else if !o.v.VBool? then (Ended(Wrong), SState(st.env, tr))
      else if o.v.b then LeaveS(RunBody(w, m, ctx, t, SState(Push(st.env), tr), fuel))
      else LeaveS(RunBody(w, m, ctx, f, SState(Push(st.env), tr), fuel))
    case SMatch(e, okName, ok, errName, err) =>
      var (o, tr) := EvalS(w, m, e, st.env, st.trace);
      if !o.Val? then (EndOf(ctx, o), SState(st.env, tr))
      else if !o.v.VResult? then (Ended(Wrong), SState(st.env, tr))
      else if o.v.ok then LeaveS(RunBody(w, m, ctx, ok, SState(Cons(map[okName := o.v.payload], st.env), tr), fuel))
      else LeaveS(RunBody(w, m, ctx, err, SState(Cons(map[errName := o.v.payload], st.env), tr), fuel))
    case SWhile(_, _) => RunWhile(w, m, ctx, s, st, fuel)
    case SForRange(x, a, b, _) =>
      var (o, vs, tr) := EvalSArgs(w, m, [a, b], st.env, st.trace);
      if !o.Val? then (EndOf(ctx, o), SState(st.env, tr))
      else if |vs| != 2 || !vs[0].VInt? || !vs[1].VInt? then (Ended(Wrong), SState(st.env, tr))
      else LeaveS(RunRange(w, m, ctx, s, vs[1].n, SState(Cons(map[x := vs[0]], st.env), tr), fuel))
  }

  function RunBody(w: World, m: Mode, ctx: Ctx, body: seq<SStmt>, st: SState, fuel: nat): (End, SState)
    decreases fuel, body
  {
    if body == [] then (Next, st) else
    var (o, st') := RunStmt(w, m, ctx, body[0], st, fuel);
    if o == Next then RunBody(w, m, ctx, body[1..], st', fuel) else (o, st')
  }

  function RunWhile(w: World, m: Mode, ctx: Ctx, s: SStmt, st: SState, fuel: nat): (End, SState)
    requires s.SWhile?
    decreases fuel, s, 0
  {
    if fuel == 0 then (Ended(OutOfFuel), st) else
    var (o, tr) := Conditional(EvalS(w, Inner(m), s.cond, st.env, st.trace));
    if !o.Val? then (EndOf(ctx, o), SState(st.env, tr))
    else if !o.v.VBool? then (Ended(Wrong), SState(st.env, tr))
    else if !o.v.b then (Next, SState(st.env, tr)) else
    var (ob, st') := LeaveS(RunBody(w, m, ctx, s.body, SState(Push(st.env), tr), fuel));
    if Resumes(ob) then RunWhile(w, m, ctx, s, st', fuel - 1) else (AfterLoop(ob), st')
  }

  function RunRange(w: World, m: Mode, ctx: Ctx, s: SStmt, end: int, st: SState, fuel: nat): (End, SState)
    requires s.SForRange?
    decreases fuel, s, 0
  {
    if fuel == 0 then (Ended(OutOfFuel), st) else
    var i := Lookup(st.env, s.name);
    if i.None? || !i.value.VInt? then (Ended(Wrong), st)
    else if i.value.n >= end then (Next, st) else
    var (ob, st') := LeaveS(RunBody(w, m, ctx, s.body, SState(Push(st.env), st.trace), fuel));
    if !Resumes(ob) then (AfterLoop(ob), st') else
    var env := Bump(st'.env, s.name);
    if env.None? then (Ended(Wrong), st') else RunRange(w, m, ctx, s, end, SState(env.value, st'.trace), fuel - 1)
  }

  // x++ on an int64 variable.
  function Bump(env: Env, x: string): Option<Env> {
    var j := Lookup(env, x);
    if j.None? || !j.value.VInt? then None else Assign(env, x, VInt(Int64.Wrap(j.value.n + 1)))
  }

  datatype GState = GState(env: Env, temps: TempMap, trace: Trace)

  function UpdatedG(env': Option<Env>, st: GState, tr: Trace): (End, GState) {
    if env'.Some? then (Next, st.(env := env'.value, trace := tr)) else (Ended(Wrong), st.(trace := tr))
  }

  function LeaveG(r: (End, GState)): (End, GState) { (r.0, r.1.(env := Pop(r.1.env))) }

  function StepG(w: World, s: GStmt, st: GState, fuel: nat): (End, GState)
    decreases fuel, s, 1
  {
    match s
    case GBreak => (Broken, st)
    case GContinue => (Continuing, st)
    case GGuard(id, e, leaving) =>
      var (o, tr) := EvalG(w, e, st.env, st.temps, st.trace);
      if o.Halt? then (EndOfG(o), st.(trace := tr))
      else if !o.v.VResult? then (Ended(Wrong), st.(trace := tr))
      else if o.v.ok then (Next, st.(temps := st.temps[id := o.v], trace := tr))
      else (LeaveBy(leaving, o.v.payload), st.(trace := tr))
    case GReturn(e) =>
      if e.None? then (Left(VNone), st) else
      var (o, tr) := EvalG(w, e.value, st.env, st.temps, st.trace);
      (if o.Ok? then Left(o.v) else EndOfG(o), st.(trace := tr))
    case GDo(e) =>
      var (o, tr) := EvalG(w, e, st.env, st.temps, st.trace);
      (EndOfG(o), st.(trace := tr))
    case GLet(x, e) =>
      var (o, tr) := EvalG(w, e, st.env, st.temps, st.trace);
      if o.Halt? then (EndOfG(o), st.(trace := tr)) else UpdatedG(Declare(st.env, x, o.v), st, tr)
    case GSet(x, e) =>
      var (o, tr) := EvalG(w, e, st.env, st.temps, st.trace);
      if o.Halt? then (EndOfG(o), st.(trace := tr)) else UpdatedG(Assign(st.env, x, o.v), st, tr)
    case GIfStmt(c, t, f) =>
      var (o, tr) := EvalG(w, c, st.env, st.temps, st.trace);
      if o.Halt? then (EndOfG(o), st.(trace := tr))
      else if !o.v.VBool? then (Ended(Wrong), st.(trace := tr))
      else if o.v.b then LeaveG(RunG(w, t, st.(env := Push(st.env), trace := tr), fuel))
      else LeaveG(RunG(w, f, st.(env := Push(st.env), trace := tr), fuel))
    case GMatch(e, okName, ok, errName, err) =>
      var (o, tr) := EvalG(w, e, st.env, st.temps, st.trace);
      if o.Halt? then (EndOfG(o), st.(trace := tr))
      else if !o.v.VResult? then (Ended(Wrong), st.(trace := tr))
      else if o.v.ok then LeaveG(RunG(w, ok, st.(env := Cons(map[okName := o.v.payload], st.env), trace := tr), fuel))
      else LeaveG(RunG(w, err, st.(env := Cons(map[errName := o.v.payload], st.env), trace := tr), fuel))
    case GWhile(_, _) => LoopG(w, s, st, fuel)
    case GForRange(x, a, b, _) =>
      var (vs, tr) := EvalGArgs(w, [a, b], st.env, st.temps, st.trace);
      if vs.Halt? then (Ended(vs.why), st.(trace := tr))
      else if |vs.v| != 2 || !vs.v[0].VInt? || !vs.v[1].VInt? then (Ended(Wrong), st.(trace := tr))
      else LeaveG(RangeG(w, s, vs.v[1].n, st.(env := Cons(map[x := vs.v[0]], st.env), trace := tr), fuel))
  }

  function RunG(w: World, body: seq<GStmt>, st: GState, fuel: nat): (End, GState)
    decreases fuel, body
  {
    if body == [] then (Next, st) else
    var (o, st') := StepG(w, body[0], st, fuel);
    if o == Next then RunG(w, body[1..], st', fuel) else (o, st')
  }

  function LoopG(w: World, s: GStmt, st: GState, fuel: nat): (End, GState)
    requires s.GWhile?
    decreases fuel, s, 0
  {
    if fuel == 0 then (Ended(OutOfFuel), st) else
    var (o, tr) := EvalG(w, s.cond, st.env, st.temps, st.trace);
    if o.Halt? then (EndOfG(o), st.(trace := tr))
    else if !o.v.VBool? then (Ended(Wrong), st.(trace := tr))
    else if !o.v.b then (Next, st.(trace := tr)) else
    var (ob, st') := LeaveG(RunG(w, s.body, st.(env := Push(st.env), trace := tr), fuel));
    if Resumes(ob) then LoopG(w, s, st', fuel - 1) else (AfterLoop(ob), st')
  }

  function RangeG(w: World, s: GStmt, end: int, st: GState, fuel: nat): (End, GState)
    requires s.GForRange?
    decreases fuel, s, 0
  {
    if fuel == 0 then (Ended(OutOfFuel), st) else
    var i := Lookup(st.env, s.name);
    if i.None? || !i.value.VInt? then (Ended(Wrong), st)
    else if i.value.n >= end then (Next, st) else
    var (ob, st') := LeaveG(RunG(w, s.body, st.(env := Push(st.env)), fuel));
    if !Resumes(ob) then (AfterLoop(ob), st') else
    var env := Bump(st'.env, s.name);
    if env.None? then (Ended(Wrong), st') else RangeG(w, s, end, st'.(env := env.value), fuel - 1)
  }

  lemma {:induction false} RunGAppend(w: World, a: seq<GStmt>, b: seq<GStmt>, st: GState, fuel: nat)
    ensures RunG(w, a + b, st, fuel) ==
            var (o, st') := RunG(w, a, st, fuel);
            if o == Next then RunG(w, b, st', fuel) else (o, st')
    decreases |a|
  {
    if a == [] {
      assert a + b == b;
    } else {
      assert (a + b)[1..] == a[1..] + b;
      var (o, st') := StepG(w, a[0], st, fuel);
      if o == Next { RunGAppend(w, a[1..], b, st', fuel); }
    }
  }

  lemma {:induction false} RunGOne(w: World, s: GStmt, st: GState, fuel: nat)
    ensures RunG(w, [s], st, fuel) == StepG(w, s, st, fuel)
  {
    assert RunG(w, [s][1..], StepG(w, s, st, fuel).1, fuel) == (Next, StepG(w, s, st, fuel).1);
  }
}
