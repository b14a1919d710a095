/**
The C subset the backend emits: three-address statements over user variables and
numbered temporaries, their block-scoped semantics, and the flat lines of text in
which the generator writes them.
*/
module CCode {
  import opened Wrappers
  import opened Liaf
  import Int64

  // Right-hand sides; operands are numbers of temporaries.
  datatype Rhs =
    | Long(n: int)                       // vi(nLL)
    | LongMin                            // vi(INT64_MIN)
    | Bool(b: bool)                      // vb(0), vb(1)
    | Nothing                            // vnone()
    | Var(x: string)
    | Temp(t: nat)
    | Op(op: Liaf.Op, l: nat, r: nat)    // vadd, vsub, vmul, vdiv, vb(eq ..), vb(a.i < b.i) ...
    | CallC(func: string, args: seq<nat>)
    | Payload(t: nat)                    // ((Result*)t.p)->value

  datatype Cond = IsTrue(t: nat) | IsFalse(t: nat) | IsOk(t: nat)

  datatype Code =
    | DeclTemp(t: nat, rhs: Rhs)
    | CopyTemp(t: nat, from: nat)
    | DeclVar(x: string, rhs: Rhs)
    | AssignVar(x: string, from: nat)
    | When(cond: Cond, thn: seq<Code>)
    | Branch(cond: Cond, thn: seq<Code>, els: seq<Code>)
    | ReturnC(rhs: Rhs)
    | BreakUnless(t: nat)
    | Forever(body: seq<Code>)
    | Count(x: string, end: nat, body: seq<Code>)   // for(;x.i<end.i;x.i++){..}
    | BreakC
    | ContinueC
    | Block(body: seq<Code>)

  datatype CFunc = CFunc(params: seq<string>, body: seq<Code>)
  type CProgram = map<string, CFunc>

  // A C block scope, with its `u_..` names and its `tmp_..` names kept apart; CFlat puts them together.
  datatype Scope = Scope(user: map<string, Value>, temp: map<nat, Value>)
  type CEnv = List<Scope>
  datatype CState = CState(env: CEnv, trace: Trace)

  const EMPTY := Scope(map[], map[])

  function LookupVar(env: CEnv, x: string): Option<Value> {
    match env
    case Nil => None
    case Cons(s, up) => if x in s.user then Some(s.user[x]) else LookupVar(up, x)
  }

  function LookupTemp(env: CEnv, t: nat): Option<Value> {
    match env
    case Nil => None
    case Cons(s, up) => if t in s.temp then Some(s.temp[t]) else LookupTemp(up, t)
  }

  function LookupTemps(env: CEnv, ts: seq<nat>): Option<seq<Value>> {
    if ts == [] then Some([]) else
    var v := LookupTemp(env, ts[0]);
    var vs := LookupTemps(env, ts[1..]);
    if v.None? || vs.None? then None else Some([v.value] + vs.value)
  }

  function DeclareVar(env: CEnv, x: string, v: Value): Option<CEnv> {
    if env.Nil? || x in env.head.user then None
    else Some(Cons(env.head.(user := env.head.user[x := v]), env.tail))
  }

  function DeclareTemp(env: CEnv, t: nat, v: Value): Option<CEnv> {
    if env.Nil? || t in env.head.temp then None
    else Some(Cons(env.head.(temp := env.head.temp[t := v]), env.tail))
  }

  function StoreVar(env: CEnv, x: string, v: Value): Option<CEnv> {
    match env
    case Nil => None
    case Cons(s, up) =>
      if x in s.user then Some(Cons(s.(user := s.user[x := v]), up)) else
      var up' := StoreVar(up, x, v);
      if up'.None? then None else Some(Cons(s, up'.value))
  }

  function StoreTemp(env: CEnv, t: nat, v: Value): Option<CEnv> {
    match env
    case Nil => None
    case Cons(s, up) =>
      if t in s.temp then Some(Cons(s.(temp := s.temp[t := v]), up)) else
      var up' := StoreTemp(up, t, v);
      if up'.None? then None else Some(Cons(s, up'.value))
  }

  // The `.i` field of a V: zero unless the value is an integer or a boolean.
  function Field(v: Value): int {
    match v
    case VInt(n) => n
    case VBool(b) => if b then 1 else 0
    case _ => 0
  }

  // `eq` of the runtime: same tag, then strings by bytes and everything else by `.i`.
  predicate SameC(a: Value, b: Value) {
    if a.VStr? && b.VStr? then a.s == b.s
    else
      && a.VNone? == b.VNone? && a.VInt? == b.VInt? && a.VBool? == b.VBool?
      && a.VStr? == b.VStr? && a.VResult? == b.VResult?
      && Field(a) == Field(b)
  }

  function ApplyC(op: Liaf.Op, a: Value, b: Value): Res<Value> {
    match op
    case Eq => Ok(VBool(SameC(a, b)))
    case Neq => Ok(VBool(!SameC(a, b)))
    case Gt => Ok(VBool(Field(a) > Field(b)))
    case Lt => Ok(VBool(Field(a) < Field(b)))
    case Gte => Ok(VBool(Field(a) >= Field(b)))
    case Lte => Ok(VBool(Field(a) <= Field(b)))
    case Add => Checked(Field(a) + Field(b))
    case Sub => Checked(Field(a) - Field(b))
    case Mul => Checked(Field(a) * Field(b))
    case Div => Arith(Div, Field(a), Field(b))
  }

  predicate Taken(cond: Cond, v: Value) {
    match cond
    case IsTrue(_) => Field(v) != 0
    case IsFalse(_) => Field(v) == 0
    case IsOk(_) => v.VResult? && v.ok
  }

  function EvalRhs(p: CProgram, rhs: Rhs, st: CState, fuel: nat): (Res<Value>, Trace)
    decreases fuel, rhs
  {
    match rhs
    // 9223372036854775808LL does not exist, so -9223372036854775808LL cannot be written.
    case Long(n) => (if -Int64.MAX <= n <= Int64.MAX then Ok(VInt(n)) else Halt(Wrong), st.trace)
    case LongMin => (Ok(VInt(Int64.MIN)), st.trace)
    case Bool(b) => (Ok(VBool(b)), st.trace)
    case Nothing => (Ok(VNone), st.trace)
    case Var(x) => (Known(LookupVar(st.env, x)), st.trace)
    case Temp(t) => (Known(LookupTemp(st.env, t)), st.trace)
    case Op(op, l, r) =>
      var va, vb := LookupTemp(st.env, l), LookupTemp(st.env, r);
      (if va.None? || vb.None? then Halt(Wrong) else ApplyC(op, va.value, vb.value), st.trace)
    case Payload(t) =>
      var v := LookupTemp(st.env, t);
      (if v.None? || !v.value.VResult? then Halt(Wrong) else Ok(v.value.payload), st.trace)
    case CallC(f, args) =>
      var vs := LookupTemps(st.env, args);
      if vs.None? || f !in p || |p[f].params| != |vs.value| then (Halt(Wrong), st.trace)
      else if fuel == 0 then (Halt(OutOfFuel), st.trace)
      else CallResultC(Run(p, p[f].body, CState(Cons(Scope(Bind(p[f].params, vs.value), map[]), Nil), st.trace + [Event(f, vs.value)]), fuel - 1))
  }

  function Known(v: Option<Value>): Res<Value> {
    if v.Some? then Ok(v.value) else Halt(Wrong)
  }

  function CallResultC(r: (Outcome, CState)): (Res<Value>, Trace) {
    (match r.0
     case Returned(v) => Ok(v)
     case Normal => Halt(Wrong)
     case Stopped(why) => Halt(why)
     case Broke => Halt(Wrong)
     case Continued => Halt(Wrong), r.1.trace)
  }

  function UpdatedC(env': Option<CEnv>, env: CEnv, tr: Trace): (Outcome, CState) {
    if env'.Some? then (Normal, CState(env'.value, tr)) else (Stopped(Wrong), CState(env, tr))
  }

  function LeaveC(r: (Outcome, CState)): (Outcome, CState) {
    (r.0, CState(if r.1.env.Cons? then r.1.env.tail else Nil, r.1.trace))
  }

  function Enter(st: CState): CState { CState(Cons(EMPTY, st.env), st.trace) }

  function Step(p: CProgram, c: Code, st: CState, fuel: nat): (Outcome, CState)
    decreases fuel, c, 1
  {
    match c
    case BreakC => (Broke, st)
    case ContinueC => (Continued, st)
    case DeclTemp(t, rhs) =>
      var (o, tr) := EvalRhs(p, rhs, st, fuel);
      if o.Halt? then (Stopped(o.why), CState(st.env, tr)) else UpdatedC(DeclareTemp(st.env, t, o.v), st.env, tr)
    case DeclVar(x, rhs) =>
      var (o, tr) := EvalRhs(p, rhs, st, fuel);
      if o.Halt? then (Stopped(o.why), CState(st.env, tr)) else UpdatedC(DeclareVar(st.env, x, o.v), st.env, tr)
    case ReturnC(rhs) =>
      var (o, tr) := EvalRhs(p, rhs, st, fuel);
      (if o.Halt? then Stopped(o.why) else Returned(o.v), CState(st.env, tr))
    case CopyTemp(t, from) =>
      var v := LookupTemp(st.env, from);
      if v.None? then (Stopped(Wrong), st) else UpdatedC(StoreTemp(st.env, t, v.value), st.env, st.trace)
    case AssignVar(x, from) =>
      var v := LookupTemp(st.env, from);
      if v.None? then (Stopped(Wrong), st) else UpdatedC(StoreVar(st.env, x, v.value), st.env, st.trace)
    case When(cond, thn) =>
      var v := LookupTemp(st.env, cond.t);
      if v.None? then (Stopped(Wrong), st)
      else if Taken(cond, v.value) then LeaveC(Run(p, thn, Enter(st), fuel))
      else (Normal, st)
    case Branch(cond, thn, els) =>
      var v := LookupTemp(st.env, cond.t);
      if v.None? then (Stopped(Wrong), st)
      else if Taken(cond, v.value) then LeaveC(Run(p, thn, Enter(st), fuel))
      else LeaveC(Run(p, els, Enter(st), fuel))
    case BreakUnless(t) =>
      var v := LookupTemp(st.env, t);
      if v.None? then (Stopped(Wrong), st) else (if Field(v.value) == 0 then Broke else Normal, st)
    case Block(body) => LeaveC(Run(p, body, Enter(st), fuel))
    case Forever(_) => LoopC(p, c, st, fuel)
    case Count(_, _, _) => CountC(p, c, st, fuel)
  }

  function Run(p: CProgram, body: seq<Code>, st: CState, fuel: nat): (Outcome, CState)
    decreases fuel, body
  {
    if body == [] then (Normal, st) else
    var (o, st') := Step(p, body[0], st, fuel);
    if o == Normal then Run(p, body[1..], st', fuel) else (o, st')
  }

  function LoopC(p: CProgram, c: Code, st: CState, fuel: nat): (Outcome, CState)
    requires c.Forever?
    decreases fuel, c, 0
  {
    if fuel == 0 then (Stopped(OutOfFuel), st) else
    var (o, st') := LeaveC(Run(p, c.body, Enter(st), fuel));
    if Again(o) then LoopC(p, c, st', fuel - 1) else (LoopEnd(o), st')
  }

  function CountC(p: CProgram, c: Code, st: CState, fuel: nat): (Outcome, CState)
    requires c.Count?
    decreases fuel, c, 0
  {
    if fuel == 0 then (Stopped(OutOfFuel), st) else
    var i, end := LookupVar(st.env, c.x), LookupTemp(st.env, c.end);
    if i.None? || end.None? then (Stopped(Wrong), st)
    else if Field(i.value) >= Field(end.value) then (Normal, st) else
    var (o, st') := LeaveC(Run(p, c.body, Enter(st), fuel));
    if !Again(o) then (LoopEnd(o), st') else
    var j := LookupVar(st'.env, c.x);
    if j.None? then (Stopped(Wrong), st') else
    var env := StoreVar(st'.env, c.x, Bumped(j.value));
    if env.None? then (Stopped(Wrong), st') else CountC(p, c, CState(env.value, st'.trace), fuel - 1)
  }

  // x.i++ leaves the tag alone.
  function Bumped(v: Value): Value {
    match v
    case VInt(n) => VInt(Int64.Wrap(n + 1))
    case _ => v
  }

  // ----- The emitted lines -----

  datatype Line =
    | LDeclTemp(t: nat, rhs: Rhs)
    | LCopyTemp(t: nat, from: nat)
    | LDeclVar(x: string, rhs: Rhs)
    | LAssignVar(x: string, from: nat)
    | LReturn(rhs: Rhs)
    | LBreakUnless(t: nat)
    | LBreak
    | LContinue
    | LIf(cond: Cond)                 // if(..){
    | LElse                           // }else{
    | LForever                        // for(;;){
    | LCount(x: string, end: nat)     // for(;x.i<end.i;x.i++){
    | LOpen                           // {
    | LClose                          // }
    | LFunc(func: string, params: seq<string>)   // static V f(V *argv) { V p=argv[0]; ..

  function Line1(c: Code): seq<Line>
    decreases c, 1
  {
    match c
    case DeclTemp(t, rhs) => [LDeclTemp(t, rhs)]
    case CopyTemp(t, from) => [LCopyTemp(t, from)]
    case DeclVar(x, rhs) => [LDeclVar(x, rhs)]
    case AssignVar(x, from) => [LAssignVar(x, from)]
    case ReturnC(rhs) => [LReturn(rhs)]
    case BreakUnless(t) => [LBreakUnless(t)]
    case BreakC => [LBreak]
    case ContinueC => [LContinue]
    case When(cond, thn) => [LIf(cond)] + Lines(thn) + [LClose]
    case Branch(cond, thn, els) => [LIf(cond)] + Lines(thn) + [LElse] + Lines(els) + [LClose]
    case Forever(body) => [LForever] + Lines(body) + [LClose]
    case Count(x, end, body) => [LCount(x, end)] + Lines(body) + [LClose]
    case Block(body) => [LOpen] + Lines(body) + [LClose]
  }

  function Lines(cs: seq<Code>): seq<Line>
    decreases cs
  {
    if cs == [] then [] else Line1(cs[0]) + Lines(cs[1..])
  }

  // The text `out` after writing `c` behind it, line by line.
  function Print1(out: seq<Line>, c: Code): seq<Line>
    decreases c, 1
  {
    match c
    case DeclTemp(t, rhs) => out + [LDeclTemp(t, rhs)]
    case CopyTemp(t, from) => out + [LCopyTemp(t, from)]
    case DeclVar(x, rhs) => out + [LDeclVar(x, rhs)]
    case AssignVar(x, from) => out + [LAssignVar(x, from)]
    case ReturnC(rhs) => out + [LReturn(rhs)]
    case BreakUnless(t) => out + [LBreakUnless(t)]
    case BreakC => out + [LBreak]
    case ContinueC => out + [LContinue]
    case When(cond, thn) => Print(out + [LIf(cond)], thn) + [LClose]
    case Branch(cond, thn, els) => Print(Print(out + [LIf(cond)], thn) + [LElse], els) + [LClose]
    case Forever(body) => Print(out + [LForever], body) + [LClose]
    case Count(x, end, body) => Print(out + [LCount(x, end)], body) + [LClose]
    case Block(body) => Print(out + [LOpen], body) + [LClose]
  }

  function Print(out: seq<Line>, cs: seq<Code>): seq<Line>
    decreases cs
  {
    if cs == [] then out else Print(Print1(out, cs[0]), cs[1..])
  }

  lemma {:induction false} PrintAppend(out: seq<Line>, a: seq<Code>, b: seq<Code>)
    ensures Print(out, a + b) == Print(Print(out, a), b)
    decreases |a|
  {
    if a == [] {
      assert a + b == b;
    } else {
      assert (a + b)[1..] == a[1..] + b;
      PrintAppend(Print1(out, a[0]), a[1..], b);
    }
  }

  lemma {:induction false} PrintIsLines(out: seq<Line>, cs: seq<Code>)
    ensures Print(out, cs) == out + Lines(cs)
    decreases cs
  {
    if cs != [] {
      Print1IsLine1(out, cs[0]);
      PrintIsLines(Print1(out, cs[0]), cs[1..]);
      assert out + Line1(cs[0]) + Lines(cs[1..]) == out + (Line1(cs[0]) + Lines(cs[1..]));
    }
  }

  lemma {:induction false} Print1IsLine1(out: seq<Line>, c: Code)
    ensures Print1(out, c) == out + Line1(c)
    decreases c, 1
  {
    match c
    case When(cond, thn) => PrintIsLines(out + [LIf(cond)], thn);
    case Branch(_, _, _) => PrintBranchIsLines(out, c);
    case Forever(body) => PrintIsLines(out + [LForever], body);
    case Count(x, end, body) => PrintIsLines(out + [LCount(x, end)], body);
    case Block(body) => PrintIsLines(out + [LOpen], body);
    case DeclTemp(_, _) =>
    case CopyTemp(_, _) =>
    case DeclVar(_, _) =>
    case AssignVar(_, _) =>
    case ReturnC(_) =>
    case BreakUnless(_) =>
    case BreakC =>
    case ContinueC =>
  }

  lemma {:induction false} PrintBranchIsLines(out: seq<Line>, c: Code)
    requires c.Branch?
    ensures Print1(out, c) == out + Line1(c)
    decreases c, 0
  {
    var (thn, els) := (Lines(c.thn), Lines(c.els));
    PrintIsLines(out + [LIf(c.cond)], c.thn);
    PrintIsLines(out + [LIf(c.cond)] + thn + [LElse], c.els);
    assert out + [LIf(c.cond)] + thn + [LElse] + els + [LClose] == out + ([LIf(c.cond)] + thn + [LElse] + els + [LClose]);
  }

  lemma {:induction false} RunAppend(p: CProgram, a: seq<Code>, b: seq<Code>, st: CState, fuel: nat)
    ensures Run(p, a + b, st, fuel) ==
            var (o, st') := Run(p, a, st, fuel);
            if o == Normal then Run(p, b, st', fuel) else (o, st')
    decreases |a|
  {
    if a == [] {
      assert a + b == b;
    } else {
      assert (a + b)[1..] == a[1..] + b;
      var (o, st') := Step(p, a[0], st, fuel);
      if o == Normal {
        RunAppend(p, a[1..], b, st', fuel);
      }
    }
  }

  // ----- Reading the lines back -----

  // The C compiler's view of the text: braces nest as the lines open and close them.
  // Stops at the first line that belongs to the enclosing construct.
  function Read(ls: seq<Line>): (r: Option<(seq<Code>, seq<Line>)>)
    ensures r.Some? ==> |r.value.1| <= |ls|
    decreases |ls|, 1
  {
    if ls == [] || ls[0] == LClose || ls[0] == LElse then Some(([], ls)) else
    var c := ReadOne(ls);
    if c.None? then None else
    var rest := Read(c.value.1);
    if rest.None? then None else Some(([c.value.0] + rest.value.0, rest.value.1))
  }

  function ReadOne(ls: seq<Line>): (r: Option<(Code, seq<Line>)>)
    requires ls != [] && ls[0] != LClose && ls[0] != LElse
    ensures r.Some? ==> |r.value.1| < |ls|
    decreases |ls|, 0
  {
    var rest := ls[1..];
    match ls[0]
    case LDeclTemp(t, rhs) => Some((DeclTemp(t, rhs), rest))
    case LCopyTemp(t, from) => Some((CopyTemp(t, from), rest))
    case LDeclVar(x, rhs) => Some((DeclVar(x, rhs), rest))
    case LAssignVar(x, from) => Some((AssignVar(x, from), rest))
    case LReturn(rhs) => Some((ReturnC(rhs), rest))
    case LBreakUnless(t) => Some((BreakUnless(t), rest))
    case LBreak => Some((BreakC, rest))
    case LContinue => Some((ContinueC, rest))
    case LIf(cond) =>
      var thn := Read(rest);
      if thn.None? || thn.value.1 == [] then None
      else if thn.value.1[0] == LClose then Some((When(cond, thn.value.0), thn.value.1[1..])) else
      var els := ReadBody(thn.value.1[1..]);
      if els.None? then None else Some((Branch(cond, thn.value.0, els.value.0), els.value.1))
    case LForever =>
      var body := ReadBody(rest);
      if body.None? then None else Some((Forever(body.value.0), body.value.1))
    case LCount(x, end) =>
      var body := ReadBody(rest);
      if body.None? then None else Some((Count(x, end, body.value.0), body.value.1))
    case LOpen =>
      var body := ReadBody(rest);
      if body.None? then None else Some((Block(body.value.0), body.value.1))
    case LElse => None
    case LClose => None
    case LFunc(_, _) => None
  }

  // A body and the brace that closes it.
  function ReadBody(ls: seq<Line>): (r: Option<(seq<Code>, seq<Line>)>)
    ensures r.Some? ==> |r.value.1| < |ls|
    decreases |ls|, 2
  {
    var body := Read(ls);
    if body.None? || body.value.1 == [] || body.value.1[0] != LClose then None
    else Some((body.value.0, body.value.1[1..]))
  }

  predicate Closed(ls: seq<Line>) { ls == [] || ls[0] == LClose || ls[0] == LElse }

  // The text determines the program: reading the lines of any code, whatever closes it, gives it back.
  lemma {:induction false} ReadLines(cs: seq<Code>, rest: seq<Line>)
    requires Closed(rest)
    ensures Read(Lines(cs) + rest) == Some((cs, rest))
    decreases cs, 0
  {
    if cs == [] {
      assert Lines(cs) + rest == rest;
    } else {
      var tail := Lines(cs[1..]) + rest;
      assert Lines(cs) + rest == Line1(cs[0]) + tail;
      ReadLine1(cs[0], tail);
      ReadLines(cs[1..], rest);
      assert [cs[0]] + cs[1..] == cs;
    }
  }

  lemma {:induction false} ReadLine1(c: Code, tail: seq<Line>)
    ensures var ls := Line1(c) + tail;
            !Closed(ls) && ReadOne(ls) == Some((c, tail))
    decreases c, 2
  {
    var ls := Line1(c) + tail;
    assert ls[0] == Line1(c)[0];
    if c.When? {
      ReadWhen(c, tail);
    } else if c.Branch? {
      ReadBranch(c, tail);
    } else if c.Forever? || c.Count? || c.Block? {
      ReadBraced(c.body, tail);
      assert ls[1..] == Braced(c.body) + tail;
    } else {
      assert ls[1..] == tail;
    }
  }

  lemma {:induction false} ReadWhen(c: Code, tail: seq<Line>)
    requires c.When?
    ensures ReadOne(Line1(c) + tail) == Some((c, tail))
    decreases c, 1
  {
    var ls := Line1(c) + tail;
    var closing := [LClose] + tail;
    ReadLines(c.thn, closing);
    assert ls[0] == LIf(c.cond) && ls[1..] == Lines(c.thn) + closing;
    assert closing[1..] == tail;
  }

  lemma {:induction false} ReadBranch(c: Code, tail: seq<Line>)
    requires c.Branch?
    ensures ReadOne(Line1(c) + tail) == Some((c, tail))
    decreases c, 1
  {
    var els := Braced(c.els) + tail;
    ReadLines(c.thn, [LElse] + els);
    ReadBraced(c.els, tail);
    Regroup(LIf(c.cond), Lines(c.thn), LElse, Lines(c.els), LClose, tail);
    ReadElse(Line1(c) + tail, c.cond, c.thn, els, c.els, tail);
  }

  lemma Regroup(a: Line, x: seq<Line>, b: Line, y: seq<Line>, c: Line, tail: seq<Line>)
    ensures var ls := [a] + x + [b] + y + [c] + tail;
            ls[0] == a && ls[1..] == x + ([b] + (y + [c] + tail))
  {}

  lemma {:induction false} ReadElse(ls: seq<Line>, cond: Cond, thn: seq<Code>, afterElse: seq<Line>, els: seq<Code>, tail: seq<Line>)
    requires ls != [] && ls[0] == LIf(cond) && Read(ls[1..]) == Some((thn, [LElse] + afterElse))
    requires ReadBody(afterElse) == Some((els, tail))
    ensures ReadOne(ls) == Some((Branch(cond, thn, els), tail))
  {
    assert ([LElse] + afterElse)[1..] == afterElse;
  }

  function Braced(body: seq<Code>): seq<Line> { Lines(body) + [LClose] }

  lemma {:induction false} ReadBraced(body: seq<Code>, tail: seq<Line>)
    ensures ReadBody(Braced(body) + tail) == Some((body, tail))
    decreases body, 1
  {
    ReadLines(body, [LClose] + tail);
    assert Braced(body) + tail == Lines(body) + ([LClose] + tail);
  }

  // ----- Whole modules -----

  type CModule = seq<(string, CFunc)>

  function PrintModule(out: seq<Line>, fs: CModule): seq<Line>
    decreases |fs|
  {
    if fs == [] then out else PrintModule(PrintFunc(out, fs[0]), fs[1..])
  }

  function PrintFunc(out: seq<Line>, f: (string, CFunc)): seq<Line> {
    Print(out + [LFunc(f.0, f.1.params)], f.1.body) + [LClose]
  }

  function ReadModule(ls: seq<Line>): Option<CModule>
    decreases |ls|
  {
    if ls == [] then Some([])
    else if !ls[0].LFunc? then None else
    var body := ReadBody(ls[1..]);
    if body.None? then None else
    var rest := ReadModule(body.value.1);
    if rest.None? then None else Some([(ls[0].func, CFunc(ls[0].params, body.value.0))] + rest.value)
  }

  function ModuleLines(fs: CModule): seq<Line> {
    if fs == [] then [] else [LFunc(fs[0].0, fs[0].1.params)] + Braced(fs[0].1.body) + ModuleLines(fs[1..])
  }

  lemma {:induction false} PrintModuleIsLines(out: seq<Line>, fs: CModule)
    ensures PrintModule(out, fs) == out + ModuleLines(fs)
    decreases |fs|
  {
    if fs != [] {
      var open := [LFunc(fs[0].0, fs[0].1.params)];
      PrintIsLines(out + open, fs[0].1.body);
      PrintModuleIsLines(PrintFunc(out, fs[0]), fs[1..]);
      assert PrintFunc(out, fs[0]) == out + (open + Braced(fs[0].1.body));
    }
  }

  // The whole text reads back as the functions that were printed.
  lemma {:induction false} ReadModuleLines(fs: CModule)
    ensures ReadModule(ModuleLines(fs)) == Some(fs)
  {
    if fs != [] {
      var rest, lines := ModuleLines(fs[1..]), ModuleLines(fs);
      assert lines[1..] == Braced(fs[0].1.body) + rest;
      ReadBraced(fs[0].1.body, rest);
      ReadModuleLines(fs[1..]);
      assert [fs[0]] + fs[1..] == fs;
    }
  }
}
