/**
The emitted C with the names it really has: variables, temporaries and functions are identifiers, strings of
bytes, and share the scopes of C. Runs are those of the C that keeps them apart; a call reaches its function
exactly where no variable of that name is in scope.
*/
module CFlat {
  import opened Wrappers
  import opened Bytes
  import opened Liaf
  import opened CCode
  import opened CLowering
  import opened CCorrect
  import CNames
  import Utf8

  // ----- Names -----

  function Runes(x: string): seq<Utf8.Rune> { if x == [] then [] else [x[0] as int] + Runes(x[1..]) }

  // The identifier of a variable or a function, and that of a temporary.
  function Name(x: string): Bytes { CNames.Ident(Utf8.EncodeAll(Runes(x))) }

  function TempName(t: nat): Bytes { CNames.Temp(t) }

  lemma {:induction false} RunesInjective(x: string, y: string)
    requires Runes(x) == Runes(y)
    ensures x == y
  {
    if x != [] && y != [] {
      assert Runes(x)[0] == x[0] as int && Runes(y)[0] == y[0] as int;
      assert Runes(x)[1..] == Runes(x[1..]) && Runes(y)[1..] == Runes(y[1..]);
      RunesInjective(x[1..], y[1..]);
      assert x == [x[0]] + x[1..] && y == [y[0]] + y[1..];
    }
  }

  lemma NamesApart(x: string, y: string, s: nat, t: nat)
    ensures Name(x) == Name(y) ==> x == y
    ensures TempName(s) == TempName(t) ==> s == t
    ensures Name(x) != TempName(t)
  {
    var (a, b) := (Runes(x), Runes(y));
    CNames.NamesNeverMeet(Utf8.EncodeAll(a), Utf8.EncodeAll(b), s, t);
    if Name(x) == Name(y) {
      Utf8.DecodeEncode(a);
      Utf8.DecodeEncode(b);
      RunesInjective(x, y);
    }
  }

  // ----- Runs over one kind of name -----

  type FlatEnv = List<map<Bytes, Value>>
  type FlatProgram = map<Bytes, CFunc>
  datatype FlatState = FlatState(env: FlatEnv, trace: Trace)

  function Find(env: FlatEnv, x: Bytes): Option<Value> {
    match env
    case Nil => None
    case Cons(s, up) => if x in s then Some(s[x]) else Find(up, x)
  }

  function FindTemps(env: FlatEnv, ts: seq<nat>): Option<seq<Value>> {
    if ts == [] then Some([]) else
    var v := Find(env, TempName(ts[0]));
    var vs := FindTemps(env, ts[1..]);
    if v.None? || vs.None? then None else Some([v.value] + vs.value)
  }

  function Open(env: FlatEnv, x: Bytes, v: Value): Option<FlatEnv> {
    if env.Nil? || x in env.head then None else Some(Cons(env.head[x := v], env.tail))
  }

  function Store(env: FlatEnv, x: Bytes, v: Value): Option<FlatEnv> {
    match env
    case Nil => None
    case Cons(s, up) =>
      if x in s then Some(Cons(s[x := v], up)) else
      var up' := Store(up, x, v);
      if up'.None? then None else Some(Cons(s, up'.value))
  }

  function BindNames(params: seq<string>, args: seq<Value>): map<Bytes, Value>
    requires |params| == |args|
  {
    if params == [] then map[]
    else BindNames(params[..|params| - 1], args[..|args| - 1])[Name(params[|params| - 1]) := args[|args| - 1]]
  }

  function FlatRhs(p: FlatProgram, rhs: Rhs, st: FlatState, fuel: nat): (Res<Value>, Trace)
    decreases fuel, rhs
  {
    match rhs
    case Var(x) => (Known(Find(st.env, Name(x))), st.trace)
    case Temp(t) => (Known(Find(st.env, TempName(t))), st.trace)
    case Op(op, l, r) =>
      var va, vb := Find(st.env, TempName(l)), Find(st.env, TempName(r));
      (if va.None? || vb.None? then Halt(Wrong) else ApplyC(op, va.value, vb.value), st.trace)
    case Payload(t) =>
      var v := Find(st.env, TempName(t));
      (if v.None? || !v.value.VResult? then Halt(Wrong) else Ok(v.value.payload), st.trace)
    case CallC(f, args) =>
      var vs := FindTemps(st.env, args);
      if vs.None? || Name(f) !in p || |p[Name(f)].params| != |vs.value| then (Halt(Wrong), st.trace)
      else if fuel == 0 then (Halt(OutOfFuel), st.trace)
      else FlatResult(FlatRun(p, p[Name(f)].body, Entered(p[Name(f)], f, vs.value, st.trace), fuel - 1))
    case _ => EvalRhs(map[], rhs, CState(Nil, st.trace), fuel)
  }

  function Entered(f: CFunc, name: string, args: seq<Value>, tr: Trace): FlatState
    requires |f.params| == |args|
  {
    FlatState(Cons(BindNames(f.params, args), Nil), tr + [Event(name, args)])
  }

  function FlatResult(r: (Outcome, FlatState)): (Res<Value>, Trace) { CallResultC((r.0, CState(Nil, r.1.trace))) }

  function FlatUpdated(env': Option<FlatEnv>, env: FlatEnv, tr: Trace): (Outcome, FlatState) {
    if env'.Some? then (Normal, FlatState(env'.value, tr)) else (Stopped(Wrong), FlatState(env, tr))
  }

  function FlatLeave(r: (Outcome, FlatState)): (Outcome, FlatState) {
    (r.0, FlatState(if r.1.env.Cons? then r.1.env.tail else Nil, r.1.trace))
  }

  function FlatEnter(st: FlatState): FlatState { FlatState(Cons(map[], st.env), st.trace) }

  function FlatStep(p: FlatProgram, c: Code, st: FlatState, fuel: nat): (Outcome, FlatState)
    decreases fuel, c, 1
  {
    match c
    case BreakC => (Broke, st)
    case ContinueC => (Continued, st)
    case DeclTemp(t, rhs) =>
      var (o, tr) := FlatRhs(p, rhs, st, fuel);
      if o.Halt? then (Stopped(o.why), FlatState(st.env, tr)) else FlatUpdated(Open(st.env, TempName(t), o.v), st.env, tr)
    case DeclVar(x, rhs) =>
      var (o, tr) := FlatRhs(p, rhs, st, fuel);
      if o.Halt? then (Stopped(o.why), FlatState(st.env, tr)) else FlatUpdated(Open(st.env, Name(x), o.v), st.env, tr)
    case ReturnC(rhs) =>
      var (o, tr) := FlatRhs(p, rhs, st, fuel);
      (if o.Halt? then Stopped(o.why) else Returned(o.v), FlatState(st.env, tr))
    case CopyTemp(t, from) =>
      var v := Find(st.env, TempName(from));
      if v.None? then (Stopped(Wrong), st) else FlatUpdated(Store(st.env, TempName(t), v.value), st.env, st.trace)
    case AssignVar(x, from) =>
      var v := Find(st.env, TempName(from));
      if v.None? then (Stopped(Wrong), st) else FlatUpdated(Store(st.env, Name(x), v.value), st.env, st.trace)
    case When(cond, thn) =>
      var v := Find(st.env, TempName(cond.t));
      if v.None? then (Stopped(Wrong), st)
      else if Taken(cond, v.value) then FlatLeave(FlatRun(p, thn, FlatEnter(st), fuel))
      else (Normal, st)
    case Branch(cond, thn, els) =>
      var v := Find(st.env, TempName(cond.t));
      if v.None? then (Stopped(Wrong), st)
      else if Taken(cond, v.value) then FlatLeave(FlatRun(p, thn, FlatEnter(st), fuel))
      else FlatLeave(FlatRun(p, els, FlatEnter(st), fuel))
    case BreakUnless(t) =>
      var v := Find(st.env, TempName(t));
      if v.None? then (Stopped(Wrong), st) else (if Field(v.value) == 0 then Broke else Normal, st)
    case Block(body) => FlatLeave(FlatRun(p, body, FlatEnter(st), fuel))
    case Forever(_) => FlatLoop(p, c, st, fuel)
    case Count(_, _, _) => FlatCount(p, c, st, fuel)
  }

  function FlatRun(p: FlatProgram, body: seq<Code>, st: FlatState, fuel: nat): (Outcome, FlatState)
    decreases fuel, body
  {
    if body == [] then (Normal, st) else
    var (o, st') := FlatStep(p, body[0], st, fuel);
    if o == Normal then FlatRun(p, body[1..], st', fuel) else (o, st')
  }

  function FlatLoop(p: FlatProgram, c: Code, st: FlatState, fuel: nat): (Outcome, FlatState)
    requires c.Forever?
    decreases fuel, c, 0
  {
    if fuel == 0 then (Stopped(OutOfFuel), st) else
    var (o, st') := FlatLeave(FlatRun(p, c.body, FlatEnter(st), fuel));
    if Again(o) then FlatLoop(p, c, st', fuel - 1) else (LoopEnd(o), st')
  }

  function FlatCount(p: FlatProgram, c: Code, st: FlatState, fuel: nat): (Outcome, FlatState)
    requires c.Count?
    decreases fuel, c, 0
  {
    if fuel == 0 then (Stopped(OutOfFuel), st) else
    var i, end := Find(st.env, Name(c.x)), Find(st.env, TempName(c.end));
    if i.None? || end.None? then (Stopped(Wrong), st)
    else if Field(i.value) >= Field(end.value) then (Normal, st)
    else FlatTurn(p, c, FlatLeave(FlatRun(p, c.body, FlatEnter(st), fuel)), fuel)
  }

  function FlatTurn(p: FlatProgram, c: Code, r: (Outcome, FlatState), fuel: nat): (Outcome, FlatState)
    requires c.Count? && fuel > 0
    decreases fuel - 1, c, 2
  {
    if !Again(r.0) then (LoopEnd(r.0), r.1) else
    var j := Find(r.1.env, Name(c.x));
    if j.None? then (Stopped(Wrong), r.1) else
    var env := Store(r.1.env, Name(c.x), Bumped(j.value));
    if env.None? then (Stopped(Wrong), r.1) else FlatCount(p, c, FlatState(env.value, r.1.trace), fuel - 1)
  }

  function FlatCall(p: FlatProgram, f: string, args: seq<Value>, tr: Trace, fuel: nat): (Res<Value>, Trace)
    requires Name(f) in p && |args| == |p[Name(f)].params|
  {
    FlatResult(FlatRun(p, p[Name(f)].body, Entered(p[Name(f)], f, args, tr), fuel))
  }

  // ----- Both runs are the same -----

  // The scope of C holds the variables and the temporaries, each under its name.
  ghost predicate Holds(m: map<Bytes, Value>, s: Scope) {
    && (forall x :: (Name(x) in m <==> x in s.user) && (x in s.user ==> m[Name(x)] == s.user[x]))
    && (forall t :: (TempName(t) in m <==> t in s.temp) && (t in s.temp ==> m[TempName(t)] == s.temp[t]))
  }

  ghost predicate HoldsAll(fe: FlatEnv, env: CEnv)
    decreases env
  {
    match env
    case Nil => fe.Nil?
    case Cons(s, up) => fe.Cons? && Holds(fe.head, s) && HoldsAll(fe.tail, up)
  }

  ghost predicate Like(fs: FlatState, st: CState) { HoldsAll(fs.env, st.env) && fs.trace == st.trace }

  ghost predicate LikeEnd(q: (Outcome, FlatState), r: (Outcome, CState)) { q.0 == r.0 && Like(q.1, r.1) }

  ghost predicate LikeEnv(fe: Option<FlatEnv>, env: Option<CEnv>) {
    fe.Some? == env.Some? && (env.Some? ==> HoldsAll(fe.value, env.value))
  }

  lemma HoldsVar(m: map<Bytes, Value>, s: Scope, x: string, v: Value)
    requires Holds(m, s)
    ensures Holds(m[Name(x) := v], s.(user := s.user[x := v]))
  {
    var m', s' := m[Name(x) := v], s.(user := s.user[x := v]);
    forall y ensures (Name(y) in m' <==> y in s'.user) && (y in s'.user ==> m'[Name(y)] == s'.user[y]) { NamesApart(x, y, 0, 0); }
    forall t ensures (TempName(t) in m' <==> t in s'.temp) && (t in s'.temp ==> m'[TempName(t)] == s'.temp[t]) { NamesApart(x, x, 0, t); }
  }

  lemma HoldsTemp(m: map<Bytes, Value>, s: Scope, t: nat, v: Value)
    requires Holds(m, s)
    ensures Holds(m[TempName(t) := v], s.(temp := s.temp[t := v]))
  {
    var m', s' := m[TempName(t) := v], s.(temp := s.temp[t := v]);
    forall y ensures (Name(y) in m' <==> y in s'.user) && (y in s'.user ==> m'[Name(y)] == s'.user[y]) { NamesApart(y, y, 0, t); }
    forall u ensures (TempName(u) in m' <==> u in s'.temp) && (u in s'.temp ==> m'[TempName(u)] == s'.temp[u]) { NamesApart("", "", t, u); }
  }

  lemma {:induction false} FindVar(fe: FlatEnv, env: CEnv, x: string)
    requires HoldsAll(fe, env)
    ensures Find(fe, Name(x)) == LookupVar(env, x)
    decreases env
  {
    if env.Cons? { FindVar(fe.tail, env.tail, x); }
  }

  lemma {:induction false} FindTemp(fe: FlatEnv, env: CEnv, t: nat)
    requires HoldsAll(fe, env)
    ensures Find(fe, TempName(t)) == LookupTemp(env, t)
    decreases env
  {
    if env.Cons? { FindTemp(fe.tail, env.tail, t); }
  }

  lemma {:induction false} FindTempsLike(fe: FlatEnv, env: CEnv, ts: seq<nat>)
    requires HoldsAll(fe, env)
    ensures FindTemps(fe, ts) == LookupTemps(env, ts)
    decreases ts
  {
    if ts != [] {
      FindTemp(fe, env, ts[0]);
      FindTempsLike(fe, env, ts[1..]);
    }
  }

  lemma {:induction false} OpenVar(fe: FlatEnv, env: CEnv, x: string, v: Value)
    requires HoldsAll(fe, env)
    ensures LikeEnv(Open(fe, Name(x), v), DeclareVar(env, x, v))
  {
    if env.Cons? { HoldsVar(fe.head, env.head, x, v); }
  }

  lemma {:induction false} OpenTemp(fe: FlatEnv, env: CEnv, t: nat, v: Value)
    requires HoldsAll(fe, env)
    ensures LikeEnv(Open(fe, TempName(t), v), DeclareTemp(env, t, v))
  {
    if env.Cons? { HoldsTemp(fe.head, env.head, t, v); }
  }

  lemma {:induction false} StoreVarLike(fe: FlatEnv, env: CEnv, x: string, v: Value)
    requires HoldsAll(fe, env)
    ensures LikeEnv(Store(fe, Name(x), v), StoreVar(env, x, v))
    decreases env
  {
    if env.Cons? {
      HoldsVar(fe.head, env.head, x, v);
      StoreVarLike(fe.tail, env.tail, x, v);
    }
  }

  lemma {:induction false} StoreTempLike(fe: FlatEnv, env: CEnv, t: nat, v: Value)
    requires HoldsAll(fe, env)
    ensures LikeEnv(Store(fe, TempName(t), v), StoreTemp(env, t, v))
    decreases env
  {
    if env.Cons? {
      HoldsTemp(fe.head, env.head, t, v);
      StoreTempLike(fe.tail, env.tail, t, v);
    }
  }

  lemma {:induction false} BindLike(params: seq<string>, args: seq<Value>)
    requires |params| == |args|
    ensures Holds(BindNames(params, args), Scope(Bind(params, args), map[]))
    decreases |params|
  {
    if params != [] {
      var n := |params| - 1;
      BindLike(params[..n], args[..n]);
      HoldsVar(BindNames(params[..n], args[..n]), Scope(Bind(params[..n], args[..n]), map[]), params[n], args[n]);
    }
  }

  // The functions, each under its name.
  ghost predicate Names(fp: FlatProgram, p: CProgram) {
    forall f :: (Name(f) in fp <==> f in p) && (f in p ==> fp[Name(f)] == p[f])
  }

  lemma {:induction false} RhsLike(fp: FlatProgram, p: CProgram, rhs: Rhs, fs: FlatState, st: CState, fuel: nat)
    requires Names(fp, p) && Like(fs, st)
    ensures FlatRhs(fp, rhs, fs, fuel) == EvalRhs(p, rhs, st, fuel)
    decreases fuel, rhs, 1
  {
    match rhs
    case Var(x) => FindVar(fs.env, st.env, x);
    case Temp(t) => FindTemp(fs.env, st.env, t);
    case Op(_, l, r) =>
      FindTemp(fs.env, st.env, l);
      FindTemp(fs.env, st.env, r);
    case Payload(t) => FindTemp(fs.env, st.env, t);
    case CallC(_, _) => CallRhsLike(fp, p, rhs, fs, st, fuel);
    case Long(_) =>
    case LongMin =>
    case Bool(_) =>
    case Nothing =>
  }

  lemma {:induction false} CallRhsLike(fp: FlatProgram, p: CProgram, rhs: Rhs, fs: FlatState, st: CState, fuel: nat)
    requires Names(fp, p) && Like(fs, st) && rhs.CallC?
    ensures FlatRhs(fp, rhs, fs, fuel) == EvalRhs(p, rhs, st, fuel)
    decreases fuel, rhs, 0
  {
    var f := rhs.func;
    FindTempsLike(fs.env, st.env, rhs.args);
    var vs := LookupTemps(st.env, rhs.args);
    if vs.Some? && f in p && |p[f].params| == |vs.value| && fuel > 0 { CallLike(fp, p, f, vs.value, st.trace, fuel - 1); }
  }

  lemma {:induction false} CallLike(fp: FlatProgram, p: CProgram, f: string, vs: seq<Value>, tr: Trace, fuel: nat)
    requires Names(fp, p) && f in p && |p[f].params| == |vs|
    ensures FlatCall(fp, f, vs, tr, fuel) == CallTarget(p, f, vs, tr, fuel)
    decreases fuel, p[f].body, 2
  {
    BindLike(p[f].params, vs);
    var st := CState(Cons(Scope(Bind(p[f].params, vs), map[]), Nil), tr + [Event(f, vs)]);
    RunLike(fp, p, p[f].body, Entered(p[f], f, vs, tr), st, fuel);
  }

  lemma {:induction false} RunLike(fp: FlatProgram, p: CProgram, body: seq<Code>, fs: FlatState, st: CState, fuel: nat)
    requires Names(fp, p) && Like(fs, st)
    ensures LikeEnd(FlatRun(fp, body, fs, fuel), Run(p, body, st, fuel))
    decreases fuel, body, 0
  {
    if body != [] {
      StepLike(fp, p, body[0], fs, st, fuel);
      var (r, q) := (Step(p, body[0], st, fuel), FlatStep(fp, body[0], fs, fuel));
      if r.0 == Normal { RunLike(fp, p, body[1..], q.1, r.1, fuel); }
    }
  }

  // A block of its own.
  lemma {:induction false} BlockLike(fp: FlatProgram, p: CProgram, body: seq<Code>, fs: FlatState, st: CState, fuel: nat)
    requires Names(fp, p) && Like(fs, st)
    ensures LikeEnd(FlatLeave(FlatRun(fp, body, FlatEnter(fs), fuel)), LeaveC(Run(p, body, Enter(st), fuel)))
    decreases fuel, body, 1
  {
    assert Holds(map[], EMPTY);
    RunLike(fp, p, body, FlatEnter(fs), Enter(st), fuel);
  }

  lemma {:induction false} StepLike(fp: FlatProgram, p: CProgram, c: Code, fs: FlatState, st: CState, fuel: nat)
    requires Names(fp, p) && Like(fs, st)
    ensures LikeEnd(FlatStep(fp, c, fs, fuel), Step(p, c, st, fuel))
    decreases fuel, c, 1
  {
    match c
    case BreakC =>
    case ContinueC =>
    case DeclTemp(_, _) => DeclLike(fp, p, c, fs, st, fuel);
    case DeclVar(_, _) => DeclLike(fp, p, c, fs, st, fuel);
    case ReturnC(rhs) => RhsLike(fp, p, rhs, fs, st, fuel);
    case CopyTemp(_, _) => CopyLike(fp, p, c, fs, st, fuel);
    case AssignVar(_, _) => CopyLike(fp, p, c, fs, st, fuel);
    case When(cond, thn) =>
      FindTemp(fs.env, st.env, cond.t);
      BlockLike(fp, p, thn, fs, st, fuel);
    case Branch(cond, thn, els) =>
      FindTemp(fs.env, st.env, cond.t);
      BlockLike(fp, p, thn, fs, st, fuel);
      BlockLike(fp, p, els, fs, st, fuel);
    case BreakUnless(t) => FindTemp(fs.env, st.env, t);
    case Block(body) => BlockLike(fp, p, body, fs, st, fuel);
    case Forever(_) => LoopLike(fp, p, c, fs, st, fuel);
    case Count(_, _, _) => CountLike(fp, p, c, fs, st, fuel);
  }

  lemma {:induction false} DeclLike(fp: FlatProgram, p: CProgram, c: Code, fs: FlatState, st: CState, fuel: nat)
    requires Names(fp, p) && Like(fs, st) && (c.DeclTemp? || c.DeclVar?)
    ensures LikeEnd(FlatStep(fp, c, fs, fuel), Step(p, c, st, fuel))
    decreases fuel, c, 0
  {
    RhsLike(fp, p, c.rhs, fs, st, fuel);
    var (o, _) := EvalRhs(p, c.rhs, st, fuel);
    if o.Ok? { if c.DeclTemp? { OpenTemp(fs.env, st.env, c.t, o.v); } else { OpenVar(fs.env, st.env, c.x, o.v); } }
  }

  lemma {:induction false} CopyLike(fp: FlatProgram, p: CProgram, c: Code, fs: FlatState, st: CState, fuel: nat)
    requires Like(fs, st) && (c.CopyTemp? || c.AssignVar?)
    ensures LikeEnd(FlatStep(fp, c, fs, fuel), Step(p, c, st, fuel))
  {
    FindTemp(fs.env, st.env, c.from);
    var v := LookupTemp(st.env, c.from);
    if v.Some? { if c.CopyTemp? { StoreTempLike(fs.env, st.env, c.t, v.value); } else { StoreVarLike(fs.env, st.env, c.x, v.value); } }
  }

  lemma {:induction false} LoopLike(fp: FlatProgram, p: CProgram, c: Code, fs: FlatState, st: CState, fuel: nat)
    requires Names(fp, p) && Like(fs, st) && c.Forever?
    ensures LikeEnd(FlatLoop(fp, c, fs, fuel), LoopC(p, c, st, fuel))
    decreases fuel, c, 0
  {
    if fuel > 0 {
      BlockLike(fp, p, c.body, fs, st, fuel);
      var (r, q) := (LeaveC(Run(p, c.body, Enter(st), fuel)), FlatLeave(FlatRun(fp, c.body, FlatEnter(fs), fuel)));
      if Again(r.0) { LoopLike(fp, p, c, q.1, r.1, fuel - 1); }
    }
  }

  lemma {:induction false} CountLike(fp: FlatProgram, p: CProgram, c: Code, fs: FlatState, st: CState, fuel: nat)
    requires Names(fp, p) && Like(fs, st) && c.Count?
    ensures LikeEnd(FlatCount(fp, c, fs, fuel), CountC(p, c, st, fuel))
    decreases fuel, c, 0
  {
    if fuel > 0 {
      FindVar(fs.env, st.env, c.x);
      FindTemp(fs.env, st.env, c.end);
      BlockLike(fp, p, c.body, fs, st, fuel);
      TurnLike(fp, p, c, FlatLeave(FlatRun(fp, c.body, FlatEnter(fs), fuel)), LeaveC(Run(p, c.body, Enter(st), fuel)), fuel);
    }
  }

  lemma {:induction false} TurnLike(fp: FlatProgram, p: CProgram, c: Code, q: (Outcome, FlatState), r: (Outcome, CState), fuel: nat)
    requires Names(fp, p) && LikeEnd(q, r) && c.Count? && fuel > 0
    ensures LikeEnd(FlatTurn(fp, c, q, fuel), CountRest(p, c, r, fuel))
    decreases fuel - 1, c, 2
  {
    if Again(r.0) {
      FindVar(q.1.env, r.1.env, c.x);
      var j := LookupVar(r.1.env, c.x);
      if j.Some? {
        StoreVarLike(q.1.env, r.1.env, c.x, Bumped(j.value));
        var (env, fe) := (StoreVar(r.1.env, c.x, Bumped(j.value)), Store(q.1.env, Name(c.x), Bumped(j.value)));
        if env.Some? { CountLike(fp, p, c, FlatState(fe.value, q.1.trace), CState(env.value, r.1.trace), fuel - 1); }
      }
    }
  }

  function FlatProgramOf(fs: CModule): FlatProgram {
    if fs == [] then map[] else FlatProgramOf(fs[1..])[Name(fs[0].0) := fs[0].1]
  }

  lemma {:induction false} FlatNames(fs: CModule)
    ensures Names(FlatProgramOf(fs), CProgramOf(fs))
  {
    if fs != [] {
      FlatNames(fs[1..]);
      var (fp, p) := (FlatProgramOf(fs), CProgramOf(fs));
      forall f ensures (Name(f) in fp <==> f in p) && (f in p ==> fp[Name(f)] == p[f]) { NamesApart(f, fs[0].0, 0, 0); }
    }
  }

  // The backend's theorem for the C with its real names.
  lemma {:induction false} FlatBackendCorrect(fs: Module, f: string, args: seq<Value>, tr: Trace, fuel: nat)
    requires f in ProgramOf(fs) && |args| == |ProgramOf(fs)[f].params|
    requires CallSource(ProgramOf(fs), f, args, tr, fuel).0 != Halt(Wrong)
    ensures var read := ReadModule(PrintModule([], LowerModule(fs, 0)));
            && read.Some?
            && var fp := FlatProgramOf(read.value);
               && Name(f) in fp
               && |args| == |fp[Name(f)].params|
               && FlatCall(fp, f, args, tr, fuel) == CallSource(ProgramOf(fs), f, args, tr, fuel)
  {
    BackendCorrect(fs, f, args, tr, fuel);
    FlatNames(LowerModule(fs, 0));
    CallLike(FlatProgramOf(LowerModule(fs, 0)), CProgramOf(LowerModule(fs, 0)), f, args, tr, fuel);
  }

  // ----- Which calls reach their function -----

  // The names in scope behind a statement.
  function Declares(c: Code): set<Bytes> {
    if c.DeclVar? then {Name(c.x)} else if c.DeclTemp? then {TempName(c.t)} else {}
  }

  function Visible(code: seq<Code>, vars: set<Bytes>): set<Bytes> {
    if code == [] then vars else Visible(code[1..], vars + Declares(code[0]))
  }

  // The C compiler takes the name of the function called for that of a variable in scope, if there is one,
  // and refuses the call.
  predicate Callable(rhs: Rhs, vars: set<Bytes>) { rhs.CallC? ==> Name(rhs.func) !in vars }

  predicate Resolves1(c: Code, vars: set<Bytes>)
    decreases c, 1
  {
    match c
    case DeclTemp(_, rhs) => Callable(rhs, vars + Declares(c))
    case DeclVar(_, rhs) => Callable(rhs, vars + Declares(c))
    case ReturnC(rhs) => Callable(rhs, vars)
    case When(_, thn) => Resolves(thn, vars)
    case Branch(_, thn, els) => Resolves(thn, vars) && Resolves(els, vars)
    case Forever(body) => Resolves(body, vars)
    case Count(_, _, body) => Resolves(body, vars)
    case Block(body) => Resolves(body, vars)
    case CopyTemp(_, _) => true
    case AssignVar(_, _) => true
    case BreakUnless(_) => true
    case BreakC => true
    case ContinueC => true
  }

  predicate Resolves(code: seq<Code>, vars: set<Bytes>)
    decreases code
  {
    code == [] || (Resolves1(code[0], vars) && Resolves(code[1..], vars + Declares(code[0])))
  }

  predicate ResolvesModule(fs: CModule) {
    fs == [] || (Resolves(fs[0].1.body, set x | x in fs[0].1.params :: Name(x)) && ResolvesModule(fs[1..]))
  }

  // In the source: no function is called where a variable or parameter of its name is in scope.
  predicate Unhidden(s: Stmt, vars: set<string>)
    decreases s, 1
  {
    match s
    case Let(_, e) => Called(e) !! vars
    case Set(_, e) => Called(e) !! vars
    case Return(e) => e.Some? ==> Called(e.value) !! vars
    case Do(e) => Called(e) !! vars
    case If(c, t, f) => Called(c) !! vars && UnhiddenAll(t, vars) && UnhiddenAll(f, vars)
    case While(c, body) => Called(c) !! vars && UnhiddenAll(body, vars)
    case ForRange(x, a, b, body) => Called(a) !! vars && Called(b) !! vars && UnhiddenAll(body, vars + {x})
    case Match(e, okName, ok, errName, err) =>
      Called(e) !! vars && UnhiddenAll(ok, vars + {okName}) && UnhiddenAll(err, vars + {errName})
    case Break => true
    case Continue => true
  }

  predicate UnhiddenAll(body: seq<Stmt>, vars: set<string>)
    decreases body
  {
    body == [] || (Unhidden(body[0], vars) && UnhiddenAll(body[1..], if body[0].Let? then vars + {body[0].name} else vars))
  }

  predicate UnhiddenModule(fs: Module) {
    fs == [] || (UnhiddenAll(fs[0].1.body, set x | x in fs[0].1.params) && UnhiddenModule(fs[1..]))
  }

  // The variables among the names in scope.
  ghost predicate Stands(vars: set<Bytes>, names: set<string>) { forall x :: Name(x) in vars <==> x in names }

  lemma {:induction false} ResolvesAppend(a: seq<Code>, b: seq<Code>, vars: set<Bytes>)
    ensures Resolves(a + b, vars) <==> Resolves(a, vars) && Resolves(b, Visible(a, vars))
    ensures Visible(a + b, vars) == Visible(b, Visible(a, vars))
    decreases |a|
  {
    if a == [] {
      assert a + b == b;
    } else {
      assert (a + b)[1..] == a[1..] + b;
      ResolvesAppend(a[1..], b, vars + Declares(a[0]));
    }
  }

  lemma {:induction false} ResolvesSnoc(a: seq<Code>, c: Code, vars: set<Bytes>)
    ensures Resolves(a + [c], vars) <==> Resolves(a, vars) && Resolves1(c, Visible(a, vars))
    ensures Visible(a + [c], vars) == Visible(a, vars) + Declares(c)
  {
    ResolvesAppend(a, [c], vars);
    assert [c][1..] == [];
  }

  // The same, if c declares nothing.
  lemma {:induction false} ResolvesLast(a: seq<Code>, c: Code, vars: set<Bytes>)
    requires !c.DeclVar? && !c.DeclTemp?
    ensures Resolves(a + [c], vars) <==> Resolves(a, vars) && Resolves1(c, Visible(a, vars))
    ensures Visible(a + [c], vars) == Visible(a, vars)
  {
    ResolvesSnoc(a, c, vars);
    assert Visible(a, vars) + {} == Visible(a, vars);
  }

  // Two blocks behind code.
  lemma {:induction false} ResolvesBranch(a: seq<Code>, cond: Cond, thn: seq<Code>, els: seq<Code>, vars: set<Bytes>)
    ensures var c := a + [Branch(cond, thn, els)];
            && Visible(c, vars) == Visible(a, vars)
            && (Resolves(c, vars) <==> Resolves(a, vars) && Resolves(thn, Visible(a, vars)) && Resolves(els, Visible(a, vars)))
  {
    ResolvesLast(a, Branch(cond, thn, els), vars);
  }

  lemma StandsTemp(vars: set<Bytes>, names: set<string>, t: nat)
    requires Stands(vars, names)
    ensures Stands(vars + {TempName(t)}, names)
  {
    forall x ensures Name(x) in vars + {TempName(t)} <==> x in names { NamesApart(x, x, t, t); }
  }

  lemma StandsVar(vars: set<Bytes>, names: set<string>, x: string)
    requires Stands(vars, names)
    ensures Stands(vars + {Name(x)}, names + {x})
  {
    forall y ensures Name(y) in vars + {Name(x)} <==> y in names + {x} { NamesApart(x, y, 0, 0); }
  }

  // A temporary behind code that declares none but temporaries.
  lemma {:induction false} FreshResolves(code: seq<Code>, rhs: Rhs, n: nat, vars: set<Bytes>, names: set<string>)
    requires Stands(Visible(code, vars), names)
    ensures var c := Fresh(code, rhs, n).code;
            && Stands(Visible(c, vars), names)
            && (Resolves(c, vars) <==> Resolves(code, vars) && (rhs.CallC? ==> rhs.func !in names))
  {
    ResolvesSnoc(code, DeclTemp(n + 1, rhs), vars);
    StandsTemp(Visible(code, vars), names, n + 1);
  }

  lemma {:induction false} ExprResolves(e: Expr, n: nat, vars: set<Bytes>, names: set<string>)
    requires Stands(vars, names)
    ensures var c := LowerExpr(e, n).code;
            Stands(Visible(c, vars), names) && (Resolves(c, vars) <==> Called(e) !! names)
    decreases e, 1
  {
    match e
    case IntLit(k) => FreshResolves([], Literal(k), n, vars, names);
    case BoolLit(b) => FreshResolves([], Bool(b), n, vars, names);
    case Ident(x) => FreshResolves([], Var(x), n, vars, names);
    case Call(f, args) =>
      var a := LowerArgs(args, n);
      ArgsResolve(args, n, vars, names);
      FreshResolves(a.code, CallC(f, a.temps), a.serial, vars, names);
    case Bin(op, l, r) =>
      var cl := LowerExpr(l, n);
      var cr := LowerExpr(r, cl.serial);
      ExprResolves(l, n, vars, names);
      ExprResolves(r, cl.serial, Visible(cl.code, vars), names);
      ResolvesAppend(cl.code, cr.code, vars);
      FreshResolves(cl.code + cr.code, Op(op, cl.temp, cr.temp), cr.serial, vars, names);
    case Logic(_, _, _) => LogicResolves(e, n, vars, names);
    case IfExpr(_, _, _) => IfExprResolves(e, n, vars, names);
  }

  // An operand that is evaluated in a block of its own, and left in `out`.
  lemma {:induction false} BranchResolves(e: Expr, n: nat, out: nat, vars: set<Bytes>, names: set<string>)
    requires Stands(vars, names)
    ensures var c := LowerExpr(e, n); Resolves(c.code + [CopyTemp(out, c.temp)], vars) <==> Called(e) !! names
    decreases e, 2
  {
    var c := LowerExpr(e, n);
    ExprResolves(e, n, vars, names);
    ResolvesLast(c.code, CopyTemp(out, c.temp), vars);
  }

  lemma {:induction false} LogicResolves(e: Expr, n: nat, vars: set<Bytes>, names: set<string>)
    requires e.Logic? && Stands(vars, names)
    ensures var c := LowerExpr(e, n).code;
            Stands(Visible(c, vars), names) && (Resolves(c, vars) <==> Called(e) !! names)
    decreases e, 0
  {
    var cl := LowerExpr(e.left, n);
    var out := Fresh(cl.code, Temp(cl.temp), cl.serial);
    var cr := LowerExpr(e.right, out.serial);
    var seen := Visible(out.code, vars);
    var when := When(LogicGuard(e.isOr, out.temp), cr.code + [CopyTemp(out.temp, cr.temp)]);
    ExprResolves(e.left, n, vars, names);
    FreshResolves(cl.code, Temp(cl.temp), cl.serial, vars, names);
    BranchResolves(e.right, out.serial, out.temp, seen, names);
    ResolvesLast(out.code, when, vars);
  }

  lemma {:induction false} IfExprResolves(e: Expr, n: nat, vars: set<Bytes>, names: set<string>)
    requires e.IfExpr? && Stands(vars, names)
    ensures var c := LowerExpr(e, n).code;
            Stands(Visible(c, vars), names) && (Resolves(c, vars) <==> Called(e) !! names)
    decreases e, 0
  {
    var cc := LowerExpr(e.cond, n);
    var out := Fresh(cc.code, Nothing, cc.serial);
    var ct := LowerExpr(e.thn, out.serial);
    var cf := LowerExpr(e.els, ct.serial);
    var seen := Visible(out.code, vars);
    ExprResolves(e.cond, n, vars, names);
    FreshResolves(cc.code, Nothing, cc.serial, vars, names);
    BranchResolves(e.thn, out.serial, out.temp, seen, names);
    BranchResolves(e.els, ct.serial, out.temp, seen, names);
    var (thn, els) := (ct.code + [CopyTemp(out.temp, ct.temp)], cf.code + [CopyTemp(out.temp, cf.temp)]);
    ResolvesBranch(out.code, IsTrue(cc.temp), thn, els, vars);
    assert LowerExpr(e, n).code == out.code + [Branch(IsTrue(cc.temp), thn, els)];
  }

  lemma {:induction false} ArgsResolve(args: seq<Expr>, n: nat, vars: set<Bytes>, names: set<string>)
    requires Stands(vars, names)
    ensures var c := LowerArgs(args, n).code;
            Stands(Visible(c, vars), names) && (Resolves(c, vars) <==> CalledAll(args) !! names)
    decreases args, 0
  {
    if args != [] {
      var a := LowerExpr(args[0], n);
      ExprResolves(args[0], n, vars, names);
      ArgsResolve(args[1..], a.serial, Visible(a.code, vars), names);
      ResolvesAppend(a.code, LowerArgs(args[1..], a.serial).code, vars);
    }
  }

  function Behind(s: Stmt, names: set<string>): set<string> { if s.Let? then names + {s.name} else names }

  lemma {:induction false} StmtResolves(s: Stmt, n: nat, vars: set<Bytes>, names: set<string>)
    requires Stands(vars, names)
    ensures var c := LowerStmt(s, n).code;
            Stands(Visible(c, vars), Behind(s, names)) && (Resolves(c, vars) <==> Unhidden(s, names))
    decreases s, 2
  {
    match s
    case Let(x, e) =>
      var c := LowerExpr(e, n);
      ExprResolves(e, n, vars, names);
      ResolvesSnoc(c.code, DeclVar(x, Temp(c.temp)), vars);
      StandsVar(Visible(c.code, vars), names, x);
    case Set(x, e) =>
      var c := LowerExpr(e, n);
      ExprResolves(e, n, vars, names);
      ResolvesLast(c.code, AssignVar(x, c.temp), vars);
    case Return(e) => ReturnResolves(s, n, vars, names);
    case Do(e) => ExprResolves(e, n, vars, names);
    case If(c, t, f) =>
      var cc := LowerExpr(c, n);
      var ct := LowerBody(t, cc.serial);
      var cf := LowerBody(f, ct.serial);
      ExprResolves(c, n, vars, names);
      BodyResolves(t, cc.serial, Visible(cc.code, vars), names);
      BodyResolves(f, ct.serial, Visible(cc.code, vars), names);
      ResolvesBranch(cc.code, IsTrue(cc.temp), ct.code, cf.code, vars);
    case While(_, _) => WhileResolves(s, n, vars, names);
    case ForRange(_, _, _, _) => RangeResolves(s, n, vars, names);
    case Match(_, _, _, _, _) => MatchResolves(s, n, vars, names);
    case Break =>
    case Continue =>
  }

  lemma {:induction false} ReturnResolves(s: Stmt, n: nat, vars: set<Bytes>, names: set<string>)
    requires s.Return? && Stands(vars, names)
    ensures var c := LowerStmt(s, n).code;
            Stands(Visible(c, vars), names) && (Resolves(c, vars) <==> Unhidden(s, names))
  {
    if s.result.Some? {
      var c := LowerExpr(s.result.value, n);
      ExprResolves(s.result.value, n, vars, names);
      ResolvesLast(c.code, ReturnC(Temp(c.temp)), vars);
    } else {
      ResolvesLast([], ReturnC(Nothing), vars);
      assert [] + [ReturnC(Nothing)] == [ReturnC(Nothing)];
    }
  }

  // A single statement that declares nothing.
  lemma {:induction false} ResolvesOne(c: Code, vars: set<Bytes>)
    ensures Resolves([c], vars) <==> Resolves1(c, vars)
    ensures Visible([c], vars) == vars + Declares(c)
  {
    assert [] + [c] == [c];
    ResolvesSnoc([], c, vars);
  }

  // The condition, its test and the body.
  lemma {:induction false} TestResolves(s: Stmt, n: nat, vars: set<Bytes>, names: set<string>)
    requires s.While? && Stands(vars, names)
    ensures var cc := LowerExpr(s.cond, n);
            Resolves(cc.code + [BreakUnless(cc.temp)] + LowerBody(s.body, cc.serial).code, vars) <==> Called(s.cond) !! names && UnhiddenAll(s.body, names)
    decreases s, 0
  {
    var cc := LowerExpr(s.cond, n);
    var test := cc.code + [BreakUnless(cc.temp)];
    ExprResolves(s.cond, n, vars, names);
    ResolvesLast(cc.code, BreakUnless(cc.temp), vars);
    BodyResolves(s.body, cc.serial, Visible(test, vars), names);
    ResolvesAppend(test, LowerBody(s.body, cc.serial).code, vars);
  }

  lemma {:induction false} WhileResolves(s: Stmt, n: nat, vars: set<Bytes>, names: set<string>)
    requires s.While? && Stands(vars, names)
    ensures var c := LowerStmt(s, n).code;
            Stands(Visible(c, vars), names) && (Resolves(c, vars) <==> Unhidden(s, names))
    decreases s, 1
  {
    var cc := LowerExpr(s.cond, n);
    var loop := Forever(cc.code + [BreakUnless(cc.temp)] + LowerBody(s.body, cc.serial).code);
    TestResolves(s, n, vars, names);
    ResolvesOne(loop, vars);
    ResolvesOne(Block([loop]), vars);
  }

  lemma {:induction false} PairResolves(a: Expr, b: Expr, n: nat, vars: set<Bytes>, names: set<string>)
    requires Stands(vars, names)
    ensures var ca := LowerExpr(a, n);
            var code := ca.code + LowerExpr(b, ca.serial).code;
            Stands(Visible(code, vars), names) && (Resolves(code, vars) <==> Called(a) !! names && Called(b) !! names)
  {
    var ca := LowerExpr(a, n);
    ExprResolves(a, n, vars, names);
    ExprResolves(b, ca.serial, Visible(ca.code, vars), names);
    ResolvesAppend(ca.code, LowerExpr(b, ca.serial).code, vars);
  }

  // The loop behind its bounds, with its variable.
  lemma {:induction false} LoopResolves(s: Stmt, t: nat, u: nat, n: nat, bounds: seq<Code>, vars: set<Bytes>, names: set<string>)
    requires s.ForRange? && Stands(Visible(bounds, vars), names)
    ensures var loop := bounds + [DeclVar(s.name, Temp(t)), Count(s.name, u, LowerBody(s.body, n).code)];
            Resolves(loop, vars) <==> Resolves(bounds, vars) && UnhiddenAll(s.body, names + {s.name})
    decreases s, 0
  {
    var (decl, count) := (DeclVar(s.name, Temp(t)), Count(s.name, u, LowerBody(s.body, n).code));
    ResolvesSnoc(bounds, decl, vars);
    StandsVar(Visible(bounds, vars), names, s.name);
    BodyResolves(s.body, n, Visible(bounds + [decl], vars), names + {s.name});
    ResolvesLast(bounds + [decl], count, vars);
    assert bounds + [decl] + [count] == bounds + [decl, count];
  }

  lemma {:induction false} RangeResolves(s: Stmt, n: nat, vars: set<Bytes>, names: set<string>)
    requires s.ForRange? && Stands(vars, names)
    ensures var c := LowerStmt(s, n).code;
            Stands(Visible(c, vars), names) && (Resolves(c, vars) <==> Unhidden(s, names))
    decreases s, 1
  {
    var ca := LowerExpr(s.start, n);
    var cb := LowerExpr(s.end, ca.serial);
    var bounds := ca.code + cb.code;
    var loop := bounds + [DeclVar(s.name, Temp(ca.temp)), Count(s.name, cb.temp, LowerBody(s.body, cb.serial).code)];
    PairResolves(s.start, s.end, n, vars, names);
    LoopResolves(s, ca.temp, cb.temp, cb.serial, bounds, vars, names);
    ResolvesOne(Block(loop), vars);
  }

  // An arm: its payload, and its body.
  lemma {:induction false} ArmResolves(x: string, t: nat, body: seq<Stmt>, n: nat, vars: set<Bytes>, names: set<string>)
    requires Stands(vars, names)
    ensures Resolves([DeclVar(x, Payload(t))] + LowerBody(body, n).code, vars) <==> UnhiddenAll(body, names + {x})
    decreases body, 1
  {
    var decl := DeclVar(x, Payload(t));
    StandsVar(vars, names, x);
    ResolvesOne(decl, vars);
    BodyResolves(body, n, vars + {Name(x)}, names + {x});
    ResolvesAppend([decl], LowerBody(body, n).code, vars);
  }

  lemma {:induction false} MatchResolves(s: Stmt, n: nat, vars: set<Bytes>, names: set<string>)
    requires s.Match? && Stands(vars, names)
    ensures var c := LowerStmt(s, n).code;
            Stands(Visible(c, vars), names) && (Resolves(c, vars) <==> Unhidden(s, names))
    decreases s, 0
  {
    var c := LowerExpr(s.value, n);
    var co := LowerBody(s.ok, c.serial);
    var ce := LowerBody(s.err, co.serial);
    ExprResolves(s.value, n, vars, names);
    ArmResolves(s.okName, c.temp, s.ok, c.serial, Visible(c.code, vars), names);
    ArmResolves(s.errName, c.temp, s.err, co.serial, Visible(c.code, vars), names);
    var (ok, err) := ([DeclVar(s.okName, Payload(c.temp))] + co.code, [DeclVar(s.errName, Payload(c.temp))] + ce.code);
    ResolvesBranch(c.code, IsOk(c.temp), ok, err, vars);
    assert LowerStmt(s, n).code == c.code + [Branch(IsOk(c.temp), ok, err)];
  }

  lemma {:induction false} BodyResolves(body: seq<Stmt>, n: nat, vars: set<Bytes>, names: set<string>)
    requires Stands(vars, names)
    ensures Resolves(LowerBody(body, n).code, vars) <==> UnhiddenAll(body, names)
    decreases body, 0
  {
    if body != [] {
      var c := LowerStmt(body[0], n);
      StmtResolves(body[0], n, vars, names);
      BodyResolves(body[1..], c.serial, Visible(c.code, vars), Behind(body[0], names));
      ResolvesAppend(c.code, LowerBody(body[1..], c.serial).code, vars);
    }
  }

  // The C compiler finds every function called exactly if none is called where a variable hides it.
  lemma {:induction false} ResolvesExactly(fs: Module, n: nat)
    ensures ResolvesModule(LowerModule(fs, n)) <==> UnhiddenModule(fs)
  {
    if fs != [] {
      var (f, k) := (fs[0].1, LowerBody(fs[0].1.body, n).serial);
      var (vars, names) := (set x | x in f.params :: Name(x), set x | x in f.params);
      forall x ensures Name(x) in vars <==> x in names {
        if Name(x) in vars {
          var y :| y in f.params && Name(y) == Name(x);
          NamesApart(x, y, 0, 0);
        }
      }
      BodyResolves(f.body, n, vars, names);
      ResolvesLast(LowerBody(f.body, n).code, ReturnC(Nothing), vars);
      ResolvesExactly(fs[1..], k);
      assert LowerModule(fs, n)[1..] == LowerModule(fs[1..], k);
    }
  }

  // A parameter named like the function called: the source returns 1, and the C does not compile.
  lemma HiddenCall()
    ensures var fs := [("one", Func([], [Return(Some(IntLit(1)))])), ("f", Func(["one"], [Return(Some(Call("one", [])))]))];
            && SupportedModule(FunctionNames(fs), fs)
            && CallSource(ProgramOf(fs), "f", [VInt(0)], [], 1).0 == Ok(VInt(1))
            && !ResolvesModule(LowerModule(fs, 0))
  {
    var one, f := Func([], [Return(Some(IntLit(1)))]), Func(["one"], [Return(Some(Call("one", [])))]);
    var fs := [("one", one), ("f", f)];
    assert fs[1..] == [("f", f)] && fs[1..][1..] == [];
    ResolvesExactly(fs, 0);
    assert "one" in CalledAll([]) + {"one"};
    assert Called(Call("one", [])) == {"one"} && "one" in (set x | x in f.params) by { assert f.params[0] == "one"; }
    assert !Unhidden(f.body[0], set x | x in f.params);
  }
}
