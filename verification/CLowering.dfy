/**
The C backend's lowering. `LowerExpr` and its companions say which three-address code
an AST stands for; `Generator` is the generator itself, which walks the same AST while it
appends lines, bumps `serial` and sets `err`.
*/
module CLowering {
  import opened Wrappers
  import opened Liaf
  import opened CCode
  import Int64

  // Code that leaves its value in `temp`; `serial` is the last temporary handed out.
  datatype Lowered = Lowered(code: seq<Code>, temp: nat, serial: nat)
  datatype LoweredArgs = LoweredArgs(code: seq<Code>, temps: seq<nat>, serial: nat)
  datatype LoweredStmt = LoweredStmt(code: seq<Code>, serial: nat)

  function Literal(n: int): Rhs {
    if n == Int64.MIN then LongMin else Long(n)
  }

  // `V tmp_k = rhs;` with the next free k.
  function Fresh(code: seq<Code>, rhs: Rhs, n: nat): Lowered {
    Lowered(code + [DeclTemp(n + 1, rhs)], n + 1, n + 1)
  }

  function LowerExpr(e: Expr, n: nat): (r: Lowered)
    ensures n < r.temp <= r.serial
    decreases e
  {
    match e
    case IntLit(k) => Fresh([], Literal(k), n)
    case BoolLit(b) => Fresh([], Bool(b), n)
    case Ident(x) => Fresh([], Var(x), n)
    case Call(f, args) =>
      var a := LowerArgs(args, n);
      Fresh(a.code, CallC(f, a.temps), a.serial)
    case Bin(op, l, r) =>
      var cl := LowerExpr(l, n);
      var cr := LowerExpr(r, cl.serial);
      Fresh(cl.code + cr.code, Op(op, cl.temp, cr.temp), cr.serial)
    case Logic(isOr, l, r) =>
      var cl := LowerExpr(l, n);
      var out := Fresh(cl.code, Temp(cl.temp), cl.serial);
      var cr := LowerExpr(r, out.serial);
      Lowered(out.code + [When(LogicGuard(isOr, out.temp), cr.code + [CopyTemp(out.temp, cr.temp)])], out.temp, cr.serial)
    case IfExpr(c, t, f) =>
      var cc := LowerExpr(c, n);
      var out := Fresh(cc.code, Nothing, cc.serial);
      var ct := LowerExpr(t, out.serial);
      var cf := LowerExpr(f, ct.serial);
      Lowered(
        out.code + [Branch(IsTrue(cc.temp), ct.code + [CopyTemp(out.temp, ct.temp)], cf.code + [CopyTemp(out.temp, cf.temp)])],
        out.temp, cf.serial)
  }

  function LogicGuard(isOr: bool, t: nat): Cond {
    if isOr then IsFalse(t) else IsTrue(t)
  }

  function LowerArgs(args: seq<Expr>, n: nat): (r: LoweredArgs)
    ensures n <= r.serial && |r.temps| == |args|
    decreases args
  {
    if args == [] then LoweredArgs([], [], n) else
    var a := LowerExpr(args[0], n);
    var rest := LowerArgs(args[1..], a.serial);
    LoweredArgs(a.code + rest.code, [a.temp] + rest.temps, rest.serial)
  }

  function LowerStmt(s: Stmt, n: nat): (r: LoweredStmt)
    ensures n <= r.serial
    decreases s, 0
  {
    match s
    case Let(x, e) =>
      var c := LowerExpr(e, n);
      LoweredStmt(c.code + [DeclVar(x, Temp(c.temp))], c.serial)
    case Set(x, e) =>
      var c := LowerExpr(e, n);
      LoweredStmt(c.code + [AssignVar(x, c.temp)], c.serial)
    case Return(None) => LoweredStmt([ReturnC(Nothing)], n)
    case Return(Some(e)) =>
      var c := LowerExpr(e, n);
      LoweredStmt(c.code + [ReturnC(Temp(c.temp))], c.serial)
    case Do(e) =>
      var c := LowerExpr(e, n);
      LoweredStmt(c.code, c.serial)
    case Break => LoweredStmt([BreakC], n)
    case Continue => LoweredStmt([ContinueC], n)
    case If(c, t, f) =>
      var cc := LowerExpr(c, n);
      var ct := LowerBody(t, cc.serial);
      var cf := LowerBody(f, ct.serial);
      LoweredStmt(cc.code + [Branch(IsTrue(cc.temp), ct.code, cf.code)], cf.serial)
    case While(c, body) =>
      var cc := LowerExpr(c, n);
      var cb := LowerBody(body, cc.serial);
      LoweredStmt([Block([Forever(cc.code + [BreakUnless(cc.temp)] + cb.code)])], cb.serial)
    case ForRange(x, a, b, body) =>
      var ca := LowerExpr(a, n);
      var cb := LowerExpr(b, ca.serial);
      var cs := LowerBody(body, cb.serial);
      LoweredStmt([Block(ca.code + cb.code + [DeclVar(x, Temp(ca.temp)), Count(x, cb.temp, cs.code)])], cs.serial)
    case Match(e, okName, ok, errName, err) =>
      var c := LowerExpr(e, n);
      var co := LowerBody(ok, c.serial);
      var ce := LowerBody(err, co.serial);
      LoweredStmt(
        c.code + [Branch(IsOk(c.temp), [DeclVar(okName, Payload(c.temp))] + co.code, [DeclVar(errName, Payload(c.temp))] + ce.code)],
        ce.serial)
  }

  function LowerBody(body: seq<Stmt>, n: nat): (r: LoweredStmt)
    ensures n <= r.serial
    decreases body
  {
    if body == [] then LoweredStmt([], n) else
    var s := LowerStmt(body[0], n);
    var rest := LowerBody(body[1..], s.serial);
    LoweredStmt(s.code + rest.code, rest.serial)
  }

  // A whole C function; control never falls off its end.
  function LowerFunc(f: Func, n: nat): CFunc {
    CFunc(f.params, LowerBody(f.body, n).code + [ReturnC(Nothing)])
  }

  // ----- What the backend refuses -----

  // The functions called in the text.
  function Called(e: Expr): set<string>
    decreases e
  {
    match e
    case IntLit(_) => {}
    case BoolLit(_) => {}
    case Ident(_) => {}
    case Call(f, args) => {f} + CalledAll(args)
    case Bin(_, l, r) => Called(l) + Called(r)
    case Logic(_, l, r) => Called(l) + Called(r)
    case IfExpr(c, t, f) => Called(c) + Called(t) + Called(f)
  }

  function CalledAll(es: seq<Expr>): set<string>
    decreases es
  {
    if es == [] then {} else Called(es[0]) + CalledAll(es[1..])
  }

  function CalledIn(s: Stmt): set<string>
    decreases s, 0
  {
    match s
    case Let(_, e) => Called(e)
    case Set(_, e) => Called(e)
    case Return(e) => if e.Some? then Called(e.value) else {}
    case Do(e) => Called(e)
    case Break => {}
    case Continue => {}
    case If(c, t, f) => Called(c) + CalledInAll(t) + CalledInAll(f)
    case While(c, body) => Called(c) + CalledInAll(body)
    case ForRange(_, a, b, body) => Called(a) + Called(b) + CalledInAll(body)
    case Match(e, _, ok, _, err) => Called(e) + CalledInAll(ok) + CalledInAll(err)
  }

  function CalledInAll(body: seq<Stmt>): set<string>
    decreases body
  {
    if body == [] then {} else CalledIn(body[0]) + CalledInAll(body[1..])
  }

  function CalledInModule(fs: Module): set<string> {
    if fs == [] then {} else CalledInAll(fs[0].1.body) + CalledInModule(fs[1..])
  }

  // Every call names a function of the module.
  predicate Supported(fns: set<string>, e: Expr) { Called(e) <= fns }

  predicate SupportedArgs(fns: set<string>, args: seq<Expr>) { CalledAll(args) <= fns }

  predicate SupportedStmt(fns: set<string>, s: Stmt) { CalledIn(s) <= fns }

  predicate SupportedBody(fns: set<string>, body: seq<Stmt>) { CalledInAll(body) <= fns }

  predicate SupportedModule(fns: set<string>, fs: Module) { CalledInModule(fs) <= fns }

  // ----- Whole modules -----

  type Module = seq<(string, Func)>

  function FunctionNames(fs: Module): set<string> { set i | 0 <= i < |fs| :: fs[i].0 }

  // `serial` runs on from one function to the next.
  function LowerModule(fs: Module, n: nat): CModule {
    if fs == [] then []
    else [(fs[0].0, LowerFunc(fs[0].1, n))] + LowerModule(fs[1..], LowerBody(fs[0].1.body, n).serial)
  }

  function ModuleSerial(fs: Module, n: nat): nat {
    if fs == [] then n else ModuleSerial(fs[1..], LowerBody(fs[0].1.body, n).serial)
  }

  // Nothing when an operation is unsupported, otherwise the text of the whole module.
  method Generate(fs: Module) returns (text: Option<seq<Line>>)
    ensures text.Some? <==> CalledInModule(fs) <= FunctionNames(fs)
    ensures text.Some? ==> text.value == PrintModule([], LowerModule(fs, 0))
  {
    var g := new Generator(FunctionNames(fs));
    var i := 0;
    while i < |fs|
      invariant 0 <= i <= |fs|
      invariant g.fns == FunctionNames(fs)
      invariant g.err == !SupportedModule(g.fns, fs[..i])
      invariant !g.err ==> g.out == PrintModule([], LowerModule(fs[..i], 0)) && g.serial == ModuleSerial(fs[..i], 0)
    {
      ModuleSnoc(g.fns, fs[..i], fs[i], 0);
      PrintModuleSnoc([], LowerModule(fs[..i], 0), (fs[i].0, LowerFunc(fs[i].1, g.serial)));
      assert fs[..i + 1] == fs[..i] + [fs[i]];
      g.Emit(LFunc(fs[i].0, fs[i].1.params));
      g.GenFunc(fs[i].1);
      g.Emit(LClose);
      i := i + 1;
    }
    assert fs[..i] == fs;
    text := if g.err then None else Some(g.out);
  }

  lemma {:induction false} ModuleSnoc(fns: set<string>, fs: Module, f: (string, Func), n: nat)
    ensures SupportedModule(fns, fs + [f]) == (SupportedModule(fns, fs) && SupportedBody(fns, f.1.body))
    ensures LowerModule(fs + [f], n) == LowerModule(fs, n) + [(f.0, LowerFunc(f.1, ModuleSerial(fs, n)))]
    ensures ModuleSerial(fs + [f], n) == LowerBody(f.1.body, ModuleSerial(fs, n)).serial
    decreases |fs|
  {
    if fs == [] {
      assert fs + [f] == [f];
    } else {
      assert (fs + [f])[1..] == fs[1..] + [f];
      ModuleSnoc(fns, fs[1..], f, LowerBody(fs[0].1.body, n).serial);
    }
  }

  lemma {:induction false} PrintModuleSnoc(out: seq<Line>, fs: CModule, f: (string, CFunc))
    ensures PrintModule(out, fs + [f]) == PrintFunc(PrintModule(out, fs), f)
    decreases |fs|
  {
    if fs == [] {
      assert fs + [f] == [f];
    } else {
      assert (fs + [f])[1..] == fs[1..] + [f];
      PrintModuleSnoc(PrintFunc(out, fs[0]), fs[1..], f);
    }
  }

  // ----- The generator -----

  class Generator {
    const fns: set<string>
    var out: seq<Line>
    var serial: nat
    var err: bool

    constructor (fns: set<string>)
      ensures this.fns == fns && out == [] && serial == 0 && !err
    {
      this.fns := fns;
      out, serial, err := [], 0, false;
    }

    // The state after emitting `code`, unless an unsupported call was met.
    twostate predicate Emitted(code: seq<Code>, serial': nat, supported: bool)
      reads this
    {
      && err == (old(err) || !supported)
      && (supported ==> out == Print(old(out), code) && serial == serial')
    }

    method Emit(line: Line)
      modifies `out
      ensures out == old(out) + [line]
    {
      out := out + [line];
    }

    method NewTemp() returns (t: nat)
      modifies `serial
      ensures t == serial == old(serial) + 1
    {
      serial := serial + 1;
      t := serial;
    }

    method Value(rhs: Rhs) returns (t: nat)
      modifies `serial, `out
      ensures t == serial == old(serial) + 1
      ensures out == old(out) + [LDeclTemp(t, rhs)]
    {
      t := NewTemp();
      Emit(LDeclTemp(t, rhs));
    }

    method GenExpr(e: Expr) returns (t: nat)
      modifies this
      ensures Emitted(LowerExpr(e, old(serial)).code, LowerExpr(e, old(serial)).serial, Supported(fns, e))
      ensures Supported(fns, e) ==> t == LowerExpr(e, old(serial)).temp
      decreases e, 1
    {
      ghost var n, before := serial, out;
      match e {
        case IntLit(k) =>
          if k == Int64.MIN { t := Value(LongMin); } else { t := Value(Long(k)); }
          PrintSnoc(before, [], DeclTemp(t, Literal(k)));
        case BoolLit(b) =>
          t := Value(Bool(b));
          PrintSnoc(before, [], DeclTemp(t, Bool(b)));
        case Ident(x) =>
          t := Value(Var(x));
          PrintSnoc(before, [], DeclTemp(t, Var(x)));
        case Call(_, _) => t := GenCall(e);
        case Bin(_, _, _) => t := GenBin(e);
        case Logic(_, _, _) => t := GenLogic(e);
        case IfExpr(_, _, _) => t := GenIfExpr(e);
      }
    }

    method GenBin(e: Expr) returns (t: nat)
      requires e.Bin?
      modifies this
      ensures Emitted(LowerExpr(e, old(serial)).code, LowerExpr(e, old(serial)).serial, Supported(fns, e))
      ensures Supported(fns, e) ==> t == LowerExpr(e, old(serial)).temp
      decreases e, 0
    {
      ghost var n, before := serial, out;
      var left := GenExpr(e.left);
      ghost var cl := LowerExpr(e.left, n);
      var right := GenExpr(e.right);
      ghost var cr := LowerExpr(e.right, cl.serial);
      t := Value(Op(e.op, left, right));
      PrintBin(before, cl.code, cr.code, DeclTemp(t, Op(e.op, left, right)));
    }

    method GenCall(e: Expr) returns (t: nat)
      requires e.Call?
      modifies this
      ensures Emitted(LowerExpr(e, old(serial)).code, LowerExpr(e, old(serial)).serial, Supported(fns, e))
      ensures Supported(fns, e) ==> t == LowerExpr(e, old(serial)).temp
      decreases e, 0
    {
      ghost var n, before := serial, out;
      if e.func in fns {
        var temps := GenArgs(e.args);
        t := Value(CallC(e.func, temps));
        PrintSnoc(before, LowerArgs(e.args, n).code, DeclTemp(t, CallC(e.func, temps)));
      } else {
        err := true;
        t := Value(Nothing);
      }
    }

    method GenLogic(e: Expr) returns (t: nat)
      requires e.Logic?
      modifies this
      ensures Emitted(LowerExpr(e, old(serial)).code, LowerExpr(e, old(serial)).serial, Supported(fns, e))
      ensures Supported(fns, e) ==> t == LowerExpr(e, old(serial)).temp
      decreases e, 0
    {
      ghost var n, before := serial, out;
      var left := GenExpr(e.left);
      t := Value(Temp(left));
      ghost var first := Fresh(LowerExpr(e.left, n).code, Temp(left), t - 1);
      PrintSnoc(before, LowerExpr(e.left, n).code, DeclTemp(t, Temp(left)));
      Emit(LIf(LogicGuard(e.isOr, t)));
      ghost var right := LowerExpr(e.right, t);
      GenArm(e.right, t);
      Emit(LClose);
      PrintSnoc(before, first.code, When(LogicGuard(e.isOr, t), right.code + [CopyTemp(t, right.temp)]));
    }

    // One arm: `code; out = value;`.
    method GenArm(e: Expr, t: nat)
      modifies this
      ensures var c := LowerExpr(e, old(serial)); Emitted(c.code + [CopyTemp(t, c.temp)], c.serial, Supported(fns, e))
      decreases e, 2
    {
      ghost var n, before := serial, out;
      var value := GenExpr(e);
      Emit(LCopyTemp(t, value));
      PrintSnoc(before, LowerExpr(e, n).code, CopyTemp(t, value));
    }

    method GenIfExpr(e: Expr) returns (t: nat)
      requires e.IfExpr?
      modifies this
      ensures Emitted(LowerExpr(e, old(serial)).code, LowerExpr(e, old(serial)).serial, Supported(fns, e))
      ensures Supported(fns, e) ==> t == LowerExpr(e, old(serial)).temp
      decreases e, 0
    {
      IfExprPrinted(out, e, serial);
      var cond := GenExpr(e.cond);
      t := Value(Nothing);
      Emit(LIf(IsTrue(cond)));
      GenArms(e, t);
      Emit(LClose);
    }

    method GenArms(e: Expr, t: nat)
      requires e.IfExpr?
      modifies this
      ensures var thn := LowerExpr(e.thn, old(serial));
              var els := LowerExpr(e.els, thn.serial);
              var supported := Supported(fns, e.thn) && Supported(fns, e.els);
              && err == (old(err) || !supported)
              && (supported ==>
                    && out == Print(Print(old(out), thn.code + [CopyTemp(t, thn.temp)]) + [LElse], els.code + [CopyTemp(t, els.temp)])
                    && serial == els.serial)
      decreases e, 0, 0
    {
      GenArm(e.thn, t);
      Emit(LElse);
      GenArm(e.els, t);
    }

    method GenArgs(args: seq<Expr>) returns (temps: seq<nat>)
      modifies this
      ensures Emitted(LowerArgs(args, old(serial)).code, LowerArgs(args, old(serial)).serial, SupportedArgs(fns, args))
      ensures SupportedArgs(fns, args) ==> temps == LowerArgs(args, old(serial)).temps
      decreases args, 0
    {
      temps := [];
      ghost var n, start, failed := serial, out, err;
      var i := 0;
      while i < |args|
        invariant 0 <= i <= |args|
        invariant err == (failed || !SupportedArgs(fns, args[..i]))
        invariant SupportedArgs(fns, args[..i]) ==>
                    && out == Print(start, LowerArgs(args[..i], n).code)
                    && serial == LowerArgs(args[..i], n).serial
                    && temps == LowerArgs(args[..i], n).temps
      {
        ArgsNext(fns, args, i, n, start);
        var t := GenExpr(args[i]);
        temps := temps + [t];
        i := i + 1;
      }
      assert args[..i] == args;
    }

    method GenStmt(s: Stmt)
      modifies this
      ensures Emitted(LowerStmt(s, old(serial)).code, LowerStmt(s, old(serial)).serial, SupportedStmt(fns, s))
      decreases s, 2
    {
      ghost var n, before := serial, out;
      match s {
        case Let(x, e) =>
          var v := GenExpr(e);
          Emit(LDeclVar(x, Temp(v)));
          PrintSnoc(before, LowerExpr(e, n).code, DeclVar(x, Temp(v)));
        case Set(x, e) =>
          var v := GenExpr(e);
          Emit(LAssignVar(x, v));
          PrintSnoc(before, LowerExpr(e, n).code, AssignVar(x, v));
        case Return(None) => Emit(LReturn(Nothing));
        case Return(Some(e)) =>
          var v := GenExpr(e);
          Emit(LReturn(Temp(v)));
          PrintSnoc(before, LowerExpr(e, n).code, ReturnC(Temp(v)));
        case Do(e) =>
          var _ := GenExpr(e);
        case Break => Emit(LBreak);
        case Continue => Emit(LContinue);
        case If(_, _, _) => GenIf(s);
        case While(_, _) => GenWhile(s);
        case ForRange(_, _, _, _) => GenForRange(s);
        case Match(_, _, _, _, _) => GenMatch(s);
      }
    }

    method GenIf(s: Stmt)
      requires s.If?
      modifies this
      ensures Emitted(LowerStmt(s, old(serial)).code, LowerStmt(s, old(serial)).serial, SupportedStmt(fns, s))
      decreases s, 1
    {
      ghost var n, before := serial, out;
      var v := GenExpr(s.cond);
      ghost var first := LowerExpr(s.cond, n);
      Emit(LIf(IsTrue(v)));
      GenBody(s.thn);
      ghost var thn := LowerBody(s.thn, first.serial);
      Emit(LElse);
      GenBody(s.els);
      Emit(LClose);
      PrintSnoc(before, first.code, Branch(IsTrue(v), thn.code, LowerBody(s.els, thn.serial).code));
    }

    method GenWhile(s: Stmt)
      requires s.While?
      modifies this
      ensures Emitted(LowerStmt(s, old(serial)).code, LowerStmt(s, old(serial)).serial, SupportedStmt(fns, s))
      decreases s, 1
    {
      ghost var n, before := serial, out;
      Emit(LOpen);
      Emit(LForever);
      var v := GenExpr(s.cond);
      ghost var cc := LowerExpr(s.cond, n);
      Emit(LBreakUnless(v));
      GenBody(s.body);
      ghost var cb := LowerBody(s.body, cc.serial);
      Emit(LClose);
      Emit(LClose);
      PrintWhile(before, cc.code, v, cb.code);
    }

    method GenForRange(s: Stmt)
      requires s.ForRange?
      modifies this
      ensures Emitted(LowerStmt(s, old(serial)).code, LowerStmt(s, old(serial)).serial, SupportedStmt(fns, s))
      decreases s, 1
    {
      ghost var n, before := serial, out;
      Emit(LOpen);
      var a := GenExpr(s.start);
      ghost var ca := LowerExpr(s.start, n);
      var b := GenExpr(s.end);
      ghost var cb := LowerExpr(s.end, ca.serial);
      Emit(LDeclVar(s.name, Temp(a)));
      Emit(LCount(s.name, b));
      GenBody(s.body);
      Emit(LClose);
      Emit(LClose);
      PrintForRange(before, ca.code, cb.code, s.name, a, b, LowerBody(s.body, cb.serial).code);
    }

    method GenMatch(s: Stmt)
      requires s.Match?
      modifies this
      ensures Emitted(LowerStmt(s, old(serial)).code, LowerStmt(s, old(serial)).serial, SupportedStmt(fns, s))
      decreases s, 1
    {
      ghost var n, before := serial, out;
      var v := GenExpr(s.value);
      ghost var first := LowerExpr(s.value, n);
      Emit(LIf(IsOk(v)));
      ghost var atOk := out;
      Emit(LDeclVar(s.okName, Payload(v)));
      GenBody(s.ok);
      ghost var ok := LowerBody(s.ok, first.serial);
      PrintCons(atOk, DeclVar(s.okName, Payload(v)), ok.code);
      Emit(LElse);
      ghost var atErr := out;
      Emit(LDeclVar(s.errName, Payload(v)));
      GenBody(s.err);
      ghost var err := LowerBody(s.err, ok.serial).code;
      PrintCons(atErr, DeclVar(s.errName, Payload(v)), err);
      Emit(LClose);
      PrintSnoc(before, first.code,
                Branch(IsOk(v), [DeclVar(s.okName, Payload(v))] + ok.code, [DeclVar(s.errName, Payload(v))] + err));
    }

    method GenBody(body: seq<Stmt>)
      modifies this
      ensures Emitted(LowerBody(body, old(serial)).code, LowerBody(body, old(serial)).serial, SupportedBody(fns, body))
      decreases body, 0
    {
      ghost var n, start, failed := serial, out, err;
      var i := 0;
      while i < |body|
        invariant 0 <= i <= |body|
        invariant err == (failed || !SupportedBody(fns, body[..i]))
        invariant SupportedBody(fns, body[..i]) ==>
                    && out == Print(start, LowerBody(body[..i], n).code)
                    && serial == LowerBody(body[..i], n).serial
      {
        BodySnoc(fns, body[..i], body[i], n);
        assert body[..i + 1] == body[..i] + [body[i]];
        ghost var done := LowerBody(body[..i], n);
        PrintAppend(start, done.code, LowerStmt(body[i], done.serial).code);
        GenStmt(body[i]);
        i := i + 1;
      }
      assert body[..i] == body;
    }

    // One `static V u_f(V *argv) {..}`: parameters, body, final return.
    method GenFunc(f: Func)
      modifies this
      ensures Emitted(LowerFunc(f, old(serial)).body, LowerBody(f.body, old(serial)).serial, SupportedBody(fns, f.body))
    {
      ghost var n, before := serial, out;
      GenBody(f.body);
      Emit(LReturn(Nothing));
      PrintSnoc(before, LowerBody(f.body, n).code, ReturnC(Nothing));
    }
  }

  lemma {:induction false} PrintSnoc(out: seq<Line>, a: seq<Code>, c: Code)
    ensures Print(out, a + [c]) == Print1(Print(out, a), c)
  {
    PrintAppend(out, a, [c]);
  }

  lemma {:induction false} PrintBin(out: seq<Line>, a: seq<Code>, b: seq<Code>, c: Code)
    ensures Print(out, a + b + [c]) == Print1(Print(Print(out, a), b), c)
  {
    PrintAppend(out, a, b);
    PrintSnoc(out, a + b, c);
  }

  lemma {:induction false} PrintCons(out: seq<Line>, c: Code, cs: seq<Code>)
    ensures Print(out, [c] + cs) == Print(Print1(out, c), cs)
  {
    assert ([c] + cs)[1..] == cs;
  }

  lemma {:induction false} PrintOnly(out: seq<Line>, c: Code)
    ensures Print(out, [c]) == Print1(out, c)
  {
    PrintCons(out, c, []);
    assert [c] + [] == [c];
  }

  // An if-expression is its condition, the temporary of the result, and the two arms.
  function IfLines(out: seq<Line>, first: seq<Code>, cond: nat, t: nat, thn: seq<Code>, els: seq<Code>): seq<Line> {
    Print(Print(Print(out, first) + [LDeclTemp(t, Nothing)] + [LIf(IsTrue(cond))], thn) + [LElse], els) + [LClose]
  }

  lemma {:induction false} PrintIfExpr(out: seq<Line>, first: seq<Code>, cond: nat, t: nat, thn: seq<Code>, els: seq<Code>)
    ensures Print(out, first + [DeclTemp(t, Nothing)] + [Branch(IsTrue(cond), thn, els)]) == IfLines(out, first, cond, t, thn, els)
  {
    PrintSnoc(out, first, DeclTemp(t, Nothing));
    PrintSnoc(out, first + [DeclTemp(t, Nothing)], Branch(IsTrue(cond), thn, els));
  }

  lemma IfExprLowered(e: Expr, n: nat)
    requires e.IfExpr?
    ensures var cc := LowerExpr(e.cond, n);
            var t := cc.serial + 1;
            var thn := LowerExpr(e.thn, t);
            var els := LowerExpr(e.els, thn.serial);
            LowerExpr(e, n) ==
            Lowered(cc.code + [DeclTemp(t, Nothing)]
                    + [Branch(IsTrue(cc.temp), thn.code + [CopyTemp(t, thn.temp)], els.code + [CopyTemp(t, els.temp)])], t, els.serial)
  {
    var cc := LowerExpr(e.cond, n);
    var out := Fresh(cc.code, Nothing, cc.serial);
    assert out == Lowered(cc.code + [DeclTemp(cc.serial + 1, Nothing)], cc.serial + 1, cc.serial + 1);
  }

  lemma {:induction false} IfExprPrinted(out: seq<Line>, e: Expr, n: nat)
    requires e.IfExpr?
    ensures var cc := LowerExpr(e.cond, n);
            var thn := LowerExpr(e.thn, cc.serial + 1);
            var els := LowerExpr(e.els, thn.serial);
            && LowerExpr(e, n).temp == cc.serial + 1 && LowerExpr(e, n).serial == els.serial
            && Print(out, LowerExpr(e, n).code) ==
               IfLines(out, cc.code, cc.temp, cc.serial + 1, thn.code + [CopyTemp(cc.serial + 1, thn.temp)], els.code + [CopyTemp(cc.serial + 1, els.temp)])
  {
    var cc := LowerExpr(e.cond, n);
    var t := cc.serial + 1;
    var thn := LowerExpr(e.thn, t);
    var els := LowerExpr(e.els, thn.serial);
    IfExprLowered(e, n);
    PrintIfExpr(out, cc.code, cc.temp, t, thn.code + [CopyTemp(t, thn.temp)], els.code + [CopyTemp(t, els.temp)]);
  }

  lemma {:induction false} PrintWhile(out: seq<Line>, test: seq<Code>, v: nat, body: seq<Code>)
    ensures Print(out, [Block([Forever(test + [BreakUnless(v)] + body)])]) ==
            Print(Print(out + [LOpen] + [LForever], test) + [LBreakUnless(v)], body) + [LClose] + [LClose]
  {
    var loop := Forever(test + [BreakUnless(v)] + body);
    PrintSnoc(out + [LOpen] + [LForever], test, BreakUnless(v));
    PrintAppend(out + [LOpen] + [LForever], test + [BreakUnless(v)], body);
    PrintOnly(out + [LOpen], loop);
    PrintOnly(out, Block([loop]));
  }

  lemma {:induction false} PrintForRange(out: seq<Line>, start: seq<Code>, end: seq<Code>, x: string, a: nat, b: nat, body: seq<Code>)
    ensures Print(out, [Block(start + end + [DeclVar(x, Temp(a)), Count(x, b, body)])]) ==
            Print(Print(Print(out + [LOpen], start), end) + [LDeclVar(x, Temp(a))] + [LCount(x, b)], body) + [LClose] + [LClose]
  {
    var o := out + [LOpen];
    PrintAppend(o, start, end);
    PrintTwo(o, start + end, DeclVar(x, Temp(a)), Count(x, b, body));
    PrintOnly(out, Block(start + end + [DeclVar(x, Temp(a)), Count(x, b, body)]));
  }

  lemma {:induction false} PrintTwo(out: seq<Line>, a: seq<Code>, c: Code, d: Code)
    ensures Print(out, a + [c, d]) == Print1(Print1(Print(out, a), c), d)
  {
    PrintSnoc(out, a, c);
    PrintSnoc(out, a + [c], d);
    assert a + [c, d] == a + [c] + [d];
  }

  // Lowering one more argument, or one more statement, at the end.
  lemma {:induction false} ArgsSnoc(fns: set<string>, args: seq<Expr>, e: Expr, n: nat)
    ensures SupportedArgs(fns, args + [e]) == (SupportedArgs(fns, args) && Supported(fns, e))
    ensures var a := LowerArgs(args, n);
            var c := LowerExpr(e, a.serial);
            LowerArgs(args + [e], n) == LoweredArgs(a.code + c.code, a.temps + [c.temp], c.serial)
    decreases |args|
  {
    if args == [] {
      assert args + [e] == [e];
      assert LowerExpr(e, n).code + [] == LowerExpr(e, n).code == [] + LowerExpr(e, n).code;
    } else {
      assert (args + [e])[1..] == args[1..] + [e];
      ArgsSnoc(fns, args[1..], e, LowerExpr(args[0], n).serial);
    }
  }

  // The first i arguments, and the next one.
  lemma {:induction false} ArgsNext(fns: set<string>, args: seq<Expr>, i: nat, n: nat, out: seq<Line>)
    requires i < |args|
    ensures var a := LowerArgs(args[..i], n);
            var c := LowerExpr(args[i], a.serial);
            && SupportedArgs(fns, args[..i + 1]) == (SupportedArgs(fns, args[..i]) && Supported(fns, args[i]))
            && LowerArgs(args[..i + 1], n) == LoweredArgs(a.code + c.code, a.temps + [c.temp], c.serial)
            && Print(out, a.code + c.code) == Print(Print(out, a.code), c.code)
  {
    ArgsSnoc(fns, args[..i], args[i], n);
    assert args[..i + 1] == args[..i] + [args[i]];
    var a := LowerArgs(args[..i], n);
    PrintAppend(out, a.code, LowerExpr(args[i], a.serial).code);
  }

  lemma {:induction false} BodySnoc(fns: set<string>, body: seq<Stmt>, s: Stmt, n: nat)
    ensures SupportedBody(fns, body + [s]) == (SupportedBody(fns, body) && SupportedStmt(fns, s))
    ensures var a := LowerBody(body, n);
            var c := LowerStmt(s, a.serial);
            LowerBody(body + [s], n) == LoweredStmt(a.code + c.code, c.serial)
    decreases |body|
  {
    if body == [] {
      assert body + [s] == [s];
      assert LowerStmt(s, n).code + [] == LowerStmt(s, n).code == [] + LowerStmt(s, n).code;
    } else {
      assert (body + [s])[1..] == body[1..] + [s];
      BodySnoc(fns, body[1..], s, LowerStmt(body[0], n).serial);
    }
  }

  // ----- What the code calls -----

  function CallsOf(rhs: Rhs): set<string> { if rhs.CallC? then {rhs.func} else {} }

  function CodeCalls1(c: Code): set<string>
    decreases c, 1
  {
    match c
    case DeclTemp(_, rhs) => CallsOf(rhs)
    case DeclVar(_, rhs) => CallsOf(rhs)
    case ReturnC(rhs) => CallsOf(rhs)
    case When(_, thn) => CodeCalls(thn)
    case Branch(_, thn, els) => CodeCalls(thn) + CodeCalls(els)
    case Forever(body) => CodeCalls(body)
    case Count(_, _, body) => CodeCalls(body)
    case Block(body) => CodeCalls(body)
    case CopyTemp(_, _) => {}
    case AssignVar(_, _) => {}
    case BreakUnless(_) => {}
    case BreakC => {}
    case ContinueC => {}
  }

  function CodeCalls(code: seq<Code>): set<string>
    decreases code
  {
    if code == [] then {} else CodeCalls1(code[0]) + CodeCalls(code[1..])
  }

  function ModuleCalls(fs: CModule): set<string> {
    if fs == [] then {} else CodeCalls(fs[0].1.body) + ModuleCalls(fs[1..])
  }

  lemma {:induction false} CodeCallsAppend(a: seq<Code>, b: seq<Code>)
    ensures CodeCalls(a + b) == CodeCalls(a) + CodeCalls(b)
    decreases |a|
  {
    if a == [] {
      assert a + b == b;
    } else {
      assert (a + b)[1..] == a[1..] + b;
      CodeCallsAppend(a[1..], b);
    }
  }

  lemma {:induction false} CodeCallsSnoc(a: seq<Code>, c: Code)
    ensures CodeCalls(a + [c]) == CodeCalls(a) + CodeCalls1(c)
  {
    CodeCallsAppend(a, [c]);
    assert [c][1..] == [];
  }

  lemma {:induction false} ExprCalls(e: Expr, n: nat)
    ensures CodeCalls(LowerExpr(e, n).code) == Called(e)
    decreases e, 1
  {
    match e
    case IntLit(k) => CodeCallsSnoc([], DeclTemp(n + 1, Literal(k)));
    case BoolLit(b) => CodeCallsSnoc([], DeclTemp(n + 1, Bool(b)));
    case Ident(x) => CodeCallsSnoc([], DeclTemp(n + 1, Var(x)));
    case Call(f, args) =>
      var a := LowerArgs(args, n);
      ArgsCalls(args, n);
      CodeCallsSnoc(a.code, DeclTemp(a.serial + 1, CallC(f, a.temps)));
    case Bin(op, l, r) =>
      var cl := LowerExpr(l, n);
      var cr := LowerExpr(r, cl.serial);
      ExprCalls(l, n);
      ExprCalls(r, cl.serial);
      CodeCallsAppend(cl.code, cr.code);
      CodeCallsSnoc(cl.code + cr.code, DeclTemp(cr.serial + 1, Op(op, cl.temp, cr.temp)));
    case Logic(_, _, _) => LogicCalls(e, n);
    case IfExpr(_, _, _) => IfExprCalls(e, n);
  }

  lemma {:induction false} LogicCalls(e: Expr, n: nat)
    requires e.Logic?
    ensures CodeCalls(LowerExpr(e, n).code) == Called(e)
    decreases e, 0
  {
    var cl := LowerExpr(e.left, n);
    var out := Fresh(cl.code, Temp(cl.temp), cl.serial);
    var cr := LowerExpr(e.right, out.serial);
    ExprCalls(e.left, n);
    ExprCalls(e.right, out.serial);
    CodeCallsSnoc(cl.code, DeclTemp(out.temp, Temp(cl.temp)));
    CodeCallsSnoc(cr.code, CopyTemp(out.temp, cr.temp));
    CodeCallsSnoc(out.code, When(LogicGuard(e.isOr, out.temp), cr.code + [CopyTemp(out.temp, cr.temp)]));
  }

  lemma {:induction false} IfExprCalls(e: Expr, n: nat)
    requires e.IfExpr?
    ensures CodeCalls(LowerExpr(e, n).code) == Called(e)
    decreases e, 0
  {
    var cc := LowerExpr(e.cond, n);
    var out := Fresh(cc.code, Nothing, cc.serial);
    var ct := LowerExpr(e.thn, out.serial);
    var cf := LowerExpr(e.els, ct.serial);
    var (thn, els) := (ct.code + [CopyTemp(out.temp, ct.temp)], cf.code + [CopyTemp(out.temp, cf.temp)]);
    ExprCalls(e.cond, n);
    ExprCalls(e.thn, out.serial);
    ExprCalls(e.els, ct.serial);
    CodeCallsSnoc(cc.code, DeclTemp(out.temp, Nothing));
    CodeCallsSnoc(ct.code, CopyTemp(out.temp, ct.temp));
    CodeCallsSnoc(cf.code, CopyTemp(out.temp, cf.temp));
    CodeCallsSnoc(out.code, Branch(IsTrue(cc.temp), thn, els));
  }

  lemma {:induction false} ArgsCalls(args: seq<Expr>, n: nat)
    ensures CodeCalls(LowerArgs(args, n).code) == CalledAll(args)
    decreases args, 0
  {
    if args != [] {
      var a := LowerExpr(args[0], n);
      ExprCalls(args[0], n);
      ArgsCalls(args[1..], a.serial);
      CodeCallsAppend(a.code, LowerArgs(args[1..], a.serial).code);
    }
  }

  lemma {:induction false} StmtCalls(s: Stmt, n: nat)
    ensures CodeCalls(LowerStmt(s, n).code) == CalledIn(s)
    decreases s, 1
  {
    match s
    case Let(x, e) => LineCalls(e, n, DeclVar(x, Temp(LowerExpr(e, n).temp)));
    case Set(x, e) => LineCalls(e, n, AssignVar(x, LowerExpr(e, n).temp));
    case Return(None) => CodeCallsSnoc([], ReturnC(Nothing)); assert [] + [ReturnC(Nothing)] == [ReturnC(Nothing)];
    case Return(Some(e)) => LineCalls(e, n, ReturnC(Temp(LowerExpr(e, n).temp)));
    case Do(e) => ExprCalls(e, n);
    case If(_, _, _) => IfCalls(s, n);
    case While(_, _) => WhileCalls(s, n);
    case ForRange(_, _, _, _) => RangeCalls(s, n);
    case Match(_, _, _, _, _) => MatchCalls(s, n);
    case Break =>
    case Continue =>
  }

  // The code of an expression and one line that calls nothing.
  lemma {:induction false} LineCalls(e: Expr, n: nat, c: Code)
    requires CodeCalls1(c) == {}
    ensures CodeCalls(LowerExpr(e, n).code + [c]) == Called(e)
  {
    ExprCalls(e, n);
    CodeCallsSnoc(LowerExpr(e, n).code, c);
  }

  lemma {:induction false} IfCalls(s: Stmt, n: nat)
    requires s.If?
    ensures CodeCalls(LowerStmt(s, n).code) == CalledIn(s)
    decreases s, 0
  {
    var cc := LowerExpr(s.cond, n);
    var ct := LowerBody(s.thn, cc.serial);
    var cf := LowerBody(s.els, ct.serial);
    ExprCalls(s.cond, n);
    BodyCalls(s.thn, cc.serial);
    BodyCalls(s.els, ct.serial);
    CodeCallsSnoc(cc.code, Branch(IsTrue(cc.temp), ct.code, cf.code));
  }

  lemma {:induction false} WhileCalls(s: Stmt, n: nat)
    requires s.While?
    ensures CodeCalls(LowerStmt(s, n).code) == CalledIn(s)
    decreases s, 0
  {
    var cc := LowerExpr(s.cond, n);
    var cb := LowerBody(s.body, cc.serial);
    var loop := Forever(cc.code + [BreakUnless(cc.temp)] + cb.code);
    LineCalls(s.cond, n, BreakUnless(cc.temp));
    BodyCalls(s.body, cc.serial);
    CodeCallsAppend(cc.code + [BreakUnless(cc.temp)], cb.code);
    CodeCallsSnoc([], loop);
    CodeCallsSnoc([], Block([loop]));
    assert [] + [loop] == [loop] && [] + [Block([loop])] == [Block([loop])];
  }

  lemma {:induction false} RangeCalls(s: Stmt, n: nat)
    requires s.ForRange?
    ensures CodeCalls(LowerStmt(s, n).code) == CalledIn(s)
    decreases s, 0
  {
    var ca := LowerExpr(s.start, n);
    var cb := LowerExpr(s.end, ca.serial);
    var cs := LowerBody(s.body, cb.serial);
    var (decl, count) := (DeclVar(s.name, Temp(ca.temp)), Count(s.name, cb.temp, cs.code));
    ExprCalls(s.start, n);
    ExprCalls(s.end, ca.serial);
    BodyCalls(s.body, cb.serial);
    CodeCallsAppend(ca.code, cb.code);
    CodeCallsSnoc(ca.code + cb.code, decl);
    CodeCallsSnoc(ca.code + cb.code + [decl], count);
    var code := ca.code + cb.code + [decl, count];
    assert code == ca.code + cb.code + [decl] + [count];
    CodeCallsSnoc([], Block(code));
    assert [] + [Block(code)] == [Block(code)];
  }

  lemma {:induction false} MatchCalls(s: Stmt, n: nat)
    requires s.Match?
    ensures CodeCalls(LowerStmt(s, n).code) == CalledIn(s)
    decreases s, 0
  {
    var c := LowerExpr(s.value, n);
    var co := LowerBody(s.ok, c.serial);
    var ce := LowerBody(s.err, co.serial);
    var (ok, err) := (DeclVar(s.okName, Payload(c.temp)), DeclVar(s.errName, Payload(c.temp)));
    ExprCalls(s.value, n);
    BodyCalls(s.ok, c.serial);
    BodyCalls(s.err, co.serial);
    CodeCallsAppend([ok], co.code);
    CodeCallsAppend([err], ce.code);
    assert CodeCalls([ok]) == {} == CodeCalls([err]);
    CodeCallsSnoc(c.code, Branch(IsOk(c.temp), [ok] + co.code, [err] + ce.code));
  }

  lemma {:induction false} BodyCalls(body: seq<Stmt>, n: nat)
    ensures CodeCalls(LowerBody(body, n).code) == CalledInAll(body)
    decreases body, 0
  {
    if body != [] {
      var c := LowerStmt(body[0], n);
      StmtCalls(body[0], n);
      BodyCalls(body[1..], c.serial);
      CodeCallsAppend(c.code, LowerBody(body[1..], c.serial).code);
    }
  }

  // The emitted code calls what the source calls: with Generate, a module is emitted exactly if its code calls
  // no function that it does not define.
  lemma {:induction false} ModuleCallsAlike(fs: Module, n: nat)
    ensures ModuleCalls(LowerModule(fs, n)) == CalledInModule(fs)
  {
    if fs != [] {
      var k := LowerBody(fs[0].1.body, n).serial;
      BodyCalls(fs[0].1.body, n);
      CodeCallsSnoc(LowerBody(fs[0].1.body, n).code, ReturnC(Nothing));
      ModuleCallsAlike(fs[1..], k);
      assert LowerModule(fs, n)[1..] == LowerModule(fs[1..], k);
    }
  }
}
