/**
The import loader: a depth-first walk that inlines every file at its first import, with a stack that
finds circular imports and a set of visited files that keeps a file from being inlined twice. Files of
the program and modules of the standard library are walked alike, but a module of the library may only
import other modules of the library.
*/
module Loader {
  import opened Wrappers

  datatype Path = Local(name: string) | Std(name: string)

  datatype Decl = Import(target: Path) | Def

  // A file that does not parse gives diagnostics and no declarations.
  datatype File = Broken | Module(decls: seq<Decl>)

  type Files = map<Path, File>

  // A declaration that is not an import, named after where it stands.
  datatype Origin = Origin(file: Path, pos: nat)

  datatype Diag =
    | Circular(from: Path, target: Path)
    | NotFound(from: Path, target: Path)
    | StdRelative(from: Path, target: Path)
    | Invalid(file: Path)

  // ----- The import graph -----

  predicate Parsed(fs: Files, f: Path) { f in fs && fs[f].Module? }

  predicate Allowed(f: Path, g: Path) { f.Std? ==> g.Std? }

  predicate Imports(fs: Files, f: Path, g: Path) { Parsed(fs, f) && Import(g) in fs[f].decls }

  predicate Edge(fs: Files, f: Path, g: Path) { Imports(fs, f, g) && Allowed(f, g) && Parsed(fs, g) }

  // An import that cannot be followed.
  predicate Fault(fs: Files, f: Path, g: Path) { Imports(fs, f, g) && !(Allowed(f, g) && Parsed(fs, g)) }

  predicate IsDef(fs: Files, o: Origin) { Parsed(fs, o.file) && o.pos < |fs[o.file].decls| && fs[o.file].decls[o.pos].Def? }

  ghost predicate IsPath(fs: Files, p: seq<Path>) { p != [] && forall i :: 0 <= i < |p| - 1 ==> Edge(fs, p[i], p[i + 1]) }

  ghost predicate Reaches(fs: Files, a: Path, b: Path) { exists p :: IsPath(fs, p) && p[0] == a && p[|p| - 1] == b }

  ghost predicate Cyclic(fs: Files, root: Path) {
    exists p, k :: IsPath(fs, p) && p[0] == root && 0 <= k < |p| - 1 && p[k] == p[|p| - 1]
  }

  ghost predicate Faulty(fs: Files, root: Path) { exists f, g :: Reaches(fs, root, f) && Fault(fs, f, g) }

  ghost predicate NoDup<T(!new)>(s: seq<T>) { forall i, j :: 0 <= i < j < |s| ==> s[i] != s[j] }

  // Each file comes after the files it imports.
  ghost predicate Ranked(fs: Files, done: seq<Path>) {
    forall i, g :: 0 <= i < |done| && Edge(fs, done[i], g) ==> g in done[..i]
  }

  lemma {:induction false} PathDescends(fs: Files, done: seq<Path>, p: seq<Path>, i: nat)
    requires Ranked(fs, done) && IsPath(fs, p) && |p| > 1 && i < |done| && p[0] == done[i]
    ensures p[|p| - 1] in done[..i]
    decreases |p|
  {
    assert Edge(fs, p[0], p[1]) && p[1] in done[..i];
    if |p| > 2 {
      var j :| 0 <= j < i && done[j] == p[1];
      var rest := p[1..];
      forall k | 0 <= k < |rest| - 1 ensures Edge(fs, rest[k], rest[k + 1]) { assert Edge(fs, p[k + 1], p[k + 2]); }
      PathDescends(fs, done, rest, j);
      assert done[..j] <= done[..i];
    }
  }

  lemma RankedAcyclic(fs: Files, done: seq<Path>, root: Path)
    requires Ranked(fs, done) && NoDup(done) && root in done
    requires forall f, g :: f in done && Edge(fs, f, g) ==> g in done
    ensures !Cyclic(fs, root)
  {
    forall p, k | IsPath(fs, p) && p[0] == root && 0 <= k < |p| - 1 ensures p[k] != p[|p| - 1] {
      PathStays(fs, done, p, k);
      var i :| 0 <= i < |done| && done[i] == p[k];
      var rest := p[k..];
      forall j | 0 <= j < |rest| - 1 ensures Edge(fs, rest[j], rest[j + 1]) { assert Edge(fs, p[k + j], p[k + j + 1]); }
      PathDescends(fs, done, rest, i);
    }
  }

  lemma {:induction false} PathStays(fs: Files, seen: seq<Path>, p: seq<Path>, k: nat)
    requires IsPath(fs, p) && p[0] in seen && k < |p|
    requires forall f, g :: f in seen && Edge(fs, f, g) ==> g in seen
    ensures p[k] in seen
  {
    if k > 0 {
      PathStays(fs, seen, p, k - 1);
      assert Edge(fs, p[k - 1], p[k - 1 + 1]);
    }
  }

  lemma Extend(fs: Files, a: Path, b: Path, c: Path)
    requires Reaches(fs, a, b) && Edge(fs, b, c)
    ensures Reaches(fs, a, c)
  {
    var p :| IsPath(fs, p) && p[0] == a && p[|p| - 1] == b;
    var q := p + [c];
    forall i | 0 <= i < |q| - 1 ensures Edge(fs, q[i], q[i + 1]) {
      if i < |p| - 1 { assert Edge(fs, p[i], p[i + 1]); }
    }
    assert IsPath(fs, q) && q[0] == a && q[|q| - 1] == c;
  }

  lemma BackEdge(fs: Files, stack: seq<Path>, g: Path)
    requires IsPath(fs, stack) && Edge(fs, stack[|stack| - 1], g) && g in stack
    ensures Cyclic(fs, stack[0])
  {
    var k :| 0 <= k < |stack| && stack[k] == g;
    var q := stack + [g];
    forall i | 0 <= i < |q| - 1 ensures Edge(fs, q[i], q[i + 1]) {
      if i < |stack| - 1 { assert Edge(fs, stack[i], stack[i + 1]); }
    }
    assert IsPath(fs, q) && q[0] == stack[0] && 0 <= k < |q| - 1 && q[k] == q[|q| - 1];
  }

  // ----- The order of the merged declarations -----

  // What a file declares after an import comes after all that the imported file declares.
  ghost predicate InOrder(fs: Files, out: seq<Origin>) {
    forall k :: 0 <= k < |out| && IsDef(fs, out[k]) ==> AfterImports(fs, out[..k], out[k])
  }

  ghost predicate AfterImports(fs: Files, before: seq<Origin>, o: Origin)
    requires IsDef(fs, o)
  {
    forall i, g :: 0 <= i < o.pos && fs[o.file].decls[i] == Import(g) && Edge(fs, o.file, g) ==> Inlined(fs, before, g)
  }

  ghost predicate Inlined(fs: Files, out: seq<Origin>, g: Path) {
    forall pos: nat :: IsDef(fs, Origin(g, pos)) ==> Origin(g, pos) in out
  }

  // ----- The state of a walk -----

  datatype Walk = Walk(
    root: Path, visited: set<Path>, stack: seq<Path>, diags: seq<Diag>,
    done: seq<Path>,           // the files left, in the order they were left
    emitted: seq<Origin>)      // the declarations merged so far

  predicate NoCycle(w: Walk) { forall i :: 0 <= i < |w.diags| ==> !w.diags[i].Circular? }

  ghost predicate StackOk(fs: Files, w: Walk) {
    && IsPath(fs, w.stack) && w.stack[0] == w.root && NoDup(w.stack) && NoDup(w.done)
    && (forall f :: f in w.visited <==> f in w.stack || f in w.done)
    && (forall f :: f in w.stack ==> f !in w.done)
    && (forall f :: f in w.visited ==> Parsed(fs, f) && Reaches(fs, w.root, f))
  }

  // The import was followed to the end, or reported.
  ghost predicate Followed(fs: Files, w: Walk, f: Path, g: Path, among: seq<Path>) {
    && (Edge(fs, f, g) ==> g in w.visited && (NoCycle(w) ==> g in among))
    && (Fault(fs, f, g) ==> w.diags != [])
  }

  ghost predicate DoneOk(fs: Files, w: Walk) {
    forall i, g :: 0 <= i < |w.done| && Imports(fs, w.done[i], g) ==> Followed(fs, w, w.done[i], g, w.done[..i])
  }

  ghost predicate DiagsOk(fs: Files, w: Walk) {
    && (!NoCycle(w) ==> Cyclic(fs, w.root))
    && (w.diags != [] ==> Cyclic(fs, w.root) || Faulty(fs, w.root))
  }

  ghost predicate EmittedOk(fs: Files, w: Walk) {
    && NoDup(w.emitted)
    && (forall o :: o in w.emitted ==> IsDef(fs, o) && o.file in w.visited)
    && (forall f :: f in w.done ==> Inlined(fs, w.emitted, f))
    && (NoCycle(w) ==> InOrder(fs, w.emitted))
  }

  ghost predicate Valid(fs: Files, w: Walk) { StackOk(fs, w) && DoneOk(fs, w) && DiagsOk(fs, w) && EmittedOk(fs, w) }

  // The walk has only gone forward, and is back at the same file.
  ghost predicate Forward(w: Walk, w': Walk) {
    && w'.stack == w.stack && w'.root == w.root && w.visited <= w'.visited
    && w.diags <= w'.diags && w.done <= w'.done && w.emitted <= w'.emitted
  }

  // ... and has merged these declarations, of files it had not visited and of the file itself.
  ghost predicate Brought(w: Walk, w': Walk, out: seq<Origin>, file: Option<Path>) {
    && Forward(w, w') && w'.emitted == w.emitted + out
    && (forall o :: o in out ==> o.file !in w.visited || Some(o.file) == file)
  }

  lemma BroughtMore(w0: Walk, w: Walk, w': Walk, out: seq<Origin>, more: seq<Origin>, file: Path)
    requires Brought(w0, w, out, Some(file)) && (Brought(w, w', more, None) || Brought(w, w', more, Some(file)))
    ensures Brought(w0, w', out + more, Some(file))
  {
    assert w0.emitted + out + more == w0.emitted + (out + more);
  }

  lemma StillFollowed(fs: Files, w: Walk, w': Walk, f: Path, g: Path)
    requires Followed(fs, w, f, g, w.done) && w.visited <= w'.visited && w.diags <= w'.diags && w.done <= w'.done
    ensures Followed(fs, w', f, g, w'.done)
  {
    if !NoCycle(w) {
      var i :| 0 <= i < |w.diags| && w.diags[i].Circular?;
      assert w'.diags[i].Circular?;
    }
  }

  // An error: a circular import for a cycle, any other for an import that cannot be followed.
  lemma ErrorKeeps(fs: Files, w: Walk, d: Diag)
    requires Valid(fs, w) && if d.Circular? then Cyclic(fs, w.root) else Faulty(fs, w.root)
    ensures Valid(fs, w.(diags := w.diags + [d]))
  {
    var w' := w.(diags := w.diags + [d]);
    assert NoCycle(w') ==> NoCycle(w) by { assert forall i :: 0 <= i < |w.diags| ==> w'.diags[i] == w.diags[i]; }
    forall i, g | 0 <= i < |w'.done| && Imports(fs, w'.done[i], g) ensures Followed(fs, w', w'.done[i], g, w'.done[..i]) {
      assert Followed(fs, w, w.done[i], g, w.done[..i]);
    }
  }

  lemma PushedStack(fs: Files, w: Walk, g: Path)
    requires StackOk(fs, w) && Edge(fs, w.stack[|w.stack| - 1], g) && g !in w.visited
    ensures StackOk(fs, w.(visited := w.visited + {g}, stack := w.stack + [g]))
  {
    var w' := w.(visited := w.visited + {g}, stack := w.stack + [g]);
    forall i | 0 <= i < |w'.stack| - 1 ensures Edge(fs, w'.stack[i], w'.stack[i + 1]) {
      if i < |w.stack| - 1 { assert Edge(fs, w.stack[i], w.stack[i + 1]); }
    }
    Extend(fs, w.root, w.stack[|w.stack| - 1], g);
  }

  lemma PushKeeps(fs: Files, w: Walk, g: Path)
    requires Valid(fs, w) && Edge(fs, w.stack[|w.stack| - 1], g) && g !in w.visited
    ensures Valid(fs, w.(visited := w.visited + {g}, stack := w.stack + [g]))
  {
    var w' := w.(visited := w.visited + {g}, stack := w.stack + [g]);
    PushedStack(fs, w, g);
    forall i, h | 0 <= i < |w'.done| && Imports(fs, w'.done[i], h) ensures Followed(fs, w', w'.done[i], h, w'.done[..i]) {
      assert Followed(fs, w, w.done[i], h, w.done[..i]);
    }
  }

  lemma PopKeeps(fs: Files, w: Walk, g: Path)
    requires Valid(fs, w) && |w.stack| > 1 && w.stack[|w.stack| - 1] == g
    requires Inlined(fs, w.emitted, g)
    requires forall h :: Imports(fs, g, h) ==> Followed(fs, w, g, h, w.done)
    ensures Valid(fs, w.(stack := w.stack[..|w.stack| - 1], done := w.done + [g]))
  {
    var n := |w.stack| - 1;
    var w' := w.(stack := w.stack[..n], done := w.done + [g]);
    assert w.stack == w'.stack + [g] && g in w.stack;
    forall f ensures f in w.stack <==> f in w'.stack || f == g {}
    forall f | f in w'.stack ensures f != g && f !in w'.done {}
    forall i | 0 <= i < |w'.stack| - 1 ensures Edge(fs, w'.stack[i], w'.stack[i + 1]) { assert Edge(fs, w.stack[i], w.stack[i + 1]); }
    forall i, h | 0 <= i < |w'.done| && Imports(fs, w'.done[i], h) ensures Followed(fs, w', w'.done[i], h, w'.done[..i]) {
      if i < |w.done| {
        assert Followed(fs, w, w.done[i], h, w.done[..i]);
        assert w'.done[..i] == w.done[..i];
      } else {
        assert w'.done[..i] == w.done;
      }
    }
  }

  lemma EmitKeeps(fs: Files, w: Walk, o: Origin)
    requires Valid(fs, w) && IsDef(fs, o) && o.file in w.visited && o !in w.emitted
    requires forall j :: 0 <= j < o.pos && fs[o.file].decls[j].Import? ==> Followed(fs, w, o.file, fs[o.file].decls[j].target, w.done)
    ensures Valid(fs, w.(emitted := w.emitted + [o]))
  {
    var w' := w.(emitted := w.emitted + [o]);
    forall f | f in w'.done ensures Inlined(fs, w'.emitted, f) { assert Inlined(fs, w.emitted, f); }
    if NoCycle(w') {
      forall k | 0 <= k < |w'.emitted| && IsDef(fs, w'.emitted[k]) ensures AfterImports(fs, w'.emitted[..k], w'.emitted[k]) {
        if k < |w.emitted| {
          assert w'.emitted[..k] == w.emitted[..k] && AfterImports(fs, w.emitted[..k], w.emitted[k]);
        } else {
          assert w'.emitted[..k] == w.emitted;
        }
      }
    }
    forall i, h | 0 <= i < |w'.done| && Imports(fs, w'.done[i], h) ensures Followed(fs, w', w'.done[i], h, w'.done[..i]) {
      assert Followed(fs, w, w.done[i], h, w.done[..i]);
    }
  }

  // A file that has been expanded is taken off the stack: what it brought is new, and the import is followed.
  lemma InlinedBack(fs: Files, before: Walk, w: Walk, out: seq<Origin>, from: Path, target: Path)
    requires var start := before.(stack := before.stack + [target], visited := before.visited + {target});
             Edge(fs, from, target) && target !in before.visited && Brought(start, w, out, Some(target))
    ensures var w' := w.(stack := w.stack[..|w.stack| - 1], done := w.done + [target]);
            Brought(before, w', out, None) && Followed(fs, w', from, target, w'.done)
  {
    var w' := w.(stack := w.stack[..|w.stack| - 1], done := w.done + [target]);
    assert w'.stack == before.stack && w'.done[|w.done|] == target;
  }

  // The first i declarations of the file have been expanded to out.
  ghost predicate Expanded(fs: Files, w0: Walk, w: Walk, file: Path, out: seq<Origin>, i: nat) {
    && Parsed(fs, file) && i <= |fs[file].decls|
    && (forall o :: o in out ==> (o.file == file && o.pos < i) || o.file !in w0.visited)
    && (forall j :: 0 <= j < i && fs[file].decls[j].Import? ==> Followed(fs, w, file, fs[file].decls[j].target, w.done))
    && (forall j: nat :: j < i && fs[file].decls[j].Def? ==> Origin(file, j) in w.emitted)
  }

  lemma ExpandDef(fs: Files, w0: Walk, w: Walk, file: Path, out: seq<Origin>, i: nat)
    requires Valid(fs, w) && Expanded(fs, w0, w, file, out, i) && i < |fs[file].decls| && fs[file].decls[i].Def?
    requires w.emitted == w0.emitted + out && file in w0.visited && w0.visited <= w.visited
    requires forall o :: o in w0.emitted ==> o.file != file
    ensures Valid(fs, w.(emitted := w.emitted + [Origin(file, i)]))
    ensures Expanded(fs, w0, w.(emitted := w.emitted + [Origin(file, i)]), file, out + [Origin(file, i)], i + 1)
  {
    EmitKeeps(fs, w, Origin(file, i));
    var w' := w.(emitted := w.emitted + [Origin(file, i)]);
    forall j | 0 <= j < i + 1 && fs[file].decls[j].Import? ensures Followed(fs, w', file, fs[file].decls[j].target, w'.done) {
      assert Followed(fs, w, file, fs[file].decls[j].target, w.done);
    }
  }

  lemma ExpandImport(fs: Files, w0: Walk, w: Walk, w': Walk, file: Path, out: seq<Origin>, brought: seq<Origin>, i: nat)
    requires Expanded(fs, w0, w, file, out, i) && i < |fs[file].decls| && fs[file].decls[i].Import?
    requires Forward(w, w') && w0.visited <= w.visited
    requires forall o :: o in brought ==> o.file !in w.visited
    requires Followed(fs, w', file, fs[file].decls[i].target, w'.done)
    ensures Expanded(fs, w0, w', file, out + brought, i + 1)
  {
    forall j | 0 <= j < i + 1 && fs[file].decls[j].Import? ensures Followed(fs, w', file, fs[file].decls[j].target, w'.done) {
      if j < i { StillFollowed(fs, w, w', file, fs[file].decls[j].target); }
    }
  }

  // What the loop of Expand keeps.
  ghost predicate Expanding(fs: Files, w0: Walk, w: Walk, file: Path, out: seq<Origin>, i: nat) {
    Valid(fs, w) && Brought(w0, w, out, Some(file)) && Expanded(fs, w0, w, file, out, i)
  }

  lemma ExpandingDef(fs: Files, w0: Walk, w: Walk, file: Path, out: seq<Origin>, i: nat)
    requires Expanding(fs, w0, w, file, out, i) && i < |fs[file].decls| && fs[file].decls[i].Def?
    requires file in w0.visited && forall o :: o in w0.emitted ==> o.file != file
    ensures Expanding(fs, w0, w.(emitted := w.emitted + [Origin(file, i)]), file, out + [Origin(file, i)], i + 1)
  {
    ExpandDef(fs, w0, w, file, out, i);
    BroughtOne(w0, w, out, Origin(file, i));
  }

  lemma BroughtOne(w0: Walk, w: Walk, out: seq<Origin>, o: Origin)
    requires Brought(w0, w, out, Some(o.file))
    ensures Brought(w0, w.(emitted := w.emitted + [o]), out + [o], Some(o.file))
  {
    BroughtMore(w0, w, w.(emitted := w.emitted + [o]), out, [o], o.file);
  }

  lemma ExpandingImport(fs: Files, w0: Walk, w: Walk, w': Walk, file: Path, out: seq<Origin>, brought: seq<Origin>, i: nat)
    requires Expanding(fs, w0, w, file, out, i) && i < |fs[file].decls| && fs[file].decls[i].Import?
    requires Valid(fs, w') && Brought(w, w', brought, None) && Followed(fs, w', file, fs[file].decls[i].target, w'.done)
    ensures Expanding(fs, w0, w', file, out + brought, i + 1)
  {
    ExpandImport(fs, w0, w, w', file, out, brought, i);
    BroughtMore(w0, w, w', out, brought, file);
  }

  lemma ExpandedAll(fs: Files, w0: Walk, w: Walk, file: Path, out: seq<Origin>)
    requires Parsed(fs, file) && Expanded(fs, w0, w, file, out, |fs[file].decls|)
    ensures forall g :: Imports(fs, file, g) ==> Followed(fs, w, file, g, w.done)
    ensures Inlined(fs, w.emitted, file)
  {
    forall g | Imports(fs, file, g) ensures Followed(fs, w, file, g, w.done) {
      var j :| 0 <= j < |fs[file].decls| && fs[file].decls[j] == Import(g);
    }
  }

  // A file that is already loaded, or that closes a cycle.
  lemma SeenBefore(fs: Files, w: Walk, w': Walk, from: Path, target: Path)
    requires Valid(fs, w) && w.stack[|w.stack| - 1] == from && Imports(fs, from, target) && Allowed(from, target)
    requires target in w.stack || target in w.visited
    requires w' == w.(diags := w.diags + (if target in w.stack then [Circular(from, target)] else []))
    ensures Valid(fs, w') && Brought(w, w', [], None) && Followed(fs, w', from, target, w'.done)
  {
    assert target in w.visited && Parsed(fs, target);
    assert w.emitted + [] == w.emitted;
    if target in w.stack {
      BackEdge(fs, w.stack, target);
      ErrorKeeps(fs, w, Circular(from, target));
      assert w'.diags[|w'.diags| - 1].Circular?;
    } else {
      assert w' == w;
    }
  }

  lemma StartOk(fs: Files, w: Walk)
    requires Parsed(fs, w.root) && w == Walk(w.root, {w.root}, [w.root], [], [], [])
    ensures Valid(fs, w)
  {
    assert IsPath(fs, [w.root]);
  }

  // Only the root is left to leave, and it is expanded.
  ghost predicate AtEnd(fs: Files, w: Walk) {
    && Valid(fs, w) && w.stack == [w.root] && Inlined(fs, w.emitted, w.root)
    && (forall g :: Imports(fs, w.root, g) ==> Followed(fs, w, w.root, g, w.done))
  }

  lemma EndFollowed(fs: Files, w: Walk, f: Path, g: Path)
    requires AtEnd(fs, w) && f in w.visited && Imports(fs, f, g)
    ensures Edge(fs, f, g) ==> g in w.visited
    ensures Fault(fs, f, g) ==> w.diags != []
  {
    if f in w.done {
      var i :| 0 <= i < |w.done| && w.done[i] == f;
      assert Followed(fs, w, w.done[i], g, w.done[..i]);
    } else {
      assert f == w.root;
      assert Followed(fs, w, w.root, g, w.done);
    }
  }

  lemma EndReached(fs: Files, w: Walk, f: Path)
    requires AtEnd(fs, w) && Reaches(fs, w.root, f)
    ensures f in w.visited
  {
    var p :| IsPath(fs, p) && p[0] == w.root && p[|p| - 1] == f;
    var all := w.done + [w.root];
    forall g, h | g in all && Edge(fs, g, h) ensures h in all { EndFollowed(fs, w, g, h); }
    PathStays(fs, all, p, |p| - 1);
  }

  lemma EndAcyclic(fs: Files, w: Walk)
    requires AtEnd(fs, w) && NoCycle(w)
    ensures !Cyclic(fs, w.root)
  {
    var all := w.done + [w.root];
    forall i, g | 0 <= i < |all| && Edge(fs, all[i], g) ensures g in all[..i] {
      if i < |w.done| {
        assert Followed(fs, w, w.done[i], g, w.done[..i]) && all[..i] == w.done[..i];
      } else {
        assert Followed(fs, w, w.root, g, w.done) && all[..i] == w.done;
      }
    }
    forall f, g | f in all && Edge(fs, f, g) ensures g in all { EndFollowed(fs, w, f, g); }
    assert w.root in w.stack;
    RankedAcyclic(fs, all, w.root);
  }

  lemma EndMerged(fs: Files, w: Walk, o: Origin)
    requires AtEnd(fs, w)
    ensures o in w.emitted <==> IsDef(fs, o) && Reaches(fs, w.root, o.file)
  {
    if IsDef(fs, o) && Reaches(fs, w.root, o.file) {
      EndReached(fs, w, o.file);
      assert Inlined(fs, w.emitted, o.file);
    }
  }

  lemma EndFaultless(fs: Files, w: Walk)
    requires AtEnd(fs, w) && w.diags == []
    ensures !Faulty(fs, w.root)
  {
    forall f, g | Reaches(fs, w.root, f) && Fault(fs, f, g) ensures false {
      EndReached(fs, w, f);
      EndFollowed(fs, w, f, g);
    }
  }

  // ----- The loader -----

  class Loader {
    const files: Files
    var visited: set<Path>
    var stack: seq<Path>
    var diags: seq<Diag>
    ghost var root: Path
    ghost var done: seq<Path>
    ghost var emitted: seq<Origin>

    constructor (files: Files)
      ensures this.files == files && visited == {} && stack == [] && diags == []
    {
      this.files, visited, stack, diags := files, {}, [], [];
    }

    ghost function Now(): Walk
      reads this
    {
      Walk(root, visited, stack, diags, done, emitted)
    }

    method AddError(d: Diag)
      modifies this`diags
      ensures diags == old(diags) + [d]
    {
      diags := diags + [d];
    }

    // Puts the file on the stack, unless it is there already (a cycle) or was loaded by another branch.
    method Enter(key: Path, from: Path) returns (ok: bool)
      modifies this`stack, this`diags
      ensures ok == (key !in old(stack) && key !in visited)
      ensures if ok then stack == old(stack) + [key] && diags == old(diags)
              else stack == old(stack) && diags == old(diags) + (if key in old(stack) then [Circular(from, key)] else [])
    {
      var i := 0;
      while i < |stack|
        invariant 0 <= i <= |stack| && stack == old(stack) && diags == old(diags)
        invariant forall j :: 0 <= j < i ==> stack[j] != key
      {
        if stack[i] == key {
          AddError(Circular(from, key));
          return false;
        }
        i := i + 1;
      }
      if key in visited { return false; }
      stack := stack + [key];
      ok := true;
    }

    method Leave()
      requires stack != []
      modifies this`stack
      ensures stack == old(stack)[..|old(stack)| - 1]
    {
      stack := stack[..|stack| - 1];
    }

    // The declarations of a file on top of the stack, each import replaced by what it brings.
    method Expand(file: Path) returns (out: seq<Origin>)
      requires Valid(files, Now()) && stack[|stack| - 1] == file
      requires forall o :: o in emitted ==> o.file != file
      modifies this`visited, this`stack, this`diags, this`done, this`emitted
      ensures Valid(files, Now()) && Brought(old(Now()), Now(), out, Some(file))
      ensures forall g :: Imports(files, file, g) ==> Followed(files, Now(), file, g, done)
      ensures Inlined(files, emitted, file)
      decreases files.Keys - visited, 2
    {
      assert file in visited && Parsed(files, file);
      out := [];
      var decls := files[file].decls;
      var i := 0;
      while i < |decls|
        invariant 0 <= i <= |decls| && Expanding(files, old(Now()), Now(), file, out, i)
      {
        ghost var before, sofar := Now(), out;
        if decls[i].Def? {
          ExpandingDef(files, old(Now()), before, file, sofar, i);
          emitted := emitted + [Origin(file, i)];
          out := out + [Origin(file, i)];
        } else {
          assert Import(decls[i].target) in decls;
          var brought := ResolveImport(decls[i].target, file);
          out := out + brought;
          ExpandingImport(files, old(Now()), before, Now(), file, sofar, brought, i);
        }
        i := i + 1;
      }
      ExpandedAll(files, old(Now()), Now(), file, out);
    }

    method ResolveImport(target: Path, from: Path) returns (out: seq<Origin>)
      requires Valid(files, Now()) && stack[|stack| - 1] == from && Imports(files, from, target)
      modifies this`visited, this`stack, this`diags, this`done, this`emitted
      ensures Valid(files, Now()) && Brought(old(Now()), Now(), out, None)
      ensures Followed(files, Now(), from, target, done)
      decreases files.Keys - visited, 1
    {
      out := [];
      if from.Std? && target.Local? {
        Report(StdRelative(from, target), from, target);
        return;
      }
      if target !in files {
        Report(NotFound(from, target), from, target);
        return;
      }
      ghost var before := Now();
      var ok := Enter(target, from);
      if !ok {
        SeenBefore(files, before, Now(), from, target);
        return;
      }
      if files[target].Broken? {
        Leave();
        assert Now() == before;
        Report(Invalid(target), from, target);
        return;
      }
      out := Inline(target, from, before);
    }

    // Expands a file that was just entered.
    method Inline(target: Path, from: Path, ghost before: Walk) returns (out: seq<Origin>)
      requires Valid(files, before) && before.stack[|before.stack| - 1] == from && Edge(files, from, target)
      requires target !in before.visited && Now() == before.(stack := before.stack + [target])
      modifies this`visited, this`stack, this`diags, this`done, this`emitted
      ensures Valid(files, Now()) && Brought(before, Now(), out, None)
      ensures Followed(files, Now(), from, target, done)
      decreases files.Keys - visited, 0
    {
      visited := visited + {target};
      PushKeeps(files, before, target);
      out := Expand(target);
      PopKeeps(files, Now(), target);
      InlinedBack(files, before, Now(), out, from, target);
      Leave();
      done := done + [target];
    }

    // The file the program starts from, which parses.
    method LoadFile(path: Path) returns (r: Option<seq<Origin>>)
      requires Parsed(files, path) && Now() == Walk(path, {}, [], [], [], [])
      modifies this
      ensures (exists d :: d in diags && d.Circular?) <==> Cyclic(files, path)
      ensures r.Some? <==> !Cyclic(files, path) && !Faulty(files, path)
      ensures r.Some? <==> diags == []
      ensures r.Some? ==> NoDup(r.value) && InOrder(files, r.value)
      ensures r.Some? ==> forall o :: o in r.value <==> IsDef(files, o) && Reaches(files, path, o.file)
    {
      visited := visited + {path};
      stack := stack + [path];
      StartOk(files, Now());
      var out := Expand(path);
      ghost var w := Now();
      Leave();
      Ended(files, w);
      assert out == w.emitted;
      if |diags| > 0 { return None; }
      r := Some(out);
    }

    // Reports an import of the file on top of the stack that cannot be followed.
    method Report(d: Diag, from: Path, target: Path)
      requires Valid(files, Now()) && stack[|stack| - 1] == from && Fault(files, from, target) && !d.Circular?
      modifies this`diags
      ensures Valid(files, Now()) && Brought(old(Now()), Now(), [], None) && Followed(files, Now(), from, target, done)
    {
      assert Reaches(files, root, from) && Faulty(files, root);
      ErrorKeeps(files, Now(), d);
      AddError(d);
      assert emitted + [] == emitted;
    }
  }

  // A circular import is reported exactly if the root reaches a cycle; the load succeeds exactly if
  // there is none and every import of a reachable file can be followed; and then every declaration of
  // every reachable file is merged exactly once, after all that the imports before it bring.
  method Load(files: Files, root: Path) returns (r: Option<seq<Origin>>, diags: seq<Diag>)
    ensures (exists d :: d in diags && d.Circular?) <==> Cyclic(files, root)
    ensures r.Some? <==> Parsed(files, root) && !Cyclic(files, root) && !Faulty(files, root)
    ensures r.Some? <==> diags == []
    ensures r.Some? ==> NoDup(r.value) && InOrder(files, r.value)
    ensures r.Some? ==> forall o :: o in r.value <==> IsDef(files, o) && Reaches(files, root, o.file)
  {
    var l := new Loader(files);
    l.root, l.done, l.emitted := root, [], [];
    if root !in files {
      NoEdges(files, root);
      return None, [NotFound(root, root)];
    }
    if files[root].Broken? {
      NoEdges(files, root);
      return None, [Invalid(root)];
    }
    r := l.LoadFile(root);
    diags := l.diags;
  }

  lemma OnlyRoot(fs: Files, p: seq<Path>)
    requires IsPath(fs, p) && !Parsed(fs, p[0])
    ensures |p| == 1
  {
    assert |p| > 1 ==> Edge(fs, p[0], p[0 + 1]);
  }

  lemma NoEdges(fs: Files, root: Path)
    requires !Parsed(fs, root)
    ensures !Cyclic(fs, root)
  {
    forall p | IsPath(fs, p) && p[0] == root ensures |p| == 1 { OnlyRoot(fs, p); }
  }

  lemma Ended(fs: Files, w: Walk)
    requires AtEnd(fs, w)
    ensures (exists d :: d in w.diags && d.Circular?) <==> Cyclic(fs, w.root)
    ensures w.diags == [] <==> !Cyclic(fs, w.root) && !Faulty(fs, w.root)
    ensures forall o :: o in w.emitted <==> IsDef(fs, o) && Reaches(fs, w.root, o.file)
    ensures w.diags == [] ==> NoDup(w.emitted) && InOrder(fs, w.emitted)
  {
    if NoCycle(w) { EndAcyclic(fs, w); }
    if w.diags == [] { EndFaultless(fs, w); }
    forall o ensures o in w.emitted <==> IsDef(fs, o) && Reaches(fs, w.root, o.file) { EndMerged(fs, w, o); }
  }
}
