/**
 Delegated admission as its goroutines interleave.  Every leg's reader may have
 passed the issuer gate; one at a time then holds the redeem handler's lock,
 promotes the member through the allowlist controller and records the edge.
 The controller has a lock of its own, which a socket's add or remove takes as
 well, and the edge is recorded outside it.  Each change of the configuration
 file is a load and a later write of what was loaded.
 */
module Admission {
  import opened Membership
  import opened Wrappers

  /** What a leg carries from the gate: the redeem, and the role its issuer had then. */
  datatype Pass = Pass(issuer: Key, member: Key, usable: bool, role: Role)

  /** One load and write under the controller's lock. */
  datatype Edit =
    | Mutate(action: Action, target: Entry)
    | Forget(keys: set<Key>)

  /**
   An operation that holds the controller's lock: the edits it has left, and the configuration loaded for the next.
   */
  datatype Task = Task(edits: seq<Edit>, loaded: Option<Config>, promotes: bool)

  /** A redeem that holds the handler's lock. */
  datatype Redeem =
    | Entered(pass: Pass)
    | Promoting(pass: Pass)
    | Promoted(pass: Pass)
    | Recording(pass: Pass, loaded: Config)

  datatype World = World(disk: Config, task: Option<Task>, redeem: Option<Redeem>, gated: map<nat, Pass>)

  datatype Step =
    | Gate(leg: nat, issuer: Key, member: Key, usable: bool)
    | Enter(leg: nat)
    | Drop(leg: nat)
    | Promote
    | BeginAdd(target: Key, usable: bool)
    | BeginRemove(entry: Entry, kids: seq<Key>)
    | Load
    | Write
    | Finish(ok: bool)
    | LoadEdge
    | WriteEdge
    | Abort
    | Crash

  /** applyAuthorized's writes: the target, its children one by one, their edges if it has any, then its own. */
  function RemoveEdits(target: Entry, kids: seq<Key>): seq<Edit> {
    [Mutate(Remove, target)] + KidEdits(kids) + (if kids == [] then [] else [Forget(set k | k in kids)])
    + if target.Hex? then [Forget({target.key})] else []
  }

  function KidEdits(kids: seq<Key>): (edits: seq<Edit>)
    ensures |edits| == |kids|
    decreases |kids|
  {
    if kids == [] then [] else KidEdits(kids[..|kids| - 1]) + [Mutate(Remove, Hex(kids[|kids| - 1]))]
  }

  function Edited(c: Config, edit: Edit): Config {
    match edit
    case Mutate(action, target) => Mutated(c, action, target)
    case Forget(keys) => Forgotten(c, keys)
  }

  ghost predicate Enabled(w: World, operator: Key, step: Step) {
    match step
    case Gate(leg, issuer, _, _) => leg !in w.gated && !RoleOf(w.disk, operator, issuer).Unauthorized?
    case Enter(leg) => leg in w.gated && w.redeem.None?
    case Drop(leg) => leg in w.gated
    case Promote => w.redeem.Some? && w.redeem.value.Entered? && w.task.None?
    case BeginAdd(_, usable) => w.task.None? && usable
    case BeginRemove(target, kids) => w.task.None? && Canonical(target) && KidsOf(w.disk, target, kids)
    case Load => w.task.Some? && w.task.value.edits != [] && w.task.value.loaded.None?
    case Write => w.task.Some? && w.task.value.edits != [] && w.task.value.loaded.Some?
    case Finish(ok) => w.task.Some? && (ok ==> w.task.value.edits == [])
    case LoadEdge => w.redeem.Some? && w.redeem.value.Promoted?
    case WriteEdge => w.redeem.Some? && w.redeem.value.Recording?
    case Abort => w.redeem.Some? && !w.redeem.value.Promoting?
    case Crash => true
  }

  /** Nothing to promote if the key could not be used; the controller refuses it and the redeem ends. */
  function PromotionBegun(w: World): World
    requires w.redeem.Some?
  {
    var pass := w.redeem.value.pass;
    if !pass.usable then w.(redeem := None)
    else w.(redeem := Some(Promoting(pass)), task := Some(Task([Mutate(Add, Hex(pass.member))], None, true)))
  }

  /** forgetChildGrants writes nothing when there is no edge at all. */
  function Written(w: World): World
    requires w.task.Some? && w.task.value.edits != [] && w.task.value.loaded.Some?
  {
    var t, c := w.task.value, w.task.value.loaded.value;
    w.(disk := if t.edits[0].Forget? && c.grants == map[] then w.disk else Edited(c, t.edits[0]),
       task := Some(t.(edits := t.edits[1..], loaded := None)))
  }

  /** An operation that ends, or fails where it stands; a promotion takes its redeem with it. */
  function Finished(w: World, ok: bool): World
    requires w.task.Some?
  {
    var done := w.(task := None);
    if !w.task.value.promotes || w.redeem.None? then done
    else
      var pass := w.redeem.value.pass;
      done.(redeem := if ok && pass.role.Parent? then Some(Promoted(pass)) else None)
  }

  /** recordChildGrant refuses an empty key and a key that would be its own parent before it loads anything. */
  predicate Recordable(pass: Pass) {
    pass.member != "" && pass.issuer != "" && pass.member != pass.issuer
  }

  function EdgeLoaded(w: World): World
    requires w.redeem.Some? && w.redeem.value.Promoted?
  {
    var pass := w.redeem.value.pass;
    w.(redeem := if Recordable(pass) then Some(Recording(pass, w.disk)) else None)
  }

  function EdgeWritten(w: World): World
    requires w.redeem.Some? && w.redeem.value.Recording?
  {
    var r := w.redeem.value;
    w.(disk := Recorded(r.loaded, r.pass.member, r.pass.issuer), redeem := None)
  }

  /** A step that is not enabled does nothing. */
  ghost function Do(w: World, operator: Key, step: Step): World {
    if !Enabled(w, operator, step) then w
    else
      match step
      case Gate(leg, issuer, member, usable) =>
        w.(gated := w.gated[leg := Pass(issuer, member, usable, RoleOf(w.disk, operator, issuer))])
      case Enter(leg) => w.(redeem := Some(Entered(w.gated[leg])), gated := w.gated - {leg})
      case Drop(leg) => w.(gated := w.gated - {leg})
      case Promote => PromotionBegun(w)
      case BeginAdd(target, _) => w.(task := Some(Task([Mutate(Add, Hex(target))], None, false)))
      case BeginRemove(target, kids) => w.(task := Some(Task(RemoveEdits(target, kids), None, false)))
      case Load => w.(task := Some(w.task.value.(loaded := Some(w.disk))))
      case Write => Written(w)
      case Finish(ok) => Finished(w, ok)
      case LoadEdge => EdgeLoaded(w)
      case WriteEdge => EdgeWritten(w)
      case Abort => w.(redeem := None)
      case Crash => Idle(w.disk)
  }

  ghost function Exec(w: World, operator: Key, steps: seq<Step>): World
    decreases |steps|
  {
    if steps == [] then w else Do(Exec(w, operator, steps[..|steps| - 1]), operator, steps[|steps| - 1])
  }

  function Idle(c: Config): World {
    World(c, None, None, map[])
  }

  // ----- Locks and refusals -----

  /**
   Each lock is held by one operation: nothing else begins under the controller's
   while a task has it, no leg enters while a redeem has the handler's, and a
   redeem whose promotion is under way waits for it, other than in a crash.
   */
  lemma LocksAreExclusive(w: World, operator: Key, step: Step)
    ensures w.task.Some? && (step.Promote? || step.BeginAdd? || step.BeginRemove?) ==> Do(w, operator, step) == w
    ensures w.redeem.Some? && step.Enter? ==> Do(w, operator, step) == w
    ensures w.redeem.Some? && w.redeem.value.Promoting? && !step.Finish? && !step.Crash? ==>
              Do(w, operator, step).redeem == w.redeem
    ensures w.task.Some? && !step.Load? && !step.Write? && !step.Finish? && !step.Crash? ==>
              Do(w, operator, step).task == w.task
  {
  }

  /** A key that could not be used is refused before any write, alone or in a redeem, and a leg may give up its pass. */
  lemma UnusableIsRefused(w: World, operator: Key, target: Key, leg: nat)
    ensures Do(w, operator, BeginAdd(target, false)) == w
    ensures w.redeem.Some? && w.redeem.value.Entered? && !w.redeem.value.pass.usable && w.task.None? ==>
              Do(w, operator, Promote) == w.(redeem := None)
    ensures Do(w, operator, Drop(leg)) == w.(gated := w.gated - {leg})
  {
    if leg !in w.gated { assert w.gated - {leg} == w.gated; }
  }

  /** A leg that enters hands over its pass for good; a redeem may be given up unless its promotion is under way. */
  lemma EnterTakesThePass(w: World, operator: Key, leg: nat)
    requires w.redeem.None? && leg in w.gated
    ensures var entered := Do(w, operator, Enter(leg));
            && entered == w.(redeem := Some(Entered(w.gated[leg])), gated := w.gated - {leg})
            && Do(entered, operator, Abort) == w.(gated := w.gated - {leg})
  {
  }

  /** Left alone, an add of the operator's is one load and one write, and no redeem in the handler notices. */
  lemma AddIsARun(w: World, operator: Key, target: Key)
    requires w.task.None?
    ensures var begun := Do(w, operator, BeginAdd(target, true));
            Do(Do(Do(begun, operator, Load), operator, Write), operator, Finish(true))
            == w.(disk := Mutated(w.disk, Add, Hex(target)))
  {
    var begun := Do(w, operator, BeginAdd(target, true));
    assert begun == w.(task := Some(Task([Mutate(Add, Hex(target))], None, false)));
    var written := Do(Do(begun, operator, Load), operator, Write);
    assert [Mutate(Add, Hex(target))][1..] == [];
    assert written == w.(disk := Mutated(w.disk, Add, Hex(target)), task := Some(Task([], None, false)));
  }

  /** Only a promotion that went through lets a parent's redeem go on to its edge; everything else ends it there. */
  lemma PromotionDecides(w: World, operator: Key, ok: bool)
    requires w.redeem.Some? && w.task.Some? && w.task.value.promotes && (ok ==> w.task.value.edits == [])
    ensures var w' := Do(w, operator, Finish(ok));
            && w'.task.None? && w'.disk == w.disk && w'.gated == w.gated
            && w'.redeem == if ok && w.redeem.value.pass.role.Parent? then Some(Promoted(w.redeem.value.pass)) else None
  {
  }

  // ----- Over every interleaving -----

  /** The configuration on disk and those loaded and not written yet. */
  predicate Around(w: World, c: Config) {
    || c == w.disk
    || (w.task.Some? && w.task.value.loaded == Some(c))
    || (w.redeem.Some? && w.redeem.value.Recording? && w.redeem.value.loaded == c)
  }

  predicate Sound(edit: Edit) {
    edit.Mutate? ==> Canonical(edit.target) && (edit.action.Add? ==> edit.target.Hex?)
  }

  ghost predicate DisjointInv(w: World) {
    && (forall c :: Around(w, c) ==> Disjoint(c))
    && (w.task.Some? ==> forall e :: e in w.task.value.edits ==> Sound(e))
  }

  lemma {:induction false} KidEditsAreSound(kids: seq<Key>)
    ensures forall e :: e in KidEdits(kids) ==> Sound(e)
    decreases |kids|
  {
    if kids != [] { KidEditsAreSound(kids[..|kids| - 1]); }
  }

  lemma WriteKeepsDisjoint(w: World)
    requires DisjointInv(w) && w.task.Some? && w.task.value.edits != [] && w.task.value.loaded.Some?
    ensures DisjointInv(Written(w))
  {
    var c, edit := w.task.value.loaded.value, w.task.value.edits[0];
    assert Around(w, c) && edit in w.task.value.edits;
    if edit.Mutate? { MutationKeepsDisjoint(c, edit.action, edit.target); }
  }

  lemma StepKeepsDisjoint(w: World, operator: Key, step: Step)
    requires DisjointInv(w)
    ensures DisjointInv(Do(w, operator, step))
  {
    assert Around(w, w.disk);
    if Enabled(w, operator, step) {
      match step {
        case Write => WriteKeepsDisjoint(w);
        case BeginRemove(target, kids) => KidEditsAreSound(kids);
        case WriteEdge => assert Around(w, w.redeem.value.loaded);
        case _ =>
      }
    }
  }

  /** Over every run, with stale writes and crashes anywhere, no key is both admitted and revoked. */
  lemma {:induction false} RunKeepsDisjoint(c: Config, operator: Key, steps: seq<Step>)
    requires Disjoint(c)
    ensures DisjointInv(Exec(Idle(c), operator, steps)) && Disjoint(Exec(Idle(c), operator, steps).disk)
    decreases |steps|
  {
    if steps != [] {
      RunKeepsDisjoint(c, operator, steps[..|steps| - 1]);
      StepKeepsDisjoint(Exec(Idle(c), operator, steps[..|steps| - 1]), operator, steps[|steps| - 1]);
    }
    assert Around(Exec(Idle(c), operator, steps), Exec(Idle(c), operator, steps).disk);
  }

  // ----- Edges -----

  /** Along a walk in the grown graph, the part up to the first return to the child has only old edges. */
  lemma {:induction false} OldPart(grants: map<Key, Key>, child: Key, parent: Key, walk: seq<Key>)
    requires child != parent && Path(grants[child := parent], walk) && walk[0] == parent && walk[|walk| - 1] == child
    ensures Descends(grants, parent, child)
    decreases |walk|
  {
    var last := |walk| - 1;
    if i :| 0 <= i < last && walk[i] == child {
      OldPart(grants, child, parent, walk[..i + 1]);
    } else {
      assert Path(grants, walk);
    }
  }

  /** A cycle that passes the new edge leads from the parent back to the child. */
  lemma CycleLeadsBack(grants: map<Key, Key>, child: Key, parent: Key, path: seq<Key>, i: nat)
    requires child != parent && Path(grants[child := parent], path) && path[0] == path[|path| - 1]
    requires i < |path| - 1 && path[i] == child
    ensures Descends(grants, parent, child)
  {
    var last := |path| - 1;
    var walk := path[i + 1..] + path[1..i + 1];
    assert path[i + 1] == parent;
    forall j | 0 <= j < |walk| - 1
      ensures walk[j] in grants[child := parent] && grants[child := parent][walk[j]] == walk[j + 1] {
      if j < last - i - 1 {
        assert walk[j] == path[i + 1 + j] && walk[j + 1] == path[i + 2 + j];
      } else {
        assert walk[j] == path[j - (last - i - 1)] && walk[j + 1] == path[j - (last - i - 1) + 1];
      }
    }
    OldPart(grants, child, parent, walk);
  }

  /** Without cycles a walk that ends at a key has not been there before. */
  lemma EndIsNew(grants: map<Key, Key>, path: seq<Key>, i: nat)
    requires Acyclic(grants) && Path(grants, path) && i < |path| - 1
    ensures path[i] != path[|path| - 1]
  {
    assert Path(grants, path[i..]);
  }

  /** The walk from the parent up to the child, closed by the new edge. */
  lemma EdgeClosesPath(grants: map<Key, Key>, child: Key, parent: Key, path: seq<Key>)
    requires Acyclic(grants) && Path(grants, path) && path[0] == parent && path[|path| - 1] == child
    ensures !Acyclic(grants[child := parent])
  {
    var grown, cycle := grants[child := parent], [child] + path;
    forall i | 0 <= i < |path| - 1 ensures path[i] in grown && grown[path[i]] == path[i + 1] {
      EndIsNew(grants, path, i);
    }
    forall i | 0 <= i < |cycle| - 1 ensures cycle[i] in grown && grown[cycle[i]] == cycle[i + 1] {
      if i > 0 { assert cycle[i] == path[i - 1] && cycle[i + 1] == path[i]; }
    }
    assert Path(grown, cycle) && cycle[0] == cycle[|cycle| - 1];
  }

  lemma CycleNeedsEdge(grants: map<Key, Key>, child: Key, parent: Key, path: seq<Key>)
    requires Acyclic(grants) && child != parent && Path(grants[child := parent], path)
    ensures path[0] == path[|path| - 1] ==> Descends(grants, parent, child)
  {
    if i :| 0 <= i < |path| - 1 && path[i] == child {
      if path[0] == path[|path| - 1] { CycleLeadsBack(grants, child, parent, path, i); }
    } else {
      assert Path(grants, path);
    }
  }

  /** An edge closes a cycle exactly when its parent descends from its child. */
  lemma EdgeKeepsAcyclicExactly(grants: map<Key, Key>, child: Key, parent: Key)
    requires Acyclic(grants) && child != parent
    ensures Acyclic(grants[child := parent]) <==> !Descends(grants, parent, child)
  {
    var grown := grants[child := parent];
    if Descends(grants, parent, child) {
      var path :| Path(grants, path) && path[0] == parent && path[|path| - 1] == child;
      EdgeClosesPath(grants, child, parent, path);
    } else {
      forall path | Path(grown, path) ensures path[0] != path[|path| - 1] {
        CycleNeedsEdge(grants, child, parent, path);
      }
    }
  }

  ghost predicate AcyclicAround(w: World) {
    forall c :: Around(w, c) ==> Acyclic(c.grants)
  }

  /** The edge about to be written does not make a key its own ancestor. */
  ghost predicate Harmless(w: World, step: Step) {
    step.WriteEdge? && w.redeem.Some? && w.redeem.value.Recording? && Recordable(w.redeem.value.pass) ==>
      !Descends(w.redeem.value.loaded.grants, w.redeem.value.pass.issuer, w.redeem.value.pass.member)
  }

  lemma WriteKeepsAcyclic(w: World)
    requires AcyclicAround(w) && w.task.Some? && w.task.value.edits != [] && w.task.value.loaded.Some?
    ensures AcyclicAround(Written(w))
  {
    var c, edit := w.task.value.loaded.value, w.task.value.edits[0];
    assert Around(w, c) && Around(w, w.disk);
    if edit.Forget? { FewerEdgesStayAcyclic(c.grants, edit.keys); }
  }

  /** Of all steps, exactly the write of a harmful edge leaves a cycle on disk or in what is about to be written. */
  lemma StepKeepsAcyclicExactly(w: World, operator: Key, step: Step)
    requires AcyclicAround(w)
    ensures AcyclicAround(Do(w, operator, step)) <==> Harmless(w, step)
  {
    assert Around(w, w.disk);
    if Enabled(w, operator, step) {
      match step {
        case Write => WriteKeepsAcyclic(w);
        case WriteEdge => WriteEdgeKeepsAcyclicExactly(w);
        case _ =>
      }
    }
  }

  lemma WriteEdgeKeepsAcyclicExactly(w: World)
    requires AcyclicAround(w) && w.redeem.Some? && w.redeem.value.Recording?
    ensures AcyclicAround(EdgeWritten(w)) <==> Harmless(w, WriteEdge)
  {
    var r, w' := w.redeem.value, EdgeWritten(w);
    assert Around(w, r.loaded) && Around(w', w'.disk);
    if Recordable(r.pass) { EdgeKeepsAcyclicExactly(r.loaded.grants, r.pass.member, r.pass.issuer); }
  }

  /** So a run is free of cycles throughout exactly when every edge it writes is harmless. */
  lemma RunIsAcyclicExactly(c: Config, operator: Key, steps: seq<Step>)
    requires Acyclic(c.grants)
    ensures (forall n :: 0 <= n <= |steps| ==> AcyclicAround(Exec(Idle(c), operator, steps[..n])))
            <==> (forall n :: 0 <= n < |steps| ==> Harmless(Exec(Idle(c), operator, steps[..n]), steps[n]))
  {
    if forall n :: 0 <= n < |steps| ==> Harmless(Exec(Idle(c), operator, steps[..n]), steps[n]) {
      forall n | 0 <= n <= |steps| ensures AcyclicAround(Exec(Idle(c), operator, steps[..n])) {
        AcyclicWhileHarmless(c, operator, steps, n);
      }
    }
    if forall n :: 0 <= n <= |steps| ==> AcyclicAround(Exec(Idle(c), operator, steps[..n])) {
      forall n | 0 <= n < |steps| ensures Harmless(Exec(Idle(c), operator, steps[..n]), steps[n]) {
        ExecFirst(Idle(c), operator, steps, n + 1);
        assert AcyclicAround(Exec(Idle(c), operator, steps[..n + 1]));
        StepKeepsAcyclicExactly(Exec(Idle(c), operator, steps[..n]), operator, steps[n]);
      }
    }
  }

  lemma {:induction false} AcyclicWhileHarmless(c: Config, operator: Key, steps: seq<Step>, n: nat)
    requires Acyclic(c.grants) && n <= |steps|
    requires forall m :: 0 <= m < n ==> Harmless(Exec(Idle(c), operator, steps[..m]), steps[m])
    ensures AcyclicAround(Exec(Idle(c), operator, steps[..n]))
  {
    if n == 0 {
      assert steps[..0] == [];
    } else {
      AcyclicWhileHarmless(c, operator, steps, n - 1);
      ExecFirst(Idle(c), operator, steps, n);
      StepKeepsAcyclicExactly(Exec(Idle(c), operator, steps[..n - 1]), operator, steps[n - 1]);
    }
  }

  lemma ExecFirst(w: World, operator: Key, steps: seq<Step>, n: nat)
    requires 0 < n <= |steps|
    ensures Exec(w, operator, steps[..n]) == Do(Exec(w, operator, steps[..n - 1]), operator, steps[n - 1])
  {
    assert steps[..n][..n - 1] == steps[..n - 1];
  }

  /** The gate's own test, repeated on what is about to be written over, is enough. */
  lemma GateRepeatedIsHarmless(w: World)
    requires w.redeem.Some? && w.redeem.value.Recording? && w.redeem.value.pass.issuer !in w.redeem.value.loaded.grants
    ensures Harmless(w, WriteEdge)
  {
  }

  // ----- Redeems whose issuer nobody admits meanwhile -----

  /** A redeem under way. */
  predicate Carries(w: World, pass: Pass) {
    (exists leg :: leg in w.gated && w.gated[leg] == pass) || (w.redeem.Some? && w.redeem.value.pass == pass)
  }

  /** No key becomes a child on disk while a redeem it issued as a parent is under way. */
  ghost predicate Undisturbed(w: World, operator: Key, step: Step) {
    var w' := Do(w, operator, step);
    forall pass :: Carries(w', pass) && pass.role.Parent? && pass.issuer in w'.disk.grants ==>
        pass.issuer in w.disk.grants
  }

  ghost predicate UndisturbedRun(w: World, operator: Key, steps: seq<Step>)
    decreases |steps|
  {
    steps == [] || (UndisturbedRun(w, operator, steps[..|steps| - 1])
                    && Undisturbed(Exec(w, operator, steps[..|steps| - 1]), operator, steps[|steps| - 1]))
  }

  /** The gate's verdict still holds of every redeem under way, and of what it has loaded. */
  ghost predicate GateHolds(w: World, operator: Key) {
    && (forall pass :: Carries(w, pass) ==> pass.role.Operator? || pass.role.Parent?)
    && (forall pass :: Carries(w, pass) && pass.role.Parent? ==> pass.issuer !in w.disk.grants)
    && (w.redeem.Some? && (w.redeem.value.Promoted? || w.redeem.value.Recording?) ==> w.redeem.value.pass.role.Parent?)
    && (w.redeem.Some? && w.redeem.value.Recording? ==> w.redeem.value.pass.issuer !in w.redeem.value.loaded.grants)
  }

  lemma PassesCarryOver(w: World, operator: Key, step: Step, pass: Pass)
    requires Carries(Do(w, operator, step), pass)
    ensures Carries(w, pass) || (Enabled(w, operator, step) && step.Gate?
                                 && pass == Pass(step.issuer, step.member, step.usable,
                                    RoleOf(w.disk, operator, step.issuer)))
  {
  }

  lemma StepKeepsGateHolds(w: World, operator: Key, step: Step)
    requires GateHolds(w, operator) && Undisturbed(w, operator, step)
    ensures GateHolds(Do(w, operator, step), operator)
  {
    var w' := Do(w, operator, step);
    forall pass | Carries(w', pass)
      ensures (pass.role.Operator? || pass.role.Parent?) && (pass.role.Parent? ==> pass.issuer !in w'.disk.grants)
    {
      PassesCarryOver(w, operator, step, pass);
    }
    if w.redeem.Some? { assert Carries(w, w.redeem.value.pass); }
  }

  lemma UndisturbedStepKeeps(w: World, operator: Key, step: Step)
    requires AcyclicAround(w) && GateHolds(w, operator) && Undisturbed(w, operator, step)
    ensures AcyclicAround(Do(w, operator, step)) && GateHolds(Do(w, operator, step), operator)
  {
    StepKeepsGateHolds(w, operator, step);
    if step.WriteEdge? && Enabled(w, operator, step) { GateRepeatedIsHarmless(w); }
    StepKeepsAcyclicExactly(w, operator, step);
  }

  /** If nobody admits an issuer while its own redeem is under way, no key ever descends from itself. */
  lemma {:induction false} UndisturbedRunIsAcyclic(c: Config, operator: Key, steps: seq<Step>)
    requires Acyclic(c.grants) && UndisturbedRun(Idle(c), operator, steps)
    ensures var w := Exec(Idle(c), operator, steps);
            AcyclicAround(w) && Acyclic(w.disk.grants) && GateHolds(w, operator)
    decreases |steps|
  {
    if steps != [] {
      UndisturbedRunIsAcyclic(c, operator, steps[..|steps| - 1]);
      UndisturbedStepKeeps(Exec(Idle(c), operator, steps[..|steps| - 1]), operator, steps[|steps| - 1]);
    }
    assert Around(Exec(Idle(c), operator, steps), Exec(Idle(c), operator, steps).disk);
  }

  // ----- Where edges come from -----

  /** The passes the gate gave in a run, each with the role of its issuer at that moment. */
  ghost function Passes(c: Config, operator: Key, steps: seq<Step>): set<Pass>
    decreases |steps|
  {
    if steps == [] then {}
    else
      var init, step := steps[..|steps| - 1], steps[|steps| - 1];
      var w := Exec(Idle(c), operator, init);
      Passes(c, operator, init)
      + if step.Gate? && Enabled(w, operator, step)
        then {Pass(step.issuer, step.member, step.usable, RoleOf(w.disk, operator, step.issuer))} else {}
  }

  /** An edge there was at the start, or one a parent's redeem was let through for. */
  ghost predicate Accounted(grants: map<Key, Key>, passes: set<Pass>, child: Key, parent: Key) {
    || (child in grants && grants[child] == parent)
    || (child != parent && exists usable :: Pass(parent, child, usable, Parent) in passes)
  }

  ghost predicate EdgesAccounted(c: Config, w: World, passes: set<Pass>) {
    && (forall d :: Around(w, d) ==> forall k :: k in d.grants ==> Accounted(c.grants, passes, k, d.grants[k]))
    && (forall pass :: Carries(w, pass) ==> pass in passes)
    && (w.redeem.Some? && (w.redeem.value.Promoted? || w.redeem.value.Recording?) ==> w.redeem.value.pass.role.Parent?)
  }

  lemma MorePasses(c: Config, w: World, passes: set<Pass>, more: set<Pass>)
    requires EdgesAccounted(c, w, passes) && passes <= more
    ensures EdgesAccounted(c, w, more)
  {
    forall d, k | Around(w, d) && k in d.grants ensures Accounted(c.grants, more, k, d.grants[k]) {
      assert Accounted(c.grants, passes, k, d.grants[k]);
    }
  }

  lemma StepKeepsAccounted(c: Config, w: World, operator: Key, step: Step, passes: set<Pass>)
    requires EdgesAccounted(c, w, passes)
    requires step.Gate? && Enabled(w, operator, step) ==>
               Pass(step.issuer, step.member, step.usable, RoleOf(w.disk, operator, step.issuer)) in passes
    ensures EdgesAccounted(c, Do(w, operator, step), passes)
  {
    var w' := Do(w, operator, step);
    assert Around(w, w.disk);
    forall pass | Carries(w', pass) ensures pass in passes { PassesCarryOver(w, operator, step, pass); }
    forall d, k | Around(w', d) && k in d.grants ensures Accounted(c.grants, passes, k, d.grants[k]) {
      if Enabled(w, operator, step) && d == w'.disk && d != w.disk {
        NewDiskAccounted(c, w, operator, step, passes, k);
      }
    }
  }

  lemma NewDiskAccounted(c: Config, w: World, operator: Key, step: Step, passes: set<Pass>, k: Key)
    requires EdgesAccounted(c, w, passes) && Enabled(w, operator, step)
    requires k in Do(w, operator, step).disk.grants
    ensures Accounted(c.grants, passes, k, Do(w, operator, step).disk.grants[k])
  {
    assert Around(w, w.disk);
    if step.WriteEdge? {
      var r := w.redeem.value;
      assert Around(w, r.loaded) && Carries(w, r.pass);
      assert Pass(r.pass.issuer, r.pass.member, r.pass.usable, Parent) == r.pass;
    } else if step.Write? {
      assert Around(w, w.task.value.loaded.value);
    }
  }

  /**
   Over every run, an edge that was not there at the start was let through by the gate, at some earlier moment, for a
   parent.
   */
  lemma {:induction false} EdgesComeThroughTheGate(c: Config, operator: Key, steps: seq<Step>)
    ensures EdgesAccounted(c, Exec(Idle(c), operator, steps), Passes(c, operator, steps))
    decreases |steps|
  {
    if steps != [] {
      var init := steps[..|steps| - 1];
      EdgesComeThroughTheGate(c, operator, init);
      MorePasses(c, Exec(Idle(c), operator, init), Passes(c, operator, init), Passes(c, operator, steps));
      StepKeepsAccounted(c, Exec(Idle(c), operator, init), operator, steps[|steps| - 1], Passes(c, operator, steps));
    }
  }

  /** And a parent, when the gate looked, was listed, nobody's child, and not the operator. */
  lemma {:induction false} PassesWereParents(c: Config, operator: Key, steps: seq<Step>, pass: Pass) returns (n: nat)
    requires pass in Passes(c, operator, steps) && pass.role.Parent?
    ensures n < |steps| && pass.issuer !in {"", operator}
    ensures var gateway := Exec(Idle(c), operator, steps[..n]).disk;
            pass.issuer !in gateway.grants && InList(gateway.fleet, Hex(pass.issuer))
    decreases |steps|
  {
    var init := steps[..|steps| - 1];
    if pass in Passes(c, operator, init) {
      n := PassesWereParents(c, operator, init, pass);
      assert init[..n] == steps[..n];
    } else {
      n := |steps| - 1;
    }
  }

  // ----- Operations nobody interrupts -----

  ghost function Both(w: World, operator: Key, first: Step, second: Step): World {
    Do(Do(w, operator, first), operator, second)
  }

  ghost function Edits(w: World, operator: Key, n: nat): World
    decreases n
  {
    if n == 0 then w else Edits(Both(w, operator, Load, Write), operator, n - 1)
  }

  function AllEdited(c: Config, edits: seq<Edit>): Config {
    FoldLeft(Edited, c, edits)
  }

  lemma OneEdit(w: World, operator: Key)
    requires w.task.Some? && w.task.value.edits != [] && w.task.value.loaded.None?
    ensures var t := w.task.value;
            Both(w, operator, Load, Write)
                == w.(disk := Edited(w.disk, t.edits[0]), task := Some(t.(edits := t.edits[1..])))
  {
    if w.task.value.edits[0].Forget? && w.disk.grants == map[] {
      assert w.disk.grants - w.task.value.edits[0].keys == map[];
    }
  }

  lemma {:induction false} EditsInTurn(w: World, operator: Key, n: nat)
    requires w.task.Some? && w.task.value.loaded.None? && n <= |w.task.value.edits|
    ensures var t := w.task.value;
            Edits(w, operator, n) == w.(disk := AllEdited(w.disk, t.edits[..n]),
                task := Some(t.(edits := t.edits[n..])))
    decreases n
  {
    var t := w.task.value;
    if n == 0 {
      assert t.edits[..0] == [] && t.edits[0..] == t.edits;
    } else {
      var next := w.(disk := Edited(w.disk, t.edits[0]), task := Some(t.(edits := t.edits[1..])));
      OneEdit(w, operator);
      EditsInTurn(next, operator, n - 1);
      assert t.edits[..n][1..] == t.edits[1..][..n - 1] && t.edits[1..][n - 1..] == t.edits[n..];
      assert Edits(w, operator, n) == Edits(next, operator, n - 1);
    }
  }

  /**
   What a leg that has passed the gate does when it gets both locks: promote, and record the edge if a parent issued
   it.
   */
  ghost function Admitted(w: World, operator: Key, leg: nat): World {
    var promoted := Do(Edits(Both(w, operator, Enter(leg), Promote), operator, 1), operator, Finish(true));
    Both(promoted, operator, LoadEdge, WriteEdge)
  }

  lemma PromotedFirst(w: World, operator: Key, leg: nat)
    requires w.task.None? && w.redeem.None? && leg in w.gated && w.gated[leg].usable && w.gated[leg].role.Parent?
    ensures var pass := w.gated[leg];
            Do(Edits(Both(w, operator, Enter(leg), Promote), operator, 1), operator, Finish(true))
            == World(Mutated(w.disk, Add, Hex(pass.member)), None, Some(Promoted(pass)), w.gated - {leg})
  {
    var pass, begun := w.gated[leg], Both(w, operator, Enter(leg), Promote);
    assert begun == World(w.disk, Some(Task([Mutate(Add, Hex(pass.member))], None, true)), Some(Promoting(pass)),
        w.gated - {leg});
    OneEdit(begun, operator);
    assert Edits(begun, operator, 1) == Both(begun, operator, Load, Write);
  }

  /** Left alone from the gate on, a parent's redeem is the promotion and then the edge. */
  lemma RedeemIsARun(w: World, operator: Key, leg: nat)
    requires w.task.None? && w.redeem.None? && leg in w.gated && w.gated[leg].usable && w.gated[leg].role.Parent?
    ensures var pass := w.gated[leg];
            Admitted(w, operator, leg)
            == World(Recorded(Mutated(w.disk, Add, Hex(pass.member)), pass.member, pass.issuer), None, None,
                w.gated - {leg})
  {
    PromotedFirst(w, operator, leg);
  }

  ghost function Cleared(w: World, operator: Key, target: Key, kids: seq<Key>): World {
    var begun := Do(w, operator, BeginRemove(Hex(target), kids));
    Do(Edits(begun, operator, |RemoveEdits(Hex(target), kids)|), operator, Finish(true))
  }

  lemma {:induction false} KidsInTurn(c: Config, kids: seq<Key>)
    ensures AllEdited(c, KidEdits(kids)) == WithoutKids(c, kids)
    decreases |kids|
  {
    if kids != [] {
      var init, last := kids[..|kids| - 1], Mutate(Remove, Hex(kids[|kids| - 1]));
      KidsInTurn(c, init);
      FoldCompose(Edited, c, KidEdits(init), [last]);
      FoldOnce(Edited, WithoutKids(c, init), last);
    }
  }

  lemma RemoveInTurn(c: Config, target: Key, kids: seq<Key>)
    ensures AllEdited(c, RemoveEdits(Hex(target), kids)) == Removed(c, Hex(target), kids, WritesToRemove(kids))
  {
    var forgets := if kids == [] then [] else [Forget(set k | k in kids)];
    var gone := Mutated(c, Remove, Hex(target));
    var without := WithoutKids(gone, kids);
    FoldCompose(Edited, c, [Mutate(Remove, Hex(target))], KidEdits(kids));
    FoldCompose(Edited, c, [Mutate(Remove, Hex(target))] + KidEdits(kids), forgets);
    FoldCompose(Edited, c, [Mutate(Remove, Hex(target))] + KidEdits(kids) + forgets, [Forget({target})]);
    FoldOnce(Edited, c, Mutate(Remove, Hex(target)));
    KidsInTurn(gone, kids);
    if kids == [] {
      assert without.grants - (set k | k in kids) == without.grants;
    } else {
      FoldOnce(Edited, without, forgets[0]);
    }
    FoldOnce(Edited, Forgotten(without, set k | k in kids), Forget({target}));
  }

  lemma ClearedByEdits(w: World, operator: Key, target: Key, kids: seq<Key>)
    requires w.task.None? && KidsOf(w.disk, Hex(target), kids)
    ensures Cleared(w, operator, target, kids) == w.(disk := AllEdited(w.disk, RemoveEdits(Hex(target), kids)))
  {
    var begun, edits := Do(w, operator, BeginRemove(Hex(target), kids)), RemoveEdits(Hex(target), kids);
    EditsInTurn(begun, operator, |edits|);
    assert edits[..|edits|] == edits && edits[|edits|..] == [];
  }

  /** Left alone, a remove is its whole cascade. */
  lemma RemoveIsARun(w: World, operator: Key, target: Key, kids: seq<Key>)
    requires w.task.None? && KidsOf(w.disk, Hex(target), kids)
    ensures Cleared(w, operator, target, kids) == w.(disk := Removed(w.disk, Hex(target), kids, WritesToRemove(kids)))
  {
    ClearedByEdits(w, operator, target, kids);
    RemoveInTurn(w.disk, target, kids);
  }

  // ----- Where redeems overlap with others -----

  predicate Members(operator: Key, p: Key, x: Key) {
    p != x && "" !in {p, x} && operator !in {p, x}
  }

  /** Two listed keys, each with a redeem of the other past the gate. */
  ghost function EachAdmitsTheOther(operator: Key, p: Key, x: Key): World {
    var gated := Both(Idle(Config([Hex(p), Hex(x)], [], map[])), operator, Gate(1, p, x, true), Gate(2, x, p, true));
    Admitted(Admitted(gated, operator, 1), operator, 2)
  }

  lemma BothPassTheGate(operator: Key, p: Key, x: Key)
    requires Members(operator, p, x)
    ensures var c := Config([Hex(p), Hex(x)], [], map[]);
            Both(Idle(c), operator, Gate(1, p, x, true), Gate(2, x, p, true))
            == World(c, None, None, map[1 := Pass(p, x, true, Parent), 2 := Pass(x, p, true, Parent)])
  {
    var c := Config([Hex(p), Hex(x)], [], map[]);
    assert Hex(p) in c.fleet && Hex(x) in c.fleet && Norm(Hex(p)) == Some(p) && Norm(Hex(x)) == Some(x);
  }

  /** Written one after the other, the two edges make each key the other's parent. */
  lemma OverlappingRedeemsCloseACycle(operator: Key, p: Key, x: Key)
    requires Members(operator, p, x)
    ensures var grants := EachAdmitsTheOther(operator, p, x).disk.grants;
            grants == map[x := p, p := x] && !Acyclic(grants)
  {
    var gated := Both(Idle(Config([Hex(p), Hex(x)], [], map[])), operator, Gate(1, p, x, true), Gate(2, x, p, true));
    BothPassTheGate(operator, p, x);
    RedeemIsARun(gated, operator, 1);
    RedeemIsARun(Admitted(gated, operator, 1), operator, 2);
    assert Path(map[x := p, p := x], [p, x, p]);
  }

  /** A listed key whose redeem has promoted a member and not recorded the edge yet. */
  ghost function JustPromoted(operator: Key, p: Key, g: Key): World {
    var gated := Do(Idle(Config([Hex(p)], [], map[])), operator, Gate(1, p, g, true));
    Do(Edits(Both(gated, operator, Enter(1), Promote), operator, 1), operator, Finish(true))
  }

  lemma JustPromotedIs(operator: Key, p: Key, g: Key)
    requires Members(operator, p, g)
    ensures JustPromoted(operator, p, g)
            == World(Config([Hex(p), Hex(g)], [], map[]), None, Some(Promoted(Pass(p, g, true, Parent))), map[])
  {
    var c := Config([Hex(p)], [], map[]);
    var gated := Do(Idle(c), operator, Gate(1, p, g, true));
    assert Hex(p) in c.fleet && Norm(Hex(p)) == Some(p);
    assert gated == World(c, None, None, map[1 := Pass(p, g, true, Parent)]);
    PromotedFirst(gated, operator, 1);
    assert gated.gated - {1} == map[];
  }

  /** One of the two removed before the edge is recorded. */
  ghost function RemovedFirst(operator: Key, p: Key, g: Key, removed: Key): World {
    Both(Cleared(JustPromoted(operator, p, g), operator, removed, []), operator, LoadEdge, WriteEdge)
  }

  lemma RecordIsARun(w: World, operator: Key, pass: Pass)
    requires w.redeem == Some(Promoted(pass)) && Recordable(pass)
    ensures Both(w, operator, LoadEdge, WriteEdge)
            == w.(disk := Recorded(w.disk, pass.member, pass.issuer), redeem := None)
  {
  }

  lemma NoEdgesStay(c: Config, target: Entry)
    requires c.grants == map[] && target.Hex?
    ensures Removed(c, target, [], 3).grants == map[]
  {
  }

  lemma EdgeAfterRemove(w: World, operator: Key, pass: Pass, removed: Key)
    requires w.redeem == Some(Promoted(pass)) && w.task.None? && Recordable(pass) && w.disk.grants == map[]
    ensures Both(Cleared(w, operator, removed, []), operator, LoadEdge, WriteEdge).disk
            == Removed(w.disk, Hex(removed), [], 3).(grants := map[pass.member := pass.issuer])
  {
    RemoveIsARun(w, operator, removed, []);
    NoEdgesStay(w.disk, Hex(removed));
    RecordIsARun(w.(disk := Removed(w.disk, Hex(removed), [], 3)), operator, pass);
  }

  lemma RemovedFirstIs(operator: Key, p: Key, g: Key, removed: Key)
    requires Members(operator, p, g)
    ensures var before := Config([Hex(p), Hex(g)], [], map[]);
            RemovedFirst(operator, p, g, removed).disk == Removed(before, Hex(removed), [], 3).(grants := map[g := p])
  {
    JustPromotedIs(operator, p, g);
    EdgeAfterRemove(JustPromoted(operator, p, g), operator, Pass(p, g, true, Parent), removed);
  }

  /**
   A remove of the parent misses the member it has just admitted; a remove of the member leaves it a child that is not
   listed.
   */
  lemma RemoveBeforeTheEdgeIsMissed(operator: Key, p: Key, g: Key)
    requires Members(operator, p, g)
    ensures var c := RemovedFirst(operator, p, g, p).disk;
            InList(c.revoked, Hex(p)) && !InList(c.fleet, Hex(p)) && InList(c.fleet, Hex(g)) && c.grants == map[g := p]
    ensures var c := RemovedFirst(operator, p, g, g).disk;
            c.grants == map[g := p] && !InList(c.fleet, Hex(g)) && !ChildrenLive(c)
  {
    var before := Config([Hex(p), Hex(g)], [], map[]);
    RemovedFirstIs(operator, p, g, p);
    RemovedFirstIs(operator, p, g, g);
    RemoveClears(before, Hex(p), [], 3);
    RemoveClears(before, Hex(g), [], 3);
    assert Hex(g) in Removed(before, Hex(p), [], 3).fleet && Norm(Hex(g)) == Some(g);
    assert g in RemovedFirst(operator, p, g, g).disk.grants;
  }

  /** The parent removed between the load of the configuration and the write of the edge. */
  ghost function RemovedBetween(operator: Key, p: Key, g: Key): World {
    Do(Cleared(Do(JustPromoted(operator, p, g), operator, LoadEdge), operator, p, []), operator, WriteEdge)
  }

  lemma EdgeOverRemove(w: World, operator: Key, pass: Pass, removed: Key)
    requires w.redeem == Some(Promoted(pass)) && w.task.None? && Recordable(pass) && w.disk.grants == map[]
    ensures Do(Cleared(Do(w, operator, LoadEdge), operator, removed, []), operator, WriteEdge).disk
            == Recorded(w.disk, pass.member, pass.issuer)
  {
    RemoveIsARun(Do(w, operator, LoadEdge), operator, removed, []);
  }

  /** The write brings the removed parent back: listed, and not revoked. */
  lemma StaleEdgeUndoesARemove(operator: Key, p: Key, g: Key)
    requires Members(operator, p, g)
    ensures var c := RemovedBetween(operator, p, g).disk;
            c == Config([Hex(p), Hex(g)], [], map[g := p]) && InList(c.fleet, Hex(p)) && !InList(c.revoked, Hex(p))
  {
    JustPromotedIs(operator, p, g);
    EdgeOverRemove(JustPromoted(operator, p, g), operator, Pass(p, g, true, Parent), p);
    assert Hex(p) in [Hex(p), Hex(g)] && Norm(Hex(p)) == Some(p);
  }

  /** Recording an edge keeps every child listed exactly when the member is listed in what was loaded. */
  lemma EdgeKeepsChildrenListedExactly(w: World)
    requires w.redeem.Some? && w.redeem.value.Recording? && Recordable(w.redeem.value.pass)
             && ChildrenLive(w.redeem.value.loaded)
    ensures ChildrenLive(EdgeWritten(w).disk) <==> InList(w.redeem.value.loaded.fleet, Hex(w.redeem.value.pass.member))
  {
    assert w.redeem.value.pass.member in EdgeWritten(w).disk.grants;
  }
}
