/**
 The live fleet key set under its two writers.  The allowlist controller commits
 a membership change to the configuration, touches the live set and publishes a
 signed roster; the roster fold replaces the live set with any roster a relay
 serves, guarded by a durable anti-rollback floor.  They hold different mutexes.
 */
module FleetRoster {
  import opened Wrappers
  import opened Membership

  /** An operator-signed roster: created_at and the full membership. */
  datatype Roster = Roster(created: int, members: set<Key>)

  // ----- The membership a configuration stands for -----

  /** NormalizeAllowlistEntry accepts any npub that decodes, and hex only on the curve. */
  predicate Usable(e: Entry, curve: set<Key>) {
    e.Npub? || (e.Hex? && e.key in curve)
  }

  predicate Blank(e: Entry) {
    e == Hex("") || e == Junk("")
  }

  ghost function Members(list: seq<Entry>, curve: set<Key>): set<Key> {
    set e | e in list && Usable(e, curve) && !Blank(e) :: e.key
  }

  /** NewAllowlist accepts the list: every entry that is not blank is usable. */
  predicate AllUsable(list: seq<Entry>, curve: set<Key>) {
    forall e :: e in list && !Blank(e) ==> Usable(e, curve)
  }

  /** What one more entry does: a blank is skipped, an npub or a key on the curve joins, all else spoils the list. */
  lemma OneMoreEntry(list: seq<Entry>, curve: set<Key>, k: Key, text: string)
    requires k != ""
    ensures AllUsable(list + [Hex("")], curve) == AllUsable(list + [Junk("")], curve) == AllUsable(list, curve)
    ensures Members(list + [Hex("")], curve) == Members(list + [Junk("")], curve) == Members(list, curve)
    ensures AllUsable(list + [Npub(k)], curve) == AllUsable(list, curve)
    ensures Members(list + [Npub(k)], curve) == Members(list, curve) + {k}
    ensures AllUsable(list + [Hex(k)], curve) == (AllUsable(list, curve) && k in curve)
    ensures Members(list + [Hex(k)], curve) == Members(list, curve) + if k in curve then {k} else {}
    ensures text != "" ==> !AllUsable(list + [Junk(text)], curve)
  {
    forall e: Entry, f: Entry ensures e in list + [f] <==> e in list || e == f { }
    assert forall f: Entry :: f in list + [f];
    assert Members(list + [Hex("")], curve) == Members(list, curve);
    assert Members(list + [Junk("")], curve) == Members(list, curve);
    assert Npub(k).key == Hex(k).key == k;
  }

  // ----- The fold -----

  /** What the fold owns: the durable floor, its copy in memory, and the live set. */
  datatype Gate = Gate(floor: int, lastCreated: int, keys: set<Key>)

  predicate Stale(g: Gate, r: Roster) {
    r.created < g.lastCreated
  }

  /** The floor is persisted first, and only when it advances. */
  function Floored(g: Gate, r: Roster): Gate {
    if r.created > g.lastCreated then g.(floor := r.created) else g
  }

  function AppliedTo(g: Gate, r: Roster): Gate {
    g.(lastCreated := r.created, keys := r.members)
  }

  /** One whole delivery. A forged, stale or unpersisted roster changes nothing. */
  function Folded(g: Gate, r: Roster, authentic: bool, persists: bool): Gate {
    if !authentic || Stale(g, r) || (r.created > g.lastCreated && !persists) then g
    else AppliedTo(Floored(g, r), r)
  }

  /** A restart reads the floor back and seeds the live set from the configuration. */
  function Reseeded(g: Gate, members: set<Key>): Gate {
    Gate(g.floor, g.floor, members)
  }

  // ----- Both writers, step by step -----

  datatype Phase = Idle | Committing | Touching

  /**
   `rosters` is everything the operator ever signed, oldest first; `folding` a
   roster whose floor is durable but which is not applied yet; `applied` the
   rosters applied so far.  The configuration file has writers besides the
   controller: an edge recorded over a stale load, the offline command.
   `settled` says the newest roster was applied since the live set was last
   touched, `drift` that a committed change was never published.
   */
  datatype World = World(config: Config, gate: Gate, phase: Phase, lastRoster: int, rosters: seq<Roster>,
                         folding: Option<Roster>, applied: seq<Roster>, settled: bool, drift: bool)

  datatype Step =
    | Begin
    | Commit(action: Action, target: Entry)
    | Forget(kids: set<Key>)
    | Touch(action: Action, key: Key)
    | Publish(now: int)
    | Abandon
    | Republish(now: int)
    | FoldFloor(roster: Roster, authentic: bool, persists: bool)
    | FoldApply
    | Restart(pruned: bool)
    | Rewrite(config: Config)

  function NextCreated(lastRoster: int, now: int): int {
    if now <= lastRoster then lastRoster + 1 else now
  }

  /**
   A relay may serve any roster whatever, any number of times and in any order,
   but only what the operator signed passes for authentic.
   */
  ghost predicate Enabled(w: World, curve: set<Key>, step: Step) {
    match step
    case Begin => w.phase.Idle?
    case Commit(_, _) => w.phase.Committing?
    case Forget(_) => w.phase.Committing?
    case Touch(_, _) => !w.phase.Idle?
    case Publish(_) => !w.phase.Idle? && AllUsable(w.config.fleet, curve)
    case Abandon => !w.phase.Idle?
    case Republish(_) => w.phase.Idle?
    case FoldFloor(r, authentic, _) => w.folding.None? && (authentic ==> r in w.rosters)
    case FoldApply => w.folding.Some?
    case Restart(_) => true
    case Rewrite(_) => true
  }

  ghost function Published(w: World, curve: set<Key>, now: int): World {
    var created := NextCreated(w.lastRoster, now);
    w.(phase := Idle, lastRoster := created, settled := false, drift := false,
       rosters := w.rosters + [Roster(created, Members(w.config.fleet, curve))])
  }

  function FloorTaken(w: World, r: Roster, authentic: bool, persists: bool): World {
    if !authentic || Stale(w.gate, r) || (r.created > w.gate.lastCreated && !persists) then w
    else w.(gate := Floored(w.gate, r), folding := Some(r))
  }

  function FoldDone(w: World): World
    requires w.folding.Some?
  {
    var r := w.folding.value;
    w.(gate := AppliedTo(w.gate, r), folding := None, applied := w.applied + [r],
       settled := w.settled || (w.rosters != [] && r == w.rosters[|w.rosters| - 1]))
  }

  ghost function Pruned(c: Config, curve: set<Key>): Config {
    c.(fleet := Keep(c.fleet, curve))
  }

  function Keep(list: seq<Entry>, curve: set<Key>): (kept: seq<Entry>)
    ensures forall e :: e in kept <==> e in list && (Usable(e, curve) || Blank(e))
    decreases |list|
  {
    if list == [] then []
    else
      var init, last := list[..|list| - 1], list[|list| - 1];
      assert list == init + [last];
      Keep(init, curve) + if Usable(last, curve) || Blank(last) then [last] else []
  }

  ghost function Restarted(w: World, curve: set<Key>, pruned: bool): World {
    w.(gate := Reseeded(w.gate, Members(w.config.fleet, curve)), phase := Idle, lastRoster := 0, folding := None,
       settled := false, config := if pruned then Pruned(w.config, curve) else w.config)
  }

  /** A step that is not enabled does nothing. */
  ghost function Do(w: World, curve: set<Key>, step: Step): World {
    if Enabled(w, curve, step) then Effect(w, curve, step) else w
  }

  ghost function Effect(w: World, curve: set<Key>, step: Step): World
    requires Enabled(w, curve, step)
  {
    match step
    case Begin => w.(phase := Committing)
    case Commit(action, target) => w.(config := Mutated(w.config, action, target), drift := true)
    case Forget(kids) => w.(config := Forgotten(w.config, kids))
    case Touch(action, key) =>
        w.(phase := Touching, settled := false,
        gate := w.gate.(keys := if action.Add? then w.gate.keys + {key} else w.gate.keys - {key}))
    case Publish(now) => Published(w, curve, now)
    case Abandon => w.(phase := Idle)
    case Republish(now) => Published(w, curve, now)
    case FoldFloor(r, authentic, persists) => FloorTaken(w, r, authentic, persists)
    case FoldApply => FoldDone(w)
    case Restart(pruned) => Restarted(w, curve, pruned)
    case Rewrite(config) => w.(config := config, drift := true)
  }

  /** A controller in mid-change publishes exactly when every entry is usable; restarts and other writers can always. */
  lemma WhatIsPossible(w: World, curve: set<Key>, now: int, pruned: bool, config: Config)
    requires !w.phase.Idle?
    ensures Do(w, curve, Publish(now)) == if AllUsable(w.config.fleet, curve) then Published(w, curve, now) else w
    ensures Do(w, curve, Republish(now)) == w && Do(w, curve, Begin) == w && Do(w, curve, Abandon) == w.(phase := Idle)
    ensures Do(w, curve, Restart(pruned)) == Restarted(w, curve, pruned)
    ensures Do(w, curve, Rewrite(config)) == w.(config := config, drift := true)
  {
  }

  // ----- The floor -----

  ghost predicate Nondecreasing(s: seq<Roster>) {
    forall i, j :: 0 <= i < j < |s| ==> s[i].created <= s[j].created
  }

  /**
   The floor, in memory and on disk, never falls below anything applied; a roster
   in mid-fold is at the floor already; and both are rosters the operator signed.
   */
  ghost predicate FloorInv(w: World) {
    && w.gate.lastCreated <= w.gate.floor
    && Nondecreasing(w.applied)
    && (forall r :: r in w.applied ==> r in w.rosters && r.created <= w.gate.lastCreated)
    && (w.folding.None? ==> w.gate.floor == w.gate.lastCreated)
    && (w.folding.Some? ==> w.folding.value in w.rosters && w.folding.value.created == w.gate.floor)
  }

  lemma StepKeepsFloor(w: World, curve: set<Key>, step: Step)
    requires FloorInv(w)
    ensures FloorInv(Do(w, curve, step))
    ensures Do(w, curve, step).gate.floor >= w.gate.floor
    ensures w.applied <= Do(w, curve, step).applied
  {
  }

  ghost function Exec(w: World, curve: set<Key>, steps: seq<Step>): World
    decreases |steps|
  {
    if steps == [] then w else Do(Exec(w, curve, steps[..|steps| - 1]), curve, steps[|steps| - 1])
  }

  /** A process that has just started on a configuration, a floor, and rosters published in earlier lives. */
  ghost function Boot(config: Config, curve: set<Key>, floor: int, history: seq<Roster>): World {
    World(config, Gate(floor, floor, Members(config.fleet, curve)), Idle, 0, history, None, [], false, true)
  }

  /**
   Over every run, with forged deliveries, failed persists, crashes anywhere and
   restarts, every roster applied is one the operator signed, applied rosters
   never go back in time, and the durable floor covers them all.
   */
  lemma {:induction false} AppliedNeverGoesBack(config: Config, curve: set<Key>, floor: int, history: seq<Roster>,
        steps: seq<Step>)
    ensures var w := Exec(Boot(config, curve, floor, history), curve, steps);
            && FloorInv(w) && Nondecreasing(w.applied) && w.gate.floor >= floor
            && forall r :: r in w.applied ==> r in w.rosters && r.created <= w.gate.lastCreated <= w.gate.floor
    decreases |steps|
  {
    if steps != [] {
      AppliedNeverGoesBack(config, curve, floor, history, steps[..|steps| - 1]);
      StepKeepsFloor(Exec(Boot(config, curve, floor, history), curve, steps[..|steps| - 1]), curve, steps[|steps| - 1]);
    }
  }

  /** Once a roster has been applied, an older one is refused for good, whatever crashed since. */
  lemma OlderRostersStayOut(w: World, curve: set<Key>, r: Roster, authentic: bool, persists: bool, newer: Roster)
    requires FloorInv(w) && newer in w.applied && r.created < newer.created
    ensures Do(w, curve, FoldFloor(r, authentic, persists)) == w
    ensures r.created < Restarted(w, curve, false).gate.lastCreated
  {
  }

  /** The steps of a run without its forged deliveries. */
  function Genuine(steps: seq<Step>): seq<Step>
    decreases |steps|
  {
    if steps == [] then []
    else
      var init, last := Genuine(steps[..|steps| - 1]), steps[|steps| - 1];
      if last.FoldFloor? && !last.authentic then init else init + [last]
  }

  /** Forged rosters change nothing at all: a run is the run without them, whatever they name and however new. */
  lemma {:induction false} ForgeriesChangeNothing(w: World, curve: set<Key>, steps: seq<Step>)
    ensures Exec(w, curve, steps) == Exec(w, curve, Genuine(steps))
    decreases |steps|
  {
    if steps != [] {
      var init, last := steps[..|steps| - 1], steps[|steps| - 1];
      ForgeriesChangeNothing(w, curve, init);
      if !(last.FoldFloor? && !last.authentic) { ExecOneMore(w, curve, Genuine(init), last); }
    }
  }

  /** A roster whose floor became durable just before a crash is not lost: the next delivery applies it. */
  lemma FlooredRosterAppliesAfterCrash(w: World, curve: set<Key>, pruned: bool, persists: bool)
    requires FloorInv(w) && w.folding.Some?
    ensures var up := Restarted(w, curve, pruned); var r := w.folding.value;
            && Enabled(up, curve, FoldFloor(r, true, persists))
            && Enabled(Do(up, curve, FoldFloor(r, true, persists)), curve, FoldApply)
            && var after := Do(Do(up, curve, FoldFloor(r, true, persists)), curve, FoldApply);
               after.gate == Gate(w.gate.floor, w.gate.floor, r.members)
  {
  }

  /** A delivery is its two steps with nothing in between. */
  lemma DeliveryIsItsSteps(w: World, curve: set<Key>, r: Roster, authentic: bool, persists: bool)
    requires Enabled(w, curve, FoldFloor(r, authentic, persists))
    ensures var after := Exec(w, curve, [FoldFloor(r, authentic, persists), FoldApply]);
            && after.gate == Folded(w.gate, r, authentic, persists)
            && after.config == w.config && after.rosters == w.rosters && after.folding.None?
            && (after.applied == w.applied || after.applied == w.applied + [r])
            && (after.gate != w.gate ==> after.applied == w.applied + [r])
  {
    TwoSteps(w, curve, FoldFloor(r, authentic, persists), FoldApply);
  }

  /**
   What a delivery may do to the gate: nothing when it is forged, older than what
   was applied last, or newer with a floor that cannot be made durable; otherwise
   floor and live set become the roster's own.
   */
  lemma DeliveryTakesAllOrNothing(g: Gate, r: Roster, authentic: bool, persists: bool)
    requires g.floor == g.lastCreated
    ensures var taken := authentic && (r.created == g.lastCreated || (r.created > g.lastCreated && persists));
            Folded(g, r, authentic, persists) == if taken then Gate(r.created, r.created, r.members) else g
  {
  }

  // ----- Convergence -----

  ghost predicate UniquelyNewest(rosters: seq<Roster>) {
    rosters != [] && forall i :: 0 <= i < |rosters| - 1 ==> rosters[i].created < rosters[|rosters| - 1].created
  }

  ghost function Newest(w: World): Roster
    requires w.rosters != []
  {
    w.rosters[|w.rosters| - 1]
  }

  ghost predicate SettleInv(w: World, curve: set<Key>) {
    && FloorInv(w)
    && (!w.drift ==> w.rosters != [] && Members(w.config.fleet, curve) == Newest(w).members)
    && (w.settled ==> w.rosters != [])
    && (w.settled && UniquelyNewest(w.rosters) ==>
          w.gate.keys == Newest(w).members && w.gate.lastCreated == Newest(w).created)
  }

  lemma StepKeepsSettled(w: World, curve: set<Key>, step: Step)
    requires SettleInv(w, curve)
    ensures SettleInv(Do(w, curve, step), curve)
  {
    if Enabled(w, curve, step) {
      StepKeepsFloor(w, curve, step);
      match step {
        case Publish(now) => PublishKeepsSettled(w, curve, now);
        case Republish(now) => PublishKeepsSettled(w, curve, now);
        case FoldFloor(r, authentic, persists) => FloorKeepsSettled(w, curve, r, authentic, persists);
        case FoldApply => ApplyKeepsSettled(w, curve);
        case _ => ControllerKeepsSettled(w, curve, step);
      }
    }
  }

  lemma PublishKeepsSettled(w: World, curve: set<Key>, now: int)
    requires SettleInv(w, curve)
    ensures SettleInv(Published(w, curve, now), curve)
  {
  }

  lemma FloorKeepsSettled(w: World, curve: set<Key>, r: Roster, authentic: bool, persists: bool)
    requires SettleInv(w, curve) && Enabled(w, curve, FoldFloor(r, authentic, persists))
    ensures SettleInv(FloorTaken(w, r, authentic, persists), curve)
  {
  }

  lemma ApplyKeepsSettled(w: World, curve: set<Key>)
    requires SettleInv(w, curve) && w.folding.Some?
    ensures SettleInv(FoldDone(w), curve)
  {
  }

  lemma ControllerKeepsSettled(w: World, curve: set<Key>, step: Step)
    requires SettleInv(w, curve) && Enabled(w, curve, step) && FloorInv(Effect(w, curve, step))
    requires !step.Publish? && !step.Republish? && !step.FoldFloor? && !step.FoldApply?
    ensures SettleInv(Effect(w, curve, step), curve)
  {
  }

  /**
   Convergence over every run: controller moves cut short anywhere, deliveries
   of any published roster in any order and number, crashes and restarts.  When
   the newest roster has been applied since the live set was last touched, and
   no other roster is as new, the live set is that roster; so it is the
   configured membership exactly when the configuration still says what was
   last published, which it does unless a committed change went unpublished.
   */
  lemma {:induction false} Converges(config: Config, curve: set<Key>, floor: int, history: seq<Roster>,
        steps: seq<Step>)
    ensures var w := Exec(Boot(config, curve, floor, history), curve, steps);
            && SettleInv(w, curve)
            && (w.settled && UniquelyNewest(w.rosters) ==>
                  && w.gate.keys == Newest(w).members
                  && (w.gate.keys == Members(w.config.fleet, curve) <==>
                        Members(w.config.fleet, curve) == Newest(w).members)
                  && (!w.drift ==> w.gate.keys == Members(w.config.fleet, curve)))
    decreases |steps|
  {
    if steps != [] {
      Converges(config, curve, floor, history, steps[..|steps| - 1]);
      StepKeepsSettled(Exec(Boot(config, curve, floor, history), curve, steps[..|steps| - 1]), curve,
          steps[|steps| - 1]);
    }
  }

  /** One delivery settles the live set exactly when the newest roster is not behind the floor. */
  lemma NewestSettlesExactlyWhenNotBehind(w: World, curve: set<Key>)
    requires FloorInv(w) && w.folding.None? && w.rosters != [] && !w.settled
    ensures Exec(w, curve, [FoldFloor(Newest(w), true, true), FoldApply]).settled <==> Newest(w).created >= w.gate.floor
  {
    TwoSteps(w, curve, FoldFloor(Newest(w), true, true), FoldApply);
  }

  lemma TwoSteps(w: World, curve: set<Key>, first: Step, second: Step)
    ensures Exec(w, curve, [first, second]) == Do(Do(w, curve, first), curve, second)
  {
    var steps := [first, second];
    assert steps[..1] == [first] && [first][..0] == [];
    assert Exec(w, curve, steps[..1]) == Do(w, curve, first) by { assert Exec(w, curve, [first][..0]) == w; }
  }

  /**
   A published roster is the single newest one exactly when the clock, or the last roster of this life, is past all
   others.
   */
  lemma PublishedIsNewestExactlyWhenAhead(w: World, curve: set<Key>, now: int)
    ensures UniquelyNewest(Published(w, curve, now).rosters)
            <==> forall i :: 0 <= i < |w.rosters| ==> w.rosters[i].created < NextCreated(w.lastRoster, now)
  {
    var rosters' := Published(w, curve, now).rosters;
    assert forall i :: 0 <= i < |w.rosters| ==> rosters'[i] == w.rosters[i];
    if UniquelyNewest(rosters') {
      forall i | 0 <= i < |w.rosters| ensures w.rosters[i].created < NextCreated(w.lastRoster, now) {
        assert rosters'[i].created < rosters'[|rosters'| - 1].created;
      }
    }
  }

  /** Once this life has published the single newest roster, no clock can make a later one collide, until a restart. */
  ghost predicate Ahead(w: World) {
    UniquelyNewest(w.rosters) && w.lastRoster == Newest(w).created
  }

  lemma StepKeepsAhead(w: World, curve: set<Key>, step: Step)
    requires Ahead(w) && !step.Restart?
    ensures Ahead(Do(w, curve, step))
  {
    if step.Publish? || step.Republish? { PublishedIsNewestExactlyWhenAhead(w, curve, step.now); }
  }

  lemma {:induction false} AheadUntilRestart(w: World, curve: set<Key>, steps: seq<Step>)
    requires Ahead(w) && forall step :: step in steps ==> !step.Restart?
    ensures Ahead(Exec(w, curve, steps))
    decreases |steps|
  {
    if steps != [] {
      AheadUntilRestart(w, curve, steps[..|steps| - 1]);
      StepKeepsAhead(Exec(w, curve, steps[..|steps| - 1]), curve, steps[|steps| - 1]);
    }
  }

  /**
   From a converged state, deliveries of published rosters are harmless exactly when no roster of equal age says
   something else.
   */
  lemma StaysConvergedExactlyWithoutATie(w: World, curve: set<Key>)
    requires FloorInv(w) && w.folding.None? && w.rosters != []
    requires w.gate.keys == Newest(w).members && w.gate.lastCreated == Newest(w).created
    requires forall i :: 0 <= i < |w.rosters| ==> w.rosters[i].created <= Newest(w).created
    ensures (forall i :: 0 <= i < |w.rosters| ==> Folded(w.gate, w.rosters[i], true, true).keys == w.gate.keys)
            <==> forall i :: 0 <= i < |w.rosters| && w.rosters[i].created == Newest(w).created ==>
                w.rosters[i].members == Newest(w).members
  {
  }

  lemma MutationMovesMembers(c: Config, curve: set<Key>, action: Action, key: Key)
    requires Members(Mutated(c, action, Hex(key)).fleet, curve) != Members(c.fleet, curve)
    ensures Members(Mutated(c, action, Hex(key)).fleet, curve)
            == if action.Add? then Members(c.fleet, curve) + {key} else Members(c.fleet, curve) - {key}
  {
    var c' := Mutated(c, action, Hex(key));
    if action.Add? {
      assert c'.fleet == c.fleet + [Hex(key)];
      assert forall e :: e in c'.fleet <==> e in c.fleet || e == Hex(key);
      assert !Usable(Hex(key), curve) || Blank(Hex(key)) ==> Members(c'.fleet, curve) == Members(c.fleet, curve);
    }
  }

  /** A membership change that is committed and made live, but whose publish fails. */
  function Abandoned(action: Action, key: Key): seq<Step> {
    [Begin, Commit(action, Hex(key))] + [Touch(action, key), Abandon]
  }

  lemma AbandonedChangeIsLive(w: World, curve: set<Key>, action: Action, key: Key)
    requires w.phase.Idle?
    ensures var left := Exec(w, curve, Abandoned(action, key));
            && left == w.(settled := false, drift := true, config := Mutated(w.config, action, Hex(key)),
                          gate := w.gate.(keys := if action.Add? then w.gate.keys + {key} else w.gate.keys - {key}))
  {
    var opening := [Begin, Commit(action, Hex(key))];
    ExecOfTwo(w, curve, opening, [Touch(action, key), Abandon]);
    TwoSteps(w, curve, Begin, Commit(action, Hex(key)));
    TwoSteps(Exec(w, curve, opening), curve, Touch(action, key), Abandon);
  }

  /**
   From a converged state, a change that is committed and made live but never
   published first brings the live set in step with the configuration; the next
   delivery of the newest roster takes it out of the live set again, so a
   committed removal is live again and a committed addition is shut out.
   */
  lemma AbandonedChangeIsUndone(w: World, curve: set<Key>, action: Action, key: Key)
    requires SettleInv(w, curve) && w.phase.Idle? && w.settled && !w.drift && UniquelyNewest(w.rosters)
             && w.folding.None?
    requires Members(Mutated(w.config, action, Hex(key)).fleet, curve) != Members(w.config.fleet, curve)
    ensures var left := Exec(w, curve, Abandoned(action, key));
            var after := Exec(left, curve, [FoldFloor(Newest(w), true, true), FoldApply]);
            && left.gate.keys == Members(left.config.fleet, curve) != w.gate.keys
            && after.config == left.config && after.gate.keys == w.gate.keys != Members(after.config.fleet, curve)
            && (key in after.gate.keys <==> action.Remove?)
  {
    MutationMovesMembers(w.config, curve, action, key);
    AbandonedChangeIsLive(w, curve, action, key);
    TwoSteps(Exec(w, curve, Abandoned(action, key)), curve, FoldFloor(Newest(w), true, true), FoldApply);
  }

  /** A published membership, delivered. */
  ghost function Delivered(config: Config, curve: set<Key>, now: int): seq<Step> {
    [Republish(now)] + [FoldFloor(Roster(now, Members(config.fleet, curve)), true, true), FoldApply]
  }

  lemma ServedOnce(w: World, curve: set<Key>, r: Roster)
    requires w.rosters == [r] && w.folding.None? && w.gate.floor == w.gate.lastCreated <= r.created
    ensures var after := Exec(w, curve, [FoldFloor(r, true, true), FoldApply]);
            after == w.(gate := Gate(r.created, r.created, r.members), applied := w.applied + [r], settled := true)
  {
    TwoSteps(w, curve, FoldFloor(r, true, true), FoldApply);
  }

  /** The converged states of the last lemma are reached: publish on start and deliver. */
  lemma ConvergedIsReached(config: Config, curve: set<Key>, floor: int, now: int)
    requires now >= floor && now > 0
    ensures var w := Exec(Boot(config, curve, floor, []), curve, Delivered(config, curve, now));
            && SettleInv(w, curve) && w.phase.Idle? && w.settled && !w.drift && UniquelyNewest(w.rosters)
               && w.folding.None?
            && w.config == config
  {
    var start := Boot(config, curve, floor, []);
    var published := Do(start, curve, Republish(now));
    ExecOneMore(start, curve, [], Republish(now));
    assert [] + [Republish(now)] == [Republish(now)];
    var served := FoldFloor(Roster(now, Members(config.fleet, curve)), true, true);
    ExecOfTwo(start, curve, [Republish(now)], [served, FoldApply]);
    ServedOnce(published, curve, served.roster);
    Converges(config, curve, floor, [], Delivered(config, curve, now));
  }

  function MoveSteps(action: Action, key: Key, now: int): seq<Step> {
    [Begin, Commit(action, Hex(key))] + [Touch(action, key), Publish(now)]
  }

  /** An addition published, a restart, and its removal published within the same second. */
  function TiedSteps(key: Key, now: int): seq<Step> {
    (MoveSteps(Add, key, now) + [Restart(false)]) + MoveSteps(Remove, key, now)
  }

  /** Pruning drops what stands for no key, and so changes nobody's membership. */
  lemma PruningKeepsMembership(c: Config, curve: set<Key>)
    ensures var c' := Pruned(c, curve);
            && AllUsable(c'.fleet, curve) && Members(c'.fleet, curve) == Members(c.fleet, curve)
            && c'.revoked == c.revoked && c'.grants == c.grants
  {
  }

  /**
   From any state whatever, a restart that publishes its membership and is delivered it settles exactly when its clock
   is not behind the floor.
   */
  lemma RestartSettlesExactlyWhenNotBehind(w: World, curve: set<Key>, now: int)
    requires FloorInv(w) && now > 0
    ensures var up := Restarted(w, curve, true);
            var served := FoldFloor(Roster(now, Members(up.config.fleet, curve)), true, true);
            var after := Exec(up, curve, [Republish(now)] + [served, FoldApply]);
            && after.gate.keys == Members(after.config.fleet, curve) == Members(w.config.fleet, curve)
            && (after.settled <==> now >= w.gate.floor)
  {
    var up := Restarted(w, curve, true);
    var served := FoldFloor(Roster(now, Members(up.config.fleet, curve)), true, true);
    PruningKeepsMembership(w.config, curve);
    ExecOneMore(up, curve, [], Republish(now));
    assert [] + [Republish(now)] == [Republish(now)];
    ExecOfTwo(up, curve, [Republish(now)], [served, FoldApply]);
    TwoSteps(Do(up, curve, Republish(now)), curve, served, FoldApply);
  }

  lemma MoveIsARun(w: World, curve: set<Key>, action: Action, key: Key, now: int)
    requires w.phase.Idle? && AllUsable(Mutated(w.config, action, Hex(key)).fleet, curve)
    ensures Exec(w, curve, MoveSteps(action, key, now))
            == Moved(w, curve, Mutated(w.config, action, Hex(key)), if action.Add? then w.gate.keys + {key}
                else w.gate.keys - {key}, now)
  {
    var opening := [Begin, Commit(action, Hex(key))];
    ExecOfTwo(w, curve, opening, [Touch(action, key), Publish(now)]);
    TwoSteps(w, curve, Begin, Commit(action, Hex(key)));
    TwoSteps(Exec(w, curve, opening), curve, Touch(action, key), Publish(now));
  }

  lemma AddedAlone(key: Key, floor: int, now: int)
    requires key != "" && now > 0
    ensures var w := Exec(Boot(Config([], [], map[]), {key}, floor, []), {key}, MoveSteps(Add, key, now));
            w.rosters == [Roster(now, {key})] && w.config == Config([Hex(key)], [], map[])
  {
    OneMember({key}, key);
    MoveIsARun(Boot(Config([], [], map[]), {key}, floor, []), {key}, Add, key, now);
  }

  lemma AddedThenRestarted(key: Key, floor: int, now: int)
    requires key != "" && now > 0
    ensures var w := Exec(Boot(Config([], [], map[]), {key}, floor, []), {key},
                          MoveSteps(Add, key, now) + [Restart(false)]);
            && w.phase.Idle? && w.lastRoster == 0 && w.rosters == [Roster(now, {key})]
            && w.config == Config([Hex(key)], [], map[])
  {
    AddedAlone(key, floor, now);
    ExecOneMore(Boot(Config([], [], map[]), {key}, floor, []), {key}, MoveSteps(Add, key, now), Restart(false));
  }

  /** So a tie is reached: two rosters of one created_at, of which one names the key and the other does not. */
  lemma TieIsReached(key: Key, floor: int, now: int)
    requires key != "" && now > 0
    ensures var w := Exec(Boot(Config([], [], map[]), {key}, floor, []), {key}, TiedSteps(key, now));
            w.rosters == [Roster(now, {key}), Roster(now, {})]
  {
    var start, curve := Boot(Config([], [], map[]), {key}, floor, []), {key};
    var first := MoveSteps(Add, key, now) + [Restart(false)];
    AddedThenRestarted(key, floor, now);
    ExecOfTwo(start, curve, first, MoveSteps(Remove, key, now));
    var again := Exec(start, curve, first);
    OneMember(curve, key);
    MoveIsARun(again, curve, Remove, key, now);
  }

  lemma OneMember(curve: set<Key>, key: Key)
    requires key != "" && key in curve
    ensures Members([Hex(key)], curve) == {key}
    ensures Mutated(Config([], [], map[]), Add, Hex(key)) == Config([Hex(key)], [], map[])
    ensures Members(Mutated(Config([Hex(key)], [], map[]), Remove, Hex(key)).fleet, curve) == {}
  {
    assert Drop([Hex(key)], Hex(key)) == [];
  }

  // ----- One uninterrupted move of the controller, as a run -----

  lemma ExecOneMore(w: World, curve: set<Key>, steps: seq<Step>, step: Step)
    ensures Exec(w, curve, steps + [step]) == Do(Exec(w, curve, steps), curve, step)
  {
    assert (steps + [step])[..|steps|] == steps;
  }

  lemma {:induction false} ExecOfTwo(w: World, curve: set<Key>, s: seq<Step>, t: seq<Step>)
    ensures Exec(w, curve, s + t) == Exec(Exec(w, curve, s), curve, t)
    decreases |t|
  {
    if t == [] {
      assert s + t == s;
    } else {
      var init, last := t[..|t| - 1], t[|t| - 1];
      assert s + t == (s + init) + [last];
      ExecOfTwo(w, curve, s, init);
      ExecOneMore(w, curve, s + init, last);
    }
  }

  /**
   What a whole, unfailing move leaves: the change committed, the live set touched, and the committed membership
   published.
   */
  ghost function Moved(w: World, curve: set<Key>, config': Config, keys': set<Key>, now: int): World {
    Published(w.(config := config', gate := w.gate.(keys := keys')), curve, now)
  }

  lemma AddIsARun(w: World, curve: set<Key>, target: Key, now: int)
    requires w.phase.Idle? && AllUsable(Mutated(w.config, Add, Hex(target)).fleet, curve)
    ensures Exec(w, curve, [Begin, Commit(Add, Hex(target)), Touch(Add, target), Publish(now)])
            == Moved(w, curve, Added(w.config, true, target, 1), w.gate.keys + {target}, now)
  {
    var first, second := [Begin, Commit(Add, Hex(target))], [Touch(Add, target), Publish(now)];
    assert first + second == [Begin, Commit(Add, Hex(target)), Touch(Add, target), Publish(now)];
    ExecOfTwo(w, curve, first, second);
    TwoSteps(w, curve, Begin, Commit(Add, Hex(target)));
    TwoSteps(Exec(w, curve, first), curve, Touch(Add, target), Publish(now));
  }

  function Commits(kids: seq<Key>): seq<Step>
    decreases |kids|
  {
    if kids == [] then [] else Commits(kids[..|kids| - 1]) + [Commit(Remove, Hex(kids[|kids| - 1]))]
  }

  function Touches(kids: seq<Key>): seq<Step>
    decreases |kids|
  {
    if kids == [] then [] else Touches(kids[..|kids| - 1]) + [Touch(Remove, kids[|kids| - 1])]
  }

  lemma CommitOne(w: World, curve: set<Key>, target: Entry)
    requires w.phase.Committing? && w.drift
    ensures Do(w, curve, Commit(Remove, target)) == w.(config := Mutated(w.config, Remove, target))
  {
  }

  lemma {:induction false} CommitsRemoveKids(w: World, curve: set<Key>, kids: seq<Key>)
    requires w.phase.Committing? && w.drift
    ensures Exec(w, curve, Commits(kids)) == w.(config := WithoutKids(w.config, kids))
    decreases |kids|
  {
    if kids != [] {
      var init, last := kids[..|kids| - 1], Hex(kids[|kids| - 1]);
      CommitsRemoveKids(w, curve, init);
      ExecOneMore(w, curve, Commits(init), Commit(Remove, last));
      CommitOne(w.(config := WithoutKids(w.config, init)), curve, last);
    }
  }

  lemma {:induction false} TouchesRemoveKids(w: World, curve: set<Key>, kids: seq<Key>)
    requires w.phase.Touching? && !w.settled
    ensures Exec(w, curve, Touches(kids)) == w.(gate := w.gate.(keys := w.gate.keys - set k | k in kids))
    decreases |kids|
  {
    if kids != [] {
      var init, last := kids[..|kids| - 1], kids[|kids| - 1];
      TouchesRemoveKids(w, curve, init);
      ExecOneMore(w, curve, Touches(init), Touch(Remove, last));
      assert kids == init + [last];
      assert w.gate.keys - (set k | k in init) - {last} == w.gate.keys - set k | k in kids;
    } else {
      assert w.gate.keys - (set k | k in kids) == w.gate.keys;
    }
  }

  function CommitSteps(target: Key, kids: seq<Key>): seq<Step> {
    [Begin, Commit(Remove, Hex(target))] + Commits(kids) + [Forget(set k | k in kids), Forget({target})]
  }

  function TouchSteps(target: Key, kids: seq<Key>, now: int): seq<Step> {
    [Touch(Remove, target)] + Touches(kids) + [Publish(now)]
  }

  lemma CommitsOfRemove(w: World, curve: set<Key>, target: Key, kids: seq<Key>)
    requires w.phase.Idle?
    ensures Exec(w, curve, CommitSteps(target, kids))
            == w.(phase := Committing, drift := true,
                  config := Removed(w.config, Hex(target), kids, WritesToRemove(kids)))
  {
    var opening, forgetting := [Begin, Commit(Remove, Hex(target))], [Forget(set k | k in kids), Forget({target})];
    TwoSteps(w, curve, Begin, Commit(Remove, Hex(target)));
    ExecOfTwo(w, curve, opening, Commits(kids));
    CommitsRemoveKids(Exec(w, curve, opening), curve, kids);
    ExecOfTwo(w, curve, opening + Commits(kids), forgetting);
    TwoSteps(Exec(w, curve, opening + Commits(kids)), curve, Forget(set k | k in kids), Forget({target}));
  }

  lemma TouchesOfRemove(w: World, curve: set<Key>, target: Key, kids: seq<Key>, now: int)
    requires w.phase.Committing? && AllUsable(w.config.fleet, curve)
    ensures Exec(w, curve, TouchSteps(target, kids, now))
            == Moved(w, curve, w.config, w.gate.keys - {target} - (set k | k in kids), now)
  {
    var first := [Touch(Remove, target)];
    ExecOneMore(w, curve, [], Touch(Remove, target));
    assert [] + first == first;
    ExecOfTwo(w, curve, first, Touches(kids));
    TouchesRemoveKids(Exec(w, curve, first), curve, kids);
    ExecOneMore(w, curve, first + Touches(kids), Publish(now));
  }

  lemma RemoveIsARun(w: World, curve: set<Key>, target: Key, kids: seq<Key>, now: int)
    requires w.phase.Idle? && AllUsable(Removed(w.config, Hex(target), kids, WritesToRemove(kids)).fleet, curve)
    ensures Exec(w, curve, CommitSteps(target, kids) + TouchSteps(target, kids, now))
            == Moved(w, curve, Removed(w.config, Hex(target), kids, WritesToRemove(kids)),
                     w.gate.keys - {target} - (set k | k in kids), now)
  {
    ExecOfTwo(w, curve, CommitSteps(target, kids), TouchSteps(target, kids, now));
    CommitsOfRemove(w, curve, target, kids);
    TouchesOfRemove(Exec(w, curve, CommitSteps(target, kids)), curve, target, kids, now);
  }

  // ----- The running objects -----

  /** The membership a list of keys stands for. */
  function KeysIn(keys: seq<Key>): set<Key> {
    set k | k in keys && k != ""
  }

  /** The set the trust checker reads, shared by both writers. */
  class KeySet {
    var members: set<Key>

    constructor (keys: set<Key>)
      ensures members == keys
    {
      members := keys;
    }

    method Add(key: Key)
      modifies this
      ensures members == old(members) + if key == "" then {} else {key}
    {
      if key != "" {
        members := members + {key};
      }
    }

    method Remove(key: Key)
      modifies this
      ensures members == old(members) - if key == "" then {} else {key}
    {
      if key != "" {
        members := members - {key};
      }
    }

    /** Exactly the keys listed: the prior membership goes, blanks are skipped, order and repeats do not matter. */
    method ReplaceAll(keys: seq<Key>)
      modifies this
      ensures members == KeysIn(keys)
      ensures forall k :: k in members <==> k in keys && k != ""
    {
      var next: set<Key> := {};
      for i := 0 to |keys|
        invariant next == KeysIn(keys[..i])
        invariant members == old(members)
      {
        assert keys[..i + 1] == keys[..i] + [keys[i]];
        if keys[i] != "" {
          next := next + {keys[i]};
        }
      }
      assert keys[..|keys|] == keys;
      members := next;
    }
  }

  /** The sidecar as readRosterCreatedAt finds it. */
  datatype Sidecar = Missing | Corrupt | Value(created: int)

  function ReadFloor(sidecar: Sidecar): Option<int> {
    match sidecar
    case Missing => Some(0)
    case Corrupt => None
    case Value(created) => if created < 0 then None else Some(created)
  }

  class RosterFolder {
    const keys: KeySet
    var sidecar: Sidecar
    var lastCreated: int

    ghost predicate Valid()
      reads this
    {
      ReadFloor(sidecar) == Some(lastCreated)
    }

    ghost function View(): Gate
      reads this, keys
      requires Valid()
    {
      Gate(ReadFloor(sidecar).value, lastCreated, keys.members)
    }

    constructor (keys: KeySet, sidecar: Sidecar)
      requires ReadFloor(sidecar).Some?
      ensures Valid() && this.keys == keys && this.sidecar == sidecar
    {
      this.keys, this.sidecar := keys, sidecar;
      lastCreated := ReadFloor(sidecar).value;
    }

    /** newRosterFolder: a floor that is present but unreadable is a refusal to start. */
    static method Open(keys: KeySet, sidecar: Sidecar) returns (rf: RosterFolder?)
      ensures rf == null <==> sidecar.Corrupt? || (sidecar.Value? && sidecar.created < 0)
      ensures rf != null ==> rf.lastCreated == if sidecar.Missing? then 0 else sidecar.created
      ensures rf != null ==>
                && fresh(rf) && rf.Valid() && rf.keys == keys
                && rf.View() == Reseeded(Gate(ReadFloor(sidecar).value, 0, {}), keys.members)
    {
      if ReadFloor(sidecar).None? {
        return null;
      }
      rf := new RosterFolder(keys, sidecar);
    }

    /** The result says whether the reader may move its cursor past the event. */
    method Fold(created: int, members: seq<Key>, authentic: bool, persists: bool) returns (ok: bool)
      requires Valid()
      modifies this, keys
      ensures Valid() && View() == Folded(old(View()), Roster(created, KeysIn(members)), authentic, persists)
      ensures ok == (authentic && (created <= old(lastCreated) || persists))
      ensures !authentic || created < old(lastCreated) || (created > old(lastCreated) && !persists) ==>
                unchanged(this) && unchanged(keys)
      ensures authentic && (created == old(lastCreated) || (created > old(lastCreated) && persists)) ==>
                && ReadFloor(sidecar) == Some(created) && lastCreated == created
                && forall k :: k in keys.members <==> k in members && k != ""
    {
      if !authentic {
        return false;
      }
      if created < lastCreated {
        return true;
      }
      if created > lastCreated {
        if !persists {
          return false;
        }
        sidecar := Value(created);
      }
      lastCreated := created;
      keys.ReplaceAll(members);
      ok := true;
    }
  }

  /** NewAllowlist: the whole membership, or nothing if one entry is unusable. */
  method NewAllowlist(list: seq<Entry>, curve: set<Key>) returns (members: Option<set<Key>>)
    ensures members.Some? <==> AllUsable(list, curve)
    ensures members.Some? ==> members.value == Members(list, curve)
  {
    var keys: set<Key> := {};
    for i := 0 to |list|
      invariant AllUsable(list[..i], curve)
      invariant keys == Members(list[..i], curve)
    {
      var e := list[i];
      assert list[..i + 1] == list[..i] + [e];
      if !Blank(e) {
        if !Usable(e, curve) {
          assert e in list;
          return None;
        }
        keys := keys + {e.key};
      }
    }
    assert list[..|list|] == list;
    members := Some(keys);
  }

  /** The allowlist controller on the relay tier. */
  class AllowlistController {
    const config: ConfigFile
    const keys: KeySet
    const curve: set<Key>
    var lastRoster: int
    var published: seq<Roster>

    constructor (config: ConfigFile, keys: KeySet, curve: set<Key>)
      ensures this.config == config && this.keys == keys && this.curve == curve && lastRoster == 0 && published == []
    {
      this.config, this.keys, this.curve := config, keys, curve;
      lastRoster, published := 0, [];
    }

    method BuildRoster(members: set<Key>, now: int) returns (r: Roster)
      modifies `lastRoster
      ensures r == Roster(NextCreated(old(lastRoster), now), members) && lastRoster == r.created
      ensures r.created == if now > old(lastRoster) then now else old(lastRoster) + 1
    {
      var createdAt := now;
      if createdAt <= lastRoster {
        createdAt := lastRoster + 1;
      }
      lastRoster := createdAt;
      r := Roster(createdAt, members);
    }

    method PublishConfig(now: int) returns (ok: bool)
      modifies `lastRoster, `published
      ensures ok == AllUsable(config.fleet, curve)
      ensures ok ==> lastRoster == NextCreated(old(lastRoster), now)
                     && published == old(published) + [Roster(lastRoster, Members(config.fleet, curve))]
      ensures !ok ==> unchanged(this)
    {
      var members := NewAllowlist(config.fleet, curve);
      if members.None? {
        return false;
      }
      var r := BuildRoster(members.value, now);
      published := published + [r];
      ok := true;
    }

    /**
     applyAuthorized's add: nothing live moves unless the change is durable, and the roster is built from what was
     committed.
     */
    method ApplyAdd(target: Key, now: int, persists: bool) returns (ok: bool)
      requires target != ""
      modifies this, config, keys
      ensures var committed := persists && target in curve;
              && config.View() == Added(old(config.View()), target in curve, target, if persists then 1 else 0)
              && keys.members == (if committed then old(keys.members) + {target} else old(keys.members))
              && ok == (committed && AllUsable(config.fleet, curve))
      ensures published == if ok then old(published) + [Roster(lastRoster, Members(config.fleet, curve))]
              else old(published)
      ensures if ok then lastRoster == NextCreated(old(lastRoster), now) else lastRoster == old(lastRoster)
    {
      ok := config.ApplyAdd(target, target in curve, if persists then 1 else 0);
      if ok {
        keys.Add(target);
        ok := PublishConfig(now);
      }
    }

    method RemoveLive(target: Key, kids: seq<Key>)
      requires target != ""
      modifies keys
      ensures keys.members == old(keys.members) - {target} - set k | k in kids && k != ""
    {
      keys.Remove(target);
      for i := 0 to |kids|
        invariant keys.members == old(keys.members) - {target} - set k | k in kids[..i] && k != ""
      {
        assert kids[..i + 1] == kids[..i] + [kids[i]];
        keys.Remove(kids[i]);
      }
      assert kids[..|kids|] == kids;
    }

    /** applyAuthorized's remove, cascading in the configuration and the live set alike. */
    method ApplyRemove(target: Key, now: int, writes: nat) returns (ok: bool, kids: seq<Key>)
      requires target != ""
      modifies this, config, keys
      ensures KidsOf(old(config.View()), Hex(target), kids)
      ensures config.View() == Removed(old(config.View()), Hex(target), kids, writes)
      ensures var committed := writes >= WritesToRemove(kids);
              && keys.members == (if committed then old(keys.members) - {target} - (set k | k in kids && k != "")
                 else old(keys.members))
              && ok == (committed && AllUsable(config.fleet, curve))
      ensures published == if ok then old(published) + [Roster(lastRoster, Members(config.fleet, curve))]
              else old(published)
      ensures if ok then lastRoster == NextCreated(old(lastRoster), now) else lastRoster == old(lastRoster)
    {
      ok, kids := config.ApplyRemove(Hex(target), writes);
      if ok {
        RemoveLive(target, kids);
        ok := PublishConfig(now);
      }
    }
  }
}
