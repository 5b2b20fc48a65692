/**
 Single-use redemption of invites: the append-only file of redeemed grant ids,
 the set read back from it, and the handler that consults it before it promotes
 and funds a member.
 */
module Redeem {
  type Grant = string
  type Key = string

  // ----- The file of redeemed grants -----

  predicate IsSpace(c: char) {
    c in {' ', '\t', '\n', '\r', '\U{000B}', '\U{000C}', '\U{0085}', '\U{00A0}', '\U{1680}', '\U{2028}', '\U{2029}',
        '\U{202F}', '\U{205F}', '\U{3000}'}
    || '\U{2000}' <= c <= '\U{200A}'
  }

  function TrimLeft(s: string): string {
    if s != "" && IsSpace(s[0]) then TrimLeft(s[1..]) else s
  }

  function TrimRight(s: string): string
    decreases |s|
  {
    if s != "" && IsSpace(s[|s| - 1]) then TrimRight(s[..|s| - 1]) else s
  }

  function Trim(s: string): string {
    TrimRight(TrimLeft(s))
  }

  predicate Trimmed(s: string) {
    s == "" || (!IsSpace(s[0]) && !IsSpace(s[|s| - 1]))
  }

  predicate OneLine(s: string) {
    '\n' !in s
  }

  /** One more character before the first line. */
  function Prepend(c: char, lines: seq<string>): (longer: seq<string>)
    requires |lines| > 0
    ensures |longer| > 0
  {
    if c == '\n' then [""] + lines else [[c] + lines[0]] + lines[1..]
  }

  /** The text between newlines; the last line may be unterminated. */
  function Lines(text: string): (lines: seq<string>)
    ensures |lines| > 0
  {
    if text == "" then [""] else Prepend(text[0], Lines(text[1..]))
  }

  ghost function IdsOf(lines: seq<string>): set<Grant> {
    set line | line in lines && Trim(line) != "" :: Trim(line)
  }

  /** openRedeemedStore's scan. */
  ghost function Load(file: string): set<Grant> {
    IdsOf(Lines(file))
  }

  predicate Terminated(file: string) {
    file == "" || file[|file| - 1] == '\n'
  }

  lemma PrependToTwo(c: char, a: seq<string>, b: seq<string>)
    requires |a| > 0
    ensures Prepend(c, a + b) == Prepend(c, a) + b
  {
  }

  lemma {:induction false} LinesOfTwo(s: string, t: string)
    ensures Lines(s + "\n" + t) == Lines(s) + Lines(t)
  {
    var whole := s + "\n" + t;
    if s == "" {
      assert whole[0] == '\n' && whole[1..] == t;
    } else {
      LinesOfTwo(s[1..], t);
      assert whole[0] == s[0] && whole[1..] == s[1..] + "\n" + t;
      PrependToTwo(s[0], Lines(s[1..]), Lines(t));
    }
  }

  lemma IdsOfTwo(a: seq<string>, b: seq<string>)
    ensures IdsOf(a + b) == IdsOf(a) + IdsOf(b)
    ensures IdsOf(a + [""]) == IdsOf(a)
  {
  }

  lemma {:induction false} LinesOfOne(s: string)
    requires OneLine(s)
    ensures Lines(s) == [s]
  {
    if s != "" {
      LinesOfOne(s[1..]);
      assert [s[0]] + s[1..] == s;
    }
  }

  lemma {:induction false} LinesAreOneLine(text: string)
    ensures forall line :: line in Lines(text) ==> OneLine(line)
  {
    if text != "" {
      LinesAreOneLine(text[1..]);
      forall line | line in Lines(text) ensures OneLine(line) {
        if text[0] != '\n' { assert OneLine(Lines(text[1..])[0]); }
      }
    }
  }

  lemma {:induction false} TrimLeftKeeps(s: string)
    ensures OneLine(s) ==> OneLine(TrimLeft(s))
    ensures TrimLeft(s) == "" || !IsSpace(TrimLeft(s)[0])
  {
    if s != "" && IsSpace(s[0]) { TrimLeftKeeps(s[1..]); }
  }

  lemma {:induction false} TrimRightKeeps(s: string)
    ensures OneLine(s) ==> OneLine(TrimRight(s))
    ensures TrimRight(s) <= s
    ensures TrimRight(s) == "" || !IsSpace(TrimRight(s)[|TrimRight(s)| - 1])
    decreases |s|
  {
    if s != "" && IsSpace(s[|s| - 1]) { TrimRightKeeps(s[..|s| - 1]); }
  }

  lemma TrimIsTrimmed(s: string)
    ensures Trimmed(Trim(s)) && (OneLine(s) ==> OneLine(Trim(s)))
    ensures Trimmed(s) ==> Trim(s) == s
  {
    TrimLeftKeeps(s);
    TrimRightKeeps(TrimLeft(s));
  }

  lemma LoadOfTwo(s: string, t: string)
    ensures Load(s + "\n" + t) == Load(s) + Load(t)
  {
    LinesOfTwo(s, t);
    IdsOfTwo(Lines(s), Lines(t));
  }

  lemma LoadTerminated(s: string)
    ensures Load(s + "\n") == Load(s)
  {
    LoadOfTwo(s, "");
    assert s + "\n" + "" == s + "\n";
    assert Trim("") == "";
  }

  /** What a restart reads back after an append: the old ids, and what the appended text says line by line. */
  lemma LoadAfterAppend(file: string, id: string)
    requires Terminated(file)
    ensures Load(file + id + "\n") == Load(file) + Load(id)
    ensures Terminated(file + id + "\n")
  {
    LoadTerminated(file + id);
    if file == "" {
      assert file + id == id;
      assert Trim("") == "";
    } else {
      var init := file[..|file| - 1];
      assert file == init + "\n";
      LoadTerminated(init);
      LoadOfTwo(init, id);
    }
  }

  /** The round trip: an appended id is exactly what is added, and it is read back only if it is one line. */
  lemma AppendThenLoad(file: string, grant: Grant)
    requires Terminated(file) && Trimmed(grant) && grant != ""
    ensures OneLine(grant) ==> Load(file + grant + "\n") == Load(file) + {grant}
    ensures grant in Load(file + grant + "\n") <==> OneLine(grant)
  {
    LoadAfterAppend(file, grant);
    TrimIsTrimmed(grant);
    if OneLine(grant) {
      LinesOfOne(grant);
      assert grant in Lines(grant);
    } else {
      LoadedIdsAreOneLine(file + grant + "\n");
    }
  }

  lemma LoadedIdsAreOneLine(file: string)
    ensures forall g :: g in Load(file) ==> OneLine(g) && Trimmed(g) && g != ""
  {
    LinesAreOneLine(file);
    forall line | line in Lines(file) ensures OneLine(Trim(line)) && Trimmed(Trim(line)) {
      TrimIsTrimmed(line);
    }
  }

  // ----- The handler, step by step -----

  /** A verified redeem: its grant, the member it admits, whether a parent issued it, and the genesis scrip. */
  datatype Redeem = Redeem(grant: Grant, member: Key, viaParent: bool, genesis: nat)

  /** Where the handler is; it is busy with at most one redeem. */
  datatype Phase =
    | Waiting
    | Accepted(r: Redeem)
    | Stored(r: Redeem)
    | Promoted(r: Redeem)
    | Linked(r: Redeem)

  /** A promotion or a genesis mint that took effect. */
  datatype Effect = Effect(grant: Grant, member: Key)

  datatype World = World(file: string, redeemed: set<Grant>, phase: Phase, promotions: seq<Effect>, mints: seq<Effect>)

  /** How a durable write or an engine call can end: `landed` says whether it took effect before it failed. */
  datatype Outcome = Ok | Failed(landed: bool)

  predicate Landed(o: Outcome) {
    o.Ok? || o.landed
  }

  datatype Step =
    | Deliver(r: Redeem, authentic: bool)
    | Store(o: Outcome)
    | Promote(o: Outcome)
    | Link
    | Mint(o: Outcome)
    | Crash

  function Delivered(w: World, r: Redeem, authentic: bool): World {
    if !w.phase.Waiting? || !authentic || r.grant in w.redeemed then w else w.(phase := Accepted(r))
  }

  function AfterStore(w: World, o: Outcome): World {
    if !w.phase.Accepted? then w
    else if w.phase.r.grant == "" then w.(phase := Waiting)
    else
      var file' := if Landed(o) then w.file + w.phase.r.grant + "\n" else w.file;
      if o.Ok? then w.(file := file', redeemed := w.redeemed + {w.phase.r.grant}, phase := Stored(w.phase.r))
      else w.(file := file', phase := Waiting)
  }

  function AfterPromote(w: World, o: Outcome): World {
    if !w.phase.Stored? then w
    else
      var promotions' := if Landed(o) then w.promotions + [Effect(w.phase.r.grant, w.phase.r.member)] else w.promotions;
      w.(promotions := promotions', phase := if o.Ok? then Promoted(w.phase.r) else Waiting)
  }

  function AfterLink(w: World): World {
    if !w.phase.Promoted? then w else w.(phase := Linked(w.phase.r))
  }

  function AfterMint(w: World, o: Outcome): World {
    if !w.phase.Linked? then w
    else
      w.(phase := Waiting,
         mints := if w.phase.r.genesis > 0
             && Landed(o) then w.mints + [Effect(w.phase.r.grant, w.phase.r.member)] else w.mints)
  }

  /** A crash loses the phase and the set in memory; a restart reads the set back. */
  ghost function Reopened(w: World): World {
    w.(phase := Waiting, redeemed := Load(w.file))
  }

  ghost function Do(w: World, step: Step): World {
    match step
    case Deliver(r, authentic) => Delivered(w, r, authentic)
    case Store(o) => AfterStore(w, o)
    case Promote(o) => AfterPromote(w, o)
    case Link => AfterLink(w)
    case Mint(o) => AfterMint(w, o)
    case Crash => Reopened(w)
  }

  ghost function Exec(w: World, steps: seq<Step>): World
    decreases |steps|
  {
    if steps == [] then w else Do(Exec(w, steps[..|steps| - 1]), steps[|steps| - 1])
  }

  /** A fresh process on a redeemed file. */
  ghost function Boot(file: string): World {
    World(file, Load(file), Waiting, [], [])
  }

  /** A grant id as the operator makes it, and as parsing an invite leaves it. */
  predicate WellFormed(grant: Grant) {
    Trimmed(grant) && OneLine(grant)
  }

  predicate CleanStep(step: Step) {
    step.Deliver? ==> WellFormed(step.r.grant)
  }

  // ----- Single use -----

  ghost predicate OncePerGrant(effects: seq<Effect>) {
    forall i, j :: 0 <= i < j < |effects| ==> effects[i].grant != effects[j].grant
  }

  ghost predicate NoneFor(effects: seq<Effect>, grant: Grant) {
    forall i :: 0 <= i < |effects| ==> effects[i].grant != grant
  }

  ghost predicate StoreInv(w: World) {
    && Terminated(w.file) && w.redeemed <= Load(w.file)
    && (w.phase.Accepted? ==> WellFormed(w.phase.r.grant) && w.phase.r.grant !in w.redeemed)
    && (!w.phase.Waiting? && !w.phase.Accepted? ==> w.phase.r.grant in w.redeemed)
  }

  ghost predicate EffectsInv(w: World) {
    && OncePerGrant(w.promotions) && OncePerGrant(w.mints)
    && (forall i :: 0 <= i < |w.promotions| ==> w.promotions[i].grant in w.redeemed)
    && (forall e :: e in w.mints ==> e in w.promotions)
    && (w.phase.Stored? ==> NoneFor(w.promotions, w.phase.r.grant))
    && (w.phase.Promoted? || w.phase.Linked? ==>
          Effect(w.phase.r.grant, w.phase.r.member) in w.promotions && NoneFor(w.mints, w.phase.r.grant))
  }

  ghost predicate Inv(w: World) {
    StoreInv(w) && EffectsInv(w)
  }

  lemma StepKeepsStore(w: World, step: Step)
    requires StoreInv(w) && CleanStep(step)
    ensures StoreInv(Do(w, step)) && w.redeemed <= Do(w, step).redeemed
  {
    if step.Store? && w.phase.Accepted? && w.phase.r.grant != "" {
      AppendThenLoad(w.file, w.phase.r.grant);
      LoadAfterAppend(w.file, w.phase.r.grant);
    }
  }

  lemma StepKeepsEffects(w: World, step: Step)
    requires Inv(w) && CleanStep(step)
    ensures EffectsInv(Do(w, step))
  {
    var w' := Do(w, step);
    StepKeepsStore(w, step);
    if step.Promote? && w.phase.Stored? {
      forall i | 0 <= i < |w.mints| ensures w.mints[i].grant != w.phase.r.grant {
        assert w.mints[i] in w.promotions;
      }
    }
  }

  /** A grant redeemed before this run began gets nothing in it. */
  ghost predicate Spent(w: World, spent: set<Grant>) {
    && spent <= w.redeemed
    && (!w.phase.Waiting? ==> w.phase.r.grant !in spent)
    && forall e :: e in w.promotions ==> e.grant !in spent
  }

  lemma StepKeepsSpent(w: World, step: Step, spent: set<Grant>)
    requires StoreInv(w) && CleanStep(step) && Spent(w, spent)
    ensures Spent(Do(w, step), spent)
  {
  }

  /**
   Single use across crashes: over every run of deliveries, replays, failed
   writes that landed or did not, crashes between any two steps and restarts, a
   grant promotes at most once and mints at most once, and a mint means that its
   member was promoted and its grant is in the durable file.
   */
  lemma {:induction false} SingleUse(file: string, steps: seq<Step>)
    requires Terminated(file) && forall step :: step in steps ==> CleanStep(step)
    ensures var w := Exec(Boot(file), steps);
            && Inv(w) && Spent(w, Load(file))
            && (forall i, j :: 0 <= i < j < |w.promotions| ==> w.promotions[i].grant != w.promotions[j].grant)
            && (forall i, j :: 0 <= i < j < |w.mints| ==> w.mints[i].grant != w.mints[j].grant)
            && (forall e :: e in w.mints ==> e in w.promotions && e.grant in Load(w.file))
            && (forall e :: e in w.promotions ==> e.grant in Load(w.file) && e.grant !in Load(file))
    decreases |steps|
  {
    if steps != [] {
      var init, last := steps[..|steps| - 1], steps[|steps| - 1];
      SingleUse(file, init);
      var w := Exec(Boot(file), init);
      StepKeepsStore(w, last);
      StepKeepsEffects(w, last);
      StepKeepsSpent(w, last, Load(file));
    }
  }

  lemma {:induction false} SpentForGood(w: World, spent: set<Grant>, steps: seq<Step>)
    requires Inv(w) && Spent(w, spent) && forall step :: step in steps ==> CleanStep(step)
    ensures Inv(Exec(w, steps)) && Spent(Exec(w, steps), spent)
    decreases |steps|
  {
    if steps != [] {
      var init, last := steps[..|steps| - 1], steps[|steps| - 1];
      SpentForGood(w, spent, init);
      StepKeepsStore(Exec(w, init), last);
      StepKeepsEffects(Exec(w, init), last);
      StepKeepsSpent(Exec(w, init), last, spent);
    }
  }

  /**
   The price of persisting first: a crash right after it consumes the grant, and no later run promotes or funds it.
   */
  lemma CrashAfterStoreUnderGrants(w: World, steps: seq<Step>)
    requires Inv(w) && w.phase.Stored? && forall step :: step in steps ==> CleanStep(step)
    ensures var grant := w.phase.r.grant; var after := Exec(Reopened(w), steps);
            NoneFor(after.promotions, grant) && NoneFor(after.mints, grant)
  {
    var grant := w.phase.r.grant;
    assert Do(w, Crash) == Reopened(w);
    StepKeepsStore(w, Crash);
    StepKeepsEffects(w, Crash);
    forall e | e in w.promotions ensures e.grant !in {grant} { }
    SpentForGood(Reopened(w), {grant}, steps);
    var after := Exec(Reopened(w), steps);
    forall i | 0 <= i < |after.mints| ensures after.mints[i].grant != grant {
      assert after.mints[i] in after.promotions;
    }
  }

  /** The handler's lock: a redeem under way is not displaced by another event, only finished, failed or crashed. */
  lemma UnderWayUntilDone(w: World, step: Step)
    requires !w.phase.Waiting?
    ensures var w' := Do(w, step);
            && (step.Deliver? ==> w' == w)
            && (w'.phase.Waiting? || w'.phase.r == w.phase.r)
            && (w'.phase.Waiting? ==> step.Crash? || step.Store? || step.Promote? || step.Mint?)
  {
  }

  /** Some authentic delivery of the run asked for this effect. */
  ghost predicate Asked(steps: seq<Step>, e: Effect) {
    exists r :: Deliver(r, true) in steps && e == Effect(r.grant, r.member)
  }

  /** The same, of a redeem whose invite carries genesis scrip. */
  ghost predicate AskedToFund(steps: seq<Step>, e: Effect) {
    exists r :: Deliver(r, true) in steps && r.genesis > 0 && e == Effect(r.grant, r.member)
  }

  ghost predicate Traced(w: World, steps: seq<Step>) {
    && (!w.phase.Waiting? ==> Deliver(w.phase.r, true) in steps)
    && (forall e :: e in w.promotions ==> Asked(steps, e))
    && (forall e :: e in w.mints ==> AskedToFund(steps, e))
  }

  lemma StepKeepsTraced(w: World, steps: seq<Step>, step: Step)
    requires Traced(w, steps)
    ensures Traced(Do(w, step), steps + [step])
  {
    forall r | Deliver(r, true) in steps ensures Deliver(r, true) in steps + [step] { }
    forall e | Asked(steps, e) ensures Asked(steps + [step], e) {
      var r :| Deliver(r, true) in steps && e == Effect(r.grant, r.member);
      assert Deliver(r, true) in steps + [step];
    }
    forall e | AskedToFund(steps, e) ensures AskedToFund(steps + [step], e) {
      var r :| Deliver(r, true) in steps && r.genesis > 0 && e == Effect(r.grant, r.member);
      assert Deliver(r, true) in steps + [step];
    }
  }

  /**
   Whose redeem it was: over every run, with forged deliveries among the rest,
   each promotion is of the grant and the member of an earlier authentic
   delivery, and each mint of one whose invite carries scrip.
   */
  lemma {:induction false} EffectsComeFromAuthenticRedeems(file: string, steps: seq<Step>)
    ensures var w := Exec(Boot(file), steps);
            && (forall e :: e in w.promotions ==> Asked(steps, e))
            && (forall e :: e in w.mints ==> AskedToFund(steps, e))
    ensures Traced(Exec(Boot(file), steps), steps)
    decreases |steps|
  {
    if steps != [] {
      var init, last := steps[..|steps| - 1], steps[|steps| - 1];
      EffectsComeFromAuthenticRedeems(file, init);
      StepKeepsTraced(Exec(Boot(file), init), init, last);
      assert init + [last] == steps;
    }
  }

  /** The handler's steps for one event, with nothing in between. */
  function Handled(w: World, r: Redeem, authentic: bool, stored: Outcome, promoted: Outcome, minted: Outcome): World {
    AfterMint(AfterLink(AfterPromote(AfterStore(Delivered(w, r, authentic), stored), promoted)), minted)
  }

  /**
   What one event does, effect by effect: only an authentic redeem of a grant not
   seen before writes the file; only a durable write lets the promotion be tried,
   and only a promotion that did not fail lets the mint be tried.
   */
  lemma EventTakesEffect(w: World, r: Redeem, authentic: bool, stored: Outcome, promoted: Outcome, minted: Outcome)
    requires w.phase.Waiting?
    ensures var w' := Handled(w, r, authentic, stored, promoted, minted);
            var first := authentic && r.grant != "" && r.grant !in w.redeemed;
            var kept := first && stored.Ok?;
            var effect := [Effect(r.grant, r.member)];
            && w'.phase.Waiting?
            && w'.file == (if first && Landed(stored) then w.file + r.grant + "\n" else w.file)
            && w'.redeemed == (if kept then w.redeemed + {r.grant} else w.redeemed)
            && w'.promotions == (if kept && Landed(promoted) then w.promotions + effect else w.promotions)
            && w'.mints == if kept && promoted.Ok? && r.genesis > 0 && Landed(minted) then w.mints + effect
                           else w.mints
  {
  }

  /** A whole redeem in which nothing fails. */
  ghost function Redeemed(w: World, r: Redeem): World {
    Handled(w, r, true, Ok, Ok, Ok)
  }

  /** A redeem replayed after a restart is funded once exactly when its grant id is one line. */
  lemma SingleUseNeedsOneLine(w: World, r: Redeem)
    requires Terminated(w.file) && w.phase.Waiting? && r.grant !in w.redeemed && r.genesis > 0
    requires Trimmed(r.grant) && r.grant != ""
    ensures var replayed := Redeemed(Reopened(Redeemed(w, r)), r); var mint := Effect(r.grant, r.member);
            && (OneLine(r.grant) <==> replayed.mints == w.mints + [mint])
            && (!OneLine(r.grant) <==> replayed.mints == w.mints + [mint, mint])
  {
    EventTakesEffect(w, r, true, Ok, Ok, Ok);
    AppendThenLoad(w.file, r.grant);
    var up := Reopened(Redeemed(w, r));
    EventTakesEffect(up, r, true, Ok, Ok, Ok);
    assert |up.mints| == |w.mints| + 1;
  }

  // ----- The running objects -----

  lemma FirstLine(line: string, rest: string)
    requires OneLine(line) && rest != "" && rest[0] == '\n'
    ensures Lines(line + rest) == [line] + Lines(rest[1..])
  {
    assert line + rest == line + "\n" + rest[1..];
    LinesOfTwo(line, rest[1..]);
    LinesOfOne(line);
  }

  lemma SameText(line: string, rest: string)
    requires rest != ""
    ensures line + rest == line + [rest[0]] + rest[1..]
  {
  }

  /** The scanner: one pass over the text, one line at a time. */
  method ScanLines(text: string) returns (lines: seq<string>)
    ensures lines == Lines(text)
  {
    lines := [];
    var line, rest := "", text;
    assert line + rest == text;
    while rest != ""
      invariant OneLine(line)
      invariant Lines(text) == lines + Lines(line + rest)
      decreases |rest|
    {
      if rest[0] == '\n' {
        FirstLine(line, rest);
        lines := lines + [line];
        line := "";
        assert "" + rest[1..] == rest[1..];
      } else {
        SameText(line, rest);
        line := line + [rest[0]];
      }
      rest := rest[1..];
    }
    assert line + rest == line;
    LinesOfOne(line);
    lines := lines + [line];
  }

  method ScanIds(file: string) returns (ids: set<Grant>)
    ensures ids == Load(file)
  {
    var lines := ScanLines(file);
    ids := {};
    for i := 0 to |lines|
      invariant ids == IdsOf(lines[..i])
    {
      assert lines[..i + 1] == lines[..i] + [lines[i]];
      IdsOfTwo(lines[..i], [lines[i]]);
      if Trim(lines[i]) != "" {
        ids := ids + {Trim(lines[i])};
      }
    }
    assert lines[..|lines|] == lines;
  }

  class RedeemedStore {
    var file: string
    var redeemed: set<Grant>

    ghost predicate Valid()
      reads this
    {
      Terminated(file)
    }

    /** openRedeemedStore: read every line back, and keep the file open for append. */
    constructor (file: string)
      requires Terminated(file)
      ensures Valid() && this.file == file && redeemed == Load(file)
    {
      var ids := ScanIds(file);
      this.file, redeemed := file, ids;
    }

    predicate Has(grant: Grant)
      reads this
    {
      grant in redeemed
    }

    /** Append and sync, then remember; a failed write may have landed, and is not remembered. */
    method Record(grant: Grant, o: Outcome) returns (ok: bool)
      requires Valid()
      modifies this
      ensures Valid()
      ensures var id := Trim(grant); var wrote := id != "" && id !in old(redeemed);
              && ok == (id != "" && (id in old(redeemed) || o.Ok?))
              && file == (if wrote && Landed(o) then old(file) + id + "\n" else old(file))
              && redeemed == if ok then old(redeemed) + {id} else old(redeemed)
    {
      var id := Trim(grant);
      if id == "" {
        return false;
      }
      if id in redeemed {
        return true;
      }
      if Landed(o) {
        LoadAfterAppend(file, id);
        file := file + id + "\n";
      }
      ok := o.Ok?;
      if ok {
        redeemed := redeemed + {id};
      }
    }
  }

  class RedeemHandler {
    const store: RedeemedStore
    var promotions: seq<Effect>
    var mints: seq<Effect>

    ghost function View(): World
      reads this, store
    {
      World(store.file, store.redeemed, Waiting, promotions, mints)
    }

    constructor (store: RedeemedStore)
      ensures this.store == store && promotions == [] && mints == []
    {
      this.store := store;
      promotions, mints := [], [];
    }

    /**
     One event from the relay, with how its durable write, its promotion and its mint turn out; the result lets the
     reader's cursor move.
     */
    method Handle(r: Redeem, authentic: bool, stored: Outcome, promoted: Outcome, minted: Outcome)
          returns (advance: bool)
      requires store.Valid() && Trimmed(r.grant)
      modifies this, store
      ensures store.Valid() && advance == authentic
      ensures View() == Handled(old(View()), r, authentic, stored, promoted, minted)
      ensures !authentic ==> unchanged(this) && unchanged(store)
    {
      EventTakesEffect(View(), r, authentic, stored, promoted, minted);
      if !authentic {
        return false;
      }
      advance := true;
      if store.Has(r.grant) {
        return;
      }
      TrimIsTrimmed(r.grant);
      var ok := store.Record(r.grant, stored);
      if !ok {
        return;
      }
      if Landed(promoted) {
        promotions := promotions + [Effect(r.grant, r.member)];
      }
      if promoted.Failed? {
        return;
      }
      if r.genesis > 0 && Landed(minted) {
        mints := mints + [Effect(r.grant, r.member)];
      }
    }
  }
}
