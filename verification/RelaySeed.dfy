/**
 One relay leg across restarts: the intake that persists relay events once, the
 outbox that publishes operator records under content-hash ids, and the two
 in-memory structures a restart rebuilds from the log alone: the set of ids
 already seen and the map from wire ids to store ids.
 */
module RelaySeed {
  import opened Wrappers

  /**
   What an operator record says: an id for its text, whether it inlines plaintext inventory, and whether it can be
   signed at all.
   */
  datatype Body = Body(text: nat, plaintext: bool, signable: bool)

  /** A wire id is a hash of the signed body; only the operator's key makes `Signed` ones. */
  datatype Id = Signed(body: Body) | Foreign(hash: nat) | Local(n: nat)

  datatype Record =
    | OperatorRecord(id: Id, body: Body)
    | RelayRecord(id: Id)

  /** signedEventID: the id under which the outbox publishes an operator record. */
  function WireId(body: Body): Option<Id> {
    if body.signable then Some(Signed(body)) else None
  }

  // ----- What a restart reads from the log -----

  ghost function SeedIds(log: seq<Record>): set<Id>
    decreases |log|
  {
    if log == [] then {} else SeedIds(log[..|log| - 1]) + IdsOf(log[|log| - 1])
  }

  function IdsOf(rec: Record): set<Id> {
    {rec.id} + if rec.OperatorRecord? && WireId(rec.body).Some? then {WireId(rec.body).value} else {}
  }

  /** RegisterWireAlias: the first store id under a wire id is kept. */
  function Registered(alias: map<Id, Id>, wire: Id, store: Id): map<Id, Id> {
    if wire == store || wire in alias then alias else alias[wire := store]
  }

  function RegisteredFor(alias: map<Id, Id>, rec: Record): map<Id, Id> {
    if rec.OperatorRecord? && WireId(rec.body).Some? then Registered(alias, WireId(rec.body).value, rec.id) else alias
  }

  function SeedAlias(log: seq<Record>): map<Id, Id>
    decreases |log|
  {
    if log == [] then map[] else RegisteredFor(SeedAlias(log[..|log| - 1]), log[|log| - 1])
  }

  /** resolveAlias. */
  function Resolve(alias: map<Id, Id>, id: Id): Id {
    if id in alias then alias[id] else id
  }

  /** The operator's records, as the outbox counts them. */
  function OperatorRecords(log: seq<Record>): (ops: seq<Record>)
    ensures forall rec :: rec in ops ==> rec.OperatorRecord?
    decreases |log|
  {
    if log == [] then []
    else OperatorRecords(log[..|log| - 1]) + if log[|log| - 1].OperatorRecord? then [log[|log| - 1]] else []
  }

  // ----- The leg, step by step -----

  /**
   Durable: `log` and `cursor` (operator records handled).  On the relay: `relay`,
   every event id it may serve.  In memory: the sequencer's `emitted` and
   `buffered`, the batch the intake is about to persist, the record the outbox is
   publishing, and the alias map.
   */
  datatype Leg = Leg(log: seq<Record>, cursor: nat, relay: set<Id>,
                     emitted: set<Id>, buffered: set<Id>, batch: seq<Id>, publishing: Option<Id>, alias: map<Id, Id>)

  datatype Step =
    | Append(rec: Record)
    | Arrive(hash: nat)
    | Receive(id: Id, evicted: set<Id>)
    | Drain(released: seq<Id>)
    | Persist(landed: bool)
    | Mark
    | Publish
    | Advance
    | GiveUp
    | Fence
    | Restart

  function Current(l: Leg): Option<Record> {
    var ops := OperatorRecords(l.log);
    if l.cursor < |ops| then Some(ops[l.cursor]) else None
  }

  ghost predicate Distinct(ids: seq<Id>) {
    forall i, j :: 0 <= i < j < |ids| ==> ids[i] != ids[j]
  }

  ghost predicate Enabled(l: Leg, step: Step) {
    match step
    case Append(rec) => rec.OperatorRecord? && !rec.id.Foreign?
    case Arrive(_) => true
    case Receive(id, evicted) => id in l.relay && evicted <= l.buffered
    case Drain(released) => l.batch == [] && Distinct(released) && forall id :: id in released ==> id in l.buffered
    case Persist(_) => true
    case Mark => l.publishing.None? && Current(l).Some? && !Current(l).value.body.plaintext
        && Current(l).value.body.signable
    case Publish => l.publishing.Some?
    case Advance => l.publishing.Some? && Current(l).Some?
    case GiveUp => true
    case Fence => l.publishing.None? && Current(l).Some? && Current(l).value.body.plaintext
    case Restart => true
  }

  /** IngestLive: a duplicate of anything released or waiting is dropped; a full buffer evicts. */
  function Received(l: Leg, id: Id, evicted: set<Id>): Leg {
    if id in l.emitted || id in l.buffered then l else l.(buffered := l.buffered - evicted + {id})
  }

  function Drained(l: Leg, released: seq<Id>): Leg {
    var ids := set id | id in released;
    l.(emitted := l.emitted + ids, buffered := l.buffered - ids, batch := released)
  }

  function Persisted(l: Leg, landed: bool): Leg {
    l.(batch := [], log := if landed then l.log + RelayRecords(l.batch) else l.log)
  }

  function RelayRecords(ids: seq<Id>): (recs: seq<Record>)
    ensures |recs| == |ids| && forall i :: 0 <= i < |ids| ==> recs[i] == RelayRecord(ids[i])
  {
    seq(|ids|, i requires 0 <= i < |ids| => RelayRecord(ids[i]))
  }

  /** The seed and the alias strictly before the publish. */
  function Marked(l: Leg): Leg
    requires Current(l).Some?
  {
    var rec := Current(l).value;
    if rec.OperatorRecord? && WireId(rec.body).Some? then
      var wire := WireId(rec.body).value;
      l.(emitted := l.emitted + {wire}, alias := RegisteredFor(l.alias, rec), publishing := Some(wire))
    else l
  }

  ghost function Restarted(l: Leg): Leg {
    Leg(l.log, l.cursor, l.relay, SeedIds(l.log), {}, [], None, SeedAlias(l.log))
  }

  /** A step that is not enabled does nothing. */
  ghost function Do(l: Leg, step: Step): Leg {
    if !Enabled(l, step) then l
    else
      match step
      case Append(rec) => l.(log := l.log + [rec])
      case Arrive(hash) => l.(relay := l.relay + {Foreign(hash)})
      case Receive(id, evicted) => Received(l, id, evicted)
      case Drain(released) => Drained(l, released)
      case Persist(landed) => Persisted(l, landed)
      case Mark => Marked(l)
      case Publish => l.(relay := l.relay + {l.publishing.value})
      case Advance => l.(publishing := None, cursor := l.cursor + 1)
      case GiveUp => l.(publishing := None)
      case Fence => l.(cursor := l.cursor + 1)
      case Restart => Restarted(l)
  }

  ghost function Exec(l: Leg, steps: seq<Step>): Leg
    decreases |steps|
  {
    if steps == [] then l else Do(Exec(l, steps[..|steps| - 1]), steps[|steps| - 1])
  }

  /** A first attach: a log written while the operator was alone, and a cursor that may already be past part of it. */
  ghost predicate SoloLog(log: seq<Record>, cursor: nat) {
    cursor <= |OperatorRecords(log)| && forall rec :: rec in log ==> rec.OperatorRecord? && !rec.id.Foreign?
  }

  ghost function Attached(log: seq<Record>, cursor: nat): Leg {
    Leg(log, cursor, {}, SeedIds(log), {}, [], None, SeedAlias(log))
  }

  // ----- Nothing is ingested twice, and no echo is -----

  ghost predicate OncePerId(log: seq<Record>) {
    forall i, j :: 0 <= i < j < |log| && log[i].RelayRecord? && log[j].RelayRecord? ==> log[i].id != log[j].id
  }

  ghost predicate Emitted(log: seq<Record>, ids: set<Id>) {
    forall i :: 0 <= i < |log| && log[i].RelayRecord? ==> log[i].id in ids && log[i].id.Foreign?
  }

  /** A published id is in the seen set, and will be again after any restart, because its record is in the log. */
  ghost predicate KnownWire(l: Leg, id: Id) {
    id.Signed? ==> id in l.emitted && exists rec :: rec in l.log && rec.OperatorRecord? && WireId(rec.body) == Some(id)
  }

  ghost predicate InFlight(l: Leg) {
    && Distinct(l.batch)
    && (forall id :: id in l.batch ==> id in l.emitted && id.Foreign? && forall i :: 0 <= i < |l.log| ==>
          l.log[i].id != id)
    && (forall id :: id in l.buffered ==> id !in l.emitted && id.Foreign?)
  }

  ghost predicate DedupInv(l: Leg) {
    && OncePerId(l.log) && Emitted(l.log, l.emitted) && InFlight(l)
    && (forall id :: id in l.relay ==> KnownWire(l, id) && !id.Local?)
    && (l.publishing.Some? ==> l.publishing.value.Signed? && KnownWire(l, l.publishing.value))
    && (forall i :: 0 <= i < |l.log| && l.log[i].OperatorRecord? ==> !l.log[i].id.Foreign?)
  }

  lemma {:induction false} SeedKnows(log: seq<Record>, rec: Record)
    requires rec in log
    ensures IdsOf(rec) <= SeedIds(log)
    decreases |log|
  {
    if rec != log[|log| - 1] { SeedKnows(log[..|log| - 1], rec); }
  }

  lemma {:induction false} OperatorRecordsAreLogged(log: seq<Record>)
    ensures forall rec :: rec in OperatorRecords(log) <==> rec in log && rec.OperatorRecord?
    decreases |log|
  {
    if log != [] {
      OperatorRecordsAreLogged(log[..|log| - 1]);
      assert log == log[..|log| - 1] + [log[|log| - 1]];
    }
  }

  lemma RestartKeepsDedup(l: Leg)
    requires DedupInv(l)
    ensures DedupInv(Restarted(l))
  {
    forall i | 0 <= i < |l.log| ensures IdsOf(l.log[i]) <= SeedIds(l.log) {
      SeedKnows(l.log, l.log[i]);
    }
    forall id | KnownWire(l, id) ensures KnownWire(Restarted(l), id) {
      if id.Signed? {
        var rec :| rec in l.log && rec.OperatorRecord? && WireId(rec.body) == Some(id);
        SeedKnows(l.log, rec);
      }
    }
  }

  lemma IntakeKeepsDedup(l: Leg, step: Step)
    requires DedupInv(l) && (step.Receive? || step.Drain? || step.Arrive?)
    ensures DedupInv(Do(l, step))
  {
  }

  lemma PersistKeepsDedup(l: Leg, landed: bool)
    requires DedupInv(l)
    ensures DedupInv(Persisted(l, landed))
  {
  }

  lemma OutboxKeepsDedup(l: Leg, step: Step)
    requires DedupInv(l) && (step.Append? || step.Mark? || step.Publish? || step.Advance? || step.GiveUp?
             || step.Fence?)
    ensures DedupInv(Do(l, step))
  {
    OperatorRecordsAreLogged(l.log);
    forall id | KnownWire(l, id) ensures KnownWire(Do(l, step), id) {
      if id.Signed? {
        var rec :| rec in l.log && rec.OperatorRecord? && WireId(rec.body) == Some(id);
        assert rec in Do(l, step).log;
      }
    }
  }

  lemma StepKeepsDedup(l: Leg, step: Step)
    requires DedupInv(l)
    ensures DedupInv(Do(l, step))
  {
    match step {
      case Restart => RestartKeepsDedup(l);
      case Persist(landed) => PersistKeepsDedup(l, landed);
      case Receive(_, _) => IntakeKeepsDedup(l, step);
      case Drain(_) => IntakeKeepsDedup(l, step);
      case Arrive(_) => IntakeKeepsDedup(l, step);
      case _ => OutboxKeepsDedup(l, step);
    }
  }

  /**
   Over every run of publishes, retries, redeliveries, evictions, failed or
   landed-but-failed persists and restarts anywhere: no relay event id is in the
   log twice, and no event the operator itself published ever came back in.
   */
  lemma {:induction false} NothingTwice(solo: seq<Record>, cursor: nat, steps: seq<Step>)
    requires SoloLog(solo, cursor)
    ensures var l := Exec(Attached(solo, cursor), steps);
            && DedupInv(l) && OncePerId(l.log)
            && (forall i :: 0 <= i < |l.log| && l.log[i].RelayRecord? ==> l.log[i].id.Foreign?)
            && (forall id: Id, evicted: set<Id> :: id.Signed? && id in l.relay && evicted <= l.buffered ==>
                  Received(l, id, evicted) == l)
    decreases |steps|
  {
    if steps != [] {
      NothingTwice(solo, cursor, steps[..|steps| - 1]);
      StepKeepsDedup(Exec(Attached(solo, cursor), steps[..|steps| - 1]), steps[|steps| - 1]);
    }
    var l := Exec(Attached(solo, cursor), steps);
    forall id: Id, evicted: set<Id> | id.Signed? && id in l.relay && evicted <= l.buffered
      ensures Received(l, id, evicted) == l {
      assert KnownWire(l, id);
    }
  }

  // ----- What does get through -----

  /** An event the relay serves, not seen since the start, is in the log once after one delivery, whatever waited. */
  lemma EventIsIngested(l: Leg, id: Id, evicted: set<Id>)
    requires DedupInv(l) && id in l.relay && id !in l.emitted && l.batch == [] && evicted <= l.buffered - {id}
    ensures var received := Do(l, Receive(id, evicted));
            var l' := Do(Do(received, Drain([id])), Persist(true));
            && received.buffered == (if id in l.buffered then l.buffered else l.buffered - evicted + {id})
            && l' == l.(log := l.log + [RelayRecord(id)], emitted := l.emitted + {id},
                        buffered := received.buffered - {id})
            && forall rec :: rec in l.log ==> rec != RelayRecord(id)
  {
    var received := Do(l, Receive(id, evicted));
    var drained := Do(received, Drain([id]));
    assert drained.batch == [id] && RelayRecords([id]) == [RelayRecord(id)];
  }

  /** What a full buffer evicts is not lost: the relay still serves it, and the next delivery takes it in. */
  lemma EvictedComesBack(l: Leg, id: Id, other: Id)
    requires DedupInv(l) && id in l.buffered && other in l.relay && other !in l.emitted && other !in l.buffered
    ensures var l' := Do(l, Receive(other, {id}));
            id !in l'.buffered && id !in l'.emitted && (id in l.relay ==> id in Do(l', Receive(id, {})).buffered)
  {
  }

  /** Seen, not waiting, not about to be persisted, and not in the log. */
  ghost predicate Missed(l: Leg, id: Id) {
    id in l.emitted && id !in l.buffered && id !in l.batch && forall rec :: rec in l.log ==> rec != RelayRecord(id)
  }

  lemma StepKeepsMissed(l: Leg, step: Step, id: Id)
    requires Missed(l, id) && !step.Restart?
    ensures Missed(Do(l, step), id)
  {
    var l' := Do(l, step);
    if step.Persist? && step.landed {
      forall rec | rec in RelayRecords(l.batch) ensures rec != RelayRecord(id) {
        var i :| 0 <= i < |l.batch| && RelayRecords(l.batch)[i] == rec;
        assert l.batch[i] in l.batch;
      }
    }
  }

  /**
   A batch whose persist fails without landing is gone for this process: its
   events count as seen, and however often the relay delivers them again, none is
   logged before a restart.
   */
  lemma {:induction false} FailedPersistIsMissed(l: Leg, id: Id, steps: seq<Step>)
    requires DedupInv(l) && id in l.batch && forall step :: step in steps ==> !step.Restart?
    ensures Missed(Exec(Do(l, Persist(false)), steps), id)
    decreases |steps|
  {
    if steps != [] {
      FailedPersistIsMissed(l, id, steps[..|steps| - 1]);
      StepKeepsMissed(Exec(Do(l, Persist(false)), steps[..|steps| - 1]), steps[|steps| - 1], id);
    }
  }

  lemma {:induction false} SeedsOnlyTheLogged(log: seq<Record>, id: Id)
    requires id.Foreign? && forall rec :: rec in log ==> rec.id != id
    ensures id !in SeedIds(log)
    decreases |log|
  {
    if log != [] {
      SeedsOnlyTheLogged(log[..|log| - 1], id);
      assert log[|log| - 1] in log;
    }
  }

  /** And the restart that ends it lets the next delivery in. */
  lemma RestartTakesMissed(l: Leg, id: Id)
    requires DedupInv(l) && Missed(l, id) && id.Foreign? && id in l.relay
    ensures var up := Do(l, Restart); up.batch == [] && id !in up.emitted && id in Do(up, Receive(id, {})).buffered
  {
    forall rec | rec in l.log ensures rec.id != id {
      assert rec.RelayRecord? ==> rec == RelayRecord(rec.id);
    }
    SeedsOnlyTheLogged(l.log, id);
  }

  /**
   The outbox's turn: a record that may leave is known by its wire id and mapped
   before it is on the relay, is published, and counted; one that fails is tried
   again; a fenced one is counted and never published.
   */
  lemma RecordIsPublished(l: Leg)
    requires Current(l).Some? && l.publishing.None?
    ensures var rec := Current(l).value; var wire := Signed(rec.body);
            var marked := Do(l, Mark);
            var done := Do(Do(marked, Publish), Advance);
            if rec.body.plaintext then marked == l && Do(l, Fence) == l.(cursor := l.cursor + 1)
            else if !rec.body.signable then marked == l && Do(l, Fence) == l
            else && marked == l.(emitted := l.emitted + {wire}, publishing := Some(wire), alias := marked.alias)
                 && (wire in marked.alias || rec.id == wire)
                 && (forall x :: x in l.alias ==> x in marked.alias && marked.alias[x] == l.alias[x])
                 && (forall x :: x in marked.alias && x !in l.alias ==> x == wire && marked.alias[x] == rec.id)
                 && done == marked.(relay := l.relay + {wire}, publishing := None, cursor := l.cursor + 1)
                 && Do(marked, GiveUp) == marked.(publishing := None)
                 && Do(Do(marked, GiveUp), Mark) == marked && Do(l, Fence) == l
  {
    assert forall rec :: rec in OperatorRecords(l.log) ==> rec.OperatorRecord?;
    assert Current(l).value in OperatorRecords(l.log);
  }

  /** What reaches the relay from elsewhere, and what the operator writes, is there to be delivered and published. */
  lemma ArrivalsAndAppends(l: Leg, hash: nat, rec: Record)
    requires rec.OperatorRecord? && !rec.id.Foreign?
    ensures Do(l, Arrive(hash)) == l.(relay := l.relay + {Foreign(hash)})
    ensures var l' := Do(l, Append(rec));
            && l' == l.(log := l.log + [rec])
            && (l.cursor == |OperatorRecords(l.log)| ==> Current(l') == Some(rec))
  {
    OperatorRecordsOneMore(l.log, rec);
  }

  // ----- The alias map -----

  /** Whether a record would register its wire id. */
  predicate Names(rec: Record, wire: Id) {
    rec.OperatorRecord? && WireId(rec.body) == Some(wire) && rec.id != wire
  }

  lemma SeedAliasOneMore(log: seq<Record>, rec: Record)
    ensures SeedAlias(log + [rec]) == RegisteredFor(SeedAlias(log), rec)
  {
  }

  lemma OperatorRecordsOneMore(log: seq<Record>, rec: Record)
    ensures OperatorRecords(log + [rec]) == if rec.OperatorRecord? then OperatorRecords(log) + [rec]
            else OperatorRecords(log)
  {
  }

  /** Records that are not the operator's leave the map alone, so it is the same over the operator's records only. */
  lemma {:induction false} SeedAliasOverOperators(log: seq<Record>)
    ensures SeedAlias(log) == SeedAlias(OperatorRecords(log))
    decreases |log|
  {
    if log != [] {
      var init, last := log[..|log| - 1], log[|log| - 1];
      SeedAliasOverOperators(init);
      assert log == init + [last];
      OperatorRecordsOneMore(init, last);
      SeedAliasOneMore(OperatorRecords(init), last);
    }
  }

  lemma {:induction false} OperatorRecordsSkip(log: seq<Record>, k: nat)
    requires k <= |log| && forall i :: k <= i < |log| ==> log[i].RelayRecord?
    ensures OperatorRecords(log) == OperatorRecords(log[..k])
    decreases |log|
  {
    if k == |log| {
      assert log[..k] == log;
    } else {
      var init := log[..|log| - 1];
      assert init[..k] == log[..k];
      OperatorRecordsSkip(init, k);
    }
  }

  /** First wins: what a prefix of the log registered, the whole log keeps. */
  lemma {:induction false} SeedAliasKeeps(log: seq<Record>, k: nat, wire: Id)
    requires k <= |log| && wire in SeedAlias(log[..k])
    ensures wire in SeedAlias(log) && SeedAlias(log)[wire] == SeedAlias(log[..k])[wire]
    decreases |log|
  {
    if k == |log| {
      assert log[..k] == log;
    } else {
      assert log[..|log| - 1][..k] == log[..k];
      SeedAliasKeeps(log[..|log| - 1], k, wire);
    }
  }

  lemma {:induction false} UnnamedIsAbsent(log: seq<Record>, wire: Id)
    requires forall j :: 0 <= j < |log| ==> !Names(log[j], wire)
    ensures wire !in SeedAlias(log)
    decreases |log|
  {
    if log != [] { UnnamedIsAbsent(log[..|log| - 1], wire); }
  }

  /** Every named wire id is in the rebuilt map, and the first record to name it decides. */
  lemma SeedAliasIsFirst(log: seq<Record>, i: nat, wire: Id)
    requires i < |log| && Names(log[i], wire)
    ensures wire in SeedAlias(log)
    ensures (forall j :: 0 <= j < i ==> !Names(log[j], wire)) ==> SeedAlias(log)[wire] == log[i].id
  {
    assert log[..i + 1] == log[..i] + [log[i]];
    SeedAliasOneMore(log[..i], log[i]);
    SeedAliasKeeps(log, i + 1, wire);
    if forall j :: 0 <= j < i ==> !Names(log[j], wire) { UnnamedIsAbsent(log[..i], wire); }
  }

  /** The live map says nothing the log would not, and lacks no record the outbox has passed unless it was fenced. */
  ghost predicate AliasInv(l: Leg) {
    var ops := OperatorRecords(l.log);
    && l.cursor <= |ops|
    && (forall wire :: wire in l.alias ==> wire in SeedAlias(ops) && SeedAlias(ops)[wire] == l.alias[wire])
    && (forall i, wire :: 0 <= i < l.cursor && Names(ops[i], wire) && !ops[i].body.plaintext ==> wire in l.alias)
    && (l.publishing.Some? ==>
          && l.cursor < |ops| && WireId(ops[l.cursor].body) == l.publishing
          && (l.publishing.value in l.alias || ops[l.cursor].id == l.publishing.value))
  }

  /** The record being published is the first the live map sees under its wire id, and the first in the log too. */
  lemma MarkKeepsAlias(l: Leg)
    requires AliasInv(l) && Enabled(l, Mark)
    ensures AliasInv(Marked(l))
  {
    var ops := OperatorRecords(l.log);
    var rec := ops[l.cursor];
    assert rec in ops;
    var wire := Signed(rec.body);
    if wire !in l.alias && rec.id != wire {
      forall j | 0 <= j < l.cursor ensures !Names(ops[j], wire) {
        assert ops[j] in ops;
      }
      SeedAliasIsFirst(ops, l.cursor, wire);
    }
  }

  lemma AppendKeepsAlias(l: Leg, rec: Record)
    requires AliasInv(l)
    ensures AliasInv(Do(l, Append(rec)))
  {
  }

  lemma RestartKeepsAlias(l: Leg)
    requires l.cursor <= |OperatorRecords(l.log)|
    ensures AliasInv(Restarted(l))
  {
    var ops := OperatorRecords(l.log);
    SeedAliasOverOperators(l.log);
    forall i, wire | 0 <= i < l.cursor && Names(ops[i], wire) ensures wire in SeedAlias(ops) {
      SeedAliasIsFirst(ops, i, wire);
    }
  }

  lemma StepKeepsAlias(l: Leg, step: Step)
    requires AliasInv(l)
    ensures AliasInv(Do(l, step))
  {
    match step {
      case Append(rec) => AppendKeepsAlias(l, rec);
      case Mark => if Enabled(l, Mark) { MarkKeepsAlias(l); }
      case Restart => RestartKeepsAlias(l);
      case Persist(landed) =>
        var grown := l.log + RelayRecords(l.batch);
        assert grown[..|l.log|] == l.log;
        OperatorRecordsSkip(grown, |l.log|);
      case _ =>
    }
  }

  /**
   Over every run, a restart at any point rebuilds a map that resolves every id
   the live map resolved to the same store id; what it adds is only ids of
   records not yet published or fenced from publication.
   */
  lemma {:induction false} RebuiltAliasAgrees(solo: seq<Record>, cursor: nat, steps: seq<Step>)
    requires SoloLog(solo, cursor)
    ensures var l := Exec(Attached(solo, cursor), steps); var rebuilt := Restarted(l).alias;
            var ops := OperatorRecords(l.log);
            && AliasInv(l)
            && (forall wire :: wire in l.alias ==> wire in rebuilt && Resolve(rebuilt, wire) == Resolve(l.alias, wire))
            && (forall i, wire :: 0 <= i < |ops| && Names(ops[i], wire) && wire !in l.alias ==>
                  i >= l.cursor || ops[i].body.plaintext)
    decreases |steps|
  {
    if steps != [] {
      RebuiltAliasAgrees(solo, cursor, steps[..|steps| - 1]);
      StepKeepsAlias(Exec(Attached(solo, cursor), steps[..|steps| - 1]), steps[|steps| - 1]);
    } else {
      RestartKeepsAlias(Attached(solo, cursor));
    }
    SeedAliasOverOperators(Exec(Attached(solo, cursor), steps).log);
  }

  // ----- What a buyer's reference resolves to -----

  /** `store` is the id of a record the operator published, or would publish, as `wire`. */
  ghost predicate NamedBy(log: seq<Record>, wire: Id, store: Id) {
    exists rec :: rec in log && rec.OperatorRecord? && WireId(rec.body) == Some(wire) && rec.id == store
  }

  lemma {:induction false} SeedAliasNames(log: seq<Record>, wire: Id)
    requires wire in SeedAlias(log)
    ensures wire.Signed? && NamedBy(log, wire, SeedAlias(log)[wire])
    decreases |log|
  {
    var init, last := log[..|log| - 1], log[|log| - 1];
    assert last in log;
    if wire in SeedAlias(init) {
      SeedAliasNames(init, wire);
      var rec :| rec in init && rec.OperatorRecord? && WireId(rec.body) == Some(wire)
          && rec.id == SeedAlias(init)[wire];
      assert rec in log;
    }
  }

  ghost predicate Resolvable(l: Leg, id: Id) {
    id.Signed? ==> id in l.alias || NamedBy(l.log, id, id)
  }

  ghost predicate ResolveInv(l: Leg) {
    AliasInv(l) && forall id :: id in l.relay ==> Resolvable(l, id)
  }

  /** Nothing ever makes a mapped id resolve to another record, a restart included. */
  lemma StepKeepsResolution(l: Leg, step: Step)
    requires AliasInv(l)
    ensures forall wire :: wire in l.alias ==> wire in Do(l, step).alias && Do(l, step).alias[wire] == l.alias[wire]
  {
    if step.Restart? { SeedAliasOverOperators(l.log); }
  }

  lemma LogGrows(l: Leg, step: Step, wire: Id, store: Id)
    requires NamedBy(l.log, wire, store)
    ensures NamedBy(Do(l, step).log, wire, store)
  {
    var rec :| rec in l.log && rec.OperatorRecord? && WireId(rec.body) == Some(wire) && rec.id == store;
    assert rec in Do(l, step).log;
  }

  lemma PublishingIsResolvable(l: Leg)
    requires AliasInv(l) && l.publishing.Some?
    ensures Resolvable(l, l.publishing.value)
  {
    OperatorRecordsAreLogged(l.log);
    assert OperatorRecords(l.log)[l.cursor] in l.log;
  }

  lemma StepKeepsResolvable(l: Leg, step: Step)
    requires ResolveInv(l)
    ensures ResolveInv(Do(l, step))
  {
    StepKeepsAlias(l, step);
    StepKeepsResolution(l, step);
    if l.publishing.Some? { PublishingIsResolvable(l); }
    forall id | id in Do(l, step).relay && id.Signed? ensures Resolvable(Do(l, step), id) {
      assert Resolvable(l, id);
      if id !in l.alias { LogGrows(l, step, id, id); }
    }
  }

  lemma {:induction false} RunKeepsResolvable(l: Leg, steps: seq<Step>)
    requires ResolveInv(l)
    ensures ResolveInv(Exec(l, steps))
    ensures forall wire :: wire in l.alias ==>
            wire in Exec(l, steps).alias && Exec(l, steps).alias[wire] == l.alias[wire]
    decreases |steps|
  {
    if steps != [] {
      var mid := Exec(l, steps[..|steps| - 1]);
      RunKeepsResolvable(l, steps[..|steps| - 1]);
      StepKeepsResolvable(mid, steps[|steps| - 1]);
      StepKeepsResolution(mid, steps[|steps| - 1]);
    }
  }

  lemma ResolvesToItsRecord(l: Leg, id: Id)
    requires ResolveInv(l)
    ensures id in l.alias || (id in l.relay && id.Signed?) ==> NamedBy(l.log, id, Resolve(l.alias, id))
    ensures !id.Signed? ==> Resolve(l.alias, id) == id
  {
    OperatorRecordsAreLogged(l.log);
    if id in l.alias {
      SeedAliasNames(OperatorRecords(l.log), id);
      var rec :| rec in OperatorRecords(l.log) && rec.OperatorRecord? && WireId(rec.body) == Some(id)
          && rec.id == l.alias[id];
      assert rec in l.log;
    } else if id in l.relay {
      assert Resolvable(l, id);
    }
  }

  /**
   At every point of every run, whatever operator event a buyer can have seen on
   the relay resolves to the store id of a logged record that hashes to it, and
   an id that is not the operator's to itself; and once an id is mapped, no
   later step, restarts included, makes it resolve to anything else.
   */
  lemma PublishedResolvesForGood(solo: seq<Record>, cursor: nat, steps: seq<Step>, later: seq<Step>, id: Id)
    requires SoloLog(solo, cursor)
    ensures var l := Exec(Attached(solo, cursor), steps); var l' := Exec(l, later);
            && (id.Signed? && id in l.relay ==> NamedBy(l.log, id, Resolve(l.alias, id)))
            && (!id.Signed? ==> Resolve(l.alias, id) == id)
            && (id in l.alias ==> Resolve(l'.alias, id) == Resolve(l.alias, id))
  {
    RestartKeepsAlias(Attached(solo, cursor));
    RunKeepsResolvable(Attached(solo, cursor), steps);
    RunKeepsResolvable(Exec(Attached(solo, cursor), steps), later);
    ResolvesToItsRecord(Exec(Attached(solo, cursor), steps), id);
  }

  // ----- The running objects -----

  /** The exchange state's alias map. */
  class State {
    var wireToStore: map<Id, Id>

    constructor ()
      ensures wireToStore == map[]
    {
      wireToStore := map[];
    }

    method RegisterWireAlias(wire: Id, store: Id)
      modifies this
      ensures wireToStore == Registered(old(wireToStore), wire, store)
      ensures wire in old(wireToStore) ==> wireToStore == old(wireToStore)
    {
      if wire == store {
        return;
      }
      if wire in wireToStore {
        return;
      }
      wireToStore := wireToStore[wire := store];
    }
  }

  /** seedEmittedFromStore: one pass over the log rebuilds both structures. */
  method SeedEmittedFromStore(log: seq<Record>, state: State) returns (emitted: set<Id>)
    requires state.wireToStore == map[]
    modifies state
    ensures emitted == SeedIds(log)
    ensures state.wireToStore == SeedAlias(log)
  {
    emitted := {};
    for i := 0 to |log|
      invariant emitted == SeedIds(log[..i])
      invariant state.wireToStore == SeedAlias(log[..i])
    {
      ghost var seen := log[..i + 1];
      assert seen[..|seen| - 1] == log[..i] && seen[|seen| - 1] == log[i];
      var rec := log[i];
      emitted := emitted + {rec.id};
      if rec.OperatorRecord? {
        var wire := WireId(rec.body);
        if wire.Some? {
          emitted := emitted + {wire.value};
          state.RegisterWireAlias(wire.value, rec.id);
        }
      }
    }
    assert log[..|log|] == log;
  }
}
