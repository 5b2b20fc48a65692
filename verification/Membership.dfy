/**
 The operator's durable fleet configuration: the allowlist, the revocation
 tombstones, and the parent/child edges of delegated admission.

 Keys are lowercase hex; an allowlist entry may still spell its key as an npub,
 or be junk that decodes to no key.
 */
module Membership {
  import opened Wrappers

  type Key = string

  /**
   An entry as it stands on disk.  normalizeToHex takes any text that does not
   start like an npub for a key, itself, so that is `Hex` whether or not it is
   one; only an npub that does not decode is `Junk`, which it refuses.
   */
  datatype Entry =
    | Hex(key: Key)
    | Npub(key: Key)
    | Junk(text: string)

  datatype Config = Config(fleet: seq<Entry>, revoked: seq<Entry>, grants: map<Key, Key>)

  /** normalizeToHex. */
  function Norm(e: Entry): Option<Key> {
    if e.Junk? then None else Some(e.key)
  }

  /** Two entries that stand for one key, or are the same unusable text. */
  predicate Same(e: Entry, f: Entry) {
    e == f || (Norm(e).Some? && Norm(e) == Norm(f))
  }

  /** What dropHexEntry takes as a match: the normalized key, or the text as it stands on disk. */
  predicate Matches(e: Entry, target: Entry) {
    if target.Hex? then Norm(e) == Some(target.key) else e == target
  }

  /** A target is a hex key, or text kept as it stands because it decodes to none. */
  predicate Canonical(target: Entry) {
    !target.Npub?
  }

  predicate InList(list: seq<Entry>, target: Entry) {
    target.Hex? && exists e :: e in list && Norm(e) == Some(target.key)
  }

  function Drop(list: seq<Entry>, target: Entry): (kept: seq<Entry>)
    ensures forall e :: e in kept <==> e in list && !Matches(e, target)
    decreases |list|
  {
    if list == [] then []
    else
      var init, last := list[..|list| - 1], list[|list| - 1];
      assert list == init + [last];
      Drop(init, target) + if Matches(last, target) then [] else [last]
  }

  datatype Action = Add | Remove

  /** mutateAllowlistConfig. */
  function Mutated(c: Config, action: Action, target: Entry): Config {
    match action
    case Add =>
      c.(fleet := if InList(c.fleet, target) then c.fleet else c.fleet + [target], revoked := Drop(c.revoked, target))
    case Remove =>
      c.(fleet := Drop(c.fleet, target), revoked := if InList(c.revoked, target) then c.revoked
          else c.revoked + [target])
  }

  // ----- Delegated admission -----

  datatype Role = Operator | Parent | Unauthorized

  /** newIssuerAuthorizer: a key that was itself admitted as a child may not issue. */
  function RoleOf(c: Config, operator: Key, issuer: Key): Role {
    if issuer == "" then Unauthorized
    else if issuer == operator then Operator
    else if issuer in c.grants then Unauthorized
    else if InList(c.fleet, Hex(issuer)) then Parent
    else Unauthorized
  }

  function Forgotten(c: Config, kids: set<Key>): Config {
    c.(grants := c.grants - kids)
  }

  /** recordChildGrant, with its refusals. */
  function Recorded(c: Config, child: Key, parent: Key): Config {
    if child == "" || parent == "" || child == parent then c else c.(grants := c.grants[child := parent])
  }

  predicate IsChildOf(c: Config, kid: Key, parent: Entry) {
    parent.Hex? && kid in c.grants && c.grants[kid] == parent.key
  }

  /** childrenOf, in any order. */
  ghost predicate KidsOf(c: Config, parent: Entry, kids: seq<Key>) {
    forall k :: k in kids <==> IsChildOf(c, k, parent)
  }

  // ----- Operations, each cut off after any number of config writes -----

  function WithoutKids(c: Config, kids: seq<Key>): Config
    decreases |kids|
  {
    if kids == [] then c else Mutated(WithoutKids(c, kids[..|kids| - 1]), Remove, Hex(kids[|kids| - 1]))
  }

  /** applyAuthorized's add; a key the boot loader would refuse is never written. */
  function Added(c: Config, usable: bool, target: Key, writes: nat): Config {
    if usable && writes > 0 then Mutated(c, Add, Hex(target)) else c
  }

  /** applyAuthorized's remove: the target, its children one by one, then their edges, then its own. */
  function Removed(c: Config, target: Entry, kids: seq<Key>, writes: nat): Config {
    if writes == 0 then c
    else
      var gone := Mutated(c, Remove, target);
      if writes <= 1 + |kids| then WithoutKids(gone, kids[..writes - 1])
      else
        var forgotten := Forgotten(WithoutKids(gone, kids), set k | k in kids);
        if writes == 2 + |kids| || !target.Hex? then forgotten else Forgotten(forgotten, {target.key})
  }

  function WritesToRemove(kids: seq<Key>): nat {
    3 + |kids|
  }

  /** The membership effects of a redeem: the issuer gate, the promotion, then the edge. */
  function Redeemed(c: Config, operator: Key, usable: bool, issuer: Key, member: Key, writes: nat): Config {
    RedeemedAs(c, RoleOf(c, operator, issuer), usable, issuer, member, writes)
  }

  /** The same for a role the gate found at some time before. */
  function RedeemedAs(c: Config, role: Role, usable: bool, issuer: Key, member: Key, writes: nat): Config {
    if role.Unauthorized? || !usable || writes == 0 then c
    else
      var promoted := Mutated(c, Add, Hex(member));
      if role.Parent? && writes >= 2 then Recorded(promoted, member, issuer) else promoted
  }

  datatype Op =
    | AddOp(target: Key, usable: bool, writes: nat)
    | RemoveOp(entry: Entry, kids: seq<Key>, writes: nat)
    | RedeemOp(issuer: Key, member: Key, usable: bool, writes: nat)

  function Do(c: Config, operator: Key, op: Op): Config {
    match op
    case AddOp(target, usable, writes) => Added(c, usable, target, writes)
    case RemoveOp(target, kids, writes) => Removed(c, target, kids, writes)
    case RedeemOp(issuer, member, usable, writes) => Redeemed(c, operator, usable, issuer, member, writes)
  }

  /** A remove reads the children it cascades to before it writes anything. */
  ghost predicate Enabled(c: Config, op: Op) {
    op.RemoveOp? ==> Canonical(op.entry) && KidsOf(c, op.entry, op.kids)
  }

  // ----- Fleet and tombstones never name the same key -----

  ghost predicate Disjoint(c: Config) {
    forall e, r :: e in c.fleet && r in c.revoked ==> !Same(e, r)
  }

  lemma MutationKeepsDisjoint(c: Config, action: Action, target: Entry)
    requires Disjoint(c) && Canonical(target) && (action.Add? ==> target.Hex?)
    ensures Disjoint(Mutated(c, action, target))
  {
  }

  lemma {:induction false} CascadeKeepsDisjoint(c: Config, kids: seq<Key>)
    requires Disjoint(c)
    ensures Disjoint(WithoutKids(c, kids)) && WithoutKids(c, kids).grants == c.grants
    decreases |kids|
  {
    if kids != [] {
      CascadeKeepsDisjoint(c, kids[..|kids| - 1]);
      MutationKeepsDisjoint(WithoutKids(c, kids[..|kids| - 1]), Remove, Hex(kids[|kids| - 1]));
    }
  }

  // ----- What one mutation leaves on the lists -----

  /**
   An add lists its key, once if it was not listed in either spelling, and keeps
   every other entry where it was; of the tombstones only that key's go.
   */
  lemma AddTakesEffect(c: Config, k: Key)
    ensures var c' := Mutated(c, Add, Hex(k));
            && c.fleet <= c'.fleet && (Hex(k) in c'.fleet || Npub(k) in c'.fleet)
            && (Hex(k) in c.fleet || Npub(k) in c.fleet ==> c'.fleet == c.fleet)
            && (forall e :: e in c'.fleet ==> e in c.fleet || e == Hex(k))
            && (forall r :: r in c'.revoked <==> r in c.revoked && r != Hex(k) && r != Npub(k))
            && c'.grants == c.grants
  {
    var c' := Mutated(c, Add, Hex(k));
    forall e ensures Norm(e) == Some(k) <==> e == Hex(k) || e == Npub(k) { }
  }

  /**
   A remove leaves its key in neither spelling, keeps every other entry and every
   tombstone, and tombstones the key; text that decodes to no key is matched as
   it stands.
   */
  lemma RemoveTakesEffect(c: Config, target: Entry)
    requires Canonical(target)
    ensures var c' := Mutated(c, Remove, target);
            && (target.Hex? ==> forall e :: e in c'.fleet <==>
                  e in c.fleet && e != target && e != Npub(target.key))
            && (target.Junk? ==> forall e :: e in c'.fleet <==> e in c.fleet && e != target)
            && c.revoked <= c'.revoked
            && (target in c'.revoked || (target.Hex? && Npub(target.key) in c.revoked))
            && (forall r :: r in c'.revoked ==> r in c.revoked || r == target)
            && c'.grants == c.grants
  {
    if target.Hex? {
      forall e ensures Norm(e) == Some(target.key) <==> e == target || e == Npub(target.key) { }
    }
  }

  lemma ListedInEitherSpelling(list: seq<Entry>, k: Key)
    ensures InList(list, Hex(k)) <==> Hex(k) in list || Npub(k) in list
  {
    if Npub(k) in list { assert Norm(Npub(k)) == Some(k); }
    if Hex(k) in list { assert Norm(Hex(k)) == Some(k); }
  }

  // ----- The grant graph has no cycle -----

  /** A walk up the edges: each key is the child of the next. */
  ghost predicate Path(grants: map<Key, Key>, path: seq<Key>) {
    |path| >= 2 && forall i :: 0 <= i < |path| - 1 ==> path[i] in grants && grants[path[i]] == path[i + 1]
  }

  ghost predicate Acyclic(grants: map<Key, Key>) {
    forall path :: Path(grants, path) ==> path[0] != path[|path| - 1]
  }

  lemma FewerEdgesStayAcyclic(grants: map<Key, Key>, kids: set<Key>)
    requires Acyclic(grants)
    ensures Acyclic(grants - kids)
  {
  }

  /** An edge to a key that is nobody's child closes no cycle. */
  lemma NewEdgeStaysAcyclic(grants: map<Key, Key>, child: Key, parent: Key)
    requires Acyclic(grants) && parent !in grants && child != parent
    ensures Acyclic(grants[child := parent])
  {
    var grown := grants[child := parent];
    forall path | Path(grown, path) ensures path[0] != path[|path| - 1] {
      var last := |path| - 1;
      if path[last] == parent {
        assert path[0] in grown;
      } else {
        forall i | 0 <= i < last ensures path[i] in grants && grants[path[i]] == path[i + 1] {
          assert i + 1 == last || path[i + 1] in grown;
        }
        assert Path(grants, path);
      }
    }
  }

  ghost predicate Inv(c: Config) {
    Disjoint(c) && Acyclic(c.grants)
  }

  lemma OpKeepsInv(c: Config, operator: Key, op: Op)
    requires Inv(c) && Enabled(c, op)
    ensures Inv(Do(c, operator, op))
  {
    match op {
      case AddOp(target, usable, writes) =>
        MutationKeepsDisjoint(c, Add, Hex(target));
      case RemoveOp(target, kids, writes) =>
        var gone := Mutated(c, Remove, target);
        MutationKeepsDisjoint(c, Remove, target);
        CascadeKeepsDisjoint(gone, kids);
        if 0 < writes <= 1 + |kids| { CascadeKeepsDisjoint(gone, kids[..writes - 1]); }
        FewerEdgesStayAcyclic(c.grants, set k | k in kids);
        if target.Hex? { FewerEdgesStayAcyclic(c.grants - (set k | k in kids), {target.key}); }
      case RedeemOp(issuer, member, usable, writes) =>
        MutationKeepsDisjoint(c, Add, Hex(member));
        if RoleOf(c, operator, issuer).Parent? && issuer != member { NewEdgeStaysAcyclic(c.grants, member, issuer); }
    }
  }

  function Exec(c: Config, operator: Key, ops: seq<Op>): Config
    decreases |ops|
  {
    if ops == [] then c else Do(Exec(c, operator, ops[..|ops| - 1]), operator, ops[|ops| - 1])
  }

  ghost predicate EnabledRun(c: Config, operator: Key, ops: seq<Op>)
    decreases |ops|
  {
    ops == [] || (EnabledRun(c, operator, ops[..|ops| - 1])
        && Enabled(Exec(c, operator, ops[..|ops| - 1]), ops[|ops| - 1]))
  }

  /**
   Over every run of adds, removes and redeems, each cut short at any write: no key is both admitted and revoked, and
   no key descends from itself.
   */
  lemma {:induction false} RunKeepsInv(c: Config, operator: Key, ops: seq<Op>)
    requires Inv(c) && EnabledRun(c, operator, ops)
    ensures Inv(Exec(c, operator, ops))
    decreases |ops|
  {
    if ops != [] {
      RunKeepsInv(c, operator, ops[..|ops| - 1]);
      OpKeepsInv(Exec(c, operator, ops[..|ops| - 1]), operator, ops[|ops| - 1]);
    }
  }

  /**
   A redeem admits through the operator or an allowlisted key that is nobody's child, and only the latter leaves an
   edge.
   */
  lemma OnlyParentsLeaveEdges(c: Config, operator: Key, usable: bool, issuer: Key, member: Key, writes: nat)
    ensures var c' := Redeemed(c, operator, usable, issuer, member, writes);
            && (c' != c ==>
                  && usable && issuer != ""
                  && (issuer == operator || (issuer !in c.grants && InList(c.fleet, Hex(issuer)))))
            && (c'.grants != c.grants ==>
                  && c'.grants == c.grants[member := issuer]
                  && issuer != operator && issuer != member && issuer !in c.grants && InList(c.fleet, Hex(issuer)))
            && (usable && writes > 0 && (c' != c || !RoleOf(c, operator, issuer).Unauthorized?) ==>
                  InList(c'.fleet, Hex(member)))
  {
    if usable && writes > 0 && !RoleOf(c, operator, issuer).Unauthorized? { GrownListHolds(c.fleet, member, member); }
  }

  /** A redeem that the gate let through, write by write: the promotion, and then the edge if a parent issued it. */
  lemma EachWriteOfARedeem(c: Config, role: Role, issuer: Key, member: Key)
    requires !role.Unauthorized?
    ensures RedeemedAs(c, role, true, issuer, member, 0) == c
    ensures RedeemedAs(c, role, true, issuer, member, 1) == Mutated(c, Add, Hex(member))
    ensures forall writes: nat :: writes >= 2 ==>
              var c', promoted := RedeemedAs(c, role, true, issuer, member, writes), Mutated(c, Add, Hex(member));
              c' == if role.Parent? && member != "" && issuer != "" && member != issuer
                    then promoted.(grants := c.grants[member := issuer]) else promoted
  {
  }

  // ----- What a finished remove leaves -----

  lemma {:induction false} CascadeRemoves(c: Config, kids: seq<Key>)
    ensures var c' := WithoutKids(c, kids);
            && (forall e :: e in c'.fleet <==> e in c.fleet && forall k :: k in kids ==> !Matches(e, Hex(k)))
            && (forall k :: k in kids ==> InList(c'.revoked, Hex(k)))
            && (forall r :: r in c.revoked ==> r in c'.revoked)
            && (forall r :: r in c'.revoked ==> r in c.revoked || (r.Hex? && r.key in kids))
    decreases |kids|
  {
    if kids != [] {
      var init, last := kids[..|kids| - 1], kids[|kids| - 1];
      CascadeRemoves(c, init);
      assert kids == init + [last];
      var mid := WithoutKids(c, init);
      assert Norm(Hex(last)) == Some(last);
      forall k | k in kids ensures InList(WithoutKids(c, kids).revoked, Hex(k)) {
        if k in init {
          var r :| r in mid.revoked && Norm(r) == Some(k);
          assert r in WithoutKids(c, kids).revoked;
        }
      }
    }
  }

  /** The key itself, or one it admitted. */
  ghost predicate Swept(c: Config, j: Key, k: Key) {
    j == k || (j in c.grants && c.grants[j] == k)
  }

  /**
   Removing p takes p and every key it admitted off the list, tombstones all of them, leaves no edge naming p, and
   touches nothing else.
   */
  lemma RemoveClears(c: Config, target: Entry, kids: seq<Key>, writes: nat)
    requires Canonical(target) && KidsOf(c, target, kids) && writes >= WritesToRemove(kids)
    ensures var c' := Removed(c, target, kids, writes);
            && (forall e :: e in c'.fleet <==>
                  e in c.fleet && e != target && !(target.Hex? && !e.Junk? && Swept(c, e.key, target.key)))
            && (target.Hex? ==> forall k :: Swept(c, k, target.key) ==> Hex(k) in c'.revoked || Npub(k) in c'.revoked)
            && (target.Junk? ==> target in c'.revoked)
            && (forall r :: r in c.revoked ==> r in c'.revoked)
            && (forall r :: r in c'.revoked ==>
                  r in c.revoked || r == target || (target.Hex? && r.Hex? && Swept(c, r.key, target.key)))
    ensures var c' := Removed(c, target, kids, writes);
            && (forall k :: k in c'.grants <==>
                  k in c.grants && !(target.Hex? && (k == target.key || c.grants[k] == target.key)))
            && (forall k :: k in c'.grants ==> c'.grants[k] == c.grants[k])
  {
    var gone := Mutated(c, Remove, target);
    RemoveTakesEffect(c, target);
    CascadeRemoves(gone, kids);
    CascadeKeepsGrants(gone, kids);
    var c' := Removed(c, target, kids, writes);
    if target.Hex? {
      forall k | Swept(c, k, target.key) ensures Hex(k) in c'.revoked || Npub(k) in c'.revoked {
        ListedInEitherSpelling(c'.revoked, k);
        assert k != target.key ==> IsChildOf(c, k, target);
      }
      forall e | e in gone.fleet && !e.Junk? && e.key in kids ensures e !in c'.fleet {
        assert Matches(e, Hex(e.key));
      }
      forall k | k in kids ensures Swept(c, k, target.key) { assert IsChildOf(c, k, target); }
    }
  }

  /**
   A remove write by write: the target first, then its children in order, then
   all of their edges at once, then its own; after that there is nothing to write.
   */
  lemma EachWriteOfARemove(c: Config, target: Entry, kids: seq<Key>, n: nat)
    ensures Removed(c, target, kids, 0) == c
    ensures var before, after := Removed(c, target, kids, n), Removed(c, target, kids, n + 1);
            after == if n == 0 then Mutated(before, Remove, target)
                     else if n <= |kids| then Mutated(before, Remove, Hex(kids[n - 1]))
                     else if n == |kids| + 1 then before.(grants := before.grants - set k | k in kids)
                     else if n == |kids| + 2 && target.Hex? then before.(grants := before.grants - {target.key})
                     else before
  {
    if 0 < n <= |kids| { assert kids[..n][..n - 1] == kids[..n - 1]; }
    if n == 0 { assert kids[..0] == []; }
    assert kids[..|kids|] == kids;
  }

  lemma {:induction false} CascadeKeepsGrants(c: Config, kids: seq<Key>)
    ensures WithoutKids(c, kids).grants == c.grants
    decreases |kids|
  {
    if kids != [] { CascadeKeepsGrants(c, kids[..|kids| - 1]); }
  }

  // ----- How far a cascade reaches -----

  ghost predicate NoGrandchildren(grants: map<Key, Key>, parent: Key) {
    forall g :: g in grants && grants[g] in grants ==> grants[grants[g]] != parent
  }

  /** Every child is on the fleet list. */
  ghost predicate ChildrenLive(c: Config) {
    forall k :: k in c.grants ==> InList(c.fleet, Hex(k))
  }

  ghost predicate Descends(grants: map<Key, Key>, key: Key, parent: Key) {
    exists path :: Path(grants, path) && path[0] == key && path[|path| - 1] == parent
  }

  /** An operation no write of which fails. */
  predicate Finished(op: Op) {
    match op
    case AddOp(_, _, writes) => writes >= 1
    case RemoveOp(_, kids, writes) => writes >= WritesToRemove(kids)
    case RedeemOp(_, _, _, writes) => writes >= 2
  }

  lemma GrownListHolds(list: seq<Entry>, target: Key, k: Key)
    requires InList(list, Hex(k)) || k == target
    ensures InList(if InList(list, Hex(target)) then list else list + [Hex(target)], Hex(k))
  {
    var grown := if InList(list, Hex(target)) then list else list + [Hex(target)];
    if InList(list, Hex(k)) {
      var e :| e in list && Norm(e) == Some(k);
      assert e in grown;
    } else {
      assert Hex(target) in grown && Norm(Hex(target)) == Some(k);
    }
  }

  /** Finished operations keep every child on the fleet list. */
  lemma FinishedOpKeepsChildrenLive(c: Config, operator: Key, op: Op)
    requires ChildrenLive(c) && Enabled(c, op) && Finished(op)
    ensures ChildrenLive(Do(c, operator, op))
  {
    var c' := Do(c, operator, op);
    match op {
      case AddOp(target, usable, writes) =>
        forall k | k in c'.grants ensures InList(c'.fleet, Hex(k)) { GrownListHolds(c.fleet, target, k); }
      case RedeemOp(issuer, member, usable, writes) =>
        forall k | k in c'.grants ensures InList(c'.fleet, Hex(k)) { GrownListHolds(c.fleet, member, k); }
      case RemoveOp(target, kids, writes) =>
        RemoveClears(c, target, kids, writes);
        forall k | k in c'.grants ensures InList(c'.fleet, Hex(k)) {
          var e :| e in c.fleet && Norm(e) == Some(k);
          StaysListed(c, target, kids, writes, e, k);
        }
    }
  }

  lemma StaysListed(c: Config, target: Entry, kids: seq<Key>, writes: nat, e: Entry, k: Key)
    requires Canonical(target) && KidsOf(c, target, kids) && writes >= WritesToRemove(kids)
    requires e in c.fleet && Norm(e) == Some(k) && k in Removed(c, target, kids, writes).grants
    ensures InList(Removed(c, target, kids, writes).fleet, Hex(k))
  {
    RemoveClears(c, target, kids, writes);
    assert e in Removed(c, target, kids, writes).fleet;
  }

  // ----- How long a key stays revoked, and how long it stays listed -----

  /** The operation gets as far as admitting the key. */
  predicate Readmits(c: Config, operator: Key, op: Op, k: Key) {
    match op
    case AddOp(target, usable, writes) => target == k && usable && writes > 0
    case RemoveOp(_, _, _) => false
    case RedeemOp(issuer, member, usable, writes) =>
      && member == k && usable && writes > 0 && issuer != ""
      && (issuer == operator || (issuer !in c.grants && (Hex(issuer) in c.fleet || Npub(issuer) in c.fleet)))
  }

  /** The operation gets as far as removing the key, as its target or as one of the target's children. */
  predicate TakesOff(op: Op, k: Key) {
    && op.RemoveOp? && op.writes > 0
    && (op.entry == Hex(k) || k in Reached(op.kids, op.writes))
  }

  /** The children a remove gets to with so many writes; the first is the target's. */
  function Reached(kids: seq<Key>, writes: nat): seq<Key>
    requires writes > 0
  {
    if writes > |kids| then kids else kids[..writes - 1]
  }

  lemma CutOffRemove(c: Config, target: Entry, kids: seq<Key>, writes: nat)
    requires writes > 0
    ensures var c', left := Removed(c, target, kids, writes),
                            WithoutKids(Mutated(c, Remove, target), Reached(kids, writes));
            c'.fleet == left.fleet && c'.revoked == left.revoked
  {
    assert kids[..|kids|] == kids;
  }

  lemma RemovalKeepsTombstones(c: Config, target: Entry, kids: seq<Key>, writes: nat)
    requires writes > 0 && Canonical(target)
    ensures forall r :: r in c.revoked ==> r in Removed(c, target, kids, writes).revoked
  {
    RemoveTakesEffect(c, target);
    CutOffRemove(c, target, kids, writes);
    CascadeRemoves(Mutated(c, Remove, target), Reached(kids, writes));
  }

  lemma RemovalOnlyShrinks(c: Config, target: Entry, kids: seq<Key>, writes: nat)
    requires writes > 0 && Canonical(target)
    ensures forall e :: e in Removed(c, target, kids, writes).fleet ==> e in c.fleet
  {
    RemoveTakesEffect(c, target);
    CutOffRemove(c, target, kids, writes);
    CascadeRemoves(Mutated(c, Remove, target), Reached(kids, writes));
  }

  lemma RemovalTakesOff(c: Config, target: Entry, kids: seq<Key>, writes: nat, e: Entry, k: Key)
    requires writes > 0 && Canonical(target) && e in c.fleet && (e == Hex(k) || e == Npub(k))
    ensures e in Removed(c, target, kids, writes).fleet <==> !(target == Hex(k) || k in Reached(kids, writes))
  {
    RemoveTakesEffect(c, target);
    CutOffRemove(c, target, kids, writes);
    CascadeRemoves(Mutated(c, Remove, target), Reached(kids, writes));
    assert forall j :: Matches(e, Hex(j)) <==> j == k;
  }

  /** A tombstone ends with an operation that admits its key, and with no other, wherever writes are cut off. */
  lemma RevocationEndsExactlyWithReadmission(c: Config, operator: Key, op: Op, k: Key)
    requires Enabled(c, op) && (Hex(k) in c.revoked || Npub(k) in c.revoked)
    ensures var c' := Do(c, operator, op);
            Hex(k) in c'.revoked || Npub(k) in c'.revoked <==> !Readmits(c, operator, op, k)
  {
    match op {
      case AddOp(target, usable, writes) => AddTakesEffect(c, target);
      case RemoveOp(target, kids, writes) => if writes > 0 { RemovalKeepsTombstones(c, target, kids, writes); }
      case RedeemOp(issuer, member, usable, writes) =>
        AddTakesEffect(c, member);
        ListedInEitherSpelling(c.fleet, issuer);
    }
  }

  /** And an entry ends with an operation that removes its key, and with no other. */
  lemma ListingEndsExactlyWithRemoval(c: Config, operator: Key, op: Op, k: Key)
    requires Enabled(c, op) && (Hex(k) in c.fleet || Npub(k) in c.fleet)
    ensures var c' := Do(c, operator, op);
            Hex(k) in c'.fleet || Npub(k) in c'.fleet <==> !TakesOff(op, k)
  {
    match op {
      case AddOp(target, usable, writes) => AddTakesEffect(c, target);
      case RemoveOp(target, kids, writes) =>
        if writes > 0 {
          if Hex(k) in c.fleet { RemovalTakesOff(c, target, kids, writes, Hex(k), k); }
          if Npub(k) in c.fleet { RemovalTakesOff(c, target, kids, writes, Npub(k), k); }
          RemovalOnlyShrinks(c, target, kids, writes);
        }
      case RedeemOp(issuer, member, usable, writes) => AddTakesEffect(c, member);
    }
  }

  /**
   Over every run, a key once revoked stays revoked, and off the list, for as
   long as no operation of the run is an add or a redeem of that very key.
   */
  lemma {:induction false} RevokedUntilReadmitted(c: Config, operator: Key, ops: seq<Op>, k: Key)
    requires Inv(c) && EnabledRun(c, operator, ops) && (Hex(k) in c.revoked || Npub(k) in c.revoked)
    requires forall op :: op in ops ==> !(op.AddOp? && op.target == k) && !(op.RedeemOp? && op.member == k)
    ensures var c' := Exec(c, operator, ops);
            && (Hex(k) in c'.revoked || Npub(k) in c'.revoked)
            && Hex(k) !in c'.fleet && Npub(k) !in c'.fleet
    decreases |ops|
  {
    RunKeepsInv(c, operator, ops);
    if ops != [] {
      var init, last := ops[..|ops| - 1], ops[|ops| - 1];
      RevokedUntilReadmitted(c, operator, init, k);
      RevocationEndsExactlyWithReadmission(Exec(c, operator, init), operator, last, k);
    }
    var c' := Exec(c, operator, ops);
    assert forall e, r :: e in c'.fleet && r in c'.revoked ==> !Same(e, r);
    assert Same(Hex(k), Npub(k)) && Same(Npub(k), Hex(k)) && Same(Hex(k), Hex(k)) && Same(Npub(k), Npub(k));
  }

  lemma {:induction false} FinishedRunKeepsChildrenLive(c: Config, operator: Key, ops: seq<Op>)
    requires ChildrenLive(c) && EnabledRun(c, operator, ops) && forall op :: op in ops ==> Finished(op)
    ensures ChildrenLive(Exec(c, operator, ops))
    decreases |ops|
  {
    if ops != [] {
      FinishedRunKeepsChildrenLive(c, operator, ops[..|ops| - 1]);
      FinishedOpKeepsChildrenLive(Exec(c, operator, ops[..|ops| - 1]), operator, ops[|ops| - 1]);
    }
  }

  /** A grandchild outlives the removal of its grandparent. */
  lemma GrandchildStays(c: Config, parent: Key, kids: seq<Key>, writes: nat, g: Key)
    requires Acyclic(c.grants) && ChildrenLive(c) && KidsOf(c, Hex(parent), kids) && writes >= WritesToRemove(kids)
    requires g in c.grants && c.grants[g] in c.grants && c.grants[c.grants[g]] == parent
    ensures Descends(c.grants, g, parent)
    ensures InList(Removed(c, Hex(parent), kids, writes).fleet, Hex(g))
  {
    var path := [g, c.grants[g], parent];
    assert Path(c.grants, path);
    assert g != parent;
    assert c.grants[g] != parent by {
      if c.grants[g] == parent { assert Path(c.grants, [parent, parent]); }
    }
    var e :| e in c.fleet && Norm(e) == Some(g);
    RemoveClears(c, Hex(parent), kids, writes);
    StaysListed(c, Hex(parent), kids, writes, e, g);
  }

  const EMPTY := Config([], [], map[])

  lemma ExecFirst(c: Config, operator: Key, ops: seq<Op>, n: nat)
    requires 0 < n <= |ops|
    ensures Exec(c, operator, ops[..n]) == Do(Exec(c, operator, ops[..n - 1]), operator, ops[n - 1])
  {
    assert ops[..n][..n - 1] == ops[..n - 1];
  }

  lemma {:induction false} EnabledFirst(c: Config, operator: Key, ops: seq<Op>)
    requires forall n :: 0 <= n < |ops| ==> Enabled(Exec(c, operator, ops[..n]), ops[n])
    ensures EnabledRun(c, operator, ops)
    decreases |ops|
  {
    if ops != [] {
      var init := ops[..|ops| - 1];
      forall n | 0 <= n < |init| ensures Enabled(Exec(c, operator, init[..n]), init[n]) {
        assert init[..n] == ops[..n];
      }
      EnabledFirst(c, operator, init);
    }
  }

  lemma AddGrows(c: Config, operator: Key, target: Key)
    ensures var c' := Do(c, operator, AddOp(target, true, 1));
            c'.grants == c.grants && forall k :: InList(c.fleet, Hex(k)) || k == target ==> InList(c'.fleet, Hex(k))
  {
    forall k | InList(c.fleet, Hex(k)) || k == target ensures InList(Mutated(c, Add, Hex(target)).fleet, Hex(k)) {
      GrownListHolds(c.fleet, target, k);
    }
  }

  lemma RedeemGrows(c: Config, operator: Key, issuer: Key, member: Key)
    requires issuer !in {"", operator, member} && member != "" && issuer !in c.grants && InList(c.fleet, Hex(issuer))
    ensures var c' := Do(c, operator, RedeemOp(issuer, member, true, 2));
            c'.grants == c.grants[member := issuer] && forall k :: InList(c.fleet, Hex(k)) || k == member ==>
                InList(c'.fleet, Hex(k))
  {
    forall k | InList(c.fleet, Hex(k)) || k == member ensures InList(Mutated(c, Add, Hex(member)).fleet, Hex(k)) {
      GrownListHolds(c.fleet, member, k);
    }
  }

  /**
   Two keys admitted; the second admits a member of its own, and only then is itself admitted as the first one's
   child.
   */
  predicate AdmitsUpwards(ops: seq<Op>, p: Key, x: Key, g: Key) {
    && |ops| == 5 && ops[0] == AddOp(p, true, 1) && ops[1] == AddOp(x, true, 1)
    && ops[2] == RedeemOp(x, g, true, 2) && ops[3] == RedeemOp(p, x, true, 2) && ops[4] == RemoveOp(Hex(p), [x], 4)
  }

  lemma AdmittedUpwards(operator: Key, p: Key, x: Key, g: Key, ops: seq<Op>)
    requires AdmitsUpwards(ops, p, x, g) && p != x && p != g && x != g && "" !in {p, x, g} && operator !in {p, x, g}
    ensures Exec(EMPTY, operator, ops[..4]).grants == map[g := x, x := p]
  {
    ExecFirst(EMPTY, operator, ops, 1);
    ExecFirst(EMPTY, operator, ops, 2);
    ExecFirst(EMPTY, operator, ops, 3);
    ExecFirst(EMPTY, operator, ops, 4);
    AddGrows(EMPTY, operator, p);
    AddGrows(Exec(EMPTY, operator, ops[..1]), operator, x);
    RedeemGrows(Exec(EMPTY, operator, ops[..2]), operator, x, g);
    RedeemGrows(Exec(EMPTY, operator, ops[..3]), operator, p, x);
  }

  lemma AdmittingIsEnabled(operator: Key, p: Key, x: Key, g: Key, ops: seq<Op>)
    requires AdmitsUpwards(ops, p, x, g)
    ensures EnabledRun(EMPTY, operator, ops[..4])
    ensures var c := Exec(EMPTY, operator, ops[..4]); Acyclic(c.grants) && ChildrenLive(c)
  {
    var four := ops[..4];
    assert forall n :: 0 <= n < 4 ==> four[n] == ops[n] && !four[n].RemoveOp? && Finished(four[n]);
    EnabledFirst(EMPTY, operator, four);
    RunKeepsInv(EMPTY, operator, four);
    FinishedRunKeepsChildrenLive(EMPTY, operator, four);
  }

  lemma RunOneMore(c: Config, operator: Key, ops: seq<Op>)
    requires ops != [] && EnabledRun(c, operator, ops[..|ops| - 1])
             && Enabled(Exec(c, operator, ops[..|ops| - 1]), ops[|ops| - 1])
    ensures EnabledRun(c, operator, ops)
            && Exec(c, operator, ops) == Do(Exec(c, operator, ops[..|ops| - 1]), operator, ops[|ops| - 1])
  {
  }

  lemma GrandparentRemoved(c: Config, p: Key, x: Key, g: Key)
    requires Acyclic(c.grants) && ChildrenLive(c) && c.grants == map[g := x, x := p] && p != x && p != g && x != g
    ensures KidsOf(c, Hex(p), [x])
    ensures var c' := Removed(c, Hex(p), [x], 4);
            InList(c'.revoked, Hex(p)) && InList(c'.revoked, Hex(x)) && InList(c'.fleet, Hex(g))
  {
    assert KidsOf(c, Hex(p), [x]);
    GrandchildStays(c, p, [x], 4, g);
    RemoveClears(c, Hex(p), [x], 4);
    assert IsChildOf(c, x, Hex(p));
  }

  /** A grandchild the issuer gate lets through, left on the list when both keys above it are removed and revoked. */
  lemma GrandchildIsReached(operator: Key, p: Key, x: Key, g: Key, ops: seq<Op>)
    requires AdmitsUpwards(ops, p, x, g) && p != x && p != g && x != g && "" !in {p, x, g} && operator !in {p, x, g}
    ensures EnabledRun(EMPTY, operator, ops)
    ensures var c := Exec(EMPTY, operator, ops);
            InList(c.revoked, Hex(p)) && InList(c.revoked, Hex(x)) && InList(c.fleet, Hex(g))
  {
    AdmittedUpwards(operator, p, x, g, ops);
    AdmittingIsEnabled(operator, p, x, g, ops);
    GrandparentRemoved(Exec(EMPTY, operator, ops[..4]), p, x, g);
    RunOneMore(EMPTY, operator, ops);
  }

  lemma LongPathHasGrandchild(grants: map<Key, Key>, path: seq<Key>)
    requires Path(grants, path) && |path| > 2
    ensures !NoGrandchildren(grants, path[|path| - 1])
  {
    var g := path[|path| - 3];
    assert grants[g] == path[|path| - 2];
    assert grants[grants[g]] == path[|path| - 1];
  }

  /** The cascade takes every descendant of the removed key exactly when none is deeper than a child. */
  lemma CascadeReachesAllExactlyWhenShallow(c: Config, parent: Key, kids: seq<Key>, writes: nat)
    requires Acyclic(c.grants) && ChildrenLive(c) && KidsOf(c, Hex(parent), kids) && writes >= WritesToRemove(kids)
    ensures (forall k :: Descends(c.grants, k, parent) ==> !InList(Removed(c, Hex(parent), kids, writes).fleet, Hex(k)))
            <==> NoGrandchildren(c.grants, parent)
  {
    if NoGrandchildren(c.grants, parent) {
      RemoveClears(c, Hex(parent), kids, writes);
      forall k | Descends(c.grants, k, parent) ensures IsChildOf(c, k, Hex(parent)) {
        var path :| Path(c.grants, path) && path[0] == k && path[|path| - 1] == parent;
        if |path| > 2 { LongPathHasGrandchild(c.grants, path); }
      }
    } else {
      var g :| g in c.grants && c.grants[g] in c.grants && c.grants[c.grants[g]] == parent;
      GrandchildStays(c, parent, kids, writes, g);
    }
  }

  /** Depth one: no key is both a child and a parent. */
  ghost predicate Flat(grants: map<Key, Key>) {
    forall k :: k in grants ==> grants[k] !in grants
  }

  /** The issuer gate keeps the graph flat exactly when the key it admits is nobody's parent yet. */
  lemma RedeemStaysFlatExactlyForNonParents(c: Config, operator: Key, issuer: Key, member: Key, writes: nat)
    requires Flat(c.grants) && RoleOf(c, operator, issuer).Parent? && writes >= 2 && issuer != member && member != ""
    ensures Flat(Redeemed(c, operator, true, issuer, member, writes).grants)
            <==> forall k :: k in c.grants && k != member ==> c.grants[k] != member
  {
    var grants' := Redeemed(c, operator, true, issuer, member, writes).grants;
    assert grants' == c.grants[member := issuer];
    if k :| k in c.grants && k != member && c.grants[k] == member {
      assert k in grants' && grants'[k] in grants';
    } else {
      forall k | k in grants' ensures grants'[k] !in grants' {
      }
    }
  }

  // ----- The configuration file -----

  method DropHexEntry(list: seq<Entry>, target: Entry) returns (kept: seq<Entry>)
    ensures kept == Drop(list, target)
  {
    kept := [];
    for i := 0 to |list|
      invariant kept == Drop(list[..i], target)
    {
      var seen := list[..i + 1];
      assert seen[..|seen| - 1] == list[..i] && seen[|seen| - 1] == list[i];
      if !Matches(list[i], target) {
        kept := kept + [list[i]];
      }
    }
    assert list[..|list|] == list;
  }

  method Listed(list: seq<Entry>, target: Entry) returns (found: bool)
    ensures found == InList(list, target)
  {
    for i := 0 to |list|
      invariant forall j :: 0 <= j < i ==> !(target.Hex? && Norm(list[j]) == Some(target.key))
    {
      if target.Hex? && Norm(list[i]) == Some(target.key) {
        return true;
      }
    }
    found := false;
  }

  /** The operator's config.json, rewritten field by field. */
  class ConfigFile {
    var fleet: seq<Entry>
    var revoked: seq<Entry>
    var childGrants: map<Key, Key>

    ghost function View(): Config
      reads this
    {
      Config(fleet, revoked, childGrants)
    }

    constructor (c: Config)
      ensures View() == c
    {
      fleet, revoked, childGrants := c.fleet, c.revoked, c.grants;
    }

    method MutateAllowlistConfig(action: Action, target: Entry) returns (changed: bool)
      modifies `fleet, `revoked
      ensures View() == Mutated(old(View()), action, target)
      ensures changed == (action.Add? != InList(old(fleet), target))
      ensures action.Add? && target.Hex? ==>
                && old(fleet) <= fleet && (target in fleet || Npub(target.key) in fleet)
                && (forall r :: r in revoked <==> r in old(revoked) && r != target && r != Npub(target.key))
      ensures action.Remove? && target.Hex? ==>
                && (forall e :: e in fleet <==> e in old(fleet) && e != target && e != Npub(target.key))
                && old(revoked) <= revoked && (target in revoked || Npub(target.key) in revoked)
    {
      if target.Hex? {
        AddTakesEffect(View(), target.key);
        RemoveTakesEffect(View(), target);
      }
      var listed := Listed(fleet, target);
      changed := listed;
      match action
      case Add =>
        changed := !listed;
        if changed {
          fleet := fleet + [target];
        }
        revoked := DropHexEntry(revoked, target);
      case Remove =>
        fleet := DropHexEntry(fleet, target);
        var tombstoned := Listed(revoked, target);
        if !tombstoned {
          revoked := revoked + [target];
        }
    }

    method ChildrenOf(parent: Entry) returns (kids: seq<Key>)
      ensures KidsOf(View(), parent, kids)
    {
      kids := [];
      var rest := childGrants.Keys;
      while rest != {}
        invariant rest <= childGrants.Keys
        invariant forall k :: k in kids <==> k !in rest && IsChildOf(View(), k, parent)
        decreases |rest|
      {
        var k :| k in rest;
        rest := rest - {k};
        if parent.Hex? && childGrants[k] == parent.key {
          kids := kids + [k];
        }
      }
    }

    method ForgetChildGrants(kids: seq<Key>)
      modifies `childGrants
      ensures View() == Forgotten(old(View()), set k | k in kids)
    {
      for i := 0 to |kids|
        invariant childGrants == old(childGrants) - set j | 0 <= j < i :: kids[j]
      {
        childGrants := childGrants - {kids[i]};
      }
      assert (set j | 0 <= j < |kids| :: kids[j]) == set k | k in kids;
    }

    method RecordChildGrant(child: Key, parent: Key) returns (ok: bool)
      modifies `childGrants
      ensures ok == (child != "" && parent != "" && child != parent)
      ensures View() == Recorded(old(View()), child, parent)
    {
      ok := child != "" && parent != "" && child != parent;
      if ok {
        childGrants := childGrants[child := parent];
      }
    }

    method IssuerRole(operator: Key, issuer: Key) returns (role: Role)
      ensures role == RoleOf(View(), operator, issuer)
    {
      if issuer == "" {
        return Unauthorized;
      }
      if issuer == operator {
        return Operator;
      }
      if issuer in childGrants {
        return Unauthorized;
      }
      var listed := Listed(fleet, Hex(issuer));
      role := if listed then Parent else Unauthorized;
    }

    /** The durable half of applyAuthorized; the write after `writes` good ones fails and ends it. */
    method ApplyAdd(target: Key, usable: bool, writes: nat) returns (ok: bool)
      modifies `fleet, `revoked
      ensures ok == (usable && writes > 0)
      ensures View() == Added(old(View()), usable, target, writes)
    {
      ok := usable && writes > 0;
      if ok {
        var _ := MutateAllowlistConfig(Add, Hex(target));
      }
    }

    method RemoveKids(kids: seq<Key>)
      modifies `fleet, `revoked
      ensures View() == WithoutKids(old(View()), kids)
    {
      for i := 0 to |kids|
        invariant View() == WithoutKids(old(View()), kids[..i])
      {
        ghost var seen := kids[..i + 1];
        assert seen[..|seen| - 1] == kids[..i];
        var _ := MutateAllowlistConfig(Remove, Hex(kids[i]));
      }
      assert kids[..|kids|] == kids;
    }

    method ApplyRemove(target: Entry, writes: nat) returns (ok: bool, kids: seq<Key>)
      modifies this
      ensures KidsOf(old(View()), target, kids)
      ensures View() == Removed(old(View()), target, kids, writes)
      ensures ok == (writes >= WritesToRemove(kids))
    {
      kids := ChildrenOf(target);
      ok := false;
      if writes == 0 {
        return;
      }
      var _ := MutateAllowlistConfig(Remove, target);
      if writes <= 1 + |kids| {
        RemoveKids(kids[..writes - 1]);
        return;
      }
      RemoveKids(kids);
      ForgetChildGrants(kids);
      if writes == 2 + |kids| {
        return;
      }
      if target.Hex? {
        ForgetChildGrants([target.key]);
        assert (set k | k in [target.key]) == {target.key};
      }
      ok := true;
    }

    /** What a redeem does to the configuration that the gate let through, or not, in whatever state it looked. */
    method ApplyRedeem(role: Role, issuer: Key, member: Key, usable: bool, writes: nat) returns (promoted: bool)
      modifies this
      ensures promoted == (!role.Unauthorized? && usable && writes > 0)
      ensures View() == RedeemedAs(old(View()), role, usable, issuer, member, writes)
    {
      if role.Unauthorized? {
        return false;
      }
      promoted := ApplyAdd(member, usable, writes);
      if promoted && role.Parent? && writes >= 2 {
        var _ := RecordChildGrant(member, issuer);
      }
    }
  }
}
