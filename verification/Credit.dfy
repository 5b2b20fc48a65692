/**
 Deliver-on-credit: the scrip ledger, the operator mint, the credit minted for a
 buyer's shortfall, and the pay of labour with automatic repayment.

 The live ledger is a fold of messages as they are emitted; a restart folds the
 durable log again.  A `Books` holds both, so that what they agree on can be
 stated.
 */
module Credit {
  import opened Wrappers

  type Key = string

  const CREDIT_MAX_OUTSTANDING_PER_BUYER := 300_000
  const CREDIT_REPAYMENT_WITHHOLD_PCT := 50
  const MAX_INT64 := 0x7FFF_FFFF_FFFF_FFFF
  const TWO_TO_THE_64 := 0x1_0000_0000_0000_0000

  datatype LoanStatus = LoanActive | LoanRepaid

  /** A loan; its id is its place in mint order. */
  datatype Loan = Loan(borrower: Key, principal: int, repaid: int, status: LoanStatus)

  datatype ScripMsg =
    | Mint(recipient: Key, amount: int)
    | AssignPay(worker: Key, amount: int)
    | LoanMint(borrower: Key, principal: int)
    | LoanRepay(loanId: nat, amount: int)
    | Hold(buyer: Key, amount: int)

  datatype Ledger = Ledger(balances: map<Key, int>, supply: int, loanPrincipal: int, loans: seq<Loan>)

  const EMPTY := Ledger(map[], 0, 0, [])

  function At(balances: map<Key, int>, k: Key): int {
    if k in balances then balances[k] else 0
  }

  function Balance(l: Ledger, k: Key): int {
    At(l.balances, k)
  }

  function Plus(balances: map<Key, int>, k: Key, amount: int): map<Key, int> {
    balances[k := At(balances, k) + amount]
  }

  function Add(l: Ledger, k: Key, amount: int): Ledger {
    l.(balances := Plus(l.balances, k, amount))
  }

  function Owed(loan: Loan): int {
    if loan.status.LoanActive? then loan.principal - loan.repaid else 0
  }

  function Repaid(loan: Loan, amount: int): Loan {
    Loan(loan.borrower, loan.principal, loan.repaid + amount,
         if loan.repaid + amount >= loan.principal then LoanRepaid else LoanActive)
  }

  /**
   The store's fold of one message. Live, a debit that would underflow drops the whole message; a replay trusts the
   log.
   */
  function Apply(l: Ledger, msg: ScripMsg, operator: Key, replaying: bool): Ledger {
    match msg
    case Mint(recipient, amount) =>
      if recipient == "" || amount <= 0 then l
      else Add(l, recipient, amount).(supply := l.supply + amount)
    case AssignPay(worker, amount) =>
      if worker == "" || amount <= 0 || (!replaying && Balance(l, operator) < amount) then l
      else Add(Add(l, operator, -amount), worker, amount)
    case LoanMint(borrower, principal) =>
      if borrower == "" || principal <= 0 then l
      else Add(l, borrower, principal).(supply := l.supply + principal,
                                        loanPrincipal := l.loanPrincipal + principal,
                                        loans := l.loans + [Loan(borrower, principal, 0, LoanActive)])
    case LoanRepay(id, amount) =>
      if amount <= 0 || id >= |l.loans| || !l.loans[id].status.LoanActive? then l
      else
        var loan := l.loans[id];
        if !replaying && Balance(l, loan.borrower) < amount then l
        else
          var paid := Repaid(loan, amount);
          Add(l, loan.borrower, -amount).(
            supply := l.supply - amount,
            loanPrincipal := if paid.status.LoanRepaid? then l.loanPrincipal - loan.principal else l.loanPrincipal,
            loans := l.loans[id := paid])
    case Hold(buyer, amount) =>
      if buyer == "" || amount <= 0 || (!replaying && Balance(l, buyer) < amount) then l
      else Add(l, buyer, -amount)
  }

  /** LocalScripStore.Replay: the ledger rebuilt from the durable log. */
  function Replay(log: seq<ScripMsg>, operator: Key): Ledger
    decreases |log|
  {
    if log == [] then EMPTY else Apply(Replay(log[..|log| - 1], operator), log[|log| - 1], operator, true)
  }

  /** borrowerOutstandingPrincipal: unpaid principal over the borrower's active loans. */
  function Outstanding(loans: seq<Loan>, borrower: Key): int
    decreases |loans|
  {
    if loans == [] then 0
    else Outstanding(loans[..|loans| - 1], borrower) + OwedBy(loans[|loans| - 1], borrower)
  }

  function OwedBy(loan: Loan, borrower: Key): int {
    if loan.borrower == borrower then Owed(loan) else 0
  }

  // ----- The withheld fraction, in 64-bit arithmetic -----

  function Wrap64(x: int): int {
    var y := x % TWO_TO_THE_64;
    if y > MAX_INT64 then y - TWO_TO_THE_64 else y
  }

  function Min(a: int, b: int): int {
    if a <= b then a else b
  }

  /** Go's division truncates toward zero. */
  function QuoTrunc(a: int, b: int): int
    requires b > 0
  {
    if a >= 0 then a / b else -((-a) / b)
  }

  /** repaymentAmount. */
  function Withheld(loans: seq<Loan>, borrower: Key, gross: int): int {
    var outstanding := Outstanding(loans, borrower);
    if gross <= 0 || outstanding <= 0 then 0
    else
      var withhold := QuoTrunc(Wrap64(gross * CREDIT_REPAYMENT_WITHHOLD_PCT), 100);
      Min(Min(withhold, outstanding), gross)
  }

  /** Fifty times the credit fits an int64, or what its wrapped product gives still reaches the debt. */
  predicate ChargedInFull(gross: int, debt: int) {
    gross * CREDIT_REPAYMENT_WITHHOLD_PCT <= MAX_INT64
        || QuoTrunc(Wrap64(gross * CREDIT_REPAYMENT_WITHHOLD_PCT), 100) >= debt
  }

  lemma WrapLowers(x: int)
    requires x >= 0
    ensures x <= MAX_INT64 ==> Wrap64(x) == x
    ensures x > MAX_INT64 ==> Wrap64(x) <= x - TWO_TO_THE_64
  {
    if x >= TWO_TO_THE_64 {
      assert x == x / TWO_TO_THE_64 * TWO_TO_THE_64 + x % TWO_TO_THE_64;
      assert x / TWO_TO_THE_64 >= 1;
    } else {
      assert x % TWO_TO_THE_64 == x;
    }
  }

  /** What the code's product gives: half the credit, or less than it once fifty times the credit does not fit. */
  lemma WrappedHalf(gross: int)
    requires 0 < gross <= MAX_INT64
    ensures var product := gross * CREDIT_REPAYMENT_WITHHOLD_PCT; var withhold := QuoTrunc(Wrap64(product), 100);
            if product <= MAX_INT64 then withhold == gross / 2 else withhold < gross / 2
  {
    var product := gross * CREDIT_REPAYMENT_WITHHOLD_PCT;
    WrapLowers(product);
    if product > MAX_INT64 && Wrap64(product) >= 0 {
      assert Wrap64(product) / 100 <= (product - TWO_TO_THE_64) / 100;
    }
  }

  /**
   Half the credit is withheld, up to the debt, exactly when the credit is charged in full; the overflow never
   withholds more.
   */
  lemma WithheldIsHalfExactlyWhenCharged(loans: seq<Loan>, borrower: Key, gross: int)
    requires 0 < gross <= MAX_INT64 && Outstanding(loans, borrower) >= 0
    ensures var debt := Outstanding(loans, borrower);
            && Withheld(loans, borrower, gross) <= Min(gross / 2, debt)
            && (debt > 0 ==> (Withheld(loans, borrower, gross) == Min(gross / 2, debt) <==> ChargedInFull(gross, debt)))
            && (debt == 0 ==> Withheld(loans, borrower, gross) == 0)
  {
    WrappedHalf(gross);
  }

  /** Nothing is withheld from no credit, or for no debt. */
  lemma NothingWithheldOfNothing(loans: seq<Loan>, borrower: Key, gross: int)
    requires gross <= 0 || Outstanding(loans, borrower) <= 0
    ensures Withheld(loans, borrower, gross) == 0
  {
  }

  /** So at any debt, however small, the largest credit there is retires none of it. */
  lemma NothingWithheldAtMax(loans: seq<Loan>, borrower: Key)
    ensures Withheld(loans, borrower, MAX_INT64) == 0
    ensures Outstanding(loans, borrower) > 0 ==> !ChargedInFull(MAX_INT64, Outstanding(loans, borrower))
  {
  }

  // ----- The engine's operations -----

  /**
   The running process: its live ledger, the durable log, and what labour was paid since the log was last replayed.
   */
  datatype Books = Books(operator: Key, live: Ledger, log: seq<ScripMsg>, labour: int)

  /** Emit a message and fold it live. */
  function EmitAndFold(b: Books, msg: ScripMsg): Books {
    b.(log := b.log + [msg], live := Apply(b.live, msg, b.operator, false))
  }

  /** MintScrip. */
  function MintScripped(b: Books, recipient: Key, amount: int): Books {
    if recipient == "" || amount <= 0 then b else EmitAndFold(b, Mint(recipient, amount))
  }

  /** A mint needs a recipient and an amount; then it is one message, and reaches balance and supply at once. */
  lemma MintGoesThrough(b: Books, recipient: Key, amount: int, k: Key)
    ensures var b' := MintScripped(b, recipient, amount);
            if recipient == "" || amount <= 0 then b' == b
            else && b'.log == b.log + [Mint(recipient, amount)] && b'.live.supply == b.live.supply + amount
                 && Balance(b'.live, k) == Balance(b.live, k) + (if k == recipient then amount else 0)
                 && b'.live.loans == b.live.loans && b'.labour == b.labour
  {
  }

  datatype CreditOutcome = NotNeeded | CapRefused | Minted(shortfall: int)

  /** ensureCreditForShortfall's decision, its difference and its sum in 64 bits. */
  function CreditFor(l: Ledger, eligible: bool, buyer: Key, hold: int): CreditOutcome {
    if !eligible || hold <= 0 || Balance(l, buyer) >= hold then NotNeeded
    else ShortfallFor(Outstanding(l.loans, buyer), Balance(l, buyer), hold)
  }

  function ShortfallFor(debt: int, balance: int, hold: int): CreditOutcome {
    var shortfall := Wrap64(hold - balance);
    if Wrap64(debt + shortfall) > CREDIT_MAX_OUTSTANDING_PER_BUYER then CapRefused else Minted(shortfall)
  }

  function Credited(b: Books, eligible: bool, buyer: Key, hold: int): Books {
    var outcome := CreditFor(b.live, eligible, buyer, hold);
    if outcome.Minted? then EmitAndFold(b, LoanMint(buyer, outcome.shortfall)) else b
  }

  /**
   decAndSaveHold, the hold that follows: refused, or durable and then debited unless the balance was written
   meanwhile.
   */
  function HoldTried(b: Books, buyer: Key, hold: int, conflict: bool): Books {
    if Balance(b.live, buyer) < hold then b
    else if conflict || buyer !in b.live.balances then b.(log := b.log + [Hold(buyer, hold)])
    else b.(log := b.log + [Hold(buyer, hold)], live := Add(b.live, buyer, -hold))
  }

  /**
   A positive hold the balance does not cover leaves no trace; one it covers is
   durable, and is debited unless the balance was written meanwhile.
   */
  lemma HoldIsDurableFirst(b: Books, buyer: Key, hold: int, conflict: bool, k: Key)
    requires hold > 0
    ensures var b' := HoldTried(b, buyer, hold, conflict);
            if Balance(b.live, buyer) < hold then b' == b
            else && b'.log == b.log + [Hold(buyer, hold)] && b'.labour == b.labour
                 && Balance(b'.live, k) == Balance(b.live, k) - (if k == buyer && !conflict then hold else 0)
                 && b'.live.supply == b.live.supply && b'.live.loans == b.live.loans
  {
  }

  /**
   applyRepayment from loan i on: oldest first, until the amount is used up; a loan whose emit fails is passed over.
   */
  function RepayFrom(b: Books, borrower: Key, remaining: int, failing: set<nat>, i: nat): Books
    decreases |b.live.loans| - i
  {
    if remaining <= 0 || i >= |b.live.loans| then b
    else
      var owed := OwedBy(b.live.loans[i], borrower);
      if owed <= 0 || i in failing then RepayFrom(b, borrower, remaining, failing, i + 1)
      else
        var amount := Min(remaining, owed);
        var b' := EmitAndFold(b, LoanRepay(i, amount));
        assert |b'.live.loans| == |b.live.loans|;
        RepayFrom(b', borrower, remaining - amount, failing, i + 1)
  }

  /** The bounty itself: live it is new scrip for the worker; the log says the operator paid it. */
  function BountyPaid(b: Books, worker: Key, amount: int): Books {
    b.(live := Add(b.live, worker, amount), log := b.log + [AssignPay(worker, amount)], labour := b.labour + amount)
  }

  /** The pay of an accepted assign: the full bounty to the worker, then the withheld part taken back. */
  function LabourPaid(b: Books, worker: Key, amount: int, failing: set<nat>): Books {
    if amount <= 0 || worker == "" then b
    else
      var paid := BountyPaid(b, worker, amount);
      RepayFrom(paid, worker, Withheld(paid.live.loans, worker, amount), failing, 0)
  }

  /** A restart rebuilds the ledger from the log. */
  function Restarted(b: Books): Books {
    b.(live := Replay(b.log, b.operator), labour := 0)
  }

  // ----- One repayment pass -----

  lemma {:induction false} OutstandingAfter(loans: seq<Loan>, borrower: Key, i: nat, loan: Loan)
    requires i < |loans|
    ensures Outstanding(loans[i := loan], borrower)
            == Outstanding(loans, borrower) - OwedBy(loans[i], borrower) + OwedBy(loan, borrower)
    decreases |loans|
  {
    var last := |loans| - 1;
    if i < last {
      OutstandingAfter(loans[..last], borrower, i, loan);
      assert loans[i := loan][..last] == loans[..last][i := loan];
    } else {
      assert loans[i := loan][..last] == loans[..last];
    }
  }

  ghost predicate LoansInv(loans: seq<Loan>) {
    forall i :: 0 <= i < |loans| ==>
      var l := loans[i];
      l.borrower != "" && 0 <= l.repaid <= l.principal && l.principal > 0
          && (l.status.LoanActive? <==> l.repaid < l.principal)
  }

  lemma {:induction false} OutstandingNotNegative(loans: seq<Loan>, borrower: Key)
    requires LoansInv(loans)
    ensures Outstanding(loans, borrower) >= 0
    ensures (forall i :: 0 <= i < |loans| ==> OwedBy(loans[i], borrower) == 0) ==> Outstanding(loans, borrower) == 0
    decreases |loans|
  {
    if loans != [] {
      OutstandingNotNegative(loans[..|loans| - 1], borrower);
    }
  }

  // ----- What a message moves -----

  /** A message that names nobody or no amount folds to nothing, live and replayed alike. */
  predicate WellFormed(msg: ScripMsg) {
    match msg
    case Mint(recipient, amount) => recipient != "" && amount > 0
    case AssignPay(worker, amount) => worker != "" && amount > 0
    case LoanMint(borrower, principal) => borrower != "" && principal > 0
    case LoanRepay(_, amount) => amount > 0
    case Hold(buyer, amount) => buyer != "" && amount > 0
  }

  lemma MalformedFoldsToNothing(l: Ledger, msg: ScripMsg, operator: Key, replaying: bool)
    requires !WellFormed(msg)
    ensures Apply(l, msg, operator, replaying) == l
  {
  }

  /** Whom a message debits, how much, and whom it credits. */
  function Debtor(l: Ledger, msg: ScripMsg, operator: Key): Option<Key> {
    match msg
    case AssignPay(_, _) => Some(operator)
    case LoanRepay(id, _) => if id < |l.loans| then Some(l.loans[id].borrower) else None
    case Hold(buyer, _) => Some(buyer)
    case _ => None
  }

  function Creditor(msg: ScripMsg): Option<Key> {
    match msg
    case Mint(recipient, _) => Some(recipient)
    case AssignPay(worker, _) => Some(worker)
    case LoanMint(borrower, _) => Some(borrower)
    case _ => None
  }

  function AmountOf(msg: ScripMsg): int {
    if msg.LoanMint? then msg.principal else msg.amount
  }

  /**
   A well-formed message goes through exactly when its loan, if it repays one, is
   still active, and, live, its debtor can cover it to the last unit; it then
   moves its amount from debtor to creditor, and otherwise nothing at all.
   */
  lemma MessageMovesItsAmount(l: Ledger, msg: ScripMsg, operator: Key, replaying: bool, k: Key)
    requires WellFormed(msg)
    ensures var l', amount := Apply(l, msg, operator, replaying), AmountOf(msg);
            var goes := (msg.LoanRepay? ==> msg.loanId < |l.loans| && l.loans[msg.loanId].status.LoanActive?)
                && (!replaying && Debtor(l, msg, operator).Some? ==>
                      amount <= Balance(l, Debtor(l, msg, operator).value));
            if goes then
              && Balance(l', k) == Balance(l, k) + (if Creditor(msg) == Some(k) then amount else 0)
                                   - (if Debtor(l, msg, operator) == Some(k) then amount else 0)
              && l'.supply == l.supply + (if msg.Mint? || msg.LoanMint? then amount else 0)
                              - (if msg.LoanRepay? then amount else 0)
            else l' == l
  {
  }

  /** So no live message overdraws anybody. */
  lemma LiveFoldNeverOverdraws(l: Ledger, msg: ScripMsg, operator: Key, k: Key)
    requires Balance(l, k) >= 0
    ensures Balance(Apply(l, msg, operator, false), k) >= 0
  {
    if WellFormed(msg) { MessageMovesItsAmount(l, msg, operator, false, k); } else {
      MalformedFoldsToNothing(l, msg, operator, false);
    }
  }

  // ----- The principal on loan -----

  /** The principals of the active loans, whoever borrowed and whatever has been repaid of them. */
  function OnLoan(loans: seq<Loan>): int
    decreases |loans|
  {
    if loans == [] then 0
    else
      var last := loans[|loans| - 1];
      OnLoan(loans[..|loans| - 1]) + if last.status == LoanActive then last.principal else 0
  }

  lemma {:induction false} OnLoanAfter(loans: seq<Loan>, i: nat, amount: int)
    requires i < |loans| && loans[i].status == LoanActive
    ensures OnLoan(loans[i := Repaid(loans[i], amount)]) ==
            OnLoan(loans) - if loans[i].repaid + amount >= loans[i].principal then loans[i].principal else 0
    decreases |loans|
  {
    var last := |loans| - 1;
    var loan := Repaid(loans[i], amount);
    if i < last {
      OnLoanAfter(loans[..last], i, amount);
      assert loans[i := loan][..last] == loans[..last][i := loan];
    } else {
      assert loans[i := loan][..last] == loans[..last];
    }
  }

  /** Any message, live or replayed, keeps the ledger's total equal to that sum, repayments past the debt included. */
  lemma FoldKeepsOnLoan(l: Ledger, msg: ScripMsg, operator: Key, replaying: bool)
    requires l.loanPrincipal == OnLoan(l.loans)
    ensures var l' := Apply(l, msg, operator, replaying); l'.loanPrincipal == OnLoan(l'.loans)
  {
    var l' := Apply(l, msg, operator, replaying);
    if msg.LoanRepay? && msg.loanId < |l.loans| && l.loans[msg.loanId].status == LoanActive {
      OnLoanAfter(l.loans, msg.loanId, msg.amount);
    }
    if |l'.loans| > |l.loans| { assert l'.loans[..|l.loans|] == l.loans; }
  }

  lemma {:induction false} ReplayKeepsOnLoan(log: seq<ScripMsg>, operator: Key)
    ensures var l := Replay(log, operator); l.loanPrincipal == OnLoan(l.loans)
    decreases |log|
  {
    if log != [] {
      ReplayKeepsOnLoan(log[..|log| - 1], operator);
      FoldKeepsOnLoan(Replay(log[..|log| - 1], operator), log[|log| - 1], operator, true);
    }
  }

  /** k lost what the pass applied from its balance and its debt if it is the borrower, and nothing otherwise. */
  ghost predicate MovedAt(before: Ledger, after: Ledger, borrower: Key, applied: int, k: Key) {
    var moved := if k == borrower then applied else 0;
    Balance(after, k) == Balance(before, k) - moved
        && Outstanding(after.loans, k) == Outstanding(before.loans, k) - moved
  }

  /** What a pass leaves: the whole amount it could place has left the debt, the balance and the supply alike. */
  ghost predicate PassEffect(before: Ledger, after: Ledger, borrower: Key, applied: int) {
    && |after.loans| == |before.loans| && LoansInv(after.loans)
    && after.supply == before.supply - applied
    && forall k :: MovedAt(before, after, borrower, applied, k)
  }

  /** One loan's share of a pass, when the borrower can cover it. */
  lemma RepayOne(l: Ledger, operator: Key, borrower: Key, i: nat, amount: int)
    requires LoansInv(l.loans) && i < |l.loans| && 0 < amount <= OwedBy(l.loans[i], borrower)
    requires Balance(l, borrower) >= amount
    ensures var l' := Apply(l, LoanRepay(i, amount), operator, false);
            PassEffect(l, l', borrower, amount) && l'.loans == l.loans[i := Repaid(l.loans[i], amount)]
  {
    var l' := Apply(l, LoanRepay(i, amount), operator, false);
    forall k ensures MovedAt(l, l', borrower, amount, k) {
      OutstandingAfter(l.loans, k, i, Repaid(l.loans[i], amount));
    }
  }

  lemma EffectsCompose(a: Ledger, b: Ledger, c: Ledger, borrower: Key, x: int, y: int)
    requires PassEffect(a, b, borrower, x) && PassEffect(b, c, borrower, y)
    ensures PassEffect(a, c, borrower, x + y)
  {
    var sum := x + y;
    forall k ensures MovedAt(a, c, borrower, sum, k) {
      assert MovedAt(a, b, borrower, x, k) && MovedAt(b, c, borrower, y, k);
    }
  }

  lemma {:induction false} PassPlaces(b: Books, borrower: Key, remaining: int, failing: set<nat>, i: nat)
        returns (applied: int)
    requires LoansInv(b.live.loans) && 0 <= remaining <= Balance(b.live, borrower)
    ensures 0 <= applied <= remaining
    ensures PassEffect(b.live, RepayFrom(b, borrower, remaining, failing, i).live, borrower, applied)
    ensures var after := RepayFrom(b, borrower, remaining, failing, i).live.loans;
            && (applied < remaining ==> forall j :: i <= j < |after| && j !in failing ==>
                  OwedBy(after[j], borrower) == 0)
            && (forall j :: 0 <= j < i && j < |after| ==> after[j] == b.live.loans[j])
    decreases |b.live.loans| - i
  {
    if remaining == 0 || i >= |b.live.loans| {
      applied := 0;
    } else {
      var owed := OwedBy(b.live.loans[i], borrower);
      if owed <= 0 || i in failing {
        applied := PassPlaces(b, borrower, remaining, failing, i + 1);
      } else {
        var amount := Min(remaining, owed);
        var b' := EmitAndFold(b, LoanRepay(i, amount));
        RepayOne(b.live, b.operator, borrower, i, amount);
        assert MovedAt(b.live, b'.live, borrower, amount, borrower);
        var rest := PassPlaces(b', borrower, remaining - amount, failing, i + 1);
        applied := amount + rest;
        EffectsCompose(b.live, b'.live, RepayFrom(b', borrower, remaining - amount, failing, i + 1).live, borrower,
            amount, rest);
      }
    }
  }

  /**
   Loans retire oldest first: all before k are settled, all after k are untouched, so at most k is left partly repaid.
   */
  ghost predicate OldestFirst(before: seq<Loan>, after: seq<Loan>, borrower: Key, k: nat) {
    && |after| == |before|
    && (forall j :: 0 <= j < k && j < |before| ==> OwedBy(after[j], borrower) == 0)
    && (forall j :: k < j < |before| ==> after[j] == before[j])
    && (forall j :: 0 <= j < |before| && OwedBy(before[j], borrower) == 0 ==> after[j] == before[j])
  }

  lemma {:induction false} PassRetiresOldestFirst(b: Books, borrower: Key, remaining: int, i: nat) returns (k: nat)
    requires LoansInv(b.live.loans) && 0 <= remaining <= Balance(b.live, borrower)
    requires forall j :: 0 <= j < i && j < |b.live.loans| ==> OwedBy(b.live.loans[j], borrower) == 0
    ensures i <= k
    ensures OldestFirst(b.live.loans, RepayFrom(b, borrower, remaining, {}, i).live.loans, borrower, k)
    decreases |b.live.loans| - i
  {
    if remaining <= 0 || i >= |b.live.loans| {
      k := i;
    } else if OwedBy(b.live.loans[i], borrower) <= 0 {
      k := PassRetiresOldestFirst(b, borrower, remaining, i + 1);
    } else {
      var amount := Min(remaining, OwedBy(b.live.loans[i], borrower));
      var b' := EmitAndFold(b, LoanRepay(i, amount));
      RepayOne(b.live, b.operator, borrower, i, amount);
      assert MovedAt(b.live, b'.live, borrower, amount, borrower);
      var after := RepayFrom(b', borrower, remaining - amount, {}, i + 1);
      assert after == RepayFrom(b, borrower, remaining, {}, i);
      if amount == remaining {
        k := i;
        assert after == b';
        assert OldestFirst(b.live.loans, b'.live.loans, borrower, k);
      } else {
        k := PassRetiresOldestFirst(b', borrower, remaining - amount, i + 1);
        OneMoreRetired(b.live.loans, b'.live.loans, after.live.loans, borrower, i, k);
      }
    }
  }

  lemma OneMoreRetired(before: seq<Loan>, mid: seq<Loan>, after: seq<Loan>, borrower: Key, i: nat, k: nat)
    requires i < k && i < |before| && |mid| == |before| && OldestFirst(mid, after, borrower, k)
    requires forall j :: 0 <= j < |before| && j != i ==> mid[j] == before[j]
    requires OwedBy(before[i], borrower) > 0
    ensures OldestFirst(before, after, borrower, k)
  {
  }

  /** Nothing the pass was given is left over when it was given no more than the debt and no emit fails. */
  lemma PassAppliesInFull(b: Books, borrower: Key, amount: int)
    requires LoansInv(b.live.loans) && 0 <= amount <= Balance(b.live, borrower)
    requires amount <= Outstanding(b.live.loans, borrower)
    ensures PassEffect(b.live, RepayFrom(b, borrower, amount, {}, 0).live, borrower, amount)
  {
    var applied := PassPlaces(b, borrower, amount, {}, 0);
    var after := RepayFrom(b, borrower, amount, {}, 0).live;
    assert MovedAt(b.live, after, borrower, applied, borrower);
    OutstandingNotNegative(after.loans, borrower);
  }

  /** One labour payment: the worker nets pay minus withheld, the debt and the supply fall by what was withheld. */
  lemma LabourPayment(b: Books, worker: Key, amount: int)
    requires LoansInv(b.live.loans) && worker != "" && 0 < amount && Balance(b.live, worker) >= 0
    ensures var b' := LabourPaid(b, worker, amount, {});
            var withheld := Withheld(b.live.loans, worker, amount);
            && LoansInv(b'.live.loans)
            && Balance(b'.live, worker)
               == Balance(b.live, worker) + amount - (if withheld > 0 then withheld else 0) >= 0
            && Outstanding(b'.live.loans, worker)
               == Outstanding(b.live.loans, worker) - (if withheld > 0 then withheld else 0)
            && b'.live.supply == b.live.supply - (if withheld > 0 then withheld else 0)
  {
    var paid := BountyPaid(b, worker, amount);
    var withheld := Withheld(b.live.loans, worker, amount);
    OutstandingNotNegative(b.live.loans, worker);
    if withheld > 0 {
      PassAppliesInFull(paid, worker, withheld);
      assert MovedAt(paid.live, LabourPaid(b, worker, amount, {}).live, worker, withheld, worker);
    }
  }

  function PayAll(b: Books, worker: Key, gains: seq<int>): Books
    decreases |gains|
  {
    if gains == [] then b else LabourPaid(PayAll(b, worker, gains[..|gains| - 1]), worker, gains[|gains| - 1], {})
  }

  function Halves(gains: seq<int>): int
    decreases |gains|
  {
    if gains == [] then 0 else Halves(gains[..|gains| - 1]) + gains[|gains| - 1] * CREDIT_REPAYMENT_WITHHOLD_PCT / 100
  }

  /** max(0, initial - sum of floor(gi * 50 / 100)). */
  function FormulaDebt(initial: int, gains: seq<int>): int {
    if initial >= Halves(gains) then initial - Halves(gains) else 0
  }

  lemma PayOneMore(b: Books, worker: Key, gains: seq<int>, n: nat)
    requires n < |gains|
    ensures PayAll(b, worker, gains[..n + 1]) == LabourPaid(PayAll(b, worker, gains[..n]), worker, gains[n], {})
    ensures Halves(gains[..n + 1]) == Halves(gains[..n]) + gains[n] * CREDIT_REPAYMENT_WITHHOLD_PCT / 100
  {
    assert gains[..n + 1][..n] == gains[..n];
  }

  lemma {:induction false} PayAllKeepsLoans(b: Books, worker: Key, gains: seq<int>)
    requires LoansInv(b.live.loans) && worker != "" && Balance(b.live, worker) >= 0
    requires forall i :: 0 <= i < |gains| ==> gains[i] > 0
    ensures var b' := PayAll(b, worker, gains); LoansInv(b'.live.loans) && Balance(b'.live, worker) >= 0
    ensures Halves(gains) >= 0
    decreases |gains|
  {
    if gains != [] {
      PayAllKeepsLoans(b, worker, gains[..|gains| - 1]);
      LabourPayment(PayAll(b, worker, gains[..|gains| - 1]), worker, gains[|gains| - 1]);
    }
  }

  /** The debt after the first n credits is what the formula says. */
  predicate DebtIsFormula(b: Books, worker: Key, gains: seq<int>, n: nat)
    requires n <= |gains|
  {
    Outstanding(PayAll(b, worker, gains[..n]).live.loans, worker)
        == FormulaDebt(Outstanding(b.live.loans, worker), gains[..n])
  }

  /** The next credit is charged in full at the debt the formula gives, or finds none. */
  predicate NextIsCharged(b: Books, worker: Key, gains: seq<int>, n: nat)
    requires n < |gains|
  {
    var debt := FormulaDebt(Outstanding(b.live.loans, worker), gains[..n]);
    debt == 0 || ChargedInFull(gains[n], debt)
  }

  lemma DebtAfterOne(b: Books, worker: Key, gross: int)
    requires LoansInv(b.live.loans) && worker != "" && Balance(b.live, worker) >= 0 && 0 < gross <= MAX_INT64
    ensures var debt := Outstanding(b.live.loans, worker);
            Outstanding(LabourPaid(b, worker, gross, {}).live.loans, worker) == debt - Min(gross / 2, debt)
            <==> debt == 0 || ChargedInFull(gross, debt)
  {
    OutstandingNotNegative(b.live.loans, worker);
    WithheldIsHalfExactlyWhenCharged(b.live.loans, worker, gross);
    LabourPayment(b, worker, gross);
  }

  lemma DebtAfterOneMore(b: Books, worker: Key, gains: seq<int>, n: nat)
    requires LoansInv(b.live.loans) && worker != "" && Balance(b.live, worker) >= 0 && n < |gains|
    requires forall i :: 0 <= i < |gains| ==> 0 < gains[i] <= MAX_INT64
    requires DebtIsFormula(b, worker, gains, n)
    ensures DebtIsFormula(b, worker, gains, n + 1) <==> NextIsCharged(b, worker, gains, n)
  {
    PayAllKeepsLoans(b, worker, gains[..n]);
    PayOneMore(b, worker, gains, n);
    OutstandingNotNegative(b.live.loans, worker);
    DebtAfterOne(PayAll(b, worker, gains[..n]), worker, gains[n]);
  }

  /**
   By induction on how many credits: as long as the formula holds, it goes on holding exactly while credits are
   charged in full.
   */
  lemma {:induction false} FormulaHoldsWhileCharged(b: Books, worker: Key, gains: seq<int>, n: nat)
    requires LoansInv(b.live.loans) && worker != "" && Balance(b.live, worker) >= 0 && n <= |gains|
    requires forall i :: 0 <= i < |gains| ==> 0 < gains[i] <= MAX_INT64
    requires forall m :: 0 <= m < n ==> NextIsCharged(b, worker, gains, m)
    ensures DebtIsFormula(b, worker, gains, n)
    decreases n
  {
    if n == 0 {
      OutstandingNotNegative(b.live.loans, worker);
      assert gains[..0] == [];
    } else {
      FormulaHoldsWhileCharged(b, worker, gains, n - 1);
      DebtAfterOneMore(b, worker, gains, n - 1);
    }
  }

  /**
   After each of the credits g1..gn the debt is max(0, initial - sum of
   floor(gi * 50 / 100)), however it was split into loans, exactly when every
   credit is charged in full at the debt that formula gives it.
   */
  lemma DebtAfterCredits(b: Books, worker: Key, gains: seq<int>)
    requires LoansInv(b.live.loans) && worker != "" && Balance(b.live, worker) >= 0
    requires forall i :: 0 <= i < |gains| ==> 0 < gains[i] <= MAX_INT64
    ensures (forall n :: 0 <= n <= |gains| ==> DebtIsFormula(b, worker, gains, n))
            <==> (forall n :: 0 <= n < |gains| ==> NextIsCharged(b, worker, gains, n))
  {
    if forall n :: 0 <= n < |gains| ==> NextIsCharged(b, worker, gains, n) {
      forall n | 0 <= n <= |gains| ensures DebtIsFormula(b, worker, gains, n) {
        FormulaHoldsWhileCharged(b, worker, gains, n);
      }
    }
    if forall n :: 0 <= n <= |gains| ==> DebtIsFormula(b, worker, gains, n) {
      forall n | 0 <= n < |gains| ensures NextIsCharged(b, worker, gains, n) { DebtAfterOneMore(b, worker, gains, n); }
    }
  }

  /** A buyer that is lent all of a price within the cap, and has it held. */
  function BoughtOnCredit(operator: Key, buyer: Key, price: int): Books {
    HoldTried(Credited(NewBooks(operator), true, buyer, price), buyer, price, false)
  }

  lemma BoughtOnCreditOwes(operator: Key, buyer: Key, price: int)
    requires buyer != "" && 0 < price <= CREDIT_MAX_OUTSTANDING_PER_BUYER
    ensures var b := BoughtOnCredit(operator, buyer, price);
            && b.live.loans == [Loan(buyer, price, 0, LoanActive)] && Outstanding(b.live.loans, buyer) == price
            && Balance(b.live, buyer) == 0
  {
    var none: seq<Loan> := [];
    assert Outstanding(none, buyer) == 0;
    assert ShortfallFor(0, 0, price) == Minted(price);
    var lent := EmitAndFold(NewBooks(operator), LoanMint(buyer, price));
    assert Credited(NewBooks(operator), true, buyer, price) == lent;
    LentOwes(lent, buyer, price);
  }

  lemma LentOwes(b: Books, buyer: Key, price: int)
    requires b.live.balances == map[buyer := price] && b.live.loans == [Loan(buyer, price, 0, LoanActive)]
    ensures Outstanding(b.live.loans, buyer) == price
    ensures var held := HoldTried(b, buyer, price, false);
            held.live.loans == b.live.loans && Balance(held.live, buyer) == 0
  {
    var none: seq<Loan> := [];
    assert Outstanding(none, buyer) == 0 && b.live.loans[..0] == none;
  }

  /** A debt any buyer can run up, and the pay that leaves all of it in place. */
  lemma LargestPayRetiresNothing(operator: Key, worker: Key, debt: int)
    requires worker != "" && 0 < debt <= CREDIT_MAX_OUTSTANDING_PER_BUYER
    ensures var b := BoughtOnCredit(operator, worker, debt); var paid := LabourPaid(b, worker, MAX_INT64, {});
            && Outstanding(b.live.loans, worker) == debt && paid.live.loans == b.live.loans
            && Balance(paid.live, worker) == MAX_INT64
  {
    BoughtOnCreditOwes(operator, worker, debt);
    NothingWithheldAtMax(BoughtOnCredit(operator, worker, debt).live.loans, worker);
  }

  // ----- The credit decision -----

  function NewBooks(operator: Key): Books {
    Books(operator, EMPTY, [], 0)
  }

  /** The debt a buyer would have after a credit that meets the hold. */
  function DebtWith(l: Ledger, buyer: Key, hold: int): int {
    Outstanding(l.loans, buyer) + hold - Balance(l, buyer)
  }

  lemma ShortfallExactly(debt: int, balance: int, hold: int)
    requires 0 <= debt <= CREDIT_MAX_OUTSTANDING_PER_BUYER && 0 <= balance < hold <= MAX_INT64
    ensures var sum := debt + hold - balance;
            ShortfallFor(debt, balance, hold)
            == if CREDIT_MAX_OUTSTANDING_PER_BUYER < sum <= MAX_INT64 then CapRefused else Minted(hold - balance)
  {
  }

  /** The cap is what is tested exactly when the debt the credit would leave fits an int64. */
  lemma CapIsTestedExactlyWhenItFits(l: Ledger, buyer: Key, hold: int)
    requires 0 <= Balance(l, buyer) < hold <= MAX_INT64
    requires 0 <= Outstanding(l.loans, buyer) <= CREDIT_MAX_OUTSTANDING_PER_BUYER
    ensures (CreditFor(l, true, buyer, hold).Minted? <==> DebtWith(l, buyer, hold) <= CREDIT_MAX_OUTSTANDING_PER_BUYER)
            <==> DebtWith(l, buyer, hold) <= MAX_INT64
  {
    ShortfallExactly(Outstanding(l.loans, buyer), Balance(l, buyer), hold);
  }

  /** A buyer in debt whose hold is the largest integer is lent all of it, cap or no cap. */
  lemma LargestHoldPassesTheCap(l: Ledger, buyer: Key)
    requires Balance(l, buyer) == 0 && 0 < Outstanding(l.loans, buyer) <= CREDIT_MAX_OUTSTANDING_PER_BUYER
    ensures CreditFor(l, true, buyer, MAX_INT64) == Minted(MAX_INT64)
  {
    ShortfallExactly(Outstanding(l.loans, buyer), 0, MAX_INT64);
  }

  /**
   A credit covers exactly the shortfall, when the cap allows it or the sum it is compared with has wrapped; every
   refusal leaves the books alone.
   */
  lemma CreditMeetsTheHold(b: Books, eligible: bool, buyer: Key, hold: int)
    requires buyer != "" && hold <= MAX_INT64 && Balance(b.live, buyer) >= 0
    requires 0 <= Outstanding(b.live.loans, buyer) <= CREDIT_MAX_OUTSTANDING_PER_BUYER
    ensures var b' := Credited(b, eligible, buyer, hold);
            var outcome := CreditFor(b.live, eligible, buyer, hold); var debt := DebtWith(b.live, buyer, hold);
            && (outcome.Minted? <==> eligible && Balance(b.live, buyer) < hold
                                     && (debt <= CREDIT_MAX_OUTSTANDING_PER_BUYER || debt > MAX_INT64))
            && (outcome.Minted? ==> Balance(b'.live, buyer) == hold && Outstanding(b'.live.loans, buyer) == debt)
            && (!outcome.Minted? ==> b' == b)
  {
    if eligible && Balance(b.live, buyer) < hold {
      ShortfallExactly(Outstanding(b.live.loans, buyer), Balance(b.live, buyer), hold);
    }
  }

  // ----- What a replay adds to -----

  ghost function Total(balances: map<Key, int>): int
    decreases |balances|
  {
    if balances == map[] then 0
    else
      var k :| k in balances;
      balances[k] + Total(balances - {k})
  }

  lemma {:induction false} TotalWithout(balances: map<Key, int>, k: Key)
    requires k in balances
    ensures Total(balances) == balances[k] + Total(balances - {k})
    decreases |balances|
  {
    var j :| j in balances && Total(balances) == balances[j] + Total(balances - {j});
    if j != k {
      TotalWithout(balances - {j}, k);
      TotalWithout(balances - {k}, j);
      assert balances - {j} - {k} == balances - {k} - {j};
    }
  }

  lemma TotalAfterPlus(balances: map<Key, int>, k: Key, amount: int)
    ensures Total(Plus(balances, k, amount)) == Total(balances) + amount
  {
    var after := Plus(balances, k, amount);
    TotalWithout(after, k);
    assert after - {k} == balances - {k};
    if k in balances {
      TotalWithout(balances, k);
    } else {
      assert balances - {k} == balances;
    }
  }

  lemma ReplayOneMore(log: seq<ScripMsg>, msg: ScripMsg, operator: Key)
    ensures Replay(log + [msg], operator) == Apply(Replay(log, operator), msg, operator, true)
  {
  }

  /** After one labour payment the running process holds more scrip than its own supply counts, until a restart. */
  lemma LabourIsUncountedUntilRestart()
    ensures var b := LabourPaid(NewBooks("operator"), "worker", 10, {});
            && Total(b.live.balances) == 10 && b.live.supply == 0
            && Balance(Restarted(b).live, "operator") == -10 && Total(Restarted(b).live.balances) == 0
  {
  }

  // ----- The engine -----

  /** The scrip side of the engine: the store's live fields and the durable log, changed message by message. */
  class Exchange {
    const operator: Key
    var balances: map<Key, int>
    var totalSupply: int
    var totalLoanPrincipal: int
    var loans: seq<Loan>
    var log: seq<ScripMsg>
    ghost var labour: int

    ghost function Live(): Ledger
      reads this
    {
      Ledger(balances, totalSupply, totalLoanPrincipal, loans)
    }

    ghost function View(): Books
      reads this
    {
      Books(operator, Live(), log, labour)
    }

    constructor (operator: Key)
      ensures View() == NewBooks(operator)
    {
      this.operator := operator;
      balances, totalSupply, totalLoanPrincipal, loans, log := map[], 0, 0, [], [];
      labour := 0;
    }

    function GetBudget(k: Key): (balance: int)
      reads this
      ensures balance == Balance(Live(), k)
    {
      if k in balances then balances[k] else 0
    }

    method AddToBalance(k: Key, amount: int)
      modifies `balances
      ensures balances == Add(old(Live()), k, amount).balances
    {
      balances := balances[k := GetBudget(k) + amount];
    }

    method SubtractFromBalance(k: Key, amount: int, replaying: bool) returns (ok: bool)
      modifies `balances
      ensures ok == (replaying || Balance(old(Live()), k) >= amount)
      ensures balances == if ok then Add(old(Live()), k, -amount).balances else old(balances)
    {
      ok := replaying || GetBudget(k) >= amount;
      if ok {
        balances := balances[k := GetBudget(k) - amount];
      }
    }

    method ApplyLoanRepay(id: nat, amount: int, replaying: bool)
      modifies `balances, `totalSupply, `totalLoanPrincipal, `loans
      ensures Live() == Apply(old(Live()), LoanRepay(id, amount), operator, replaying)
    {
      if amount <= 0 || id >= |loans| || !loans[id].status.LoanActive? {
        return;
      }
      var loan := loans[id];
      var ok := SubtractFromBalance(loan.borrower, amount, replaying);
      if !ok {
        return;
      }
      var repaid := loan.repaid + amount;
      var fullyRepaid := repaid >= loan.principal;
      loans := loans[id := Loan(loan.borrower, loan.principal, repaid, if fullyRepaid then LoanRepaid else LoanActive)];
      totalSupply := totalSupply - amount;
      if fullyRepaid {
        totalLoanPrincipal := totalLoanPrincipal - loan.principal;
      }
    }

    method ApplyMessage(msg: ScripMsg, replaying: bool)
      modifies `balances, `totalSupply, `totalLoanPrincipal, `loans
      ensures Live() == Apply(old(Live()), msg, operator, replaying)
    {
      match msg
      case Mint(recipient, amount) =>
        if recipient != "" && amount > 0 {
          AddToBalance(recipient, amount);
          totalSupply := totalSupply + amount;
        }
      case AssignPay(worker, amount) =>
        if worker != "" && amount > 0 {
          var ok := SubtractFromBalance(operator, amount, replaying);
          if ok {
            AddToBalance(worker, amount);
          }
        }
      case LoanMint(borrower, principal) =>
        if borrower != "" && principal > 0 {
          loans := loans + [Loan(borrower, principal, 0, LoanActive)];
          AddToBalance(borrower, principal);
          totalSupply := totalSupply + principal;
          totalLoanPrincipal := totalLoanPrincipal + principal;
        }
      case LoanRepay(id, amount) =>
        ApplyLoanRepay(id, amount, replaying);
      case Hold(buyer, amount) =>
        if buyer != "" && amount > 0 {
          var _ := SubtractFromBalance(buyer, amount, replaying);
        }
    }

    /** Rebuild the live fields from the durable log. */
    method Restart()
      modifies `balances, `totalSupply, `totalLoanPrincipal, `loans, `labour
      ensures View() == Restarted(old(View()))
    {
      balances, totalSupply, totalLoanPrincipal, loans := map[], 0, 0, [];
      labour := 0;
      for i := 0 to |log|
        invariant Live() == Replay(log[..i], operator)
        invariant labour == 0
      {
        ApplyMessage(log[i], true);
        assert log[..i + 1][..i] == log[..i];
      }
      assert log[..|log|] == log;
    }

    method Emit(msg: ScripMsg)
      modifies `balances, `totalSupply, `totalLoanPrincipal, `loans, `log
      ensures View() == EmitAndFold(old(View()), msg)
    {
      log := log + [msg];
      ApplyMessage(msg, false);
    }

    method BorrowerOutstandingPrincipal(borrower: Key) returns (total: int)
      ensures total == Outstanding(loans, borrower)
    {
      total := 0;
      for i := 0 to |loans|
        invariant total == Outstanding(loans[..i], borrower)
      {
        var loan := loans[i];
        if loan.borrower == borrower && loan.status.LoanActive? {
          total := total + (loan.principal - loan.repaid);
        }
        assert loans[..i + 1][..i] == loans[..i];
      }
      assert loans[..|loans|] == loans;
    }

    method RepaymentAmount(borrower: Key, gross: int) returns (withhold: int)
      ensures withhold == Withheld(loans, borrower, gross)
    {
      if gross <= 0 {
        return 0;
      }
      var outstanding := BorrowerOutstandingPrincipal(borrower);
      if outstanding <= 0 {
        return 0;
      }
      withhold := QuoTrunc(Wrap64(gross * CREDIT_REPAYMENT_WITHHOLD_PCT), 100);
      if withhold > outstanding {
        withhold := outstanding;
      }
      if withhold > gross {
        withhold := gross;
      }
    }

    method ApplyRepayment(borrower: Key, amount: int, failing: set<nat>)
      modifies `balances, `totalSupply, `totalLoanPrincipal, `loans, `log
      ensures View() == RepayFrom(old(View()), borrower, amount, failing, 0)
    {
      var remaining, i := amount, 0;
      while i < |loans| && remaining > 0
        invariant RepayFrom(View(), borrower, remaining, failing, i)
                  == RepayFrom(old(View()), borrower, amount, failing, 0)
        decreases |loans| - i
      {
        var loan := loans[i];
        var owed := loan.principal - loan.repaid;
        if loan.borrower == borrower && loan.status.LoanActive? && owed > 0 && i !in failing {
          var apply := if remaining > owed then owed else remaining;
          Emit(LoanRepay(i, apply));
          remaining := remaining - apply;
        }
        i := i + 1;
      }
    }

    method EnsureCreditForShortfall(eligible: bool, buyer: Key, hold: int) returns (outcome: CreditOutcome)
      modifies `balances, `totalSupply, `totalLoanPrincipal, `loans, `log
      ensures outcome == CreditFor(old(Live()), eligible, buyer, hold)
      ensures View() == Credited(old(View()), eligible, buyer, hold)
    {
      if !eligible {
        return NotNeeded;
      }
      if hold <= 0 {
        return NotNeeded;
      }
      var balance := GetBudget(buyer);
      if balance >= hold {
        return NotNeeded;
      }
      var shortfall := Wrap64(hold - balance);
      var outstanding := BorrowerOutstandingPrincipal(buyer);
      if Wrap64(outstanding + shortfall) > CREDIT_MAX_OUTSTANDING_PER_BUYER {
        return CapRefused;
      }
      Emit(LoanMint(buyer, shortfall));
      outcome := Minted(shortfall);
    }

    /** decAndSaveHold; `conflict` says another goroutine wrote the balance after it was read here. */
    method DecAndSaveHold(buyer: Key, hold: int, conflict: bool) returns (ok: bool)
      modifies `balances, `log
      ensures ok == (Balance(old(Live()), buyer) >= hold && !conflict && buyer in old(balances))
      ensures View() == HoldTried(old(View()), buyer, hold, conflict)
    {
      if GetBudget(buyer) < hold {
        return false;
      }
      log := log + [Hold(buyer, hold)];
      if conflict || buyer !in balances {
        return false;
      }
      balances := balances[buyer := balances[buyer] - hold];
      ok := true;
    }

    method MintScrip(recipient: Key, amount: int) returns (ok: bool)
      modifies `balances, `totalSupply, `totalLoanPrincipal, `loans, `log
      ensures ok == (recipient != "" && amount > 0)
      ensures View() == MintScripped(old(View()), recipient, amount)
    {
      if recipient == "" || amount <= 0 {
        return false;
      }
      Emit(Mint(recipient, amount));
      ok := true;
    }

    /**
     The pay step of handleAssignAccept: the bounty reaches the balance directly, and the log as a message that is not
     folded live.
     */
    method PayLabour(worker: Key, amount: int, failing: set<nat>)
      modifies `balances, `totalSupply, `totalLoanPrincipal, `loans, `log, `labour
      ensures View() == LabourPaid(old(View()), worker, amount, failing)
    {
      if amount <= 0 || worker == "" {
        return;
      }
      AddToBalance(worker, amount);
      log := log + [AssignPay(worker, amount)];
      labour := labour + amount;
      assert View() == BountyPaid(old(View()), worker, amount);
      var withheld := RepaymentAmount(worker, amount);
      if withheld > 0 {
        ApplyRepayment(worker, withheld, failing);
      }
    }
  }
}
