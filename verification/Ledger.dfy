/** The settlement ledger as a value, and each keeper operation as a function on it
    (x/settlement/keeper/keeper.go, x/settlement/types). The imperative keeper in
    Keeper.dfy is proved equal to these functions; the run theorems are about them. */
module Ledger {
  import opened Sums
  import opened FeeSplit
  import opened Tokens

  // ---------- Data ----------

  newtype byte = x: int | 0 <= x < 256
  type TaskId = seq<byte>

  datatype Denom = Ufai | OtherDenom(name: string)
  datatype Coin = Coin(denom: Denom, amount: int)

  datatype RawParams = Params(ratios: Ratios, failRatio: nat, secondVerifiers: nat, threshold: nat,
                              cleanupBuffer: int, secondTimeout: int, thirdTimeout: int,
                              perTokenEnabled: bool, tolerance: uint32, tolerancePct: uint32, fraudWindow: nat)

  ghost predicate ValidParams(p: RawParams) {
    && ValidRatios(p.ratios) && 0 < p.failRatio <= 1000
    && 0 < p.threshold <= p.secondVerifiers
    && 0 <= p.cleanupBuffer && 0 < p.secondTimeout && 0 < p.thirdTimeout && 0 < p.fraudWindow
  }

  /** Parameters accepted by Params.Validate (with the ratio sum taken without wrap-around). */
  type Params = p: RawParams | ValidParams(p)
    ghost witness Params(Ratios(850, 120, 30), 150, 3, 2, 1000, 8640, 17280, false, 2, 2, 17280)

  /** A user's inference account. `frozenSet` tells whether FrozenBalance carries a denomination yet. */
  datatype Account = Account(balance: nat, frozen: nat, frozenSet: bool)

  datatype TaskStatus = TaskSettled | TaskFraud | TaskFailSettled | TaskPendingSecondVerification | TaskFailed

  datatype Settled = Settled(status: TaskStatus, expire: int, settledAt: int, worker: Address,
                             originals: seq<Address>, fee: int, user: Address)

  const SUCCESS: nat := 0
  const FAIL: nat := 1

  datatype VerifierResult = VerifierResult(address: Address, pass: bool, inTokens: uint32, outTokens: uint32)

  datatype Entry = Entry(task: TaskId, user: Address, worker: Address, verifiers: seq<VerifierResult>,
                         fee: Coin, status: nat, expire: int,
                         userSig: seq<byte>, workerSig: seq<byte>, verifySigs: seq<seq<byte>>,
                         feeIn: uint64, feeOut: uint64, maxFee: Coin,
                         workerIn: uint32, workerOut: uint32)

  datatype ReserveEntry = ReserveEntry(user: Address, task: TaskId, maxFee: Coin, expire: int)

  datatype Pending = Pending(task: TaskId, status: nat, submittedAt: int, user: Address, worker: Address,
                             verifiers: seq<Address>, fee: int, expire: int, third: bool,
                             feeIn: uint64, feeOut: uint64, maxFee: int, outTokens: uint32, inTokens: uint32)

  datatype AuditRecord = AuditRecord(verifiers: seq<Address>, results: seq<bool>,
                                     inTokens: seq<uint32>, outTokens: seq<uint32>, processedAt: int)

  /** Tasks awaiting one tier of audit, with their (height, task) timeout keys. */
  type TimeoutKey = (int, TaskId)
  datatype Tier = Tier(pending: map<TaskId, Pending>, index: set<TimeoutKey>)

  /** What has happened so far. Every operation writes it; none reads it. */
  datatype History = History(
    owner: map<TaskId, nat>,             // who made each live reservation
    firstAt: map<TaskId, int>,           // height of each task's first settled record
    charges: map<TaskId, nat>,           // debits per task
    originals: map<TaskId, seq<Address>>,// verifiers of each task sent to audit
    judged: map<TaskId, nat>,            // audit judgments per task
    workerPaid: map<TaskId, nat>,        // paid to the worker per task
    clawed: map<TaskId, nat>,            // recovered from the worker per task
    owned: bool,                         // every release was for the user who reserved
    covered: bool,                       // every debit asked for no more than the unfrozen balance
    clamps: nat,                         // releases that had to clamp FrozenBalance
    shortfalls: nat,                     // debits that paid less than asked
    credits: nat,                        // debits of a negative amount
    defrauded: set<TaskId>,              // tasks whose record was turned into TaskFraud
    named: bool,                         // no audit was opened for an empty task id
    reopened: set<TaskId>)               // tasks sent to audit while they awaited one already

  datatype State = State(
    height: int,
    accounts: map<nat, Account>,
    reserved: map<TaskId, nat>,
    settled: map<TaskId, Settled>,
    fraud: set<TaskId>,
    second: Tier,
    third: Tier,
    audits: map<TaskId, AuditRecord>,
    bank: Bank,
    hist: History)

  /** A Go panic rolls the transaction back; in EndBlock it halts the chain. */
  datatype Flow = Go(state: State) | Panicked
  datatype Verdict = Crash | Done(state: State, settled: bool)

  // ---------- Deposit, withdraw, reservations ----------

  function Available(a: Account): (r: nat)
    ensures r + a.frozen == a.balance || (a.balance < a.frozen && r == 0)
  {
    if a.frozen == 0 then a.balance
    else if a.balance < a.frozen then 0
    else a.balance - a.frozen
  }

  function Deposit(s: State, who: nat, coin: Coin, refused: bool): State {
    if coin.denom != Ufai || coin.amount < 0 || refused || Get(s.bank.wallets, who) < coin.amount then s else
      var a := if who in s.accounts then s.accounts[who] else Account(0, 0, false);
      s.(accounts := s.accounts[who := a.(balance := a.balance + coin.amount)],
         bank := Bank(s.bank.pool + coin.amount,
                      s.bank.wallets[who := Get(s.bank.wallets, who) - coin.amount]))
  }

  function Withdraw(s: State, who: nat, coin: Coin, refused: set<nat>): State {
    if coin.denom != Ufai || coin.amount < 0 || who !in s.accounts
       || Available(s.accounts[who]) < coin.amount then s
    else
      match Send(s.bank, Payout(who, coin.amount), refused)
      case None => s
      case Some(b) =>
        var a := s.accounts[who];
        s.(accounts := s.accounts[who := a.(balance := a.balance - coin.amount)], bank := b)
  }

  predicate ReserveRejected(s: State, e: ReserveEntry) {
    || e.maxFee.amount <= 0 || e.maxFee.denom != Ufai || e.task == []
    || (e.expire > 0 && e.expire < s.height)
    || e.task in s.settled || e.task in s.reserved
    || !e.user.Bech32? || e.user.account !in s.accounts
    || Available(s.accounts[e.user.account]) < e.maxFee.amount
  }

  function Freeze(s: State, u: nat, t: TaskId, amount: nat): State
    requires u in s.accounts
  {
    var a := s.accounts[u];
    s.(accounts := s.accounts[u := a.(frozen := a.frozen + amount, frozenSet := true)],
       reserved := s.reserved[t := amount],
       hist := s.hist.(owner := s.hist.owner[t := u]))
  }

  function Reserve(s: State, e: ReserveEntry): Flow {
    if ReserveRejected(s, e) then Go(s)
    else if e.maxFee.amount >= TWO_64 then Panicked
    else Go(Freeze(s, e.user.account, e.task, e.maxFee.amount))
  }

  /** Comparing an unset FrozenBalance with a reservation is a denomination mismatch. */
  predicate UnfreezePanics(s: State, u: nat, t: TaskId) {
    t in s.reserved && u in s.accounts && !s.accounts[u].frozenSet
  }

  function Unfreeze(s: State, u: nat, t: TaskId): State {
    if t !in s.reserved || u !in s.accounts then s else
      var a, r := s.accounts[u], s.reserved[t];
      s.(accounts := s.accounts[u := a.(frozen := if a.frozen >= r then a.frozen - r else 0)],
         reserved := s.reserved - {t},
         hist := s.hist.(owner := s.hist.owner - {t},
                         owned := s.hist.owned && t in s.hist.owner && s.hist.owner[t] == u,
                         clamps := s.hist.clamps + if a.frozen < r then 1 else 0))
  }

  // ---------- Paying for one task ----------

  /** What every settlement path knows about its task. */
  datatype Job = Job(task: TaskId, user: Address, worker: Address, verifiers: seq<Address>, expire: int)

  predicate Payable(s: State, j: Job) {
    j.user.Bech32? && j.worker.Bech32? && j.user.account in s.accounts
  }

  function Record(s: State, j: Job, status: TaskStatus, fee: int): State {
    s.(settled := s.settled[j.task := Settled(status, j.expire, s.height, j.worker, j.verifiers, fee, j.user)],
       hist := s.hist.(firstAt := if j.task in s.hist.firstAt then s.hist.firstAt
                                  else s.hist.firstAt[j.task := s.height]))
  }

  /** The user is debited `paid` of the `asked` amount; `b` is the bank after the payouts. */
  function Debit(s: State, j: Job, asked: int, paid: int, b: Bank): State
    requires Payable(s, j) && paid <= s.accounts[j.user.account].balance
  {
    var a := s.accounts[j.user.account];
    s.(accounts := s.accounts[j.user.account := a.(balance := a.balance - paid)],
       bank := b,
       hist := s.hist.(charges := s.hist.charges[j.task := Get(s.hist.charges, j.task) + 1],
                       covered := s.hist.covered && asked <= a.balance - a.frozen,
                       shortfalls := s.hist.shortfalls + (if paid < asked then 1 else 0),
                       credits := s.hist.credits + if paid < 0 then 1 else 0))
  }

  function CreditWorker(s: State, t: TaskId, amount: nat): State {
    s.(hist := s.hist.(workerPaid := s.hist.workerPaid[t := Get(s.hist.workerPaid, t) + amount]))
  }

  /** Debit the user, make the payouts `ps` (of which `share` goes to the worker) and record the
      task. None when a payout failed, in which case nothing is committed. */
  function Charge(s: State, j: Job, asked: int, paid: int, ps: seq<Payout>, share: nat,
                  status: TaskStatus, refused: set<nat>): Option<State>
    requires Payable(s, j) && paid <= s.accounts[j.user.account].balance
  {
    match PayAll(s.bank, ps, refused)
    case None => None
    case Some(b) => Some(Record(CreditWorker(Debit(s, j, asked, paid, b), j.task, share), j, status, paid))
  }

  function Balance(s: State, j: Job): nat
    requires Payable(s, j)
  {
    s.accounts[j.user.account].balance
  }

  /** Charge a successful task: the fee, or the whole balance when that is smaller. */
  function PaySuccess(s: State, j: Job, fee: int, refused: set<nat>, p: Params): Option<State>
    requires Payable(s, j)
  {
    var paid := Min(fee, Balance(s, j));
    if paid <= 0 then Charge(s, j, fee, paid, [], 0, TaskSettled, refused)
    else Charge(s, j, fee, paid, SuccessPayouts(paid, j.worker.account, j.verifiers, p.ratios),
                WorkerShare(paid, j.verifiers, p.ratios), TaskSettled, refused)
  }

  /** The fail fee, truncated toward zero; a negative one is a panic. */
  function FailFee(base: int, p: Params): Option<nat> {
    if base >= 0 then Some(PerMille(base, p.failRatio))
    else if PerMille(-base, p.failRatio) == 0 then Some(0) else None
  }

  /** Charge a failed task: the fail fee, or the whole balance when that is smaller. */
  function PayFail(s: State, j: Job, failFee: nat, refused: set<nat>, p: Params): Option<State>
    requires Payable(s, j)
  {
    var paid := Min(failFee, Balance(s, j));
    Charge(s, j, failFee, paid, if paid == 0 then [] else FailPayouts(paid, j.verifiers, p.ratios), 0,
           TaskFailSettled, refused)
  }

  /** A failed per-token task is recorded whether or not the user could be charged. */
  function PayFailPerToken(s: State, j: Job, failFee: nat, refused: set<nat>, p: Params): State
    requires Payable(s, j)
  {
    var s1 :=
      if failFee == 0 || Balance(s, j) < failFee then s else
        match PayFail(s, j, failFee, refused, p)
        case None => s
        case Some(s1) => s1;
    Record(s1, j, TaskFailSettled, 0)
  }

  // ---------- Batch settlement ----------

  predicate IsPerToken(e: Entry) { e.feeIn > 0 && e.feeOut > 0 }

  predicate SignaturesPresent(e: Entry) {
    && e.userSig != [] && e.workerSig != [] && |e.verifySigs| >= 3
    && forall i :: 0 <= i < |e.verifySigs| ==> e.verifySigs[i] != []
  }

  predicate Expired(expire: int, height: int) { expire > 0 && expire < height }

  predicate Skipped(s: State, e: Entry) {
    || (if IsPerToken(e) then e.maxFee.denom else e.fee.denom) != Ufai
    || e.task in s.settled || e.task in s.fraud || Expired(e.expire, s.height)
    || !SignaturesPresent(e) || !Payable(s, JobOf(e))
  }

  function Addresses(vs: seq<VerifierResult>): (r: seq<Address>)
    ensures |r| == |vs| && forall i :: 0 <= i < |r| ==> r[i] == vs[i].address
  {
    seq(|vs|, i requires 0 <= i < |vs| => vs[i].address)
  }

  function OutReports(vs: seq<VerifierResult>): seq<uint32> {
    seq(|vs|, i requires 0 <= i < |vs| => vs[i].outTokens)
  }

  function InReports(vs: seq<VerifierResult>): seq<uint32> {
    seq(|vs|, i requires 0 <= i < |vs| => vs[i].inTokens)
  }

  function JobOf(e: Entry): Job {
    Job(e.task, e.user, e.worker, Addresses(e.verifiers), e.expire)
  }

  /** No verifier reported output tokens although the worker did. */
  predicate ForcedAudit(e: Entry, p: Params) {
    && IsPerToken(e) && p.perTokenEnabled && e.workerOut > 0
    && forall i :: 0 <= i < |e.verifiers| ==> e.verifiers[i].outTokens == 0
  }

  /** The fee to charge; None when MaxFee is not a uint64 and reading it panics. */
  function ActualFee(e: Entry, p: Params): Option<int> {
    if !IsPerToken(e) then Some(e.fee.amount)
    else if !p.perTokenEnabled then Some(e.maxFee.amount)
    else if !(0 <= e.maxFee.amount < TWO_64) then None
    else
      var outCount := Resolve(e.workerOut, OutReports(e.verifiers), p.tolerance, p.tolerancePct).0;
      var inCount := Resolve(e.workerIn, InReports(e.verifiers), p.tolerance, p.tolerancePct).0;
      Some(CalculatePerTokenFee(inCount, outCount, e.feeIn, e.feeOut, e.maxFee.amount))
  }

  function PendingOf(e: Entry, height: int): Pending {
    var tok := IsPerToken(e);
    Pending(e.task, e.status, height, e.user, e.worker, Addresses(e.verifiers), e.fee.amount, e.expire, false,
            if tok then e.feeIn else 0, if tok then e.feeOut else 0, if tok then e.maxFee.amount else 0,
            if tok then e.workerOut else 0, if tok then e.workerIn else 0)
  }

  /** SetSecondVerificationPending: overwrites the entry, adds a key, removes no older key. */
  function Put(tier: Tier, apt: Pending): Tier {
    Tier(tier.pending[apt.task := apt], tier.index + {(apt.submittedAt, apt.task)})
  }

  /** DeleteSecondVerificationPending. */
  function Drop(tier: Tier, t: TaskId): Tier {
    if t in tier.pending then Tier(tier.pending - {t}, tier.index - {(tier.pending[t].submittedAt, t)})
    else tier
  }

  predicate UnderAudit(s: State, t: TaskId) { t in s.second.pending || t in s.third.pending }

  function OpenAudit(s: State, e: Entry): State {
    var s1 := s.(second := Put(s.second, PendingOf(e, s.height)),
                 hist := s.hist.(originals := s.hist.originals[e.task := Addresses(e.verifiers)],
                                 named := s.hist.named && e.task != [],
                                 reopened := s.hist.reopened + if UnderAudit(s, e.task) then {e.task} else {}));
    Record(s1, JobOf(e), TaskPendingSecondVerification, e.fee.amount)
  }

  /** One batch row: the entry, the VRF draw for it, and the recipients the bank refuses. */
  datatype EntryInput = EntryInput(entry: Entry, audit: bool, refused: set<nat>)

  /** The row is taken and settled at once. */
  predicate SettledNow(s: State, x: EntryInput, p: Params) {
    !Skipped(s, x.entry) && !ForcedAudit(x.entry, p) && !x.audit
  }

  function SettleEntry(s: State, x: EntryInput, p: Params): Flow {
    var e := x.entry;
    if Skipped(s, e) then Go(s)
    else if ForcedAudit(e, p) || x.audit then Go(OpenAudit(s, e))
    else
      match ActualFee(e, p)
      case None => Panicked
      case Some(fee) =>
        if UnfreezePanics(s, e.user.account, e.task) then Panicked else
          // The release is outside the per-entry cache and survives a failed payout.
          var s1 := Unfreeze(s, e.user.account, e.task);
          if e.status == SUCCESS then
            match PaySuccess(s1, JobOf(e), fee, x.refused, p)
            case None => Go(s1)
            case Some(s2) => Go(s2)
          else
            match FailFee(fee, p)
            case None => Panicked
            case Some(failFee) =>
              if IsPerToken(e) then Go(PayFailPerToken(s1, JobOf(e), failFee, x.refused, p)) else
                match PayFail(s1, JobOf(e), failFee, x.refused, p)
                case None => Go(s1)
                case Some(s2) => Go(s2)
  }

  // ---------- Audits ----------

  function AuditJob(apt: Pending): Job {
    Job(apt.task, apt.user, apt.worker, apt.verifiers, apt.expire)
  }

  /** The fee an audited task is settled with; `override` replaces the output count when positive. */
  function BaseFee(apt: Pending, override: uint32): Option<int> {
    if apt.feeIn == 0 && apt.feeOut == 0 then Some(apt.fee)
    else if !(0 <= apt.maxFee < TWO_64) then None
    else Some(CalculatePerTokenFee(apt.inTokens, if override > 0 then override else apt.outTokens,
                                   apt.feeIn, apt.feeOut, apt.maxFee))
  }

  function SettleAudited(s: State, apt: Pending, asSuccess: bool, override: uint32,
                         refused: set<nat>, p: Params): Verdict
  {
    if apt.task in s.fraud then Done(s, true)
    else if !Payable(s, AuditJob(apt)) then Done(s, false)
    else if UnfreezePanics(s, apt.user.account, apt.task) then Crash
    else
      var s1 := Unfreeze(s, apt.user.account, apt.task);
      match BaseFee(apt, override)
      case None => Crash
      case Some(base) =>
        if asSuccess then
          match PaySuccess(s1, AuditJob(apt), base, refused, p)
          case None => Done(s1, false)
          case Some(s2) => Done(s2, true)
        else
          match FailFee(base, p)
          case None => Crash
          case Some(failFee) =>
            match PayFail(s1, AuditJob(apt), failFee, refused, p)
            case None => Done(s1, false)
            case Some(s2) => Done(s2, true)
  }

  function CountPass(results: seq<bool>): nat {
    if results == [] then 0 else (if results[0] then 1 else 0) + CountPass(results[1..])
  }

  lemma {:induction false} CountPassSnoc(results: seq<bool>, r: bool)
    ensures CountPass(results + [r]) == CountPass(results) + if r then 1 else 0
  {
    if results == [] {
      assert results + [r] == [r] && [r][1..] == [];
    } else {
      assert (results + [r])[1..] == results[1..] + [r];
      CountPassSnoc(results[1..], r);
    }
  }

  predicate AuditPass(ar: AuditRecord, p: Params) { CountPass(ar.results) >= p.threshold }

  /** The second verifiers' token counts contradict the settled one. */
  predicate TokenFraud(apt: Pending, ar: AuditRecord, p: Params) {
    && AuditPass(ar, p) && p.perTokenEnabled && apt.feeOut > 0 && apt.outTokens > 0
    && Median(ar.outTokens) > 0
    && var median := Median(ar.outTokens);
       var delta := if apt.outTokens > median then apt.outTokens - median else median - apt.outTokens;
       delta > EffectiveTolerance(apt.outTokens, p.tolerance, p.tolerancePct)
  }

  function Escalate(s: State, apt: Pending): State {
    s.(third := Put(s.third, apt.(submittedAt := s.height, third := true)),
       second := Drop(s.second, apt.task))
  }

  /** The token counts were false: release, record as failed, and charge the fail fee recomputed
      from the second verifiers' count. */
  function SettleTokenFraud(s: State, apt: Pending, ar: AuditRecord, refused: set<nat>, p: Params): Flow {
    if apt.user.Bech32? && UnfreezePanics(s, apt.user.account, apt.task) then Panicked else
      var s1 := if apt.user.Bech32? then Unfreeze(s, apt.user.account, apt.task) else s;
      var s2 := Record(s1, AuditJob(apt), TaskFailed, 0);
      match SettleAudited(s2.(second := Drop(s2.second, apt.task)), apt, false, Median(ar.outTokens), refused, p)
      case Crash => Panicked
      case Done(s3, _) => Go(s3)
  }

  /** The audit overturns SUCCESS: nobody pays, and the reservation is left in place. */
  function Overturn(s: State, apt: Pending): State {
    var s1 := Record(s, AuditJob(apt), TaskFailed, 0);
    s1.(second := Drop(s1.second, apt.task))
  }

  /** Settle as the audit says; the entry stays pending when the settlement did not go through. */
  function SettleByAudit(s: State, apt: Pending, ar: AuditRecord, refused: set<nat>, p: Params): Flow {
    var asSuccess := AuditPass(ar, p) && (apt.status == SUCCESS || apt.status == FAIL);
    match SettleAudited(s, apt, asSuccess, 0, refused, p)
    case Crash => Panicked
    case Done(s1, settled) => Go(if settled then s1.(second := Drop(s1.second, apt.task)) else s1)
  }

  function CountJudgment(s: State, t: TaskId): State {
    s.(hist := s.hist.(judged := s.hist.judged[t := Get(s.hist.judged, t) + 1]))
  }

  /** processAuditJudgment on a task with the pending second-tier entry `apt`. */
  function Judge(s0: State, apt: Pending, ar: AuditRecord, escalate: bool, refused: set<nat>, p: Params): Flow {
    var s := CountJudgment(s0, apt.task);
    if apt.third then Go(s) // the third-tier judgment, which no reachable state gets to
    else if escalate then Go(Escalate(s, apt))
    else if TokenFraud(apt, ar, p) then SettleTokenFraud(s, apt, ar, refused, p)
    else if apt.status == SUCCESS && !AuditPass(ar, p) then Go(Overturn(s, apt))
    else SettleByAudit(s, apt, ar, refused, p)
  }

  datatype AuditInput = AuditInput(task: TaskId, verifier: Address, pass: bool, inTokens: uint32, outTokens: uint32,
                                   authentic: bool, escalate: bool, refused: set<nat>)

  predicate AuditRejected(s: State, m: AuditInput, p: Params) {
    || !m.authentic || !m.verifier.Bech32?
    || (m.task in s.audits && |s.audits[m.task].verifiers| >= p.secondVerifiers)
    || m.task !in s.second.pending
    || Expired(s.second.pending[m.task].expire, s.height)
    || m.verifier in s.second.pending[m.task].verifiers
    || (m.task in s.audits && m.verifier in s.audits[m.task].verifiers)
  }

  function Extend(ar: AuditRecord, m: AuditInput, height: int): AuditRecord {
    AuditRecord(ar.verifiers + [m.verifier], ar.results + [m.pass],
                ar.inTokens + [m.inTokens], ar.outTokens + [m.outTokens], height)
  }

  /** ProcessSecondVerificationResult, for an entry whose signature check gave `authentic`. */
  function AuditResult(s: State, m: AuditInput, p: Params): Flow {
    if AuditRejected(s, m, p) then Go(s) else
      var was := if m.task in s.audits then s.audits[m.task] else AuditRecord([], [], [], [], 0);
      var ar := Extend(was, m, s.height);
      var s1 := s.(audits := s.audits[m.task := ar]);
      if |ar.results| >= p.secondVerifiers then
        Judge(s1, s1.second.pending[m.task], ar, m.escalate, m.refused, p)
      else Go(s1)
  }

  // ---------- Fraud proofs ----------

  /** `evidence` stands for the pubkey lookup, both signatures and the differing hashes. */
  datatype FraudMsg = FraudMsg(reporter: Address, task: TaskId, worker: Address, evidence: bool, refused: set<nat>)

  predicate FraudRejected(s: State, m: FraudMsg, p: Params) {
    || m.task in s.fraud || !m.worker.Bech32? || !m.evidence
    || (m.task !in s.settled && m.task !in s.second.pending && m.task !in s.reserved)
    || (m.task in s.settled &&
        var r := s.settled[m.task];
        || (r.worker != Empty && r.worker != m.worker)
        || (r.settledAt > 0 && s.height > r.settledAt + p.fraudWindow)
        || (r.user != Empty && r.user != m.reporter))
    || (m.task !in s.settled && m.task in s.second.pending &&
        var q := s.second.pending[m.task];
        || (q.submittedAt > 0 && s.height > q.submittedAt + p.fraudWindow)
        || (q.user != Empty && q.user != m.reporter))
  }

  /** SendCoins between two ordinary accounts. */
  function Transfer(b: Bank, from: nat, to: nat, amount: nat, refused: set<nat>): Option<Bank> {
    if to in refused || Get(b.wallets, from) < amount then None else
      var w := b.wallets[from := Get(b.wallets, from) - amount];
      Some(b.(wallets := w[to := Get(w, to) + amount]))
  }

  /** Recover the executor share of a settled fee from the worker; a failed transfer is only logged. */
  function Clawback(s: State, m: FraudMsg, r: Settled, p: Params): State
    requires m.worker.Bech32?
  {
    var refund := if r.user.Bech32? then r.user else m.reporter;
    var amount := if r.fee > 0 then PerMille(r.fee, p.ratios.executor) else 0;
    if amount == 0 || !refund.Bech32? then s else
      match Transfer(s.bank, m.worker.account, refund.account, amount, m.refused)
      case None => s
      case Some(b) =>
        s.(bank := b, hist := s.hist.(clawed := s.hist.clawed[m.task := Get(s.hist.clawed, m.task) + amount]))
  }

  /** Mark the task and, if it was settled successfully, turn its record into TaskFraud and claw back. */
  function Convict(s: State, m: FraudMsg, p: Params): State
    requires m.worker.Bech32?
  {
    var s1 := s.(fraud := s.fraud + {m.task});
    if m.task in s.settled && s.settled[m.task].status == TaskSettled then
      var r := s.settled[m.task];
      Clawback(s1.(settled := s1.settled[m.task := r.(status := TaskFraud)],
                   hist := s1.hist.(defrauded := s1.hist.defrauded + {m.task})), m, r, p)
    else s1
  }

  function FraudProof(s: State, m: FraudMsg, p: Params): State {
    if FraudRejected(s, m, p) then s else Convict(s, m, p)
  }

  // ---------- End of block ----------

  predicate CleanupDue(r: Settled, height: int, p: Params) {
    r.expire != 0 && r.settledAt > 0 && r.settledAt < height - p.cleanupBuffer
  }

  /** The record of a task made at height `at` outlives every block in which the task could be batched. */
  predicate SafeExpiry(expire: int, at: int, p: Params) {
    expire == 0 || 0 < expire <= at + p.cleanupBuffer + 1
  }

  function Cleanup(s: State, p: Params): State {
    s.(settled := map t | t in s.settled && !CleanupDue(s.settled[t], s.height, p) :: s.settled[t])
  }

  /** The timeout keys an index scan up to `cutoff` visits, in some order. */
  ghost predicate IsScan(keys: seq<TimeoutKey>, index: set<TimeoutKey>, cutoff: int) {
    && (forall k :: k in keys <==> k in index && k.0 <= cutoff)
    && (forall i, j :: 0 <= i < j < |keys| ==> keys[i] != keys[j])
  }

  /** The pending entries the scan picks up: keys with an empty task id or no entry are passed over. */
  function Collect(pending: map<TaskId, Pending>, keys: seq<TimeoutKey>): (r: seq<Pending>)
    ensures |r| <= |keys|
  {
    if keys == [] then [] else
      var t := keys[0].1;
      (if t != [] && t in pending then [pending[t]] else []) + Collect(pending, keys[1..])
  }

  function TierOf(s: State, third: bool): Tier { if third then s.third else s.second }

  function WithTier(s: State, third: bool, tier: Tier): State {
    if third then s.(third := tier) else s.(second := tier)
  }

  /** What a timed-out task is settled as: the original verdict, or for the third tier the audit's. */
  predicate TimeoutSuccess(s: State, apt: Pending, third: bool, p: Params) {
    if third && apt.task in s.audits then AuditPass(s.audits[apt.task], p) else apt.status == SUCCESS
  }

  /** Force a terminal record if the settlement did not go through, then delete the entry and
      the key paired with it. */
  function CloseOut(s: State, settled: bool, apt: Pending, key: TimeoutKey, third: bool): State {
    var s1 := if settled then s else Record(s, AuditJob(apt), TaskFailed, 0);
    var tier := TierOf(s1, third);
    WithTier(s1, third, Tier(tier.pending - {apt.task}, tier.index - {key}))
  }

  /** Settle one timed-out entry. */
  function Finish(s: State, apt: Pending, key: TimeoutKey, third: bool, refused: set<nat>, p: Params): Flow {
    match SettleAudited(s, apt, TimeoutSuccess(s, apt, third, p), 0, refused, p)
    case Crash => Panicked
    case Done(s1, settled) => Go(CloseOut(s1, settled, apt, key, third))
  }

  /** The second loop of processTimeoutsByIndex, pairing entry i with key i. */
  function Sweep(s: State, apts: seq<Pending>, keys: seq<TimeoutKey>, third: bool,
                 refused: set<nat>, p: Params): Flow
    requires |apts| <= |keys|
    decreases |apts|
  {
    if apts == [] then Go(s) else
      match Finish(s, apts[0], keys[0], third, refused, p)
      case Panicked => Panicked
      case Go(s1) => Sweep(s1, apts[1..], keys[1..], third, refused, p)
  }

  function Timeouts(s: State, keys: seq<TimeoutKey>, third: bool, refused: set<nat>, p: Params): Flow {
    if s.height - (if third then p.thirdTimeout else p.secondTimeout) <= 0 then Go(s)
    else Sweep(s, Collect(TierOf(s, third).pending, keys), keys, third, refused, p)
  }

  /** Cleanup, then both timeout sweeps, then the next block begins. */
  function EndBlock(s: State, scan2: seq<TimeoutKey>, scan3: seq<TimeoutKey>, refused: set<nat>, p: Params): Flow {
    match Timeouts(Cleanup(s, p), scan2, false, refused, p)
    case Panicked => Panicked
    case Go(s1) =>
      match Timeouts(s1, scan3, true, refused, p)
      case Panicked => Panicked
      case Go(s2) => Go(s2.(height := s2.height + 1))
  }

  // ---------- Messages with many rows ----------

  function ReserveAll(s: State, es: seq<ReserveEntry>): Flow
    decreases |es|
  {
    if es == [] then Go(s) else
      match Reserve(s, es[0])
      case Panicked => Panicked
      case Go(s1) => ReserveAll(s1, es[1..])
  }

  function SettleAll(s: State, xs: seq<EntryInput>, p: Params): Flow
    decreases |xs|
  {
    if xs == [] then Go(s) else
      match SettleEntry(s, xs[0], p)
      case Panicked => Panicked
      case Go(s1) => SettleAll(s1, xs[1..], p)
  }

  function AuditAll(s: State, ms: seq<AuditInput>, p: Params): Flow
    decreases |ms|
  {
    if ms == [] then Go(s) else
      match AuditResult(s, ms[0], p)
      case Panicked => Panicked
      case Go(s1) => AuditAll(s1, ms[1..], p)
  }

  /** A transaction that panics leaves no trace. */
  function Commit(s: State, f: Flow): State {
    match f case Panicked => s case Go(s1) => s1
  }
}
