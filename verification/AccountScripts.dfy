/** The operations of a managed account as sequences of steps, given what the chain, the clock and
    the store answer (src/account/managed-account.ts). */
module AccountScripts {
  import opened Records
  import opened FeeOracles
  import opened Cursors
  import opened AccountProtocol

  /** The account after some more steps, if each of them was enabled. */
  function Perform(cfg: Config, a: Address, c: Account, steps: seq<Step>): Result<Account>
    decreases |steps|
  {
    if steps == [] then Ok(c)
    else if !Enabled(cfg, a, c, steps[0]) then Err
    else Perform(cfg, a, Next(cfg, a, c, steps[0]), steps[1..])
  }

  datatype Policy = Policy(confirmations: int, stuckAfterMs: int)

  /** What becomes of a raw transaction handed to the node; OtherError covers signing too. */
  datatype SendAnswer = Sent(hash: Hash) | DriftError | OtherError

  // ----- submit -----

  datatype Request = Request(sub: Submission, gasLimit: Option<int>)

  /** stored: whether the write-ahead succeeds; chainNonce: the pending count read after a drift,
      0 if reading fails. */
  datatype SubmitAnswers = SubmitAnswers(
    baseFee: Result<Option<int>>, gas: Result<int>, stored: bool, send: SendAnswer, chainNonce: nat,
    at: int, liveAt: int, error: ErrorText, droppedAt: int)

  /** The oracle's first estimate; only the EIP-1559 one asks the chain. */
  function Price(o: Oracle, baseFee: Result<Option<int>>): Result<Fees> {
    if o.LegacyOracle? then Estimate(o, None)
    else if baseFee.Err? then Err
    else Estimate(o, baseFee.value)
  }

  function GasFor(req: Request, ans: SubmitAnswers): Result<int> {
    if req.gasLimit.Some? then Ok(req.gasLimit.value) else ans.gas
  }

  /** There is a price and a gas limit, and the store takes the write-ahead. */
  predicate Priced(cfg: Config, req: Request, ans: SubmitAnswers) {
    Price(cfg.oracle, ans.baseFee).Ok? && GasFor(req, ans).Ok? && ans.stored
  }

  /** From the send on. */
  function OutcomeScript(ans: SubmitAnswers): seq<Step> {
    match ans.send
    case Sent(hash) =>
      [Submitting(SendOk(hash)), Submitting(WroteLive(ans.liveAt)), Submitting(TrackedLive), Submitting(ClosedTurn)]
    case DriftError =>
      [Submitting(SendBad(true)), Submitting(DroppedIntent(ans.error, ans.droppedAt)), Submitting(Reseeded(ans.chainNonce))]
    case OtherError =>
      [Submitting(SendBad(false)), Submitting(DroppedIntent(ans.error, ans.droppedAt))]
  }

  /** From the write-ahead on. */
  function SendScript(cfg: Config, req: Request, ans: SubmitAnswers): seq<Step>
    requires Priced(cfg, req, ans)
  {
    [Submitting(WroteAhead(Price(cfg.oracle, ans.baseFee).value, GasFor(req, ans).value, ans.at))] + OutcomeScript(ans)
  }

  predicate Admits(cfg: Config, c: Account, req: Request, ans: SubmitAnswers) {
    |c.tracked| < cfg.maxInflight && Priced(cfg, req, ans)
  }

  function SubmitScript(cfg: Config, c: Account, req: Request, ans: SubmitAnswers): seq<Step> {
    [Submitting(OpenedTurn(req.sub))] +
    (if |c.tracked| >= cfg.maxInflight then [Submitting(CapReached)]
     else [Submitting(BelowCap)] + if Priced(cfg, req, ans) then SendScript(cfg, req, ans) else [Submitting(GaveUp)])
  }

  // ----- the reconcile tick -----

  datatype Receipt = Receipt(reverted: bool, blockNumber: int)

  /** What one record meets in a tick. */
  datatype Answers = Answers(
    receipt: Result<Option<Receipt>>, head: Result<int>, now: int, send: SendAnswer, stored: bool,
    giveUp: ErrorText)

  /** An event handed to the sink of the account. */
  datatype Notice = Notice(key: Key, event: Event, attempts: int)

  datatype Plan = Plan(steps: seq<TickStep>, head: Option<int>, notices: seq<Notice>)

  function SettlePlan(r: TxRecord, status: Status, error: Option<ErrorText>, head: Option<int>, ans: Answers): Plan
    requires IsTerminal(status)
  {
    if ans.stored then
      Plan([WroteTerminal(status, error, ans.now), DroppedTx, NotifiedEnd], head, [Notice(r.key, EndEvent(status), r.attempts)])
    else Plan([Skipped], head, [])
  }

  /** The chain head is read at most once in a tick, for the first receipt that needs it. */
  function HeadOf(head: Option<int>, ans: Answers): Option<int> {
    if head.Some? then head else if ans.head.Ok? then Some(ans.head.value) else None
  }

  function ReplacePlan(cfg: Config, r: TxRecord, head: Option<int>, ans: Answers): Plan {
    if Bump(cfg.oracle, r.fees).Err? then Plan([Skipped], head, [])
    else if !ans.send.Sent? then Plan([ResentBad], head, [])
    else if ans.stored then
      Plan([ResentOk(ans.send.hash), WroteReplaced(ans.now), CachedUpdate, NotifiedUpdate], head,
           [Notice(r.key, EvReplaced, r.attempts + 1)])
    else Plan([ResentOk(ans.send.hash), LostReplaced], head, [])
  }

  /** One record of the tick: confirm, revert, mark mined, replace, give up or wait. */
  function Visit(cfg: Config, policy: Policy, r: TxRecord, head: Option<int>, ans: Answers): Plan {
    match ans.receipt
    case Err => Plan([Skipped], head, [])
    case Ok(Some(receipt)) =>
      if receipt.reverted then SettlePlan(r, Reverted, None, head, ans)
      else
        var top := HeadOf(head, ans);
        if top.None? then Plan([Skipped], None, [])
        else if top.value - receipt.blockNumber + 1 >= policy.confirmations then SettlePlan(r, Confirmed, None, top, ans)
        else if r.minedEmitted || !ans.stored then Plan([Skipped], top, [])
        else Plan([WroteMined(ans.now), CachedUpdate, NotifiedUpdate], top, [Notice(r.key, EvMined, r.attempts)])
    case Ok(None) =>
      if ans.now - r.submittedAt < policy.stuckAfterMs || !MayReplace(r) then Plan([Skipped], head, [])
      else if r.attempts >= cfg.maxAttempts then SettlePlan(r, Failed, Some(ans.giveUp), head, ans)
      else ReplacePlan(cfg, r, head, ans)
  }

  function VisitAll(cfg: Config, policy: Policy, todo: seq<TxRecord>, head: Option<int>, answers: nat -> Answers): Plan
    decreases |todo|
  {
    if todo == [] then Plan([], head, [])
    else
      var first := Visit(cfg, policy, todo[0], head, answers(todo[0].nonce));
      var rest := VisitAll(cfg, policy, todo[1..], first.head, answers);
      Plan(first.steps + rest.steps, rest.head, first.notices + rest.notices)
  }

  function Ticks(steps: seq<TickStep>): seq<Step> {
    seq(|steps|, i requires 0 <= i < |steps| => Ticking(steps[i]))
  }

  lemma TicksConcat(s: seq<TickStep>, t: seq<TickStep>)
    ensures Ticks(s + t) == Ticks(s) + Ticks(t)
  {
  }

  /** Nothing in flight: the tick returns at once. */
  function TickScript(cfg: Config, policy: Policy, list: seq<TxRecord>, answers: nat -> Answers): seq<TickStep> {
    if list == [] then []
    else [BeganTick(list)] + VisitAll(cfg, policy, list, None, answers).steps + [EndedTick]
  }

  // ----- reattach -----

  /** What reattach is told about a transaction sent elsewhere. */
  datatype Foundling = Foundling(
    key: Key, nonce: nat, hash: Hash, fees: Fees, orderingKey: Option<OrderingKey>, metadata: Option<Metadata>)

  /** A record without payload: its receipt is awaited, it is never replaced. */
  function Placeholder(cfg: Config, a: Address, zero: Address, f: Foundling, now: int): TxRecord {
    TxRecord(f.key, cfg.ownerId, cfg.chainId, a, f.nonce, zero, None, None, 0, f.fees, f.hash, Broadcast, 1, now, false,
             f.orderingKey, f.metadata, None, Some(false), now)
  }

  // ----- restore -----

  /** storeDrift: the store error reads as nonce drift, so the row is written once more. */
  datatype ResendAnswers = ResendAnswers(
    send: SendAnswer, stored: bool, storeDrift: bool, storedAgain: bool, at: int, againAt: int)

  function SaveScript(n: nat, stored: bool, at: int): seq<Step> {
    if stored then [Recovering(WroteRebroadcast(n)), Recovering(CachedRebroadcast(n))]
    else [Recovering(LostRebroadcast(n, false, at))]
  }

  function RebroadcastScript(n: nat, ans: ResendAnswers): seq<Step> {
    match ans.send
    case OtherError => [Recovering(RebroadcastBad(n))]
    case DriftError => [Recovering(RebroadcastDrift(n, ans.at))] + SaveScript(n, ans.stored, ans.at)
    case Sent(hash) =>
      [Recovering(RebroadcastOk(n, hash, ans.at))] +
      if ans.stored || !ans.storeDrift then SaveScript(n, ans.stored, ans.at)
      else [Recovering(LostRebroadcast(n, true, ans.againAt))] + SaveScript(n, ans.storedAgain, ans.againAt)
  }
}
