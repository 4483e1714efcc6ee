/** A managed account as an object over the cache and the store (src/account/managed-account.ts),
    proved to take exactly the steps of the account protocol.

    The ghost trace records the steps of this account since its first use; Valid says that the
    object, its cache entries and its rows are what a run with that trace leads to, so whatever is
    proved of all runs of an account holds of the object. */
module ManagedAccounts {
  import opened Records
  import opened FeeOracles
  import opened Cursors
  import opened AccountProtocol
  import opened AccountInvariant
  import opened AccountWrites
  import opened AccountSteps
  import opened AccountScripts
  import opened Outcomes
  import opened MemoryStore
  import opened Cache
  import PoolProtocol
  import PoolViews

  datatype Submitted = Submitted(account: Address, nonce: nat, hash: Hash, fees: Fees)

  /** The account's rows in the table. */
  function Share(cfg: Config, a: Address, table: map<Key, TxRecord>): map<Key, TxRecord> {
    map k | k in table && table[k].account == a && table[k].ownerId == cfg.ownerId && table[k].chainId == cfg.chainId :: table[k]
  }

  /** Rows of other accounts, owners and chains. */
  function Others(cfg: Config, a: Address, table: map<Key, TxRecord>): map<Key, TxRecord> {
    table - Share(cfg, a, table).Keys
  }

  lemma ShareUpsert(cfg: Config, a: Address, table: map<Key, TxRecord>, r: TxRecord)
    requires r.account == a && r.ownerId == cfg.ownerId && r.chainId == cfg.chainId
    requires r.key in table ==> r.key in Share(cfg, a, table)
    ensures Share(cfg, a, Upsert(table, r)) == Upsert(Share(cfg, a, table), r)
    ensures Others(cfg, a, Upsert(table, r)) == Others(cfg, a, table)
  {
  }

  datatype Surroundings = Surroundings(
    rows: map<Key, TxRecord>, gauges: map<AccountId, AccountRecord>, cached: OtherAccounts, ordering: map<OrderingKey, Binding>)

  /** A step that writes shows the same in the table as in the account's rows. */
  lemma WriteShows(cfg: Config, a: Address, steps: seq<Step>, c: Account, s: Step, r: TxRecord, table: map<Key, TxRecord>)
    requires Run(cfg, a, steps) == Ok(c) && Enabled(cfg, a, c, s) && PoolProtocol.WrittenBy(cfg, a, c, s) == Some(r)
    requires c.rows == Share(cfg, a, table)
    requires PoolViews.StartsLife(s) ==> r.key !in table
    ensures r.account == a && Share(cfg, a, Upsert(table, r)) == Next(cfg, a, c, s).rows
    ensures Others(cfg, a, Upsert(table, r)) == Others(cfg, a, table)
  {
    hide Run, Inv, Share, Others, Upsert, Enabled, PoolProtocol.WrittenBy, PoolViews.StartsLife;
    RunKeeps(cfg, a, steps);
    PoolViews.StepWrites(cfg, a, c, s);
    PoolViews.StepRows(cfg, a, c, s);
    ShareUpsert(cfg, a, table, r);
  }

  class ManagedAccount {
    const cfg: Config
    const policy: Policy
    /** The index of the signer in its wallet, if it is derived. */
    const derivationIndex: Option<int>
    const address: Address
    const cache: InMemoryCache
    const store: InMemoryStore
    /** What the sink of the account was handed, in order. */
    var emitted: seq<Notice>
    ghost var model: Account
    ghost var trace: seq<Step>

    /** A new process over the store that earlier runs of the account left behind. */
    constructor Start(cfg: Config, policy: Policy, derivationIndex: Option<int>, address: Address,
                      cache: InMemoryCache, store: InMemoryStore, ghost past: seq<Step>)
      requires cache.Valid() && cache.Cursor(address) == None && cache.Tracked(address) == map[] && !cache.Busy(address)
      requires Run(cfg, address, past).Ok?
      requires Run(cfg, address, past).value.rows == Share(cfg, address, store.transactions)
      ensures Valid() && emitted == []
      ensures this.cfg == cfg && this.policy == policy && this.derivationIndex == derivationIndex
      ensures this.address == address && this.cache == cache && this.store == store
      ensures trace == past + [Recovering(Crashed)] + [Recovering(Booted)]
      ensures model == Boot(Crash(Run(cfg, address, past).value))
    {
      this.cfg, this.policy, this.derivationIndex := cfg, policy, derivationIndex;
      this.address, this.cache, this.store := address, cache, store;
      emitted := [];
      model := Boot(Crash(Run(cfg, address, past).value));
      trace := past + [Recovering(Crashed)] + [Recovering(Booted)];
      new;
      RunAppend(cfg, address, past, Recovering(Crashed));
      RunAppend(cfg, address, past + [Recovering(Crashed)], Recovering(Booted));
    }

    ghost predicate Mirrors()
      reads this, cache, cache.lanes.Values, store
    {
      && cache.Valid()
      && model.rows == Share(cfg, address, store.transactions)
      && model.tracked == cache.Tracked(address)
      && model.cursor == cache.Cursor(address)
    }

    ghost predicate Valid()
      reads this, cache, cache.lanes.Values, store
    {
      Mirrors() && Run(cfg, address, trace) == Ok(model)
    }

    /** What this account shares with others and must not touch. */
    ghost function Rest(): Surroundings
      reads this, cache, cache.lanes.Values, store
    {
      Surroundings(Others(cfg, address, store.transactions), store.accounts, cache.Elsewhere(address), cache.ordering)
    }

    ghost predicate CanStep(s: Step)
      reads this
    {
      Enabled(cfg, address, model, s)
    }

    /** The protocol step that the object has just taken. */
    twostate predicate Took(s: Step)
      reads this
      requires old(CanStep(s))
    {
      model == Next(cfg, address, old(model), s) && trace == old(trace) + [s]
    }

    // ----- single steps: one access to the cache or the store -----

    /** The object takes a step that the protocol allows. */
    ghost method Advance(s: Step)
      requires Run(cfg, address, trace) == Ok(model) && CanStep(s)
      modifies this`model, this`trace
      ensures Run(cfg, address, trace) == Ok(model) && Took(s)
    {
      RunAppend(cfg, address, trace, s);
      model := Next(cfg, address, model, s);
      trace := trace + [s];
    }

    /** A step without a trace in the cache or the store. */
    ghost method Pass(s: Step)
      requires Valid() && CanStep(s)
      requires var d := Next(cfg, address, model, s); d.rows == model.rows && d.tracked == model.tracked && d.cursor == model.cursor
      modifies this`model, this`trace
      ensures Valid() && Took(s) && Rest() == old(Rest())
    {
      hide Enabled, Next, Run, Share, Others;
      Advance(s);
    }

    method Persist(rec: TxRecord, ghost s: Step)
      requires Valid() && CanStep(s) && PoolProtocol.WrittenBy(cfg, address, model, s) == Some(rec)
      requires PoolViews.StartsLife(s) ==> rec.key !in store.transactions
      requires var d := Next(cfg, address, model, s); d.tracked == model.tracked && d.cursor == model.cursor
      modifies this`model, this`trace, store
      ensures Valid() && Took(s) && Rest() == old(Rest()) && rec.account == address
    {
      hide Enabled, Next, Run, PoolProtocol.WrittenBy, PoolViews.StartsLife, Share, Others, Upsert;
      WriteShows(cfg, address, trace, model, s, rec, store.transactions);
      store.UpsertTransaction(rec);
      Advance(s);
    }

    method Track(rec: TxRecord, ghost s: Step)
      requires Valid() && CanStep(s) && rec.account == address
      requires var d := Next(cfg, address, model, s);
               d.rows == model.rows && d.tracked == model.tracked[rec.nonce := rec] && d.cursor == model.cursor
      modifies this`model, this`trace, cache`txs
      ensures Valid() && Took(s) && Rest() == old(Rest())
    {
      hide Enabled, Next, Run, Share, Others;
      cache.PutTx(rec);
      Advance(s);
    }

    method Untrack(nonce: nat, ghost s: Step)
      requires Valid() && CanStep(s)
      requires var d := Next(cfg, address, model, s);
               d.rows == model.rows && d.tracked == model.tracked - {nonce} && d.cursor == model.cursor
      modifies this`model, this`trace, cache`txs
      ensures Valid() && Took(s) && Rest() == old(Rest())
    {
      hide Enabled, Next, Run, Share, Others;
      cache.DropTx(address, nonce);
      Advance(s);
    }

    method SeedLane(atLeast: nat, ghost s: Step)
      requires Valid() && CanStep(s)
      requires var d := Next(cfg, address, model, s);
               d.rows == model.rows && d.tracked == model.tracked && d.cursor == SeedCursor(model.cursor, atLeast)
      modifies this`model, this`trace, cache`lanes, cache.lanes.Values
      ensures Valid() && Took(s) && Rest() == old(Rest()) && fresh(cache.lanes.Values - old(cache.lanes.Values))
      ensures cache.Busy(address) <==> old(cache.Busy(address))
    {
      hide Enabled, Next, Run, Share, Others;
      cache.SeedNonce(address, atLeast);
      Advance(s);
    }

    method OpenLane(sub: Submission) returns (nonce: nat)
      requires Valid() && !cache.Busy(address) && CanOpenTurn(model, sub)
      modifies this`model, this`trace, cache`lanes, cache.lanes.Values
      ensures Valid() && old(CanStep(Submitting(OpenedTurn(sub)))) && Took(Submitting(OpenedTurn(sub)))
      ensures Rest() == old(Rest())
      ensures fresh(cache.lanes.Values - old(cache.lanes.Values))
      ensures cache.Busy(address) && nonce == NextNonce(old(model.cursor))
    {
      hide Run, Share, Others, KeyFree, TickEnabled, TickNext, BootEnabled, BootNext;
      nonce := cache.OpenTurn(address);
      Advance(Submitting(OpenedTurn(sub)));
    }

    method CloseLane(nonce: nat)
      requires Valid() && cache.Busy(address) && model.turn.Landed? && model.turn.rec.nonce == nonce
      modifies this`model, this`trace, cache.lanes.Values
      ensures Valid() && old(CanStep(Submitting(ClosedTurn))) && Took(Submitting(ClosedTurn)) && Rest() == old(Rest())
      ensures !cache.Busy(address)
    {
      hide Run, Share, Others, KeyFree, TickEnabled, TickNext, BootEnabled, BootNext;
      cache.CloseTurn(address, nonce);
      Advance(Submitting(ClosedTurn));
    }

    /** The function of the lane turn throws. */
    method FailLane()
      requires Valid() && cache.Busy(address)
      modifies cache.lanes.Values
      ensures Valid() && !cache.Busy(address) && Rest() == old(Rest())
    {
      hide Run, Share, Others;
      cache.FailTurn(address);
    }

    method CountInflight() returns (count: nat)
      requires Valid()
      ensures count == |model.tracked|
    {
      hide Run, Share, Others;
      count := cache.CountTxs(address);
    }

    /** Hand an event to the sink. */
    method Notify(rec: TxRecord, event: Event)
      requires Valid()
      modifies this`emitted
      ensures Valid() && Rest() == old(Rest())
      ensures emitted == old(emitted) + [Notice(rec.key, event, rec.attempts)]
    {
      hide Run, Share, Others;
      emitted := emitted + [Notice(rec.key, event, rec.attempts)];
    }

    // ----- submit -----

    ghost method PassSubmit(s: SubmitStep)
      requires Valid() && SubmitEnabled(cfg, model, s)
      requires s.CapReached? || s.BelowCap? || s.GaveUp? || s.SendOk? || s.SendBad?
      modifies this`model, this`trace
      ensures Valid() && model == SubmitNext(cfg, address, old(model), s) && trace == old(trace) + [Submitting(s)]
      ensures Rest() == old(Rest())
    {
      hide Run, Share, Others, KeyFree, TickEnabled, TickNext, BootEnabled, BootNext;
      Pass(Submitting(s));
    }

    method SubmitTurn(req: Request, ans: SubmitAnswers) returns (r: Result<Submitted>)
      requires Valid() && !cache.Busy(address) && CanOpenTurn(model, req.sub) && req.sub.key !in store.transactions
      modifies this`model, this`trace, cache`lanes, cache`txs, cache.lanes.Values, store
      ensures Valid() && !cache.Busy(address) && Rest() == old(Rest())
      ensures fresh(cache.lanes.Values - old(cache.lanes.Values))
      ensures trace == old(trace) + SubmitScript(cfg, old(model), req, ans)
      ensures r.Ok? <==> Admits(cfg, old(model), req, ans) && ans.send.Sent?
      ensures r.Ok? ==> r.value == Submitted(address, NextNonce(old(model.cursor)), ans.send.hash, Price(cfg.oracle, ans.baseFee).value)
    {
      hide Valid, Mirrors, Rest, Run, Share, Others, KeyFree, Price, GasFor, SendScript, TickEnabled, TickNext, BootEnabled, BootNext;
      var nonce := OpenLane(req.sub);
      var count := CountInflight();
      if count >= cfg.maxInflight {
        FailLane();
        PassSubmit(CapReached);
        return Err;
      }
      PassSubmit(BelowCap);
      ghost var entered := trace;
      r := Prepare(req, ans, nonce);
      Chained(old(trace), Submitting(OpenedTurn(req.sub)), Submitting(BelowCap), trace[|entered|..]);
    }

    lemma SubmitLeaves(before: seq<Step>, was: Account, req: Request, ans: SubmitAnswers)
      requires Valid() && Run(cfg, address, before) == Ok(was) && CanOpenTurn(was, req.sub)
      requires trace == before + SubmitScript(cfg, was, req, ans)
      ensures AllOrNothing(cfg, address, was, req, ans, model)
    {
      hide Run, Share, Others, CanOpenTurn, SubmitScript, AllOrNothing;
      RunThenPerform(cfg, address, before, was, SubmitScript(cfg, was, req, ans));
      SubmitIsAllOrNothing(cfg, address, was, req, ans);
    }

    /** One lane turn, with nothing else in between. The caller does not reuse the key of a live
        transaction. */
    method Submit(req: Request, ans: SubmitAnswers) returns (r: Result<Submitted>)
      requires Valid() && !cache.Busy(address) && CanOpenTurn(model, req.sub) && req.sub.key !in store.transactions
      modifies this`model, this`trace, cache`lanes, cache`txs, cache.lanes.Values, store
      ensures Valid() && !cache.Busy(address) && Rest() == old(Rest())
      ensures fresh(cache.lanes.Values - old(cache.lanes.Values))
      ensures trace == old(trace) + SubmitScript(cfg, old(model), req, ans)
      ensures r.Ok? <==> Admits(cfg, old(model), req, ans) && ans.send.Sent?
      ensures r.Ok? ==> r.value == Submitted(address, NextNonce(old(model.cursor)), ans.send.hash, Price(cfg.oracle, ans.baseFee).value)
      ensures AllOrNothing(cfg, address, old(model), req, ans, model)
    {
      hide Mirrors, Rest, Run, Share, Others, CanOpenTurn, SubmitScript, AllOrNothing, Admits, Price;
      r := SubmitTurn(req, ans);
      SubmitLeaves(old(trace), old(model), req, ans);
    }

    /** Price the transaction and persist the intent to send it. */
    method Prepare(req: Request, ans: SubmitAnswers, nonce: nat) returns (r: Result<Submitted>)
      requires Valid() && cache.Busy(address) && model.turn == Admitted(req.sub, nonce) && model.mode.Up?
      requires req.sub.key !in store.transactions
      modifies this`model, this`trace, cache`lanes, cache`txs, cache.lanes.Values, store
      ensures Valid() && !cache.Busy(address) && Rest() == old(Rest())
      ensures fresh(cache.lanes.Values - old(cache.lanes.Values))
      ensures trace == old(trace) + (if !Priced(cfg, req, ans) then [Submitting(GaveUp)] else SendScript(cfg, req, ans))
      ensures r.Ok? <==> Priced(cfg, req, ans) && ans.send.Sent?
      ensures r.Ok? ==> r.value == Submitted(address, nonce, ans.send.hash, Price(cfg.oracle, ans.baseFee).value)
    {
      hide Valid, Mirrors, Rest, Run, Share, Others, KeyFree, Price, TickEnabled, TickNext, BootEnabled, BootNext;
      var fees, gas := Price(cfg.oracle, ans.baseFee), GasFor(req, ans);
      if fees.Err? || gas.Err? || !ans.stored {
        FailLane();
        PassSubmit(GaveUp);
        return Err;
      }
      var rec := NewRecord(cfg, address, req.sub, nonce, fees.value, gas.value, ans.at);
      Persist(rec, Submitting(WroteAhead(fees.value, gas.value, ans.at)));
      Send(rec, ans);
      if ans.send.Sent? {
        return Ok(Submitted(address, nonce, ans.send.hash, fees.value));
      }
      return Err;
    }

    /** Hand the signed transaction to the node and record what it says. */
    method Send(rec: TxRecord, ans: SubmitAnswers)
      requires Valid() && cache.Busy(address) && model.turn == Intended(rec)
      modifies this`model, this`trace, cache`lanes, cache`txs, cache.lanes.Values, store
      ensures Valid() && !cache.Busy(address) && Rest() == old(Rest())
      ensures fresh(cache.lanes.Values - old(cache.lanes.Values))
      ensures trace == old(trace) + OutcomeScript(ans)
    {
      hide Valid, Mirrors, Rest, Run, Share, Others, KeyFree, Price, TickEnabled, TickNext, BootEnabled, BootNext;
      if ans.send.Sent? {
        PassSubmit(SendOk(ans.send.hash));
        Record(rec, ans.send.hash, ans.liveAt);
      } else {
        PassSubmit(SendBad(ans.send.DriftError?));
        Abandon(rec, ans);
      }
    }

    /** The node has the transaction: persist it, track it, advance the lane. */
    method Record(rec: TxRecord, hash: Hash, at: int)
      requires Valid() && cache.Busy(address) && model.turn == Accepted(rec, hash)
      modifies this`model, this`trace, cache`txs, cache.lanes.Values, store
      ensures Valid() && !cache.Busy(address) && Rest() == old(Rest())
      ensures trace == old(trace) + [Submitting(WroteLive(at)), Submitting(TrackedLive), Submitting(ClosedTurn)]
    {
      hide Valid, Mirrors, Rest, Run, Share, Others, KeyFree, TickEnabled, TickNext, BootEnabled, BootNext;
      var live := LiveRecord(rec, hash, at);
      Persist(live, Submitting(WroteLive(at)));
      Track(live, Submitting(TrackedLive));
      CloseLane(rec.nonce);
    }

    /** The node refused it: drop the row, reseed the lane on nonce drift. */
    method Abandon(rec: TxRecord, ans: SubmitAnswers)
      requires Valid() && cache.Busy(address) && model.turn == Refused(rec, ans.send.DriftError?)
      modifies this`model, this`trace, cache`lanes, cache.lanes.Values, store
      ensures Valid() && !cache.Busy(address) && Rest() == old(Rest())
      ensures fresh(cache.lanes.Values - old(cache.lanes.Values))
      ensures trace == old(trace) + [Submitting(DroppedIntent(ans.error, ans.droppedAt))]
                       + if ans.send.DriftError? then [Submitting(Reseeded(ans.chainNonce))] else []
    {
      hide Valid, Mirrors, Rest, Run, Share, Others, KeyFree, TickEnabled, TickNext, BootEnabled, BootNext;
      Persist(TerminalRecord(rec, Failed, Some(ans.error), ans.droppedAt), Submitting(DroppedIntent(ans.error, ans.droppedAt)));
      if ans.send.DriftError? {
        SeedLane(Max(ans.chainNonce, rec.nonce + 1), Submitting(Reseeded(ans.chainNonce)));
      }
      FailLane();
    }

    // ----- the reconcile tick -----

    ghost method PassTick(s: TickStep)
      requires Valid() && TickEnabled(cfg, model, s)
      requires !s.WroteTerminal? && !s.DroppedTx? && !s.WroteMined? && !s.WroteReplaced? && !s.CachedUpdate?
      modifies this`model, this`trace
      ensures Valid() && model == TickNext(cfg, old(model), s) && trace == old(trace) + [Ticking(s)]
      ensures Rest() == old(Rest())
    {
      hide Run, Share, Others, IsListing, SubmitEnabled, SubmitNext, BootEnabled, BootNext;
      Pass(Ticking(s));
    }

    /** Terminal: persist the row first; if the store throws, nothing has happened. */
    method Settle(rec: TxRecord, status: Status, error: Option<ErrorText>, ans: Answers) returns (done: bool)
      requires Valid() && CanSettle(cfg, model, status) && model.tick.todo[0] == rec
      modifies this`model, this`trace, this`emitted, cache`txs, store
      ensures Valid() && Rest() == old(Rest()) && done == ans.stored
      ensures var plan := SettlePlan(rec, status, error, None, ans);
              if done then
                && trace == old(trace) + Ticks(plan.steps) && emitted == old(emitted) + plan.notices
                && model.tick == Scanning(old(model.tick.todo)[1..]) && model.mode == old(model.mode)
              else trace == old(trace) && emitted == old(emitted) && model == old(model)
    {
      hide Valid, Mirrors, Rest, Run, Share, Others, SubmitEnabled, SubmitNext, BootEnabled, BootNext;
      if !ans.stored {
        return false;
      }
      Persist(TerminalRecord(rec, status, error, ans.now), Ticking(WroteTerminal(status, error, ans.now)));
      Untrack(rec.nonce, Ticking(DroppedTx));
      Notify(rec, EndEvent(status));
      PassTick(NotifiedEnd);
      return true;
    }

    /** Store first, then the cache, then the event. */
    method Update(updated: TxRecord, event: Event, ghost s: TickStep)
      requires Valid() && TickEnabled(cfg, model, s)
      requires PoolProtocol.WrittenBy(cfg, address, model, Ticking(s)) == Some(updated)
      requires (s.WroteMined? && event.EvMined?) || (s.WroteReplaced? && event.EvReplaced?)
      modifies this`model, this`trace, this`emitted, cache`txs, store
      ensures Valid() && Rest() == old(Rest())
      ensures trace == old(trace) + Ticks([s, CachedUpdate, NotifiedUpdate])
      ensures emitted == old(emitted) + [Notice(updated.key, event, updated.attempts)]
      ensures model.tick == Scanning(if s.WroteMined? then old(model.tick.todo)[1..] else old(model.tick.todo))
      ensures model.mode == old(model.mode)
    {
      hide Valid, Mirrors, Rest, Run, Share, Others, SubmitEnabled, SubmitNext, BootEnabled, BootNext;
      Persist(updated, Ticking(s));
      Track(updated, Ticking(CachedUpdate));
      Notify(updated, event);
      PassTick(NotifiedUpdate);
    }

    /** Sign the same nonce again with bumped fees. */
    method Replace(rec: TxRecord, ans: Answers)
      requires Valid() && HasNext(model) && model.tick.todo[0] == rec && MayReplace(rec)
      requires rec.attempts < cfg.maxAttempts
      modifies this`model, this`trace, this`emitted, cache`txs, store
      ensures Valid() && Rest() == old(Rest())
      ensures var plan := ReplacePlan(cfg, rec, None, ans);
              trace == old(trace) + Ticks(plan.steps) && emitted == old(emitted) + plan.notices
      ensures model.tick == Scanning(old(model.tick.todo)[1..]) && model.mode == old(model.mode)
    {
      hide Valid, Mirrors, Rest, Run, Share, Others, Bump, SubmitEnabled, SubmitNext, BootEnabled, BootNext;
      var bumped := Bump(cfg.oracle, rec.fees);
      if bumped.Err? {
        PassTick(Skipped);
        return;
      }
      if ans.send.Sent? {
        Resend(rec, bumped.value, ans);
      } else {
        PassTick(ResentBad);
      }
    }

    /** The node took the replacement: record it, or lose it if the store throws. */
    method Resend(rec: TxRecord, fees: Fees, ans: Answers)
      requires Valid() && CanReplace(cfg, model) && model.tick.todo[0] == rec
      requires Bump(cfg.oracle, rec.fees) == Ok(fees) && ans.send.Sent?
      modifies this`model, this`trace, this`emitted, cache`txs, store
      ensures Valid() && Rest() == old(Rest())
      ensures var plan := ReplacePlan(cfg, rec, None, ans);
              trace == old(trace) + Ticks(plan.steps) && emitted == old(emitted) + plan.notices
      ensures model.tick == Scanning(old(model.tick.todo)[1..]) && model.mode == old(model.mode)
    {
      hide Valid, Mirrors, Rest, Run, Share, Others, Bump, SubmitEnabled, SubmitNext, BootEnabled, BootNext;
      PassTick(ResentOk(ans.send.hash));
      if ans.stored {
        Update(ReplacedRecord(rec, fees, ans.send.hash, ans.now), EvReplaced, WroteReplaced(ans.now));
      } else {
        PassTick(LostReplaced);
      }
    }

    /** Settle, or go on with the next record if the store throws. */
    method SettleOrSkip(rec: TxRecord, status: Status, error: Option<ErrorText>, ghost head: Option<int>, ans: Answers)
      requires Valid() && CanSettle(cfg, model, status) && model.tick.todo[0] == rec
      modifies this`model, this`trace, this`emitted, cache`txs, store
      ensures Valid() && Rest() == old(Rest())
      ensures var plan := SettlePlan(rec, status, error, head, ans);
              trace == old(trace) + Ticks(plan.steps) && emitted == old(emitted) + plan.notices
      ensures model.tick == Scanning(old(model.tick.todo)[1..]) && model.mode == old(model.mode)
    {
      hide Valid, Mirrors, Rest, Run, Share, Others, SubmitEnabled, SubmitNext, BootEnabled, BootNext;
      var done := Settle(rec, status, error, ans);
      if !done {
        PassTick(Skipped);
      }
    }

    /** A record with a receipt: revert, mark mined, or confirm once it is deep enough. */
    method OnReceipt(rec: TxRecord, receipt: Receipt, head: Option<int>, ans: Answers) returns (top: Option<int>)
      requires Valid() && HasNext(model) && model.tick.todo[0] == rec && ans.receipt == Ok(Some(receipt))
      modifies this`model, this`trace, this`emitted, cache`txs, store
      ensures Valid() && Rest() == old(Rest())
      ensures var plan := Visit(cfg, policy, rec, head, ans);
              trace == old(trace) + Ticks(plan.steps) && emitted == old(emitted) + plan.notices && top == plan.head
      ensures model.tick == Scanning(old(model.tick.todo)[1..]) && model.mode == old(model.mode)
    {
      hide Valid, Mirrors, Rest, Run, Share, Others, Bump, ReplacePlan, SubmitEnabled, SubmitNext, BootEnabled, BootNext;
      top := head;
      if receipt.reverted {
        SettleOrSkip(rec, Reverted, None, head, ans);
        return;
      }
      if head.None? && ans.head.Ok? {
        top := Some(ans.head.value);
      }
      if top.None? {
        PassTick(Skipped);
      } else if top.value - receipt.blockNumber + 1 >= policy.confirmations {
        SettleOrSkip(rec, Confirmed, None, top, ans);
      } else if rec.minedEmitted || !ans.stored {
        PassTick(Skipped);
      } else {
        Update(MinedRecord(rec, ans.now), EvMined, WroteMined(ans.now));
      }
    }

    /** A record without one: wait, replace, or give up. */
    method OnSilence(rec: TxRecord, ghost head: Option<int>, ans: Answers)
      requires Valid() && HasNext(model) && model.tick.todo[0] == rec && ans.receipt == Ok(None)
      modifies this`model, this`trace, this`emitted, cache`txs, store
      ensures Valid() && Rest() == old(Rest())
      ensures var plan := Visit(cfg, policy, rec, head, ans);
              trace == old(trace) + Ticks(plan.steps) && emitted == old(emitted) + plan.notices
      ensures model.tick == Scanning(old(model.tick.todo)[1..]) && model.mode == old(model.mode)
    {
      hide Valid, Mirrors, Rest, Run, Share, Others, Bump, SubmitEnabled, SubmitNext, BootEnabled, BootNext;
      if ans.now - rec.submittedAt < policy.stuckAfterMs || rec.canReplace == Some(false) {
        PassTick(Skipped);
      } else if rec.attempts >= cfg.maxAttempts {
        SettleOrSkip(rec, Failed, Some(ans.giveUp), head, ans);
      } else {
        Replace(rec, ans);
      }
    }

    /** One record of the tick. An error of the chain or the store ends the visit. */
    method VisitRecord(rec: TxRecord, head: Option<int>, ans: Answers) returns (top: Option<int>)
      requires Valid() && HasNext(model) && model.tick.todo[0] == rec
      modifies this`model, this`trace, this`emitted, cache`txs, store
      ensures Valid() && Rest() == old(Rest())
      ensures var plan := Visit(cfg, policy, rec, head, ans);
              trace == old(trace) + Ticks(plan.steps) && emitted == old(emitted) + plan.notices && top == plan.head
      ensures model.tick == Scanning(old(model.tick.todo)[1..]) && model.mode == old(model.mode)
    {
      hide Valid, Mirrors, Rest, Run, Share, Others, Bump, ReplacePlan, SettlePlan, SubmitEnabled, SubmitNext, BootEnabled, BootNext;
      top := head;
      match ans.receipt {
        case Err => PassTick(Skipped);
        case Ok(Some(receipt)) => top := OnReceipt(rec, receipt, head, ans);
        case Ok(None) =>
          SilenceKeepsHead(cfg, policy, rec, head, ans);
          OnSilence(rec, head, ans);
      }
    }

    method ListInflight() returns (list: seq<TxRecord>)
      requires Valid()
      ensures IsListing(list, model.tracked) && |list| == |model.tracked|
    {
      hide Run, Share, Others, IsListing;
      list := cache.ListTxs(address);
    }

    /** One pass over the in-flight transactions, with nothing else in between; a lane turn may be
        open. The head is read when first needed and kept for the rest of the pass. */
    method ConfirmTick(answers: nat -> Answers) returns (ghost list: seq<TxRecord>)
      requires Valid() && model.mode.Up? && model.tick.Asleep?
      modifies this`model, this`trace, this`emitted, cache`txs, store
      ensures Valid() && Rest() == old(Rest()) && model.tick.Asleep?
      ensures IsListing(list, old(model.tracked)) && |list| == |old(model.tracked)|
      ensures trace == old(trace) + Ticks(TickScript(cfg, policy, list, answers))
      ensures emitted == old(emitted) + VisitAll(cfg, policy, list, None, answers).notices
    {
      hide Valid, Mirrors, Rest, Run, Share, Others, Visit, IsListing, SubmitEnabled, SubmitNext, BootEnabled, BootNext;
      var txs := ListInflight();
      list := txs;
      if |txs| == 0 {
        assert Ticks([]) == [];
        return;
      }
      PassTick(BeganTick(txs));
      var head: Option<int> := None;
      ghost var start, all := trace, VisitAll(cfg, policy, txs, None, answers);
      var i := 0;
      while i < |txs|
        invariant 0 <= i <= |txs| && Valid() && Rest() == old(Rest())
        invariant model.mode.Up? && model.tick == Scanning(txs[i..])
        invariant trace + Ticks(VisitAll(cfg, policy, txs[i..], head, answers).steps) == start + Ticks(all.steps)
        invariant emitted + VisitAll(cfg, policy, txs[i..], head, answers).notices == old(emitted) + all.notices
      {
        ghost var before, was, seen := head, trace, emitted;
        head := VisitRecord(txs[i], head, answers(txs[i].nonce));
        VisitAllSplits(cfg, policy, txs, i, before, answers, was, seen);
        i := i + 1;
      }
      assert txs[i..] == [] && Ticks([]) == [];
      assert trace == start + Ticks(all.steps);
      TickScriptSplits(cfg, policy, txs, answers);
      PassTick(EndedTick);
    }

    // ----- seeds, restore, reattach -----

    /** Boot reconciliation: seed the lane from the chain, if it answers. */
    method PrimeNonce(count: Result<nat>)
      requires Valid() && !model.mode.Down?
      modifies this`model, this`trace, cache`lanes, cache.lanes.Values
      ensures Valid() && Rest() == old(Rest()) && fresh(cache.lanes.Values - old(cache.lanes.Values))
      ensures cache.Busy(address) <==> old(cache.Busy(address))
      ensures trace == old(trace) + if count.Ok? then [Recovering(SeededNonce(count.value))] else []
    {
      hide Valid, Mirrors, Rest, Run, Share, Others, SubmitEnabled, SubmitNext, TickEnabled, TickNext;
      if count.Ok? {
        SeedLane(count.value, Recovering(SeededNonce(count.value)));
      }
    }

    /** Refresh the gauge of the account in the store and the cache; the cursor is a snapshot. */
    method RefreshState(balanceWei: int, healthy: bool, now: int)
      requires Valid()
      modifies store, cache`accounts
      ensures Valid() && trace == old(trace) && store.transactions == old(store.transactions)
      ensures var rec := AccountRecord(cfg.ownerId, cfg.chainId, address, derivationIndex, NextNonce(model.cursor),
                                       balanceWei, healthy, now);
              && store.accounts == old(store.accounts)[AccountId(cfg.chainId, address) := rec]
              && cache.accounts == old(cache.accounts)[AccountId(cfg.chainId, address) := rec]
    {
      hide Run, Share, Others;
      var cursor := cache.PeekNonce(address);
      var rec := AccountRecord(cfg.ownerId, cfg.chainId, address, derivationIndex, NextNonce(cursor), balanceWei, healthy, now);
      store.UpsertAccount(rec);
      cache.PutAccount(rec);
    }

    method PutGauge(rec: AccountRecord)
      requires Valid()
      modifies cache`accounts
      ensures Valid() && Rest() == old(Rest())
      ensures cache.accounts == old(cache.accounts)[AccountId(rec.chainId, rec.address) := rec]
    {
      hide Run, Share, Others;
      cache.PutAccount(rec);
    }

    /** Boot: the lane and the gauge from the persisted account row. */
    method RestoreAccountState(rec: AccountRecord)
      requires Valid() && !model.mode.Down?
      modifies this`model, this`trace, cache`lanes, cache`accounts, cache.lanes.Values
      ensures Valid() && Rest() == old(Rest()) && fresh(cache.lanes.Values - old(cache.lanes.Values))
      ensures trace == old(trace) + [Recovering(SeededNonce(rec.nonceCursor))]
      ensures model == Seed(old(model), rec.nonceCursor)
      ensures cache.Busy(address) <==> old(cache.Busy(address))
      ensures cache.accounts == old(cache.accounts)[AccountId(rec.chainId, rec.address) := rec]
    {
      hide Valid, Mirrors, Rest, Run, Share, Others, SubmitEnabled, SubmitNext, TickEnabled, TickNext;
      SeedLane(rec.nonceCursor, Recovering(SeededNonce(rec.nonceCursor)));
      PutGauge(rec);
    }

    ghost method PassBoot(s: BootStep)
      requires Valid() && BootEnabled(cfg, address, model, s)
      requires s.RestoredBinding? || s.RebroadcastOk? || s.RebroadcastDrift? || s.RebroadcastBad? || s.LostRebroadcast? || s.FinishedBoot?
      modifies this`model, this`trace
      ensures Valid() && model == BootNext(cfg, address, old(model), s) && trace == old(trace) + [Recovering(s)]
      ensures Rest() == old(Rest())
    {
      hide Run, Share, Others, SubmitEnabled, SubmitNext, TickEnabled, TickNext;
      Pass(Recovering(s));
    }

    method TrackRestored(rec: TxRecord)
      requires Valid() && CanRestoreTrack(model, rec.key) && model.mode.todo[rec.key] == rec
      modifies this`model, this`trace, cache`txs
      ensures Valid() && Rest() == old(Rest())
      ensures trace == old(trace) + [Recovering(RestoredTx(rec.key))] && model == RestoreTrack(old(model), rec.key)
    {
      TodoIsOwn(cfg, address, trace, rec.key);
      hide Valid, Mirrors, Rest, Run, Share, Others, SubmitEnabled, SubmitNext, TickEnabled, TickNext;
      Track(rec, Recovering(RestoredTx(rec.key)));
    }

    method SeedRestored(rec: TxRecord)
      requires Valid() && CanRestoreSeed(model) && model.mode.current.rec == rec
      modifies this`model, this`trace, cache`lanes, cache.lanes.Values
      ensures Valid() && Rest() == old(Rest()) && fresh(cache.lanes.Values - old(cache.lanes.Values))
      ensures cache.Busy(address) <==> old(cache.Busy(address))
      ensures trace == old(trace) + [Recovering(RestoredSeed)] && model == RestoreSeed(old(model))
    {
      hide Valid, Mirrors, Rest, Run, Share, Others, SubmitEnabled, SubmitNext, TickEnabled, TickNext;
      SeedLane(rec.nonce + 1, Recovering(RestoredSeed));
    }

    /** Boot: track a live row again and seed the lane past it. */
    method RestoreTransaction(rec: TxRecord)
      requires Valid() && CanRestoreTrack(model, rec.key) && model.mode.todo[rec.key] == rec
      modifies this`model, this`trace, cache`lanes, cache`txs, cache.lanes.Values
      ensures Valid() && Rest() == old(Rest()) && fresh(cache.lanes.Values - old(cache.lanes.Values))
      ensures cache.Busy(address) <==> old(cache.Busy(address))
      ensures trace == old(trace) + [Recovering(RestoredTx(rec.key)), Recovering(RestoredSeed)]
      ensures model == RestoreSeed(RestoreTrack(old(model), rec.key))
    {
      hide Valid, Mirrors, Rest, Run;
      TrackRestored(rec);
      SeedRestored(rec);
    }

    method Find(nonce: nat) returns (rec: Option<TxRecord>)
      requires Valid()
      ensures rec == if nonce in model.tracked then Some(model.tracked[nonce]) else None
      ensures rec.Some? ==> rec.value.nonce == nonce
    {
      hide Valid, Mirrors, Run;
      var list := ListInflight();
      for i := 0 to |list|
        invariant forall j | 0 <= j < i :: list[j].nonce != nonce
      {
        if list[i].nonce == nonce {
          return Some(list[i]);
        }
      }
      return None;
    }

    /** Send a write-ahead row again. The node answers a transaction it already has with drift. */
    method Rebroadcast(nonce: nat, ans: ResendAnswers)
      requires Valid() && (nonce in model.tracked ==> CanRebroadcast(model, nonce))
      modifies this`model, this`trace, cache`txs, store
      ensures Valid() && Rest() == old(Rest())
      ensures trace == old(trace) + if nonce in old(model.tracked) then RebroadcastScript(nonce, ans) else []
      ensures model.mode == old(model.mode)
      ensures nonce in old(model.tracked) ==> model.resends == old(model.resends) - {nonce}
    {
      hide Valid, Mirrors, Rest, Run, Share, Others, RebroadcastScript, CanRebroadcast;
      var found := Find(nonce);
      if found.None? {
        return;
      }
      ResendFound(nonce, found.value, ans);
    }

    method ResendFound(nonce: nat, rec: TxRecord, ans: ResendAnswers)
      requires Valid() && CanRebroadcast(model, nonce) && model.tracked[nonce] == rec && rec.nonce == nonce
      modifies this`model, this`trace, cache`txs, store
      ensures Valid() && Rest() == old(Rest())
      ensures trace == old(trace) + RebroadcastScript(nonce, ans)
      ensures model.mode == old(model.mode) && model.resends == old(model.resends) - {nonce}
    {
      hide Valid, Mirrors, Rest, Run, Share, Others, SaveScript, SubmitEnabled, SubmitNext, TickEnabled, TickNext;
      match ans.send {
        case OtherError => PassBoot(RebroadcastBad(nonce));
        case DriftError =>
          PassBoot(RebroadcastDrift(nonce, ans.at));
          SaveResent(nonce, LiveRecord(rec, rec.hash, ans.at), ans.stored, ans.at);
        case Sent(hash) =>
          PassBoot(RebroadcastOk(nonce, hash, ans.at));
          OnResent(nonce, rec, hash, ans);
      }
    }

    /** The node took it: save it, and once more if the store's error reads as drift. */
    method OnResent(nonce: nat, rec: TxRecord, hash: Hash, ans: ResendAnswers)
      requires Valid() && nonce in model.tracked && model.tracked[nonce] == rec && rec.nonce == nonce
      requires CanSaveRebroadcast(model, nonce) && model.resends[nonce].rec == LiveRecord(rec, hash, ans.at)
      modifies this`model, this`trace, cache`txs, store
      ensures Valid() && Rest() == old(Rest())
      ensures trace == old(trace) +
        if ans.stored || !ans.storeDrift then SaveScript(nonce, ans.stored, ans.at)
        else [Recovering(LostRebroadcast(nonce, true, ans.againAt))] + SaveScript(nonce, ans.storedAgain, ans.againAt)
      ensures model.mode == old(model.mode) && model.resends == old(model.resends) - {nonce}
    {
      hide Valid, Mirrors, Rest, Run, Share, Others, SaveScript, SubmitEnabled, SubmitNext, TickEnabled, TickNext;
      if ans.stored || !ans.storeDrift {
        SaveResent(nonce, LiveRecord(rec, hash, ans.at), ans.stored, ans.at);
      } else {
        PassBoot(LostRebroadcast(nonce, true, ans.againAt));
        SaveResent(nonce, LiveRecord(rec, rec.hash, ans.againAt), ans.storedAgain, ans.againAt);
      }
    }

    method SaveResent(nonce: nat, live: TxRecord, stored: bool, at: int)
      requires Valid() && CanSaveRebroadcast(model, nonce) && nonce in model.tracked
      requires model.resends[nonce].rec == live && live.nonce == nonce
      modifies this`model, this`trace, cache`txs, store
      ensures Valid() && Rest() == old(Rest())
      ensures trace == old(trace) + SaveScript(nonce, stored, at)
      ensures model.mode == old(model.mode) && model.resends == old(model.resends) - {nonce}
    {
      hide Valid, Mirrors, Rest, Run, Share, Others, SubmitEnabled, SubmitNext, TickEnabled, TickNext;
      if stored {
        Persist(live, Recovering(WroteRebroadcast(nonce)));
        Track(live, Recovering(CachedRebroadcast(nonce)));
      } else {
        PassBoot(LostRebroadcast(nonce, false, at));
      }
    }

    method AdoptRow(rec: TxRecord)
      requires rec.account == address && rec.ownerId == cfg.ownerId && rec.chainId == cfg.chainId
      requires rec.key !in store.transactions
      modifies store
      ensures Share(cfg, address, store.transactions) == Upsert(old(Share(cfg, address, store.transactions)), rec)
      ensures Others(cfg, address, store.transactions) == old(Others(cfg, address, store.transactions))
      ensures store.accounts == old(store.accounts)
    {
      hide Share, Others, Upsert;
      ShareUpsert(cfg, address, store.transactions, rec);
      store.UpsertTransaction(rec);
    }

    method AdoptEntry(rec: TxRecord)
      requires cache.Valid() && rec.account == address
      modifies cache`lanes, cache`txs, cache.lanes.Values
      ensures cache.Valid() && fresh(cache.lanes.Values - old(cache.lanes.Values))
      ensures cache.Tracked(address) == old(cache.Tracked(address))[rec.nonce := rec]
      ensures cache.Cursor(address) == SeedCursor(old(cache.Cursor(address)), rec.nonce + 1)
      ensures cache.Elsewhere(address) == old(cache.Elsewhere(address)) && cache.ordering == old(cache.ordering)
      ensures cache.Busy(address) <==> old(cache.Busy(address))
    {
      cache.PutTx(rec);
      cache.SeedNonce(address, rec.nonce + 1);
    }

    /** Put a new row into the store and the cache and seed the lane past it. */
    method Adopt(rec: TxRecord)
      requires Valid() && rec.account == address && rec.ownerId == cfg.ownerId && rec.chainId == cfg.chainId
      requires rec.key !in store.transactions
      modifies cache`lanes, cache`txs, cache.lanes.Values, store
      ensures cache.Valid() && Rest() == old(Rest()) && fresh(cache.lanes.Values - old(cache.lanes.Values))
      ensures Share(cfg, address, store.transactions) == Upsert(old(model.rows), rec)
      ensures cache.Tracked(address) == old(model.tracked)[rec.nonce := rec]
      ensures cache.Cursor(address) == SeedCursor(old(model.cursor), rec.nonce + 1)
      ensures cache.Busy(address) <==> old(cache.Busy(address))
    {
      hide Run, Share, Others, Upsert;
      AdoptRow(rec);
      AdoptEntry(rec);
    }

    /** Track a transaction that was sent elsewhere. */
    method Reattach(f: Foundling, zero: Address, now: int)
      requires Valid() && CanReattach(cfg, address, model, Placeholder(cfg, address, zero, f, now))
      requires f.key !in store.transactions
      modifies this`model, this`trace, cache`lanes, cache`txs, cache.lanes.Values, store
      ensures Valid() && Rest() == old(Rest()) && fresh(cache.lanes.Values - old(cache.lanes.Values))
      ensures trace == old(trace) + [Recovering(Reattached(Placeholder(cfg, address, zero, f, now)))]
      ensures cache.Busy(address) <==> old(cache.Busy(address))
    {
      hide Run, Share, Others, Rest, Upsert, CanReattach, SubmitEnabled, SubmitNext, TickEnabled, TickNext;
      var rec := Placeholder(cfg, address, zero, f, now);
      Adopt(rec);
      TakeOver(Recovering(Reattached(rec)));
    }

    /** The cache and the store already show what a step leads to. */
    ghost method TakeOver(s: Step)
      requires Run(cfg, address, trace) == Ok(model) && CanStep(s) && cache.Valid()
      requires var d := Next(cfg, address, model, s);
               && d.rows == Share(cfg, address, store.transactions) && d.tracked == cache.Tracked(address)
               && d.cursor == cache.Cursor(address)
      modifies this`model, this`trace
      ensures Valid() && Took(s) && Rest() == old(Rest())
    {
      hide Enabled, Next, Run, Share, Others;
      Advance(s);
    }
  }

  /** Rows of other accounts are the same rows for each of them. */
  lemma SameShare(cfg: Config, a: Address, b: Address, t: map<Key, TxRecord>, u: map<Key, TxRecord>)
    requires a != b && Others(cfg, a, t) == Others(cfg, a, u)
    ensures Share(cfg, b, t) == Share(cfg, b, u)
  {
    assert forall k | k in Share(cfg, b, t) :: k in Others(cfg, a, t) && Others(cfg, a, t)[k] == t[k];
    assert forall k | k in Share(cfg, b, u) :: k in Others(cfg, a, u) && Others(cfg, a, u)[k] == u[k];
  }

  lemma Chained(s: seq<Step>, x: Step, y: Step, rest: seq<Step>)
    ensures s + [x] + [y] + rest == s + ([x] + ([y] + rest))
  {
  }

  lemma TodoIsOwn(cfg: Config, a: Address, steps: seq<Step>, k: Key)
    requires Run(cfg, a, steps).Ok? && CanRestoreTrack(Run(cfg, a, steps).value, k)
    ensures Run(cfg, a, steps).value.mode.todo[k].account == a
  {
    RunKeeps(cfg, a, steps);
    var c := Run(cfg, a, steps).value;
    hide Run;
    TablesGiveRows(cfg, a, c);
    hide TablesOk, LaneOk, SentOk, TurnOk, TickOk, HistoryOk, CapOk, ResendsOk;
    assert c.rows[k] == c.mode.todo[k] && RowOk(cfg, a, k, c.rows[k]);
  }

  lemma SilenceKeepsHead(cfg: Config, policy: Policy, r: TxRecord, head: Option<int>, ans: Answers)
    requires ans.receipt == Ok(None)
    ensures Visit(cfg, policy, r, head, ans).head == head
  {
    hide Bump;
  }

  lemma TickScriptSplits(cfg: Config, policy: Policy, txs: seq<TxRecord>, answers: nat -> Answers)
    requires txs != []
    ensures Ticks(TickScript(cfg, policy, txs, answers))
         == [Ticking(BeganTick(txs))] + Ticks(VisitAll(cfg, policy, txs, None, answers).steps) + [Ticking(EndedTick)]
  {
    hide VisitAll;
    TicksConcat([BeganTick(txs)], VisitAll(cfg, policy, txs, None, answers).steps);
    TicksConcat([BeganTick(txs)] + VisitAll(cfg, policy, txs, None, answers).steps, [EndedTick]);
  }

  lemma VisitAllSplits(cfg: Config, policy: Policy, txs: seq<TxRecord>, i: nat, head: Option<int>, answers: nat -> Answers,
                       trace: seq<Step>, emitted: seq<Notice>)
    requires i < |txs|
    ensures var all := VisitAll(cfg, policy, txs[i..], head, answers);
            var first := Visit(cfg, policy, txs[i], head, answers(txs[i].nonce));
            var rest := VisitAll(cfg, policy, txs[i + 1..], first.head, answers);
            && trace + Ticks(all.steps) == (trace + Ticks(first.steps)) + Ticks(rest.steps)
            && emitted + all.notices == (emitted + first.notices) + rest.notices
  {
    hide Visit;
    assert txs[i..][0] == txs[i] && txs[i..][1..] == txs[i + 1..];
    var first := Visit(cfg, policy, txs[i], head, answers(txs[i].nonce));
    TicksConcat(first.steps, VisitAll(cfg, policy, txs[i + 1..], first.head, answers).steps);
  }
}
