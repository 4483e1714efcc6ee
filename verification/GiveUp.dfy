/** Giving up: a replaceable transaction whose receipt never comes is failed after a fixed number of
    stuck ticks, however submits, other transactions and lost writes interleave. */
module GiveUp {
  import opened Records
  import opened FeeOracles
  import opened AccountProtocol
  import opened AccountInvariant
  import opened AccountWrites
  import opened AccountSteps
  import opened AccountScripts
  import opened Outcomes
  import opened AccountHistory
  import opened PoolProtocol
  import opened PoolViews
  import opened PoolSteps

  predicate Writes(cfg: Config, a: Address, c: Account, s: Step, k: Key) {
    Enabled(cfg, a, c, s) && WrittenBy(cfg, a, c, s).Some? && WrittenBy(cfg, a, c, s).value.key == k
  }

  /** How many of the steps write the row of a key. */
  function CountWrites(cfg: Config, a: Address, c: Account, steps: seq<Step>, k: Key): nat
    decreases |steps|
  {
    if steps == [] || !Enabled(cfg, a, c, steps[0]) then 0
    else (if Writes(cfg, a, c, steps[0], k) then 1 else 0)
         + CountWrites(cfg, a, Next(cfg, a, c, steps[0]), steps[1..], k)
  }

  /** No receipt for this key and no crash: whatever writes its row replaces it or gives it up. */
  predicate StaysStuck(cfg: Config, a: Address, c: Account, s: Step, k: Key) {
    && s != Recovering(Crashed)
    && (Writes(cfg, a, c, s, k) ==> s.Ticking? && (s.t.WroteReplaced? || (s.t.WroteTerminal? && s.t.status.Failed?)))
  }

  predicate AllStuck(cfg: Config, a: Address, c: Account, steps: seq<Step>, k: Key)
    decreases |steps|
  {
    steps == [] || !Enabled(cfg, a, c, steps[0]) ||
    (StaysStuck(cfg, a, c, steps[0], k) && AllStuck(cfg, a, Next(cfg, a, c, steps[0]), steps[1..], k))
  }

  /** How many replacements are left. */
  function Left(cfg: Config, r: TxRecord): nat {
    Max(0, cfg.maxAttempts - r.attempts)
  }

  /** After w writes the row stands at w more attempts, or is gone when all replacements and the
      final give-up are used. */
  predicate Stands(cfg: Config, rows: map<Key, TxRecord>, r: TxRecord, w: nat) {
    && w <= Left(cfg, r) + 1
    && (r.key in rows <==> w <= Left(cfg, r))
    && (r.key in rows ==> rows[r.key].attempts == r.attempts + w && MayReplace(rows[r.key]))
  }

  lemma ReplaceStep(cfg: Config, a: Address, c: Account, now: int, k: Key)
    requires Inv(cfg, a, c) && c.tick.Resent? && c.tick.rec.key == k
    ensures k in c.rows && c.rows[k] == c.tick.rec && c.rows[k].attempts < cfg.maxAttempts
    ensures SaveReplaced(c, now).rows[k].attempts == c.rows[k].attempts + 1
    ensures MayReplace(c.rows[k]) ==> MayReplace(SaveReplaced(c, now).rows[k])
    ensures k in SaveReplaced(c, now).rows
  {
    ResentIsRow(cfg, a, c);
    hide TablesOk, LaneOk, SentOk, TurnOk, RestoreOk, HistoryOk, CapOk, TodoOk;
  }

  lemma FailStep(cfg: Config, a: Address, c: Account, error: Option<ErrorText>, now: int, k: Key)
    requires Inv(cfg, a, c) && CanSettle(cfg, c, Failed) && c.tick.todo[0].key == k
    ensures k in c.rows && c.rows[k] == c.tick.todo[0] && c.rows[k].attempts >= cfg.maxAttempts
    ensures k !in Settle(c, Failed, error, now).rows
  {
    NextIsRow(cfg, a, c);
    hide Inv;
  }

  lemma ReplacedStands(cfg: Config, a: Address, c: Account, now: int, r: TxRecord, w: nat)
    requires Inv(cfg, a, c) && c.tick.Resent? && c.tick.rec.key == r.key && Stands(cfg, c.rows, r, w)
    ensures Stands(cfg, SaveReplaced(c, now).rows, r, w + 1)
  {
    hide Inv, SaveReplaced;
    ReplaceStep(cfg, a, c, now, r.key);
  }

  lemma FailedStands(cfg: Config, a: Address, c: Account, error: Option<ErrorText>, now: int, r: TxRecord, w: nat)
    requires Inv(cfg, a, c) && CanSettle(cfg, c, Failed) && c.tick.todo[0].key == r.key && Stands(cfg, c.rows, r, w)
    ensures Stands(cfg, Settle(c, Failed, error, now).rows, r, w + 1)
  {
    hide Inv, Settle;
    FailStep(cfg, a, c, error, now, r.key);
  }

  lemma OtherStands(cfg: Config, a: Address, c: Account, s: Step, r: TxRecord, w: nat)
    requires Enabled(cfg, a, c, s) && !Writes(cfg, a, c, s, r.key) && Stands(cfg, c.rows, r, w)
    ensures Stands(cfg, Next(cfg, a, c, s).rows, r, w)
  {
    hide Enabled, Next, WrittenBy;
    StepRows(cfg, a, c, s);
  }

  lemma StuckStep(cfg: Config, a: Address, c: Account, s: Step, r: TxRecord, w: nat)
    requires Inv(cfg, a, c) && Enabled(cfg, a, c, s) && StaysStuck(cfg, a, c, s, r.key) && Stands(cfg, c.rows, r, w)
    ensures Stands(cfg, Next(cfg, a, c, s).rows, r, if Writes(cfg, a, c, s, r.key) then w + 1 else w)
  {
    hide Inv, Enabled, Next, WrittenBy, Stands, SaveReplaced, Settle, CanSettle;
    if Writes(cfg, a, c, s, r.key) {
      if s.t.WroteReplaced? {
        WriterOfReplaced(cfg, a, c, s.t.now);
        ReplacedStands(cfg, a, c, s.t.now, r, w);
      } else {
        WriterOfFailed(cfg, a, c, s.t.error, s.t.now);
        FailedStands(cfg, a, c, s.t.error, s.t.now, r, w);
      }
    } else {
      OtherStands(cfg, a, c, s, r, w);
    }
  }

  lemma WriterOfReplaced(cfg: Config, a: Address, c: Account, now: int)
    requires Enabled(cfg, a, c, Ticking(WroteReplaced(now)))
    ensures c.tick.Resent? && WrittenBy(cfg, a, c, Ticking(WroteReplaced(now))).value.key == c.tick.rec.key
    ensures Next(cfg, a, c, Ticking(WroteReplaced(now))) == SaveReplaced(c, now)
  {
  }

  lemma WriterOfFailed(cfg: Config, a: Address, c: Account, error: Option<ErrorText>, now: int)
    requires Enabled(cfg, a, c, Ticking(WroteTerminal(Failed, error, now)))
    ensures CanSettle(cfg, c, Failed)
    ensures WrittenBy(cfg, a, c, Ticking(WroteTerminal(Failed, error, now))).value.key == c.tick.todo[0].key
    ensures Next(cfg, a, c, Ticking(WroteTerminal(Failed, error, now))) == Settle(c, Failed, error, now)
  {
  }

  /** From any reachable state, over any continuation in which no receipt for the transaction
      appears: it is failed by exactly the write number max(0, maxAttempts - attempts) + 1 of its
      row, and each earlier one was one replacement. */
  lemma {:induction false} GivesUpOnTime(cfg: Config, a: Address, c: Account, steps: seq<Step>, r: TxRecord, w: nat)
    requires Inv(cfg, a, c) && Perform(cfg, a, c, steps).Ok? && AllStuck(cfg, a, c, steps, r.key)
    requires Stands(cfg, c.rows, r, w)
    ensures Stands(cfg, Perform(cfg, a, c, steps).value.rows, r, w + CountWrites(cfg, a, c, steps, r.key))
    decreases |steps|
  {
    hide Inv, Enabled, Next, Stands, StaysStuck, Writes;
    if steps != [] {
      var s := steps[0];
      StuckStep(cfg, a, c, s, r, w);
      StepKeeps(cfg, a, c, s);
      GivesUpOnTime(cfg, a, Next(cfg, a, c, s), steps[1..], r, if Writes(cfg, a, c, s, r.key) then w + 1 else w);
    }
  }

  // ----- a transaction in flight -----

  predicate InFlight(c: Account, n: nat, k: Key) {
    n in c.tracked && c.tracked[n].key == k
  }

  lemma SubmitTracks(cfg: Config, a: Address, c: Account, s: SubmitStep)
    requires SubmitEnabled(cfg, c, s)
    ensures SubmitNext(cfg, a, c, s).tracked == if s.TrackedLive? then c.tracked[c.turn.rec.nonce := c.turn.rec] else c.tracked
    ensures s.TrackedLive? ==> c.turn.Stored?
  {
    hide KeyFree, Upsert;
  }

  lemma SubmitKeepsInFlight(cfg: Config, a: Address, c: Account, s: SubmitStep, n: nat, k: Key)
    requires Inv(cfg, a, c) && SubmitEnabled(cfg, c, s) && InFlight(c, n, k)
    ensures InFlight(SubmitNext(cfg, a, c, s), n, k)
  {
    hide Inv, SubmitEnabled, SubmitNext;
    SubmitTracks(cfg, a, c, s);
    if s.TrackedLive? { LandFits(cfg, a, c); }
  }

  lemma DropKeepsInFlight(cfg: Config, a: Address, c: Account, n: nat, k: Key)
    requires Inv(cfg, a, c) && c.tick.Settling? && InFlight(c, n, k)
    ensures InFlight(Drop(c), n, k) || k !in c.rows
  {
    hide TablesOk, LaneOk, SentOk, TurnOk, RestoreOk, HistoryOk, CapOk, TodoOk;
  }

  lemma CacheKeepsInFlight(cfg: Config, a: Address, c: Account, n: nat, k: Key)
    requires Inv(cfg, a, c) && c.tick.Saved? && InFlight(c, n, k)
    ensures InFlight(CacheUpdate(c), n, k)
  {
    hide TablesOk, LaneOk, SentOk, TurnOk, RestoreOk, HistoryOk, CapOk, TodoOk, UpdatePending;
  }

  lemma TickKeepsInFlight(cfg: Config, a: Address, c: Account, s: TickStep, n: nat, k: Key)
    requires Inv(cfg, a, c) && TickEnabled(cfg, c, s) && InFlight(c, n, k)
    ensures InFlight(TickNext(cfg, c, s), n, k) || k !in TickNext(cfg, c, s).rows
  {
    hide Inv, IsListing;
    if s.DroppedTx? { DropKeepsInFlight(cfg, a, c, n, k); }
    if s.CachedUpdate? { CacheKeepsInFlight(cfg, a, c, n, k); }
  }

  lemma BootTracks(cfg: Config, a: Address, c: Account, s: BootStep)
    requires BootEnabled(cfg, a, c, s) && !s.Crashed? && c.mode.Up? && c.resends == map[]
    ensures BootNext(cfg, a, c, s).tracked == c.tracked
            || (s.Reattached? && s.rec.nonce !in c.tracked && BootNext(cfg, a, c, s).tracked == c.tracked[s.rec.nonce := s.rec])
  {
    hide KeyFree, IsPlaceholder, Upsert;
  }

  lemma UpHasNoResends(cfg: Config, a: Address, c: Account)
    requires Inv(cfg, a, c) && c.mode.Up?
    ensures c.resends == map[]
  {
    NothingResent(c.mode, c.resends, c.rows, c.tracked);
  }

  lemma BootKeepsInFlight(cfg: Config, a: Address, c: Account, s: BootStep, n: nat, k: Key)
    requires Inv(cfg, a, c) && BootEnabled(cfg, a, c, s) && !s.Crashed? && c.mode.Up? && InFlight(c, n, k)
    ensures InFlight(BootNext(cfg, a, c, s), n, k)
  {
    hide Inv, BootEnabled, BootNext;
    UpHasNoResends(cfg, a, c);
    BootTracks(cfg, a, c, s);
  }

  /** A transaction in flight stays so until its row is gone. */
  lemma StepKeepsInFlight(cfg: Config, a: Address, c: Account, s: Step, n: nat, k: Key)
    requires Inv(cfg, a, c) && Enabled(cfg, a, c, s) && s != Recovering(Crashed) && c.mode.Up? && InFlight(c, n, k)
    ensures InFlight(Next(cfg, a, c, s), n, k) || k !in Next(cfg, a, c, s).rows
  {
    hide Inv, SubmitNext, TickNext, BootNext, SubmitEnabled, TickEnabled, BootEnabled;
    match s
    case Submitting(t) => SubmitKeepsInFlight(cfg, a, c, t, n, k);
    case Ticking(t) => TickKeepsInFlight(cfg, a, c, t, n, k);
    case Recovering(t) => BootKeepsInFlight(cfg, a, c, t, n, k);
  }

  lemma StepStaysUp(cfg: Config, a: Address, c: Account, s: Step)
    requires Enabled(cfg, a, c, s) && s != Recovering(Crashed) && c.mode.Up?
    ensures Next(cfg, a, c, s).mode.Up?
  {
    if s == Recovering(FinishedBoot) || s == Recovering(Booted) {
      hide KeyFree;
    } else {
      StageKept(cfg, a, c, s, AllUp);
    }
  }

  /** A row that is gone does not come back while its key stays stuck. */
  lemma GoneStaysGone(cfg: Config, a: Address, c: Account, s: Step, k: Key)
    requires Inv(cfg, a, c) && Enabled(cfg, a, c, s) && StaysStuck(cfg, a, c, s, k) && k !in c.rows
    ensures k !in Next(cfg, a, c, s).rows
  {
    StepRows(cfg, a, c, s);
    if Writes(cfg, a, c, s, k) {
      StepWrites(cfg, a, c, s);
    }
    hide Inv, Enabled, WrittenBy, Next;
  }

  /** The account is up, and k is in flight under nonce n or has no row. */
  predicate Held(cfg: Config, a: Address, c: Account, n: nat, k: Key) {
    Inv(cfg, a, c) && c.mode.Up? && (InFlight(c, n, k) || k !in c.rows)
  }

  lemma StaysHeld(cfg: Config, a: Address, c: Account, s: Step, n: nat, k: Key)
    requires Held(cfg, a, c, n, k) && Enabled(cfg, a, c, s) && StaysStuck(cfg, a, c, s, k)
    ensures Held(cfg, a, Next(cfg, a, c, s), n, k)
  {
    hide Inv, Enabled, Next, InFlight, Writes;
    if k in c.rows {
      StepKeepsInFlight(cfg, a, c, s, n, k);
    } else {
      GoneStaysGone(cfg, a, c, s, k);
    }
    StepKeeps(cfg, a, c, s);
    StepStaysUp(cfg, a, c, s);
  }

  /** The process does not crash, and the caller does not use the key again. */
  predicate Spares(cfg: Config, a: Address, c: Account, s: Step, k: Key) {
    s != Recovering(Crashed) && !(StartsLife(s) && Writes(cfg, a, c, s, k))
  }

  lemma HeldTurn(cfg: Config, a: Address, c: Account, n: nat, k: Key)
    requires Held(cfg, a, c, n, k)
    ensures c.resends == map[] && (PendingRow(c.turn).Some? ==> PendingRow(c.turn).value.key != k)
  {
    hide TablesOk, LaneOk, SentOk, TickOk, RestoreOk, HistoryOk, CapOk;
    UpHasNoResends(cfg, a, c);
  }

  /** Then only the tick writes the row of k. */
  lemma OnlyTickWrites(cfg: Config, a: Address, c: Account, s: Step, n: nat, k: Key)
    requires Held(cfg, a, c, n, k) && Enabled(cfg, a, c, s) && !s.Ticking? && Spares(cfg, a, c, s, k)
    ensures !Writes(cfg, a, c, s, k)
  {
    hide Held, KeyFree, IsPlaceholder, TickEnabled;
    HeldTurn(cfg, a, c, n, k);
  }

  // ----- giving up is reported -----

  /** The transaction is settled as failed and its last event is about to be emitted. */
  predicate FailedInHand(c: Account, k: Key) {
    && (c.tick.Settling? || c.tick.Dropped?) && c.tick.rec.key == k && c.tick.event.EvFailed?
    && k in c.lives && c.lives[k].settled
  }

  /** The transaction is settled and nothing of it is left, neither row nor record; failed was the last
      event. */
  predicate ReportedFailed(c: Account, k: Key) {
    IsOver(c, k) && c.lives[k].events != [] && c.lives[k].events[|c.lives[k].events| - 1].EvFailed?
  }

  predicate LiveOrFailed(c: Account, k: Key) {
    k in c.rows || FailedInHand(c, k) || ReportedFailed(c, k)
  }

  lemma FailIsInHand(cfg: Config, a: Address, c: Account, error: Option<ErrorText>, now: int)
    requires Inv(cfg, a, c) && CanSettle(cfg, c, Failed)
    ensures FailedInHand(Settle(c, Failed, error, now), c.tick.todo[0].key)
  {
    hide Inv, Upsert, RowLife, RowOk, TodoOk;
    NextIsRow(cfg, a, c);
  }

  lemma LiveStep(cfg: Config, a: Address, c: Account, s: Step, k: Key)
    requires Inv(cfg, a, c) && Enabled(cfg, a, c, s) && StaysStuck(cfg, a, c, s, k) && k in c.rows
    ensures var d := Next(cfg, a, c, s); k in d.rows || FailedInHand(d, k)
  {
    hide Inv, Enabled, Next, WrittenBy, FailedInHand, CanSettle, Settle, SaveReplaced;
    StepRows(cfg, a, c, s);
    if Writes(cfg, a, c, s, k) {
      if s.t.WroteReplaced? {
        WriterOfReplaced(cfg, a, c, s.t.now);
        ReplaceStep(cfg, a, c, s.t.now, k);
      } else {
        WriterOfFailed(cfg, a, c, s.t.error, s.t.now);
        FailIsInHand(cfg, a, c, s.t.error, s.t.now);
      }
    }
  }

  lemma ReportsFailed(cfg: Config, a: Address, c: Account, k: Key)
    requires Inv(cfg, a, c) && c.tick.Dropped? && FailedInHand(c, k)
    ensures ReportedFailed(NotifyEnd(c), k)
  {
    hide Inv, IsOver;
    ReportReleases(cfg, a, c);
  }

  lemma TickInFailedHand(cfg: Config, a: Address, c: Account, x: TickStep, k: Key)
    requires Inv(cfg, a, c) && TickEnabled(cfg, c, x) && FailedInHand(c, k)
    ensures var d := TickNext(cfg, c, x); FailedInHand(d, k) || ReportedFailed(d, k)
  {
    hide Inv, ReportedFailed, IsListing, Upsert;
    if x.NotifiedEnd? { ReportsFailed(cfg, a, c, k); }
  }

  lemma FailedHandStep(cfg: Config, a: Address, c: Account, s: Step, k: Key)
    requires Inv(cfg, a, c) && Enabled(cfg, a, c, s) && s != Recovering(Crashed) && FailedInHand(c, k)
    ensures var d := Next(cfg, a, c, s); FailedInHand(d, k) || ReportedFailed(d, k)
  {
    hide Inv, Enabled, Next, TickEnabled, TickNext, ReportedFailed, KeyFree;
    if s.Ticking? {
      NextTicks(cfg, a, c, s.t);
      TickInFailedHand(cfg, a, c, s.t, k);
    } else {
      InHandIsLeft(cfg, a, c, c.tick.rec);
      OthersLeaveTick(cfg, a, c, s);
      StaysSettled(cfg, a, c, s, k);
    }
  }

  /** Neither the open turn nor the tick has anything to do with a key of which nothing is left. */
  predicate OffKey(c: Account, k: Key) {
    && (PendingRow(c.turn).Some? ==> PendingRow(c.turn).value.key != k)
    && (HasNext(c) ==> c.tick.todo[0].key != k)
    && (!c.tick.Asleep? && !c.tick.Scanning? ==> c.tick.rec.key != k)
  }

  lemma TickOffKey(cfg: Config, c: Account, k: Key)
    requires TickOk(cfg, c.mode.Up?, c.tick, c.tracked, c.rows, c.lives) && KeyFree(c, k)
    ensures HasNext(c) ==> c.tick.todo[0].key != k
    ensures !c.tick.Asleep? && !c.tick.Scanning? ==> c.tick.rec.key != k
  {
    hide UpdatePending, EndPending;
    if HasNext(c) { assert Holds(c.tracked, c.tick.todo[0]); }
  }

  lemma OverIsOff(cfg: Config, a: Address, c: Account, k: Key)
    requires Inv(cfg, a, c) && KeyFree(c, k)
    ensures OffKey(c, k)
  {
    hide TablesOk, LaneOk, SentOk, TickOk, RestoreOk, HistoryOk, CapOk, Untracked, KeyFree;
    TickOffKey(cfg, c, k);
    assert k !in c.rows by { hide Inv; assert KeyFree(c, k); KeyFreeRows(c, k); }
  }

  lemma KeyFreeRows(c: Account, k: Key)
    requires KeyFree(c, k)
    ensures k !in c.rows
  {
  }

  /** A key of which nothing is left stays so, with its events, until it is used again. */
  lemma SubmitLeavesOver(cfg: Config, a: Address, c: Account, s: SubmitStep, k: Key)
    requires OffKey(c, k) && SubmitEnabled(cfg, c, s) && IsOver(c, k) && !Writes(cfg, a, c, Submitting(s), k)
    ensures var d := SubmitNext(cfg, a, c, s); IsOver(d, k) && d.lives[k].events == c.lives[k].events
  {
  }

  lemma TickLeavesOver(cfg: Config, a: Address, c: Account, s: TickStep, k: Key)
    requires OffKey(c, k) && TickEnabled(cfg, c, s) && IsOver(c, k)
    ensures var d := TickNext(cfg, c, s); IsOver(d, k) && d.lives[k].events == c.lives[k].events
  {
    hide IsListing;
  }

  lemma BootLeavesOver(cfg: Config, a: Address, c: Account, s: BootStep, k: Key)
    requires c.mode.Up? && c.resends == map[] && BootEnabled(cfg, a, c, s) && !s.Crashed? && IsOver(c, k)
    requires !Writes(cfg, a, c, Recovering(s), k)
    ensures var d := BootNext(cfg, a, c, s); IsOver(d, k) && d.lives[k].events == c.lives[k].events
  {
    hide IsPlaceholder;
  }

  lemma OverStep(cfg: Config, a: Address, c: Account, s: Step, n: nat, k: Key)
    requires Held(cfg, a, c, n, k) && Enabled(cfg, a, c, s) && StaysStuck(cfg, a, c, s, k) && ReportedFailed(c, k)
    ensures ReportedFailed(Next(cfg, a, c, s), k)
  {
    hide Inv, Enabled, Next, SubmitNext, TickNext, BootNext, SubmitEnabled, TickEnabled, BootEnabled, Writes, OffKey, KeyFree;
    OverIsOff(cfg, a, c, k);
    HeldTurn(cfg, a, c, n, k);
    OverIsUnwritten(cfg, a, c, s, k);
    NextIs(cfg, a, c, s);
    match s
    case Submitting(t) => SubmitLeavesOver(cfg, a, c, t, k);
    case Ticking(t) => TickLeavesOver(cfg, a, c, t, k);
    case Recovering(t) => BootLeavesOver(cfg, a, c, t, k);
  }

  lemma NextIs(cfg: Config, a: Address, c: Account, s: Step)
    requires Enabled(cfg, a, c, s)
    ensures match s
            case Submitting(t) => SubmitEnabled(cfg, c, t) && Next(cfg, a, c, s) == SubmitNext(cfg, a, c, t)
            case Ticking(t) => TickEnabled(cfg, c, t) && Next(cfg, a, c, s) == TickNext(cfg, c, t)
            case Recovering(t) => BootEnabled(cfg, a, c, t) && Next(cfg, a, c, s) == BootNext(cfg, a, c, t)
  {
    hide SubmitNext, TickNext, BootNext, SubmitEnabled, TickEnabled, BootEnabled;
  }

  lemma OverIsUnwritten(cfg: Config, a: Address, c: Account, s: Step, k: Key)
    requires Enabled(cfg, a, c, s) && StaysStuck(cfg, a, c, s, k) && OffKey(c, k)
    ensures !Writes(cfg, a, c, s, k)
  {
    hide Writes, OffKey, TickEnabled;
    if Writes(cfg, a, c, s, k) {
      NextIs(cfg, a, c, s);
      WhoWrites(cfg, a, c, s.t, k);
      OffIs(c, k);
      TickHas(cfg, c, s.t);
      assert false;
    }
  }

  lemma OffIs(c: Account, k: Key)
    requires OffKey(c, k)
    ensures (HasNext(c) ==> c.tick.todo[0].key != k) && (c.tick.Resent? ==> c.tick.rec.key != k)
  {
  }

  lemma TickHas(cfg: Config, c: Account, x: TickStep)
    requires TickEnabled(cfg, c, x)
    ensures (x.WroteTerminal? || x.WroteMined? ==> HasNext(c)) && (x.WroteReplaced? ==> c.tick.Resent?)
  {
    hide IsListing;
  }

  lemma StaysLiveOrFailed(cfg: Config, a: Address, c: Account, s: Step, n: nat, k: Key)
    requires Held(cfg, a, c, n, k) && Enabled(cfg, a, c, s) && StaysStuck(cfg, a, c, s, k) && LiveOrFailed(c, k)
    ensures LiveOrFailed(Next(cfg, a, c, s), k)
  {
    hide Inv, Enabled, Next, Writes, FailedInHand, ReportedFailed, InFlight;
    if k in c.rows {
      LiveStep(cfg, a, c, s, k);
    } else if FailedInHand(c, k) {
      FailedHandStep(cfg, a, c, s, k);
    } else {
      OverStep(cfg, a, c, s, n, k);
    }
  }

  /** Over any steps that leave k stuck it stays held, and when its row goes it is failed. */
  lemma {:induction false} StuckLasts(cfg: Config, a: Address, c: Account, steps: seq<Step>, n: nat, k: Key)
    requires Held(cfg, a, c, n, k) && Perform(cfg, a, c, steps).Ok? && AllStuck(cfg, a, c, steps, k) && LiveOrFailed(c, k)
    ensures var d := Perform(cfg, a, c, steps).value; Held(cfg, a, d, n, k) && LiveOrFailed(d, k)
    decreases |steps|
  {
    hide Held, Enabled, Next, StaysStuck, LiveOrFailed;
    if steps != [] {
      StaysHeld(cfg, a, c, steps[0], n, k);
      StaysLiveOrFailed(cfg, a, c, steps[0], n, k);
      StuckLasts(cfg, a, Next(cfg, a, c, steps[0]), steps[1..], n, k);
    }
  }

  // ----- a tick among other steps -----

  /** The steps of the tick among some steps. */
  function TickSteps(steps: seq<Step>): seq<TickStep> {
    if steps == [] then []
    else (if steps[0].Ticking? then [steps[0].t] else []) + TickSteps(steps[1..])
  }

  /** Where the tick stands in its pass: what it still has to do is exactly these steps. */
  predicate OnScript(cfg: Config, policy: Policy, tick: Tick, head: Option<int>, answers: nat -> Answers, steps: seq<TickStep>) {
    !tick.Asleep? &&
    var tail := VisitAll(cfg, policy, tick.todo, head, answers).steps;
    match tick
    case Scanning(_) => steps == tail
    case Resent(rec, _, _, _) =>
      var ans := answers(rec.nonce);
      steps == (if ans.stored then [WroteReplaced(ans.now), CachedUpdate, NotifiedUpdate] else [LostReplaced]) + tail
    case Saved(_, _, _) => steps == [CachedUpdate, NotifiedUpdate] + tail
    case Cached(_, _, _) => steps == [NotifiedUpdate] + tail
    case Settling(_, _, _) => steps == [DroppedTx, NotifiedEnd] + tail
    case Dropped(_, _, _) => steps == [NotifiedEnd] + tail
  }

  /** What a visit begins with, and how it goes on. */
  lemma VisitBegins(cfg: Config, policy: Policy, r: TxRecord, head: Option<int>, ans: Answers)
    ensures var steps := Visit(cfg, policy, r, head, ans).steps;
            && steps != []
            && match steps[0]
               case Skipped => steps == [Skipped]
               case ResentBad => steps == [ResentBad] && Bump(cfg.oracle, r.fees).Ok? && MayReplace(r) && r.attempts < cfg.maxAttempts
               case WroteTerminal(status, _, _) =>
                 && steps == [steps[0]] + [DroppedTx, NotifiedEnd] && IsTerminal(status)
                 && (status.Failed? ==> MayReplace(r) && r.attempts >= cfg.maxAttempts)
               case WroteMined(_) => steps == [steps[0]] + [CachedUpdate, NotifiedUpdate] && !r.minedEmitted
               case ResentOk(_) =>
                 && steps == [steps[0]] + (if ans.stored then [WroteReplaced(ans.now), CachedUpdate, NotifiedUpdate] else [LostReplaced])
                 && Bump(cfg.oracle, r.fees).Ok? && MayReplace(r) && r.attempts < cfg.maxAttempts
               case _ => false
  {
    hide Bump;
  }

  lemma FirstOfTwo<T>(s: seq<T>, t: seq<T>)
    requires s != []
    ensures s + t != [] && (s + t)[0] == s[0] && (s + t)[1..] == s[1..] + t
  {
  }

  /** The tick begins the visit of the next record. */
  lemma VisitOnScript(cfg: Config, policy: Policy, c: Account, head: Option<int>, answers: nat -> Answers, steps: seq<TickStep>)
    returns (later: Option<int>)
    requires HasNext(c) && OnScript(cfg, policy, c.tick, head, answers, steps)
    ensures steps != [] && TickEnabled(cfg, c, steps[0])
    ensures steps[0] == Visit(cfg, policy, c.tick.todo[0], head, answers(c.tick.todo[0].nonce)).steps[0]
    ensures OnScript(cfg, policy, TickNext(cfg, c, steps[0]).tick, later, answers, steps[1..])
  {
    hide Visit, VisitAll, Upsert, Sign, Accept, MarkSettled, Bump, IsListing;
    var r := c.tick.todo[0];
    var first := Visit(cfg, policy, r, head, answers(r.nonce));
    VisitBegins(cfg, policy, r, head, answers(r.nonce));
    VisitAllFirst(cfg, policy, c.tick.todo, head, answers);
    FirstOfTwo(first.steps, VisitAll(cfg, policy, c.tick.todo[1..], first.head, answers).steps);
    later := first.head;
  }

  lemma VisitAllFirst(cfg: Config, policy: Policy, todo: seq<TxRecord>, head: Option<int>, answers: nat -> Answers)
    requires todo != []
    ensures var first := Visit(cfg, policy, todo[0], head, answers(todo[0].nonce));
            VisitAll(cfg, policy, todo, head, answers).steps == first.steps + VisitAll(cfg, policy, todo[1..], first.head, answers).steps
  {
    hide Visit;
  }

  lemma ResentOnScript(cfg: Config, policy: Policy, c: Account, head: Option<int>, answers: nat -> Answers, steps: seq<TickStep>)
    requires c.tick.Resent? && OnScript(cfg, policy, c.tick, head, answers, steps)
    ensures steps != [] && TickEnabled(cfg, c, steps[0])
    ensures var ans := answers(c.tick.rec.nonce); steps[0] == if ans.stored then WroteReplaced(ans.now) else LostReplaced
    ensures OnScript(cfg, policy, TickNext(cfg, c, steps[0]).tick, head, answers, steps[1..])
  {
    hide VisitAll, Upsert;
    var tail, ans := VisitAll(cfg, policy, c.tick.todo, head, answers).steps, answers(c.tick.rec.nonce);
    if ans.stored {
      FirstOfTwo([WroteReplaced(ans.now), CachedUpdate, NotifiedUpdate], tail);
    } else {
      FirstOfTwo([LostReplaced], tail);
    }
  }

  /** The tick goes on with the record in its hand. */
  lemma HandOnScript(cfg: Config, policy: Policy, c: Account, head: Option<int>, answers: nat -> Answers, steps: seq<TickStep>)
    requires !c.tick.Scanning? && !c.tick.Resent? && OnScript(cfg, policy, c.tick, head, answers, steps)
    ensures steps != [] && TickEnabled(cfg, c, steps[0])
    ensures OnScript(cfg, policy, TickNext(cfg, c, steps[0]).tick, head, answers, steps[1..])
  {
    hide VisitAll, Emit;
    var tail := VisitAll(cfg, policy, c.tick.todo, head, answers).steps;
    match c.tick
    case Saved(_, _, _) => FirstOfTwo([CachedUpdate, NotifiedUpdate], tail);
    case Cached(_, _, _) => FirstOfTwo([NotifiedUpdate], tail);
    case Settling(_, _, _) => FirstOfTwo([DroppedTx, NotifiedEnd], tail);
    case Dropped(_, _, _) => FirstOfTwo([NotifiedEnd], tail);
    case _ =>
  }

  /** Whatever else moves in between, the tick can always take the next step of its pass, and is then
      at the step after it. */
  lemma TickGoesOn(cfg: Config, policy: Policy, c: Account, head: Option<int>, answers: nat -> Answers, steps: seq<TickStep>)
    returns (later: Option<int>)
    requires OnScript(cfg, policy, c.tick, head, answers, steps)
    ensures steps == [] <==> CanTickEnd(c)
    ensures steps != [] ==>
              TickEnabled(cfg, c, steps[0]) && OnScript(cfg, policy, TickNext(cfg, c, steps[0]).tick, later, answers, steps[1..])
  {
    hide OnScript, TickEnabled, TickNext, VisitAll;
    later := head;
    if HasNext(c) {
      later := VisitOnScript(cfg, policy, c, head, answers, steps);
    } else if c.tick.Scanning? {
      PassIsOver(cfg, policy, c, head, answers, steps);
    } else if c.tick.Resent? {
      ResentOnScript(cfg, policy, c, head, answers, steps);
    } else {
      HandOnScript(cfg, policy, c, head, answers, steps);
    }
  }

  lemma PassIsOver(cfg: Config, policy: Policy, c: Account, head: Option<int>, answers: nat -> Answers, steps: seq<TickStep>)
    requires c.tick.Scanning? && c.tick.todo == [] && OnScript(cfg, policy, c.tick, head, answers, steps)
    ensures steps == []
  {
  }

  // ----- a stuck transaction in such a tick -----

  /** The record is stuck, and giving it up or replacing it meets no obstacle. */
  predicate Stuck(cfg: Config, policy: Policy, r: TxRecord, ans: Answers) {
    && ans.receipt == Ok(None) && ans.now - r.submittedAt >= policy.stuckAfterMs && MayReplace(r) && ans.stored
    && (r.attempts < cfg.maxAttempts ==> ans.send.Sent? && Bump(cfg.oracle, r.fees).Ok?)
  }

  lemma StuckVisit(cfg: Config, policy: Policy, r: TxRecord, head: Option<int>, ans: Answers)
    requires Stuck(cfg, policy, r, ans)
    ensures var steps := Visit(cfg, policy, r, head, ans).steps;
            steps != [] && (steps[0].ResentOk? || (steps[0].WroteTerminal? && steps[0].status.Failed?))
  {
    hide Bump;
  }

  function CountKey(todo: seq<TxRecord>, k: Key): nat {
    if todo == [] then 0 else (if todo[0].key == k then 1 else 0) + CountKey(todo[1..], k)
  }

  /** The records of key k whose row this tick has still to write. */
  function Awaited(tick: Tick, k: Key): nat {
    if tick.Asleep? then 0
    else CountKey(tick.todo, k) + if tick.Resent? && tick.rec.key == k then 1 else 0
  }

  /** The tick finds k stuck whenever it comes to it. */
  predicate FindsStuck(cfg: Config, policy: Policy, tick: Tick, answers: nat -> Answers, k: Key) {
    !tick.Asleep? ==>
      && (forall i | 0 <= i < |tick.todo| && tick.todo[i].key == k :: Stuck(cfg, policy, tick.todo[i], answers(tick.todo[i].nonce)))
      && (tick.Resent? && tick.rec.key == k ==> answers(tick.rec.nonce).stored)
  }

  /** The step writes the row of this record, or none. */
  lemma WhoWrites(cfg: Config, a: Address, c: Account, x: TickStep, k: Key)
    requires TickEnabled(cfg, c, x)
    ensures Writes(cfg, a, c, Ticking(x), k) <==>
              ((x.WroteTerminal? || x.WroteMined?) && c.tick.todo[0].key == k) || (x.WroteReplaced? && c.tick.rec.key == k)
  {
    hide IsListing;
  }

  /** Every step of the pass takes the record it writes, and no other, off what is awaited. */
  predicate StepCounts(cfg: Config, a: Address, policy: Policy, c: Account, x: TickStep, answers: nat -> Answers, k: Key) {
    && TickEnabled(cfg, c, x)
    && Awaited(c.tick, k) == Awaited(TickNext(cfg, c, x).tick, k) + (if Writes(cfg, a, c, Ticking(x), k) then 1 else 0)
    && StaysStuck(cfg, a, c, Ticking(x), k)
    && FindsStuck(cfg, policy, TickNext(cfg, c, x).tick, answers, k)
  }

  lemma VisitCounts(cfg: Config, a: Address, policy: Policy, c: Account, head: Option<int>, answers: nat -> Answers, x: TickStep, k: Key)
    requires HasNext(c) && FindsStuck(cfg, policy, c.tick, answers, k) && TickEnabled(cfg, c, x)
    requires x == Visit(cfg, policy, c.tick.todo[0], head, answers(c.tick.todo[0].nonce)).steps[0]
    ensures StepCounts(cfg, a, policy, c, x, answers, k)
  {
    hide Visit, Upsert, Sign, Accept, MarkSettled, Bump, IsListing, Writes, Stuck;
    var r := c.tick.todo[0];
    VisitBegins(cfg, policy, r, head, answers(r.nonce));
    if r.key == k {
      StuckVisit(cfg, policy, r, head, answers(r.nonce));
      assert Stuck(cfg, policy, r, answers(r.nonce));
      StuckIsStored(cfg, policy, r, answers(r.nonce));
    }
    WhoWrites(cfg, a, c, x, k);
  }

  lemma StuckIsStored(cfg: Config, policy: Policy, r: TxRecord, ans: Answers)
    requires Stuck(cfg, policy, r, ans)
    ensures ans.stored
  {
  }

  lemma HandCounts(cfg: Config, a: Address, policy: Policy, c: Account, answers: nat -> Answers, x: TickStep, k: Key)
    requires !c.tick.Scanning? && !c.tick.Asleep? && FindsStuck(cfg, policy, c.tick, answers, k) && TickEnabled(cfg, c, x)
    requires c.tick.Resent? && c.tick.rec.key == k ==> !x.LostReplaced?
    ensures StepCounts(cfg, a, policy, c, x, answers, k)
  {
    hide Upsert, Emit, IsListing, Writes, Stuck, CountKey;
    WhoWrites(cfg, a, c, x, k);
  }

  lemma PassStepCounts(cfg: Config, a: Address, policy: Policy, c: Account, head: Option<int>, answers: nat -> Answers,
                       steps: seq<TickStep>, k: Key)
    requires OnScript(cfg, policy, c.tick, head, answers, steps) && steps != [] && FindsStuck(cfg, policy, c.tick, answers, k)
    ensures StepCounts(cfg, a, policy, c, steps[0], answers, k)
  {
    hide OnScript, TickEnabled, TickNext, VisitAll, FindsStuck, StepCounts;
    if HasNext(c) {
      var _ := VisitOnScript(cfg, policy, c, head, answers, steps);
      VisitCounts(cfg, a, policy, c, head, answers, steps[0], k);
    } else if c.tick.Scanning? {
      PassIsOver(cfg, policy, c, head, answers, steps);
    } else {
      if c.tick.Resent? {
        ResentOnScript(cfg, policy, c, head, answers, steps);
      } else {
        HandOnScript(cfg, policy, c, head, answers, steps);
      }
      AnswersStored(cfg, policy, c.tick, answers, k);
      OnScriptAwake(cfg, policy, c.tick, head, answers, steps);
      HandCounts(cfg, a, policy, c, answers, steps[0], k);
    }
  }

  lemma AnswersStored(cfg: Config, policy: Policy, tick: Tick, answers: nat -> Answers, k: Key)
    requires FindsStuck(cfg, policy, tick, answers, k)
    ensures tick.Resent? && tick.rec.key == k ==> answers(tick.rec.nonce).stored
  {
  }

  lemma OnScriptAwake(cfg: Config, policy: Policy, tick: Tick, head: Option<int>, answers: nat -> Answers, steps: seq<TickStep>)
    requires OnScript(cfg, policy, tick, head, answers, steps)
    ensures !tick.Asleep?
  {
    hide VisitAll;
  }

  predicate AllSpare(cfg: Config, a: Address, c: Account, steps: seq<Step>, k: Key)
    decreases |steps|
  {
    steps == [] || !Enabled(cfg, a, c, steps[0]) ||
    (Spares(cfg, a, c, steps[0], k) && AllSpare(cfg, a, Next(cfg, a, c, steps[0]), steps[1..], k))
  }

  /** The rest of a pass, with anything in between: what is awaited is written, once each. */
  lemma {:induction false} PassWrites(cfg: Config, a: Address, policy: Policy, c: Account, steps: seq<Step>, head: Option<int>,
                                      answers: nat -> Answers, n: nat, k: Key)
    requires Held(cfg, a, c, n, k) && Perform(cfg, a, c, steps).Ok? && AllSpare(cfg, a, c, steps, k)
    requires OnScript(cfg, policy, c.tick, head, answers, TickSteps(steps)) && FindsStuck(cfg, policy, c.tick, answers, k)
    ensures CanTickEnd(Perform(cfg, a, c, steps).value)
    ensures CountWrites(cfg, a, c, steps, k) == Awaited(c.tick, k) && AllStuck(cfg, a, c, steps, k)
    decreases |steps|
  {
    hide Held, Enabled, Next, OnScript, FindsStuck, TickEnabled, TickNext, CanTickEnd, Writes, StartsLife;
    var later := TickGoesOn(cfg, policy, c, head, answers, TickSteps(steps));
    if steps == [] {
      NothingAwaited(c, k);
    } else {
      var s := steps[0];
      var d := Next(cfg, a, c, s);
      if s.Ticking? {
        assert TickSteps(steps) == [s.t] + TickSteps(steps[1..]);
        PassStepCounts(cfg, a, policy, c, head, answers, TickSteps(steps), k);
        NextTicks(cfg, a, c, s.t);
        StaysHeld(cfg, a, c, s, n, k);
        PassWrites(cfg, a, policy, d, steps[1..], later, answers, n, k);
      } else {
        assert TickSteps(steps) == TickSteps(steps[1..]);
        OthersLeaveTick(cfg, a, c, s);
        OnlyTickWrites(cfg, a, c, s, n, k);
        StaysHeld(cfg, a, c, s, n, k);
        PassWrites(cfg, a, policy, d, steps[1..], head, answers, n, k);
      }
    }
  }

  lemma NothingAwaited(c: Account, k: Key)
    requires CanTickEnd(c)
    ensures Awaited(c.tick, k) == 0
  {
  }

  lemma NextTicks(cfg: Config, a: Address, c: Account, x: TickStep)
    ensures Enabled(cfg, a, c, Ticking(x)) <==> TickEnabled(cfg, c, x)
    ensures TickEnabled(cfg, c, x) ==> Next(cfg, a, c, Ticking(x)) == TickNext(cfg, c, x)
  {
    hide TickEnabled, TickNext;
  }

  /** A listing names each key once, and every tracked record. */
  lemma ListedKeys(cfg: Config, a: Address, c: Account, list: seq<TxRecord>)
    requires Inv(cfg, a, c) && c.mode.Up? && c.tick.Asleep? && IsListing(list, c.tracked)
    ensures forall i, j | 0 <= i < j < |list| :: list[i].key != list[j].key
  {
    NothingResent(c.mode, c.resends, c.rows, c.tracked);
    forall i, j | 0 <= i < j < |list| ensures list[i].key != list[j].key {
      TrackedKeys(cfg, a, c, list[i].nonce, list[j].nonce);
    }
  }

  lemma TrackedKeys(cfg: Config, a: Address, c: Account, m: nat, n: nat)
    requires Inv(cfg, a, c) && c.mode.Up? && c.tick.Asleep? && m in c.tracked && n in c.tracked && m != n
    ensures c.tracked[m].key != c.tracked[n].key
  {
    NothingResent(c.mode, c.resends, c.rows, c.tracked);
    hide LaneOk, SentOk, TurnOk, TickOk, RestoreOk, HistoryOk, CapOk, RowsOk, NoncesDistinct, StoreInCache;
    assert InStore(c.rows, c.tracked[m], Persisted(c.tracked[m], InStep, map[]));
    assert InStore(c.rows, c.tracked[n], Persisted(c.tracked[n], InStep, map[]));
  }

  lemma {:induction false} CountsOnce(list: seq<TxRecord>, k: Key)
    requires forall i, j | 0 <= i < j < |list| :: list[i].key != list[j].key
    ensures CountKey(list, k) == if exists i :: 0 <= i < |list| && list[i].key == k then 1 else 0
  {
    if list != [] {
      CountsOnce(list[1..], k);
      SplitOwner(list, k);
      if i :| 0 <= i < |list[1..]| && list[1..][i].key == k { assert list[i + 1].key == k; }
    }
  }

  lemma SplitOwner(todo: seq<TxRecord>, k: Key)
    requires todo != []
    ensures (exists i :: 0 <= i < |todo| && todo[i].key == k)
      <==> todo[0].key == k || exists i :: 0 <= i < |todo[1..]| && todo[1..][i].key == k
  {
    if i :| 0 < i < |todo| && todo[i].key == k {
      assert todo[1..][i - 1].key == k;
    }
    if i :| 0 <= i < |todo[1..]| && todo[1..][i].key == k {
      assert todo[i + 1].key == k;
    }
  }

  /** A tick that begins has each tracked record before it once. */
  lemma ListsStuck(cfg: Config, a: Address, policy: Policy, c: Account, list: seq<TxRecord>, answers: nat -> Answers, n: nat)
    requires Inv(cfg, a, c) && CanTickBegin(c, list) && n in c.tracked && Stuck(cfg, policy, c.tracked[n], answers(n))
    ensures var k, b := c.tracked[n].key, TickBegin(c, list);
            Awaited(b.tick, k) == 1 && FindsStuck(cfg, policy, b.tick, answers, k) && InFlight(c, n, k)
  {
    hide Inv, Stuck, CountKey, IsListing;
    ListedKeys(cfg, a, c, list);
    ListsOnce(list, c.tracked, n);
  }

  lemma ListsOnce(list: seq<TxRecord>, tracked: map<nat, TxRecord>, n: nat)
    requires IsListing(list, tracked) && n in tracked && forall i, j | 0 <= i < j < |list| :: list[i].key != list[j].key
    ensures CountKey(list, tracked[n].key) == 1
    ensures forall i | 0 <= i < |list| && list[i].key == tracked[n].key :: list[i] == tracked[n] && list[i].nonce == n
  {
    hide CountKey;
    var i :| 0 <= i < |list| && list[i].nonce == n;
    assert list[i] == tracked[n];
    CountsOnce(list, tracked[n].key);
  }

  /** A tick that finds a tracked transaction stuck writes its row exactly once, whatever submits, seeds
      and reattaches do between its awaits. */
  lemma StuckTickWritesOnce(cfg: Config, a: Address, policy: Policy, c: Account, list: seq<TxRecord>, answers: nat -> Answers,
                            steps: seq<Step>, n: nat)
    requires Inv(cfg, a, c) && CanTickBegin(c, list) && n in c.tracked && Stuck(cfg, policy, c.tracked[n], answers(n))
    requires Perform(cfg, a, TickBegin(c, list), steps).Ok? && AllSpare(cfg, a, TickBegin(c, list), steps, c.tracked[n].key)
    requires TickSteps(steps) == VisitAll(cfg, policy, list, None, answers).steps
    ensures CanTickEnd(Perform(cfg, a, TickBegin(c, list), steps).value)
    ensures CountWrites(cfg, a, TickBegin(c, list), steps, c.tracked[n].key) == 1
    ensures AllStuck(cfg, a, TickBegin(c, list), steps, c.tracked[n].key)
  {
    hide Inv, Perform, VisitAll, Stuck, AllSpare, TickSteps, AllStuck, CountWrites, CanTickEnd, Held, IsListing, CountKey, FindsStuck;
    var k, b := c.tracked[n].key, TickBegin(c, list);
    ListsStuck(cfg, a, policy, c, list, answers, n);
    BeginsHeld(cfg, a, c, list, n, k);
    PassWrites(cfg, a, policy, b, steps, None, answers, n, k);
  }

  lemma BeginsHeld(cfg: Config, a: Address, c: Account, list: seq<TxRecord>, n: nat, k: Key)
    requires Inv(cfg, a, c) && CanTickBegin(c, list) && (InFlight(c, n, k) || k !in c.rows)
    ensures Held(cfg, a, TickBegin(c, list), n, k)
  {
    hide Inv, IsListing;
    TickBeginKeeps(cfg, a, c, list);
  }

  // ----- rounds of ticks -----

  /** Some steps, then a tick with the answers it gets and everything that happens while it lasts. */
  datatype Round = Round(between: seq<Step>, list: seq<TxRecord>, answers: nat -> Answers, during: seq<Step>)

  /** Steps that spare k and in which no tick writes its row. */
  predicate AllLeave(cfg: Config, a: Address, c: Account, steps: seq<Step>, k: Key)
    decreases |steps|
  {
    steps == [] || !Enabled(cfg, a, c, steps[0]) ||
    (Spares(cfg, a, c, steps[0], k) && (steps[0].Ticking? ==> !Writes(cfg, a, c, steps[0], k))
     && AllLeave(cfg, a, Next(cfg, a, c, steps[0]), steps[1..], k))
  }

  lemma {:induction false} LeftAlone(cfg: Config, a: Address, c: Account, steps: seq<Step>, n: nat, k: Key)
    requires Held(cfg, a, c, n, k) && Perform(cfg, a, c, steps).Ok? && AllLeave(cfg, a, c, steps, k)
    ensures AllStuck(cfg, a, c, steps, k) && CountWrites(cfg, a, c, steps, k) == 0
    decreases |steps|
  {
    hide Held, Enabled, Next, Writes, StartsLife;
    if steps != [] {
      if !steps[0].Ticking? { OnlyTickWrites(cfg, a, c, steps[0], n, k); }
      StaysHeld(cfg, a, c, steps[0], n, k);
      LeftAlone(cfg, a, Next(cfg, a, c, steps[0]), steps[1..], n, k);
    }
  }

  /** The round can be run, its tick goes through its pass by its answers, and it finds k stuck if k is
      in flight under nonce n. */
  predicate StuckRound(cfg: Config, a: Address, policy: Policy, c: Account, rd: Round, n: nat, k: Key) {
    && Perform(cfg, a, c, rd.between).Ok? && AllLeave(cfg, a, c, rd.between, k)
    && var b := Perform(cfg, a, c, rd.between).value;
       && CanTickBegin(b, rd.list)
       && (InFlight(b, n, k) ==> Stuck(cfg, policy, b.tracked[n], rd.answers(n)))
       && Perform(cfg, a, TickBegin(b, rd.list), rd.during).Ok? && AllSpare(cfg, a, TickBegin(b, rd.list), rd.during, k)
       && TickSteps(rd.during) == VisitAll(cfg, policy, rd.list, None, rd.answers).steps
  }

  /** Where such a round leads: its tick has come to its end. */
  function AfterRound(cfg: Config, a: Address, policy: Policy, c: Account, rd: Round, n: nat, k: Key): Account
    requires StuckRound(cfg, a, policy, c, rd, n, k)
  {
    TickEnd(Perform(cfg, a, TickBegin(Perform(cfg, a, c, rd.between).value, rd.list), rd.during).value)
  }

  predicate StuckRounds(cfg: Config, a: Address, policy: Policy, c: Account, rounds: seq<Round>, n: nat, k: Key)
    decreases |rounds|
  {
    rounds == [] ||
    (StuckRound(cfg, a, policy, c, rounds[0], n, k)
     && StuckRounds(cfg, a, policy, AfterRound(cfg, a, policy, c, rounds[0], n, k), rounds[1..], n, k))
  }

  function AfterRounds(cfg: Config, a: Address, policy: Policy, c: Account, rounds: seq<Round>, n: nat, k: Key): Account
    requires StuckRounds(cfg, a, policy, c, rounds, n, k)
    decreases |rounds|
  {
    if rounds == [] then c
    else AfterRounds(cfg, a, policy, AfterRound(cfg, a, policy, c, rounds[0], n, k), rounds[1..], n, k)
  }

  /** One round takes a transaction in flight one write further; if that is the last one, the
      transaction is failed, reported and out of the cache when the round ends. */
  lemma RoundAdvances(cfg: Config, a: Address, policy: Policy, c: Account, rd: Round, n: nat, r: TxRecord, w: nat)
    requires Inv(cfg, a, c) && c.mode.Up? && StuckRound(cfg, a, policy, c, rd, n, r.key)
    requires w <= Left(cfg, r) && Stands(cfg, c.rows, r, w) && InFlight(c, n, r.key)
    ensures var d := AfterRound(cfg, a, policy, c, rd, n, r.key);
            && Inv(cfg, a, d) && d.mode.Up? && Stands(cfg, d.rows, r, w + 1)
            && (if r.key in d.rows then InFlight(d, n, r.key) else ReportedFailed(d, r.key))
  {
    hide Inv, Perform, CountWrites, AllStuck, Stands, InFlight, Stuck, IsListing, TickSteps, VisitAll, AllSpare, AllLeave,
         FailedInHand, ReportedFailed;
    var k := r.key;
    StandsInRows(cfg, c.rows, r, w);
    LeftAlone(cfg, a, c, rd.between, n, k);
    GivesUpOnTime(cfg, a, c, rd.between, r, w);
    StuckLasts(cfg, a, c, rd.between, n, k);
    var b := Perform(cfg, a, c, rd.between).value;
    StandsInRows(cfg, b.rows, r, w);
    InFlightIs(b, n, k);
    StuckTickWritesOnce(cfg, a, policy, b, rd.list, rd.answers, rd.during, n);
    var t := TickBegin(b, rd.list);
    BeginsHeld(cfg, a, b, rd.list, n, k);
    GivesUpOnTime(cfg, a, t, rd.during, r, w);
    StuckLasts(cfg, a, t, rd.during, n, k);
    EndsRound(cfg, a, Perform(cfg, a, t, rd.during).value, n, k);
  }

  lemma EndsRound(cfg: Config, a: Address, c: Account, n: nat, k: Key)
    requires Held(cfg, a, c, n, k) && LiveOrFailed(c, k) && CanTickEnd(c)
    ensures var d := TickEnd(c);
            && Inv(cfg, a, d) && d.mode.Up? && d.rows == c.rows
            && (if k in d.rows then InFlight(d, n, k) else ReportedFailed(d, k))
  {
    hide Inv;
    TickEndKeeps(cfg, a, c);
  }

  lemma StandsInRows(cfg: Config, rows: map<Key, TxRecord>, r: TxRecord, w: nat)
    requires Stands(cfg, rows, r, w)
    ensures r.key in rows <==> w <= Left(cfg, r)
  {
  }

  lemma InFlightIs(c: Account, n: nat, k: Key)
    ensures InFlight(c, n, k) <==> n in c.tracked && c.tracked[n].key == k
  {
  }

  /** A replaceable transaction that every tick finds stuck is replaced once a tick for
      max(0, maxAttempts - attempts) ticks, and one tick later it is failed: no row, no record, and
      failed as its last event. Between the ticks and within them anything else may happen. */
  lemma {:induction false} FailsAfterExactlyThatManyTicks(cfg: Config, a: Address, policy: Policy, c: Account, rounds: seq<Round>,
                                                          n: nat, r: TxRecord, w: nat)
    requires Inv(cfg, a, c) && c.mode.Up? && InFlight(c, n, r.key) && Stands(cfg, c.rows, r, w) && w <= Left(cfg, r)
    requires StuckRounds(cfg, a, policy, c, rounds, n, r.key) && w + |rounds| <= Left(cfg, r) + 1
    ensures var d := AfterRounds(cfg, a, policy, c, rounds, n, r.key);
            && Stands(cfg, d.rows, r, w + |rounds|)
            && (if w + |rounds| <= Left(cfg, r) then InFlight(d, n, r.key) && r.key in d.rows else ReportedFailed(d, r.key))
    decreases |rounds|
  {
    hide Inv, InFlight, Stands, StuckRound, ReportedFailed;
    StandsInRows(cfg, c.rows, r, w);
    if rounds != [] {
      RoundAdvances(cfg, a, policy, c, rounds[0], n, r, w);
      var d := AfterRound(cfg, a, policy, c, rounds[0], n, r.key);
      StandsInRows(cfg, d.rows, r, w + 1);
      if |rounds| > 1 {
        FailsAfterExactlyThatManyTicks(cfg, a, policy, d, rounds[1..], n, r, w + 1);
      }
    }
  }

  /** The cache and the store hold the same replaceable record under nonce n. */
  predicate InHandReplaceable(c: Account, n: nat) {
    && c.mode.Up? && n in c.tracked && MayReplace(c.tracked[n])
    && c.tracked[n].key in c.rows && c.rows[c.tracked[n].key] == c.tracked[n]
  }

  lemma StandsAtStart(cfg: Config, c: Account, n: nat)
    requires InHandReplaceable(c, n)
    ensures InFlight(c, n, c.tracked[n].key) && Stands(cfg, c.rows, c.tracked[n], 0)
  {
  }

  /** The same from any state a run reaches, for the record the cache holds. */
  lemma StuckTransactionFails(cfg: Config, a: Address, policy: Policy, steps: seq<Step>, c: Account, rounds: seq<Round>, n: nat)
    requires Run(cfg, a, steps) == Ok(c) && InHandReplaceable(c, n)
    requires StuckRounds(cfg, a, policy, c, rounds, n, c.tracked[n].key) && |rounds| <= Left(cfg, c.tracked[n]) + 1
    ensures var r := c.tracked[n];
            var d := AfterRounds(cfg, a, policy, c, rounds, n, r.key);
            if |rounds| <= Max(0, cfg.maxAttempts - r.attempts)
            then r.key in d.rows && d.rows[r.key].attempts == r.attempts + |rounds| && InFlight(d, n, r.key)
            else ReportedFailed(d, r.key)
  {
    RunKeeps(cfg, a, steps);
    StandsAtStart(cfg, c, n);
    hide Run, Inv, StuckRounds, AfterRounds, InFlight, ReportedFailed;
    FailsAfterExactlyThatManyTicks(cfg, a, policy, c, rounds, n, c.tracked[n], 0);
  }
}
