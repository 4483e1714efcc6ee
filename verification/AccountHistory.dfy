/** What a managed account does over time: where its cursor falls, which nonces follow each other,
    what it signs, and what becomes of a transaction whose turn is over. */
module AccountHistory {
  import opened Records
  import opened FeeOracles
  import opened Cursors
  import opened AccountProtocol
  import opened AccountInvariant
  import opened AccountWrites
  import opened AccountSteps
  import opened AccountTheorems
  import opened AccountScripts
  import opened Outcomes
  import opened PoolProtocol
  import opened PoolViews

  // ----- the cursor -----

  lemma TickLeavesLane(cfg: Config, c: Account, s: TickStep)
    requires TickEnabled(cfg, c, s)
    ensures var d := TickNext(cfg, c, s); d.cursor == c.cursor && d.turn == c.turn && d.sent == c.sent
  {
    hide IsListing, Upsert, Sign, Accept, Emit, MarkSettled, CanSettle, CanReplace;
  }

  lemma BootSeedsLane(cfg: Config, a: Address, c: Account, s: BootStep)
    requires BootEnabled(cfg, a, c, s) && !s.Crashed?
    ensures var d := BootNext(cfg, a, c, s);
            && d.turn == c.turn && d.sent == c.sent && NextNonce(d.cursor) >= NextNonce(c.cursor)
            && (d.cursor != c.cursor ==> s.SeededNonce? || s.RestoredSeed? || s.Reattached?)
  {
    hide CanReattach, Upsert, Sign, Accept;
  }

  lemma SubmitMovesCursor(cfg: Config, a: Address, c: Account, s: SubmitStep)
    requires SubmitEnabled(cfg, c, s)
    ensures var d := SubmitNext(cfg, a, c, s);
            NextNonce(d.cursor) < NextNonce(c.cursor) <==> s.ClosedTurn? && NextNonce(c.cursor) > c.turn.rec.nonce + 1
  {
    hide KeyFree, Upsert, Sign, Accept;
  }

  /** Short of a crash, one thing alone moves a cursor back: a turn that ends well after a seed went
      beyond the turn's own successor. */
  lemma CursorFallsExactly(cfg: Config, a: Address, c: Account, s: Step)
    requires Enabled(cfg, a, c, s) && s != Recovering(Crashed)
    ensures NextNonce(Next(cfg, a, c, s).cursor) < NextNonce(c.cursor)
            <==> s == Submitting(ClosedTurn) && NextNonce(c.cursor) > c.turn.rec.nonce + 1
  {
    hide SubmitNext, TickNext, BootNext, SubmitEnabled, TickEnabled, BootEnabled;
    match s
    case Submitting(t) => SubmitMovesCursor(cfg, a, c, t);
    case Ticking(t) => TickLeavesLane(cfg, c, t);
    case Recovering(t) => BootSeedsLane(cfg, a, c, t);
  }

  /** The first transaction of a fresh account, up to where its turn is about to end. */
  function FirstSteps(sub: Submission, fees: Fees, gas: int, hash: Hash, now: int): seq<Step> {
    [Recovering(Booted), Recovering(FinishedBoot), Submitting(OpenedTurn(sub)), Submitting(BelowCap),
     Submitting(WroteAhead(fees, gas, now)), Submitting(SendOk(hash)), Submitting(WroteLive(now)), Submitting(TrackedLive)]
  }

  function FirstRecord(cfg: Config, a: Address, sub: Submission, fees: Fees, gas: int, hash: Hash, now: int): TxRecord {
    LiveRecord(NewRecord(cfg, a, sub, 0, fees, gas, now), hash, now)
  }

  /** The row of the first transaction, written ahead. */
  function FirstIntent(cfg: Config, a: Address, sub: Submission, fees: Fees, gas: int, now: int): Account {
    WriteAhead(cfg, a, Admit(OpenTurn(FinishBoot(Boot(NewAccount)), sub)), fees, gas, now)
  }

  lemma IntendsFirst(cfg: Config, a: Address, sub: Submission, fees: Fees, gas: int, hash: Hash, now: int, rest: seq<Step>)
    requires cfg.maxInflight > 0
    ensures Perform(cfg, a, NewAccount, FirstSteps(sub, fees, gas, hash, now)[..5] + rest)
            == Perform(cfg, a, FirstIntent(cfg, a, sub, fees, gas, now), rest)
  {
    hide Perform, Upsert;
    var s := FirstSteps(sub, fees, gas, hash, now);
    var ready := FinishBoot(Boot(NewAccount));
    PerformOne(cfg, a, Admit(OpenTurn(ready, sub)), s[4], rest);
    PerformOne(cfg, a, OpenTurn(ready, sub), s[3], [s[4]] + rest);
    PerformOne(cfg, a, ready, s[2], [s[3]] + ([s[4]] + rest));
    PerformOne(cfg, a, Boot(NewAccount), s[1], [s[2]] + ([s[3]] + ([s[4]] + rest)));
    PerformOne(cfg, a, NewAccount, s[0], [s[1]] + ([s[2]] + ([s[3]] + ([s[4]] + rest))));
    assert s[..5] + rest == [s[0]] + ([s[1]] + ([s[2]] + ([s[3]] + ([s[4]] + rest))));
  }

  lemma LandsFirst(cfg: Config, a: Address, c: Account, hash: Hash, now: int)
    requires c.turn.Intended?
    ensures Perform(cfg, a, c, [Submitting(SendOk(hash)), Submitting(WroteLive(now)), Submitting(TrackedLive)])
            == Ok(Land(WriteLive(SendAccepted(c, hash), now)))
  {
    hide Perform, Upsert, Sign, Accept, TickEnabled, BootEnabled, TickNext, BootNext;
    var s := [Submitting(SendOk(hash)), Submitting(WroteLive(now)), Submitting(TrackedLive)];
    var sent := SendAccepted(c, hash);
    PerformNone(cfg, a, WriteLive(sent, now), s[2]);
    PerformOne(cfg, a, sent, s[1], [s[2]]);
    PerformOne(cfg, a, c, s[0], [s[1]] + [s[2]]);
    assert s == [s[0]] + ([s[1]] + [s[2]]);
  }

  lemma FirstTransaction(cfg: Config, a: Address, sub: Submission, fees: Fees, gas: int, hash: Hash, now: int) returns (c: Account)
    requires cfg.maxInflight > 0
    ensures Run(cfg, a, FirstSteps(sub, fees, gas, hash, now)) == Ok(c)
    ensures var r := FirstRecord(cfg, a, sub, fees, gas, hash, now);
            && c.mode == Up && c.turn == Landed(r) && c.tick == Asleep && c.cursor == None
            && c.tracked == map[0 := r] && c.rows == map[sub.key := r]
  {
    hide Perform, Run, Sign, Accept, Enabled, Next;
    var s := FirstSteps(sub, fees, gas, hash, now);
    var intended := FirstIntent(cfg, a, sub, fees, gas, now);
    c := Land(WriteLive(SendAccepted(intended, hash), now));
    IntendsFirst(cfg, a, sub, fees, gas, hash, now, s[5..]);
    LandsFirst(cfg, a, intended, hash, now);
    assert s == s[..5] + s[5..];
    RunOfNothing(cfg, a);
    RunThenPerform(cfg, a, [], NewAccount, s);
    assert [] + s == s;
  }

  lemma RunOfNothing(cfg: Config, a: Address)
    ensures Run(cfg, a, []) == Ok(NewAccount)
  {
  }

  /** And a run gets there: a seed of 5 during the first turn is forgotten when the turn ends at 1. */
  lemma CursorCanFall(cfg: Config, a: Address, sub: Submission, fees: Fees, gas: int, hash: Hash, now: int)
      returns (steps: seq<Step>, c: Account)
    requires cfg.maxInflight > 0
    ensures Run(cfg, a, steps) == Ok(c) && Enabled(cfg, a, c, Submitting(ClosedTurn))
    ensures c.cursor == Some(5) && Next(cfg, a, c, Submitting(ClosedTurn)).cursor == Some(1)
  {
    hide Run;
    var before := FirstTransaction(cfg, a, sub, fees, gas, hash, now);
    var first, seed := FirstSteps(sub, fees, gas, hash, now), Recovering(SeededNonce(5));
    RunAppend(cfg, a, first, seed);
    steps, c := first + [seed], Seed(before, 5);
  }

  lemma ListsOne(r: TxRecord)
    ensures IsListing([r], map[r.nonce := r])
  {
    assert [r][0] == r;
  }

  /** Store and cache do disagree within a tick: here the row is gone and the record still tracked. */
  lemma StoreCanBeAhead(cfg: Config, a: Address, sub: Submission, fees: Fees, gas: int, hash: Hash, now: int)
      returns (steps: seq<Step>, c: Account)
    requires cfg.maxInflight > 0
    ensures Run(cfg, a, steps) == Ok(c) && c.mode.Up?
    ensures sub.key !in c.rows && 0 in c.tracked && c.tracked[0].key == sub.key
  {
    hide Run, Sign, Accept, MarkSettled;
    var before := FirstTransaction(cfg, a, sub, fees, gas, hash, now);
    var r := FirstRecord(cfg, a, sub, fees, gas, hash, now);
    var first, began := FirstSteps(sub, fees, gas, hash, now), Ticking(BeganTick([r]));
    ListsOne(r);
    RunAppend(cfg, a, first, began);
    RunAppend(cfg, a, first + [began], Ticking(WroteTerminal(Confirmed, None, now)));
    steps, c := first + [began] + [Ticking(WroteTerminal(Confirmed, None, now))], Settle(TickBegin(before, [r]), Confirmed, None, now);
  }

  // ----- when store and cache agree -----

  /** Every tracked record is the row of its key, and every row is tracked. */
  predicate InSync(rows: map<Key, TxRecord>, tracked: map<nat, TxRecord>) {
    && (forall n | n in tracked :: tracked[n].key in rows && rows[tracked[n].key] == tracked[n])
    && (forall k | k in rows :: Holds(tracked, rows[k]))
  }

  predicate Differs(tracked: map<nat, TxRecord>, r: TxRecord) {
    r.nonce in tracked && tracked[r.nonce] != r
  }

  /** An update that the tick has persisted and not cached is a change. */
  predicate SavedChanges(tick: Tick, tracked: map<nat, TxRecord>) {
    tick.Saved? ==> Differs(tracked, tick.rec)
  }

  lemma MinedChanges(cfg: Config, a: Address, c: Account, now: int)
    requires Inv(cfg, a, c) && CanMarkMined(c)
    ensures Differs(c.tracked, MinedRecord(c.tick.todo[0], now))
  {
    hide Inv, RowLife, RowOk, TodoOk;
    NextIsRow(cfg, a, c);
  }

  lemma ReplacedChanges(cfg: Config, a: Address, c: Account, now: int)
    requires Inv(cfg, a, c) && c.tick.Resent?
    ensures Differs(c.tracked, ReplacedRecord(c.tick.rec, c.tick.fees, c.tick.hash, now))
  {
    hide TablesOk, LaneOk, SentOk, TurnOk, RestoreOk, HistoryOk, CapOk, TodoOk, Bump;
  }

  lemma TickSavesChange(cfg: Config, a: Address, c: Account, s: TickStep)
    requires Inv(cfg, a, c) && TickEnabled(cfg, c, s)
    ensures var d := TickNext(cfg, c, s); SavedChanges(d.tick, d.tracked)
  {
    hide Inv, Differs, IsListing, Upsert, Sign, Accept, Emit, MarkSettled, Bump, MinedRecord, ReplacedRecord;
    if s.WroteMined? { MinedChanges(cfg, a, c, s.now); }
    if s.WroteReplaced? { ReplacedChanges(cfg, a, c, s.now); }
  }

  lemma SubmitTracksNew(cfg: Config, a: Address, c: Account, s: SubmitStep)
    requires Inv(cfg, a, c) && SubmitEnabled(cfg, c, s) && SavedChanges(c.tick, c.tracked)
    ensures var d := SubmitNext(cfg, a, c, s); SavedChanges(d.tick, d.tracked)
  {
    hide TablesOk, SentOk, TurnOk, RestoreOk, HistoryOk, CapOk, TodoOk, UpdatePending, KeyFree, Upsert, Sign, Accept;
  }

  lemma BootTracksNew(cfg: Config, a: Address, c: Account, s: BootStep)
    requires Inv(cfg, a, c) && BootEnabled(cfg, a, c, s) && SavedChanges(c.tick, c.tracked)
    ensures var d := BootNext(cfg, a, c, s); SavedChanges(d.tick, d.tracked)
  {
    hide Inv, KeyFree, Upsert, Sign, Accept, IsPlaceholder, RestoreOk;
    TickIsUp(cfg, a, c);
  }

  lemma TickIsUp(cfg: Config, a: Address, c: Account)
    requires Inv(cfg, a, c)
    ensures !c.tick.Asleep? ==> c.mode.Up? && c.resends == map[]
  {
    hide TablesOk, LaneOk, SentOk, TurnOk, HistoryOk, CapOk, RestoreOk, TodoOk, UpdatePending, EndPending;
    if !c.tick.Asleep? { NothingResent(c.mode, c.resends, c.rows, c.tracked); }
  }

  lemma {:induction false} RunSavesChange(cfg: Config, a: Address, steps: seq<Step>, c: Account)
    requires Run(cfg, a, steps) == Ok(c)
    ensures SavedChanges(c.tick, c.tracked)
    decreases |steps|
  {
    hide Inv, Enabled, Next;
    if steps != [] {
      var before, s := steps[..|steps| - 1], steps[|steps| - 1];
      var b := Run(cfg, a, before).value;
      RunSavesChange(cfg, a, before, b);
      RunKeeps(cfg, a, before);
      StepSavesChange(cfg, a, b, s);
    }
  }

  lemma StepSavesChange(cfg: Config, a: Address, c: Account, s: Step)
    requires Inv(cfg, a, c) && Enabled(cfg, a, c, s) && SavedChanges(c.tick, c.tracked)
    ensures var d := Next(cfg, a, c, s); SavedChanges(d.tick, d.tracked)
  {
    hide Inv, SubmitNext, TickNext, BootNext, SubmitEnabled, TickEnabled, BootEnabled, SavedChanges;
    match s
    case Submitting(t) => SubmitTracksNew(cfg, a, c, t);
    case Ticking(t) => TickSavesChange(cfg, a, c, t);
    case Recovering(t) => BootTracksNew(cfg, a, c, t);
  }

  /** Store and cache of a running account hold the same records exactly when no submit has a row
      that it has still to track, and the tick no write that it has still to bring into the cache. */
  lemma InSyncExactly(cfg: Config, a: Address, steps: seq<Step>, c: Account)
    requires Run(cfg, a, steps) == Ok(c) && c.mode.Up?
    ensures InSync(c.rows, c.tracked) <==> PendingRow(c.turn).None? && StoreAhead(c.tick).InStep?
  {
    hide Run, Inv;
    StoreAndCacheAgree(cfg, a, steps, c);
    RunSavesChange(cfg, a, steps, c);
    RunKeeps(cfg, a, steps);
    NoncesAreKeys(cfg, a, c);
  }

  lemma NoncesAreKeys(cfg: Config, a: Address, c: Account)
    requires Inv(cfg, a, c)
    ensures forall n | n in c.tracked :: c.tracked[n].nonce == n
    ensures forall k | k in c.rows :: c.rows[k].key == k
  {
    hide LaneOk, SentOk, TurnOk, TickOk, RestoreOk, HistoryOk, CapOk, NoncesDistinct, CacheInStore, StoreInCache;
  }

  // ----- consecutive nonces -----

  /** Neither a crash nor anything that seeds the lane: submits, whatever becomes of them short of
      drift, ticks and rebroadcasts. */
  predicate Undisturbed(s: Step) {
    match s
    case Submitting(t) => !t.Reseeded?
    case Ticking(_) => true
    case Recovering(t) => !t.Crashed? && !t.SeededNonce? && !t.RestoredSeed? && !t.Reattached?
  }

  /** Since the first `from` sends the nonces follow each other, and the lane stands at the next one;
      first is where they started, if the lane was idle then. */
  predicate InSequence(from: nat, first: Option<nat>, sent: seq<nat>, turn: Turn, cursor: Option<nat>) {
    && from <= |sent|
    && (forall i | from <= i < |sent| - 1 :: sent[i + 1] == sent[i] + 1)
    && (from < |sent| && first.Some? ==> sent[from] == first.value)
    && (from < |sent| || first.Some? ==>
          var next := if from < |sent| then sent[|sent| - 1] + 1 else first.value;
          match TurnNonce(turn)
          case None => NextNonce(cursor) == next
          case Some(own) => if TurnHasSent(turn) then own + 1 == next else own == next == NextNonce(cursor))
  }

  lemma SendInSequence(c: Account, hash: Hash, from: nat, first: Option<nat>)
    requires c.turn.Intended? && InSequence(from, first, c.sent, c.turn, c.cursor)
    ensures var d := SendAccepted(c, hash); InSequence(from, first, d.sent, d.turn, d.cursor)
  {
    hide Sign, Accept;
  }

  lemma OtherInSequence(cfg: Config, a: Address, c: Account, s: SubmitStep, from: nat, first: Option<nat>)
    requires SubmitEnabled(cfg, c, s) && !s.Reseeded? && !s.SendOk? && InSequence(from, first, c.sent, c.turn, c.cursor)
    ensures var d := SubmitNext(cfg, a, c, s); InSequence(from, first, d.sent, d.turn, d.cursor)
  {
    hide KeyFree, Upsert, Sign;
  }

  lemma SubmitInSequence(cfg: Config, a: Address, c: Account, s: SubmitStep, from: nat, first: Option<nat>)
    requires SubmitEnabled(cfg, c, s) && !s.Reseeded? && InSequence(from, first, c.sent, c.turn, c.cursor)
    ensures var d := SubmitNext(cfg, a, c, s); InSequence(from, first, d.sent, d.turn, d.cursor)
  {
    hide InSequence, SendAccepted, KeyFree;
    if s.SendOk? {
      SendInSequence(c, s.hash, from, first);
    } else {
      OtherInSequence(cfg, a, c, s, from, first);
    }
  }

  lemma StepInSequence(cfg: Config, a: Address, c: Account, s: Step, from: nat, first: Option<nat>)
    requires Enabled(cfg, a, c, s) && Undisturbed(s) && InSequence(from, first, c.sent, c.turn, c.cursor)
    ensures var d := Next(cfg, a, c, s); InSequence(from, first, d.sent, d.turn, d.cursor)
  {
    hide SubmitNext, TickNext, BootNext, SubmitEnabled, TickEnabled, BootEnabled, InSequence;
    match s
    case Submitting(t) => SubmitInSequence(cfg, a, c, t, from, first);
    case Ticking(t) => TickLeavesLane(cfg, c, t);
    case Recovering(t) => BootSeedsLane(cfg, a, c, t);
  }

  lemma {:induction false} StaysInSequence(cfg: Config, a: Address, c: Account, steps: seq<Step>, from: nat, first: Option<nat>)
    requires Perform(cfg, a, c, steps).Ok? && (forall i | 0 <= i < |steps| :: Undisturbed(steps[i]))
    requires InSequence(from, first, c.sent, c.turn, c.cursor)
    ensures var d := Perform(cfg, a, c, steps).value; InSequence(from, first, d.sent, d.turn, d.cursor)
    decreases |steps|
  {
    hide Enabled, Next, InSequence, Undisturbed;
    if steps != [] {
      StepInSequence(cfg, a, c, steps[0], from, first);
      StaysInSequence(cfg, a, Next(cfg, a, c, steps[0]), steps[1..], from, first);
    }
  }

  /** Between seeds, drifts and crashes the accepted submits get consecutive nonces, and from an idle
      lane the first of them gets the cursor: a submit that fails leaves no gap. */
  lemma AcceptedNoncesFollow(cfg: Config, a: Address, c: Account, steps: seq<Step>, d: Account)
    requires Perform(cfg, a, c, steps) == Ok(d) && (forall i | 0 <= i < |steps| :: Undisturbed(steps[i]))
    ensures |c.sent| <= |d.sent|
    ensures forall i | |c.sent| <= i < |d.sent| - 1 :: d.sent[i + 1] == d.sent[i] + 1
    ensures c.turn.Idle? && |c.sent| < |d.sent| ==> d.sent[|c.sent|] == NextNonce(c.cursor)
  {
    hide Perform, Undisturbed;
    StaysInSequence(cfg, a, c, steps, |c.sent|, if c.turn.Idle? then Some(NextNonce(c.cursor)) else None);
  }

  // ----- what is signed -----

  /** The step signs the row of k as it is: a first send or a rebroadcast, whatever the node answers. */
  predicate SendsRow(c: Account, s: Step, k: Key) {
    match s
    case Submitting(SendOk(_)) => c.turn.Intended? && c.turn.rec.key == k
    case Submitting(SendBad(_)) => c.turn.Intended? && c.turn.rec.key == k
    case Recovering(RebroadcastOk(n, _, _)) => n in c.tracked && c.tracked[n].key == k
    case Recovering(RebroadcastDrift(n, _)) => n in c.tracked && c.tracked[n].key == k
    case Recovering(RebroadcastBad(n)) => n in c.tracked && c.tracked[n].key == k
    case _ => false
  }

  /** The step signs a replacement of k. */
  predicate Replaces(c: Account, s: Step, k: Key) {
    s.Ticking? && (s.t.ResentOk? || s.t.ResentBad?) && HasNext(c) && c.tick.todo[0].key == k
  }

  /** What a step adds to the payloads of the live row r: a replacement pays one bump of the fees in
      the row as the store holds it, a send or a rebroadcast exactly those fees. */
  function Signed(cfg: Config, c: Account, s: Step, r: TxRecord): seq<SignableTx> {
    if Replaces(c, s, r.key) then
      if Bump(cfg.oracle, r.fees).Ok? then [SignableOf(r).(fees := Bump(cfg.oracle, r.fees).value)] else []
    else if SendsRow(c, s, r.key) then [SignableOf(r)]
    else []
  }

  lemma SubmitSigns(cfg: Config, a: Address, c: Account, s: SubmitStep, k: Key)
    requires Inv(cfg, a, c) && SubmitEnabled(cfg, c, s) && k in c.rows && k in c.lives && c.rows[k].key == k
    ensures var lives := SubmitNext(cfg, a, c, s).lives;
            k in lives && lives[k].signed == c.lives[k].signed + Signed(cfg, c, Submitting(s), c.rows[k])
  {
    hide TablesOk, LaneOk, SentOk, TickOk, RestoreOk, HistoryOk, CapOk, Untracked, KeyFree;
  }

  lemma ResendSigns(cfg: Config, a: Address, c: Account, s: TickStep, k: Key)
    requires Inv(cfg, a, c) && TickEnabled(cfg, c, s) && (s.ResentOk? || s.ResentBad?) && k in c.rows && k in c.lives && c.rows[k].key == k
    ensures var lives := TickNext(cfg, c, s).lives;
            k in lives && lives[k].signed == c.lives[k].signed + Signed(cfg, c, Ticking(s), c.rows[k])
  {
    hide Inv, RowLife, RowOk, TodoOk, Bump;
    NextIsRow(cfg, a, c);
  }

  /** No other step of the tick signs anything. */
  lemma TickSignsNothing(cfg: Config, c: Account, s: TickStep, k: Key)
    requires TickEnabled(cfg, c, s) && !s.ResentOk? && !s.ResentBad? && k in c.lives
    ensures var lives := TickNext(cfg, c, s).lives; k in lives && lives[k].signed == c.lives[k].signed
  {
    hide IsListing, Upsert, CanSettle;
  }

  lemma TickSigns(cfg: Config, a: Address, c: Account, s: TickStep, k: Key)
    requires Inv(cfg, a, c) && TickEnabled(cfg, c, s) && k in c.rows && k in c.lives && c.rows[k].key == k
    ensures var lives := TickNext(cfg, c, s).lives;
            k in lives && lives[k].signed == c.lives[k].signed + Signed(cfg, c, Ticking(s), c.rows[k])
  {
    hide Inv, TickNext, TickEnabled;
    if s.ResentOk? || s.ResentBad? {
      ResendSigns(cfg, a, c, s, k);
    } else {
      TickSignsNothing(cfg, c, s, k);
    }
  }

  predicate IsRebroadcast(s: BootStep) {
    s.RebroadcastOk? || s.RebroadcastDrift? || s.RebroadcastBad?
  }

  lemma RestoredFrom(cfg: Config, a: Address, c: Account, n: nat)
    requires Inv(cfg, a, c) && CanRebroadcast(c, n)
    ensures c.tracked[n].key in c.rows && c.rows[c.tracked[n].key] == c.tracked[n]
  {
    hide TablesOk, LaneOk, SentOk, TurnOk, TickOk, HistoryOk, CapOk, BootOk;
    BootingFromResend(c, n);
    RestoreIsIdle(cfg, a, c);
    TrackedIsRow(cfg, a, c, n);
  }

  lemma RebroadcastSigns(cfg: Config, a: Address, c: Account, s: BootStep, k: Key)
    requires Inv(cfg, a, c) && BootEnabled(cfg, a, c, s) && IsRebroadcast(s) && k in c.rows && k in c.lives && c.rows[k].key == k
    ensures var lives := BootNext(cfg, a, c, s).lives;
            k in lives && lives[k].signed == c.lives[k].signed + Signed(cfg, c, Recovering(s), c.rows[k])
  {
    hide Inv, IsLive;
    RestoredFrom(cfg, a, c, s.n);
  }

  lemma BootSignsNothing(cfg: Config, a: Address, c: Account, s: BootStep, k: Key)
    requires BootEnabled(cfg, a, c, s) && !IsRebroadcast(s) && k in c.lives && k in c.rows
    ensures var lives := BootNext(cfg, a, c, s).lives; k in lives && lives[k].signed == c.lives[k].signed
  {
    hide Upsert, IsPlaceholder;
  }

  lemma BootSigns(cfg: Config, a: Address, c: Account, s: BootStep, k: Key)
    requires Inv(cfg, a, c) && BootEnabled(cfg, a, c, s) && k in c.rows && k in c.lives && c.rows[k].key == k
    ensures var lives := BootNext(cfg, a, c, s).lives;
            k in lives && lives[k].signed == c.lives[k].signed + Signed(cfg, c, Recovering(s), c.rows[k])
  {
    hide Inv, BootNext, BootEnabled;
    if IsRebroadcast(s) {
      RebroadcastSigns(cfg, a, c, s, k);
    } else {
      BootSignsNothing(cfg, a, c, s, k);
    }
  }

  lemma RowHasLife(cfg: Config, a: Address, c: Account, k: Key)
    requires Inv(cfg, a, c) && k in c.rows
    ensures k in c.lives && c.rows[k].key == k
  {
    hide Inv, RowLife;
    TablesGiveRows(cfg, a, c);
    assert RowOk(cfg, a, k, c.rows[k]);
  }

  lemma ReplacementHasPrice(cfg: Config, a: Address, c: Account, s: Step, k: Key)
    requires Inv(cfg, a, c) && Enabled(cfg, a, c, s) && Replaces(c, s, k)
    ensures k in c.rows && Bump(cfg.oracle, c.rows[k].fees).Ok?
  {
    hide Inv, RowLife, RowOk, TodoOk, Bump;
    NextIsRow(cfg, a, c);
  }

  /** In every run, the only payloads signed for a live transaction are those of its persisted row, and
      a replacement pays exactly one bump of the persisted fees. */
  lemma SignsPersistedRow(cfg: Config, a: Address, steps: seq<Step>, c: Account, s: Step, k: Key)
    requires Run(cfg, a, steps) == Ok(c) && Enabled(cfg, a, c, s) && k in c.rows
    ensures k in c.lives && k in Next(cfg, a, c, s).lives
    ensures Next(cfg, a, c, s).lives[k].signed == c.lives[k].signed + Signed(cfg, c, s, c.rows[k])
    ensures Replaces(c, s, k) ==> Bump(cfg.oracle, c.rows[k].fees).Ok?
  {
    hide Run, Inv, Replaces, Signed, SubmitNext, TickNext, BootNext, SubmitEnabled, TickEnabled, BootEnabled;
    RunKeeps(cfg, a, steps);
    RowHasLife(cfg, a, c, k);
    if Replaces(c, s, k) { ReplacementHasPrice(cfg, a, c, s, k); }
    match s
    case Submitting(t) => SubmitSigns(cfg, a, c, t, k);
    case Ticking(t) => TickSigns(cfg, a, c, t, k);
    case Recovering(t) => BootSigns(cfg, a, c, t, k);
  }

  // ----- what becomes of a transaction whose turn is over -----

  /** The terminal row of r is written and its event not out yet. */
  predicate Settles(c: Account, r: TxRecord) {
    (c.tick.Settling? || c.tick.Dropped?) && SameSlot(c.tick.rec, r) && r.key in c.lives && c.lives[r.key].settled
  }

  /** The transaction of r is live, or settled and not reported. */
  predicate Kept(c: Account, r: TxRecord) {
    (r.key in c.rows && SameSlot(c.rows[r.key], r)) || Settles(c, r)
  }

  /** The open turn, if any, is not about key k (or has tracked it). */
  predicate PastTurn(turn: Turn, k: Key) {
    PendingRow(turn).Some? ==> PendingRow(turn).value.key != k
  }

  /** The transaction of k is settled and nothing of it is left: no row, no record, no event to report. */
  predicate IsOver(c: Account, k: Key) {
    k in c.lives && c.lives[k].settled && KeyFree(c, k)
  }

  lemma SubmitIsOther(cfg: Config, a: Address, c: Account, r: TxRecord)
    requires Inv(cfg, a, c) && Kept(c, r) && c.turn.Admitted?
    ensures c.turn.sub.key != r.key
  {
    hide TablesOk, LaneOk, SentOk, RestoreOk, HistoryOk, CapOk, TodoOk, EndPending, UpdatePending;
  }

  lemma StaysPastTurn(cfg: Config, a: Address, c: Account, s: Step, r: TxRecord)
    requires Inv(cfg, a, c) && Enabled(cfg, a, c, s) && Kept(c, r) && PastTurn(c.turn, r.key)
    ensures PastTurn(Next(cfg, a, c, s).turn, r.key)
  {
    hide Inv, Kept, TickNext, TickEnabled, BootNext, BootEnabled, KeyFree, Upsert, Sign, Accept;
    match s
    case Submitting(t) => if c.turn.Admitted? { SubmitIsOther(cfg, a, c, r); }
    case Ticking(t) => TickLeavesLane(cfg, c, t);
    case Recovering(t) => if !t.Crashed? { BootSeedsLane(cfg, a, c, t); } else { CrashIs(cfg, a, c); }
  }

  lemma CrashIs(cfg: Config, a: Address, c: Account)
    ensures BootEnabled(cfg, a, c, Crashed) && BootNext(cfg, a, c, Crashed) == Crash(c)
  {
  }

  /** Only the drop of an intent and the end of a transaction write a terminal row. */
  lemma TerminalWrite(cfg: Config, a: Address, c: Account, s: Step)
    requires Enabled(cfg, a, c, s) && WrittenBy(cfg, a, c, s).Some? && IsTerminal(WrittenBy(cfg, a, c, s).value.status)
    requires Inv(cfg, a, c)
    ensures || (s.Submitting? && s.s.DroppedIntent? && PendingRow(c.turn).Some?
                && WrittenBy(cfg, a, c, s).value.key == PendingRow(c.turn).value.key)
            || (s.Ticking? && s.t.WroteTerminal? && SameSlot(c.tick.todo[0], WrittenBy(cfg, a, c, s).value))
  {
    hide TablesOk, LaneOk, SentOk, TurnOk, TickOk, HistoryOk, CapOk, KeyFree;
    if s.Recovering? && s.b.WroteRebroadcast? { BootingFromResend(c, s.b.n); }
  }

  lemma SettleIsKept(cfg: Config, a: Address, c: Account, s: TickStep, r: TxRecord)
    requires Inv(cfg, a, c) && TickEnabled(cfg, c, s) && s.WroteTerminal? && SameSlot(c.tick.todo[0], r)
    ensures Settles(TickNext(cfg, c, s), r)
  {
    hide Inv, RowLife, RowOk, TodoOk;
    NextIsRow(cfg, a, c);
  }

  lemma RowStaysKept(cfg: Config, a: Address, c: Account, s: Step, r: TxRecord)
    requires Inv(cfg, a, c) && Enabled(cfg, a, c, s) && PastTurn(c.turn, r.key)
    requires r.key in c.rows && SameSlot(c.rows[r.key], r)
    ensures Kept(Next(cfg, a, c, s), r)
  {
    hide Inv, Enabled, Next, WrittenBy, Settles;
    StepRows(cfg, a, c, s);
    var w := WrittenBy(cfg, a, c, s);
    if w.Some? && w.value.key == r.key {
      StepWrites(cfg, a, c, s);
      if IsTerminal(w.value.status) {
        TerminalWrite(cfg, a, c, s);
        TickSettles(cfg, a, c, s, r);
      }
    }
  }

  lemma TickSettles(cfg: Config, a: Address, c: Account, s: Step, r: TxRecord)
    requires Inv(cfg, a, c) && Enabled(cfg, a, c, s) && s.Ticking? && s.t.WroteTerminal? && SameSlot(c.tick.todo[0], r)
    ensures Settles(Next(cfg, a, c, s), r)
  {
    hide Inv, Settles, TickNext, TickEnabled;
    SettleIsKept(cfg, a, c, s.t, r);
  }

  lemma TickStaysSettled(cfg: Config, c: Account, s: TickStep, k: Key)
    requires TickEnabled(cfg, c, s) && k in c.lives && c.lives[k].settled
    ensures var d := TickNext(cfg, c, s); k in d.lives && d.lives[k].settled
  {
    hide Upsert, IsListing, CanSettle;
  }

  lemma SubmitStaysSettled(cfg: Config, a: Address, c: Account, s: SubmitStep, k: Key)
    requires SubmitEnabled(cfg, c, s) && k in c.lives && c.lives[k].settled
    requires c.turn.Admitted? ==> c.turn.sub.key != k
    ensures var d := SubmitNext(cfg, a, c, s); k in d.lives && d.lives[k].settled
  {
    hide Upsert, KeyFree;
  }

  lemma BootStaysSettled(cfg: Config, a: Address, c: Account, s: BootStep, k: Key)
    requires BootEnabled(cfg, a, c, s) && k in c.lives && c.lives[k].settled && !KeyFree(c, k)
    ensures var d := BootNext(cfg, a, c, s); k in d.lives && d.lives[k].settled
  {
    hide Upsert, KeyFree, IsPlaceholder;
  }

  /** A settled transaction stays settled for as long as something of it is left. */
  lemma StaysSettled(cfg: Config, a: Address, c: Account, s: Step, k: Key)
    requires Enabled(cfg, a, c, s) && k in c.lives && c.lives[k].settled
    requires !KeyFree(c, k) && (c.turn.Admitted? ==> c.turn.sub.key != k)
    ensures var d := Next(cfg, a, c, s); k in d.lives && d.lives[k].settled
  {
    hide SubmitNext, TickNext, BootNext, SubmitEnabled, TickEnabled, BootEnabled, KeyFree;
    match s
    case Submitting(t) => SubmitStaysSettled(cfg, a, c, t, k);
    case Ticking(t) => TickStaysSettled(cfg, c, t, k);
    case Recovering(t) => BootStaysSettled(cfg, a, c, t, k);
  }

  lemma InHandIsLeft(cfg: Config, a: Address, c: Account, r: TxRecord)
    requires Inv(cfg, a, c) && Settles(c, r)
    ensures !KeyFree(c, r.key) && c.mode.Up? && r.key !in c.rows && (c.turn.Admitted? ==> c.turn.sub.key != r.key)
  {
    hide TablesOk, LaneOk, SentOk, RestoreOk, HistoryOk, CapOk, TodoOk, NoEnd, UpdatePending;
  }

  lemma SubmitLeavesTick(cfg: Config, a: Address, c: Account, s: SubmitStep)
    requires SubmitEnabled(cfg, c, s)
    ensures SubmitNext(cfg, a, c, s).tick == c.tick
  {
    hide Upsert, KeyFree, Sign, Accept;
  }

  lemma BootLeavesTick(cfg: Config, a: Address, c: Account, s: BootStep)
    requires BootEnabled(cfg, a, c, s) && !s.Crashed?
    ensures BootNext(cfg, a, c, s).tick == c.tick
  {
    hide Upsert, CanReattach, Sign, Accept;
  }

  lemma OthersLeaveTick(cfg: Config, a: Address, c: Account, s: Step)
    requires Enabled(cfg, a, c, s) && !s.Ticking? && s != Recovering(Crashed)
    ensures Next(cfg, a, c, s).tick == c.tick
  {
    hide SubmitNext, BootNext, SubmitEnabled, BootEnabled;
    match s
    case Submitting(t) => SubmitLeavesTick(cfg, a, c, t);
    case Recovering(t) => BootLeavesTick(cfg, a, c, t);
  }

  /** A transaction that was reported leaves nothing behind. */
  lemma ReportReleases(cfg: Config, a: Address, c: Account)
    requires Inv(cfg, a, c) && c.tick.Dropped? && c.tick.rec.key in c.lives && c.lives[c.tick.rec.key].settled
    ensures IsOver(NotifyEnd(c), c.tick.rec.key)
  {
    hide LaneOk, SentOk, TurnOk, TickOk, RestoreOk, HistoryOk, CapOk, RowsOk, NoncesDistinct, TrackedOk, StoreInCache;
    var k := c.tick.rec.key;
    ReportedIsGone(cfg, a, c);
    forall n | n in c.tracked ensures c.tracked[n].key != k {
      assert InStore(c.rows, c.tracked[n], Persisted(c.tracked[n], InStep, map[]));
    }
  }

  lemma ReportedIsGone(cfg: Config, a: Address, c: Account)
    requires Inv(cfg, a, c) && c.tick.Dropped?
    ensures c.resends == map[] && c.tick.rec.key !in c.rows
  {
    hide TablesOk, LaneOk, SentOk, TurnOk, HistoryOk, CapOk, TodoOk, NoEnd;
    NothingResent(c.mode, c.resends, c.rows, c.tracked);
  }

  lemma CrashReleases(c: Account, k: Key)
    requires k in c.lives && c.lives[k].settled && k !in c.rows
    ensures IsOver(Crash(c), k)
  {
  }

  lemma TickInHand(cfg: Config, a: Address, c: Account, s: TickStep, r: TxRecord)
    requires Inv(cfg, a, c) && TickEnabled(cfg, c, s) && Settles(c, r)
    ensures var d := TickNext(cfg, c, s); Settles(d, r) || IsOver(d, r.key)
  {
    hide Inv, IsOver, IsListing, Upsert;
    if s.NotifiedEnd? { ReportReleases(cfg, a, c); }
  }

  /** A settled transaction in the tick's hand is dropped, then reported, unless a crash takes it away. */
  lemma HandStaysKept(cfg: Config, a: Address, c: Account, s: Step, r: TxRecord)
    requires Inv(cfg, a, c) && Enabled(cfg, a, c, s) && Settles(c, r)
    ensures var d := Next(cfg, a, c, s); Settles(d, r) || IsOver(d, r.key)
  {
    hide Inv, SubmitNext, TickNext, BootNext, SubmitEnabled, TickEnabled, BootEnabled, IsOver, KeyFree;
    InHandIsLeft(cfg, a, c, r);
    if s.Ticking? {
      TickInHand(cfg, a, c, s.t, r);
    } else if s == Recovering(Crashed) {
      CrashReleases(c, r.key);
      CrashIs(cfg, a, c);
    } else {
      OthersLeaveTick(cfg, a, c, s);
      StaysSettled(cfg, a, c, s, r.key);
    }
  }

  lemma StepKeepsPast(cfg: Config, a: Address, c: Account, s: Step, r: TxRecord)
    requires Inv(cfg, a, c) && Enabled(cfg, a, c, s) && Kept(c, r) && PastTurn(c.turn, r.key)
    ensures var d := Next(cfg, a, c, s);
            PastTurn(d.turn, r.key) && (Kept(d, r) || IsOver(d, r.key))
  {
    StaysPastTurn(cfg, a, c, s, r);
    hide Inv, Enabled, Next, PastTurn, Settles, IsOver;
    if r.key in c.rows && SameSlot(c.rows[r.key], r) {
      RowStaysKept(cfg, a, c, s, r);
    } else {
      HandStaysKept(cfg, a, c, s, r);
    }
  }

  /** At some moment of the steps the transaction of k was settled and reported, or crashed away. */
  ghost predicate ReleasedDuring(cfg: Config, a: Address, c: Account, steps: seq<Step>, k: Key) {
    exists i | 0 <= i <= |steps| ::
      Perform(cfg, a, c, steps[..i]).Ok? && IsOver(Perform(cfg, a, c, steps[..i]).value, k)
  }

  /** A transaction past its turn is live or about to be reported, with the nonce and the stream it
      had, until the moment it is released. */
  lemma {:induction false} PastTurnLasts(cfg: Config, a: Address, c: Account, steps: seq<Step>, r: TxRecord)
    requires Inv(cfg, a, c) && Perform(cfg, a, c, steps).Ok? && Kept(c, r) && PastTurn(c.turn, r.key)
    ensures var d := Perform(cfg, a, c, steps).value;
            (Kept(d, r) && PastTurn(d.turn, r.key)) || ReleasedDuring(cfg, a, c, steps, r.key)
    decreases |steps|
  {
    hide Inv, Enabled, Next, Kept, PastTurn, IsOver;
    if steps != [] {
      var d := Next(cfg, a, c, steps[0]);
      StepKeeps(cfg, a, c, steps[0]);
      StepKeepsPast(cfg, a, c, steps[0], r);
      if Kept(d, r) {
        PastTurnLasts(cfg, a, d, steps[1..], r);
        if ReleasedDuring(cfg, a, d, steps[1..], r.key) { ReleasedLater(cfg, a, c, steps, r.key); }
      } else {
        assert steps[..1] == [steps[0]];
        PerformNone(cfg, a, c, steps[0]);
        assert IsOver(Perform(cfg, a, c, steps[..1]).value, r.key);
      }
    }
  }

  lemma ReleasedLater(cfg: Config, a: Address, c: Account, steps: seq<Step>, k: Key)
    requires steps != [] && Enabled(cfg, a, c, steps[0]) && ReleasedDuring(cfg, a, Next(cfg, a, c, steps[0]), steps[1..], k)
    ensures ReleasedDuring(cfg, a, c, steps, k)
  {
    hide Enabled, Next, IsOver;
    var d := Next(cfg, a, c, steps[0]);
    var i :| 0 <= i <= |steps[1..]| && Perform(cfg, a, d, steps[1..][..i]).Ok? && IsOver(Perform(cfg, a, d, steps[1..][..i]).value, k);
    assert steps[..i + 1] == [steps[0]] + steps[1..][..i];
    PerformOne(cfg, a, c, steps[0], steps[1..][..i]);
    assert IsOver(Perform(cfg, a, c, steps[..i + 1]).value, k);
  }

  // ----- the lane and the record being reported -----

  /** The settled record that the tick is about to report is below the lane too. */
  predicate ReportBelow(turn: Turn, tick: Tick, cursor: Option<nat>) {
    tick.Dropped? ==>
      match TurnNonce(turn)
      case None => tick.rec.nonce < NextNonce(cursor)
      case Some(own) => tick.rec.nonce < own || (tick.rec.nonce == own && turn.Landed?)
  }

  lemma SubmitReportBelow(cfg: Config, a: Address, c: Account, s: SubmitStep)
    requires LaneOk(c.mode, c.turn, c.cursor, c.tracked) && SubmitEnabled(cfg, c, s) && ReportBelow(c.turn, c.tick, c.cursor)
    ensures var d := SubmitNext(cfg, a, c, s); ReportBelow(d.turn, d.tick, d.cursor)
  {
    hide KeyFree, Upsert, Sign, Accept;
  }

  lemma DropReportBelow(cfg: Config, a: Address, c: Account)
    requires Inv(cfg, a, c) && TickEnabled(cfg, c, DroppedTx)
    ensures var d := TickNext(cfg, c, DroppedTx); ReportBelow(d.turn, d.tick, d.cursor)
  {
    hide TablesOk, SentOk, TurnOk, RestoreOk, HistoryOk, CapOk, TodoOk, EndPending;
  }

  lemma TickReportBelow(cfg: Config, a: Address, c: Account, s: TickStep)
    requires Inv(cfg, a, c) && TickEnabled(cfg, c, s) && ReportBelow(c.turn, c.tick, c.cursor)
    ensures var d := TickNext(cfg, c, s); ReportBelow(d.turn, d.tick, d.cursor)
  {
    hide Inv, TickNext, TickEnabled, ReportBelow;
    if s.DroppedTx? {
      DropReportBelow(cfg, a, c);
    } else {
      OnlyDropDrops(cfg, c, s);
    }
  }

  lemma OnlyDropDrops(cfg: Config, c: Account, s: TickStep)
    requires TickEnabled(cfg, c, s) && !s.DroppedTx?
    ensures var d := TickNext(cfg, c, s); ReportBelow(d.turn, d.tick, d.cursor)
  {
    hide IsListing, Upsert, Sign, Accept, Emit, MarkSettled, CanSettle, CanReplace;
  }

  lemma StepReportBelow(cfg: Config, a: Address, c: Account, s: Step)
    requires Inv(cfg, a, c) && Enabled(cfg, a, c, s) && ReportBelow(c.turn, c.tick, c.cursor)
    ensures var d := Next(cfg, a, c, s); ReportBelow(d.turn, d.tick, d.cursor)
  {
    assert LaneOk(c.mode, c.turn, c.cursor, c.tracked) by { hide TablesOk, SentOk, TurnOk, TickOk, RestoreOk, HistoryOk, CapOk, LaneOk; }
    hide Inv, SubmitNext, TickNext, BootNext, SubmitEnabled, TickEnabled, BootEnabled, LaneOk;
    match s
    case Submitting(t) => SubmitReportBelow(cfg, a, c, t);
    case Ticking(t) => TickReportBelow(cfg, a, c, t);
    case Recovering(t) =>
      if t.Crashed? {
        CrashIs(cfg, a, c);
      } else {
        OthersLeaveTick(cfg, a, c, s);
        BootSeedsLane(cfg, a, c, t);
      }
  }

  /** In every state of every run. */
  lemma {:induction false} RunReportBelow(cfg: Config, a: Address, steps: seq<Step>, c: Account)
    requires Run(cfg, a, steps) == Ok(c)
    ensures ReportBelow(c.turn, c.tick, c.cursor)
    decreases |steps|
  {
    hide Inv, Enabled, Next;
    if steps != [] {
      var before := steps[..|steps| - 1];
      var b := Run(cfg, a, before).value;
      RunReportBelow(cfg, a, before, b);
      RunKeeps(cfg, a, before);
      StepReportBelow(cfg, a, b, steps[|steps| - 1]);
    }
  }
}
