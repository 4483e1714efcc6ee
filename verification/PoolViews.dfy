/** What the steps of an account mean to the pool: the effect on its view and the row written. */
module PoolViews {
  import opened Records
  import opened FeeOracles
  import opened AccountProtocol
  import opened AccountInvariant
  import opened AccountWrites
  import opened AccountSteps
  import opened PoolProtocol

  lemma SubmitView(cfg: Config, a: Address, c: Account, s: SubmitStep)
    requires Inv(cfg, a, c) && SubmitEnabled(cfg, c, s)
    ensures ViewOf(SubmitNext(cfg, a, c, s)) == ViewNext(ViewOf(c), EffectOf(c, Submitting(s)))
  {
    hide Inv, KeyFree, ViewOf;
    if s.TrackedLive? {
      LandView(cfg, a, c);
    } else {
      TurnView(c, SubmitNext(cfg, a, c, s));
    }
  }

  lemma LandView(cfg: Config, a: Address, c: Account)
    requires Inv(cfg, a, c) && c.turn.Stored?
    ensures ViewOf(Land(c)) == ViewNext(ViewOf(c), ELand(c.turn.rec.nonce))
  {
    hide TablesOk, LaneOk, SentOk, TickOk, RestoreOk, HistoryOk, CapOk, OwnRow, Untracked;
    var live := c.turn.rec;
    assert Slots(c.mode, c.tracked[live.nonce := live]) == Slots(c.mode, c.tracked)[live.nonce := SlotOf(live)];
  }

  /** Only the turn moves. */
  lemma TurnView(c: Account, d: Account)
    requires d.mode == c.mode && d.tracked == c.tracked && d.tick == c.tick
    ensures ViewOf(d) == ViewOf(c).(turn := TurnSlot(d.turn), landed := d.turn.Landed?)
    ensures ViewOf(c).turn == TurnSlot(c.turn) && ViewOf(c).landed == c.turn.Landed?
  {
  }

  lemma SameSlots(mode: Mode, tracked: map<nat, TxRecord>, r: TxRecord)
    requires r.nonce in tracked && SlotOf(tracked[r.nonce]) == SlotOf(r)
    ensures Slots(mode, tracked[r.nonce := r]) == Slots(mode, tracked)
  {
  }

  lemma DropView(cfg: Config, a: Address, c: Account)
    requires Inv(cfg, a, c) && c.tick.Settling?
    ensures ViewOf(Drop(c)) == ViewNext(ViewOf(c), EDrop(c.tick.rec.nonce))
  {
    hide TablesOk, LaneOk, SentOk, TurnOk, RestoreOk, HistoryOk, CapOk, TodoOk, EndPending;
    var rec := c.tick.rec;
    assert Slots(c.mode, c.tracked - {rec.nonce}) == Slots(c.mode, c.tracked) - {rec.nonce};
    assert Slots(c.mode, c.tracked)[rec.nonce] == SlotOf(rec);
  }

  lemma CacheUpdateView(cfg: Config, a: Address, c: Account)
    requires Inv(cfg, a, c) && c.tick.Saved?
    ensures ViewOf(CacheUpdate(c)) == ViewOf(c)
  {
    hide TablesOk, LaneOk, SentOk, TurnOk, RestoreOk, HistoryOk, CapOk, TodoOk, UpdatePending, Slots;
    SameSlots(c.mode, c.tracked, c.tick.rec);
  }

  /** A step that moves neither the cache, the mode, the turn nor a report. */
  predicate Quiet(c: Account, d: Account) {
    && d.mode == c.mode && d.tracked == c.tracked && d.turn == c.turn
    && (d.tick == c.tick || (!d.tick.Dropped? && !c.tick.Dropped?))
  }

  lemma QuietView(c: Account, d: Account)
    requires Quiet(c, d)
    ensures ViewOf(d) == ViewOf(c)
  {
  }

  lemma QuietTick(cfg: Config, c: Account, s: TickStep)
    requires TickEnabled(cfg, c, s) && !s.DroppedTx? && !s.CachedUpdate? && !s.NotifiedEnd?
    ensures Quiet(c, TickNext(cfg, c, s)) && EffectOf(c, Ticking(s)) == NoEffect
  {
    hide IsListing, Upsert;
  }

  lemma LoudTick(cfg: Config, a: Address, c: Account, s: TickStep)
    requires Inv(cfg, a, c) && TickEnabled(cfg, c, s) && (s.DroppedTx? || s.CachedUpdate? || s.NotifiedEnd?)
    ensures ViewOf(TickNext(cfg, c, s)) == ViewNext(ViewOf(c), EffectOf(c, Ticking(s)))
  {
    hide Inv, Slots;
    if s.DroppedTx? { DropView(cfg, a, c); }
    if s.CachedUpdate? { CacheUpdateView(cfg, a, c); }
  }

  lemma TickView(cfg: Config, a: Address, c: Account, s: TickStep)
    requires Inv(cfg, a, c) && TickEnabled(cfg, c, s)
    ensures ViewOf(TickNext(cfg, c, s)) == ViewNext(ViewOf(c), EffectOf(c, Ticking(s)))
  {
    hide Inv, ViewOf, TickNext, EffectOf, Quiet, TickEnabled;
    if s.DroppedTx? || s.CachedUpdate? || s.NotifiedEnd? {
      LoudTick(cfg, a, c, s);
    } else {
      QuietTick(cfg, c, s);
      QuietView(c, TickNext(cfg, c, s));
    }
  }

  lemma RestoredTxView(cfg: Config, a: Address, c: Account, k: Key)
    requires Inv(cfg, a, c) && CanRestoreTrack(c, k)
    ensures ViewOf(RestoreTrack(c, k)) == ViewOf(c)
  {
    hide Inv, TablesOk;
    TodoRow(cfg, a, c, k);
    var d := RestoreTrack(c, k);
    assert Slots(d.mode, d.tracked) == Slots(c.mode, c.tracked);
  }

  lemma RestoredSeedView(c: Account)
    requires CanRestoreSeed(c)
    ensures ViewOf(RestoreSeed(c)) == ViewOf(c)
  {
    var d := RestoreSeed(c);
    assert Slots(d.mode, d.tracked) == Slots(c.mode, c.tracked);
  }

  lemma RestoredBindingView(cfg: Config, a: Address, c: Account)
    requires Inv(cfg, a, c) && CanRestoreBound(c)
    ensures ViewOf(RestoreBound(c)) == ViewNext(ViewOf(c), EBind(c.mode.current.rec.nonce, SlotOf(c.mode.current.rec)))
  {
    hide LaneOk, SentOk, TurnOk, HistoryOk, CapOk, TickOk, TablesOk, ResendsOk;
    var d := RestoreBound(c);
    var rec := c.mode.current.rec;
    assert Slots(d.mode, c.tracked) == Slots(c.mode, c.tracked)[rec.nonce := SlotOf(rec)];
  }

  lemma ModeView(c: Account, mode: Mode)
    requires (mode.Booting? ==> mode.current.NoRow?) && (c.mode.Booting? ==> c.mode.current.NoRow?)
    ensures ViewOf(c.(mode := mode)) == ViewOf(c)
  {
    assert Slots(mode, c.tracked) == Slots(c.mode, c.tracked);
  }

  lemma CachedRebroadcastView(cfg: Config, a: Address, c: Account, n: nat)
    requires Inv(cfg, a, c) && CanCacheRebroadcast(c, n)
    ensures ViewOf(CacheRebroadcast(c, n)) == ViewOf(c)
  {
    hide TablesOk, LaneOk, SentOk, TurnOk, TickOk, HistoryOk, CapOk, BootOk, Slots;
    RestoreIsIdle(cfg, a, c);
    BootingFromResend(c, n);
    TrackedIsRow(cfg, a, c, n);
    SameSlots(c.mode, c.tracked, c.resends[n].rec);
  }

  lemma ReattachedView(c: Account, r: TxRecord)
    requires c.mode.Up?
    ensures ViewOf(Reattach(c, r)) == ViewNext(ViewOf(c), EBind(r.nonce, SlotOf(r)))
  {
    assert Slots(c.mode, c.tracked[r.nonce := r]) == Slots(c.mode, c.tracked)[r.nonce := SlotOf(r)];
  }

  predicate IsQuietBoot(s: BootStep) {
    || s.RebroadcastOk? || s.RebroadcastDrift? || s.RebroadcastBad? || s.WroteRebroadcast? || s.LostRebroadcast?
    || s.SeededNonce?
  }

  lemma QuietBoot(cfg: Config, a: Address, c: Account, s: BootStep)
    requires BootEnabled(cfg, a, c, s) && IsQuietBoot(s)
    ensures Quiet(c, BootNext(cfg, a, c, s)) && EffectOf(c, Recovering(s)) == NoEffect
  {
    hide Upsert, Sign, Accept;
  }

  lemma LoudBoot(cfg: Config, a: Address, c: Account, s: BootStep)
    requires Inv(cfg, a, c) && BootEnabled(cfg, a, c, s) && !IsQuietBoot(s) && !s.Crashed?
    ensures ViewOf(BootNext(cfg, a, c, s)) == ViewNext(ViewOf(c), EffectOf(c, Recovering(s)))
  {
    hide Inv, ViewOf;
    match s
    case RestoredTx(k) => RestoredTxView(cfg, a, c, k);
    case RestoredSeed => RestoredSeedView(c);
    case RestoredBinding => RestoredBindingView(cfg, a, c);
    case CachedRebroadcast(n) => CachedRebroadcastView(cfg, a, c, n);
    case Booted => ModeView(c, Booting(c.rows, NoRow));
    case FinishedBoot => ModeView(c, Up);
    case Reattached(r) => ReattachedView(c, r);
    case _ =>
  }

  lemma BootView(cfg: Config, a: Address, c: Account, s: BootStep)
    requires Inv(cfg, a, c) && BootEnabled(cfg, a, c, s) && !s.Crashed?
    ensures ViewOf(BootNext(cfg, a, c, s)) == ViewNext(ViewOf(c), EffectOf(c, Recovering(s)))
  {
    hide Inv, ViewOf, BootNext, EffectOf, Quiet, BootEnabled;
    if IsQuietBoot(s) {
      QuietBoot(cfg, a, c, s);
      QuietView(c, BootNext(cfg, a, c, s));
    } else {
      LoudBoot(cfg, a, c, s);
    }
  }

  lemma StepView(cfg: Config, a: Address, c: Account, s: Step)
    requires Inv(cfg, a, c) && Enabled(cfg, a, c, s) && s != Recovering(Crashed)
    ensures ViewOf(Next(cfg, a, c, s)) == ViewNext(ViewOf(c), EffectOf(c, s))
  {
    hide Inv, ViewOf, ViewNext, EffectOf;
    match s
    case Submitting(t) => SubmitView(cfg, a, c, t);
    case Ticking(t) => TickView(cfg, a, c, t);
    case Recovering(t) => BootView(cfg, a, c, t);
  }

  // ----- rows written -----

  lemma SubmitRows(cfg: Config, a: Address, c: Account, s: SubmitStep)
    requires SubmitEnabled(cfg, c, s)
    ensures SubmitNext(cfg, a, c, s).rows == UpsertSome(c.rows, WrittenBy(cfg, a, c, Submitting(s)))
  {
    hide Upsert, KeyFree;
  }

  lemma TickRows(cfg: Config, a: Address, c: Account, s: TickStep)
    requires TickEnabled(cfg, c, s)
    ensures TickNext(cfg, c, s).rows == UpsertSome(c.rows, WrittenBy(cfg, a, c, Ticking(s)))
  {
    hide Upsert, IsListing;
  }

  lemma BootRows(cfg: Config, a: Address, c: Account, s: BootStep)
    requires BootEnabled(cfg, a, c, s)
    ensures BootNext(cfg, a, c, s).rows == UpsertSome(c.rows, WrittenBy(cfg, a, c, Recovering(s)))
  {
    hide Upsert, KeyFree;
  }

  /** The rows of an account change by at most the one write of the step. */
  lemma StepRows(cfg: Config, a: Address, c: Account, s: Step)
    requires Enabled(cfg, a, c, s)
    ensures Next(cfg, a, c, s).rows == UpsertSome(c.rows, WrittenBy(cfg, a, c, s))
  {
    hide UpsertSome, WrittenBy;
    match s
    case Submitting(t) => SubmitRows(cfg, a, c, t);
    case Ticking(t) => TickRows(cfg, a, c, t);
    case Recovering(t) => BootRows(cfg, a, c, t);
  }

  predicate StartsLife(s: Step) {
    (s.Submitting? && s.s.WroteAhead?) || (s.Recovering? && s.b.Reattached?)
  }

  /** A step writes a row of its own account: a new one only when a life starts, else the next
      state of the row that is there, with the same nonce and stream. */
  predicate WriteOk(cfg: Config, a: Address, c: Account, s: Step, r: TxRecord) {
    && r.account == a && r.ownerId == cfg.ownerId && r.chainId == cfg.chainId
    && (if StartsLife(s) then r.key !in c.rows else r.key in c.rows && SameSlot(c.rows[r.key], r))
  }

  lemma SubmitWrites(cfg: Config, a: Address, c: Account, s: SubmitStep)
    requires Inv(cfg, a, c) && SubmitEnabled(cfg, c, s) && WrittenBy(cfg, a, c, Submitting(s)).Some?
    ensures WriteOk(cfg, a, c, Submitting(s), WrittenBy(cfg, a, c, Submitting(s)).value)
  {
    hide LaneOk, SentOk, TickOk, RestoreOk, HistoryOk, CapOk, Untracked;
    TablesGiveRows(cfg, a, c);
    hide TablesOk;
  }

  lemma TickWrites(cfg: Config, a: Address, c: Account, s: TickStep)
    requires Inv(cfg, a, c) && TickEnabled(cfg, c, s) && WrittenBy(cfg, a, c, Ticking(s)).Some?
    ensures WriteOk(cfg, a, c, Ticking(s), WrittenBy(cfg, a, c, Ticking(s)).value)
  {
    if s.WroteReplaced? {
      ResentIsRow(cfg, a, c);
    } else {
      NextIsRow(cfg, a, c);
    }
    hide Inv, RowLife, TodoOk;
  }

  lemma BootWrites(cfg: Config, a: Address, c: Account, s: BootStep)
    requires Inv(cfg, a, c) && BootEnabled(cfg, a, c, s) && WrittenBy(cfg, a, c, Recovering(s)).Some?
    ensures WriteOk(cfg, a, c, Recovering(s), WrittenBy(cfg, a, c, Recovering(s)).value)
  {
    if s.WroteRebroadcast? {
      var n := s.n;
      BootingFromResend(c, n);
      RestoreIsIdle(cfg, a, c);
      TrackedIsRow(cfg, a, c, n);
      TablesGiveRows(cfg, a, c);
      assert RowOk(cfg, a, c.tracked[n].key, c.tracked[n]);
    }
    hide Inv;
  }

  lemma StepWrites(cfg: Config, a: Address, c: Account, s: Step)
    requires Inv(cfg, a, c) && Enabled(cfg, a, c, s) && WrittenBy(cfg, a, c, s).Some?
    ensures WriteOk(cfg, a, c, s, WrittenBy(cfg, a, c, s).value)
  {
    hide Inv, WriteOk;
    match s
    case Submitting(t) => SubmitWrites(cfg, a, c, t);
    case Ticking(t) => TickWrites(cfg, a, c, t);
    case Recovering(t) => BootWrites(cfg, a, c, t);
  }
}
