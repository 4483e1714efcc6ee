/** Every step of a managed account keeps the invariant: one lemma a step. */
module AccountSteps {
  import opened Records
  import opened FeeOracles
  import opened AccountProtocol
  import opened AccountInvariant
  import opened AccountWrites

  lemma OpenTurnKeeps(cfg: Config, a: Address, c: Account, sub: Submission)
    requires Inv(cfg, a, c) && CanOpenTurn(c, sub)
    ensures Inv(cfg, a, OpenTurn(c, sub))
  {
    hide TablesOk, TickOk, RestoreOk, HistoryOk, CapOk;
  }

  lemma RefuseAtCapKeeps(cfg: Config, a: Address, c: Account)
    requires Inv(cfg, a, c) && CanRefuseAtCap(cfg, c)
    ensures Inv(cfg, a, CloseFailed(c))
  {
    hide TablesOk, TickOk, RestoreOk, HistoryOk, CapOk;
  }

  lemma AdmitKeeps(cfg: Config, a: Address, c: Account)
    requires Inv(cfg, a, c) && CanAdmit(cfg, c)
    ensures Inv(cfg, a, Admit(c))
  {
    hide TablesOk, TickOk, RestoreOk, HistoryOk;
  }

  lemma GiveUpKeeps(cfg: Config, a: Address, c: Account)
    requires Inv(cfg, a, c) && c.turn.Admitted?
    ensures Inv(cfg, a, CloseFailed(c))
  {
    hide TablesOk, TickOk, RestoreOk, HistoryOk;
  }

  lemma WriteAheadKeeps(cfg: Config, a: Address, c: Account, fees: Fees, gas: int, now: int)
    requires Inv(cfg, a, c) && c.turn.Admitted?
    ensures Inv(cfg, a, WriteAhead(cfg, a, c, fees, gas, now))
  {
    hide TablesOk, TickOk, RestoreOk, HistoryOk, CapOk;
    hide Increasing;
    var r := NewRecord(cfg, a, c.turn.sub, c.turn.nonce, fees, gas, now);
    var next := WriteAhead(cfg, a, c, fees, gas, now);
    NothingResent(c.mode, c.resends, c.rows, c.tracked);
    TurnWrite(cfg, a, c.mode, c.rows, c.tracked, None, StoreAhead(c.tick), r);
    FreshKey(cfg, c, r.key);
    TickFrame(cfg, true, c.tick, c.tracked, c.rows, c.lives, c.tracked, next.rows, next.lives);
    RestoreIdle(c.mode, next.rows, c.tracked);
    NewLife(cfg, c.rows, c.lives, r);
    WriteAheadCap(cfg, a, c, r);
  }

  /** A key that is neither in the store nor in the cache is not in the tick's hand either. */
  lemma FreshKey(cfg: Config, c: Account, k: Key)
    requires TickOk(cfg, c.mode.Up?, c.tick, c.tracked, c.rows, c.lives)
    requires Untracked(c.tracked, Reporting(c.tick), k)
    ensures !c.tick.Asleep? && !c.tick.Scanning? ==> c.tick.rec.key != k
  {
    hide TodoOk, UpdatePending, EndPending;
  }

  /** A write-ahead starts the life of its key. */
  lemma NewLife(cfg: Config, rows: map<Key, TxRecord>, lives: map<Key, Life>, r: TxRecord)
    requires HistoryOk(cfg, rows, lives) && r.status.Pending? && r.attempts == 1 && !r.minedEmitted
    ensures HistoryOk(cfg, Upsert(rows, r), lives[r.key := Life(SignableOf(r), false, false, [], [])])
  {
    hide MaySign;
    var next := lives[r.key := Life(SignableOf(r), false, false, [], [])];
    assert RowLife(cfg, r, next[r.key]) && EventsOk(cfg, []) && PayloadsOk(cfg, SignableOf(r), []);
    hide RowLife, EventsOk, PayloadsOk;
  }

  lemma WriteAheadCap(cfg: Config, a: Address, c: Account, r: TxRecord)
    requires Inv(cfg, a, c) && c.turn.Admitted? && r.nonce == c.turn.nonce && !IsTerminal(r.status)
    ensures CapOk(cfg, c.reattached, |c.tracked|, 1, Upsert(c.rows, r))
  {
    hide RowsOk, NoncesDistinct, TrackedOk, CacheInStore, LaneOk, SentOk, TickOk, RestoreOk, HistoryOk;
    RowNoncesTracked(c.mode, c.rows, c.tracked);
    assert RowNonces(Upsert(c.rows, r)) <= c.tracked.Keys + {r.nonce};
    SubsetCard(RowNonces(Upsert(c.rows, r)), c.tracked.Keys + {r.nonce});
  }

  lemma SendAcceptedKeeps(cfg: Config, a: Address, c: Account, hash: Hash)
    requires Inv(cfg, a, c) && c.turn.Intended?
    ensures Inv(cfg, a, SendAccepted(c, hash))
  {
    hide TablesOk, TickOk, RestoreOk, HistoryOk, CapOk;
    hide RowLivesOk, MaySign, SameOutcome, RowsOk;
    var rec := c.turn.rec;
    TablesGiveRows(cfg, a, c);
    MaySignRow(cfg, a, c.rows, c.lives, rec.key);
    SignKeeps(cfg, c.rows, c.lives, rec.key, SignableOf(rec));
    var signed := Sign(c.lives, rec.key, SignableOf(rec));
    AcceptKeeps(cfg, c.rows, signed, rec.key);
    TickKeepsOutcome(cfg, true, c.tick, c.tracked, c.rows, c.lives, signed);
    TickKeepsOutcome(cfg, true, c.tick, c.tracked, c.rows, signed, Accept(signed, rec.key));
  }

  lemma TablesGiveRows(cfg: Config, a: Address, c: Account)
    requires Inv(cfg, a, c)
    ensures RowsOk(cfg, a, c.rows) && RowLivesOk(cfg, c.rows, c.lives)
    ensures forall n | n in c.tracked :: c.tracked[n].nonce == n && RowOk(cfg, a, c.tracked[n].key, c.tracked[n])
  {
    hide RowsOk, NoncesDistinct, CacheInStore, StoreInCache, LaneOk, SentOk, TurnOk, TickOk, RestoreOk, LivesOk, NothingLost, CapOk;
  }

  lemma SendRefusedKeeps(cfg: Config, a: Address, c: Account, drift: bool)
    requires Inv(cfg, a, c) && c.turn.Intended?
    ensures Inv(cfg, a, SendRefused(c, drift))
  {
    hide TablesOk, TickOk, RestoreOk, HistoryOk, CapOk;
    hide RowLivesOk, MaySign, SameOutcome, RowsOk, Increasing;
    var rec := c.turn.rec;
    TablesGiveRows(cfg, a, c);
    MaySignRow(cfg, a, c.rows, c.lives, rec.key);
    SignKeeps(cfg, c.rows, c.lives, rec.key, SignableOf(rec));
    TickKeepsOutcome(cfg, true, c.tick, c.tracked, c.rows, c.lives, Sign(c.lives, rec.key, SignableOf(rec)));
  }

  lemma DropIntentKeeps(cfg: Config, a: Address, c: Account, error: ErrorText, now: int)
    requires Inv(cfg, a, c) && c.turn.Refused?
    ensures Inv(cfg, a, DropIntent(c, error, now))
  {
    hide TablesOk, TickOk, RestoreOk, HistoryOk;
    hide Increasing, RowsOk, NoncesDistinct, RowLivesOk, RowNonces;
    var rec := c.turn.rec;
    NothingResent(c.mode, c.resends, c.rows, c.tracked);
    TablesGiveRows(cfg, a, c);
    OwnRowOk(cfg, a, c.rows, rec.key);
    TurnRemove(cfg, a, c.mode, c.rows, c.tracked, rec, StoreAhead(c.tick));
    TablesGiveDistinct(cfg, a, c);
    RowRemoval(cfg, a, c.rows, rec.key);
    FreshKey(cfg, c, rec.key);
    TickFrame(cfg, true, c.tick, c.tracked, c.rows, c.lives, c.tracked, c.rows - {rec.key}, c.lives);
    RestoreIdle(c.mode, c.rows - {rec.key}, c.tracked);
    RemoveUnaccepted(cfg, c.rows, c.lives, rec.key);
  }

  lemma OwnRowOk(cfg: Config, a: Address, rows: map<Key, TxRecord>, k: Key)
    requires RowsOk(cfg, a, rows) && k in rows
    ensures RowOk(cfg, a, k, rows[k])
  {
  }

  lemma TablesGiveDistinct(cfg: Config, a: Address, c: Account)
    requires Inv(cfg, a, c)
    ensures RowsOk(cfg, a, c.rows) && NoncesDistinct(c.rows)
  {
    hide RowsOk, NoncesDistinct, TrackedOk, CacheInStore, StoreInCache, LaneOk, SentOk, TurnOk, TickOk, RestoreOk, HistoryOk, CapOk;
  }

  /** Only a row that the node never accepted may simply be dropped. */
  lemma RemoveUnaccepted(cfg: Config, rows: map<Key, TxRecord>, lives: map<Key, Life>, k: Key)
    requires HistoryOk(cfg, rows, lives) && (k in lives ==> !lives[k].accepted)
    ensures HistoryOk(cfg, rows - {k}, lives)
  {
    hide RowLife, LivesOk;
  }

  lemma ReseedKeeps(cfg: Config, a: Address, c: Account, chainNonce: nat)
    requires Inv(cfg, a, c) && c.turn.Reseeding?
    ensures Inv(cfg, a, Reseed(c, chainNonce))
  {
    hide TablesOk, TickOk, RestoreOk, HistoryOk, CapOk;
  }

  lemma WriteLiveKeeps(cfg: Config, a: Address, c: Account, now: int)
    requires Inv(cfg, a, c) && c.turn.Accepted?
    ensures Inv(cfg, a, WriteLive(c, now))
  {
    hide TablesOk, TickOk, RestoreOk, HistoryOk;
    hide Increasing, RowsOk, NoncesDistinct, RowLivesOk, RowNonces, RowLife;
    var live := LiveRecord(c.turn.rec, c.turn.hash, now);
    NothingResent(c.mode, c.resends, c.rows, c.tracked);
    TablesGiveRows(cfg, a, c);
    OwnRowOk(cfg, a, c.rows, live.key);
    TurnWrite(cfg, a, c.mode, c.rows, c.tracked, Some(c.turn.rec), StoreAhead(c.tick), live);
    TablesGiveDistinct(cfg, a, c);
    RowUpdate(cfg, a, c.rows, live);
    FreshKey(cfg, c, live.key);
    TickFrame(cfg, true, c.tick, c.tracked, c.rows, c.lives, c.tracked, Upsert(c.rows, live), c.lives);
    RestoreIdle(c.mode, Upsert(c.rows, live), c.tracked);
    LiveKeepsLife(cfg, c.rows, c.lives, c.turn.rec, live);
  }

  lemma LiveKeepsLife(cfg: Config, rows: map<Key, TxRecord>, lives: map<Key, Life>, r: TxRecord, live: TxRecord)
    requires HistoryOk(cfg, rows, lives) && r.key in rows && rows[r.key] == r
    requires IsLive(r, live)
    ensures HistoryOk(cfg, Upsert(rows, live), lives)
  {
    assert RowLife(cfg, live, lives[r.key]) by {
      assert RowLife(cfg, r, lives[r.key]);
      hide LivesOk, NothingLost;
    }
    hide RowLife, RowLivesOk, LivesOk, NothingLost;
    UpdateKeepsHistory(cfg, rows, lives, live);
  }

  lemma LandKeeps(cfg: Config, a: Address, c: Account)
    requires Inv(cfg, a, c) && c.turn.Stored?
    ensures Inv(cfg, a, Land(c))
  {
    hide TablesOk, TickOk, RestoreOk, HistoryOk;
    hide Increasing, RowNonces;
    var live := c.turn.rec;
    NothingResent(c.mode, c.resends, c.rows, c.tracked);
    FreshKey(cfg, c, live.key);
    HandIsTracked(cfg, c);
    TrackRow(cfg, a, c.mode, c.rows, c.tracked, Some(live), StoreAhead(c.tick), c.resends, live);
    TickFrame(cfg, true, c.tick, c.tracked, c.rows, c.lives, Land(c).tracked, c.rows, c.lives);
    RestoreIdle(c.mode, c.rows, Land(c).tracked);
  }

  /** A record the store is ahead of is tracked. */
  lemma HandIsTracked(cfg: Config, c: Account)
    requires TickOk(cfg, c.mode.Up?, c.tick, c.tracked, c.rows, c.lives)
    ensures !StoreAhead(c.tick).InStep? ==> StoreAhead(c.tick).rec.nonce in c.tracked
  {
    hide TodoOk, UpdatePending, EndPending;
  }

  lemma CloseTurnKeeps(cfg: Config, a: Address, c: Account)
    requires Inv(cfg, a, c) && c.turn.Landed?
    ensures Inv(cfg, a, CloseTurn(c))
  {
    hide TablesOk, TickOk, RestoreOk, HistoryOk, CapOk;
  }

  lemma TickBeginKeeps(cfg: Config, a: Address, c: Account, list: seq<TxRecord>)
    requires Inv(cfg, a, c) && CanTickBegin(c, list)
    ensures Inv(cfg, a, TickBegin(c, list))
  {
    hide TablesOk, LaneOk, SentOk, TurnOk, RestoreOk, HistoryOk, CapOk;
  }

  lemma SkipKeeps(cfg: Config, a: Address, c: Account)
    requires Inv(cfg, a, c) && HasNext(c)
    ensures Inv(cfg, a, Skip(c))
  {
    hide TablesOk, LaneOk, SentOk, TurnOk, RestoreOk, HistoryOk, CapOk;
  }

  lemma SettleKeeps(cfg: Config, a: Address, c: Account, status: Status, error: Option<ErrorText>, now: int)
    requires Inv(cfg, a, c) && CanSettle(cfg, c, status)
    ensures Inv(cfg, a, Settle(c, status, error, now))
  {
    hide TablesOk, LaneOk, SentOk, TurnOk, TickOk, RestoreOk, HistoryOk;
    hide RowsOk, NoncesDistinct, RowNonces, TodoOk, RowLife, RowOk, NoEnd;
    var rec := c.tick.todo[0];
    NextIsRow(cfg, a, c);
    TurnNotNext(cfg, a, c);
    NothingResent(c.mode, c.resends, c.rows, c.tracked);
    TickRemove(cfg, a, c.mode, c.rows, c.tracked, PendingRow(c.turn), rec);
    TablesGiveDistinct(cfg, a, c);
    RowRemoval(cfg, a, c.rows, rec.key);
    SettleKeepsHistory(cfg, c.rows, c.lives, rec.key);
    var next := Settle(c, status, error, now);
    TurnFrame(true, c.turn, c.rows, c.lives, c.tracked, None, next.rows, next.lives, c.tracked, None);
    RestoreIdle(c.mode, next.rows, c.tracked);
    SettleTick(cfg, a, c, status, error, now);
  }

  /** The row of an open turn is not the one the tick comes to next. */
  lemma TurnNotNext(cfg: Config, a: Address, c: Account)
    requires Inv(cfg, a, c) && HasNext(c)
    ensures c.mode.Up? && TurnKey(c.turn) != Some(c.tick.todo[0].key)
    ensures TurnKey(c.turn).Some? ==> Untracked(c.tracked, None, TurnKey(c.turn).value)
    ensures Holds(c.tracked, c.tick.todo[0])
  {
    hide TablesOk, LaneOk, SentOk, RestoreOk, HistoryOk, CapOk;
    assert Holds(c.tracked, c.tick.todo[0]);
  }

  lemma SettleTick(cfg: Config, a: Address, c: Account, status: Status, error: Option<ErrorText>, now: int)
    requires Inv(cfg, a, c) && CanSettle(cfg, c, status)
    ensures var d := Settle(c, status, error, now); TickOk(cfg, true, d.tick, d.tracked, d.rows, d.lives)
  {
    hide TablesOk, LaneOk, SentOk, RestoreOk, TurnOk, LivesOk, NothingLost, CapOk, Count, NoEnd, TodoOk;
    NextIsRow(cfg, a, c);
  }

  lemma DropKeeps(cfg: Config, a: Address, c: Account)
    requires Inv(cfg, a, c) && c.tick.Settling?
    ensures Inv(cfg, a, Drop(c))
  {
    hide TablesOk, LaneOk, SentOk, TurnOk, TickOk, RestoreOk, HistoryOk;
    hide RowNonces, TodoOk;
    var rec := c.tick.rec;
    var next := Drop(c);
    DropTick(cfg, a, c);
    NothingResent(c.mode, c.resends, c.rows, c.tracked);
    Untrack(cfg, a, c.mode, c.rows, c.tracked, PendingRow(c.turn), rec);
    LaneShrinks(c.mode, c.turn, c.cursor, c.tracked, rec.nonce);
    TurnFrame(true, c.turn, c.rows, c.lives, c.tracked, None, c.rows, c.lives, next.tracked, Some(rec.key));
    RestoreIdle(c.mode, c.rows, next.tracked);
  }

  lemma LaneShrinks(mode: Mode, turn: Turn, cursor: Option<nat>, tracked: map<nat, TxRecord>, n: nat)
    requires LaneOk(mode, turn, cursor, tracked)
    ensures LaneOk(mode, turn, cursor, tracked - {n})
  {
  }

  lemma DropTick(cfg: Config, a: Address, c: Account)
    requires Inv(cfg, a, c) && c.tick.Settling?
    ensures var d := Drop(c); TickOk(cfg, true, d.tick, d.tracked, d.rows, d.lives)
    ensures c.mode.Up? && Holds(c.tracked, c.tick.rec) && c.tick.rec.key !in c.rows
    ensures TurnKey(c.turn).Some? ==> Untracked(c.tracked - {c.tick.rec.nonce}, Some(c.tick.rec.key), TurnKey(c.turn).value)
  {
    hide TablesOk, LaneOk, SentOk, RestoreOk, HistoryOk, CapOk, NoEnd, Count;
  }

  lemma NotifyEndKeeps(cfg: Config, a: Address, c: Account)
    requires Inv(cfg, a, c) && c.tick.Dropped?
    ensures Inv(cfg, a, NotifyEnd(c))
  {
    hide TablesOk, LaneOk, SentOk, TurnOk, TickOk, RestoreOk, HistoryOk, CapOk;
    hide NoEnd, Count, EndPending;
    var rec := c.tick.rec;
    var next := NotifyEnd(c);
    assert TickOk(cfg, true, next.tick, next.tracked, next.rows, next.lives) by { NotifyEndTick(cfg, c); }
    NotifyEndTick(cfg, c);
    EmitEndKeeps(cfg, c.rows, c.lives, rec.key, c.tick.event);
    TurnOffReport(c, rec.key, next.lives);
  }

  lemma NotifyEndTick(cfg: Config, c: Account)
    requires TickOk(cfg, c.mode.Up?, c.tick, c.tracked, c.rows, c.lives) && c.tick.Dropped?
    ensures c.mode.Up? && EndPending(c.rows, c.lives, c.tick.rec.key, c.tick.event)
    ensures TickOk(cfg, true, Scanning(c.tick.todo), c.tracked, c.rows, NotifyEnd(c).lives)
  {
    hide NoEnd, TodoOk;
  }

  /** An open turn does not depend on the transaction being reported. */
  lemma TurnOffReport(c: Account, k: Key, lives: map<Key, Life>)
    requires TurnOk(true, c.turn, c.rows, c.lives, c.tracked, Some(k))
    requires forall l | l in c.lives && l != k :: l in lives && lives[l] == c.lives[l]
    ensures TurnOk(true, c.turn, c.rows, lives, c.tracked, None)
  {
  }

  lemma MarkMinedKeeps(cfg: Config, a: Address, c: Account, now: int)
    requires Inv(cfg, a, c) && CanMarkMined(c)
    ensures Inv(cfg, a, MarkMined(c, now))
  {
    hide TablesOk, LaneOk, SentOk, TurnOk, TickOk, RestoreOk, HistoryOk;
    hide RowsOk, NoncesDistinct, RowNonces, TodoOk, RowLife, NoEnd, Count;
    var mined := MinedRecord(c.tick.todo[0], now);
    NextIsRow(cfg, a, c);
    TurnNotNext(cfg, a, c);
    NothingResent(c.mode, c.resends, c.rows, c.tracked);
    TickWrite(cfg, a, c.mode, c.rows, c.tracked, PendingRow(c.turn), mined);
    TablesGiveDistinct(cfg, a, c);
    RowUpdate(cfg, a, c.rows, mined);
    TurnFrame(true, c.turn, c.rows, c.lives, c.tracked, None, Upsert(c.rows, mined), c.lives, c.tracked, None);
    RestoreIdle(c.mode, Upsert(c.rows, mined), c.tracked);
    MinedLife(cfg, c.tick.todo[0], c.lives[mined.key], now);
    SavedTick(cfg, c, mined, EvMined, c.tick.todo[1..], Upsert(c.rows, mined));
    UpdateKeepsHistory(cfg, c.rows, c.lives, mined);
  }

  lemma SavedTick(cfg: Config, c: Account, r: TxRecord, e: Event, todo: seq<TxRecord>, rows: map<Key, TxRecord>)
    requires TodoOk(c.tracked, todo, Some(r.nonce)) && r.nonce in c.tracked && SameSlot(c.tracked[r.nonce], r)
    requires r.key in c.lives && UpdatePending(r, e, c.lives[r.key].events)
    ensures TickOk(cfg, true, Saved(r, e, todo), c.tracked, rows, c.lives)
  {
  }

  lemma MinedLife(cfg: Config, r: TxRecord, l: Life, now: int)
    requires RowLife(cfg, r, l) && !r.minedEmitted
    ensures RowLife(cfg, MinedRecord(r, now), l) && UpdatePending(MinedRecord(r, now), EvMined, l.events)
  {
  }

  lemma ResendAcceptedKeeps(cfg: Config, a: Address, c: Account, hash: Hash)
    requires Inv(cfg, a, c) && CanReplace(cfg, c)
    ensures Inv(cfg, a, ResendAccepted(cfg, c, hash))
  {
    hide TablesOk, LaneOk, SentOk, TurnOk, TickOk, RestoreOk, HistoryOk, CapOk;
    hide RowLivesOk, MaySign, SameOutcome, RowsOk, RowLife, RowOk, TodoOk;
    var rec := c.tick.todo[0];
    var payload := ReplacePayload(cfg, rec);
    NextIsRow(cfg, a, c);
    TurnNotNext(cfg, a, c);
    TablesGiveRows(cfg, a, c);
    MaySignReplacement(cfg, a, c.rows, c.lives, rec.key);
    SignKeeps(cfg, c.rows, c.lives, rec.key, payload);
    var next := ResendAccepted(cfg, c, hash);
    AcceptKeeps(cfg, c.rows, Sign(c.lives, rec.key, payload), rec.key);
    TurnFrame(true, c.turn, c.rows, c.lives, c.tracked, None, c.rows, next.lives, c.tracked, None);
    ResentTick(cfg, c, rec, payload.fees, hash, next.lives);
  }

  lemma ResentTick(cfg: Config, c: Account, r: TxRecord, fees: Fees, hash: Hash, lives: map<Key, Life>)
    requires HasNext(c) && Holds(c.tracked, r) && r.attempts < cfg.maxAttempts && Bump(cfg.oracle, r.fees) == Ok(fees)
    requires TodoOk(c.tracked, c.tick.todo[1..], Some(r.nonce))
    ensures TickOk(cfg, true, Resent(r, fees, hash, c.tick.todo[1..]), c.tracked, c.rows, lives)
    ensures TickOk(cfg, true, Scanning(c.tick.todo[1..]), c.tracked, c.rows, lives)
  {
  }

  lemma ResendRefusedKeeps(cfg: Config, a: Address, c: Account)
    requires Inv(cfg, a, c) && CanReplace(cfg, c)
    ensures Inv(cfg, a, ResendRefused(cfg, c))
  {
    hide TablesOk, LaneOk, SentOk, TurnOk, TickOk, RestoreOk, HistoryOk, CapOk;
    hide RowLivesOk, MaySign, SameOutcome, RowsOk, RowLife, RowOk, TodoOk;
    var rec := c.tick.todo[0];
    NextIsRow(cfg, a, c);
    TurnNotNext(cfg, a, c);
    TablesGiveRows(cfg, a, c);
    MaySignReplacement(cfg, a, c.rows, c.lives, rec.key);
    SignKeeps(cfg, c.rows, c.lives, rec.key, ReplacePayload(cfg, rec));
    var next := ResendRefused(cfg, c);
    TurnFrame(true, c.turn, c.rows, c.lives, c.tracked, None, c.rows, next.lives, c.tracked, None);
    ResentTick(cfg, c, rec, ReplacePayload(cfg, rec).fees, ZERO_HASH, next.lives);
  }

  lemma SaveReplacedKeeps(cfg: Config, a: Address, c: Account, now: int)
    requires Inv(cfg, a, c) && c.tick.Resent?
    ensures Inv(cfg, a, SaveReplaced(c, now))
  {
    hide TablesOk, LaneOk, SentOk, TurnOk, TickOk, RestoreOk, HistoryOk;
    hide RowsOk, NoncesDistinct, RowNonces, TodoOk, RowLife, NoEnd, Count, Bump;
    var rec := c.tick.rec;
    var updated := ReplacedRecord(rec, c.tick.fees, c.tick.hash, now);
    ResentIsRow(cfg, a, c);
    NothingResent(c.mode, c.resends, c.rows, c.tracked);
    TickWrite(cfg, a, c.mode, c.rows, c.tracked, PendingRow(c.turn), updated);
    TablesGiveDistinct(cfg, a, c);
    RowUpdate(cfg, a, c.rows, updated);
    TurnFrame(true, c.turn, c.rows, c.lives, c.tracked, None, Upsert(c.rows, updated), c.lives, c.tracked, None);
    RestoreIdle(c.mode, Upsert(c.rows, updated), c.tracked);
    ReplacedLife(cfg, rec, c.lives[rec.key], c.tick.fees, c.tick.hash, now);
    SavedTick(cfg, c, updated, EvReplaced, c.tick.todo, Upsert(c.rows, updated));
    UpdateKeepsHistory(cfg, c.rows, c.lives, updated);
  }

  lemma ReplacedLife(cfg: Config, r: TxRecord, l: Life, fees: Fees, hash: Hash, now: int)
    requires RowLife(cfg, r, l) && Bump(cfg.oracle, r.fees) == Ok(fees)
    ensures RowLife(cfg, ReplacedRecord(r, fees, hash, now), l)
    ensures UpdatePending(ReplacedRecord(r, fees, hash, now), EvReplaced, l.events)
  {
  }

  /** A record that was just sent again is still the row in the store. */
  lemma ResentIsRow(cfg: Config, a: Address, c: Account)
    requires Inv(cfg, a, c) && c.tick.Resent?
    ensures var r := c.tick.rec;
            && c.mode.Up? && Holds(c.tracked, r) && r.key in c.rows && c.rows[r.key] == r && r.key in c.lives
            && RowOk(cfg, a, r.key, r) && RowLife(cfg, r, c.lives[r.key])
            && r.attempts < cfg.maxAttempts && Bump(cfg.oracle, r.fees) == Ok(c.tick.fees)
            && TodoOk(c.tracked, c.tick.todo, Some(r.nonce))
            && TurnKey(c.turn) != Some(r.key)
            && (TurnKey(c.turn).Some? ==> Untracked(c.tracked, None, TurnKey(c.turn).value))
  {
    hide NoncesDistinct, StoreInCache, LaneOk, SentOk, LivesOk, NothingLost, CapOk, RowLife, Bump, TodoOk;
    NothingResent(c.mode, c.resends, c.rows, c.tracked);
    hide RestoreOk;
    var r := c.tick.rec;
    assert InStore(c.rows, r, Persisted(r, InStep, map[]));
  }

  lemma LoseReplacedKeeps(cfg: Config, a: Address, c: Account)
    requires Inv(cfg, a, c) && c.tick.Resent?
    ensures Inv(cfg, a, LoseReplaced(c))
  {
    hide TablesOk, LaneOk, SentOk, TurnOk, RestoreOk, HistoryOk, CapOk;
  }

  lemma CacheUpdateKeeps(cfg: Config, a: Address, c: Account)
    requires Inv(cfg, a, c) && c.tick.Saved?
    ensures Inv(cfg, a, CacheUpdate(c))
  {
    hide TablesOk, LaneOk, SentOk, TurnOk, TickOk, RestoreOk, HistoryOk;
    hide RowNonces, TodoOk, NoEnd, Count, UpdatePending;
    var rec := c.tick.rec;
    var next := CacheUpdate(c);
    CacheUpdateTick(cfg, a, c);
    NothingResent(c.mode, c.resends, c.rows, c.tracked);
    CatchUp(cfg, a, c.mode, c.rows, c.tracked, PendingRow(c.turn), Updating(rec), map[], rec);
    assert map[] - {rec.nonce} == c.resends;
    assert next.tracked.Keys == c.tracked.Keys;
    LaneSameNonces(c.mode, c.turn, c.cursor, c.tracked, next.tracked);
    TurnFrame(true, c.turn, c.rows, c.lives, c.tracked, None, c.rows, c.lives, next.tracked, None);
    RestoreIdle(c.mode, c.rows, next.tracked);
  }

  lemma LaneSameNonces(mode: Mode, turn: Turn, cursor: Option<nat>, tracked: map<nat, TxRecord>, next: map<nat, TxRecord>)
    requires LaneOk(mode, turn, cursor, tracked) && next.Keys == tracked.Keys
    ensures LaneOk(mode, turn, cursor, next)
  {
  }

  lemma CacheUpdateTick(cfg: Config, a: Address, c: Account)
    requires Inv(cfg, a, c) && c.tick.Saved?
    ensures var d := CacheUpdate(c); TickOk(cfg, true, d.tick, d.tracked, d.rows, d.lives)
    ensures c.mode.Up? && c.tick.rec.nonce in c.tracked && SameSlot(c.tracked[c.tick.rec.nonce], c.tick.rec)
    ensures c.tracked[c.tick.rec.nonce].nonce == c.tick.rec.nonce
    ensures TurnKey(c.turn).Some? ==> Untracked(CacheUpdate(c).tracked, None, TurnKey(c.turn).value)
  {
    hide TablesOk, LaneOk, SentOk, RestoreOk, HistoryOk, CapOk, UpdatePending;
  }

  lemma NotifyUpdateKeeps(cfg: Config, a: Address, c: Account)
    requires Inv(cfg, a, c) && c.tick.Cached?
    ensures Inv(cfg, a, NotifyUpdate(c))
  {
    hide TablesOk, LaneOk, SentOk, TurnOk, TickOk, RestoreOk, HistoryOk, CapOk;
    hide NoEnd, Count, UpdatePending, RowsOk;
    var rec := c.tick.rec;
    var next := NotifyUpdate(c);
    NotifyUpdateTick(cfg, a, c);
    TablesGiveRows(cfg, a, c);
    EmitUpdateKeeps(cfg, a, c.rows, c.lives, rec.key, c.tick.event);
    TurnFrame(true, c.turn, c.rows, c.lives, c.tracked, None, c.rows, next.lives, c.tracked, None);
  }

  lemma NotifyUpdateTick(cfg: Config, a: Address, c: Account)
    requires Inv(cfg, a, c) && c.tick.Cached?
    ensures TickOk(cfg, true, Scanning(c.tick.todo), c.tracked, c.rows, NotifyUpdate(c).lives)
    ensures c.mode.Up? && c.tick.rec.key in c.rows && c.rows[c.tick.rec.key] == c.tick.rec
    ensures c.tick.rec.key in c.lives && UpdatePending(c.tick.rec, c.tick.event, c.lives[c.tick.rec.key].events)
    ensures TurnKey(c.turn).Some? ==> Untracked(c.tracked, None, TurnKey(c.turn).value)
    ensures TurnKey(c.turn) != Some(c.tick.rec.key)
  {
    hide NoncesDistinct, StoreInCache, LaneOk, SentOk, HistoryOk, CapOk, UpdatePending;
    NothingResent(c.mode, c.resends, c.rows, c.tracked);
    hide RestoreOk;
    assert InStore(c.rows, c.tick.rec, Persisted(c.tick.rec, InStep, map[]));
  }

  lemma TickEndKeeps(cfg: Config, a: Address, c: Account)
    requires Inv(cfg, a, c) && CanTickEnd(c)
    ensures Inv(cfg, a, TickEnd(c))
  {
    hide TablesOk, LaneOk, SentOk, TurnOk, RestoreOk, HistoryOk, CapOk;
  }

  lemma CrashKeeps(cfg: Config, a: Address, c: Account)
    requires Inv(cfg, a, c)
    ensures Inv(cfg, a, Crash(c))
  {
    hide TablesOk, LaneOk, SentOk, TurnOk, TickOk, RestoreOk, HistoryOk;
    CrashTables(cfg, a, c);
    NothingOpen(cfg, c.rows, c.lives);
    hide RowNonces;
  }

  /** An account with no actors meets what is asked of actors. */
  lemma NothingOpen(cfg: Config, rows: map<Key, TxRecord>, lives: map<Key, Life>)
    ensures LaneOk(Down, Idle, None, map[]) && SentOk([], Idle, None)
    ensures TurnOk(false, Idle, rows, lives, map[], None) && TickOk(cfg, false, Asleep, map[], rows, lives)
    ensures RestoreOk(Down, map[], rows, map[])
  {
  }

  lemma CrashTables(cfg: Config, a: Address, c: Account)
    requires Inv(cfg, a, c)
    ensures TablesOk(cfg, a, Down, c.rows, map[], None, InStep, map[])
  {
    hide RowsOk, NoncesDistinct, LaneOk, SentOk, TurnOk, TickOk, RestoreOk, HistoryOk, CapOk;
  }

  lemma BootKeeps(cfg: Config, a: Address, c: Account)
    requires Inv(cfg, a, c) && c.mode.Down?
    ensures Inv(cfg, a, Boot(c))
  {
    hide SentOk, TurnOk, TickOk, HistoryOk, CapOk;
  }

  lemma RestoreTrackKeeps(cfg: Config, a: Address, c: Account, k: Key)
    requires Inv(cfg, a, c) && CanRestoreTrack(c, k)
    ensures Inv(cfg, a, RestoreTrack(c, k))
  {
    hide TablesOk, SentOk, TurnOk, TickOk, RestoreOk, HistoryOk, CapOk;
    hide RowNonces;
    var rec := c.mode.todo[k];
    var next := RestoreTrack(c, k);
    RestoreIsIdle(cfg, a, c);
    RestoreTrackRestore(cfg, a, c, k);
    TodoRow(cfg, a, c, k);
    SameMode(cfg, a, c, next.mode);
    TrackRow(cfg, a, next.mode, c.rows, c.tracked, None, InStep, c.resends, rec);
    TurnIdleOk(cfg, next, next.mode);
    RestoreTrackCap(cfg, a, c, k);
  }

  lemma RestoreIsIdle(cfg: Config, a: Address, c: Account)
    requires Inv(cfg, a, c) && c.mode.Booting?
    ensures c.turn.Idle? && c.tick.Asleep?
  {
    hide TablesOk, LaneOk, SentOk, RestoreOk, HistoryOk, CapOk, TodoOk, UpdatePending, EndPending, OwnRow, Untracked;
  }

  /** While restoring, a tracked record has its row in the store. */
  lemma BootRow(cfg: Config, a: Address, c: Account, n: nat)
    requires Inv(cfg, a, c) && c.mode.Booting? && n in c.tracked
    ensures var r := c.tracked[n];
            r.nonce == n && r.key in c.rows && c.rows[r.key].nonce == n && c.rows[r.key].orderingKey == r.orderingKey
  {
    RestoreIsIdle(cfg, a, c);
    hide RowsOk, NoncesDistinct, StoreInCache, LaneOk, SentOk, TurnOk, TickOk, RestoreOk, HistoryOk, CapOk;
    assert InStore(c.rows, c.tracked[n], Persisted(c.tracked[n], InStep, c.resends));
  }

  /** A row still to be restored: it is in the store and nothing of it is in the cache. */
  lemma TodoRow(cfg: Config, a: Address, c: Account, k: Key)
    requires Inv(cfg, a, c) && CanRestoreTrack(c, k)
    ensures var r := c.mode.todo[k]; r.key == k && k in c.rows && c.rows[k] == r && r.nonce !in c.tracked && r.nonce !in c.resends
    ensures TablesOk(cfg, a, c.mode, c.rows, c.tracked, None, InStep, c.resends)
  {
    hide StoreInCache, LaneOk, SentOk, TurnOk, HistoryOk, CapOk;
    RestoreIsIdle(cfg, a, c);
    hide TickOk;
    var r := c.mode.todo[k];
    assert RowOk(cfg, a, k, c.rows[k]);
    if r.nonce in c.tracked {
      BootRow(cfg, a, c, r.nonce);
      assert false;
    }
  }

  /** Located rows stay located when only the row in hand changes. */
  lemma SameMode(cfg: Config, a: Address, c: Account, mode: Mode)
    requires c.mode.Booting? && mode.Booting? && mode.todo == c.mode.todo
    requires TablesOk(cfg, a, c.mode, c.rows, c.tracked, None, InStep, c.resends)
    ensures TablesOk(cfg, a, mode, c.rows, c.tracked, None, InStep, c.resends)
  {
    hide RowsOk, NoncesDistinct, TrackedOk, CacheInStore;
  }

  lemma RestoreTrackRestore(cfg: Config, a: Address, c: Account, k: Key)
    requires Inv(cfg, a, c) && CanRestoreTrack(c, k)
    ensures var d := RestoreTrack(c, k); RestoreOk(d.mode, d.resends, d.rows, d.tracked)
  {
    hide TablesOk, LaneOk, SentOk, TurnOk, TickOk, HistoryOk, CapOk, IsLive, ResendsOk, BootOk;
    TodoRow(cfg, a, c, k);
    TrackingResends(c, k);
    TrackingBoot(c, k);
  }

  lemma TrackingResends(c: Account, k: Key)
    requires ResendsOk(c.mode, c.resends, c.tracked) && CanRestoreTrack(c, k) && c.mode.todo[k].nonce !in c.tracked
    ensures var d := RestoreTrack(c, k); ResendsOk(d.mode, d.resends, d.tracked)
  {
    hide IsLive;
  }

  lemma TrackingBoot(c: Account, k: Key)
    requires BootOk(c.mode, c.rows, c.tracked) && CanRestoreTrack(c, k)
    requires c.mode.todo[k].key == k && c.mode.todo[k].nonce !in c.tracked
    ensures var d := RestoreTrack(c, k); BootOk(d.mode, d.rows, d.tracked)
  {
  }

  lemma RestoreTrackCap(cfg: Config, a: Address, c: Account, k: Key)
    requires Inv(cfg, a, c) && CanRestoreTrack(c, k)
    ensures var d := RestoreTrack(c, k); CapOk(cfg, d.reattached, |d.tracked|, 0, d.rows)
  {
    var d := RestoreTrack(c, k);
    TodoRow(cfg, a, c, k);
    hide LaneOk, SentOk, TurnOk, TickOk, HistoryOk, StoreInCache, NoncesDistinct, RestoreOk;
    TrackedAreRows(c.rows, c.tracked, c.resends);
    assert c.mode.todo[k].nonce in RowNonces(c.rows);
    SubsetCard(d.tracked.Keys, RowNonces(d.rows));
    assert |d.tracked| == |d.tracked.Keys|;
  }

  lemma RestoreSeedKeeps(cfg: Config, a: Address, c: Account)
    requires Inv(cfg, a, c) && CanRestoreSeed(c)
    ensures Inv(cfg, a, RestoreSeed(c))
  {
    hide TurnOk, TickOk, HistoryOk, CapOk;
  }

  lemma RestoreBoundKeeps(cfg: Config, a: Address, c: Account)
    requires Inv(cfg, a, c) && CanRestoreBound(c)
    ensures Inv(cfg, a, RestoreBound(c))
  {
    hide TablesOk, SentOk, TurnOk, TickOk, RestoreOk, HistoryOk, CapOk;
    var next := RestoreBound(c);
    RestoreIsIdle(cfg, a, c);
    RestoreBoundRestore(cfg, a, c);
    RestoreBoundTables(cfg, a, c);
    TurnIdleOk(cfg, c, next.mode);
  }

  lemma TurnIdleOk(cfg: Config, c: Account, mode: Mode)
    requires c.turn.Idle? && c.tick.Asleep?
    ensures TurnOk(mode.Up?, c.turn, c.rows, c.lives, c.tracked, Reporting(c.tick))
    ensures TickOk(cfg, mode.Up?, c.tick, c.tracked, c.rows, c.lives)
  {
  }

  lemma RestoreBoundRestore(cfg: Config, a: Address, c: Account)
    requires Inv(cfg, a, c) && CanRestoreBound(c)
    ensures var d := RestoreBound(c); RestoreOk(d.mode, d.resends, d.rows, d.tracked)
  {
    hide TablesOk, LaneOk, SentOk, TurnOk, TickOk, HistoryOk, CapOk, IsLive;
  }

  lemma RestoreBoundTables(cfg: Config, a: Address, c: Account)
    requires Inv(cfg, a, c) && CanRestoreBound(c)
    ensures var d := RestoreBound(c); TablesOk(cfg, a, d.mode, d.rows, d.tracked, None, InStep, d.resends)
  {
    RestoreIsIdle(cfg, a, c);
    hide LaneOk, SentOk, TurnOk, TickOk, HistoryOk, CapOk, RowsOk, NoncesDistinct, CacheInStore, StoreInCache, TrackedOk;
    SeededNotResent(c);
    SeededLeaves(c.mode, c.rows, c.tracked, RestoreBound(c).mode);
    if c.mode.current.rec.status.Pending? {
      NewResendInStore(c.rows, c.tracked, c.resends, c.mode.current.rec.nonce);
    }
  }

  lemma SeededNotResent(c: Account)
    requires RestoreOk(c.mode, c.resends, c.rows, c.tracked) && CanRestoreBound(c)
    ensures Holds(c.tracked, c.mode.current.rec) && c.mode.current.rec.nonce !in c.resends
  {
    hide IsLive;
  }

  lemma NewResendInStore(rows: map<Key, TxRecord>, tracked: map<nat, TxRecord>, resends: map<nat, Resend>, n: nat)
    requires CacheInStore(rows, tracked, InStep, resends) && n !in resends
    ensures CacheInStore(rows, tracked, InStep, resends[n := Sending])
  {
    forall m | m in tracked ensures InStore(rows, tracked[m], Persisted(tracked[m], InStep, resends[n := Sending])) {
      assert InStore(rows, tracked[m], Persisted(tracked[m], InStep, resends));
      hide CacheInStore, InStore;
    }
  }

  lemma SeededLeaves(mode: Mode, rows: map<Key, TxRecord>, tracked: map<nat, TxRecord>, next: Mode)
    requires StoreInCache(mode, rows, tracked, None) && BootOk(mode, rows, tracked)
    requires mode.Booting? && mode.current.Seeded? && next == Booting(mode.todo - {mode.current.rec.key}, NoRow)
    ensures StoreInCache(next, rows, tracked, None)
  {
    forall k | k in rows ensures Located(next, tracked, None, k, rows[k]) {
      assert Located(mode, tracked, None, k, rows[k]);
    }
  }

  lemma RebroadcastAcceptedKeeps(cfg: Config, a: Address, c: Account, n: nat, hash: Hash, now: int)
    requires Inv(cfg, a, c) && CanRebroadcast(c, n)
    ensures Inv(cfg, a, RebroadcastAccepted(c, n, hash, now))
  {
    hide TablesOk, LaneOk, SentOk, TurnOk, TickOk, RestoreOk, HistoryOk, CapOk;
    BootingFromResend(c, n);
    hide RowLivesOk, MaySign, SameOutcome, RowsOk;
    var rec := c.tracked[n];
    RestoreIsIdle(cfg, a, c);
    TrackedIsRow(cfg, a, c, n);
    TablesGiveRows(cfg, a, c);
    MaySignRow(cfg, a, c.rows, c.lives, rec.key);
    SignKeeps(cfg, c.rows, c.lives, rec.key, SignableOf(rec));
    AcceptKeeps(cfg, c.rows, Sign(c.lives, rec.key, SignableOf(rec)), rec.key);
    var next := RebroadcastAccepted(c, n, hash, now);
    ResendProgress(cfg, a, c, n, next.resends);
    TurnIdleOk(cfg, next, next.mode);
  }

  lemma BootingFromResend(c: Account, n: nat)
    requires RestoreOk(c.mode, c.resends, c.rows, c.tracked) && n in c.resends
    ensures c.mode.Booting? && n in c.tracked && c.tracked[n].key !in c.mode.todo
    ensures !c.resends[n].Sending? ==> IsLive(c.tracked[n], c.resends[n].rec)
  {
  }

  /** A record whose rebroadcast has written nothing yet is the row in the store. */
  lemma TrackedIsRow(cfg: Config, a: Address, c: Account, n: nat)
    requires Inv(cfg, a, c) && n in c.resends && n in c.tracked && c.turn.Idle? && c.tick.Asleep?
    ensures c.tracked[n].nonce == n && c.tracked[n].key in c.rows
    ensures c.rows[c.tracked[n].key] == (if c.resends[n].Caching? then c.resends[n].rec else c.tracked[n])
  {
    hide RowsOk, NoncesDistinct, StoreInCache, LaneOk, SentOk, TurnOk, TickOk, RestoreOk, HistoryOk, CapOk;
    assert InStore(c.rows, c.tracked[n], Persisted(c.tracked[n], InStep, c.resends));
  }

  /** A rebroadcast moves on without having written. */
  lemma ResendProgress(cfg: Config, a: Address, c: Account, n: nat, resends: map<nat, Resend>)
    requires Inv(cfg, a, c) && n in c.resends && n in c.tracked && !c.resends[n].Caching?
    requires resends == c.resends - {n}
             || (n in resends && resends == c.resends[n := resends[n]] && resends[n].Saving? && IsLive(c.tracked[n], resends[n].rec))
    ensures TablesOk(cfg, a, c.mode, c.rows, c.tracked, PendingRow(c.turn), StoreAhead(c.tick), resends)
    ensures RestoreOk(c.mode, resends, c.rows, c.tracked)
  {
    hide LaneOk, SentOk, TurnOk, TickOk, HistoryOk, CapOk, RowsOk, NoncesDistinct, StoreInCache, BootOk, IsLive, InStore;
    BootingFromResend(c, n);
    RestoreIsIdle(cfg, a, c);
    assert c.tracked[n].nonce == n;
    hide TrackedOk;
    assert CacheInStore(c.rows, c.tracked, InStep, resends) by {
      forall m | m in c.tracked ensures InStore(c.rows, c.tracked[m], Persisted(c.tracked[m], InStep, resends)) {
        assert InStore(c.rows, c.tracked[m], Persisted(c.tracked[m], InStep, c.resends));
      }
    }
    hide CacheInStore;
  }

  lemma RebroadcastDriftedKeeps(cfg: Config, a: Address, c: Account, n: nat, now: int)
    requires Inv(cfg, a, c) && CanRebroadcast(c, n)
    ensures Inv(cfg, a, RebroadcastDrifted(c, n, now))
  {
    hide TablesOk, LaneOk, SentOk, TurnOk, TickOk, RestoreOk, HistoryOk, CapOk;
    BootingFromResend(c, n);
    hide RowLivesOk, MaySign, SameOutcome, RowsOk;
    var rec := c.tracked[n];
    RestoreIsIdle(cfg, a, c);
    TrackedIsRow(cfg, a, c, n);
    TablesGiveRows(cfg, a, c);
    MaySignRow(cfg, a, c.rows, c.lives, rec.key);
    SignKeeps(cfg, c.rows, c.lives, rec.key, SignableOf(rec));
    var next := RebroadcastDrifted(c, n, now);
    ResendProgress(cfg, a, c, n, next.resends);
    TurnIdleOk(cfg, next, next.mode);
  }

  lemma RebroadcastRefusedKeeps(cfg: Config, a: Address, c: Account, n: nat)
    requires Inv(cfg, a, c) && CanRebroadcast(c, n)
    ensures Inv(cfg, a, RebroadcastRefused(c, n))
  {
    hide TablesOk, LaneOk, SentOk, TurnOk, TickOk, RestoreOk, HistoryOk, CapOk;
    BootingFromResend(c, n);
    hide RowLivesOk, MaySign, SameOutcome, RowsOk;
    var rec := c.tracked[n];
    RestoreIsIdle(cfg, a, c);
    TrackedIsRow(cfg, a, c, n);
    TablesGiveRows(cfg, a, c);
    MaySignRow(cfg, a, c.rows, c.lives, rec.key);
    SignKeeps(cfg, c.rows, c.lives, rec.key, SignableOf(rec));
    var next := RebroadcastRefused(c, n);
    ResendProgress(cfg, a, c, n, next.resends);
    TurnIdleOk(cfg, next, next.mode);
  }

  lemma SaveRebroadcastKeeps(cfg: Config, a: Address, c: Account, n: nat)
    requires Inv(cfg, a, c) && CanSaveRebroadcast(c, n)
    ensures Inv(cfg, a, SaveRebroadcast(c, n))
  {
    hide TablesOk, LaneOk, SentOk, TurnOk, TickOk, RestoreOk, HistoryOk;
    hide RowLife, RowsOk, NoncesDistinct, RowLivesOk, RowNonces;
    var live := c.resends[n].rec;
    var next := SaveRebroadcast(c, n);
    BootingFromResend(c, n);
    RestoreIsIdle(cfg, a, c);
    TrackedIsRow(cfg, a, c, n);
    TablesGiveRows(cfg, a, c);
    TablesGiveDistinct(cfg, a, c);
    RowUpdate(cfg, a, c.rows, live);
    LiveKeepsLife(cfg, c.rows, c.lives, c.tracked[n], live);
    SaveRebroadcastTables(cfg, a, c, n);
    TurnIdleOk(cfg, next, next.mode);
  }

  lemma SaveRebroadcastTables(cfg: Config, a: Address, c: Account, n: nat)
    requires Inv(cfg, a, c) && CanSaveRebroadcast(c, n) && c.turn.Idle? && c.tick.Asleep?
    ensures var d := SaveRebroadcast(c, n);
            && TablesOk(cfg, a, d.mode, d.rows, d.tracked, None, InStep, d.resends)
            && RestoreOk(d.mode, d.resends, d.rows, d.tracked)
  {
    hide LaneOk, SentOk, TurnOk, TickOk, HistoryOk, CapOk, RowsOk, NoncesDistinct, StoreInCache, CacheInStore,
         ResendsOk, BootOk, TrackedOk;
    var live := c.resends[n].rec;
    BootingFromResend(c, n);
    TrackedIsRow(cfg, a, c, n);
    TablesGiveDistinct(cfg, a, c);
    TablesGiveRows(cfg, a, c);
    RowUpdate(cfg, a, c.rows, live);
    RebroadcastCache(c.rows, c.tracked, c.resends, n);
    RebroadcastStore(c.mode, c.rows, c.tracked, live);
    RebroadcastRestore(c, n);
  }

  lemma RebroadcastCache(rows: map<Key, TxRecord>, tracked: map<nat, TxRecord>, resends: map<nat, Resend>, n: nat)
    requires CacheInStore(rows, tracked, InStep, resends)
    requires forall m | m in tracked :: tracked[m].nonce == m
    requires n in tracked && n in resends && resends[n].Saving? && IsLive(tracked[n], resends[n].rec)
    ensures CacheInStore(Upsert(rows, resends[n].rec), tracked, InStep, resends[n := Caching(resends[n].rec)])
  {
    var next := resends[n := Caching(resends[n].rec)];
    forall m | m in tracked
      ensures InStore(Upsert(rows, resends[n].rec), tracked[m], Persisted(tracked[m], InStep, next))
    {
      assert InStore(rows, tracked[m], Persisted(tracked[m], InStep, resends));
      assert InStore(rows, tracked[n], Persisted(tracked[n], InStep, resends));
      hide CacheInStore;
    }
  }

  lemma RebroadcastStore(mode: Mode, rows: map<Key, TxRecord>, tracked: map<nat, TxRecord>, live: TxRecord)
    requires StoreInCache(mode, rows, tracked, None)
    requires live.key in rows && rows[live.key].nonce == live.nonce && !IsTerminal(live.status)
    ensures StoreInCache(mode, Upsert(rows, live), tracked, None)
  {
    if !mode.Down? {
      var next := Upsert(rows, live);
      forall k | k in next ensures Located(mode, tracked, None, k, next[k]) {
        assert Located(mode, tracked, None, k, rows[k]);
      }
    }
  }

  lemma RebroadcastRestore(c: Account, n: nat)
    requires RestoreOk(c.mode, c.resends, c.rows, c.tracked) && CanSaveRebroadcast(c, n)
    ensures var d := SaveRebroadcast(c, n); RestoreOk(d.mode, d.resends, d.rows, d.tracked)
  {
    BootingFromResend(c, n);
  }

  lemma LoseRebroadcastKeeps(cfg: Config, a: Address, c: Account, n: nat, retry: bool, now: int)
    requires Inv(cfg, a, c) && CanSaveRebroadcast(c, n) && n in c.tracked
    ensures Inv(cfg, a, LoseRebroadcast(c, n, retry, now))
  {
    hide TablesOk, LaneOk, SentOk, TurnOk, TickOk, RestoreOk, HistoryOk, CapOk;
    BootingFromResend(c, n);
    RestoreIsIdle(cfg, a, c);
    ResendProgress(cfg, a, c, n, LoseRebroadcast(c, n, retry, now).resends);
  }

  lemma CacheRebroadcastKeeps(cfg: Config, a: Address, c: Account, n: nat)
    requires Inv(cfg, a, c) && CanCacheRebroadcast(c, n)
    ensures Inv(cfg, a, CacheRebroadcast(c, n))
  {
    hide TablesOk, LaneOk, SentOk, TurnOk, TickOk, RestoreOk, HistoryOk;
    hide RowNonces;
    var live := c.resends[n].rec;
    var next := CacheRebroadcast(c, n);
    BootingFromResend(c, n);
    RestoreIsIdle(cfg, a, c);
    TrackedIsRow(cfg, a, c, n);
    CatchUp(cfg, a, c.mode, c.rows, c.tracked, None, InStep, c.resends, live);
    assert next.tracked.Keys == c.tracked.Keys;
    LaneSameNonces(c.mode, c.turn, c.cursor, c.tracked, next.tracked);
    TurnIdleOk(cfg, next, next.mode);
    CacheRebroadcastRestore(c, n);
  }

  lemma CacheRebroadcastRestore(c: Account, n: nat)
    requires RestoreOk(c.mode, c.resends, c.rows, c.tracked) && CanCacheRebroadcast(c, n)
    requires n in c.tracked && c.tracked[n].nonce == n
    ensures var d := CacheRebroadcast(c, n); RestoreOk(d.mode, d.resends, d.rows, d.tracked)
  {
    BootingFromResend(c, n);
  }

  lemma FinishBootKeeps(cfg: Config, a: Address, c: Account)
    requires Inv(cfg, a, c) && CanFinishBoot(c)
    ensures Inv(cfg, a, FinishBoot(c))
  {
    hide SentOk, HistoryOk, CapOk;
  }

  lemma SeedKeeps(cfg: Config, a: Address, c: Account, atLeast: nat)
    requires Inv(cfg, a, c) && !c.mode.Down?
    ensures Inv(cfg, a, Seed(c, atLeast))
  {
    hide TablesOk, TurnOk, TickOk, RestoreOk, HistoryOk, CapOk;
  }

  lemma ReattachKeeps(cfg: Config, a: Address, c: Account, r: TxRecord)
    requires Inv(cfg, a, c) && CanReattach(cfg, a, c, r)
    ensures Inv(cfg, a, Reattach(c, r))
  {
    hide TablesOk, TurnOk, TickOk, RestoreOk, HistoryOk;
    hide RowNonces, Increasing;
    var next := Reattach(c, r);
    NothingResent(c.mode, c.resends, c.rows, c.tracked);
    ReattachTables(cfg, a, c, r);
    TurnIdleReattach(cfg, a, c, r);
    RestoreIdle(c.mode, next.rows, next.tracked);
    NewPlaceholder(cfg, a, c.rows, c.lives, r);
  }

  lemma ReattachTables(cfg: Config, a: Address, c: Account, r: TxRecord)
    requires Inv(cfg, a, c) && CanReattach(cfg, a, c, r) && c.resends == map[]
    ensures TablesOk(cfg, a, c.mode, Upsert(c.rows, r), c.tracked[r.nonce := r], None, StoreAhead(c.tick), map[])
  {
    hide LaneOk, SentOk, TurnOk, RestoreOk, HistoryOk, CapOk;
    HandIsTracked(cfg, c);
    hide TickOk;
    var rows := Upsert(c.rows, r);
    assert TablesOk(cfg, a, c.mode, rows, c.tracked, Some(r), StoreAhead(c.tick), map[]) by {
      assert forall k | k in c.rows :: Located(c.mode, c.tracked, None, k, c.rows[k]);
      assert CacheInStore(rows, c.tracked, StoreAhead(c.tick), map[]) by {
        forall n | n in c.tracked ensures InStore(rows, c.tracked[n], Persisted(c.tracked[n], StoreAhead(c.tick), map[])) {
          assert InStore(c.rows, c.tracked[n], Persisted(c.tracked[n], StoreAhead(c.tick), map[]));
        }
      }
      hide CacheInStore;
    }
    hide TablesOk;
    TrackRow(cfg, a, c.mode, rows, c.tracked, Some(r), StoreAhead(c.tick), map[], r);
  }

  lemma TurnIdleReattach(cfg: Config, a: Address, c: Account, r: TxRecord)
    requires Inv(cfg, a, c) && CanReattach(cfg, a, c, r)
    ensures var d := Reattach(c, r);
            && TurnOk(true, d.turn, d.rows, d.lives, d.tracked, Reporting(d.tick))
            && TickOk(cfg, true, d.tick, d.tracked, d.rows, d.lives)
  {
    hide TablesOk, LaneOk, SentOk, RestoreOk, HistoryOk, CapOk;
    var d := Reattach(c, r);
    FreshKey(cfg, c, r.key);
    TickFrame(cfg, true, c.tick, c.tracked, c.rows, c.lives, d.tracked, d.rows, d.lives);
  }

  lemma NewPlaceholder(cfg: Config, a: Address, rows: map<Key, TxRecord>, lives: map<Key, Life>, r: TxRecord)
    requires HistoryOk(cfg, rows, lives) && IsPlaceholder(cfg, a, r)
    ensures HistoryOk(cfg, Upsert(rows, r), lives[r.key := Life(SignableOf(r), true, false, [], [])])
  {
    hide MaySign;
    var next := lives[r.key := Life(SignableOf(r), true, false, [], [])];
    assert RowLife(cfg, r, next[r.key]) && EventsOk(cfg, []) && PayloadsOk(cfg, SignableOf(r), []);
    hide RowLife, EventsOk, PayloadsOk;
  }

  // ----- all steps -----

  lemma SubmitStepKeeps(cfg: Config, a: Address, c: Account, s: SubmitStep)
    requires Inv(cfg, a, c) && SubmitEnabled(cfg, c, s)
    ensures Inv(cfg, a, SubmitNext(cfg, a, c, s))
  {
    hide Inv;
    match s
    case OpenedTurn(sub) => OpenTurnKeeps(cfg, a, c, sub);
    case CapReached => RefuseAtCapKeeps(cfg, a, c);
    case BelowCap => AdmitKeeps(cfg, a, c);
    case GaveUp => GiveUpKeeps(cfg, a, c);
    case WroteAhead(fees, gas, now) => WriteAheadKeeps(cfg, a, c, fees, gas, now);
    case SendOk(hash) => SendAcceptedKeeps(cfg, a, c, hash);
    case SendBad(drift) => SendRefusedKeeps(cfg, a, c, drift);
    case DroppedIntent(error, now) => DropIntentKeeps(cfg, a, c, error, now);
    case Reseeded(chainNonce) => ReseedKeeps(cfg, a, c, chainNonce);
    case WroteLive(now) => WriteLiveKeeps(cfg, a, c, now);
    case TrackedLive => LandKeeps(cfg, a, c);
    case ClosedTurn => CloseTurnKeeps(cfg, a, c);
  }

  lemma TickStepKeeps(cfg: Config, a: Address, c: Account, s: TickStep)
    requires Inv(cfg, a, c) && TickEnabled(cfg, c, s)
    ensures Inv(cfg, a, TickNext(cfg, c, s))
  {
    hide Inv;
    match s
    case BeganTick(list) => TickBeginKeeps(cfg, a, c, list);
    case Skipped => SkipKeeps(cfg, a, c);
    case WroteTerminal(status, error, now) => SettleKeeps(cfg, a, c, status, error, now);
    case DroppedTx => DropKeeps(cfg, a, c);
    case NotifiedEnd => NotifyEndKeeps(cfg, a, c);
    case WroteMined(now) => MarkMinedKeeps(cfg, a, c, now);
    case ResentOk(hash) => ResendAcceptedKeeps(cfg, a, c, hash);
    case ResentBad => ResendRefusedKeeps(cfg, a, c);
    case WroteReplaced(now) => SaveReplacedKeeps(cfg, a, c, now);
    case LostReplaced => LoseReplacedKeeps(cfg, a, c);
    case CachedUpdate => CacheUpdateKeeps(cfg, a, c);
    case NotifiedUpdate => NotifyUpdateKeeps(cfg, a, c);
    case EndedTick => TickEndKeeps(cfg, a, c);
  }

  lemma BootStepKeeps(cfg: Config, a: Address, c: Account, s: BootStep)
    requires Inv(cfg, a, c) && BootEnabled(cfg, a, c, s)
    ensures Inv(cfg, a, BootNext(cfg, a, c, s))
  {
    hide Inv;
    match s
    case Crashed => CrashKeeps(cfg, a, c);
    case Booted => BootKeeps(cfg, a, c);
    case RestoredTx(k) => RestoreTrackKeeps(cfg, a, c, k);
    case RestoredSeed => RestoreSeedKeeps(cfg, a, c);
    case RestoredBinding => RestoreBoundKeeps(cfg, a, c);
    case RebroadcastOk(n, hash, now) => RebroadcastAcceptedKeeps(cfg, a, c, n, hash, now);
    case RebroadcastDrift(n, now) => RebroadcastDriftedKeeps(cfg, a, c, n, now);
    case RebroadcastBad(n) => RebroadcastRefusedKeeps(cfg, a, c, n);
    case WroteRebroadcast(n) => SaveRebroadcastKeeps(cfg, a, c, n);
    case LostRebroadcast(n, retry, now) => LoseRebroadcastKeeps(cfg, a, c, n, retry, now);
    case CachedRebroadcast(n) => CacheRebroadcastKeeps(cfg, a, c, n);
    case FinishedBoot => FinishBootKeeps(cfg, a, c);
    case SeededNonce(atLeast) => SeedKeeps(cfg, a, c, atLeast);
    case Reattached(r) => ReattachKeeps(cfg, a, c, r);
  }

  lemma StepKeeps(cfg: Config, a: Address, c: Account, s: Step)
    requires Inv(cfg, a, c) && Enabled(cfg, a, c, s)
    ensures Inv(cfg, a, Next(cfg, a, c, s))
  {
    hide Inv;
    match s
    case Submitting(t) => SubmitStepKeeps(cfg, a, c, t);
    case Ticking(t) => TickStepKeeps(cfg, a, c, t);
    case Recovering(t) => BootStepKeeps(cfg, a, c, t);
  }

  lemma NewAccountOk(cfg: Config, a: Address)
    ensures Inv(cfg, a, NewAccount)
  {
  }

  lemma {:induction false} RunKeeps(cfg: Config, a: Address, steps: seq<Step>)
    requires Run(cfg, a, steps).Ok?
    ensures Inv(cfg, a, Run(cfg, a, steps).value)
  {
    NewAccountOk(cfg, a);
    hide Inv;
    if steps != [] {
      var before := steps[..|steps| - 1];
      RunKeeps(cfg, a, before);
      StepKeeps(cfg, a, Run(cfg, a, before).value, steps[|steps| - 1]);
    }
  }

  lemma RunAppend(cfg: Config, a: Address, steps: seq<Step>, s: Step)
    requires Run(cfg, a, steps).Ok? && Enabled(cfg, a, Run(cfg, a, steps).value, s)
    ensures Run(cfg, a, steps + [s]) == Ok(Next(cfg, a, Run(cfg, a, steps).value, s))
  {
    hide Enabled, Next;
    assert (steps + [s])[..|steps + [s]| - 1] == steps;
  }
}
