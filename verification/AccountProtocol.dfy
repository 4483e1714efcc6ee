/** One managed account as a step system (src/account/managed-account.ts over the lane and
    in-flight set of src/cache/in-memory.cache.ts and the rows it owns in the store).

    Every await of the code that touches shared state ends a step, so a submit turn, a reconcile
    tick, nonce seeds and a crash interleave in any order; what the chain answers, the fees, the
    gas and the clock are parameters of the steps. */
module AccountProtocol {
  import opened Records
  import opened FeeOracles
  import opened Cursors

  datatype Config = Config(
    ownerId: OwnerId, chainId: int, maxInflight: int, maxAttempts: int, oracle: Oracle)

  /** What a caller hands to submit. */
  datatype Submission = Submission(
    key: Key, orderingKey: Option<OrderingKey>, metadata: Option<Metadata>,
    to: Address, data: Option<Hex>, value: Option<int>)

  /** The history of one transaction, from its write-ahead on: the first payload, what the node
      and the store have seen, the events the account emitted and all payloads signed. */
  datatype Life = Life(
    origin: SignableTx, accepted: bool, settled: bool, events: seq<Event>, signed: seq<SignableTx>)

  /** Where the open lane turn of submit stands. */
  datatype Turn =
    | Idle
    | Allocated(sub: Submission, nonce: nat)
    | Admitted(sub: Submission, nonce: nat)   // below the in-flight cap
    | Intended(rec: TxRecord)                 // write-ahead row persisted
    | Refused(rec: TxRecord, drift: bool)     // send rejected, row still there
    | Reseeding(rec: TxRecord)                // row dropped, chain nonce being read
    | Accepted(rec: TxRecord, hash: Hash)     // node has it, row still pending
    | Stored(rec: TxRecord)                   // live row persisted
    | Landed(rec: TxRecord)                   // tracked, cursor not advanced yet

  /** Where the reconcile tick stands; todo is what is left of its snapshot. */
  datatype Tick =
    | Asleep
    | Scanning(todo: seq<TxRecord>)
    | Resent(rec: TxRecord, fees: Fees, hash: Hash, todo: seq<TxRecord>)
    | Saved(rec: TxRecord, event: Event, todo: seq<TxRecord>)    // update persisted
    | Cached(rec: TxRecord, event: Event, todo: seq<TxRecord>)   // and in the cache
    | Settling(rec: TxRecord, event: Event, todo: seq<TxRecord>) // terminal row persisted
    | Dropped(rec: TxRecord, event: Event, todo: seq<TxRecord>)  // and out of the cache

  /** A rebroadcast of one pending row during restore. */
  datatype Resend =
    | Sending
    | Saving(rec: TxRecord)
    | Caching(rec: TxRecord)

  /** The row the restore loop is working on. */
  datatype Restoring =
    | NoRow
    | Tracking(rec: TxRecord)  // in the cache, lane not seeded
    | Seeded(rec: TxRecord)    // lane seeded, ordering key not bound

  datatype Mode =
    | Down
    | Booting(todo: map<Key, TxRecord>, current: Restoring)
    | Up

  datatype Account = Account(
    // durable
    rows: map<Key, TxRecord>,
    // lost in a crash
    mode: Mode, cursor: Option<nat>, tracked: map<nat, TxRecord>,
    turn: Turn, tick: Tick, resends: map<nat, Resend>,
    // history
    lives: map<Key, Life>, reattached: bool, sent: seq<nat>)

  const NewAccount := Account(map[], Down, None, map[], Idle, Asleep, map[], map[], false, [])

  /** The key names no live row, no tracked record and no tx about to be reported. */
  predicate KeyFree(c: Account, k: Key) {
    && k !in c.rows
    && (forall n | n in c.tracked :: c.tracked[n].key != k)
    && (c.tick.Dropped? ==> c.tick.rec.key != k)
  }

  // ----- records -----

  function NewRecord(cfg: Config, a: Address, sub: Submission, nonce: nat, fees: Fees, gas: int, now: int): TxRecord {
    TxRecord(sub.key, cfg.ownerId, cfg.chainId, a, nonce, sub.to, sub.data, sub.value, gas, fees,
             ZERO_HASH, Pending, 1, now, false, sub.orderingKey, sub.metadata, None, Some(true), now)
  }

  function LiveRecord(r: TxRecord, hash: Hash, now: int): TxRecord {
    r.(hash := hash, status := Broadcast, updatedAt := now)
  }

  function MinedRecord(r: TxRecord, now: int): TxRecord {
    r.(minedEmitted := true, status := Mined, updatedAt := now)
  }

  function ReplacedRecord(r: TxRecord, fees: Fees, hash: Hash, now: int): TxRecord {
    r.(fees := fees, hash := hash, status := Broadcast, attempts := r.attempts + 1,
       submittedAt := now, updatedAt := now)
  }

  function TerminalRecord(r: TxRecord, status: Status, error: Option<ErrorText>, now: int): TxRecord {
    r.(status := status, error := error, updatedAt := now)
  }

  // ----- history -----

  function Sign(lives: map<Key, Life>, k: Key, s: SignableTx): map<Key, Life> {
    if k in lives then lives[k := lives[k].(signed := lives[k].signed + [s])] else lives
  }

  function Accept(lives: map<Key, Life>, k: Key): map<Key, Life> {
    if k in lives then lives[k := lives[k].(accepted := true)] else lives
  }

  function MarkSettled(lives: map<Key, Life>, k: Key): map<Key, Life> {
    if k in lives then lives[k := lives[k].(settled := true)] else lives
  }

  function Emit(lives: map<Key, Life>, k: Key, e: Event): map<Key, Life> {
    if k in lives then lives[k := lives[k].(events := lives[k].events + [e])] else lives
  }

  // ----- submit -----

  predicate CanOpenTurn(c: Account, sub: Submission) {
    c.mode.Up? && c.turn.Idle? && KeyFree(c, sub.key)
  }

  function OpenTurn(c: Account, sub: Submission): Account {
    c.(turn := Allocated(sub, NextNonce(c.cursor)))
  }

  predicate CanRefuseAtCap(cfg: Config, c: Account) {
    c.turn.Allocated? && |c.tracked| >= cfg.maxInflight
  }

  predicate CanAdmit(cfg: Config, c: Account) {
    c.turn.Allocated? && |c.tracked| < cfg.maxInflight
  }

  function Admit(c: Account): Account
    requires c.turn.Allocated?
  {
    c.(turn := Admitted(c.turn.sub, c.turn.nonce))
  }

  /** The turn throws: the lane stays where it is. */
  function CloseFailed(c: Account): Account {
    c.(turn := Idle)
  }

  function WriteAhead(cfg: Config, a: Address, c: Account, fees: Fees, gas: int, now: int): Account
    requires c.turn.Admitted?
  {
    var rec := NewRecord(cfg, a, c.turn.sub, c.turn.nonce, fees, gas, now);
    c.(turn := Intended(rec), rows := Upsert(c.rows, rec),
       lives := c.lives[rec.key := Life(SignableOf(rec), false, false, [], [])])
  }

  function SendAccepted(c: Account, hash: Hash): Account
    requires c.turn.Intended?
  {
    var rec := c.turn.rec;
    c.(turn := Accepted(rec, hash), sent := c.sent + [rec.nonce],
       lives := Accept(Sign(c.lives, rec.key, SignableOf(rec)), rec.key))
  }

  function SendRefused(c: Account, drift: bool): Account
    requires c.turn.Intended?
  {
    var rec := c.turn.rec;
    c.(turn := Refused(rec, drift), lives := Sign(c.lives, rec.key, SignableOf(rec)))
  }

  function DropIntent(c: Account, error: ErrorText, now: int): Account
    requires c.turn.Refused?
  {
    var rec := c.turn.rec;
    c.(rows := Upsert(c.rows, TerminalRecord(rec, Failed, Some(error), now)),
       turn := if c.turn.drift then Reseeding(rec) else Idle)
  }

  function Reseed(c: Account, chainNonce: nat): Account
    requires c.turn.Reseeding?
  {
    c.(turn := Idle,
       cursor := SeedCursor(c.cursor, Max(chainNonce, c.turn.rec.nonce + 1)))
  }

  function WriteLive(c: Account, now: int): Account
    requires c.turn.Accepted?
  {
    var live := LiveRecord(c.turn.rec, c.turn.hash, now);
    c.(turn := Stored(live), rows := Upsert(c.rows, live))
  }

  function Land(c: Account): Account
    requires c.turn.Stored?
  {
    c.(turn := Landed(c.turn.rec), tracked := c.tracked[c.turn.rec.nonce := c.turn.rec])
  }

  /** The lane advances to the nonce after its own, whatever seeds came meanwhile. */
  function CloseTurn(c: Account): Account
    requires c.turn.Landed?
  {
    c.(turn := Idle, cursor := Some(c.turn.rec.nonce + 1))
  }

  // ----- reconcile tick -----

  /** A snapshot of the in-flight set by ascending nonce. */
  predicate IsListing(list: seq<TxRecord>, tracked: map<nat, TxRecord>) {
    && (forall i | 0 <= i < |list| :: list[i].nonce in tracked && tracked[list[i].nonce] == list[i])
    && (forall i, j | 0 <= i < j < |list| :: list[i].nonce < list[j].nonce)
    && (forall n | n in tracked :: exists i | 0 <= i < |list| :: list[i].nonce == n)
  }

  predicate CanTickBegin(c: Account, list: seq<TxRecord>) {
    c.mode.Up? && c.tick.Asleep? && IsListing(list, c.tracked)
  }

  function TickBegin(c: Account, list: seq<TxRecord>): Account {
    c.(tick := Scanning(list))
  }

  predicate HasNext(c: Account) {
    c.tick.Scanning? && c.tick.todo != []
  }

  /** Nothing to do for this record, or an error was caught before anything was written. */
  function Skip(c: Account): Account
    requires HasNext(c)
  {
    c.(tick := Scanning(c.tick.todo[1..]))
  }

  predicate MayReplace(r: TxRecord) {
    r.canReplace != Some(false)
  }

  predicate CanSettle(cfg: Config, c: Account, status: Status) {
    && HasNext(c) && IsTerminal(status)
    && (status.Failed? ==> MayReplace(c.tick.todo[0]) && c.tick.todo[0].attempts >= cfg.maxAttempts)
  }

  function Settle(c: Account, status: Status, error: Option<ErrorText>, now: int): Account
    requires HasNext(c) && IsTerminal(status)
  {
    var rec := c.tick.todo[0];
    c.(tick := Settling(rec, EndEvent(status), c.tick.todo[1..]),
       rows := Upsert(c.rows, TerminalRecord(rec, status, error, now)),
       lives := MarkSettled(c.lives, rec.key))
  }

  function Drop(c: Account): Account
    requires c.tick.Settling?
  {
    c.(tick := Dropped(c.tick.rec, c.tick.event, c.tick.todo), tracked := c.tracked - {c.tick.rec.nonce})
  }

  function NotifyEnd(c: Account): Account
    requires c.tick.Dropped?
  {
    c.(tick := Scanning(c.tick.todo), lives := Emit(c.lives, c.tick.rec.key, c.tick.event))
  }

  predicate CanMarkMined(c: Account) {
    HasNext(c) && !c.tick.todo[0].minedEmitted
  }

  function MarkMined(c: Account, now: int): Account
    requires HasNext(c)
  {
    var mined := MinedRecord(c.tick.todo[0], now);
    c.(tick := Saved(mined, EvMined, c.tick.todo[1..]), rows := Upsert(c.rows, mined))
  }

  predicate CanReplace(cfg: Config, c: Account) {
    && HasNext(c) && MayReplace(c.tick.todo[0])
    && c.tick.todo[0].attempts < cfg.maxAttempts
    && Bump(cfg.oracle, c.tick.todo[0].fees).Ok?
  }

  function ReplacePayload(cfg: Config, r: TxRecord): SignableTx
    requires Bump(cfg.oracle, r.fees).Ok?
  {
    SignableOf(r).(fees := Bump(cfg.oracle, r.fees).value)
  }

  function ResendAccepted(cfg: Config, c: Account, hash: Hash): Account
    requires CanReplace(cfg, c)
  {
    var rec := c.tick.todo[0];
    var payload := ReplacePayload(cfg, rec);
    c.(tick := Resent(rec, payload.fees, hash, c.tick.todo[1..]),
       lives := Accept(Sign(c.lives, rec.key, payload), rec.key))
  }

  function ResendRefused(cfg: Config, c: Account): Account
    requires CanReplace(cfg, c)
  {
    var rec := c.tick.todo[0];
    c.(tick := Scanning(c.tick.todo[1..]), lives := Sign(c.lives, rec.key, ReplacePayload(cfg, rec)))
  }

  function SaveReplaced(c: Account, now: int): Account
    requires c.tick.Resent?
  {
    var updated := ReplacedRecord(c.tick.rec, c.tick.fees, c.tick.hash, now);
    c.(tick := Saved(updated, EvReplaced, c.tick.todo), rows := Upsert(c.rows, updated))
  }

  /** The store refused the replaced row; the next tick starts from the old one. */
  function LoseReplaced(c: Account): Account
    requires c.tick.Resent?
  {
    c.(tick := Scanning(c.tick.todo))
  }

  function CacheUpdate(c: Account): Account
    requires c.tick.Saved?
  {
    c.(tick := Cached(c.tick.rec, c.tick.event, c.tick.todo),
       tracked := c.tracked[c.tick.rec.nonce := c.tick.rec])
  }

  function NotifyUpdate(c: Account): Account
    requires c.tick.Cached?
  {
    c.(tick := Scanning(c.tick.todo), lives := Emit(c.lives, c.tick.rec.key, c.tick.event))
  }

  predicate CanTickEnd(c: Account) {
    c.tick.Scanning? && c.tick.todo == []
  }

  function TickEnd(c: Account): Account {
    c.(tick := Asleep)
  }

  // ----- crash, restore, seeds -----

  /** Only the rows survive (and the history, which nothing reads). */
  function Crash(c: Account): Account {
    c.(mode := Down, cursor := None, tracked := map[], turn := Idle, tick := Asleep,
       resends := map[], sent := [])
  }

  function Boot(c: Account): Account {
    c.(mode := Booting(c.rows, NoRow))
  }

  predicate CanRestoreTrack(c: Account, k: Key) {
    c.mode.Booting? && c.mode.current.NoRow? && k in c.mode.todo
  }

  function RestoreTrack(c: Account, k: Key): Account
    requires CanRestoreTrack(c, k)
  {
    var rec := c.mode.todo[k];
    c.(mode := c.mode.(current := Tracking(rec)), tracked := c.tracked[rec.nonce := rec])
  }

  predicate CanRestoreSeed(c: Account) {
    c.mode.Booting? && c.mode.current.Tracking?
  }

  function RestoreSeed(c: Account): Account
    requires CanRestoreSeed(c)
  {
    var rec := c.mode.current.rec;
    c.(mode := c.mode.(current := Seeded(rec)), cursor := SeedCursor(c.cursor, rec.nonce + 1))
  }

  predicate CanRestoreBound(c: Account) {
    c.mode.Booting? && c.mode.current.Seeded?
  }

  /** The ordering key is bound; a row that may never have reached the node is sent again. */
  function RestoreBound(c: Account): Account
    requires CanRestoreBound(c)
  {
    var rec := c.mode.current.rec;
    c.(mode := Booting(c.mode.todo - {rec.key}, NoRow),
       resends := if rec.status.Pending? then c.resends[rec.nonce := Sending] else c.resends)
  }

  predicate CanRebroadcast(c: Account, n: nat) {
    n in c.resends && c.resends[n].Sending? && n in c.tracked
  }

  function RebroadcastAccepted(c: Account, n: nat, hash: Hash, now: int): Account
    requires CanRebroadcast(c, n)
  {
    var rec := c.tracked[n];
    c.(resends := c.resends[n := Saving(LiveRecord(rec, hash, now))],
       lives := Accept(Sign(c.lives, rec.key, SignableOf(rec)), rec.key))
  }

  /** Nonce drift: the node already has a transaction with this nonce. */
  function RebroadcastDrifted(c: Account, n: nat, now: int): Account
    requires CanRebroadcast(c, n)
  {
    var rec := c.tracked[n];
    c.(resends := c.resends[n := Saving(LiveRecord(rec, rec.hash, now))],
       lives := Sign(c.lives, rec.key, SignableOf(rec)))
  }

  function RebroadcastRefused(c: Account, n: nat): Account
    requires CanRebroadcast(c, n)
  {
    c.(resends := c.resends - {n}, lives := Sign(c.lives, c.tracked[n].key, SignableOf(c.tracked[n])))
  }

  predicate CanSaveRebroadcast(c: Account, n: nat) {
    n in c.resends && c.resends[n].Saving?
  }

  function SaveRebroadcast(c: Account, n: nat): Account
    requires CanSaveRebroadcast(c, n)
  {
    c.(resends := c.resends[n := Caching(c.resends[n].rec)], rows := Upsert(c.rows, c.resends[n].rec))
  }

  /** The store refused the row: give up, or, if the store error classifies as drift, try once more. */
  function LoseRebroadcast(c: Account, n: nat, retry: bool, now: int): Account
    requires CanSaveRebroadcast(c, n) && n in c.tracked
  {
    c.(resends := if retry then c.resends[n := Saving(LiveRecord(c.tracked[n], c.tracked[n].hash, now))]
                  else c.resends - {n})
  }

  predicate CanCacheRebroadcast(c: Account, n: nat) {
    n in c.resends && c.resends[n].Caching?
  }

  function CacheRebroadcast(c: Account, n: nat): Account
    requires CanCacheRebroadcast(c, n)
  {
    c.(resends := c.resends - {n}, tracked := c.tracked[n := c.resends[n].rec])
  }

  predicate CanFinishBoot(c: Account) {
    c.mode.Booting? && c.mode.current.NoRow? && c.mode.todo == map[] && c.resends == map[]
  }

  function FinishBoot(c: Account): Account {
    c.(mode := Up)
  }

  /** primeNonce, or the persisted cursor of the account row: forward only, at any moment. */
  function Seed(c: Account, atLeast: nat): Account {
    c.(cursor := SeedCursor(c.cursor, atLeast))
  }

  /** A caller-supplied transaction that was broadcast elsewhere; confirm-only. */
  predicate IsPlaceholder(cfg: Config, a: Address, r: TxRecord) {
    && r.ownerId == cfg.ownerId && r.chainId == cfg.chainId && r.account == a
    && r.status.Broadcast? && r.attempts == 1 && !r.minedEmitted && r.canReplace == Some(false)
    && r.gas == 0 && r.data == None && r.value == None
  }

  predicate CanReattach(cfg: Config, a: Address, c: Account, r: TxRecord) {
    && c.mode.Up? && c.turn.Idle? && IsPlaceholder(cfg, a, r)
    && KeyFree(c, r.key) && r.nonce !in c.tracked
  }

  function Reattach(c: Account, r: TxRecord): Account {
    c.(rows := Upsert(c.rows, r), tracked := c.tracked[r.nonce := r],
       cursor := SeedCursor(c.cursor, r.nonce + 1), reattached := true,
       lives := c.lives[r.key := Life(SignableOf(r), true, false, [], [])])
  }

  // ----- the transition relation -----

  datatype SubmitStep =
    | OpenedTurn(sub: Submission) | CapReached | BelowCap | GaveUp
    | WroteAhead(fees: Fees, gas: int, now: int) | SendOk(hash: Hash) | SendBad(drift: bool)
    | DroppedIntent(error: ErrorText, now: int) | Reseeded(chainNonce: nat) | WroteLive(now: int) | TrackedLive | ClosedTurn

  datatype TickStep =
    | BeganTick(list: seq<TxRecord>) | Skipped
    | WroteTerminal(status: Status, error: Option<ErrorText>, now: int) | DroppedTx | NotifiedEnd
    | WroteMined(now: int) | ResentOk(hash: Hash) | ResentBad
    | WroteReplaced(now: int) | LostReplaced | CachedUpdate | NotifiedUpdate | EndedTick

  datatype BootStep =
    | Crashed | Booted | RestoredTx(key: Key) | RestoredSeed | RestoredBinding
    | RebroadcastOk(n: nat, hash: Hash, now: int) | RebroadcastDrift(n: nat, now: int) | RebroadcastBad(n: nat)
    | WroteRebroadcast(n: nat) | LostRebroadcast(n: nat, retry: bool, now: int) | CachedRebroadcast(n: nat)
    | FinishedBoot | SeededNonce(atLeast: nat) | Reattached(rec: TxRecord)

  datatype Step = Submitting(s: SubmitStep) | Ticking(t: TickStep) | Recovering(b: BootStep)

  predicate SubmitEnabled(cfg: Config, c: Account, s: SubmitStep) {
    match s
    case OpenedTurn(sub) => CanOpenTurn(c, sub)
    case CapReached => CanRefuseAtCap(cfg, c)
    case BelowCap => CanAdmit(cfg, c)
    case GaveUp => c.turn.Admitted?
    case WroteAhead(_, _, _) => c.turn.Admitted?
    case SendOk(_) => c.turn.Intended?
    case SendBad(_) => c.turn.Intended?
    case DroppedIntent(_, _) => c.turn.Refused?
    case Reseeded(_) => c.turn.Reseeding?
    case WroteLive(_) => c.turn.Accepted?
    case TrackedLive => c.turn.Stored?
    case ClosedTurn => c.turn.Landed?
  }

  function SubmitNext(cfg: Config, a: Address, c: Account, s: SubmitStep): Account
    requires SubmitEnabled(cfg, c, s)
  {
    match s
    case OpenedTurn(sub) => OpenTurn(c, sub)
    case CapReached => CloseFailed(c)
    case BelowCap => Admit(c)
    case GaveUp => CloseFailed(c)
    case WroteAhead(fees, gas, now) => WriteAhead(cfg, a, c, fees, gas, now)
    case SendOk(hash) => SendAccepted(c, hash)
    case SendBad(drift) => SendRefused(c, drift)
    case DroppedIntent(error, now) => DropIntent(c, error, now)
    case Reseeded(chainNonce) => Reseed(c, chainNonce)
    case WroteLive(now) => WriteLive(c, now)
    case TrackedLive => Land(c)
    case ClosedTurn => CloseTurn(c)
  }

  predicate TickEnabled(cfg: Config, c: Account, s: TickStep) {
    match s
    case BeganTick(list) => CanTickBegin(c, list)
    case Skipped => HasNext(c)
    case WroteTerminal(status, _, _) => CanSettle(cfg, c, status)
    case DroppedTx => c.tick.Settling?
    case NotifiedEnd => c.tick.Dropped?
    case WroteMined(_) => CanMarkMined(c)
    case ResentOk(_) => CanReplace(cfg, c)
    case ResentBad => CanReplace(cfg, c)
    case WroteReplaced(_) => c.tick.Resent?
    case LostReplaced => c.tick.Resent?
    case CachedUpdate => c.tick.Saved?
    case NotifiedUpdate => c.tick.Cached?
    case EndedTick => CanTickEnd(c)
  }

  function TickNext(cfg: Config, c: Account, s: TickStep): Account
    requires TickEnabled(cfg, c, s)
  {
    match s
    case BeganTick(list) => TickBegin(c, list)
    case Skipped => Skip(c)
    case WroteTerminal(status, error, now) => Settle(c, status, error, now)
    case DroppedTx => Drop(c)
    case NotifiedEnd => NotifyEnd(c)
    case WroteMined(now) => MarkMined(c, now)
    case ResentOk(hash) => ResendAccepted(cfg, c, hash)
    case ResentBad => ResendRefused(cfg, c)
    case WroteReplaced(now) => SaveReplaced(c, now)
    case LostReplaced => LoseReplaced(c)
    case CachedUpdate => CacheUpdate(c)
    case NotifiedUpdate => NotifyUpdate(c)
    case EndedTick => TickEnd(c)
  }

  predicate BootEnabled(cfg: Config, a: Address, c: Account, s: BootStep) {
    match s
    case Crashed => true
    case Booted => c.mode.Down?
    case RestoredTx(k) => CanRestoreTrack(c, k)
    case RestoredSeed => CanRestoreSeed(c)
    case RestoredBinding => CanRestoreBound(c)
    case RebroadcastOk(n, _, _) => CanRebroadcast(c, n)
    case RebroadcastDrift(n, _) => CanRebroadcast(c, n)
    case RebroadcastBad(n) => CanRebroadcast(c, n)
    case WroteRebroadcast(n) => CanSaveRebroadcast(c, n)
    case LostRebroadcast(n, _, _) => CanSaveRebroadcast(c, n) && n in c.tracked
    case CachedRebroadcast(n) => CanCacheRebroadcast(c, n)
    case FinishedBoot => CanFinishBoot(c)
    case SeededNonce(_) => !c.mode.Down?
    case Reattached(r) => CanReattach(cfg, a, c, r)
  }

  function BootNext(cfg: Config, a: Address, c: Account, s: BootStep): Account
    requires BootEnabled(cfg, a, c, s)
  {
    match s
    case Crashed => Crash(c)
    case Booted => Boot(c)
    case RestoredTx(k) => RestoreTrack(c, k)
    case RestoredSeed => RestoreSeed(c)
    case RestoredBinding => RestoreBound(c)
    case RebroadcastOk(n, hash, now) => RebroadcastAccepted(c, n, hash, now)
    case RebroadcastDrift(n, now) => RebroadcastDrifted(c, n, now)
    case RebroadcastBad(n) => RebroadcastRefused(c, n)
    case WroteRebroadcast(n) => SaveRebroadcast(c, n)
    case LostRebroadcast(n, retry, now) => LoseRebroadcast(c, n, retry, now)
    case CachedRebroadcast(n) => CacheRebroadcast(c, n)
    case FinishedBoot => FinishBoot(c)
    case SeededNonce(atLeast) => Seed(c, atLeast)
    case Reattached(r) => Reattach(c, r)
  }

  predicate Enabled(cfg: Config, a: Address, c: Account, s: Step) {
    match s
    case Submitting(t) => SubmitEnabled(cfg, c, t)
    case Ticking(t) => TickEnabled(cfg, c, t)
    case Recovering(t) => BootEnabled(cfg, a, c, t)
  }

  function Next(cfg: Config, a: Address, c: Account, s: Step): Account
    requires Enabled(cfg, a, c, s)
  {
    match s
    case Submitting(t) => SubmitNext(cfg, a, c, t)
    case Ticking(t) => TickNext(cfg, c, t)
    case Recovering(t) => BootNext(cfg, a, c, t)
  }

  /** The account after a run from first use, if every step of it was enabled. */
  function Run(cfg: Config, a: Address, steps: seq<Step>): Result<Account> {
    if steps == [] then Ok(NewAccount)
    else
      match Run(cfg, a, steps[..|steps| - 1])
      case Err => Err
      case Ok(c) =>
        var s := steps[|steps| - 1];
        if Enabled(cfg, a, c, s) then Ok(Next(cfg, a, c, s)) else Err
  }
}
