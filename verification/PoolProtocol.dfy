/** The pool as a step system: managed accounts over one transaction table, the sticky bindings of
    ordering keys and the submits on their way (src/pool.ts, src/routing/default-router.ts,
    src/cache/in-memory.cache.ts). */
module PoolProtocol {
  import opened Records
  import opened AccountProtocol

  /** A sticky binding of the cache. */
  datatype Binding = Binding(account: Address, refs: int)

  datatype Phase = InQueue | InTurn | HasThrown

  /** A submit that was routed and has not returned. */
  datatype Ticket = Ticket(sub: Submission, account: Address, phase: Phase)

  /** Who will release a ref: the submit until its transaction is tracked, then the tracked
      record, then the terminal event about to be reported. */
  datatype Holder = BySubmit | ByTx(account: Address, nonce: nat) | ByReport(account: Address)

  datatype Token = Token(orderingKey: OrderingKey, holder: Holder)

  datatype Stage = AllDown | AllBooting | AllUp

  datatype Pool = Pool(
    store: map<Key, TxRecord>,
    stage: Stage, accts: map<Address, Account>, binds: map<OrderingKey, Binding>, tickets: map<Key, Ticket>,
    queues: map<Address, seq<Key>>, // the submits that wait for each lane, first come first
    tokens: map<Key, Token>)   // history: the refs, told apart

  // ----- bindings -----

  /** bindOrdering: pin on first touch, else one more ref on the account already pinned. */
  function Bind(binds: map<OrderingKey, Binding>, o: OrderingKey, prefer: Address): map<OrderingKey, Binding> {
    if o in binds then binds[o := Binding(binds[o].account, binds[o].refs + 1)]
    else binds[o := Binding(prefer, 1)]
  }

  /** releaseOrdering: one ref less, and no binding at zero. */
  function Release(binds: map<OrderingKey, Binding>, o: OrderingKey): map<OrderingKey, Binding> {
    if o !in binds then binds
    else if binds[o].refs - 1 <= 0 then binds - {o}
    else binds[o := Binding(binds[o].account, binds[o].refs - 1)]
  }

  function BindSome(binds: map<OrderingKey, Binding>, o: Option<OrderingKey>, prefer: Address): map<OrderingKey, Binding> {
    if o.Some? then Bind(binds, o.value, prefer) else binds
  }

  function ReleaseSome(binds: map<OrderingKey, Binding>, o: Option<OrderingKey>): map<OrderingKey, Binding> {
    if o.Some? then Release(binds, o.value) else binds
  }

  function AddToken(tokens: map<Key, Token>, k: Key, o: Option<OrderingKey>, holder: Holder): map<Key, Token> {
    if o.Some? then tokens[k := Token(o.value, holder)] else tokens
  }

  function RemoveToken(tokens: map<Key, Token>, k: Key, o: Option<OrderingKey>): map<Key, Token> {
    if o.Some? then tokens - {k} else tokens
  }

  // ----- an account seen from the pool -----

  datatype Slot = Slot(key: Key, orderingKey: Option<OrderingKey>)

  datatype View = View(slots: map<nat, Slot>, report: Option<Slot>, turn: Option<Slot>, landed: bool)

  function SlotOf(r: TxRecord): Slot {
    Slot(r.key, r.orderingKey)
  }

  /** The record that restore has tracked but not bound yet. */
  predicate Unbound(mode: Mode, n: nat) {
    mode.Booting? && !mode.current.NoRow? && mode.current.rec.nonce == n
  }

  function TurnSlot(turn: Turn): Option<Slot> {
    match turn
    case Idle => None
    case Allocated(sub, _) => Some(Slot(sub.key, sub.orderingKey))
    case Admitted(sub, _) => Some(Slot(sub.key, sub.orderingKey))
    case _ => Some(SlotOf(turn.rec))
  }

  function Slots(mode: Mode, tracked: map<nat, TxRecord>): map<nat, Slot> {
    map n | n in tracked && !Unbound(mode, n) :: SlotOf(tracked[n])
  }

  function ViewOf(c: Account): View {
    View(Slots(c.mode, c.tracked),
         if c.tick.Dropped? then Some(SlotOf(c.tick.rec)) else None,
         TurnSlot(c.turn), c.turn.Landed?)
  }

  function Views(accts: map<Address, Account>): map<Address, View> {
    map a | a in accts :: ViewOf(accts[a])
  }

  /** What a step of an account means to the pool. */
  datatype Effect =
    | NoEffect
    | EOpen(slot: Slot)            // a queued submit gets the lane
    | EThrow                       // the turn throws
    | ELand(nonce: nat)            // the turn's transaction is tracked
    | EClose                       // the turn returns
    | EDrop(nonce: nat)            // a settled transaction leaves the cache
    | EReport                      // its terminal event reaches the bus
    | EBind(nonce: nat, slot: Slot) // a restored or reattached transaction is bound

  function EffectOf(c: Account, s: Step): Effect {
    match s
    case Submitting(OpenedTurn(sub)) => EOpen(Slot(sub.key, sub.orderingKey))
    case Submitting(CapReached) => EThrow
    case Submitting(GaveUp) => EThrow
    case Submitting(DroppedIntent(_, _)) => if c.turn.Refused? && c.turn.drift then NoEffect else EThrow
    case Submitting(Reseeded(_)) => EThrow
    case Submitting(TrackedLive) => if c.turn.Stored? then ELand(c.turn.rec.nonce) else NoEffect
    case Submitting(ClosedTurn) => EClose
    case Ticking(DroppedTx) => if c.tick.Settling? then EDrop(c.tick.rec.nonce) else NoEffect
    case Ticking(NotifiedEnd) => EReport
    case Recovering(RestoredBinding) =>
      if CanRestoreBound(c) then EBind(c.mode.current.rec.nonce, SlotOf(c.mode.current.rec)) else NoEffect
    case Recovering(Reattached(r)) => EBind(r.nonce, SlotOf(r))
    case _ => NoEffect
  }

  /** The row a step writes, if any. */
  function WrittenBy(cfg: Config, a: Address, c: Account, s: Step): Option<TxRecord>
    requires Enabled(cfg, a, c, s)
  {
    match s
    case Submitting(WroteAhead(fees, gas, now)) => Some(NewRecord(cfg, a, c.turn.sub, c.turn.nonce, fees, gas, now))
    case Submitting(DroppedIntent(error, now)) => Some(TerminalRecord(c.turn.rec, Failed, Some(error), now))
    case Submitting(WroteLive(now)) => Some(LiveRecord(c.turn.rec, c.turn.hash, now))
    case Ticking(WroteTerminal(status, error, now)) => Some(TerminalRecord(c.tick.todo[0], status, error, now))
    case Ticking(WroteMined(now)) => Some(MinedRecord(c.tick.todo[0], now))
    case Ticking(WroteReplaced(now)) => Some(ReplacedRecord(c.tick.rec, c.tick.fees, c.tick.hash, now))
    case Recovering(WroteRebroadcast(n)) => Some(c.resends[n].rec)
    case Recovering(Reattached(r)) => Some(r)
    case _ => None
  }

  function UpsertSome(rows: map<Key, TxRecord>, r: Option<TxRecord>): map<Key, TxRecord> {
    if r.Some? then Upsert(rows, r.value) else rows
  }

  // ----- steps -----

  datatype PoolStep =
    | Routed(sub: Submission, prefer: Address)  // routed, ref acquired, queued on the lane
    | Released(key: Key)                        // a failed submit releases its ref
    | Stepped(account: Address, step: Step)
    | ProcessCrashed | RestoreBegan | RestoreEnded

  /** The caller's duty: the idempotency key of a live or unfinished transaction is not used again. */
  predicate KeyUnused(p: Pool, k: Key) {
    k !in p.store && k !in p.tickets && forall a | a in p.accts :: KeyFree(p.accts[a], k)
  }

  /** The promise chain of a lane: who came first is next. */
  predicate IsNext(queues: map<Address, seq<Key>>, a: Address, k: Key) {
    a in queues && queues[a] != [] && queues[a][0] == k
  }

  function Join(queues: map<Address, seq<Key>>, a: Address, k: Key): map<Address, seq<Key>> {
    queues[a := (if a in queues then queues[a] else []) + [k]]
  }

  function QueuesNext(queues: map<Address, seq<Key>>, a: Address, s: Step): map<Address, seq<Key>> {
    if s.Submitting? && s.s.OpenedTurn? && a in queues && queues[a] != [] then queues[a := queues[a][1..]] else queues
  }

  predicate StepAllowed(cfg: Config, p: Pool, a: Address, s: Step) {
    && a in p.accts && Enabled(cfg, a, p.accts[a], s)
    && match s
       case Submitting(OpenedTurn(sub)) =>
         && sub.key in p.tickets && p.tickets[sub.key] == Ticket(sub, a, InQueue)
         && IsNext(p.queues, a, sub.key)
       case Recovering(Crashed) => false
       case Recovering(Booted) => false
       case Recovering(FinishedBoot) => false
       case Recovering(Reattached(r)) =>
         KeyUnused(p, r.key) && (r.orderingKey.Some? && r.orderingKey.value in p.binds ==> p.binds[r.orderingKey.value].account == a)
       case _ => true
  }

  predicate PoolEnabled(cfg: Config, p: Pool, s: PoolStep) {
    match s
    case Routed(sub, prefer) => p.stage.AllUp? && prefer in p.accts && KeyUnused(p, sub.key)
    case Released(k) => k in p.tickets && p.tickets[k].phase.HasThrown?
    case Stepped(a, t) => StepAllowed(cfg, p, a, t)
    case ProcessCrashed => true
    case RestoreBegan => p.stage.AllDown?
    case RestoreEnded => p.stage.AllBooting? && forall a | a in p.accts :: CanFinishBoot(p.accts[a])
  }

  /** The account a submit is routed to: the pinned one, else the preferred one. */
  function Target(binds: map<OrderingKey, Binding>, o: Option<OrderingKey>, prefer: Address): Address {
    if o.Some? && o.value in binds then binds[o.value].account else prefer
  }

  function Route(p: Pool, sub: Submission, prefer: Address): Pool {
    p.(tickets := p.tickets[sub.key := Ticket(sub, Target(p.binds, sub.orderingKey, prefer), InQueue)],
       queues := Join(p.queues, Target(p.binds, sub.orderingKey, prefer), sub.key),
       binds := BindSome(p.binds, sub.orderingKey, prefer),
       tokens := AddToken(p.tokens, sub.key, sub.orderingKey, BySubmit))
  }

  function ReleaseFailed(p: Pool, k: Key): Pool
    requires k in p.tickets
  {
    p.(tickets := p.tickets - {k}, binds := ReleaseSome(p.binds, p.tickets[k].sub.orderingKey),
       tokens := RemoveToken(p.tokens, k, p.tickets[k].sub.orderingKey))
  }

  function ViewNext(v: View, e: Effect): View {
    match e
    case NoEffect => v
    case EOpen(slot) => v.(turn := Some(slot), landed := false)
    case EThrow => v.(turn := None, landed := false)
    case ELand(n) => if v.turn.Some? then v.(slots := v.slots[n := v.turn.value], landed := true) else v
    case EClose => v.(turn := None, landed := false)
    case EDrop(n) => if n in v.slots then v.(slots := v.slots - {n}, report := Some(v.slots[n])) else v
    case EReport => v.(report := None)
    case EBind(n, slot) => v.(slots := v.slots[n := slot])
  }

  function TicketsNext(tickets: map<Key, Ticket>, v: View, e: Effect): map<Key, Ticket> {
    match e
    case EOpen(slot) => if slot.key in tickets then tickets[slot.key := tickets[slot.key].(phase := InTurn)] else tickets
    case EThrow =>
      if v.turn.Some? && v.turn.value.key in tickets
      then tickets[v.turn.value.key := tickets[v.turn.value.key].(phase := HasThrown)] else tickets
    case EClose => if v.turn.Some? then tickets - {v.turn.value.key} else tickets
    case _ => tickets
  }

  function TokensNext(tokens: map<Key, Token>, a: Address, v: View, e: Effect): map<Key, Token> {
    match e
    case ELand(n) => if v.turn.Some? then AddToken(tokens, v.turn.value.key, v.turn.value.orderingKey, ByTx(a, n)) else tokens
    case EDrop(n) => if n in v.slots then AddToken(tokens, v.slots[n].key, v.slots[n].orderingKey, ByReport(a)) else tokens
    case EReport => if v.report.Some? then RemoveToken(tokens, v.report.value.key, v.report.value.orderingKey) else tokens
    case EBind(n, slot) => AddToken(tokens, slot.key, slot.orderingKey, ByTx(a, n))
    case _ => tokens
  }

  function BindsNext(binds: map<OrderingKey, Binding>, a: Address, v: View, e: Effect): map<OrderingKey, Binding> {
    match e
    case EReport => if v.report.Some? then ReleaseSome(binds, v.report.value.orderingKey) else binds
    case EBind(_, slot) => BindSome(binds, slot.orderingKey, a)
    case _ => binds
  }

  function StepAccount(cfg: Config, p: Pool, a: Address, s: Step): Pool
    requires StepAllowed(cfg, p, a, s)
  {
    var c := p.accts[a];
    var v, e := ViewOf(c), EffectOf(c, s);
    p.(store := UpsertSome(p.store, WrittenBy(cfg, a, c, s)),
       accts := p.accts[a := Next(cfg, a, c, s)],
       tickets := TicketsNext(p.tickets, v, e),
       queues := QueuesNext(p.queues, a, s),
       tokens := TokensNext(p.tokens, a, v, e),
       binds := BindsNext(p.binds, a, v, e))
  }

  /** Only the store survives. */
  function CrashPool(p: Pool): Pool {
    p.(stage := AllDown, accts := map a | a in p.accts :: Crash(p.accts[a]), binds := map[], tickets := map[],
       queues := map[], tokens := map[])
  }

  function BeginRestore(p: Pool): Pool {
    p.(stage := AllBooting, accts := map a | a in p.accts :: Boot(p.accts[a]))
  }

  function EndRestore(p: Pool): Pool {
    p.(stage := AllUp, accts := map a | a in p.accts :: FinishBoot(p.accts[a]))
  }

  function PoolNext(cfg: Config, p: Pool, s: PoolStep): Pool
    requires PoolEnabled(cfg, p, s)
  {
    match s
    case Routed(sub, prefer) => Route(p, sub, prefer)
    case Released(k) => ReleaseFailed(p, k)
    case Stepped(a, t) => StepAccount(cfg, p, a, t)
    case ProcessCrashed => CrashPool(p)
    case RestoreBegan => BeginRestore(p)
    case RestoreEnded => EndRestore(p)
  }

  /** Rows of the table that this pool instance restores. */
  predicate Mine(cfg: Config, owned: set<Address>, r: TxRecord) {
    r.ownerId == cfg.ownerId && r.chainId == cfg.chainId && r.account in owned
  }

  /** A pool before its first start, over a table that may hold rows of others. */
  function NewPool(owned: set<Address>, foreign: map<Key, TxRecord>): Pool {
    Pool(foreign, AllDown, map a | a in owned :: NewAccount, map[], map[], map[], map[])
  }

  function PoolRun(cfg: Config, owned: set<Address>, foreign: map<Key, TxRecord>, steps: seq<PoolStep>): Result<Pool> {
    if steps == [] then Ok(NewPool(owned, foreign))
    else
      match PoolRun(cfg, owned, foreign, steps[..|steps| - 1])
      case Err => Err
      case Ok(p) =>
        var s := steps[|steps| - 1];
        if PoolEnabled(cfg, p, s) then Ok(PoolNext(cfg, p, s)) else Err
  }
}
