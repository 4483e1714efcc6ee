/** Every step of the pool keeps its invariant. */
module PoolSteps {
  import opened Records
  import opened AccountProtocol
  import opened AccountInvariant
  import opened AccountWrites
  import opened AccountSteps
  import opened PoolProtocol
  import opened PoolBindings
  import opened PoolViews
  import opened PoolInvariant

  // ----- the effect of an account's step fits the account -----

  lemma LandFits(cfg: Config, a: Address, c: Account)
    requires Inv(cfg, a, c) && c.turn.Stored?
    ensures c.turn.rec.nonce !in c.tracked
  {
    hide TablesOk, SentOk, TurnOk, TickOk, RestoreOk, HistoryOk, CapOk;
  }

  lemma SubmitEffectFits(cfg: Config, a: Address, c: Account, s: SubmitStep)
    requires Inv(cfg, a, c) && SubmitEnabled(cfg, c, s)
    ensures FitsView(ViewOf(c), EffectOf(c, Submitting(s)))
  {
    hide Inv, KeyFree;
    if s.TrackedLive? { LandFits(cfg, a, c); }
  }

  lemma DropFits(cfg: Config, a: Address, c: Account)
    requires Inv(cfg, a, c) && c.tick.Settling?
    ensures c.mode.Up? && c.tick.rec.nonce in c.tracked
  {
    hide TablesOk, LaneOk, SentOk, TurnOk, RestoreOk, HistoryOk, CapOk, TodoOk, EndPending;
  }

  lemma TickEffectFits(cfg: Config, a: Address, c: Account, s: TickStep)
    requires Inv(cfg, a, c) && TickEnabled(cfg, c, s)
    ensures FitsView(ViewOf(c), EffectOf(c, Ticking(s)))
  {
    hide Inv, IsListing;
    if s.DroppedTx? { DropFits(cfg, a, c); }
  }

  lemma EffectFits(cfg: Config, a: Address, c: Account, s: Step)
    requires Inv(cfg, a, c) && Enabled(cfg, a, c, s)
    ensures FitsView(ViewOf(c), EffectOf(c, s))
  {
    hide Inv, FitsView, KeyFree;
    match s
    case Submitting(t) => SubmitEffectFits(cfg, a, c, t);
    case Ticking(t) => TickEffectFits(cfg, a, c, t);
    case Recovering(t) => BootEffectFits(cfg, a, c, t);
  }

  lemma BootEffectFits(cfg: Config, a: Address, c: Account, s: BootStep)
    requires BootEnabled(cfg, a, c, s)
    ensures FitsView(ViewOf(c), EffectOf(c, Recovering(s)))
  {
    hide KeyFree, IsPlaceholder;
  }

  // ----- what an account's step leaves alone -----

  lemma StageKept(cfg: Config, a: Address, c: Account, s: Step, stage: Stage)
    requires Enabled(cfg, a, c, s) && StageOf(stage, c.mode)
    requires s != Recovering(Crashed) && s != Recovering(Booted) && s != Recovering(FinishedBoot)
    ensures StageOf(stage, Next(cfg, a, c, s).mode)
  {
    hide StageOf;
    match s
    case Submitting(t) => SubmitMode(cfg, a, c, t);
    case Ticking(t) => TickMode(cfg, c, t);
    case Recovering(t) => BootMode(cfg, a, c, t);
  }

  lemma SubmitMode(cfg: Config, a: Address, c: Account, s: SubmitStep)
    requires SubmitEnabled(cfg, c, s)
    ensures SubmitNext(cfg, a, c, s).mode == c.mode
  {
    hide Upsert, KeyFree;
  }

  lemma TickMode(cfg: Config, c: Account, s: TickStep)
    requires TickEnabled(cfg, c, s)
    ensures TickNext(cfg, c, s).mode == c.mode
    ensures TickNext(cfg, c, s).turn == c.turn
  {
    hide Upsert, IsListing;
  }

  lemma BootMode(cfg: Config, a: Address, c: Account, s: BootStep)
    requires BootEnabled(cfg, a, c, s) && !s.Crashed? && !s.Booted? && !s.FinishedBoot?
    ensures forall stage | StageOf(stage, c.mode) :: StageOf(stage, BootNext(cfg, a, c, s).mode)
    ensures BootNext(cfg, a, c, s).turn == c.turn
  {
    hide Upsert, KeyFree;
  }

  /** A turn waits for its write-ahead from its opening to that write. */
  lemma UnwrittenSubmit(cfg: Config, a: Address, c: Account, s: SubmitStep)
    requires SubmitEnabled(cfg, c, s)
    ensures var k := UnwrittenKey(SubmitNext(cfg, a, c, s).turn);
            k.Some? ==> (if s.OpenedTurn? then s.sub.key == k.value else UnwrittenKey(c.turn) == k && !s.WroteAhead?)
  {
    hide Upsert, KeyFree;
  }

  lemma UnwrittenNext(cfg: Config, a: Address, c: Account, s: Step)
    requires Enabled(cfg, a, c, s) && s != Recovering(Crashed) && s != Recovering(Booted)
    requires s != Recovering(FinishedBoot)
    ensures var k := UnwrittenKey(Next(cfg, a, c, s).turn);
            k.Some? ==> (if s.Submitting? && s.s.OpenedTurn? then s.s.sub.key == k.value
                         else UnwrittenKey(c.turn) == k && !(s.Submitting? && s.s.WroteAhead?))
  {
    hide SubmitNext, SubmitEnabled, TickNext, BootNext, TickEnabled, BootEnabled;
    match s
    case Submitting(t) => UnwrittenSubmit(cfg, a, c, t);
    case Ticking(t) => TickMode(cfg, c, t);
    case Recovering(t) => BootMode(cfg, a, c, t);
  }

  lemma AheadIsUnwritten(cfg: Config, a: Address, c: Account, s: Step)
    requires Enabled(cfg, a, c, s) && s.Submitting? && s.s.WroteAhead?
    ensures c.turn.Admitted? && UnwrittenKey(c.turn) == Some(c.turn.sub.key)
    ensures WrittenBy(cfg, a, c, s).Some? && WrittenBy(cfg, a, c, s).value.key == c.turn.sub.key
    ensures WrittenBy(cfg, a, c, s).value.orderingKey == c.turn.sub.orderingKey
  {
  }

  lemma DownIsStill(cfg: Config, a: Address, c: Account, s: Step)
    requires Inv(cfg, a, c) && c.mode.Down? && Enabled(cfg, a, c, s)
    ensures s == Recovering(Crashed) || s == Recovering(Booted)
  {
    hide TablesOk, LaneOk, SentOk, TurnOk, TickOk, RestoreOk, HistoryOk, CapOk, IsListing, KeyFree;
  }

  // ----- one account steps -----

  predicate StepInv(cfg: Config, owned: set<Address>, foreign: map<Key, TxRecord>, p: Pool, a: Address, s: Step) {
    PoolInv(cfg, owned, foreign, p) && StepAllowed(cfg, p, a, s)
  }

  lemma AccountOf(cfg: Config, owned: set<Address>, foreign: map<Key, TxRecord>, p: Pool, a: Address, s: Step)
    requires StepInv(cfg, owned, foreign, p, a, s)
    ensures a in p.accts && Inv(cfg, a, p.accts[a]) && StageOf(p.stage, p.accts[a].mode)
    ensures Enabled(cfg, a, p.accts[a], s)
    ensures s != Recovering(Crashed) && s != Recovering(Booted) && s != Recovering(FinishedBoot)
    ensures a in Views(p.accts) && Views(p.accts)[a] == ViewOf(p.accts[a])
  {
    hide Inv, StoreOk, ForeignOk, BindingsOk, QueueOk, OneAccountPerStream, StageOk, Enabled, KeyUnused, ViewOf;
  }

  lemma StepAccounts(cfg: Config, owned: set<Address>, foreign: map<Key, TxRecord>, p: Pool, a: Address, s: Step)
    requires StepInv(cfg, owned, foreign, p, a, s)
    ensures var q := StepAccount(cfg, p, a, s); q.accts.Keys == owned && AccountsOk(cfg, q.stage, q.accts)
  {
    hide Inv, StoreOk, ForeignOk, BindingsOk, QueueOk, OneAccountPerStream, StageOk, Enabled, Next, StepAllowed, StageOf,
         ViewOf, EffectOf, WrittenBy;
    AccountOf(cfg, owned, foreign, p, a, s);
    StepKeeps(cfg, a, p.accts[a], s);
    StageKept(cfg, a, p.accts[a], s, p.stage);
  }

  /** A row starts under a key that the whole table does not have. */
  lemma NewRowIsNew(cfg: Config, owned: set<Address>, foreign: map<Key, TxRecord>, p: Pool, a: Address, s: Step, r: TxRecord)
    requires StepInv(cfg, owned, foreign, p, a, s) && StartsLife(s) && WrittenBy(cfg, a, p.accts[a], s) == Some(r)
    ensures r.key !in p.store
  {
    hide Inv, StoreOk, ForeignOk, BindingsOk, OneAccountPerStream, StageOk, ViewOf, Enabled, WrittenBy;
    AccountOf(cfg, owned, foreign, p, a, s);
    if s.Submitting? {
      AheadIsUnwritten(cfg, a, p.accts[a], s);
    } else {
      ReattachedWrites(cfg, a, p.accts[a], s.b.rec);
    }
  }

  lemma ReattachedWrites(cfg: Config, a: Address, c: Account, r: TxRecord)
    requires Enabled(cfg, a, c, Recovering(Reattached(r)))
    ensures WrittenBy(cfg, a, c, Recovering(Reattached(r))) == Some(r) && c.mode.Up?
  {
    hide KeyFree, IsPlaceholder;
  }

  /** What a step writes, in terms of the table. */
  lemma StepWrite(cfg: Config, owned: set<Address>, foreign: map<Key, TxRecord>, p: Pool, a: Address, s: Step)
    requires StepInv(cfg, owned, foreign, p, a, s) && WrittenBy(cfg, a, p.accts[a], s).Some?
    ensures var r := WrittenBy(cfg, a, p.accts[a], s).value;
            && r.account == a && Mine(cfg, owned, r)
            && (r.key in p.store ==> !StartsLife(s) && r.key in p.accts[a].rows && p.store[r.key].orderingKey == r.orderingKey)
            && (r.key !in p.store ==> StartsLife(s))
  {
    hide Inv, ForeignOk, BindingsOk, QueueOk, OneAccountPerStream, StageOk, WrittenBy, Enabled, StepAllowed, StartsLife;
    AccountOf(cfg, owned, foreign, p, a, s);
    var c := p.accts[a];
    StepWrites(cfg, a, c, s);
    var r := WrittenBy(cfg, a, c, s).value;
    if StartsLife(s) { NewRowIsNew(cfg, owned, foreign, p, a, s, r); }
  }

  lemma OwnRowIsMine(cfg: Config, store: map<Key, TxRecord>, accts: map<Address, Account>, a: Address, k: Key)
    requires StoreOk(cfg, store, accts) && a in accts
    ensures k in accts[a].rows ==> k in store && store[k] == accts[a].rows[k] && store[k].account == a && Mine(cfg, accts.Keys, store[k])
  {
  }

  lemma ForeignKept(cfg: Config, owned: set<Address>, foreign: map<Key, TxRecord>, store: map<Key, TxRecord>, r: TxRecord)
    requires ForeignOk(cfg, owned, foreign, store)
    requires r.key in store ==> Mine(cfg, owned, store[r.key])
    ensures ForeignOk(cfg, owned, foreign, Upsert(store, r))
  {
  }

  lemma StepStore(cfg: Config, owned: set<Address>, foreign: map<Key, TxRecord>, p: Pool, a: Address, s: Step)
    requires StepInv(cfg, owned, foreign, p, a, s)
    ensures var q := StepAccount(cfg, p, a, s); StoreOk(cfg, q.store, q.accts) && ForeignOk(cfg, owned, foreign, q.store)
  {
    hide Inv, AccountsOk, BindingsOk, QueueOk, OneAccountPerStream, StageOk, WrittenBy, Enabled, Next, StepAllowed, StoreOk,
         ViewOf, EffectOf, StartsLife, ForeignOk, Mine, Upsert;
    AccountOf(cfg, owned, foreign, p, a, s);
    var c := p.accts[a];
    StepRows(cfg, a, c, s);
    if WrittenBy(cfg, a, c, s).Some? {
      var r := WrittenBy(cfg, a, c, s).value;
      StepWrite(cfg, owned, foreign, p, a, s);
      TableWrite(cfg, p.store, p.accts, a, Next(cfg, a, c, s), r);
      OwnRowIsMine(cfg, p.store, p.accts, a, r.key);
      ForeignKept(cfg, owned, foreign, p.store, r);
    } else {
      TableSame(cfg, p.store, p.accts, a, Next(cfg, a, c, s));
    }
  }

  // ----- its effect fits the pool -----

  /** While restoring, a tracked record that is bound is a row of the table. */
  lemma BootSlotIsRow(cfg: Config, owned: set<Address>, foreign: map<Key, TxRecord>, p: Pool, a: Address, n: nat)
    requires PoolInv(cfg, owned, foreign, p) && p.stage.AllBooting? && a in p.accts && n in p.accts[a].tracked
    ensures var r := p.accts[a].tracked[n];
            && r.nonce == n && r.key in p.store && p.store[r.key].account == a
            && p.store[r.key].orderingKey == r.orderingKey && Mine(cfg, owned, p.store[r.key])
  {
    hide Inv, ForeignOk, BindingsOk, QueueOk, OneAccountPerStream, StageOk, StoreOk, ViewOf, Mine;
    BootRow(cfg, a, p.accts[a], n);
    OwnRowIsMine(cfg, p.store, p.accts, a, p.accts[a].tracked[n].key);
  }

  lemma NoReportInBoot(cfg: Config, a: Address, c: Account)
    requires Inv(cfg, a, c) && c.mode.Booting?
    ensures ViewOf(c).report.None?
  {
    RestoreIsIdle(cfg, a, c);
    hide Inv, Slots;
  }

  lemma SlotAt(c: Account, n: nat)
    requires n in ViewOf(c).slots
    ensures n in c.tracked && !Unbound(c.mode, n) && ViewOf(c).slots[n] == SlotOf(c.tracked[n])
  {
  }

  /** While restoring, every token is held by a bound record. */
  lemma BootTokens(cfg: Config, owned: set<Address>, foreign: map<Key, TxRecord>, p: Pool, k: Key) returns (a: Address, n: nat)
    requires PoolInv(cfg, owned, foreign, p) && p.stage.AllBooting? && k in p.tokens
    ensures a in p.accts && n in p.accts[a].tracked && !Unbound(p.accts[a].mode, n)
    ensures SlotOf(p.accts[a].tracked[n]) == Slot(k, Some(p.tokens[k].orderingKey))
    ensures p.tokens[k].orderingKey in p.binds && p.binds[p.tokens[k].orderingKey].account == a
  {
    hide StoreOk, ForeignOk, QueueOk, OneAccountPerStream, Inv, TurnsTicketed, TicketsOk, HoldersHaveTokens, RefsOk, ViewOf, Unbound;
    assert HeldBy(Views(p.accts), p.tickets, k, p.tokens[k]);
    match p.tokens[k].holder {
      case BySubmit => assert false;
      case ByTx(b, m) =>
        a, n := b, m;
        SlotAt(p.accts[b], m);
      case ByReport(b) =>
        NoReportInBoot(cfg, b, p.accts[b]);
        assert false;
    }
  }

  /** The record in hand of a restore. */
  lemma InHandOfBoot(cfg: Config, a: Address, c: Account, n: nat)
    requires Inv(cfg, a, c) && CanRestoreBound(c)
    ensures Holds(c.tracked, c.mode.current.rec)
    ensures n in c.tracked && c.tracked[n].key == c.mode.current.rec.key ==> Unbound(c.mode, n)
  {
    hide LaneOk, SentOk, TurnOk, HistoryOk, CapOk, TickOk, ResendsOk, RowsOk, NoncesDistinct, CacheInStore, StoreInCache, RowOk;
  }

  /** The key of a row about to be bound holds no ref yet. */
  lemma RestoredHasNoToken(cfg: Config, owned: set<Address>, foreign: map<Key, TxRecord>, p: Pool, a: Address)
    requires PoolInv(cfg, owned, foreign, p) && p.stage.AllBooting? && a in p.accts
    requires Inv(cfg, a, p.accts[a]) && CanRestoreBound(p.accts[a])
    ensures p.accts[a].mode.current.rec.key !in p.tokens
  {
    hide PoolInv, Inv, Unbound, Views, ViewOf, Mine;
    var rec := p.accts[a].mode.current.rec;
    if rec.key in p.tokens {
      var b, n := BootTokens(cfg, owned, foreign, p, rec.key);
      BootSlotIsRow(cfg, owned, foreign, p, b, n);
      InHandOfBoot(cfg, a, p.accts[a], n);
      BootSlotIsRow(cfg, owned, foreign, p, a, rec.nonce);
      assert false;
    }
  }

  /** The stream of a row about to be bound is bound nowhere else. */
  lemma RestoredStream(cfg: Config, owned: set<Address>, foreign: map<Key, TxRecord>, p: Pool, a: Address, n: nat, o: OrderingKey)
    requires PoolInv(cfg, owned, foreign, p) && p.stage.AllBooting? && a in p.accts
    requires n in p.accts[a].tracked && p.accts[a].tracked[n].orderingKey == Some(o) && o in p.binds
    ensures p.binds[o].account == a
  {
    hide AccountsOk, StoreOk, ForeignOk, QueueOk, StageOk, BindingsOk, Views, ViewOf, Mine, Unbound;
    PinnedIsOwned(Views(p.accts), p.tickets, p.tokens, p.binds, o);
    var k :| k in p.tokens && p.tokens[k].orderingKey == o;
    var b, m := BootTokens(cfg, owned, foreign, p, k);
    BootSlotIsRow(cfg, owned, foreign, p, b, m);
    BootSlotIsRow(cfg, owned, foreign, p, a, n);
  }

  lemma RestoreFits(cfg: Config, owned: set<Address>, foreign: map<Key, TxRecord>, p: Pool, a: Address)
    requires StepInv(cfg, owned, foreign, p, a, Recovering(RestoredBinding))
    ensures FitsPool(p.tickets, p.tokens, p.binds, a, EffectOf(p.accts[a], Recovering(RestoredBinding)))
  {
    AccountOf(cfg, owned, foreign, p, a, Recovering(RestoredBinding));
    NoTicketsInBoot(cfg, owned, foreign, p);
    hide PoolInv, Inv, Views, ViewOf, Enabled, StepAllowed, EffectOf, CanRestoreBound, FitsPool;
    RestoredEffect(cfg, a, p.accts[a]);
    RestoreBinds(cfg, owned, foreign, p, a);
  }

  lemma RestoredEffect(cfg: Config, a: Address, c: Account)
    requires Enabled(cfg, a, c, Recovering(RestoredBinding))
    ensures CanRestoreBound(c) && c.mode.Booting?
    ensures EffectOf(c, Recovering(RestoredBinding)) == EBind(c.mode.current.rec.nonce, SlotOf(c.mode.current.rec))
  {
  }

  lemma RestoreBinds(cfg: Config, owned: set<Address>, foreign: map<Key, TxRecord>, p: Pool, a: Address)
    requires PoolInv(cfg, owned, foreign, p) && p.stage.AllBooting? && p.tickets == map[] && a in p.accts
    requires Inv(cfg, a, p.accts[a]) && CanRestoreBound(p.accts[a])
    ensures var rec := p.accts[a].mode.current.rec; FitsPool(p.tickets, p.tokens, p.binds, a, EBind(rec.nonce, SlotOf(rec)))
  {
    hide PoolInv, Inv;
    var c := p.accts[a];
    var rec := c.mode.current.rec;
    InHandOfBoot(cfg, a, c, rec.nonce);
    RestoredHasNoToken(cfg, owned, foreign, p, a);
    if rec.orderingKey.Some? && rec.orderingKey.value in p.binds {
      RestoredStream(cfg, owned, foreign, p, a, rec.nonce, rec.orderingKey.value);
    }
  }

  lemma NoTicketsInBoot(cfg: Config, owned: set<Address>, foreign: map<Key, TxRecord>, p: Pool)
    requires PoolInv(cfg, owned, foreign, p) && !p.stage.AllUp?
    ensures p.tickets == map[]
  {
    hide AccountsOk, StoreOk, ForeignOk, QueueOk, OneAccountPerStream, BindingsOk;
  }

  lemma FreeView(c: Account, k: Key)
    requires KeyFree(c, k)
    ensures ViewFree(ViewOf(c), k)
  {
  }

  /** A key that nothing live or unfinished uses holds no ref. */
  lemma UnusedHasNoToken(cfg: Config, owned: set<Address>, foreign: map<Key, TxRecord>, p: Pool, k: Key)
    requires PoolInv(cfg, owned, foreign, p) && KeyUnused(p, k)
    ensures k !in p.tokens
  {
    hide AccountsOk, StoreOk, ForeignOk, QueueOk, OneAccountPerStream, TurnsTicketed, TicketsOk, HoldersHaveTokens, RefsOk, PinsOk,
         KeyFree, ViewOf;
    if k in p.tokens {
      assert HeldBy(Views(p.accts), p.tickets, k, p.tokens[k]);
      match p.tokens[k].holder {
        case BySubmit => assert false;
        case ByTx(b, m) =>
          FreeView(p.accts[b], k);
          assert false;
        case ByReport(b) =>
          FreeView(p.accts[b], k);
          assert false;
      }
    }
  }

  lemma ReattachFits(cfg: Config, owned: set<Address>, foreign: map<Key, TxRecord>, p: Pool, a: Address, r: TxRecord)
    requires StepInv(cfg, owned, foreign, p, a, Recovering(Reattached(r)))
    ensures FitsPool(p.tickets, p.tokens, p.binds, a, EBind(r.nonce, SlotOf(r)))
  {
    hide PoolInv, Enabled;
    UnusedHasNoToken(cfg, owned, foreign, p, r.key);
  }

  lemma OpenFits(cfg: Config, p: Pool, a: Address, sub: Submission)
    requires StepAllowed(cfg, p, a, Submitting(OpenedTurn(sub)))
    ensures FitsPool(p.tickets, p.tokens, p.binds, a, EOpen(Slot(sub.key, sub.orderingKey)))
  {
    hide Enabled;
  }

  predicate IsPoolWide(s: Step) {
    (s.Submitting? && s.s.OpenedTurn?) || (s.Recovering? && (s.b.RestoredBinding? || s.b.Reattached?))
  }

  lemma LocalEffect(c: Account, s: Step)
    requires !IsPoolWide(s)
    ensures !EffectOf(c, s).EOpen? && !EffectOf(c, s).EBind?
  {
  }

  lemma StepFits(cfg: Config, owned: set<Address>, foreign: map<Key, TxRecord>, p: Pool, a: Address, s: Step)
    requires StepInv(cfg, owned, foreign, p, a, s)
    ensures Fits(Views(p.accts), p.tickets, p.tokens, p.binds, a, EffectOf(p.accts[a], s))
  {
    AccountOf(cfg, owned, foreign, p, a, s);
    hide PoolInv, Inv, Views, ViewOf, FitsView, Enabled, StepAllowed, KeyUnused;
    EffectFits(cfg, a, p.accts[a], s);
    if IsPoolWide(s) {
      match s {
        case Submitting(t) => OpenFits(cfg, p, a, t.sub);
        case Recovering(RestoredBinding) => RestoreFits(cfg, owned, foreign, p, a);
        case Recovering(Reattached(r)) => ReattachFits(cfg, owned, foreign, p, a, r);
        case _ =>
      }
    } else {
      hide EffectOf;
      LocalEffect(p.accts[a], s);
    }
  }

  lemma ViewsUpdate(accts: map<Address, Account>, a: Address, c: Account)
    requires a in accts
    ensures Views(accts[a := c]) == Views(accts)[a := ViewOf(c)]
  {
    hide ViewOf;
  }

  lemma StepBindings(cfg: Config, owned: set<Address>, foreign: map<Key, TxRecord>, p: Pool, a: Address, s: Step)
    requires StepInv(cfg, owned, foreign, p, a, s)
    ensures var q := StepAccount(cfg, p, a, s); BindingsOk(Views(q.accts), q.tickets, q.tokens, q.binds)
  {
    hide PoolInv, Inv, ViewOf, EffectOf, Next, WrittenBy, Fits, Views, StepAllowed, Enabled, BindingsOk, TicketsNext, TokensNext, BindsNext;
    AccountOf(cfg, owned, foreign, p, a, s);
    PoolBindingsOk(cfg, owned, foreign, p);
    StepFits(cfg, owned, foreign, p, a, s);
    var e := EffectOf(p.accts[a], s);
    EffectKeeps(Views(p.accts), p.tickets, p.tokens, p.binds, a, e);
    StepView(cfg, a, p.accts[a], s);
    ViewsUpdate(p.accts, a, Next(cfg, a, p.accts[a], s));
    var q := StepAccount(cfg, p, a, s);
    assert Views(q.accts) == Views(p.accts)[a := ViewNext(ViewOf(p.accts[a]), e)];
  }

  lemma PoolBindingsOk(cfg: Config, owned: set<Address>, foreign: map<Key, TxRecord>, p: Pool)
    requires PoolInv(cfg, owned, foreign, p)
    ensures BindingsOk(Views(p.accts), p.tickets, p.tokens, p.binds)
  {
    hide AccountsOk, StoreOk, ForeignOk, QueueOk, OneAccountPerStream, StageOk, BindingsOk, Views;
  }

  // ----- keys on their way -----

  /** An effect frees no key that waits: only the turn's own key and a bound one come in. */
  lemma EffectFrees(v: View, e: Effect, k: Key)
    requires ViewFree(v, k)
    requires e.ELand? && v.turn.Some? ==> v.turn.value.key != k
    requires e.EBind? ==> e.slot.key != k
    ensures ViewFree(ViewNext(v, e), k)
  {
  }

  /** A ticket that waits after a step waited before it. */
  lemma QueueShrinks(tickets: map<Key, Ticket>, v: View, e: Effect, k: Key)
    requires k in TicketsNext(tickets, v, e) && TicketsNext(tickets, v, e)[k].phase.InQueue?
    ensures k in tickets && tickets[k].phase.InQueue? && (e.EOpen? ==> e.slot.key != k)
  {
  }

  lemma QueuedStaysFree(views: map<Address, View>, tickets: map<Key, Ticket>, tokens: map<Key, Token>,
                        binds: map<OrderingKey, Binding>, a: Address, e: Effect, k: Key)
    requires a in views && TurnsTicketed(views, tickets) && FitsPool(tickets, tokens, binds, a, e)
    requires k in tickets && tickets[k].phase.InQueue? && ViewFree(views[a], k)
    ensures ViewFree(ViewNext(views[a], e), k)
  {
    EffectFrees(views[a], e, k);
  }

  lemma StepQueueViews(cfg: Config, owned: set<Address>, foreign: map<Key, TxRecord>, p: Pool, a: Address, s: Step, k: Key, b: Address)
    requires StepInv(cfg, owned, foreign, p, a, s)
    requires var q := StepAccount(cfg, p, a, s); k in q.tickets && q.tickets[k].phase.InQueue? && b in q.accts
    ensures var q := StepAccount(cfg, p, a, s); ViewFree(ViewOf(q.accts[b]), k)
    ensures k in p.tickets && p.tickets[k].phase.InQueue?
    ensures s.Submitting? && s.s.OpenedTurn? ==> k != s.s.sub.key
  {
    AccountOf(cfg, owned, foreign, p, a, s);
    QueueOf(cfg, owned, foreign, p, k, b);
    PoolBindingsOk(cfg, owned, foreign, p);
    hide PoolInv, Inv, ViewOf, Next, WrittenBy, ViewFree, Views, Enabled, TicketsNext, TokensNext, BindsNext, ViewNext,
         TicketsOk, TokensHeld, HoldersHaveTokens, RefsOk, PinsOk, StepAllowed, FitsPool, FitsView, TurnsTicketed;
    var e := EffectOf(p.accts[a], s);
    QueueShrinks(p.tickets, ViewOf(p.accts[a]), e, k);
    QueueOf(cfg, owned, foreign, p, k, b);
    if b == a {
      StepFits(cfg, owned, foreign, p, a, s);
      QueuedStaysFree(Views(p.accts), p.tickets, p.tokens, p.binds, a, e, k);
      StepView(cfg, a, p.accts[a], s);
    }
  }

  lemma QueueOf(cfg: Config, owned: set<Address>, foreign: map<Key, TxRecord>, p: Pool, k: Key, b: Address)
    requires PoolInv(cfg, owned, foreign, p)
    ensures k in p.tickets && p.tickets[k].phase.InQueue? ==> k !in p.store && (b in p.accts ==> ViewFree(ViewOf(p.accts[b]), k))
    ensures b in p.accts && UnwrittenKey(p.accts[b].turn).Some? ==> UnwrittenKey(p.accts[b].turn).value !in p.store
  {
    hide AccountsOk, StoreOk, ForeignOk, BindingsOk, OneAccountPerStream, StageOk, ViewFree, ViewOf;
  }

  /** The key of a turn has a ticket with that turn. */
  lemma TurnTicket(cfg: Config, owned: set<Address>, foreign: map<Key, TxRecord>, p: Pool, b: Address)
    requires PoolInv(cfg, owned, foreign, p) && b in p.accts && !p.accts[b].turn.Idle?
    ensures var slot := TurnSlot(p.accts[b].turn).value;
            slot.key in p.tickets && p.tickets[slot.key].account == b && p.tickets[slot.key].phase.InTurn?
            && p.tickets[slot.key].sub.orderingKey == slot.orderingKey
  {
    hide AccountsOk, StoreOk, ForeignOk, QueueOk, OneAccountPerStream, StageOk, TicketsOk, TokensHeld, HoldersHaveTokens, RefsOk, PinsOk;
    assert Views(p.accts)[b].turn == TurnSlot(p.accts[b].turn);
  }

  /** What a step adds to the table is a key of no other turn and of no waiting submit. */
  lemma WriteIsOwn(cfg: Config, owned: set<Address>, foreign: map<Key, TxRecord>, p: Pool, a: Address, s: Step)
    requires StepInv(cfg, owned, foreign, p, a, s) && WrittenBy(cfg, a, p.accts[a], s).Some?
    ensures var k := WrittenBy(cfg, a, p.accts[a], s).value.key;
            || k in p.store
            || (s.Submitting? && s.s.WroteAhead? && UnwrittenKey(p.accts[a].turn) == Some(k)
                && k in p.tickets && p.tickets[k].account == a && p.tickets[k].phase.InTurn?)
            || (s.Recovering? && s.b.Reattached? && k !in p.tickets)
  {
    hide PoolInv, Inv, ViewOf, WrittenBy, Enabled, Mine;
    AccountOf(cfg, owned, foreign, p, a, s);
    StepWrite(cfg, owned, foreign, p, a, s);
    if StartsLife(s) {
      if s.Submitting? {
        AheadIsUnwritten(cfg, a, p.accts[a], s);
        TurnTicket(cfg, owned, foreign, p, a);
      } else {
        ReattachedWrites(cfg, a, p.accts[a], s.b.rec);
      }
    }
  }

  lemma StepAccountAt(cfg: Config, p: Pool, a: Address, s: Step, b: Address)
    requires StepAllowed(cfg, p, a, s) && b in p.accts
    ensures a in p.accts && Enabled(cfg, a, p.accts[a], s)
    ensures b in StepAccount(cfg, p, a, s).accts
    ensures StepAccount(cfg, p, a, s).accts[b] == if b == a then Next(cfg, a, p.accts[a], s) else p.accts[b]
  {
    hide Enabled, Next, ViewOf, TicketsNext, TokensNext, BindsNext, EffectOf, WrittenBy, KeyUnused;
  }

  /** A submit whose turn opens was waiting for it. */
  lemma OpenedTicket(cfg: Config, owned: set<Address>, foreign: map<Key, TxRecord>, p: Pool, a: Address, s: Step)
    requires StepInv(cfg, owned, foreign, p, a, s) && s.Submitting? && s.s.OpenedTurn?
    ensures var k := s.s.sub.key; k in p.tickets && p.tickets[k].account == a && k !in p.store
  {
    hide AccountsOk, StoreOk, ForeignOk, BindingsOk, OneAccountPerStream, StageOk, ViewFree, ViewOf, Enabled;
  }

  /** The key of a turn that waits for its write-ahead, before and after a step. */
  lemma UnwrittenBefore(cfg: Config, owned: set<Address>, foreign: map<Key, TxRecord>, p: Pool, a: Address, s: Step, b: Address, k: Key)
    requires StepInv(cfg, owned, foreign, p, a, s) && b in p.accts
    requires UnwrittenKey(StepAccount(cfg, p, a, s).accts[b].turn) == Some(k)
    ensures k !in p.store && k in p.tickets && p.tickets[k].account == b
    ensures b == a ==> !(s.Submitting? && s.s.WroteAhead?)
  {
    hide PoolInv, Inv, ViewOf, Enabled, Next, StepAccount, StepAllowed;
    AccountOf(cfg, owned, foreign, p, a, s);
    StepAccountAt(cfg, p, a, s, b);
    if b == a { UnwrittenNext(cfg, a, p.accts[a], s); }
    if b == a && s.Submitting? && s.s.OpenedTurn? {
      OpenedTicket(cfg, owned, foreign, p, a, s);
    } else {
      QueueOf(cfg, owned, foreign, p, k, b);
      TurnTicket(cfg, owned, foreign, p, b);
    }
  }

  lemma NotWritten(store: map<Key, TxRecord>, r: Option<TxRecord>, k: Key)
    requires k !in store && (r.Some? ==> r.value.key != k)
    ensures k !in UpsertSome(store, r)
  {
  }

  lemma StepWritesStore(cfg: Config, p: Pool, a: Address, s: Step)
    requires StepAllowed(cfg, p, a, s)
    ensures StepAccount(cfg, p, a, s).store == UpsertSome(p.store, WrittenBy(cfg, a, p.accts[a], s))
    ensures StepAccount(cfg, p, a, s).accts.Keys == p.accts.Keys
  {
    hide Enabled, Next, ViewOf, TicketsNext, TokensNext, BindsNext, EffectOf, WrittenBy, UpsertSome;
  }

  lemma StepUnwritten(cfg: Config, owned: set<Address>, foreign: map<Key, TxRecord>, p: Pool, a: Address, s: Step, b: Address, k: Key)
    requires StepInv(cfg, owned, foreign, p, a, s) && b in p.accts
    requires UnwrittenKey(StepAccount(cfg, p, a, s).accts[b].turn) == Some(k)
    ensures k !in StepAccount(cfg, p, a, s).store
  {
    hide PoolInv, Inv, ViewOf, WrittenBy, Enabled, StepAllowed, StepAccount, UnwrittenKey, UpsertSome;
    AccountOf(cfg, owned, foreign, p, a, s);
    UnwrittenBefore(cfg, owned, foreign, p, a, s, b, k);
    if WrittenBy(cfg, a, p.accts[a], s).Some? { WriteIsOwn(cfg, owned, foreign, p, a, s); }
    NotWritten(p.store, WrittenBy(cfg, a, p.accts[a], s), k);
    StepWritesStore(cfg, p, a, s);
  }

  lemma StepQueueStore(cfg: Config, owned: set<Address>, foreign: map<Key, TxRecord>, p: Pool, a: Address, s: Step, k: Key)
    requires StepInv(cfg, owned, foreign, p, a, s)
    requires k in StepAccount(cfg, p, a, s).tickets && StepAccount(cfg, p, a, s).tickets[k].phase.InQueue?
    ensures k !in StepAccount(cfg, p, a, s).store
  {
    hide PoolInv, Inv, ViewOf, WrittenBy, Enabled, StepAllowed, StepAccount, ViewFree, UnwrittenKey, UpsertSome;
    AccountOf(cfg, owned, foreign, p, a, s);
    StepWritesStore(cfg, p, a, s);
    StepQueueViews(cfg, owned, foreign, p, a, s, k, a);
    QueueOf(cfg, owned, foreign, p, k, a);
    if WrittenBy(cfg, a, p.accts[a], s).Some? { WriteIsOwn(cfg, owned, foreign, p, a, s); }
    NotWritten(p.store, WrittenBy(cfg, a, p.accts[a], s), k);
  }

  lemma StepQueue(cfg: Config, owned: set<Address>, foreign: map<Key, TxRecord>, p: Pool, a: Address, s: Step)
    requires StepInv(cfg, owned, foreign, p, a, s)
    ensures var q := StepAccount(cfg, p, a, s); QueueOk(q.store, q.accts, q.tickets)
  {
    hide PoolInv, Inv, ViewOf, Enabled, StepAccount, ViewFree, UnwrittenKey, StepAllowed, UpsertSome, WrittenBy;
    var q := StepAccount(cfg, p, a, s);
    StepWritesStore(cfg, p, a, s);
    forall k | k in q.tickets && q.tickets[k].phase.InQueue?
      ensures k !in q.store && forall b | b in q.accts :: ViewFree(ViewOf(q.accts[b]), k)
    {
      StepQueueStore(cfg, owned, foreign, p, a, s, k);
      forall b | b in q.accts ensures ViewFree(ViewOf(q.accts[b]), k) {
        StepQueueViews(cfg, owned, foreign, p, a, s, k, b);
      }
    }
    forall b | b in q.accts && UnwrittenKey(q.accts[b].turn).Some? ensures UnwrittenKey(q.accts[b].turn).value !in q.store {
      StepUnwritten(cfg, owned, foreign, p, a, s, b, UnwrittenKey(q.accts[b].turn).value);
    }
  }

  // ----- streams -----

  /** The stream of a new row is bound to its account. */
  lemma NewRowIsPinned(cfg: Config, owned: set<Address>, foreign: map<Key, TxRecord>, p: Pool, a: Address, s: Step, o: OrderingKey)
    requires StepInv(cfg, owned, foreign, p, a, s) && StartsLife(s) && o in p.binds
    requires WrittenBy(cfg, a, p.accts[a], s).Some? && WrittenBy(cfg, a, p.accts[a], s).value.orderingKey == Some(o)
    ensures p.binds[o].account == a && p.stage.AllUp?
  {
    AccountOf(cfg, owned, foreign, p, a, s);
    PoolBindingsOk(cfg, owned, foreign, p);
    hide PoolInv, Inv, WrittenBy, Enabled;
    if s.Submitting? {
      AheadIsUnwritten(cfg, a, p.accts[a], s);
      TurnTicket(cfg, owned, foreign, p, a);
      if !p.stage.AllUp? { NoTicketsInBoot(cfg, owned, foreign, p); }
      hide ViewOf, TurnsTicketed, TicketsOk, TokensHeld, RefsOk, Views, StepAllowed;
      var k := p.accts[a].turn.sub.key;
      NotLanded(p.accts, a);
      assert HasToken(p.tokens, Slot(k, p.tickets[k].sub.orderingKey), BySubmit);
    } else {
      ReattachedWrites(cfg, a, p.accts[a], s.b.rec);
    }
  }

  lemma NotLanded(accts: map<Address, Account>, a: Address)
    requires a in accts && !accts[a].turn.Landed?
    ensures a in Views(accts) && !Views(accts)[a].landed
  {
  }

  lemma StartIsUp(cfg: Config, owned: set<Address>, foreign: map<Key, TxRecord>, p: Pool, a: Address, s: Step)
    requires StepInv(cfg, owned, foreign, p, a, s) && StartsLife(s)
    ensures p.stage.AllUp?
  {
    AccountOf(cfg, owned, foreign, p, a, s);
    hide PoolInv, Inv, WrittenBy, Enabled;
    if s.Submitting? {
      AheadIsUnwritten(cfg, a, p.accts[a], s);
      TurnTicket(cfg, owned, foreign, p, a);
      if !p.stage.AllUp? { NoTicketsInBoot(cfg, owned, foreign, p); }
    } else {
      ReattachedWrites(cfg, a, p.accts[a], s.b.rec);
    }
  }

  /** Every live row of the stream that a row is written to sits on the row's account. */
  lemma WriteKeepsStream(cfg: Config, owned: set<Address>, foreign: map<Key, TxRecord>, p: Pool, a: Address, s: Step, l: Key)
    requires StepInv(cfg, owned, foreign, p, a, s) && WrittenBy(cfg, a, p.accts[a], s).Some?
    requires WrittenBy(cfg, a, p.accts[a], s).value.orderingKey.Some?
    requires l in p.store && Mine(cfg, owned, p.store[l])
    requires p.store[l].orderingKey == WrittenBy(cfg, a, p.accts[a], s).value.orderingKey
    ensures p.store[l].account == a
  {
    AccountOf(cfg, owned, foreign, p, a, s);
    StepWrite(cfg, owned, foreign, p, a, s);
    hide AccountsOk, ForeignOk, BindingsOk, QueueOk, StageOk, StoreOk, Inv, WrittenBy, Enabled, StepAllowed, ViewOf, StartsLife;
    var r := WrittenBy(cfg, a, p.accts[a], s).value;
    if r.key in p.store {
      OwnRowIsMine(cfg, p.store, p.accts, a, r.key);
    } else {
      hide OneAccountPerStream;
      StartIsUp(cfg, owned, foreign, p, a, s);
      RowIsPinned(cfg, owned, foreign, p, l);
      NewRowIsPinned(cfg, owned, foreign, p, a, s, r.orderingKey.value);
    }
  }

  lemma StreamWrite(cfg: Config, owned: set<Address>, store: map<Key, TxRecord>, r: TxRecord)
    requires OneAccountPerStream(cfg, owned, store)
    requires r.orderingKey.Some? ==>
      forall l | l in store && Mine(cfg, owned, store[l]) && store[l].orderingKey == r.orderingKey :: store[l].account == r.account
    ensures OneAccountPerStream(cfg, owned, Upsert(store, r))
  {
  }

  lemma StepStreams(cfg: Config, owned: set<Address>, foreign: map<Key, TxRecord>, p: Pool, a: Address, s: Step)
    requires StepInv(cfg, owned, foreign, p, a, s)
    ensures OneAccountPerStream(cfg, owned, StepAccount(cfg, p, a, s).store)
  {
    AccountOf(cfg, owned, foreign, p, a, s);
    StreamsOf(cfg, owned, foreign, p);
    hide PoolInv, Inv, WrittenBy, Enabled, StepAllowed, ViewOf, OneAccountPerStream, Upsert, Mine, Next,
         TicketsNext, TokensNext, BindsNext, EffectOf;
    if WrittenBy(cfg, a, p.accts[a], s).Some? {
      var r := WrittenBy(cfg, a, p.accts[a], s).value;
      StepWrite(cfg, owned, foreign, p, a, s);
      if r.orderingKey.Some? {
        forall l | l in p.store && Mine(cfg, owned, p.store[l]) && p.store[l].orderingKey == r.orderingKey
          ensures p.store[l].account == r.account
        {
          WriteKeepsStream(cfg, owned, foreign, p, a, s, l);
        }
      }
      StreamWrite(cfg, owned, p.store, r);
    }
  }

  lemma StreamsOf(cfg: Config, owned: set<Address>, foreign: map<Key, TxRecord>, p: Pool)
    requires PoolInv(cfg, owned, foreign, p)
    ensures OneAccountPerStream(cfg, owned, p.store)
  {
    hide AccountsOk, StoreOk, ForeignOk, BindingsOk, QueueOk, OneAccountPerStream, StageOk;
  }

  // ----- stages -----

  lemma NoTicketsComeIn(v: View, e: Effect)
    ensures TicketsNext(map[], v, e) == map[]
  {
  }

  lemma StepStage(cfg: Config, owned: set<Address>, foreign: map<Key, TxRecord>, p: Pool, a: Address, s: Step)
    requires StepInv(cfg, owned, foreign, p, a, s)
    ensures StageOk(StepAccount(cfg, p, a, s))
  {
    AccountOf(cfg, owned, foreign, p, a, s);
    if !p.stage.AllUp? { NoTicketsInBoot(cfg, owned, foreign, p); }
    hide PoolInv, Inv, WrittenBy, Enabled, StepAllowed, ViewOf, Next, EffectOf, TicketsNext, TokensNext, BindsNext;
    NoTicketsComeIn(ViewOf(p.accts[a]), EffectOf(p.accts[a], s));
    if p.stage.AllDown? {
      DownIsStill(cfg, a, p.accts[a], s);
      assert false;
    }
  }

  lemma StepAccountKeeps(cfg: Config, owned: set<Address>, foreign: map<Key, TxRecord>, p: Pool, a: Address, s: Step)
    requires StepInv(cfg, owned, foreign, p, a, s)
    ensures PoolInv(cfg, owned, foreign, StepAccount(cfg, p, a, s))
  {
    AccountOf(cfg, owned, foreign, p, a, s);
    hide StepInv, AccountsOk, StoreOk, ForeignOk, BindingsOk, QueueOk, OneAccountPerStream, StageOk, StepAccount, Inv, ViewOf, Enabled;
    StepAccounts(cfg, owned, foreign, p, a, s);
    StepStore(cfg, owned, foreign, p, a, s);
    StepBindings(cfg, owned, foreign, p, a, s);
    StepQueue(cfg, owned, foreign, p, a, s);
    StepStreams(cfg, owned, foreign, p, a, s);
    StepStage(cfg, owned, foreign, p, a, s);
  }

  // ----- the steps of the pool itself -----

  lemma RouteQueue(store: map<Key, TxRecord>, accts: map<Address, Account>, tickets: map<Key, Ticket>, t: Ticket)
    requires QueueOk(store, accts, tickets) && t.sub.key !in store
    requires forall a | a in accts :: KeyFree(accts[a], t.sub.key)
    ensures QueueOk(store, accts, tickets[t.sub.key := t])
  {
    hide KeyFree, ViewOf, ViewFree, UnwrittenKey;
    forall a | a in accts ensures ViewFree(ViewOf(accts[a]), t.sub.key) {
      FreeView(accts[a], t.sub.key);
    }
  }

  lemma RoutedKeeps(cfg: Config, owned: set<Address>, foreign: map<Key, TxRecord>, p: Pool, sub: Submission, prefer: Address)
    requires PoolInv(cfg, owned, foreign, p) && PoolEnabled(cfg, p, Routed(sub, prefer))
    ensures PoolInv(cfg, owned, foreign, Route(p, sub, prefer))
  {
    UnusedHasNoToken(cfg, owned, foreign, p, sub.key);
    hide AccountsOk, StoreOk, ForeignOk, BindingsOk, OneAccountPerStream, QueueOk, ViewOf, KeyFree, BindSome, AddToken, Target;
    RouteKeeps(Views(p.accts), p.tickets, p.tokens, p.binds, sub, prefer);
    RouteQueue(p.store, p.accts, p.tickets, Ticket(sub, Target(p.binds, sub.orderingKey, prefer), InQueue));
  }

  lemma ReleasedKeeps(cfg: Config, owned: set<Address>, foreign: map<Key, TxRecord>, p: Pool, k: Key)
    requires PoolInv(cfg, owned, foreign, p) && PoolEnabled(cfg, p, Released(k))
    ensures PoolInv(cfg, owned, foreign, ReleaseFailed(p, k))
  {
    hide AccountsOk, StoreOk, ForeignOk, BindingsOk, OneAccountPerStream, ViewOf, ViewFree, UnwrittenKey;
    ReleaseKeeps(Views(p.accts), p.tickets, p.tokens, p.binds, k);
  }

  lemma NothingBound(views: map<Address, View>)
    requires forall a | a in views :: views[a] == View(map[], None, None, false)
    ensures BindingsOk(views, map[], map[], map[])
  {
  }

  lemma CrashView(c: Account)
    ensures ViewOf(Crash(c)) == View(map[], None, None, false) && UnwrittenKey(Crash(c).turn) == None
  {
    assert Slots(Down, map[]) == map[];
  }

  /** The same rows under every account: the table still matches. */
  lemma SameRows(cfg: Config, owned: set<Address>, foreign: map<Key, TxRecord>, p: Pool, accts: map<Address, Account>)
    requires PoolInv(cfg, owned, foreign, p) && accts.Keys == p.accts.Keys
    requires forall a | a in accts :: accts[a].rows == p.accts[a].rows
    ensures StoreOk(cfg, p.store, accts) && ForeignOk(cfg, owned, foreign, p.store)
    ensures OneAccountPerStream(cfg, owned, p.store)
  {
    hide AccountsOk, BindingsOk, QueueOk, StageOk, OneAccountPerStream, ForeignOk;
  }

  /** With no submit under way, only the turns matter to the queue. */
  lemma SameQueue(store: map<Key, TxRecord>, accts: map<Address, Account>, next: map<Address, Account>, tickets: map<Key, Ticket>)
    requires QueueOk(store, accts, tickets) && next.Keys == accts.Keys
    requires forall a | a in next :: next[a].turn == accts[a].turn || next[a].turn.Idle?
    ensures QueueOk(store, next, map[])
  {
    hide ViewFree, ViewOf;
  }

  lemma AccountsCrash(cfg: Config, stage: Stage, accts: map<Address, Account>, down: map<Address, Account>)
    requires AccountsOk(cfg, stage, accts) && down == map a | a in accts :: Crash(accts[a])
    ensures AccountsOk(cfg, AllDown, down)
    ensures forall a | a in Views(down) :: Views(down)[a] == View(map[], None, None, false)
  {
    hide Inv, ViewOf;
    forall a | a in down ensures Inv(cfg, a, down[a]) && ViewOf(down[a]) == View(map[], None, None, false) {
      CrashKeeps(cfg, a, accts[a]);
      CrashView(accts[a]);
    }
  }

  lemma ProcessCrashedKeeps(cfg: Config, owned: set<Address>, foreign: map<Key, TxRecord>, p: Pool)
    requires PoolInv(cfg, owned, foreign, p)
    ensures PoolInv(cfg, owned, foreign, CrashPool(p))
  {
    hide AccountsOk, StoreOk, ForeignOk, OneAccountPerStream, ViewOf, Views, UnwrittenKey, BindingsOk, QueueOk;
    var q := CrashPool(p);
    SameRows(cfg, owned, foreign, p, q.accts);
    AccountsCrash(cfg, p.stage, p.accts, q.accts);
    NothingBound(Views(q.accts));
    SameQueue(p.store, p.accts, q.accts, p.tickets);
  }

  lemma AccountsBoot(cfg: Config, accts: map<Address, Account>, next: map<Address, Account>)
    requires AccountsOk(cfg, AllDown, accts) && next == map a | a in accts :: Boot(accts[a])
    ensures AccountsOk(cfg, AllBooting, next)
    ensures Views(next) == Views(accts)
  {
    hide Inv, ViewOf;
    forall a | a in next ensures Inv(cfg, a, next[a]) && ViewOf(next[a]) == ViewOf(accts[a]) {
      BootKeeps(cfg, a, accts[a]);
      ModeView(accts[a], Booting(accts[a].rows, NoRow));
    }
  }

  lemma RestoreBeganKeeps(cfg: Config, owned: set<Address>, foreign: map<Key, TxRecord>, p: Pool)
    requires PoolInv(cfg, owned, foreign, p) && p.stage.AllDown?
    ensures PoolInv(cfg, owned, foreign, BeginRestore(p))
  {
    hide AccountsOk, StoreOk, ForeignOk, OneAccountPerStream, ViewOf, UnwrittenKey, BindingsOk, QueueOk, Views;
    var q := BeginRestore(p);
    SameRows(cfg, owned, foreign, p, q.accts);
    AccountsBoot(cfg, p.accts, q.accts);
    SameQueue(p.store, p.accts, q.accts, p.tickets);
  }

  lemma AccountsUp(cfg: Config, accts: map<Address, Account>, next: map<Address, Account>)
    requires AccountsOk(cfg, AllBooting, accts) && next == map a | a in accts :: FinishBoot(accts[a])
    requires forall a | a in accts :: CanFinishBoot(accts[a])
    ensures AccountsOk(cfg, AllUp, next)
    ensures Views(next) == Views(accts)
  {
    hide Inv, ViewOf;
    forall a | a in next ensures Inv(cfg, a, next[a]) && ViewOf(next[a]) == ViewOf(accts[a]) {
      FinishBootKeeps(cfg, a, accts[a]);
      ModeView(accts[a], Up);
    }
  }

  lemma RestoreEndedKeeps(cfg: Config, owned: set<Address>, foreign: map<Key, TxRecord>, p: Pool)
    requires PoolInv(cfg, owned, foreign, p) && PoolEnabled(cfg, p, RestoreEnded)
    ensures PoolInv(cfg, owned, foreign, EndRestore(p))
  {
    hide AccountsOk, StoreOk, ForeignOk, OneAccountPerStream, ViewOf, UnwrittenKey, BindingsOk, QueueOk, Views, CanFinishBoot;
    var q := EndRestore(p);
    SameRows(cfg, owned, foreign, p, q.accts);
    AccountsUp(cfg, p.accts, q.accts);
    SameQueue(p.store, p.accts, q.accts, p.tickets);
  }

  lemma PoolStepKeeps(cfg: Config, owned: set<Address>, foreign: map<Key, TxRecord>, p: Pool, s: PoolStep)
    requires PoolInv(cfg, owned, foreign, p) && PoolEnabled(cfg, p, s)
    ensures PoolInv(cfg, owned, foreign, PoolNext(cfg, p, s))
  {
    hide PoolInv, StepAllowed, StepAccount, KeyUnused;
    match s
    case Routed(sub, prefer) => RoutedKeeps(cfg, owned, foreign, p, sub, prefer);
    case Released(k) => ReleasedKeeps(cfg, owned, foreign, p, k);
    case Stepped(a, t) => StepAccountKeeps(cfg, owned, foreign, p, a, t);
    case ProcessCrashed => ProcessCrashedKeeps(cfg, owned, foreign, p);
    case RestoreBegan => RestoreBeganKeeps(cfg, owned, foreign, p);
    case RestoreEnded => RestoreEndedKeeps(cfg, owned, foreign, p);
  }

  lemma NewPoolOk(cfg: Config, owned: set<Address>, foreign: map<Key, TxRecord>)
    requires forall k | k in foreign :: !Mine(cfg, owned, foreign[k])
    ensures PoolInv(cfg, owned, foreign, NewPool(owned, foreign))
  {
    var p := NewPool(owned, foreign);
    hide Inv;
    forall a | a in owned ensures Inv(cfg, a, NewAccount) && ViewOf(NewAccount) == View(map[], None, None, false) {
      NewAccountOk(cfg, a);
      CrashView(NewAccount);
    }
    hide ViewOf;
    NothingBound(Views(p.accts));
  }

  /** The pool's invariant holds in every state of every run. */
  lemma {:induction false} PoolRunKeeps(cfg: Config, owned: set<Address>, foreign: map<Key, TxRecord>, steps: seq<PoolStep>)
    requires forall k | k in foreign :: !Mine(cfg, owned, foreign[k])
    requires PoolRun(cfg, owned, foreign, steps).Ok?
    ensures PoolInv(cfg, owned, foreign, PoolRun(cfg, owned, foreign, steps).value)
  {
    NewPoolOk(cfg, owned, foreign);
    hide PoolInv, PoolEnabled, PoolNext;
    if steps != [] {
      var before := steps[..|steps| - 1];
      PoolRunKeeps(cfg, owned, foreign, before);
      PoolStepKeeps(cfg, owned, foreign, PoolRun(cfg, owned, foreign, before).value, steps[|steps| - 1]);
    }
  }
}
