/** What holds of the whole pool in every state of every run. */
module PoolTheorems {
  import opened Records
  import opened AccountProtocol
  import opened AccountInvariant
  import opened AccountWrites
  import opened AccountSteps
  import opened AccountTheorems
  import opened AccountScripts
  import opened AccountHistory
  import opened Outcomes
  import opened PoolProtocol
  import opened PoolBindings
  import opened PoolViews
  import opened PoolInvariant
  import opened PoolSteps

  /** The rows another pool put into the shared table. */
  predicate AllForeign(cfg: Config, owned: set<Address>, foreign: map<Key, TxRecord>) {
    forall k | k in foreign :: !Mine(cfg, owned, foreign[k])
  }

  // ----- the accounts of a pool run -----

  /** The steps a run of the pool takes on one account. */
  function StepsOf(a: Address, steps: seq<PoolStep>): seq<Step> {
    if steps == [] then []
    else
      StepsOf(a, steps[..|steps| - 1]) +
      match steps[|steps| - 1]
      case Stepped(b, t) => if a == b then [t] else []
      case ProcessCrashed => [Recovering(Crashed)]
      case RestoreBegan => [Recovering(Booted)]
      case RestoreEnded => [Recovering(FinishedBoot)]
      case _ => []
  }

  lemma AccountStep(cfg: Config, owned: set<Address>, foreign: map<Key, TxRecord>, p: Pool, a: Address, s: PoolStep, before: seq<Step>)
    requires PoolInv(cfg, owned, foreign, p) && PoolEnabled(cfg, p, s) && a in owned
    requires Run(cfg, a, before) == Ok(p.accts[a])
    ensures a in PoolNext(cfg, p, s).accts
    ensures Run(cfg, a, before + match s
                                 case Stepped(b, t) => if a == b then [t] else []
                                 case ProcessCrashed => [Recovering(Crashed)]
                                 case RestoreBegan => [Recovering(Booted)]
                                 case RestoreEnded => [Recovering(FinishedBoot)]
                                 case _ => []) == Ok(PoolNext(cfg, p, s).accts[a])
  {
    hide Inv, StoreOk, ForeignOk, BindingsOk, QueueOk, OneAccountPerStream, StageOk, CanFinishBoot, KeyUnused, Crash, Boot, FinishBoot, Run,
         ViewOf, EffectOf, TicketsNext, TokensNext, BindsNext, WrittenBy, SubmitEnabled, TickEnabled, SubmitNext, TickNext;
    assert before + [] == before;
    match s
    case Stepped(b, t) => if a == b { RunAppend(cfg, a, before, t); }
    case ProcessCrashed => RunAppend(cfg, a, before, Recovering(Crashed));
    case RestoreBegan => RunAppend(cfg, a, before, Recovering(Booted));
    case RestoreEnded => RunAppend(cfg, a, before, Recovering(FinishedBoot));
    case _ =>
  }

  /** In a run of the pool every account runs by itself: what holds of all runs of one account
      holds of it inside the pool. */
  lemma {:induction false} AccountsRunAlone(cfg: Config, owned: set<Address>, foreign: map<Key, TxRecord>, steps: seq<PoolStep>, a: Address)
    requires AllForeign(cfg, owned, foreign) && PoolRun(cfg, owned, foreign, steps).Ok? && a in owned
    ensures a in PoolRun(cfg, owned, foreign, steps).value.accts
    ensures Run(cfg, a, StepsOf(a, steps)) == Ok(PoolRun(cfg, owned, foreign, steps).value.accts[a])
  {
    hide PoolInv, PoolEnabled, PoolNext, Enabled, Next;
    if steps != [] {
      var before := steps[..|steps| - 1];
      AccountsRunAlone(cfg, owned, foreign, before, a);
      PoolRunKeeps(cfg, owned, foreign, before);
      AccountStep(cfg, owned, foreign, PoolRun(cfg, owned, foreign, before).value, a, steps[|steps| - 1], StepsOf(a, before));
    }
  }

  // ----- the shared table -----

  /** The live rows of one account in the table. */
  function RowsOf(cfg: Config, owned: set<Address>, store: map<Key, TxRecord>, a: Address): map<Key, TxRecord> {
    map k | k in store && Mine(cfg, owned, store[k]) && store[k].account == a :: store[k]
  }

  lemma ShareOfTable(cfg: Config, owned: set<Address>, foreign: map<Key, TxRecord>, p: Pool, a: Address)
    requires PoolInv(cfg, owned, foreign, p) && a in owned
    ensures a in p.accts && RowsOf(cfg, owned, p.store, a) == p.accts[a].rows
  {
    hide AccountsOk, ForeignOk, BindingsOk, QueueOk, OneAccountPerStream, StageOk;
  }

  /** No step of this pool writes a row of another owner, chain or account. */
  lemma ForeignRowsUntouched(cfg: Config, owned: set<Address>, foreign: map<Key, TxRecord>, steps: seq<PoolStep>, p: Pool, k: Key)
    requires AllForeign(cfg, owned, foreign) && PoolRun(cfg, owned, foreign, steps) == Ok(p)
    ensures k in foreign ==> k in p.store && p.store[k] == foreign[k]
  {
    PoolRunKeeps(cfg, owned, foreign, steps);
    hide PoolRun, AccountsOk, StoreOk, BindingsOk, QueueOk, OneAccountPerStream, StageOk;
  }

  /** In the table too, an account and a nonce name at most one live row. */
  lemma OneRowPerNonce(cfg: Config, owned: set<Address>, foreign: map<Key, TxRecord>, steps: seq<PoolStep>, p: Pool, k: Key, l: Key)
    requires AllForeign(cfg, owned, foreign) && PoolRun(cfg, owned, foreign, steps) == Ok(p)
    requires k in p.store && l in p.store && Mine(cfg, owned, p.store[k]) && Mine(cfg, owned, p.store[l])
    ensures p.store[k].account == p.store[l].account && p.store[k].nonce == p.store[l].nonce ==> k == l
  {
    PoolRunKeeps(cfg, owned, foreign, steps);
    hide PoolRun, PoolInv;
    if p.store[k].account == p.store[l].account && k != l {
      var a := p.store[k].account;
      ShareOfTable(cfg, owned, foreign, p, a);
      AccountsRunAlone(cfg, owned, foreign, steps, a);
      assert k in RowsOf(cfg, owned, p.store, a) && l in RowsOf(cfg, owned, p.store, a);
      LiveNoncesAreDistinct(cfg, a, StepsOf(a, steps), p.accts[a], k, l);
    }
  }

  lemma EndedCanFinish(cfg: Config, p: Pool, a: Address)
    requires PoolEnabled(cfg, p, RestoreEnded) && a in p.accts
    ensures CanFinishBoot(p.accts[a])
  {
    hide StepAllowed, KeyUnused, CanFinishBoot;
  }

  /** After any crash, when restore is done every owned account has recovered exactly its live rows
      of the table. */
  lemma PoolRestoreIsExact(cfg: Config, owned: set<Address>, foreign: map<Key, TxRecord>, steps: seq<PoolStep>, p: Pool, a: Address)
    requires AllForeign(cfg, owned, foreign) && PoolRun(cfg, owned, foreign, steps) == Ok(p) && a in owned
    requires PoolEnabled(cfg, p, RestoreEnded)
    ensures a in p.accts && RecoveredFrom(RowsOf(cfg, owned, p.store, a), p.accts[a].tracked, p.accts[a].cursor)
  {
    PoolRunKeeps(cfg, owned, foreign, steps);
    AccountsRunAlone(cfg, owned, foreign, steps, a);
    hide PoolRun, PoolInv, PoolEnabled, Run, CanFinishBoot, RecoveredFrom, RowsOf, Mine;
    ShareOfTable(cfg, owned, foreign, p, a);
    EndedCanFinish(cfg, p, a);
    RestoreIsExact(cfg, a, StepsOf(a, steps), p.accts[a]);
  }

  /** What a node accepted stays in the table, on its account, until its terminal row is written:
      in every state, so also while the process is down. */
  lemma NothingAcceptedIsLost(cfg: Config, owned: set<Address>, foreign: map<Key, TxRecord>, steps: seq<PoolStep>, p: Pool,
                              a: Address, k: Key)
    requires AllForeign(cfg, owned, foreign) && PoolRun(cfg, owned, foreign, steps) == Ok(p) && a in owned
    ensures && a in p.accts
            && (k in p.accts[a].lives && p.accts[a].lives[k].accepted && !p.accts[a].lives[k].settled ==>
                  k in p.store && p.store[k].account == a && !IsTerminal(p.store[k].status))
            && (k in p.accts[a].lives && p.accts[a].lives[k].settled ==> k !in RowsOf(cfg, owned, p.store, a))
  {
    PoolRunKeeps(cfg, owned, foreign, steps);
    AccountsRunAlone(cfg, owned, foreign, steps, a);
    hide PoolRun, PoolInv, Run;
    ShareOfTable(cfg, owned, foreign, p, a);
    NoAcceptedTxIsLost(cfg, a, StepsOf(a, steps), p.accts[a], k);
    assert k in p.accts[a].rows ==> k in RowsOf(cfg, owned, p.store, a);
  }

  /** The in-flight cap bounds every account's rows in the table, whatever crashed when. */
  lemma TableRespectsCap(cfg: Config, owned: set<Address>, foreign: map<Key, TxRecord>, steps: seq<PoolStep>, p: Pool, a: Address)
    requires AllForeign(cfg, owned, foreign) && PoolRun(cfg, owned, foreign, steps) == Ok(p) && a in owned
    ensures && a in p.accts
            && (!p.accts[a].reattached ==> |RowsOf(cfg, owned, p.store, a)| <= Cap(cfg) && |p.accts[a].tracked| <= Cap(cfg))
  {
    PoolRunKeeps(cfg, owned, foreign, steps);
    AccountsRunAlone(cfg, owned, foreign, steps, a);
    hide PoolRun, PoolInv, Run, RowsOf, Mine, Cap;
    ShareOfTable(cfg, owned, foreign, p, a);
    if !p.accts[a].reattached { BackpressureSurvivesCrashes(cfg, a, StepsOf(a, steps), p.accts[a]); }
  }

  lemma TicketHasAccount(cfg: Config, owned: set<Address>, foreign: map<Key, TxRecord>, p: Pool, k: Key)
    requires PoolInv(cfg, owned, foreign, p) && k in p.tickets
    ensures p.tickets[k].account in p.accts && p.accts[p.tickets[k].account].mode.Up? && p.tickets[k].sub.key == k
  {
    if !p.stage.AllUp? { NoTicketsInBoot(cfg, owned, foreign, p); }
    hide Inv, StoreOk, ForeignOk, QueueOk, OneAccountPerStream, StageOk, TurnsTicketed, TokensHeld,
         HoldersHaveTokens, RefsOk, PinsOk, ViewOf;
  }

  lemma FreeFromView(c: Account, k: Key)
    requires c.mode.Up? && k !in c.rows && ViewFree(ViewOf(c), k)
    ensures KeyFree(c, k)
  {
    forall n | n in c.tracked ensures c.tracked[n].key != k {
      assert n in ViewOf(c).slots && ViewOf(c).slots[n].key == c.tracked[n].key;
    }
  }

  lemma FreeInQueue(cfg: Config, owned: set<Address>, foreign: map<Key, TxRecord>, p: Pool, k: Key)
    requires PoolInv(cfg, owned, foreign, p) && k in p.tickets && p.tickets[k].phase.InQueue?
    ensures p.tickets[k].account in p.accts && KeyFree(p.accts[p.tickets[k].account], k)
  {
    TicketHasAccount(cfg, owned, foreign, p, k);
    var a := p.tickets[k].account;
    QueueOf(cfg, owned, foreign, p, k, a);
    ShareOfTable(cfg, owned, foreign, p, a);
    hide PoolInv, KeyFree, ViewFree, ViewOf;
    assert k !in RowsOf(cfg, owned, p.store, a);
    FreeFromView(p.accts[a], k);
  }

  // ----- sticky refs -----

  datatype Place = Place(account: Address, nonce: nat)

  /** Submits that were routed to this key and whose transaction is not tracked yet. */
  function UnfinishedSubmits(p: Pool, o: OrderingKey): set<Key> {
    set k | k in p.tickets && p.tickets[k].sub.orderingKey == Some(o) &&
            !(p.tickets[k].phase.InTurn? && p.tickets[k].account in p.accts && p.accts[p.tickets[k].account].turn.Landed?)
  }

  function TrackedPlaces(p: Pool): set<Place> {
    set a, n | a in p.accts && n in p.accts[a].tracked :: Place(a, n)
  }

  /** Tracked transactions of this key (a restored one counts once it is bound). */
  function LiveWork(p: Pool, o: OrderingKey): set<Place> {
    set q | q in TrackedPlaces(p) && !Unbound(p.accts[q.account].mode, q.nonce)
            && p.accts[q.account].tracked[q.nonce].orderingKey == Some(o)
  }

  /** Settled transactions of this key whose terminal event is still to be reported. */
  function UnreportedWork(p: Pool, o: OrderingKey): set<Address> {
    set a | a in p.accts && p.accts[a].tick.Dropped? && p.accts[a].tick.rec.orderingKey == Some(o)
  }

  ghost predicate Injective<A(!new), B>(m: map<A, B>) {
    forall x, y | x in m && y in m && m[x] == m[y] :: x == y
  }

  /** An injective map has as many keys as values. */
  lemma {:induction false} SameSize<A(!new), B>(m: map<A, B>)
    requires Injective(m)
    ensures |m.Keys| == |m.Values|
    decreases |m|
  {
    if m == map[] {
      assert m.Keys == {} && m.Values == {};
    } else {
      var x :| x in m;
      var rest := m - {x};
      assert m.Keys == rest.Keys + {x} && |rest| < |m|;
      SameSize(rest);
      assert m.Values == rest.Values + {m[x]} by {
        forall v | v in m.Values ensures v in rest.Values + {m[x]} {
          var y :| y in m && m[y] == v;
          if y != x { assert y in rest && rest[y] == v; }
        }
        forall v | v in rest.Values ensures v in m.Values {
          var y :| y in rest && rest[y] == v;
          assert y in m && m[y] == v;
        }
      }
      assert m[x] !in rest.Values;
    }
  }

  /** The places of the transactions that hold a ref, by key. */
  function PlacesOf(tokens: map<Key, Token>, o: OrderingKey): map<Key, Place> {
    map k | k in tokens && tokens[k].orderingKey == o && tokens[k].holder.ByTx? ::
      Place(tokens[k].holder.account, tokens[k].holder.nonce)
  }

  function ReportersOf(tokens: map<Key, Token>, o: OrderingKey): map<Key, Address> {
    map k | k in tokens && tokens[k].orderingKey == o && tokens[k].holder.ByReport? :: tokens[k].holder.account
  }

  function SubmittersOf(tokens: map<Key, Token>, o: OrderingKey): set<Key> {
    set k | k in tokens && tokens[k].orderingKey == o && tokens[k].holder.BySubmit?
  }

  lemma TokensSplit(tokens: map<Key, Token>, o: OrderingKey)
    ensures |KeysOf(tokens, o)| == |SubmittersOf(tokens, o)| + |PlacesOf(tokens, o).Keys| + |ReportersOf(tokens, o).Keys|
  {
    assert KeysOf(tokens, o) == SubmittersOf(tokens, o) + PlacesOf(tokens, o).Keys + ReportersOf(tokens, o).Keys;
  }

  lemma SubmittersAre(p: Pool, o: OrderingKey)
    requires BindingsOk(Views(p.accts), p.tickets, p.tokens, p.binds)
    ensures SubmittersOf(p.tokens, o) == UnfinishedSubmits(p, o)
  {
    hide TurnsTicketed, TicketsOk, RefsOk, PinsOk;
    var views := Views(p.accts);
    forall k | k in SubmittersOf(p.tokens, o) ensures k in UnfinishedSubmits(p, o) {
      assert HeldBy(views, p.tickets, k, p.tokens[k]);
    }
    forall k | k in UnfinishedSubmits(p, o) ensures k in SubmittersOf(p.tokens, o) {
      assert AtLarge(views, p.tickets[k]);
      assert HasToken(p.tokens, Slot(k, p.tickets[k].sub.orderingKey), BySubmit);
    }
  }

  lemma PlacesAre(p: Pool, o: OrderingKey)
    requires BindingsOk(Views(p.accts), p.tickets, p.tokens, p.binds)
    ensures Injective(PlacesOf(p.tokens, o)) && PlacesOf(p.tokens, o).Values == LiveWork(p, o)
  {
    hide TurnsTicketed, TicketsOk, RefsOk, PinsOk, AtLarge;
    var views, m := Views(p.accts), PlacesOf(p.tokens, o);
    forall k | k in m ensures m[k] in LiveWork(p, o) && p.accts[m[k].account].tracked[m[k].nonce].key == k {
      assert HeldBy(views, p.tickets, k, p.tokens[k]);
      assert m[k] in TrackedPlaces(p);
    }
    forall q | q in LiveWork(p, o) ensures q in m.Values {
      var s := SlotOf(p.accts[q.account].tracked[q.nonce]);
      assert views[q.account].slots[q.nonce] == s;
      assert HasToken(p.tokens, s, ByTx(q.account, q.nonce));
      assert s.key in m && m[s.key] == q;
    }
  }

  lemma ReportersAre(p: Pool, o: OrderingKey)
    requires BindingsOk(Views(p.accts), p.tickets, p.tokens, p.binds)
    ensures Injective(ReportersOf(p.tokens, o)) && ReportersOf(p.tokens, o).Values == UnreportedWork(p, o)
  {
    hide TurnsTicketed, TicketsOk, RefsOk, PinsOk, AtLarge, Slots;
    var views, m := Views(p.accts), ReportersOf(p.tokens, o);
    forall k | k in m ensures m[k] in UnreportedWork(p, o) && p.accts[m[k]].tick.rec.key == k {
      assert HeldBy(views, p.tickets, k, p.tokens[k]);
    }
    forall a | a in UnreportedWork(p, o) ensures a in m.Values {
      var s := SlotOf(p.accts[a].tick.rec);
      assert views[a].report == Some(s);
      assert HasToken(p.tokens, s, ByReport(a));
      assert s.key in m && m[s.key] == a;
    }
  }

  /** In every state the refs of an ordering key are exactly the work that will release them: the
      routed submits that have not been tracked, the tracked transactions and the settled ones not
      yet reported. A binding exists if and only if there is such work. */
  lemma StickyRefsAreConserved(cfg: Config, owned: set<Address>, foreign: map<Key, TxRecord>, steps: seq<PoolStep>, p: Pool, o: OrderingKey)
    requires AllForeign(cfg, owned, foreign) && PoolRun(cfg, owned, foreign, steps) == Ok(p)
    ensures var work := |UnfinishedSubmits(p, o)| + |LiveWork(p, o)| + |UnreportedWork(p, o)|;
            && (o in p.binds <==> work > 0)
            && (o in p.binds ==> p.binds[o].refs == work)
  {
    PoolRunKeeps(cfg, owned, foreign, steps);
    hide PoolRun;
    PoolBindingsOk(cfg, owned, foreign, p);
    hide PoolInv, Views, PlacesOf, ReportersOf, SubmittersOf, UnfinishedSubmits, LiveWork, UnreportedWork, Injective,
         TurnsTicketed, TicketsOk, TokensHeld, HoldersHaveTokens;
    TokensSplit(p.tokens, o);
    SubmittersAre(p, o);
    PlacesAre(p, o);
    ReportersAre(p, o);
    SameSize(PlacesOf(p.tokens, o));
    SameSize(ReportersOf(p.tokens, o));
    if o !in p.binds { UnboundHasNoTokens(p.tickets, p.tokens, p.binds, o); }
  }

  // ----- ordered streams -----

  /** All work of an ordering key is on the account the key is bound to. */
  predicate AllWorkOn(p: Pool, o: OrderingKey, a: Address) {
    && (forall k | k in UnfinishedSubmits(p, o) :: p.tickets[k].account == a)
    && (forall q | q in LiveWork(p, o) :: q.account == a)
    && (forall b | b in UnreportedWork(p, o) :: b == a)
  }

  /** While a key has any work at all, it is bound, and every submit on its way, every tracked
      transaction and every settled one still to be reported is on the account it is bound to. */
  lemma WorkIsPinned(cfg: Config, owned: set<Address>, foreign: map<Key, TxRecord>, steps: seq<PoolStep>, p: Pool, o: OrderingKey)
    requires AllForeign(cfg, owned, foreign) && PoolRun(cfg, owned, foreign, steps) == Ok(p)
    ensures UnfinishedSubmits(p, o) != {} || LiveWork(p, o) != {} || UnreportedWork(p, o) != {} ==>
              o in p.binds && AllWorkOn(p, o, p.binds[o].account)
  {
    PoolRunKeeps(cfg, owned, foreign, steps);
    hide PoolRun, AllWorkOn, UnfinishedSubmits, LiveWork, UnreportedWork;
    PoolBindingsOk(cfg, owned, foreign, p);
    hide PoolInv, BindingsOk;
    WorkOnPin(p, o);
    StickyRefsAreConserved(cfg, owned, foreign, steps, p, o);
  }

  lemma WorkOnPin(p: Pool, o: OrderingKey)
    requires BindingsOk(Views(p.accts), p.tickets, p.tokens, p.binds)
    ensures o in p.binds ==> AllWorkOn(p, o, p.binds[o].account)
  {
    hide TurnsTicketed, TicketsOk, TokensHeld, HoldersHaveTokens, RefsOk, Views, UnfinishedSubmits, LiveWork, UnreportedWork, Injective;
    if o in p.binds {
      SubmittersAre(p, o);
      PlacesAre(p, o);
      ReportersAre(p, o);
      forall q | q in LiveWork(p, o) ensures q.account == p.binds[o].account {
        var k :| k in PlacesOf(p.tokens, o) && PlacesOf(p.tokens, o)[k] == q;
      }
      forall b | b in UnreportedWork(p, o) ensures b == p.binds[o].account {
        var k :| k in ReportersOf(p.tokens, o) && ReportersOf(p.tokens, o)[k] == b;
      }
      forall k | k in UnfinishedSubmits(p, o) ensures k in p.tickets && p.tickets[k].account == p.binds[o].account {
        assert k in SubmittersOf(p.tokens, o);
      }
    }
  }

  /** In every state, crashed or not, the live rows of an ordering key sit on one account; while the
      pool is up, that is the account the key is bound to. */
  lemma StreamsStayTogether(cfg: Config, owned: set<Address>, foreign: map<Key, TxRecord>, steps: seq<PoolStep>, p: Pool, k: Key, l: Key)
    requires AllForeign(cfg, owned, foreign) && PoolRun(cfg, owned, foreign, steps) == Ok(p)
    requires k in p.store && l in p.store && Mine(cfg, owned, p.store[k]) && Mine(cfg, owned, p.store[l])
             && p.store[k].orderingKey.Some? && p.store[k].orderingKey == p.store[l].orderingKey
    ensures && p.store[k].account == p.store[l].account
            && (p.stage.AllUp? ==>
                  var o := p.store[k].orderingKey.value; o in p.binds && p.binds[o].account == p.store[k].account)
  {
    PoolRunKeeps(cfg, owned, foreign, steps);
    hide PoolRun, AccountsOk, StoreOk, ForeignOk, BindingsOk, QueueOk, StageOk;
    if p.stage.AllUp? { RowIsPinned(cfg, owned, foreign, p, k); }
  }

  /** The stream of an open turn is bound to the account of the turn. */
  lemma TurnIsPinned(cfg: Config, owned: set<Address>, foreign: map<Key, TxRecord>, p: Pool, a: Address, o: OrderingKey)
    requires PoolInv(cfg, owned, foreign, p) && a in p.accts
    requires !p.accts[a].turn.Idle? && !p.accts[a].turn.Landed?
    requires TurnSlot(p.accts[a].turn).value.orderingKey == Some(o)
    ensures o in p.binds && p.binds[o].account == a && p.stage.AllUp? && p.accts[a].mode.Up? && Inv(cfg, a, p.accts[a])
  {
    TurnTicket(cfg, owned, foreign, p, a);
    if !p.stage.AllUp? { NoTicketsInBoot(cfg, owned, foreign, p); }
    PoolBindingsOk(cfg, owned, foreign, p);
    hide Inv, StoreOk, ForeignOk, QueueOk, OneAccountPerStream, StageOk, ViewOf, TurnsTicketed, TicketsOk, TokensHeld, RefsOk, Views;
    NotLanded(p.accts, a);
    var k := TurnSlot(p.accts[a].turn).value.key;
    assert HasToken(p.tokens, Slot(k, p.tickets[k].sub.orderingKey), BySubmit);
  }

  lemma TurnIsAhead(cfg: Config, a: Address, c: Account, k: Key)
    requires Inv(cfg, a, c) && c.mode.Up? && !c.turn.Idle? && !c.turn.Landed? && k in c.rows
    ensures c.rows[k].nonce < TurnNonce(c.turn).value || PendingRow(c.turn) == Some(c.rows[k])
  {
    hide RowsOk, NoncesDistinct, TrackedOk, CacheInStore, SentOk, TurnOk, TickOk, RestoreOk, HistoryOk, CapOk;
    assert Located(c.mode, c.tracked, PendingRow(c.turn), k, c.rows[k]);
  }

  /** Account a has an open turn of stream o whose transaction is not tracked yet. */
  predicate OpenTurnOf(p: Pool, a: Address, o: OrderingKey) {
    && a in p.accts && !p.accts[a].turn.Idle? && !p.accts[a].turn.Landed?
    && TurnSlot(p.accts[a].turn).value.orderingKey == Some(o)
  }

  /** Every other transaction of the stream that is not yet released, whether its row is live, it is
      tracked, or it is settled and about to be reported, is on the same account under a smaller
      nonce than the turn's. */
  predicate StreamBelow(cfg: Config, owned: set<Address>, p: Pool, a: Address, o: OrderingKey)
    requires OpenTurnOf(p, a, o)
  {
    var turn := p.accts[a].turn;
    var own := TurnNonce(turn).value;
    && (forall l | l in p.store && Mine(cfg, owned, p.store[l]) && p.store[l].orderingKey == Some(o) ::
          p.store[l].account == a && (p.store[l].nonce < own || PendingRow(turn) == Some(p.store[l])))
    && (forall q | q in LiveWork(p, o) :: q.account == a && q.nonce < own)
    && (forall b | b in UnreportedWork(p, o) :: b == a && p.accts[b].tick.rec.nonce < own)
  }

  lemma RowsBelow(cfg: Config, owned: set<Address>, foreign: map<Key, TxRecord>, p: Pool, a: Address, o: OrderingKey, l: Key)
    requires PoolInv(cfg, owned, foreign, p) && OpenTurnOf(p, a, o)
    requires l in p.store && Mine(cfg, owned, p.store[l]) && p.store[l].orderingKey == Some(o)
    ensures p.store[l].account == a
    ensures p.store[l].nonce < TurnNonce(p.accts[a].turn).value || PendingRow(p.accts[a].turn) == Some(p.store[l])
  {
    hide PoolInv, Inv;
    TurnIsPinned(cfg, owned, foreign, p, a, o);
    RowIsPinned(cfg, owned, foreign, p, l);
    ShareOfTable(cfg, owned, foreign, p, a);
    assert l in RowsOf(cfg, owned, p.store, a);
    TurnIsAhead(cfg, a, p.accts[a], l);
  }

  lemma TrackedBelow(cfg: Config, a: Address, c: Account, n: nat)
    requires Inv(cfg, a, c) && !c.turn.Idle? && !c.turn.Landed? && n in c.tracked
    ensures n < TurnNonce(c.turn).value
  {
    hide TablesOk, SentOk, TurnOk, TickOk, RestoreOk, HistoryOk, CapOk;
  }

  /** From the opening of a turn until its transaction is tracked, everything else of the stream that
      still holds a ref is on the turn's account and below the turn's nonce. */
  lemma StreamsAreOrdered(cfg: Config, owned: set<Address>, foreign: map<Key, TxRecord>, steps: seq<PoolStep>, p: Pool,
                          a: Address, o: OrderingKey)
    requires AllForeign(cfg, owned, foreign) && PoolRun(cfg, owned, foreign, steps) == Ok(p) && OpenTurnOf(p, a, o)
    ensures StreamBelow(cfg, owned, p, a, o)
  {
    hide PoolRun, PoolInv, Inv, Run, Mine, AllWorkOn, LiveWork, UnreportedWork;
    PoolRunKeeps(cfg, owned, foreign, steps);
    OwnAccounts(cfg, owned, foreign, p);
    TurnIsPinned(cfg, owned, foreign, p, a, o);
    AccountsRunAlone(cfg, owned, foreign, steps, a);
    RunReportBelow(cfg, a, StepsOf(a, steps), p.accts[a]);
    WorkIsPinned(cfg, owned, foreign, steps, p, o);
    forall l | l in p.store && Mine(cfg, owned, p.store[l]) && p.store[l].orderingKey == Some(o)
      ensures p.store[l].account == a
      ensures p.store[l].nonce < TurnNonce(p.accts[a].turn).value || PendingRow(p.accts[a].turn) == Some(p.store[l])
    {
      RowsBelow(cfg, owned, foreign, p, a, o, l);
    }
    forall q | q in LiveWork(p, o) ensures q.account == a && q.nonce < TurnNonce(p.accts[a].turn).value {
      WorkHere(p, o, a, q);
      TrackedBelow(cfg, a, p.accts[a], q.nonce);
    }
    forall b | b in UnreportedWork(p, o) ensures b == a && p.accts[b].tick.Dropped? {
      ReportHere(p, o, a, b);
    }
  }

  lemma OwnAccounts(cfg: Config, owned: set<Address>, foreign: map<Key, TxRecord>, p: Pool)
    requires PoolInv(cfg, owned, foreign, p)
    ensures p.accts.Keys == owned
  {
    hide AccountsOk, StoreOk, ForeignOk, BindingsOk, QueueOk, OneAccountPerStream, StageOk;
  }

  lemma WorkHere(p: Pool, o: OrderingKey, a: Address, q: Place)
    requires q in LiveWork(p, o) && AllWorkOn(p, o, a)
    ensures q.account == a && a in p.accts && q.nonce in p.accts[a].tracked
  {
  }

  lemma ReportHere(p: Pool, o: OrderingKey, a: Address, b: Address)
    requires b in UnreportedWork(p, o) && AllWorkOn(p, o, a)
    ensures b == a && b in p.accts && p.accts[b].tick.Dropped?
  {
  }

  // ----- two turns of a stream -----

  lemma {:induction false} StepsOfMore(a: Address, first: seq<PoolStep>, more: seq<PoolStep>)
    ensures StepsOf(a, first + more) == StepsOf(a, first) + StepsOf(a, more)
    decreases |more|
  {
    if more == [] {
      assert first + more == first;
    } else {
      StepsOfMore(a, first, more[..|more| - 1]);
      assert (first + more)[..|first + more| - 1] == first + more[..|more| - 1];
    }
  }

  /** What an account does between two states of a pool run. */
  lemma AccountBetween(cfg: Config, owned: set<Address>, foreign: map<Key, TxRecord>, first: seq<PoolStep>, more: seq<PoolStep>,
                       p: Pool, q: Pool, a: Address)
    requires AllForeign(cfg, owned, foreign) && a in owned
    requires PoolRun(cfg, owned, foreign, first) == Ok(p) && PoolRun(cfg, owned, foreign, first + more) == Ok(q)
    ensures a in p.accts && a in q.accts && Inv(cfg, a, p.accts[a])
    ensures Perform(cfg, a, p.accts[a], StepsOf(a, more)) == Ok(q.accts[a])
  {
    hide PoolRun, Run, Perform, Inv, StepsOf;
    AccountsRunAlone(cfg, owned, foreign, first, a);
    AccountsRunAlone(cfg, owned, foreign, first + more, a);
    StepsOfMore(a, first, more);
    RunKeeps(cfg, a, StepsOf(a, first));
    RunThenPerform(cfg, a, StepsOf(a, first), p.accts[a], StepsOf(a, more));
  }

  /** A transaction of the stream that something still holds is on the account of the open turn and
      below its nonce. */
  lemma KeptIsBelow(cfg: Config, owned: set<Address>, foreign: map<Key, TxRecord>, p: Pool, a: Address, b: Address,
                    o: OrderingKey, r: TxRecord)
    requires PoolInv(cfg, owned, foreign, p) && OpenTurnOf(p, b, o) && StreamBelow(cfg, owned, p, b, o)
    requires a in owned && a in p.accts && Kept(p.accts[a], r) && PastTurn(p.accts[a].turn, r.key) && r.orderingKey == Some(o)
    ensures a == b && r.nonce < TurnNonce(p.accts[b].turn).value
  {
    hide PoolInv, Inv, Mine, RowsOf;
    TurnIsPinned(cfg, owned, foreign, p, b, o);
    var c := p.accts[a];
    if r.key in c.rows && SameSlot(c.rows[r.key], r) {
      ShareOfTable(cfg, owned, foreign, p, a);
      RowInTable(cfg, owned, p, a, r.key);
    } else if c.tick.Dropped? {
      assert a in UnreportedWork(p, o);
    } else {
      SettlingIsTracked(cfg, owned, foreign, p, a);
      assert Place(a, r.nonce) in TrackedPlaces(p);
      assert Place(a, r.nonce) in LiveWork(p, o);
    }
  }

  lemma RowInTable(cfg: Config, owned: set<Address>, p: Pool, a: Address, k: Key)
    requires a in p.accts && RowsOf(cfg, owned, p.store, a) == p.accts[a].rows && k in p.accts[a].rows
    ensures k in p.store && p.store[k] == p.accts[a].rows[k] && Mine(cfg, owned, p.store[k]) && p.store[k].account == a
  {
    assert k in RowsOf(cfg, owned, p.store, a);
  }

  lemma SettlingIsTracked(cfg: Config, owned: set<Address>, foreign: map<Key, TxRecord>, p: Pool, a: Address)
    requires PoolInv(cfg, owned, foreign, p) && a in p.accts && p.accts[a].tick.Settling?
    ensures p.accts[a].mode.Up? && Holds(p.accts[a].tracked, p.accts[a].tick.rec)
  {
    hide StoreOk, ForeignOk, BindingsOk, QueueOk, OneAccountPerStream, StageOk;
    hide TablesOk, LaneOk, SentOk, TurnOk, RestoreOk, HistoryOk, CapOk, TodoOk, EndPending;
    assert Inv(cfg, a, p.accts[a]);
  }

  /** Take any transaction of a stream that is past its own turn (its row is in the table and not the
      row of an open turn), and any later moment with an open turn of the stream: that turn is on the
      same account under a greater nonce, or in between the transaction was settled and released its
      ref. */
  lemma LaterTurnIsAbove(cfg: Config, owned: set<Address>, foreign: map<Key, TxRecord>, first: seq<PoolStep>, more: seq<PoolStep>,
                         p: Pool, q: Pool, k: Key, b: Address, o: OrderingKey)
    requires AllForeign(cfg, owned, foreign)
    requires PoolRun(cfg, owned, foreign, first) == Ok(p) && PoolRun(cfg, owned, foreign, first + more) == Ok(q)
    requires k in p.store && Mine(cfg, owned, p.store[k]) && p.store[k].orderingKey == Some(o) && OpenTurnOf(q, b, o)
    requires p.store[k].account in p.accts && PendingRow(p.accts[p.store[k].account].turn) != Some(p.store[k])
    ensures var r := p.store[k];
            || (b == r.account && r.nonce < TurnNonce(q.accts[b].turn).value)
            || ReleasedDuring(cfg, r.account, p.accts[r.account], StepsOf(r.account, more), k)
  {
    hide PoolRun, PoolInv, Inv, Perform, StepsOf, Kept, PastTurn, ReleasedDuring, OpenTurnOf, StreamBelow, RowsOf;
    var r := p.store[k];
    PoolRunKeeps(cfg, owned, foreign, first);
    PoolRunKeeps(cfg, owned, foreign, first + more);
    StartsKept(cfg, owned, foreign, p, k);
    AccountBetween(cfg, owned, foreign, first, more, p, q, r.account);
    PastTurnLasts(cfg, r.account, p.accts[r.account], StepsOf(r.account, more), r);
    StreamsAreOrdered(cfg, owned, foreign, first + more, q, b, o);
    if Kept(q.accts[r.account], r) && PastTurn(q.accts[r.account].turn, r.key) {
      KeptIsBelow(cfg, owned, foreign, q, r.account, b, o, r);
    }
  }

  lemma StartsKept(cfg: Config, owned: set<Address>, foreign: map<Key, TxRecord>, p: Pool, k: Key)
    requires PoolInv(cfg, owned, foreign, p) && k in p.store && Mine(cfg, owned, p.store[k])
    requires p.store[k].account in p.accts && PendingRow(p.accts[p.store[k].account].turn) != Some(p.store[k])
    ensures var r := p.store[k];
            && r.account in owned && r.key == k && Inv(cfg, r.account, p.accts[r.account])
            && Kept(p.accts[r.account], r) && PastTurn(p.accts[r.account].turn, k)
  {
    hide AccountsOk, StoreOk, ForeignOk, BindingsOk, QueueOk, OneAccountPerStream, StageOk, Mine, Inv, RowsOf, PastTurn;
    var a := p.store[k].account;
    MineIsOwned(cfg, owned, p.store[k]);
    AccountOk(cfg, p, a);
    ShareOfTable(cfg, owned, foreign, p, a);
    InShare(cfg, owned, p.store, k);
    RowHasLife(cfg, a, p.accts[a], k);
    RowPastTurn(cfg, a, p.accts[a], k);
  }

  lemma MineIsOwned(cfg: Config, owned: set<Address>, r: TxRecord)
    requires Mine(cfg, owned, r)
    ensures r.account in owned
  {
  }

  lemma InShare(cfg: Config, owned: set<Address>, store: map<Key, TxRecord>, k: Key)
    requires k in store && Mine(cfg, owned, store[k])
    ensures k in RowsOf(cfg, owned, store, store[k].account) && RowsOf(cfg, owned, store, store[k].account)[k] == store[k]
  {
  }

  /** A row that is not the open turn's is past its turn. */
  lemma RowPastTurn(cfg: Config, a: Address, c: Account, k: Key)
    requires Inv(cfg, a, c) && k in c.rows && PendingRow(c.turn) != Some(c.rows[k])
    ensures PastTurn(c.turn, k)
  {
    hide LaneOk, TablesOk, SentOk, TickOk, RestoreOk, HistoryOk, CapOk, Untracked;
  }

  /** Two turns of one stream: once a turn has tracked its transaction, a later turn of the stream is
      on the same account under a greater nonce, or the first transaction was settled and released
      its ref before it. */
  lemma TurnsFollow(cfg: Config, owned: set<Address>, foreign: map<Key, TxRecord>, first: seq<PoolStep>, more: seq<PoolStep>,
                    p: Pool, q: Pool, a: Address, b: Address, o: OrderingKey)
    requires AllForeign(cfg, owned, foreign)
    requires PoolRun(cfg, owned, foreign, first) == Ok(p)
    requires a in p.accts && p.accts[a].turn.Stored? && p.accts[a].turn.rec.orderingKey == Some(o)
    requires PoolRun(cfg, owned, foreign, first + [Stepped(a, Submitting(TrackedLive))] + more) == Ok(q) && OpenTurnOf(q, b, o)
    ensures var r := p.accts[a].turn.rec;
            || (b == a && r.nonce < TurnNonce(q.accts[b].turn).value)
            || ReleasedDuring(cfg, a, Land(p.accts[a]), StepsOf(a, more), r.key)
  {
    hide PoolInv, Inv, StepsOf, ReleasedDuring, OpenTurnOf, PoolRun, Mine;
    var landed := first + [Stepped(a, Submitting(TrackedLive))];
    PoolRunKeeps(cfg, owned, foreign, first);
    OwnAccounts(cfg, owned, foreign, p);
    var m := LandsInPool(cfg, owned, foreign, first, p, a);
    LaterTurnIsAbove(cfg, owned, foreign, landed, more, m, q, p.accts[a].turn.rec.key, b, o);
  }

  /** The row of a stored turn is in the table. */
  lemma StoredRow(cfg: Config, owned: set<Address>, foreign: map<Key, TxRecord>, p: Pool, a: Address)
    requires PoolInv(cfg, owned, foreign, p) && a in owned && a in p.accts && p.accts[a].turn.Stored?
    ensures var r := p.accts[a].turn.rec;
            && r.key in p.store && p.store[r.key] == r && r.account == a && Mine(cfg, owned, r)
            && Enabled(cfg, a, p.accts[a], Submitting(TrackedLive))
  {
    hide AccountsOk, StoreOk, ForeignOk, BindingsOk, QueueOk, OneAccountPerStream, StageOk, RowsOf, Mine, OwnRow;
    ShareOfTable(cfg, owned, foreign, p, a);
    assert Inv(cfg, a, p.accts[a]) by { hide Inv; AccountOk(cfg, p, a); }
    OwnRowOfStored(cfg, a, p.accts[a]);
    RowInTable(cfg, owned, p, a, p.accts[a].turn.rec.key);
  }

  lemma AccountOk(cfg: Config, p: Pool, a: Address)
    requires AccountsOk(cfg, p.stage, p.accts) && a in p.accts
    ensures Inv(cfg, a, p.accts[a])
  {
    hide Inv;
  }

  lemma OwnRowOfStored(cfg: Config, a: Address, c: Account)
    requires Inv(cfg, a, c) && c.turn.Stored?
    ensures c.turn.rec.key in c.rows && c.rows[c.turn.rec.key] == c.turn.rec
  {
    hide TablesOk, LaneOk, SentOk, TickOk, RestoreOk, HistoryOk, CapOk, Untracked;
  }

  lemma LandsInPool(cfg: Config, owned: set<Address>, foreign: map<Key, TxRecord>, first: seq<PoolStep>, p: Pool, a: Address)
    returns (m: Pool)
    requires PoolRun(cfg, owned, foreign, first) == Ok(p) && PoolInv(cfg, owned, foreign, p)
    requires a in owned && a in p.accts && p.accts[a].turn.Stored?
    ensures PoolRun(cfg, owned, foreign, first + [Stepped(a, Submitting(TrackedLive))]) == Ok(m)
    ensures a in m.accts && m.accts[a] == Land(p.accts[a])
    ensures var r := p.accts[a].turn.rec; r.key in m.store && m.store[r.key] == r && r.account == a && Mine(cfg, owned, r)
  {
    hide PoolInv, Mine, TicketsNext, TokensNext, BindsNext, ViewOf, Upsert, TickEnabled, BootEnabled, TickNext, BootNext, KeyUnused;
    var s := Stepped(a, Submitting(TrackedLive));
    StoredRow(cfg, owned, foreign, p, a);
    assert (first + [s])[..|first + [s]| - 1] == first;
    m := PoolNext(cfg, p, s);
  }

  /** A stream has at most one turn open at a time. */
  lemma OneTurnPerStream(cfg: Config, owned: set<Address>, foreign: map<Key, TxRecord>, steps: seq<PoolStep>, p: Pool,
                         a: Address, b: Address, o: OrderingKey)
    requires AllForeign(cfg, owned, foreign) && PoolRun(cfg, owned, foreign, steps) == Ok(p)
    requires && a in p.accts && !p.accts[a].turn.Idle? && !p.accts[a].turn.Landed?
             && b in p.accts && !p.accts[b].turn.Idle? && !p.accts[b].turn.Landed?
             && TurnSlot(p.accts[a].turn).value.orderingKey == Some(o) == TurnSlot(p.accts[b].turn).value.orderingKey
    ensures a == b
  {
    PoolRunKeeps(cfg, owned, foreign, steps);
    hide PoolRun, PoolInv;
    TurnIsPinned(cfg, owned, foreign, p, a, o);
    TurnIsPinned(cfg, owned, foreign, p, b, o);
  }
}
