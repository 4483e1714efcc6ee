/** Sticky refs: what holds between views of the accounts, the unfinished submits and the bindings,
    and how each effect of a step keeps it. */
module PoolBindings {
  import opened Records
  import opened AccountProtocol
  import opened PoolProtocol

  /** A ticket still holds its ref until its transaction is tracked. */
  predicate AtLarge(views: map<Address, View>, t: Ticket) {
    !(t.phase.InTurn? && t.account in views && views[t.account].landed)
  }

  predicate TurnsTicketed(views: map<Address, View>, tickets: map<Key, Ticket>) {
    forall a | a in views ::
      && (views[a].landed ==> views[a].turn.Some?)
      && (views[a].turn.Some? ==>
            var s := views[a].turn.value;
            && s.key in tickets && tickets[s.key].account == a && tickets[s.key].phase.InTurn?
            && tickets[s.key].sub.orderingKey == s.orderingKey)
  }

  predicate TicketsOk(views: map<Address, View>, tickets: map<Key, Ticket>) {
    forall k | k in tickets ::
      && tickets[k].sub.key == k && tickets[k].account in views
      && (tickets[k].phase.InTurn? ==>
            views[tickets[k].account].turn == Some(Slot(k, tickets[k].sub.orderingKey)))
  }

  predicate HeldBy(views: map<Address, View>, tickets: map<Key, Ticket>, k: Key, t: Token) {
    match t.holder
    case BySubmit => k in tickets && tickets[k].sub.orderingKey == Some(t.orderingKey) && AtLarge(views, tickets[k])
    case ByTx(a, n) => a in views && n in views[a].slots && views[a].slots[n] == Slot(k, Some(t.orderingKey))
    case ByReport(a) => a in views && views[a].report == Some(Slot(k, Some(t.orderingKey)))
  }

  predicate TokensHeld(views: map<Address, View>, tickets: map<Key, Ticket>, tokens: map<Key, Token>) {
    forall k | k in tokens :: HeldBy(views, tickets, k, tokens[k])
  }

  predicate HasToken(tokens: map<Key, Token>, s: Slot, holder: Holder) {
    s.orderingKey.Some? ==> s.key in tokens && tokens[s.key] == Token(s.orderingKey.value, holder)
  }

  predicate HoldersHaveTokens(views: map<Address, View>, tickets: map<Key, Ticket>, tokens: map<Key, Token>) {
    && (forall k | k in tickets && AtLarge(views, tickets[k]) :: HasToken(tokens, Slot(k, tickets[k].sub.orderingKey), BySubmit))
    && (forall a, n | a in views && n in views[a].slots :: HasToken(tokens, views[a].slots[n], ByTx(a, n)))
    && (forall a | a in views && views[a].report.Some? :: HasToken(tokens, views[a].report.value, ByReport(a)))
  }

  function KeysOf(tokens: map<Key, Token>, o: OrderingKey): set<Key> {
    set k | k in tokens && tokens[k].orderingKey == o
  }

  /** The account on which a token's work sits. */
  function TokenAccount(tickets: map<Key, Ticket>, k: Key, t: Token): Option<Address> {
    match t.holder
    case BySubmit => if k in tickets then Some(tickets[k].account) else None
    case ByTx(a, _) => Some(a)
    case ByReport(a) => Some(a)
  }

  predicate RefsOk(tokens: map<Key, Token>, binds: map<OrderingKey, Binding>) {
    forall o | o in binds :: binds[o].refs == |KeysOf(tokens, o)| >= 1
  }

  predicate PinsOk(tickets: map<Key, Ticket>, tokens: map<Key, Token>, binds: map<OrderingKey, Binding>) {
    forall k | k in tokens ::
      && tokens[k].orderingKey in binds
      && TokenAccount(tickets, k, tokens[k]) == Some(binds[tokens[k].orderingKey].account)
  }

  predicate BindingsOk(views: map<Address, View>, tickets: map<Key, Ticket>, tokens: map<Key, Token>,
                       binds: map<OrderingKey, Binding>)
  {
    && TurnsTicketed(views, tickets) && TicketsOk(views, tickets)
    && TokensHeld(views, tickets, tokens) && HoldersHaveTokens(views, tickets, tokens)
    && RefsOk(tokens, binds) && PinsOk(tickets, tokens, binds)
  }

  // ----- counting -----

  lemma KeysOfAdd(tokens: map<Key, Token>, k: Key, t: Token, o: OrderingKey)
    requires k !in tokens || tokens[k].orderingKey == t.orderingKey
    ensures KeysOf(tokens[k := t], o) == if t.orderingKey == o then KeysOf(tokens, o) + {k} else KeysOf(tokens, o)
    ensures k !in KeysOf(tokens, o) <==> k !in tokens || tokens[k].orderingKey != o
  {
  }

  lemma KeysOfRemove(tokens: map<Key, Token>, k: Key, o: OrderingKey)
    ensures KeysOf(tokens - {k}, o) == KeysOf(tokens, o) - {k}
    ensures k in KeysOf(tokens, o) <==> k in tokens && tokens[k].orderingKey == o
  {
  }

  lemma BindCounts(tokens: map<Key, Token>, binds: map<OrderingKey, Binding>, k: Key, o: OrderingKey, holder: Holder, prefer: Address)
    requires RefsOk(tokens, binds) && k !in tokens
    requires o !in binds ==> KeysOf(tokens, o) == {}
    ensures RefsOk(tokens[k := Token(o, holder)], Bind(binds, o, prefer))
  {
    hide KeysOf;
    forall q | q in Bind(binds, o, prefer)
      ensures Bind(binds, o, prefer)[q].refs == |KeysOf(tokens[k := Token(o, holder)], q)| >= 1
    {
      KeysOfAdd(tokens, k, Token(o, holder), q);
    }
  }

  lemma ReleaseCounts(tokens: map<Key, Token>, binds: map<OrderingKey, Binding>, k: Key)
    requires RefsOk(tokens, binds) && k in tokens && tokens[k].orderingKey in binds
    ensures RefsOk(tokens - {k}, Release(binds, tokens[k].orderingKey))
  {
    hide KeysOf;
    var o := tokens[k].orderingKey;
    forall q | q in Release(binds, o) ensures Release(binds, o)[q].refs == |KeysOf(tokens - {k}, q)| >= 1 {
      KeysOfRemove(tokens, k, q);
    }
  }

  /** A binding with a ref left stays, on its account. */
  lemma ReleasePins(tickets: map<Key, Ticket>, tokens: map<Key, Token>, binds: map<OrderingKey, Binding>, k: Key, l: Key)
    requires RefsOk(tokens, binds) && PinsOk(tickets, tokens, binds)
    requires k in tokens && l in tokens && l != k
    ensures var next := Release(binds, tokens[k].orderingKey);
            var o := tokens[l].orderingKey;
            o in next && next[o].account == binds[o].account
  {
    var o := tokens[k].orderingKey;
    if tokens[l].orderingKey == o {
      assert {k, l} <= KeysOf(tokens, o);
      assert |KeysOf(tokens, o) - {k, l}| == |KeysOf(tokens, o)| - 2;
    }
  }

  /** Handing a token on changes no count. */
  lemma MoveCounts(tokens: map<Key, Token>, binds: map<OrderingKey, Binding>, k: Key, holder: Holder)
    requires RefsOk(tokens, binds) && k in tokens
    ensures RefsOk(tokens[k := Token(tokens[k].orderingKey, holder)], binds)
  {
    hide KeysOf;
    forall o | o in binds ensures binds[o].refs == |KeysOf(tokens[k := Token(tokens[k].orderingKey, holder)], o)| >= 1 {
      KeysOfAdd(tokens, k, Token(tokens[k].orderingKey, holder), o);
      assert k in KeysOf(tokens, o) ==> KeysOf(tokens, o) + {k} == KeysOf(tokens, o);
    }
  }

  lemma UnboundHasNoTokens(tickets: map<Key, Ticket>, tokens: map<Key, Token>, binds: map<OrderingKey, Binding>, o: OrderingKey)
    requires PinsOk(tickets, tokens, binds) && o !in binds
    ensures KeysOf(tokens, o) == {}
  {
  }

  // ----- effects -----

  /** What an effect needs of the account. */
  predicate FitsView(v: View, e: Effect) {
    match e
    case NoEffect => true
    case EOpen(_) => v.turn.None?
    case EThrow => v.turn.Some? && !v.landed
    case ELand(n) => v.turn.Some? && !v.landed && n !in v.slots
    case EClose => v.landed
    case EDrop(n) => n in v.slots && v.report.None?
    case EReport => v.report.Some?
    case EBind(n, _) => n !in v.slots
  }

  /** What an effect needs of the pool. */
  predicate FitsPool(tickets: map<Key, Ticket>, tokens: map<Key, Token>, binds: map<OrderingKey, Binding>, a: Address, e: Effect) {
    match e
    case EOpen(slot) =>
      && slot.key in tickets && tickets[slot.key].account == a
      && tickets[slot.key].phase.InQueue? && tickets[slot.key].sub.orderingKey == slot.orderingKey
    case EBind(n, slot) =>
      && slot.key !in tokens && slot.key !in tickets
      && (slot.orderingKey.Some? && slot.orderingKey.value in binds ==> binds[slot.orderingKey.value].account == a)
    case _ => true
  }

  predicate Fits(views: map<Address, View>, tickets: map<Key, Ticket>, tokens: map<Key, Token>,
                 binds: map<OrderingKey, Binding>, a: Address, e: Effect)
  {
    a in views && FitsView(views[a], e) && FitsPool(tickets, tokens, binds, a, e)
  }

  /** The effects that leave the turns alone leave the tickets in order. */
  predicate SameTurns(views: map<Address, View>, next: map<Address, View>) {
    views.Keys == next.Keys && forall a | a in views :: next[a].turn == views[a].turn && next[a].landed == views[a].landed
  }

  lemma TurnsKept(views: map<Address, View>, next: map<Address, View>, tickets: map<Key, Ticket>)
    requires SameTurns(views, next) && TurnsTicketed(views, tickets) && TicketsOk(views, tickets)
    ensures TurnsTicketed(next, tickets) && TicketsOk(next, tickets)
  {
  }

  lemma OpenTurns(views: map<Address, View>, tickets: map<Key, Ticket>, tokens: map<Key, Token>,
                    binds: map<OrderingKey, Binding>, a: Address, slot: Slot)
    requires BindingsOk(views, tickets, tokens, binds) && Fits(views, tickets, tokens, binds, a, EOpen(slot))
    ensures TurnsTicketed(views[a := ViewNext(views[a], EOpen(slot))], TicketsNext(tickets, views[a], EOpen(slot)))
    ensures TicketsOk(views[a := ViewNext(views[a], EOpen(slot))], TicketsNext(tickets, views[a], EOpen(slot)))
    ensures PinsOk(TicketsNext(tickets, views[a], EOpen(slot)), tokens, binds)
  {
    hide RefsOk, TokensHeld, HoldersHaveTokens;
  }

  lemma OpenHolders(views: map<Address, View>, tickets: map<Key, Ticket>, tokens: map<Key, Token>,
                    binds: map<OrderingKey, Binding>, a: Address, slot: Slot)
    requires BindingsOk(views, tickets, tokens, binds) && Fits(views, tickets, tokens, binds, a, EOpen(slot))
    ensures TokensHeld(views[a := ViewNext(views[a], EOpen(slot))], TicketsNext(tickets, views[a], EOpen(slot)), tokens)
    ensures HoldersHaveTokens(views[a := ViewNext(views[a], EOpen(slot))], TicketsNext(tickets, views[a], EOpen(slot)), tokens)
  {
    hide RefsOk, PinsOk;
  }

  lemma OpenKeeps(views: map<Address, View>, tickets: map<Key, Ticket>, tokens: map<Key, Token>,
                    binds: map<OrderingKey, Binding>, a: Address, slot: Slot)
    requires BindingsOk(views, tickets, tokens, binds) && Fits(views, tickets, tokens, binds, a, EOpen(slot))
    ensures BindingsOk(views[a := ViewNext(views[a], EOpen(slot))], TicketsNext(tickets, views[a], EOpen(slot)), tokens, binds)
  {
    hide RefsOk, PinsOk, TokensHeld, HoldersHaveTokens, TurnsTicketed, TicketsOk;
    OpenTurns(views, tickets, tokens, binds, a, slot);
    OpenHolders(views, tickets, tokens, binds, a, slot);
  }

  lemma ThrowTurns(views: map<Address, View>, tickets: map<Key, Ticket>, tokens: map<Key, Token>,
                    binds: map<OrderingKey, Binding>, a: Address)
    requires BindingsOk(views, tickets, tokens, binds) && Fits(views, tickets, tokens, binds, a, EThrow)
    ensures TurnsTicketed(views[a := ViewNext(views[a], EThrow)], TicketsNext(tickets, views[a], EThrow))
    ensures TicketsOk(views[a := ViewNext(views[a], EThrow)], TicketsNext(tickets, views[a], EThrow))
    ensures PinsOk(TicketsNext(tickets, views[a], EThrow), tokens, binds)
  {
    hide RefsOk, TokensHeld, HoldersHaveTokens;
  }

  lemma ThrowHolders(views: map<Address, View>, tickets: map<Key, Ticket>, tokens: map<Key, Token>,
                    binds: map<OrderingKey, Binding>, a: Address)
    requires BindingsOk(views, tickets, tokens, binds) && Fits(views, tickets, tokens, binds, a, EThrow)
    ensures TokensHeld(views[a := ViewNext(views[a], EThrow)], TicketsNext(tickets, views[a], EThrow), tokens)
    ensures HoldersHaveTokens(views[a := ViewNext(views[a], EThrow)], TicketsNext(tickets, views[a], EThrow), tokens)
  {
    hide RefsOk, PinsOk;
  }

  lemma ThrowKeeps(views: map<Address, View>, tickets: map<Key, Ticket>, tokens: map<Key, Token>,
                    binds: map<OrderingKey, Binding>, a: Address)
    requires BindingsOk(views, tickets, tokens, binds) && Fits(views, tickets, tokens, binds, a, EThrow)
    ensures BindingsOk(views[a := ViewNext(views[a], EThrow)], TicketsNext(tickets, views[a], EThrow), tokens, binds)
  {
    hide RefsOk, PinsOk, TokensHeld, HoldersHaveTokens, TurnsTicketed, TicketsOk;
    ThrowTurns(views, tickets, tokens, binds, a);
    ThrowHolders(views, tickets, tokens, binds, a);
  }

  lemma CloseTurns(views: map<Address, View>, tickets: map<Key, Ticket>, tokens: map<Key, Token>,
                    binds: map<OrderingKey, Binding>, a: Address)
    requires BindingsOk(views, tickets, tokens, binds) && Fits(views, tickets, tokens, binds, a, EClose)
    ensures TurnsTicketed(views[a := ViewNext(views[a], EClose)], TicketsNext(tickets, views[a], EClose))
    ensures TicketsOk(views[a := ViewNext(views[a], EClose)], TicketsNext(tickets, views[a], EClose))
    ensures PinsOk(TicketsNext(tickets, views[a], EClose), tokens, binds)
  {
    hide RefsOk, HoldersHaveTokens;
  }

  lemma CloseHolders(views: map<Address, View>, tickets: map<Key, Ticket>, tokens: map<Key, Token>,
                    binds: map<OrderingKey, Binding>, a: Address)
    requires BindingsOk(views, tickets, tokens, binds) && Fits(views, tickets, tokens, binds, a, EClose)
    ensures TokensHeld(views[a := ViewNext(views[a], EClose)], TicketsNext(tickets, views[a], EClose), tokens)
    ensures HoldersHaveTokens(views[a := ViewNext(views[a], EClose)], TicketsNext(tickets, views[a], EClose), tokens)
  {
    hide RefsOk, PinsOk;
  }

  lemma CloseKeeps(views: map<Address, View>, tickets: map<Key, Ticket>, tokens: map<Key, Token>,
                    binds: map<OrderingKey, Binding>, a: Address)
    requires BindingsOk(views, tickets, tokens, binds) && Fits(views, tickets, tokens, binds, a, EClose)
    ensures BindingsOk(views[a := ViewNext(views[a], EClose)], TicketsNext(tickets, views[a], EClose), tokens, binds)
  {
    hide RefsOk, PinsOk, TokensHeld, HoldersHaveTokens, TurnsTicketed, TicketsOk;
    CloseTurns(views, tickets, tokens, binds, a);
    CloseHolders(views, tickets, tokens, binds, a);
  }

  lemma LandTurns(views: map<Address, View>, tickets: map<Key, Ticket>, tokens: map<Key, Token>,
                    binds: map<OrderingKey, Binding>, a: Address, n: nat)
    requires BindingsOk(views, tickets, tokens, binds) && Fits(views, tickets, tokens, binds, a, ELand(n))
    ensures TurnsTicketed(views[a := ViewNext(views[a], ELand(n))], tickets)
    ensures TicketsOk(views[a := ViewNext(views[a], ELand(n))], tickets)
  {
    hide RefsOk, PinsOk, TokensHeld, HoldersHaveTokens;
  }

  lemma LandTokens(views: map<Address, View>, tickets: map<Key, Ticket>, tokens: map<Key, Token>,
                    binds: map<OrderingKey, Binding>, a: Address, n: nat)
    requires BindingsOk(views, tickets, tokens, binds) && Fits(views, tickets, tokens, binds, a, ELand(n))
    ensures RefsOk(TokensNext(tokens, a, views[a], ELand(n)), binds)
    ensures PinsOk(tickets, TokensNext(tokens, a, views[a], ELand(n)), binds)
    ensures views[a].turn.value.orderingKey.Some? ==> HasToken(tokens, views[a].turn.value, BySubmit)
  {
    hide RefsOk, TokensHeld;
    var s := views[a].turn.value;
    assert AtLarge(views, tickets[s.key]);
    assert HasToken(tokens, Slot(s.key, tickets[s.key].sub.orderingKey), BySubmit);
    if s.orderingKey.Some? { MoveCounts(tokens, binds, s.key, ByTx(a, n)); }
  }

  lemma LandHeld(views: map<Address, View>, tickets: map<Key, Ticket>, tokens: map<Key, Token>,
                    binds: map<OrderingKey, Binding>, a: Address, n: nat)
    requires BindingsOk(views, tickets, tokens, binds) && Fits(views, tickets, tokens, binds, a, ELand(n))
    ensures TokensHeld(views[a := ViewNext(views[a], ELand(n))], tickets, TokensNext(tokens, a, views[a], ELand(n)))
  {
    hide RefsOk, PinsOk, HoldersHaveTokens;
    LandTokens(views, tickets, tokens, binds, a, n);
  }

  lemma LandHolders(views: map<Address, View>, tickets: map<Key, Ticket>, tokens: map<Key, Token>,
                    binds: map<OrderingKey, Binding>, a: Address, n: nat)
    requires BindingsOk(views, tickets, tokens, binds) && Fits(views, tickets, tokens, binds, a, ELand(n))
    ensures HoldersHaveTokens(views[a := ViewNext(views[a], ELand(n))], tickets, TokensNext(tokens, a, views[a], ELand(n)))
  {
    hide RefsOk, PinsOk, TokensHeld;
    LandTokens(views, tickets, tokens, binds, a, n);
  }

  lemma LandKeeps(views: map<Address, View>, tickets: map<Key, Ticket>, tokens: map<Key, Token>,
                    binds: map<OrderingKey, Binding>, a: Address, n: nat)
    requires BindingsOk(views, tickets, tokens, binds) && Fits(views, tickets, tokens, binds, a, ELand(n))
    ensures BindingsOk(views[a := ViewNext(views[a], ELand(n))], tickets, TokensNext(tokens, a, views[a], ELand(n)), binds)
  {
    hide RefsOk, PinsOk, TokensHeld, HoldersHaveTokens, TurnsTicketed, TicketsOk;
    LandTurns(views, tickets, tokens, binds, a, n);
    LandTokens(views, tickets, tokens, binds, a, n);
    LandHeld(views, tickets, tokens, binds, a, n);
    LandHolders(views, tickets, tokens, binds, a, n);
  }

  lemma DropTokens(views: map<Address, View>, tickets: map<Key, Ticket>, tokens: map<Key, Token>,
                    binds: map<OrderingKey, Binding>, a: Address, n: nat)
    requires BindingsOk(views, tickets, tokens, binds) && Fits(views, tickets, tokens, binds, a, EDrop(n))
    ensures RefsOk(TokensNext(tokens, a, views[a], EDrop(n)), BindsNext(binds, a, views[a], EDrop(n)))
    ensures PinsOk(tickets, TokensNext(tokens, a, views[a], EDrop(n)), BindsNext(binds, a, views[a], EDrop(n)))
    ensures HasToken(tokens, views[a].slots[n], ByTx(a, n))
  {
    hide RefsOk, TokensHeld;
    var s := views[a].slots[n];
    assert HasToken(tokens, s, ByTx(a, n));
    if s.orderingKey.Some? { MoveCounts(tokens, binds, s.key, ByReport(a)); }
  }

  lemma DropHeld(views: map<Address, View>, tickets: map<Key, Ticket>, tokens: map<Key, Token>,
                    binds: map<OrderingKey, Binding>, a: Address, n: nat)
    requires BindingsOk(views, tickets, tokens, binds) && Fits(views, tickets, tokens, binds, a, EDrop(n))
    ensures TokensHeld(views[a := ViewNext(views[a], EDrop(n))], tickets, TokensNext(tokens, a, views[a], EDrop(n)))
  {
    hide RefsOk, PinsOk, HoldersHaveTokens, TurnsTicketed, TicketsOk;
    DropTokens(views, tickets, tokens, binds, a, n);
  }

  lemma DropHolders(views: map<Address, View>, tickets: map<Key, Ticket>, tokens: map<Key, Token>,
                    binds: map<OrderingKey, Binding>, a: Address, n: nat)
    requires BindingsOk(views, tickets, tokens, binds) && Fits(views, tickets, tokens, binds, a, EDrop(n))
    ensures HoldersHaveTokens(views[a := ViewNext(views[a], EDrop(n))], tickets, TokensNext(tokens, a, views[a], EDrop(n)))
  {
    hide RefsOk, PinsOk, TokensHeld, TurnsTicketed, TicketsOk;
    DropTokens(views, tickets, tokens, binds, a, n);
  }

  lemma DropKeeps(views: map<Address, View>, tickets: map<Key, Ticket>, tokens: map<Key, Token>,
                    binds: map<OrderingKey, Binding>, a: Address, n: nat)
    requires BindingsOk(views, tickets, tokens, binds) && Fits(views, tickets, tokens, binds, a, EDrop(n))
    ensures BindingsOk(views[a := ViewNext(views[a], EDrop(n))], tickets,
                       TokensNext(tokens, a, views[a], EDrop(n)), BindsNext(binds, a, views[a], EDrop(n)))
  {
    hide RefsOk, PinsOk, TokensHeld, HoldersHaveTokens, TurnsTicketed, TicketsOk;
    TurnsKept(views, views[a := ViewNext(views[a], EDrop(n))], tickets);
    DropTokens(views, tickets, tokens, binds, a, n);
    DropHeld(views, tickets, tokens, binds, a, n);
    DropHolders(views, tickets, tokens, binds, a, n);
  }

  lemma ReportTokens(views: map<Address, View>, tickets: map<Key, Ticket>, tokens: map<Key, Token>,
                    binds: map<OrderingKey, Binding>, a: Address)
    requires BindingsOk(views, tickets, tokens, binds) && Fits(views, tickets, tokens, binds, a, EReport)
    ensures RefsOk(TokensNext(tokens, a, views[a], EReport), BindsNext(binds, a, views[a], EReport))
    ensures PinsOk(tickets, TokensNext(tokens, a, views[a], EReport), BindsNext(binds, a, views[a], EReport))
    ensures HasToken(tokens, views[a].report.value, ByReport(a))
  {
    hide TokensHeld, KeysOf;
    var s := views[a].report.value;
    assert HasToken(tokens, s, ByReport(a));
    if s.orderingKey.Some? {
      ReleaseCounts(tokens, binds, s.key);
      forall l | l in tokens && l != s.key
        ensures tokens[l].orderingKey in Release(binds, s.orderingKey.value)
        ensures Release(binds, s.orderingKey.value)[tokens[l].orderingKey].account == binds[tokens[l].orderingKey].account
      {
        ReleasePins(tickets, tokens, binds, s.key, l);
      }
    }
  }

  lemma ReportHeld(views: map<Address, View>, tickets: map<Key, Ticket>, tokens: map<Key, Token>,
                    binds: map<OrderingKey, Binding>, a: Address)
    requires BindingsOk(views, tickets, tokens, binds) && Fits(views, tickets, tokens, binds, a, EReport)
    ensures TokensHeld(views[a := ViewNext(views[a], EReport)], tickets, TokensNext(tokens, a, views[a], EReport))
  {
    hide RefsOk, PinsOk, HoldersHaveTokens, TurnsTicketed, TicketsOk;
    ReportTokens(views, tickets, tokens, binds, a);
  }

  lemma ReportHolders(views: map<Address, View>, tickets: map<Key, Ticket>, tokens: map<Key, Token>,
                    binds: map<OrderingKey, Binding>, a: Address)
    requires BindingsOk(views, tickets, tokens, binds) && Fits(views, tickets, tokens, binds, a, EReport)
    ensures HoldersHaveTokens(views[a := ViewNext(views[a], EReport)], tickets, TokensNext(tokens, a, views[a], EReport))
  {
    hide RefsOk, PinsOk, TokensHeld, TurnsTicketed, TicketsOk;
    ReportTokens(views, tickets, tokens, binds, a);
  }

  lemma ReportKeeps(views: map<Address, View>, tickets: map<Key, Ticket>, tokens: map<Key, Token>,
                    binds: map<OrderingKey, Binding>, a: Address)
    requires BindingsOk(views, tickets, tokens, binds) && Fits(views, tickets, tokens, binds, a, EReport)
    ensures BindingsOk(views[a := ViewNext(views[a], EReport)], tickets,
                       TokensNext(tokens, a, views[a], EReport), BindsNext(binds, a, views[a], EReport))
  {
    hide RefsOk, PinsOk, TokensHeld, HoldersHaveTokens, TurnsTicketed, TicketsOk;
    TurnsKept(views, views[a := ViewNext(views[a], EReport)], tickets);
    ReportTokens(views, tickets, tokens, binds, a);
    ReportHeld(views, tickets, tokens, binds, a);
    ReportHolders(views, tickets, tokens, binds, a);
  }

  lemma BindTokens(views: map<Address, View>, tickets: map<Key, Ticket>, tokens: map<Key, Token>,
                    binds: map<OrderingKey, Binding>, a: Address, n: nat, slot: Slot)
    requires BindingsOk(views, tickets, tokens, binds) && Fits(views, tickets, tokens, binds, a, EBind(n, slot))
    ensures RefsOk(TokensNext(tokens, a, views[a], EBind(n, slot)), BindsNext(binds, a, views[a], EBind(n, slot)))
    ensures PinsOk(tickets, TokensNext(tokens, a, views[a], EBind(n, slot)), BindsNext(binds, a, views[a], EBind(n, slot)))
  {
    hide RefsOk, TokensHeld;
    if slot.orderingKey.Some? {
      var o := slot.orderingKey.value;
      if o !in binds { UnboundHasNoTokens(tickets, tokens, binds, o); }
      BindCounts(tokens, binds, slot.key, o, ByTx(a, n), a);
    }
  }

  lemma BindHeld(views: map<Address, View>, tickets: map<Key, Ticket>, tokens: map<Key, Token>,
                    binds: map<OrderingKey, Binding>, a: Address, n: nat, slot: Slot)
    requires BindingsOk(views, tickets, tokens, binds) && Fits(views, tickets, tokens, binds, a, EBind(n, slot))
    ensures TokensHeld(views[a := ViewNext(views[a], EBind(n, slot))], tickets, TokensNext(tokens, a, views[a], EBind(n, slot)))
  {
    hide RefsOk, PinsOk, HoldersHaveTokens, TurnsTicketed, TicketsOk;
  }

  lemma BindHolders(views: map<Address, View>, tickets: map<Key, Ticket>, tokens: map<Key, Token>,
                    binds: map<OrderingKey, Binding>, a: Address, n: nat, slot: Slot)
    requires BindingsOk(views, tickets, tokens, binds) && Fits(views, tickets, tokens, binds, a, EBind(n, slot))
    ensures HoldersHaveTokens(views[a := ViewNext(views[a], EBind(n, slot))], tickets, TokensNext(tokens, a, views[a], EBind(n, slot)))
  {
    hide RefsOk, PinsOk, TokensHeld, TurnsTicketed, TicketsOk;
  }

  lemma BindKeeps(views: map<Address, View>, tickets: map<Key, Ticket>, tokens: map<Key, Token>,
                    binds: map<OrderingKey, Binding>, a: Address, n: nat, slot: Slot)
    requires BindingsOk(views, tickets, tokens, binds) && Fits(views, tickets, tokens, binds, a, EBind(n, slot))
    ensures BindingsOk(views[a := ViewNext(views[a], EBind(n, slot))], tickets,
                       TokensNext(tokens, a, views[a], EBind(n, slot)), BindsNext(binds, a, views[a], EBind(n, slot)))
  {
    hide RefsOk, PinsOk, TokensHeld, HoldersHaveTokens, TurnsTicketed, TicketsOk;
    TurnsKept(views, views[a := ViewNext(views[a], EBind(n, slot))], tickets);
    BindTokens(views, tickets, tokens, binds, a, n, slot);
    BindHeld(views, tickets, tokens, binds, a, n, slot);
    BindHolders(views, tickets, tokens, binds, a, n, slot);
  }

  lemma EffectKeeps(views: map<Address, View>, tickets: map<Key, Ticket>, tokens: map<Key, Token>,
                    binds: map<OrderingKey, Binding>, a: Address, e: Effect)
    requires BindingsOk(views, tickets, tokens, binds) && Fits(views, tickets, tokens, binds, a, e)
    ensures BindingsOk(views[a := ViewNext(views[a], e)], TicketsNext(tickets, views[a], e),
                       TokensNext(tokens, a, views[a], e), BindsNext(binds, a, views[a], e))
  {
    hide BindingsOk;
    match e
    case NoEffect => assert views[a := views[a]] == views;
    case EOpen(slot) => OpenKeeps(views, tickets, tokens, binds, a, slot);
    case EThrow => ThrowKeeps(views, tickets, tokens, binds, a);
    case ELand(n) => LandKeeps(views, tickets, tokens, binds, a, n);
    case EClose => CloseKeeps(views, tickets, tokens, binds, a);
    case EDrop(n) => DropKeeps(views, tickets, tokens, binds, a, n);
    case EReport => ReportKeeps(views, tickets, tokens, binds, a);
    case EBind(n, slot) => BindKeeps(views, tickets, tokens, binds, a, n, slot);
  }

  lemma RouteTokens(views: map<Address, View>, tickets: map<Key, Ticket>, tokens: map<Key, Token>,
                    binds: map<OrderingKey, Binding>, sub: Submission, prefer: Address)
    requires BindingsOk(views, tickets, tokens, binds)
    requires sub.key !in tickets && sub.key !in tokens && prefer in views
    ensures var t := Ticket(sub, Target(binds, sub.orderingKey, prefer), InQueue);
            && t.account in views
            && RefsOk(AddToken(tokens, sub.key, sub.orderingKey, BySubmit), BindSome(binds, sub.orderingKey, prefer))
            && PinsOk(tickets[sub.key := t], AddToken(tokens, sub.key, sub.orderingKey, BySubmit), BindSome(binds, sub.orderingKey, prefer))
  {
    hide RefsOk, TokensHeld, HoldersHaveTokens, TurnsTicketed, TicketsOk;
    if sub.orderingKey.Some? {
      var o := sub.orderingKey.value;
      if o !in binds { UnboundHasNoTokens(tickets, tokens, binds, o); }
      BindCounts(tokens, binds, sub.key, o, BySubmit, prefer);
      if o in binds { PinnedIsOwned(views, tickets, tokens, binds, o); }
    }
  }

  lemma RouteHolders(views: map<Address, View>, tickets: map<Key, Ticket>, tokens: map<Key, Token>, t: Ticket)
    requires TurnsTicketed(views, tickets) && TicketsOk(views, tickets)
    requires TokensHeld(views, tickets, tokens) && HoldersHaveTokens(views, tickets, tokens)
    requires t.sub.key !in tickets && t.sub.key !in tokens && t.account in views && t.phase.InQueue?
    ensures var k := t.sub.key;
            var more := AddToken(tokens, k, t.sub.orderingKey, BySubmit);
            TokensHeld(views, tickets[k := t], more) && HoldersHaveTokens(views, tickets[k := t], more)
    ensures TurnsTicketed(views, tickets[t.sub.key := t]) && TicketsOk(views, tickets[t.sub.key := t])
  {
  }

  /** Routing a submit acquires a ref. */
  lemma RouteKeeps(views: map<Address, View>, tickets: map<Key, Ticket>, tokens: map<Key, Token>,
                   binds: map<OrderingKey, Binding>, sub: Submission, prefer: Address)
    requires BindingsOk(views, tickets, tokens, binds)
    requires sub.key !in tickets && sub.key !in tokens && prefer in views
    ensures BindingsOk(views, tickets[sub.key := Ticket(sub, Target(binds, sub.orderingKey, prefer), InQueue)],
                       AddToken(tokens, sub.key, sub.orderingKey, BySubmit), BindSome(binds, sub.orderingKey, prefer))
  {
    hide RefsOk, PinsOk, TokensHeld, HoldersHaveTokens, TurnsTicketed, TicketsOk;
    RouteTokens(views, tickets, tokens, binds, sub, prefer);
    RouteHolders(views, tickets, tokens, Ticket(sub, Target(binds, sub.orderingKey, prefer), InQueue));
  }

  lemma PinnedIsOwned(views: map<Address, View>, tickets: map<Key, Ticket>, tokens: map<Key, Token>,
                      binds: map<OrderingKey, Binding>, o: OrderingKey)
    requires BindingsOk(views, tickets, tokens, binds) && o in binds
    ensures binds[o].account in views
    ensures exists k :: k in tokens && tokens[k].orderingKey == o
  {
    assert KeysOf(tokens, o) != {};
    var k :| k in KeysOf(tokens, o);
    assert HeldBy(views, tickets, k, tokens[k]);
  }

  lemma ReleaseTokens(views: map<Address, View>, tickets: map<Key, Ticket>, tokens: map<Key, Token>,
                      binds: map<OrderingKey, Binding>, k: Key)
    requires BindingsOk(views, tickets, tokens, binds) && k in tickets && tickets[k].phase.HasThrown?
    ensures var o := tickets[k].sub.orderingKey;
            && RefsOk(RemoveToken(tokens, k, o), ReleaseSome(binds, o))
            && PinsOk(tickets - {k}, RemoveToken(tokens, k, o), ReleaseSome(binds, o))
            && HasToken(tokens, Slot(k, o), BySubmit)
  {
    hide KeysOf, TurnsTicketed, TicketsOk;
    assert AtLarge(views, tickets[k]);
    if tickets[k].sub.orderingKey.Some? {
      ReleaseCounts(tokens, binds, k);
      forall l | l in tokens && l != k
        ensures tokens[l].orderingKey in Release(binds, tokens[k].orderingKey)
        ensures Release(binds, tokens[k].orderingKey)[tokens[l].orderingKey].account == binds[tokens[l].orderingKey].account
      {
        ReleasePins(tickets, tokens, binds, k, l);
      }
    }
  }

  lemma ReleaseHolders(views: map<Address, View>, tickets: map<Key, Ticket>, tokens: map<Key, Token>, k: Key)
    requires TurnsTicketed(views, tickets) && TicketsOk(views, tickets)
    requires TokensHeld(views, tickets, tokens) && HoldersHaveTokens(views, tickets, tokens)
    requires k in tickets && tickets[k].phase.HasThrown?
    requires HasToken(tokens, Slot(k, tickets[k].sub.orderingKey), BySubmit)
    ensures var less := RemoveToken(tokens, k, tickets[k].sub.orderingKey);
            TokensHeld(views, tickets - {k}, less) && HoldersHaveTokens(views, tickets - {k}, less)
    ensures TurnsTicketed(views, tickets - {k}) && TicketsOk(views, tickets - {k})
  {
  }

  /** A failed submit releases its ref. */
  lemma ReleaseKeeps(views: map<Address, View>, tickets: map<Key, Ticket>, tokens: map<Key, Token>,
                     binds: map<OrderingKey, Binding>, k: Key)
    requires BindingsOk(views, tickets, tokens, binds) && k in tickets && tickets[k].phase.HasThrown?
    ensures var o := tickets[k].sub.orderingKey;
            BindingsOk(views, tickets - {k}, RemoveToken(tokens, k, o), ReleaseSome(binds, o))
  {
    hide RefsOk, PinsOk, TokensHeld, HoldersHaveTokens, TurnsTicketed, TicketsOk;
    ReleaseTokens(views, tickets, tokens, binds, k);
    ReleaseHolders(views, tickets, tokens, k);
  }
}
