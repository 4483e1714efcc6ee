/** Topping up drained accounts from a treasury, as a step system (src/balance/treasury-funder.ts).

    Calls for different recipients interleave at every await, on one set of marks and one nonce
    lane; a recipient has at most one call open. What the chain answers is a parameter of a step. */
module TreasuryProtocol {
  import opened Records
  import opened FeeOracles
  import opened Cursors
  import opened AccountScripts

  /** Gas of a plain transfer. */
  const TRANSFER_GAS := 21000

  datatype Options = Options(oracle: Oracle, targetBalanceWei: int, minTreasuryWei: Option<int>)

  function Floor(o: Options): int {
    if o.minTreasuryWei.Some? then o.minTreasuryWei.value else 0
  }

  function MaxGasCost(f: Fees): int {
    TRANSFER_GAS * (if f.Legacy? then f.gasPrice else f.maxFeePerGas)
  }

  datatype Transfer = Transfer(to: Address, amount: int, nonce: nat, fees: Fees)

  /** Where the open call for a recipient stands. */
  datatype Progress =
    | Asking                                         // its balance is being read
    | Pricing(amount: int)                           // below target and unmarked
    | Checking(amount: int, fees: Fees)              // the treasury's balance is being read
    | Waiting(amount: int, fees: Fees)               // marked, waiting for the lane
    | Counting(amount: int, fees: Fees)              // has the lane, which is unseeded
    | Sending(amount: int, fees: Fees, nonce: nat)   // has the lane and a nonce
    | Recounting(amount: int, fees: Fees, nonce: nat) // the send drifted
    | Failing                                        // the turn threw, the mark is still there

  /** What has been seen and done, in order. */
  datatype Entry = Saw(addr: Address, balance: int) | Paid(transfer: Transfer)

  datatype Funder = Funder(
    pending: set<Address>, cursor: Option<nat>, holder: Option<Address>, calls: map<Address, Progress>,
    log: seq<Entry>)

  const NewFunder := Funder({}, None, None, map[], [])

  datatype FunderStep =
    | Began(addr: Address)
    | SawBalance(addr: Address, balance: Result<int>)
    | Priced(addr: Address, baseFee: Result<Option<int>>)
    | SawTreasury(addr: Address, treasury: Result<int>)
    | GotLane(addr: Address)
    | Counted(addr: Address, count: Option<nat>)
    | Answered(addr: Address, send: SendAnswer)
    | Recounted(addr: Address, chain: nat)
    | GaveUp(addr: Address)

  function Stage(s: Funder, a: Address): Option<Progress> {
    if a in s.calls then Some(s.calls[a]) else None
  }

  predicate FunderEnabled(s: Funder, t: FunderStep) {
    var now := Stage(s, t.addr);
    match t
    case Began(_) => now.None?
    case SawBalance(_, _) => now.Some? && now.value.Asking?
    case Priced(_, _) => now.Some? && now.value.Pricing?
    case SawTreasury(_, _) => now.Some? && now.value.Checking?
    case GotLane(_) => now.Some? && now.value.Waiting? && s.holder.None?
    case Counted(_, _) => now.Some? && now.value.Counting?
    case Answered(_, _) => now.Some? && now.value.Sending?
    case Recounted(_, _) => now.Some? && now.value.Recounting?
    case GaveUp(_) => now.Some? && now.value.Failing?
  }

  function Go(s: Funder, a: Address, p: Progress): Funder {
    s.(calls := s.calls[a := p])
  }

  function End(s: Funder, a: Address): Funder {
    s.(calls := s.calls - {a})
  }

  /** The check after the balance is synchronous: a recovered recipient loses its mark, a marked one
      is left alone. */
  function AfterBalance(o: Options, s: Funder, a: Address, balance: Result<int>): Funder {
    if balance.Err? then End(s, a)
    else
      var seen := s.(log := s.log + [Saw(a, balance.value)]);
      if balance.value >= o.targetBalanceWei then End(seen, a).(pending := s.pending - {a})
      else if a in s.pending then End(seen, a)
      else Go(seen, a, Pricing(o.targetBalanceWei - balance.value))
  }

  function FunderNext(o: Options, s: Funder, t: FunderStep): Funder
    requires FunderEnabled(s, t)
  {
    var a := t.addr;
    match t
    case Began(_) => Go(s, a, Asking)
    case SawBalance(_, balance) => AfterBalance(o, s, a, balance)
    case Priced(_, baseFee) =>
      (match Price(o.oracle, baseFee)
       case Err => End(s, a)
       case Ok(fees) => Go(s, a, Checking(s.calls[a].amount, fees)))
    case SawTreasury(_, treasury) =>
      var p := s.calls[a];
      if treasury.Err? || treasury.value < p.amount + MaxGasCost(p.fees) + Floor(o) then End(s, a)
      else Go(s, a, Waiting(p.amount, p.fees)).(pending := s.pending + {a})
    case GotLane(_) =>
      var p := s.calls[a];
      Go(s, a, if s.cursor.Some? then Sending(p.amount, p.fees, s.cursor.value) else Counting(p.amount, p.fees))
        .(holder := Some(a))
    case Counted(_, count) =>
      var p := s.calls[a];
      if count.None? then Go(s, a, Failing).(holder := None) else Go(s, a, Sending(p.amount, p.fees, count.value))
    case Answered(_, send) =>
      var p := s.calls[a];
      (match send
       case Sent(_) =>
         End(s, a).(holder := None, cursor := Some(p.nonce + 1), log := s.log + [Paid(Transfer(a, p.amount, p.nonce, p.fees))])
       case DriftError => Go(s, a, Recounting(p.amount, p.fees, p.nonce))
       case OtherError => Go(s, a, Failing).(holder := None))
    case Recounted(_, chain) =>
      Go(s, a, Failing).(holder := None, cursor := Some(Max(chain, s.calls[a].nonce + 1)))
    case GaveUp(_) => End(s, a).(pending := s.pending - {a})
  }

  function FunderRun(o: Options, s: Funder, steps: seq<FunderStep>): Result<Funder> {
    if steps == [] then Ok(s)
    else
      match FunderRun(o, s, steps[..|steps| - 1])
      case Err => Err
      case Ok(d) =>
        var t := steps[|steps| - 1];
        if FunderEnabled(d, t) then Ok(FunderNext(o, d, t)) else Err
  }

  // ----- what every step keeps -----

  /** A top-up of the recipient was accepted, and its balance has not been seen at the target since. */
  predicate Outstanding(o: Options, log: seq<Entry>, a: Address) {
    log != [] &&
    match log[|log| - 1]
    case Paid(t) => t.to == a || Outstanding(o, log[..|log| - 1], a)
    case Saw(b, balance) => !(b == a && balance >= o.targetBalanceWei) && Outstanding(o, log[..|log| - 1], a)
  }

  /** A recipient with an outstanding top-up is marked, and no call for it has got past the mark. */
  ghost predicate MarksOk(o: Options, s: Funder) {
    forall a | Outstanding(o, s.log, a) :: a in s.pending && (a in s.calls ==> s.calls[a].Asking?)
  }

  predicate HasLane(p: Progress) {
    p.Counting? || p.Sending? || p.Recounting?
  }

  /** Past the check of the treasury's balance the recipient is marked. */
  predicate PastMark(p: Progress) {
    p.Waiting? || HasLane(p) || p.Failing?
  }

  /** The lane has at most one turn open, and that turn has the cursor's nonce. */
  predicate FunderLaneOk(s: Funder) {
    && (forall a | a in s.calls && PastMark(s.calls[a]) :: a in s.pending)
    && (forall a | a in s.calls && HasLane(s.calls[a]) :: s.holder == Some(a))
    && (forall a | a in s.calls && s.calls[a].Counting? :: s.cursor.None?)
    && (forall a | a in s.calls && (s.calls[a].Sending? || s.calls[a].Recounting?) && s.cursor.Some? ::
          s.calls[a].nonce == s.cursor.value)
  }

  /** The nonces of accepted top-ups strictly increase and stay below the cursor. */
  predicate LogRises(log: seq<Entry>, cursor: Option<nat>) {
    && (forall i, j | 0 <= i < j < |log| && log[i].Paid? && log[j].Paid? :: log[i].transfer.nonce < log[j].transfer.nonce)
    && (forall i | 0 <= i < |log| && log[i].Paid? :: cursor.Some? && log[i].transfer.nonce < cursor.value)
  }

  /** Between two accepted top-ups of one recipient its balance was seen at the target. */
  predicate SeenBetween(o: Options, log: seq<Entry>, i: nat, j: nat)
    requires i < j < |log| && log[i].Paid?
  {
    exists m :: i < m < j && log[m].Saw? && log[m].addr == log[i].transfer.to && log[m].balance >= o.targetBalanceWei
  }

  predicate NoDoubleFunding(o: Options, log: seq<Entry>) {
    forall i, j | 0 <= i < j < |log| && log[i].Paid? && log[j].Paid? && log[i].transfer.to == log[j].transfer.to ::
      SeenBetween(o, log, i, j)
  }

  ghost predicate FunderInv(o: Options, s: Funder) {
    MarksOk(o, s) && FunderLaneOk(s) && LogRises(s.log, s.cursor) && NoDoubleFunding(o, s.log)
  }

  lemma OutstandingAppend(o: Options, log: seq<Entry>, e: Entry, a: Address)
    ensures Outstanding(o, log + [e], a) <==>
              match e
              case Paid(t) => t.to == a || Outstanding(o, log, a)
              case Saw(b, balance) => !(b == a && balance >= o.targetBalanceWei) && Outstanding(o, log, a)
  {
    assert (log + [e])[..|log + [e]| - 1] == log;
  }

  /** With nothing outstanding, every earlier top-up was followed by a balance at the target. */
  lemma {:induction false} SeenSince(o: Options, log: seq<Entry>, i: nat)
    requires i < |log| && log[i].Paid? && !Outstanding(o, log, log[i].transfer.to)
    ensures exists m :: i < m < |log| && log[m].Saw? && log[m].addr == log[i].transfer.to && log[m].balance >= o.targetBalanceWei
  {
    var n := |log| - 1;
    var last := log[n];
    if last.Saw? && last.addr == log[i].transfer.to && last.balance >= o.targetBalanceWei {
    } else {
      assert i < n;
      SeenSince(o, log[..n], i);
      var m :| i < m < n && log[..n][m].Saw? && log[..n][m].addr == log[i].transfer.to
               && log[..n][m].balance >= o.targetBalanceWei;
      assert log[m] == log[..n][m];
    }
  }

  lemma SentKeepsLog(o: Options, log: seq<Entry>, t: Transfer)
    requires NoDoubleFunding(o, log) && !Outstanding(o, log, t.to)
    ensures NoDoubleFunding(o, log + [Paid(t)])
  {
    var more := log + [Paid(t)];
    forall i, j | 0 <= i < j < |more| && more[i].Paid? && more[j].Paid? && more[i].transfer.to == more[j].transfer.to
      ensures SeenBetween(o, more, i, j)
    {
      if j == |log| {
        SeenSince(o, log, i);
        var m :| i < m < |log| && log[m].Saw? && log[m].addr == log[i].transfer.to && log[m].balance >= o.targetBalanceWei;
        assert more[m] == log[m];
      } else {
        assert SeenBetween(o, log, i, j);
        var m :| i < m < j && log[m].Saw? && log[m].addr == log[i].transfer.to && log[m].balance >= o.targetBalanceWei;
        assert more[m] == log[m];
      }
    }
  }

  lemma SawKeepsLog(o: Options, log: seq<Entry>, a: Address, balance: int)
    requires NoDoubleFunding(o, log)
    ensures NoDoubleFunding(o, log + [Saw(a, balance)])
  {
    var more := log + [Saw(a, balance)];
    forall i, j | 0 <= i < j < |more| && more[i].Paid? && more[j].Paid? && more[i].transfer.to == more[j].transfer.to
      ensures SeenBetween(o, more, i, j)
    {
      assert SeenBetween(o, log, i, j);
      var m :| i < m < j && log[m].Saw? && log[m].addr == log[i].transfer.to && log[m].balance >= o.targetBalanceWei;
      assert more[m] == log[m];
    }
  }

  lemma SawKeeps(o: Options, s: Funder, a: Address, balance: Result<int>)
    requires FunderInv(o, s) && a in s.calls && s.calls[a].Asking?
    ensures FunderInv(o, AfterBalance(o, s, a, balance))
  {
    hide NoDoubleFunding, Outstanding, LogRises;
    if balance.Ok? {
      SeenRises(s.log, s.cursor, a, balance.value);
      SawKeepsLog(o, s.log, a, balance.value);
      forall b ensures Outstanding(o, s.log + [Saw(a, balance.value)], b) <==>
                         !(a == b && balance.value >= o.targetBalanceWei) && Outstanding(o, s.log, b)
      {
        OutstandingAppend(o, s.log, Saw(a, balance.value), b);
      }
    }
  }

  lemma PaidRises(log: seq<Entry>, cursor: Option<nat>, t: Transfer)
    requires LogRises(log, cursor) && (cursor.Some? ==> t.nonce == cursor.value)
    ensures LogRises(log + [Paid(t)], Some(t.nonce + 1))
  {
  }

  lemma CursorRises(log: seq<Entry>, cursor: Option<nat>, next: nat)
    requires LogRises(log, cursor) && (cursor.Some? ==> cursor.value <= next)
    ensures LogRises(log, Some(next))
  {
  }

  lemma SeenRises(log: seq<Entry>, cursor: Option<nat>, a: Address, balance: int)
    requires LogRises(log, cursor)
    ensures LogRises(log + [Saw(a, balance)], cursor)
  {
  }

  lemma AnsweredKeeps(o: Options, s: Funder, a: Address, send: SendAnswer)
    requires FunderInv(o, s) && a in s.calls && s.calls[a].Sending?
    ensures FunderInv(o, FunderNext(o, s, Answered(a, send)))
  {
    hide NoDoubleFunding, Outstanding, LogRises;
    if send.Sent? {
      var t := Transfer(a, s.calls[a].amount, s.calls[a].nonce, s.calls[a].fees);
      SentKeepsLog(o, s.log, t);
      PaidRises(s.log, s.cursor, t);
      forall b ensures Outstanding(o, s.log + [Paid(t)], b) <==> b == a || Outstanding(o, s.log, b) {
        OutstandingAppend(o, s.log, Paid(t), b);
      }
    }
  }

  lemma FunderStepKeeps(o: Options, s: Funder, t: FunderStep)
    requires FunderInv(o, s) && FunderEnabled(s, t)
    ensures FunderInv(o, FunderNext(o, s, t))
  {
    hide NoDoubleFunding, Outstanding, LogRises;
    match t
    case SawBalance(a, balance) => SawKeeps(o, s, a, balance);
    case Answered(a, send) => AnsweredKeeps(o, s, a, send);
    case Recounted(a, chain) => CursorRises(s.log, s.cursor, Max(chain, s.calls[a].nonce + 1));
    case _ =>
  }

  lemma {:induction false} FunderRunKeeps(o: Options, steps: seq<FunderStep>)
    requires FunderRun(o, NewFunder, steps).Ok?
    ensures FunderInv(o, FunderRun(o, NewFunder, steps).value)
  {
    hide FunderEnabled, FunderNext;
    if steps != [] {
      FunderRunKeeps(o, steps[..|steps| - 1]);
      hide FunderInv;
      FunderStepKeeps(o, FunderRun(o, NewFunder, steps[..|steps| - 1]).value, steps[|steps| - 1]);
    }
  }

  /** However calls for different recipients interleave, a recipient is not funded again before its
      balance was seen at the target after the last accepted top-up. */
  lemma NeverFundedTwice(o: Options, steps: seq<FunderStep>, s: Funder, i: nat, j: nat)
    requires FunderRun(o, NewFunder, steps) == Ok(s)
    requires i < j < |s.log| && s.log[i].Paid? && s.log[j].Paid? && s.log[i].transfer.to == s.log[j].transfer.to
    ensures exists m :: i < m < j && s.log[m].Saw? && s.log[m].addr == s.log[i].transfer.to
                        && s.log[m].balance >= o.targetBalanceWei
  {
    FunderRunKeeps(o, steps);
    assert SeenBetween(o, s.log, i, j);
  }

  /** In every interleaving the nonces of accepted top-ups strictly increase. */
  lemma TopUpNoncesIncrease(o: Options, steps: seq<FunderStep>, s: Funder, i: nat, j: nat)
    requires FunderRun(o, NewFunder, steps) == Ok(s)
    requires i < j < |s.log| && s.log[i].Paid? && s.log[j].Paid?
    ensures s.log[i].transfer.nonce < s.log[j].transfer.nonce
  {
    FunderRunKeeps(o, steps);
  }
}
