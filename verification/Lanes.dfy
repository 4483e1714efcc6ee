/** The cursor of a nonce lane: the next nonce to hand out, if it was ever seeded. */
module Cursors {
  import opened Records

  /** A cache lane that was never seeded starts at 0. */
  function NextNonce(cursor: Option<nat>): nat {
    if cursor.Some? then cursor.value else 0
  }

  /** A seed only moves a cursor forward. */
  function SeedCursor(cursor: Option<nat>, atLeast: nat): Option<nat> {
    if cursor.None? || cursor.value < atLeast then Some(atLeast) else cursor
  }
}

/** The two nonce lanes: the one of the cache (src/cache/in-memory.cache.ts with reseedOnDrift of
    src/account/managed-account.ts) and the stand-alone one (src/account/nonce-lane.ts). */
module Lanes {
  import opened Records
  import opened Cursors

  /** How the function run under a lane ends; chain is the pending count read after a drift, 0 if
      reading it fails. */
  datatype Outcome = Done | Refused | Drifted(chain: nat)

  /** What happens to a lane: a forward seed, or a turn. Seeds may land while the turn is open;
      count is what the chain would answer to an unseeded lane, if it answers. */
  datatype Op =
    | SeedTo(atLeast: nat)
    | Turn(count: Option<nat>, during: seq<nat>, outcome: Outcome)

  /** A turn that was given a nonce. */
  datatype Grant = Grant(nonce: nat, done: bool)

  // ----- specification -----

  function ForwardAll(cursor: Option<nat>, seeds: seq<nat>): Option<nat>
    decreases |seeds|
  {
    if seeds == [] then cursor else ForwardAll(SeedCursor(cursor, seeds[0]), seeds[1..])
  }

  function LaneGrants(cursor: Option<nat>, op: Op): Option<nat> {
    if op.SeedTo? then None else Some(NextNonce(cursor))
  }

  /** The cache lane: success assigns the nonce plus one, a drift seeds forward. */
  function LaneMoves(cursor: Option<nat>, op: Op): Option<nat> {
    match op
    case SeedTo(n) => SeedCursor(cursor, n)
    case Turn(_, during, outcome) =>
      var nonce := LaneGrants(cursor, op).value;
      match outcome
      case Done => Some(nonce + 1)
      case Refused => ForwardAll(cursor, during)
      case Drifted(chain) => SeedCursor(ForwardAll(cursor, during), Max(chain, nonce + 1))
  }

  function NonceLaneGrants(cursor: Option<nat>, op: Op): Option<nat> {
    if op.SeedTo? then None else if cursor.Some? then cursor else op.count
  }

  /** The stand-alone lane: a drift assigns the cursor, whatever was seeded meanwhile. */
  function NonceLaneMoves(cursor: Option<nat>, op: Op): Option<nat> {
    match op
    case SeedTo(n) => SeedCursor(cursor, n)
    case Turn(_, during, outcome) =>
      var nonce := NonceLaneGrants(cursor, op);
      if nonce.None? then cursor
      else
        match outcome
        case Done => Some(nonce.value + 1)
        case Refused => ForwardAll(cursor, during)
        case Drifted(chain) => Some(Max(chain, nonce.value + 1))
  }

  /** All turns of a run that got a nonce, in order. */
  function LaneRun(cursor: Option<nat>, ops: seq<Op>): seq<Grant>
    decreases |ops|
  {
    if ops == [] then []
    else
      var nonce := LaneGrants(cursor, ops[0]);
      (if nonce.Some? then [Grant(nonce.value, ops[0].outcome.Done?)] else [])
      + LaneRun(LaneMoves(cursor, ops[0]), ops[1..])
  }

  function NonceLaneRun(cursor: Option<nat>, ops: seq<Op>): seq<Grant>
    decreases |ops|
  {
    if ops == [] then []
    else
      var nonce := NonceLaneGrants(cursor, ops[0]);
      (if nonce.Some? then [Grant(nonce.value, ops[0].outcome.Done?)] else [])
      + NonceLaneRun(NonceLaneMoves(cursor, ops[0]), ops[1..])
  }

  // ----- the lanes as objects -----

  /** The lane of one account in the cache. A turn is open from Open to Close or Fail: the promise
      chain of the source lets no other turn in between. */
  class Lane {
    var cursor: Option<nat>
    var busy: bool

    constructor ()
      ensures cursor == None && !busy
    {
      cursor, busy := None, false;
    }

    method Open(seed: nat) returns (nonce: nat)
      requires !busy
      modifies this
      ensures busy && cursor == old(cursor)
      ensures nonce == if cursor.Some? then cursor.value else seed
    {
      busy := true;
      nonce := if cursor.Some? then cursor.value else seed;
    }

    method Close(nonce: nat)
      requires busy
      modifies this
      ensures !busy && cursor == Some(nonce + 1)
    {
      cursor, busy := Some(nonce + 1), false;
    }

    method Fail()
      requires busy
      modifies this
      ensures !busy && cursor == old(cursor)
    {
      busy := false;
    }

    method Seed(atLeast: nat)
      modifies this
      ensures cursor == SeedCursor(old(cursor), atLeast) && busy == old(busy)
    {
      cursor := if cursor.None? then Some(atLeast) else Some(Max(cursor.value, atLeast));
    }

    /** A whole turn as submit runs it, with the seeds that land inside. */
    method Run(during: seq<nat>, outcome: Outcome) returns (nonce: nat)
      requires !busy
      modifies this
      ensures !busy
      ensures Some(nonce) == LaneGrants(old(cursor), Turn(None, during, outcome))
      ensures cursor == LaneMoves(old(cursor), Turn(None, during, outcome))
    {
      nonce := Open(0);
      var i := 0;
      while i < |during|
        invariant 0 <= i <= |during| && busy
        invariant ForwardAll(cursor, during[i..]) == ForwardAll(old(cursor), during)
      {
        Seed(during[i]);
        i := i + 1;
      }
      match outcome {
        case Done => Close(nonce);
        case Refused => Fail();
        case Drifted(chain) =>
          Seed(Max(chain, nonce + 1));
          Fail();
      }
    }
  }

  class NonceLane {
    var cursor: Option<nat>

    constructor ()
      ensures cursor == None
    {
      cursor := None;
    }

    method Reseed(atLeast: nat)
      modifies this
      ensures cursor == SeedCursor(old(cursor), atLeast)
    {
      cursor := if cursor.None? then Some(atLeast) else Some(Max(cursor.value, atLeast));
    }

    /** Fails before the function runs if the lane is unseeded and the chain does not answer. */
    method WithNextNonce(count: Option<nat>, during: seq<nat>, outcome: Outcome) returns (nonce: Option<nat>)
      modifies this
      ensures nonce == NonceLaneGrants(old(cursor), Turn(count, during, outcome))
      ensures cursor == NonceLaneMoves(old(cursor), Turn(count, during, outcome))
    {
      nonce := if cursor.Some? then cursor else count;
      if nonce.None? {
        return;
      }
      var i := 0;
      while i < |during|
        invariant 0 <= i <= |during|
        invariant ForwardAll(cursor, during[i..]) == ForwardAll(old(cursor), during)
      {
        Reseed(during[i]);
        i := i + 1;
      }
      match outcome {
        case Done => cursor := Some(nonce.value + 1);
        case Refused =>
        case Drifted(chain) => cursor := Some(Max(chain, nonce.value + 1));
      }
    }
  }

  // ----- refinement -----

  /** No seed that lands inside a drifting turn goes beyond where the drift puts the lane. */
  predicate NoLostSeed(cursor: nat, op: Op) {
    op.Turn? && op.outcome.Drifted? ==> forall i | 0 <= i < |op.during| :: op.during[i] <= Max(op.outcome.chain, cursor + 1)
  }

  predicate NoLostSeeds(cursor: nat, ops: seq<Op>)
    decreases |ops|
  {
    ops == [] || (NoLostSeed(cursor, ops[0]) && NoLostSeeds(NextNonce(LaneMoves(Some(cursor), ops[0])), ops[1..]))
  }

  lemma {:induction false} ForwardAllBounds(cursor: nat, seeds: seq<nat>, bound: nat)
    ensures ForwardAll(Some(cursor), seeds).Some?
    ensures cursor <= ForwardAll(Some(cursor), seeds).value
    ensures ForwardAll(Some(cursor), seeds).value <= bound <==> cursor <= bound && forall i | 0 <= i < |seeds| :: seeds[i] <= bound
    decreases |seeds|
  {
    if seeds != [] {
      ForwardAllBounds(Max(cursor, seeds[0]), seeds[1..], bound);
      assert forall i | 0 < i < |seeds| :: seeds[i] == seeds[1..][i - 1];
      assert (forall i | 0 <= i < |seeds| :: seeds[i] <= bound)
        <==> seeds[0] <= bound && forall i | 0 <= i < |seeds[1..]| :: seeds[1..][i] <= bound;
    }
  }

  /** From the same cursor both lanes grant the same nonce, and end up at the same cursor exactly
      if no seed inside a drifting turn is lost. */
  lemma OneOp(cursor: nat, op: Op)
    ensures LaneGrants(Some(cursor), op) == NonceLaneGrants(Some(cursor), op)
    ensures LaneMoves(Some(cursor), op).Some?
    ensures LaneMoves(Some(cursor), op) == NonceLaneMoves(Some(cursor), op) <==> NoLostSeed(cursor, op)
  {
    if op.Turn? {
      ForwardAllBounds(cursor, op.during, if op.outcome.Drifted? then Max(op.outcome.chain, cursor + 1) else 0);
    }
  }

  /** Started from the same seed, the two lanes grant the same nonces to every sequence of turns and
      seeds between them. */
  lemma {:induction false} LanesAgree(cursor: nat, ops: seq<Op>)
    requires NoLostSeeds(cursor, ops)
    ensures LaneRun(Some(cursor), ops) == NonceLaneRun(Some(cursor), ops)
    decreases |ops|
  {
    if ops != [] {
      OneOp(cursor, ops[0]);
      LanesAgree(LaneMoves(Some(cursor), ops[0]).value, ops[1..]);
    }
  }

  /** A successful turn takes the lane back exactly if a seed inside it went further than the turn. */
  lemma SuccessForgetsSeeds(cursor: nat, count: Option<nat>, during: seq<nat>)
    ensures NextNonce(LaneMoves(Some(cursor), Turn(count, during, Done))) < NextNonce(ForwardAll(Some(cursor), during))
            <==> exists i :: 0 <= i < |during| && during[i] > cursor + 1
  {
    ForwardAllBounds(cursor, during, cursor + 1);
  }

  lemma OneGrant(cursor: nat, count: Option<nat>, outcome: Outcome)
    ensures LaneRun(Some(cursor), [Turn(count, [], outcome)]) == [Grant(cursor, outcome.Done?)]
    ensures NonceLaneRun(Some(cursor), [Turn(count, [], outcome)]) == [Grant(cursor, outcome.Done?)]
  {
    assert [Turn(count, [], outcome)][1..] == [];
  }

  /** A seed that the stand-alone lane loses shows in the next turn. */
  lemma LostSeedShows(cursor: nat, op: Op, count: Option<nat>, outcome: Outcome)
    requires op.Turn?
    ensures LaneRun(Some(cursor), [op, Turn(count, [], outcome)]) == NonceLaneRun(Some(cursor), [op, Turn(count, [], outcome)])
            <==> NoLostSeed(cursor, op)
  {
    OneOp(cursor, op);
    ForwardAllBounds(cursor, op.during, 0);
    var next := Turn(count, [], outcome);
    assert [op, next][1..] == [next];
    var c, d := LaneMoves(Some(cursor), op), NonceLaneMoves(Some(cursor), op);
    OneGrant(c.value, count, outcome);
    OneGrant(d.value, count, outcome);
    assert LaneRun(Some(cursor), [op, next])[1] == Grant(c.value, outcome.Done?);
    assert NonceLaneRun(Some(cursor), [op, next])[1] == Grant(d.value, outcome.Done?);
  }

  /** Never seeded, they agree on a first turn exactly if the chain answers and its count is 0. */
  lemma UnseededAgree(count: Option<nat>, during: seq<nat>, outcome: Outcome)
    ensures LaneRun(None, [Turn(count, during, outcome)]) == NonceLaneRun(None, [Turn(count, during, outcome)]) <==> count == Some(0)
  {
    var op := Turn(count, during, outcome);
    assert [op][1..] == [];
    assert LaneRun(None, [op]) == [Grant(0, outcome.Done?)];
    assert NonceLaneRun(None, [op]) == if count.Some? then [Grant(count.value, outcome.Done?)] else [];
  }

  /** Grants at or above a floor; the ones that succeed push it up. */
  predicate Rising(floor: nat, grants: seq<Grant>)
    decreases |grants|
  {
    grants == [] ||
    (floor <= grants[0].nonce && Rising(if grants[0].done then grants[0].nonce + 1 else floor, grants[1..]))
  }

  lemma {:induction false} RisingWeaker(low: nat, high: nat, grants: seq<Grant>)
    requires Rising(high, grants) && low <= high
    ensures Rising(low, grants)
    decreases |grants|
  {
    if grants != [] && !grants[0].done {
      RisingWeaker(low, high, grants[1..]);
    }
  }

  /** The nonces of successful turns strictly increase: of any two, the later is greater. */
  lemma {:induction false} RisingIncreases(floor: nat, grants: seq<Grant>, i: nat, j: nat)
    requires Rising(floor, grants) && i < |grants| && grants[i].done
    ensures floor <= grants[i].nonce
    ensures i < j < |grants| && grants[j].done ==> grants[i].nonce < grants[j].nonce
    decreases |grants|
  {
    if i > 0 {
      RisingIncreases(if grants[0].done then grants[0].nonce + 1 else floor, grants[1..], i - 1, if j > 0 then j - 1 else 0);
    } else if j > 0 && j < |grants| && grants[j].done {
      RisingIncreases(grants[0].nonce + 1, grants[1..], j - 1, j - 1);
    }
  }

  lemma {:induction false} ForwardAllKeeps(cursor: Option<nat>, seeds: seq<nat>)
    ensures NextNonce(cursor) <= NextNonce(ForwardAll(cursor, seeds))
    ensures cursor.Some? ==> ForwardAll(cursor, seeds).Some?
    decreases |seeds|
  {
    if seeds != [] {
      ForwardAllKeeps(SeedCursor(cursor, seeds[0]), seeds[1..]);
    }
  }

  lemma {:induction false} LaneRises(cursor: Option<nat>, ops: seq<Op>)
    ensures Rising(NextNonce(cursor), LaneRun(cursor, ops))
    decreases |ops|
  {
    if ops != [] {
      var next := LaneMoves(cursor, ops[0]);
      LaneRises(next, ops[1..]);
      if ops[0].Turn? { ForwardAllKeeps(cursor, ops[0].during); }
      var nonce := LaneGrants(cursor, ops[0]);
      var floor := if nonce.Some? && ops[0].outcome.Done? then nonce.value + 1 else NextNonce(cursor);
      assert floor <= NextNonce(next);
      RisingWeaker(floor, NextNonce(next), LaneRun(next, ops[1..]));
      assert nonce.Some? ==> LaneRun(cursor, ops)[1..] == LaneRun(next, ops[1..]);
      assert nonce.None? ==> LaneRun(cursor, ops) == LaneRun(next, ops[1..]);
    }
  }

  lemma {:induction false} NonceLaneRises(cursor: Option<nat>, ops: seq<Op>)
    ensures Rising(NextNonce(cursor), NonceLaneRun(cursor, ops))
    decreases |ops|
  {
    if ops != [] {
      var next := NonceLaneMoves(cursor, ops[0]);
      NonceLaneRises(next, ops[1..]);
      if ops[0].Turn? { ForwardAllKeeps(cursor, ops[0].during); }
      var nonce := NonceLaneGrants(cursor, ops[0]);
      var floor := if nonce.Some? && ops[0].outcome.Done? then nonce.value + 1 else NextNonce(cursor);
      assert floor <= NextNonce(next);
      RisingWeaker(floor, NextNonce(next), NonceLaneRun(next, ops[1..]));
      assert nonce.Some? ==> NonceLaneRun(cursor, ops)[1..] == NonceLaneRun(next, ops[1..]);
      assert nonce.None? ==> NonceLaneRun(cursor, ops) == NonceLaneRun(next, ops[1..]);
    }
  }

  /** In both lanes, from any cursor and through any seeds, failures and drifts, no nonce that was
      used successfully is granted to a later success, and successes come in increasing order. */
  lemma SuccessesIncrease(cursor: Option<nat>, ops: seq<Op>, i: nat, j: nat)
    ensures var g := LaneRun(cursor, ops);
            i < j < |g| && g[i].done && g[j].done ==> g[i].nonce < g[j].nonce
    ensures var h := NonceLaneRun(cursor, ops);
            i < j < |h| && h[i].done && h[j].done ==> h[i].nonce < h[j].nonce
  {
    var g, h := LaneRun(cursor, ops), NonceLaneRun(cursor, ops);
    LaneRises(cursor, ops);
    NonceLaneRises(cursor, ops);
    if i < |g| && g[i].done { RisingIncreases(NextNonce(cursor), g, i, j); }
    if i < |h| && h[i].done { RisingIncreases(NextNonce(cursor), h, i, j); }
  }

  /** Without seeds or drifts in between, a lane hands out consecutive nonces: each turn gets the
      start plus the number of successes before it. */
  predicate Plain(ops: seq<Op>) {
    forall i | 0 <= i < |ops| :: ops[i].Turn? && ops[i].during == [] && !ops[i].outcome.Drifted?
  }

  function Successes(grants: seq<Grant>): nat {
    if grants == [] then 0 else (if grants[0].done then 1 else 0) + Successes(grants[1..])
  }

  lemma {:induction false} ConsecutiveNonces(cursor: nat, ops: seq<Op>, i: nat)
    requires Plain(ops) && i < |ops|
    ensures |LaneRun(Some(cursor), ops)| == |ops|
    ensures LaneRun(Some(cursor), ops)[i].nonce == cursor + Successes(LaneRun(Some(cursor), ops)[..i])
    decreases |ops|
  {
    var g := LaneRun(Some(cursor), ops);
    var next := LaneMoves(Some(cursor), ops[0]);
    assert g[0] == Grant(cursor, ops[0].outcome.Done?) && g[1..] == LaneRun(next, ops[1..]);
    if |ops| > 1 {
      ConsecutiveNonces(next.value, ops[1..], if i > 0 then i - 1 else 0);
    }
    if i > 0 {
      assert g[..i][1..] == g[1..][..i - 1];
    }
  }
}
