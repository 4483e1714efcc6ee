/** The data that the pool persists, caches and signs (src/store/models.ts, src/types). */
module Records {
  datatype Option<+T> = None | Some(value: T)

  datatype Result<+T> = Ok(value: T) | Err

  // Identifiers and texts the protocol never looks into.
  type Address(==, !new)
  type OwnerId(==, !new)
  type Key(==, !new)
  type OrderingKey(==, !new)
  type Hex(==, !new)
  type Metadata(==, !new)
  type ErrorText(==, !new)
  type Hash = int

  /** The hash of a row whose transaction has not been sent yet. */
  const ZERO_HASH: Hash := 0

  datatype Fees =
    | Legacy(gasPrice: int)
    | Eip1559(maxFeePerGas: int, maxPriorityFeePerGas: int)

  datatype Status = Pending | Broadcast | Mined | Confirmed | Reverted | Failed

  /** A terminal row never transitions again; the recovery set is the other rows. */
  predicate IsTerminal(s: Status) {
    s.Confirmed? || s.Reverted? || s.Failed?
  }

  datatype Event = EvBroadcast | EvMined | EvReplaced | EvConfirmed | EvReverted | EvFailed

  predicate IsEnd(e: Event) {
    e.EvConfirmed? || e.EvReverted? || e.EvFailed?
  }

  function EndEvent(s: Status): Event
    requires IsTerminal(s)
  {
    match s
    case Confirmed => EvConfirmed
    case Reverted => EvReverted
    case Failed => EvFailed
  }

  datatype SignableTx = SignableTx(
    chainId: int, nonce: nat, to: Address, data: Option<Hex>, value: Option<int>, gas: int, fees: Fees)

  datatype TxRecord = TxRecord(
    key: Key, ownerId: OwnerId, chainId: int, account: Address, nonce: nat,
    to: Address, data: Option<Hex>, value: Option<int>, gas: int, fees: Fees,
    hash: Hash, status: Status, attempts: int, submittedAt: int, minedEmitted: bool,
    orderingKey: Option<OrderingKey>, metadata: Option<Metadata>, error: Option<ErrorText>,
    canReplace: Option<bool>, updatedAt: int)

  datatype AccountRecord = AccountRecord(
    ownerId: OwnerId, chainId: int, address: Address, derivationIndex: Option<int>, nonceCursor: nat,
    balanceWei: int, healthy: bool, updatedAt: int)

  /** Everything needed to sign the transaction of a row again. */
  function SignableOf(r: TxRecord): SignableTx {
    SignableTx(r.chainId, r.nonce, r.to, r.data, r.value, r.gas, r.fees)
  }

  /** Two payloads that differ in nothing but their fees. */
  predicate SameTx(s: SignableTx, t: SignableTx) {
    s.(fees := t.fees) == t
  }

  /** One write to the transaction table, seen through its active rows: a terminal row leaves them. */
  function Upsert(rows: map<Key, TxRecord>, r: TxRecord): map<Key, TxRecord> {
    if IsTerminal(r.status) then rows - {r.key} else rows[r.key := r]
  }

  function Max(a: int, b: int): int {
    if a < b then b else a
  }
}
