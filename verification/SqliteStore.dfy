/** The durable store: rows of text and integers, terminal rows kept (src/store/sqlite.store.ts).
    The database is a map by idempotency key. */
module SqliteStore {
  import opened Records
  import opened MemoryStore

  // ----- bigints as decimal text -----

  function Digit(d: nat): char
    requires d < 10
  {
    "0123456789"[d]
  }

  function PrintNat(n: nat): (s: string)
    ensures s != []
  {
    if n < 10 then [Digit(n)] else PrintNat(n / 10) + [Digit(n % 10)]
  }

  function Print(n: int): string {
    if n < 0 then "-" + PrintNat(-n) else PrintNat(n)
  }

  function ParseDigit(c: char): Option<nat> {
    if '0' <= c <= '9' then Some(c as int - '0' as int) else None
  }

  function ParseNat(s: string): Result<nat> {
    if s == [] then Err
    else
      var last := ParseDigit(s[|s| - 1]);
      if last.None? then Err
      else if |s| == 1 then Ok(last.value)
      else
        match ParseNat(s[..|s| - 1])
        case Err => Err
        case Ok(high) => Ok(10 * high + last.value)
  }

  /** BigInt of a decimal text. */
  function Parse(s: string): Result<int> {
    var negative := s != [] && s[0] == '-';
    match ParseNat(if negative then s[1..] else s)
    case Err => Err
    case Ok(n) =>
      var magnitude: int := n;
      Ok(if negative then -magnitude else magnitude)
  }

  lemma DigitRoundTrip(d: nat)
    requires d < 10
    ensures ParseDigit(Digit(d)) == Some(d)
  {
  }

  lemma {:induction false} NatRoundTrip(n: nat)
    ensures ParseNat(PrintNat(n)) == Ok(n)
    ensures PrintNat(n)[0] != '-'
  {
    DigitRoundTrip(n % 10);
    if n >= 10 {
      NatRoundTrip(n / 10);
      var s := PrintNat(n);
      assert s[..|s| - 1] == PrintNat(n / 10) && s[|s| - 1] == Digit(n % 10);
      assert s[0] == PrintNat(n / 10)[0];
    }
  }

  /** Every bigint survives its text form, negative ones included. */
  lemma IntRoundTrip(n: int)
    ensures Parse(Print(n)) == Ok(n)
  {
    NatRoundTrip(if n < 0 then -n else n);
    if n < 0 { assert Print(n)[1..] == PrintNat(-n); }
  }

  // ----- rows -----

  datatype TxRow = TxRow(
    idempotencyKey: Key, ownerId: OwnerId, chainId: int, account: Address, nonce: nat,
    toAddress: Address, data: Option<Hex>, value: Option<string>, gas: string,
    feeType: string, gasPrice: Option<string>, maxFeePerGas: Option<string>, maxPriorityFeePerGas: Option<string>,
    hash: Hash, status: string, attempts: int, submittedAt: int, minedEmitted: int,
    orderingKey: Option<OrderingKey>, metadata: Option<Metadata>, error: Option<ErrorText>,
    replaceability: Option<int>, updatedAt: int)

  datatype FeeColumns = FeeColumns(
    feeType: string, gasPrice: Option<string>, maxFeePerGas: Option<string>, maxPriorityFeePerGas: Option<string>)

  function StatusText(s: Status): string {
    match s
    case Pending => "pending"
    case Broadcast => "broadcast"
    case Mined => "mined"
    case Confirmed => "confirmed"
    case Reverted => "reverted"
    case Failed => "failed"
  }

  function ParseStatus(s: string): Result<Status> {
    if s == "pending" then Ok(Pending)
    else if s == "broadcast" then Ok(Broadcast)
    else if s == "mined" then Ok(Mined)
    else if s == "confirmed" then Ok(Confirmed)
    else if s == "reverted" then Ok(Reverted)
    else if s == "failed" then Ok(Failed)
    else Err
  }

  function FeesToRow(f: Fees): FeeColumns {
    FeeColumns(
      if f.Legacy? then "legacy" else "eip1559",
      if f.Legacy? then Some(Print(f.gasPrice)) else None,
      if f.Eip1559? then Some(Print(f.maxFeePerGas)) else None,
      if f.Eip1559? then Some(Print(f.maxPriorityFeePerGas)) else None)
  }

  /** A text column that must be there. */
  function Required(text: Option<string>): Result<int> {
    if text.Some? then Parse(text.value) else Err
  }

  function RowToFees(c: FeeColumns): Result<Fees> {
    if c.feeType == "legacy" then
      match Required(c.gasPrice)
      case Err => Err
      case Ok(price) => Ok(Legacy(price))
    else
      match (Required(c.maxFeePerGas), Required(c.maxPriorityFeePerGas))
      case (Ok(fee), Ok(tip)) => Ok(Eip1559(fee, tip))
      case _ => Err
  }

  function BoolToInt(b: bool): int {
    if b then 1 else 0
  }

  function ColumnsOf(row: TxRow): FeeColumns {
    FeeColumns(row.feeType, row.gasPrice, row.maxFeePerGas, row.maxPriorityFeePerGas)
  }

  function Encode(r: TxRecord): TxRow {
    var fees := FeesToRow(r.fees);
    TxRow(r.key, r.ownerId, r.chainId, r.account, r.nonce, r.to, r.data,
          if r.value.Some? then Some(Print(r.value.value)) else None, Print(r.gas),
          fees.feeType, fees.gasPrice, fees.maxFeePerGas, fees.maxPriorityFeePerGas,
          r.hash, StatusText(r.status), r.attempts, r.submittedAt, BoolToInt(r.minedEmitted),
          r.orderingKey, r.metadata, r.error,
          if r.canReplace.Some? then Some(BoolToInt(r.canReplace.value)) else None, r.updatedAt)
  }

  function Decode(row: TxRow): Result<TxRecord> {
    var value := if row.value.Some? then Parse(row.value.value) else Ok(0);
    match (value, Parse(row.gas), RowToFees(ColumnsOf(row)), ParseStatus(row.status))
    case (Ok(v), Ok(gas), Ok(fees), Ok(status)) =>
      Ok(TxRecord(row.idempotencyKey, row.ownerId, row.chainId, row.account, row.nonce, row.toAddress, row.data,
                  if row.value.Some? then Some(v) else None, gas, fees, row.hash, status, row.attempts,
                  row.submittedAt, row.minedEmitted == 1, row.orderingKey, row.metadata, row.error,
                  if row.replaceability.Some? then Some(row.replaceability.value == 1) else None, row.updatedAt))
    case _ => Err
  }

  lemma FeesRoundTrip(f: Fees)
    ensures RowToFees(FeesToRow(f)) == Ok(f)
  {
    match f
    case Legacy(price) => IntRoundTrip(price);
    case Eip1559(fee, tip) =>
      IntRoundTrip(fee);
      IntRoundTrip(tip);
  }

  /** A row read back is the record that was written: every bigint, both fee shapes, an absent value,
      and the three states of the replaceable flag. */
  lemma RecordRoundTrip(r: TxRecord)
    ensures Decode(Encode(r)) == Ok(r)
  {
    hide Print, Parse, FeesToRow, RowToFees;
    FeesRoundTrip(r.fees);
    IntRoundTrip(r.gas);
    if r.value.Some? { IntRoundTrip(r.value.value); }
    assert ColumnsOf(Encode(r)) == FeesToRow(r.fees);
  }

  datatype AccountRow = AccountRow(
    ownerId: OwnerId, chainId: int, address: Address, derivationIndex: Option<int>, nonceCursor: nat,
    balanceWei: string, healthy: int, updatedAt: int)

  function EncodeAccount(r: AccountRecord): AccountRow {
    AccountRow(r.ownerId, r.chainId, r.address, r.derivationIndex, r.nonceCursor, Print(r.balanceWei),
               BoolToInt(r.healthy), r.updatedAt)
  }

  function DecodeAccount(row: AccountRow): Result<AccountRecord> {
    match Parse(row.balanceWei)
    case Err => Err
    case Ok(balance) =>
      Ok(AccountRecord(row.ownerId, row.chainId, row.address, row.derivationIndex, row.nonceCursor, balance,
                       row.healthy == 1, row.updatedAt))
  }

  lemma AccountRoundTrip(r: AccountRecord)
    ensures DecodeAccount(EncodeAccount(r)) == Ok(r)
  {
    hide Print, Parse;
    IntRoundTrip(r.balanceWei);
  }

  // ----- the store -----

  /** The WHERE clause of the recovery query, on the row's text. */
  predicate Selected(row: TxRow, ownerId: OwnerId, chainId: int) {
    && row.ownerId == ownerId && row.chainId == chainId
    && row.status != "confirmed" && row.status != "reverted" && row.status != "failed"
  }

  /** What the rows selected for recovery decode to. */
  function ActiveRows(rows: map<Key, TxRow>, ownerId: OwnerId, chainId: int): map<Key, Result<TxRecord>> {
    map k | k in rows && Selected(rows[k], ownerId, chainId) :: Decode(rows[k])
  }

  class SqliteStore {
    var accountRows: map<AccountId, AccountRow>
    var rows: map<Key, TxRow>

    constructor ()
      ensures accountRows == map[] && rows == map[]
    {
      accountRows, rows := map[], map[];
    }

    method UpsertAccount(rec: AccountRecord)
      modifies this
      ensures accountRows == old(accountRows)[AccountId(rec.chainId, rec.address) := EncodeAccount(rec)]
      ensures rows == old(rows)
    {
      accountRows := accountRows[AccountId(rec.chainId, rec.address) := EncodeAccount(rec)];
    }

    method UpsertTransaction(rec: TxRecord)
      modifies this
      ensures rows == old(rows)[rec.key := Encode(rec)]
      ensures accountRows == old(accountRows)
    {
      rows := rows[rec.key := Encode(rec)];
    }

    method LoadActiveTransactions(ownerId: OwnerId, chainId: int) returns (list: seq<Result<TxRecord>>)
      ensures Lists(list, ActiveRows(rows, ownerId, chainId))
    {
      list := [];
      ghost var keys: seq<Key> := [];
      var rest := rows.Keys;
      while rest != {}
        invariant rest <= rows.Keys
        invariant ListsBy(list, ActiveRows(map k | k in rows && k !in rest :: rows[k], ownerId, chainId), keys)
        decreases |rest|
      {
        var k: Key :| k in rest;
        rest := rest - {k};
        if Selected(rows[k], ownerId, chainId) {
          list, keys := list + [Decode(rows[k])], keys + [k];
        }
      }
      assert (map k | k in rows && k !in rest :: rows[k]) == rows;
    }
  }

  // ----- the two stores agree -----

  function SqliteAfter(writes: seq<TxRecord>): map<Key, TxRow> {
    if writes == [] then map[]
    else SqliteAfter(writes[..|writes| - 1])[writes[|writes| - 1].key := Encode(writes[|writes| - 1])]
  }

  lemma {:induction false} SqliteHoldsLastWrites(writes: seq<TxRecord>, k: Key)
    ensures k in SqliteAfter(writes) <==> LastWrite(writes, k).Some?
    ensures k in SqliteAfter(writes) ==> SqliteAfter(writes)[k] == Encode(LastWrite(writes, k).value)
  {
    hide Encode;
    if writes != [] {
      SqliteHoldsLastWrites(writes[..|writes| - 1], k);
    }
  }

  lemma SelectedIffActive(r: TxRecord, ownerId: OwnerId, chainId: int)
    ensures Selected(Encode(r), ownerId, chainId) <==> r.ownerId == ownerId && r.chainId == chainId && !IsTerminal(r.status)
  {
  }

  /** After any sequence of writes the two stores recover the same transactions, though one keeps its
      terminal rows and the other deletes them. */
  lemma StoresAgree(writes: seq<TxRecord>, ownerId: OwnerId, chainId: int, k: Key)
    ensures var memory, sqlite := Active(MemoryAfter(writes), ownerId, chainId), ActiveRows(SqliteAfter(writes), ownerId, chainId);
            && (k in memory <==> k in sqlite)
            && (k in sqlite ==> sqlite[k] == Ok(memory[k]))
  {
    hide Encode, Decode, Selected;
    MemoryHoldsLastWrites(writes, k);
    SqliteHoldsLastWrites(writes, k);
    if LastWrite(writes, k).Some? {
      SelectedIffActive(LastWrite(writes, k).value, ownerId, chainId);
      RecordRoundTrip(LastWrite(writes, k).value);
    }
  }
}
