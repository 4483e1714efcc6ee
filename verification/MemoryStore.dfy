/** The default store: two tables held as maps, terminal transactions dropped
    (src/store/in-memory.store.ts). */
module MemoryStore {
  import opened Records

  datatype AccountId = AccountId(chainId: int, address: Address)

  /** The recovery set of one owner on one chain. */
  function Active(rows: map<Key, TxRecord>, ownerId: OwnerId, chainId: int): map<Key, TxRecord> {
    map k | k in rows && rows[k].ownerId == ownerId && rows[k].chainId == chainId && !IsTerminal(rows[k].status) :: rows[k]
  }

  function AccountsOf(accounts: map<AccountId, AccountRecord>, ownerId: OwnerId, chainId: int): map<AccountId, AccountRecord> {
    map i | i in accounts && accounts[i].ownerId == ownerId && accounts[i].chainId == chainId :: accounts[i]
  }

  /** Each row of a table once, in some order. */
  ghost predicate Lists<K(!new), V>(list: seq<V>, table: map<K, V>) {
    exists keys: seq<K> :: ListsBy(list, table, keys)
  }

  ghost predicate ListsBy<K(!new), V>(list: seq<V>, table: map<K, V>, keys: seq<K>) {
    && |keys| == |list|
    && (forall i | 0 <= i < |keys| :: keys[i] in table && table[keys[i]] == list[i])
    && (forall i, j | 0 <= i < j < |keys| :: keys[i] != keys[j])
    && (forall k | k in table :: k in keys)
  }

  class InMemoryStore {
    var accounts: map<AccountId, AccountRecord>
    var transactions: map<Key, TxRecord>

    constructor ()
      ensures accounts == map[] && transactions == map[]
    {
      accounts, transactions := map[], map[];
    }

    method UpsertAccount(rec: AccountRecord)
      modifies this
      ensures accounts == old(accounts)[AccountId(rec.chainId, rec.address) := rec]
      ensures transactions == old(transactions)
    {
      accounts := accounts[AccountId(rec.chainId, rec.address) := rec];
    }

    method UpsertTransaction(rec: TxRecord)
      modifies this
      ensures transactions == Upsert(old(transactions), rec)
      ensures accounts == old(accounts)
    {
      if IsTerminal(rec.status) {
        transactions := transactions - {rec.key};
      } else {
        transactions := transactions[rec.key := rec];
      }
    }

    method LoadAccounts(ownerId: OwnerId, chainId: int) returns (list: seq<AccountRecord>)
      ensures Lists(list, AccountsOf(accounts, ownerId, chainId))
    {
      list := [];
      ghost var keys: seq<AccountId> := [];
      var rest := accounts.Keys;
      while rest != {}
        invariant rest <= accounts.Keys
        invariant ListsBy(list, AccountsOf(map i | i in accounts && i !in rest :: accounts[i], ownerId, chainId), keys)
        decreases |rest|
      {
        var i: AccountId :| i in rest;
        rest := rest - {i};
        if accounts[i].ownerId == ownerId && accounts[i].chainId == chainId {
          list, keys := list + [accounts[i]], keys + [i];
        }
      }
      assert (map i | i in accounts && i !in rest :: accounts[i]) == accounts;
    }

    method LoadActiveTransactions(ownerId: OwnerId, chainId: int) returns (list: seq<TxRecord>)
      ensures Lists(list, Active(transactions, ownerId, chainId))
    {
      list := [];
      ghost var keys: seq<Key> := [];
      var rest := transactions.Keys;
      while rest != {}
        invariant rest <= transactions.Keys
        invariant ListsBy(list, Active(map k | k in transactions && k !in rest :: transactions[k], ownerId, chainId), keys)
        decreases |rest|
      {
        var k: Key :| k in rest;
        rest := rest - {k};
        var t := transactions[k];
        if t.ownerId == ownerId && t.chainId == chainId && !IsTerminal(t.status) {
          list, keys := list + [t], keys + [k];
        }
      }
      assert (map k | k in transactions && k !in rest :: transactions[k]) == transactions;
    }
  }

  /** The table after a sequence of writes from empty. */
  function MemoryAfter(writes: seq<TxRecord>): map<Key, TxRecord> {
    if writes == [] then map[] else Upsert(MemoryAfter(writes[..|writes| - 1]), writes[|writes| - 1])
  }

  /** What a caller can rely on without knowing about the deletes: the active set holds, for each
      key, the last write under that key if that was not terminal. */
  function LastWrite(writes: seq<TxRecord>, k: Key): Option<TxRecord> {
    if writes == [] then None
    else if writes[|writes| - 1].key == k then Some(writes[|writes| - 1])
    else LastWrite(writes[..|writes| - 1], k)
  }

  lemma {:induction false} MemoryHoldsLastWrites(writes: seq<TxRecord>, k: Key)
    ensures k in MemoryAfter(writes) <==> LastWrite(writes, k).Some? && !IsTerminal(LastWrite(writes, k).value.status)
    ensures k in MemoryAfter(writes) ==> MemoryAfter(writes)[k] == LastWrite(writes, k).value
  {
    if writes != [] {
      MemoryHoldsLastWrites(writes[..|writes| - 1], k);
    }
  }
}
