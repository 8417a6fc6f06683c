/** The shared constants and the lazy account creation every handler goes through. */
module LogbookHelpers {
  import opened Encoding
  import opened LogbookSchema

  const ZeroBI: nat := 0
  const OneBI: nat := 1

  /** The store after a lookup, and the id and entity of the account the lookup returned. */
  datatype Touched = Touched(store: Store, id: string, account: Account)

  /**
   `r` is `s` after get-or-creating the accounts with the given ids: those ids are
   all present, accounts already stored are untouched, and each new account starts
   with a zero balance.
   */
  predicate AccountsCreated(s: map<string, Account>, r: map<string, Account>, ids: set<string>) {
    && r.Keys == s.Keys + ids
    && (forall k :: k in s ==> r[k] == s[k])
    && (forall k :: k in r && k !in s ==> r[k] == Account(0))
  }

  /** The accounts after making sure `id` is present: created with a zero balance if it was not. */
  function EnsureAccount(accounts: map<string, Account>, id: string): (r: map<string, Account>)
    ensures AccountsCreated(accounts, r, {id})
  {
    if id in accounts then accounts else accounts[id := Account(ZeroBI)]
  }

  /** Loads the account of `address`, creating and saving it with a zero balance if absent. */
  function GetOrCreateAccount(s: Store, address: Bytes): (r: Touched)
    ensures r.id == BytesHex(address)
    ensures r.store == s.(accounts := EnsureAccount(s.accounts, r.id))
    ensures r.id in r.store.accounts && r.store.accounts[r.id] == r.account
    ensures r.id in s.accounts ==> r.store == s && r.account == s.accounts[r.id]
    ensures r.id !in s.accounts ==> r.account.balance == 0
  {
    var id := BytesHex(address);
    if id in s.accounts then
      Touched(s, id, s.accounts[id])
    else
      var account := Account(ZeroBI);
      Touched(s.(accounts := s.accounts[id := account]), id, account)
  }

  /** A second lookup of the same address returns the same account and changes nothing. */
  lemma GetOrCreateAccountIdempotent(s: Store, address: Bytes)
    ensures var once := GetOrCreateAccount(s, address);
      GetOrCreateAccount(once.store, address) == once
  {
  }

  /** Looking up one address leaves the account of every other address as it was. */
  lemma GetOrCreateAccountKeepsOthers(s: Store, address: Bytes, other: Bytes)
    requires other != address
    ensures var r := GetOrCreateAccount(s, address).store;
      && (BytesHex(other) in r.accounts <==> BytesHex(other) in s.accounts)
      && (BytesHex(other) in s.accounts ==> r.accounts[BytesHex(other)] == s.accounts[BytesHex(other)])
  {
    if BytesHex(other) == BytesHex(address) {
      BytesHexInjective(other, address);
    }
  }
}
