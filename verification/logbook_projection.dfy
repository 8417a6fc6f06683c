/**
 The Logbook subgraph as a whole: events are routed to their handlers and applied
 one after another. The lemmas here hold for every sequence of events, and show
 what the handlers' choices add up to over a run.
 */
module LogbookProjection {
  import opened Wrappers
  import opened Encoding
  import opened LogbookSchema
  import opened LogbookHelpers
  import opened LogbookMapping

  /** The decoded parameters of one Logbook contract event. */
  datatype Params =
    | Donate(tokenId: nat, donor: Bytes, amount: nat)
    | ForkEvent(tokenId: nat, newTokenId: nat, end: Bytes, amount: nat)
    | PayEvent(tokenId: nat, sender: Bytes, recipient: Bytes, amount: nat, purpose: nat)
    | Content(author: Bytes, contentHash: Bytes, content: string)
    | Publish(tokenId: nat, contentHash: Bytes)
    | SetDescription(tokenId: nat, description: string)
    | SetForkPrice(tokenId: nat, amount: nat)
    | SetTitle(tokenId: nat, title: string)
    | Transfer(from: Bytes, to: Bytes, tokenId: nat)
    | Withdraw(account: Bytes)

  datatype Event = Event(meta: Meta, params: Params)

  /** How a stored log may change: its author, content and creation time never do,
      a set source stays, and its list of logbooks only grows at the end. */
  predicate LogEvolves(before: Log, after: Log) {
    && after.author == before.author
    && after.content == before.content
    && after.createdAt == before.createdAt
    && (!SourceUnset(before.source) ==> after.source == before.source)
    && before.logbooks <= after.logbooks
  }

  /** How a stored logbook may change: its creation time stays and its counters never fall. */
  predicate LogbookEvolves(before: Logbook, after: Logbook) {
    && after.createdAt == before.createdAt
    && before.forkCount <= after.forkCount
    && before.donationCount <= after.donationCount
    && before.transferCount <= after.transferCount
  }

  /** `r` is a later state of `s`: nothing was deleted, and logs and logbooks evolved. */
  predicate Grows(s: Store, r: Store) {
    && s.accounts.Keys <= r.accounts.Keys
    && s.logbooks.Keys <= r.logbooks.Keys
    && s.logs.Keys <= r.logs.Keys
    && s.donations.Keys <= r.donations.Keys
    && s.forks.Keys <= r.forks.Keys
    && s.pays.Keys <= r.pays.Keys
    && (forall k :: k in s.logs ==> LogEvolves(s.logs[k], r.logs[k]))
    && (forall k :: k in s.logbooks ==> LogbookEvolves(s.logbooks[k], r.logbooks[k]))
  }

  lemma GrowsTransitive(s1: Store, s2: Store, s3: Store)
    requires Grows(s1, s2) && Grows(s2, s3)
    ensures Grows(s1, s3)
  {
    forall k | k in s1.logs
      ensures LogEvolves(s1.logs[k], s3.logs[k])
    {
      var a, b, c := s1.logs[k], s2.logs[k], s3.logs[k];
      assert a.logbooks <= b.logbooks <= c.logbooks;
    }
  }

  /** Replacing one log by an evolved version of it evolves every stored log. */
  lemma LogsEvolveByUpdate(logs: map<string, Log>, id: string, after: Log)
    requires id in logs ==> LogEvolves(logs[id], after)
    ensures forall k :: k in logs ==> LogEvolves(logs[k], logs[id := after][k])
  {
    forall k | k in logs
      ensures LogEvolves(logs[k], logs[id := after][k])
    {
      if k != id {
        assert logs[k].logbooks <= logs[k].logbooks;
      }
    }
  }

  /** Every stored account has a zero balance. */
  predicate AllBalancesZero(s: Store) {
    forall k :: k in s.accounts ==> s.accounts[k].balance == 0
  }

  /** The logbook records no log: no logs, a zero log count and no publish time. */
  predicate HoldsNoLogs(logbook: Logbook) {
    logbook.logs == [] && logbook.logCount == 0 && logbook.loggedAt == None
  }

  /** `after` records the same logs as `before`: same list, log count and publish time. */
  predicate SameLogs(before: Logbook, after: Logbook) {
    after.logs == before.logs && after.logCount == before.logCount && after.loggedAt == before.loggedAt
  }

  /** Every stored logbook records no log. */
  predicate NoLogbookLogs(s: Store) {
    forall k :: k in s.logbooks ==> HoldsNoLogs(s.logbooks[k])
  }

  /** No stored balance rises from `s` to `r`, and an account new in `r` has balance 0. */
  predicate BalancesNeverRise(s: Store, r: Store) {
    && (forall k :: k in s.accounts && k in r.accounts ==> r.accounts[k].balance <= s.accounts[k].balance)
    && (forall k :: k in r.accounts && k !in s.accounts ==> r.accounts[k].balance == 0)
  }

  /** A stored logbook keeps the logs it records, and a logbook new in `r` records none. */
  predicate LogbookLogsFrozen(s: Store, r: Store) {
    && (forall k :: k in s.logbooks && k in r.logbooks ==> SameLogs(s.logbooks[k], r.logbooks[k]))
    && (forall k :: k in r.logbooks && k !in s.logbooks ==> HoldsNoLogs(r.logbooks[k]))
  }

  /**
   What one handler may do to the store: grow it, raise no balance, and leave the
   logs a logbook records as they were.
   */
  predicate Step(s: Store, r: Store) {
    && Grows(s, r)
    && BalancesNeverRise(s, r)
    && LogbookLogsFrozen(s, r)
  }

  /** Raising no balance keeps all balances zero; freezing logbook logs keeps them all empty. */
  lemma FrozenKeepsInvariants(s: Store, r: Store)
    requires BalancesNeverRise(s, r) && LogbookLogsFrozen(s, r)
    ensures AllBalancesZero(s) ==> AllBalancesZero(r)
    ensures NoLogbookLogs(s) ==> NoLogbookLogs(r)
  {
  }

  /** Two steps in a row raise no balance and freeze logbook logs, taken together. */
  lemma FrozenTransitive(s1: Store, s2: Store, s3: Store)
    requires Grows(s1, s2)
    requires BalancesNeverRise(s1, s2) && LogbookLogsFrozen(s1, s2)
    requires BalancesNeverRise(s2, s3) && LogbookLogsFrozen(s2, s3)
    ensures BalancesNeverRise(s1, s3) && LogbookLogsFrozen(s1, s3)
  {
  }

  /** A donation's effect, as `HandleDonate` states it, is a step. */
  lemma DonateEffectStep(s: Store, r: Store, logbookId: string, donorId: string,
                         donationId: string, donation: Donation)
    requires r.accounts == EnsureAccount(s.accounts, donorId)
    requires r.donations == s.donations[donationId := donation]
    requires logbookId in s.logbooks ==>
      r.logbooks == s.logbooks[logbookId := s.logbooks[logbookId].(donationCount := s.logbooks[logbookId].donationCount + 1)]
    requires logbookId !in s.logbooks ==> r.logbooks == s.logbooks
    requires r.logs == s.logs && r.forks == s.forks && r.pays == s.pays
    ensures Step(s, r)
  {
    assert forall k :: k in s.logs ==> s.logs[k].logbooks <= r.logs[k].logbooks;
  }

  lemma DonateStep(s: Store, m: Meta, tokenId: nat, donor: Bytes, amount: nat)
    ensures Step(s, HandleDonate(s, m, tokenId, donor, amount))
  {
    DonateEffectStep(s, HandleDonate(s, m, tokenId, donor, amount), NatHex(tokenId), BytesHex(donor),
                     BytesHex(m.txHash), Donation(NatHex(tokenId), BytesHex(donor), amount, m.timestamp));
  }

  /** A fork's effect on the store, as `HandleFork` states it, is a step. */
  lemma ForkEffectStep(s: Store, r: Store, logbookId: string, logId: string, newEntry: string,
                       forkId: string, fork: Fork)
    requires r.forks == s.forks[forkId := fork]
    requires logbookId in s.logbooks ==>
      r.logbooks == s.logbooks[logbookId := s.logbooks[logbookId].(forkCount := s.logbooks[logbookId].forkCount + 1)]
    requires logbookId !in s.logbooks ==> r.logbooks == s.logbooks
    requires logId in s.logs ==>
      r.logs == s.logs[logId := s.logs[logId].(logbooks := s.logs[logId].logbooks + [newEntry])]
    requires logId !in s.logs ==> r.logs == s.logs
    requires r.accounts == s.accounts && r.donations == s.donations && r.pays == s.pays
    ensures Step(s, r)
  {
    if logId in s.logs {
      var before := s.logs[logId];
      assert before.logbooks <= before.logbooks + [newEntry];
      LogsEvolveByUpdate(s.logs, logId, before.(logbooks := before.logbooks + [newEntry]));
    }
  }

  lemma ForkStep(s: Store, m: Meta, tokenId: nat, newTokenId: nat, end: Bytes, amount: nat)
    ensures Step(s, HandleFork(s, m, tokenId, newTokenId, end, amount))
  {
    var fromId, toId := NatHex(tokenId), NatHex(newTokenId);
    ForkEffectStep(s, HandleFork(s, m, tokenId, newTokenId, end, amount), fromId, BytesHex(end), toId,
                   ForkId(fromId, toId), Fork(fromId, toId, BytesHex(end), amount, m.timestamp));
  }

  /** A payment's effect, as `HandlePay` states it, is a step. */
  lemma PayEffectStep(s: Store, r: Store, senderId: string, recipientId: string, payId: string, pay: Pay)
    requires r.accounts == EnsureAccount(EnsureAccount(s.accounts, senderId), recipientId)
    requires r.pays == s.pays[payId := pay]
    requires r.logbooks == s.logbooks && r.logs == s.logs && r.donations == s.donations && r.forks == s.forks
    ensures Step(s, r)
  {
    assert forall k :: k in s.logs ==> s.logs[k].logbooks <= r.logs[k].logbooks;
  }

  lemma PayStep(s: Store, m: Meta, tokenId: nat, sender: Bytes, recipient: Bytes, amount: nat, purpose: nat)
    ensures Step(s, HandlePay(s, m, tokenId, sender, recipient, amount, purpose))
  {
    PayEffectStep(s, HandlePay(s, m, tokenId, sender, recipient, amount, purpose), BytesHex(sender),
                  BytesHex(recipient), BytesHex(m.txHash),
                  Pay(NatHex(tokenId), BytesHex(sender), BytesHex(recipient), amount, PurposeName(purpose), m.timestamp));
  }

  lemma ContentStep(s: Store, m: Meta, author: Bytes, contentHash: Bytes, content: string)
    ensures Step(s, HandleContent(s, m, author, contentHash, content))
  {
  }

  lemma PublishStep(s: Store, m: Meta, tokenId: nat, contentHash: Bytes)
    ensures Step(s, HandlePublish(s, m, tokenId, contentHash))
  {
  }

  lemma SetDescriptionStep(s: Store, tokenId: nat, description: string)
    ensures Step(s, HandleSetDescription(s, tokenId, description))
  {
  }

  lemma SetForkPriceStep(s: Store, tokenId: nat, amount: nat)
    ensures Step(s, HandleSetForkPrice(s, tokenId, amount))
  {
  }

  lemma SetTitleStep(s: Store, tokenId: nat, title: string)
    ensures Step(s, HandleSetTitle(s, tokenId, title))
  {
  }

  /** What `HandleTransfer` promises about the store it returns. */
  predicate TransferEffect(s: Store, r: Store, fromId: string, toId: string, logbookId: string) {
    && r.accounts == EnsureAccount(EnsureAccount(s.accounts, fromId), toId)
    && logbookId in r.logbooks && r.logbooks == s.logbooks[logbookId := r.logbooks[logbookId]]
    && (logbookId !in s.logbooks ==>
          var logbook := r.logbooks[logbookId];
          logbook.logs == [] && logbook.logCount == 0 && logbook.loggedAt == None)
    && (logbookId in s.logbooks ==>
          r.logbooks[logbookId] ==
            s.logbooks[logbookId].(owner := toId, transferCount := s.logbooks[logbookId].transferCount + 1))
    && r.logs == s.logs && r.donations == s.donations && r.forks == s.forks && r.pays == s.pays
  }

  lemma TransferEffectGrows(s: Store, r: Store, fromId: string, toId: string, logbookId: string)
    requires TransferEffect(s, r, fromId, toId, logbookId)
    ensures Grows(s, r)
  {
    assert forall k :: k in s.logs ==> s.logs[k].logbooks <= r.logs[k].logbooks;
  }

  lemma TransferEffectFrozen(s: Store, r: Store, fromId: string, toId: string, logbookId: string)
    requires TransferEffect(s, r, fromId, toId, logbookId)
    ensures BalancesNeverRise(s, r)
    ensures LogbookLogsFrozen(s, r)
  {
  }

  /** A transfer's effect, as `HandleTransfer` states it, is a step. */
  lemma TransferEffectStep(s: Store, r: Store, fromId: string, toId: string, logbookId: string)
    requires TransferEffect(s, r, fromId, toId, logbookId)
    ensures Step(s, r)
  {
    TransferEffectGrows(s, r, fromId, toId, logbookId);
    TransferEffectFrozen(s, r, fromId, toId, logbookId);
  }

  lemma TransferStep(s: Store, m: Meta, from: Bytes, to: Bytes, tokenId: nat)
    ensures Step(s, HandleTransfer(s, m, from, to, tokenId))
  {
    TransferEffectStep(s, HandleTransfer(s, m, from, to, tokenId), BytesHex(from), BytesHex(to), NatHex(tokenId));
  }

  lemma WithdrawStep(s: Store, account: Bytes)
    ensures Step(s, HandleWithdraw(s, account))
  {
  }

  /** Applies one event: the handler its kind is routed to. */
  function Handle(s: Store, e: Event): (r: Store)
    ensures Step(s, r)
  {
    match e.params
    case Donate(tokenId, donor, amount) =>
      DonateStep(s, e.meta, tokenId, donor, amount);
      HandleDonate(s, e.meta, tokenId, donor, amount)
    case ForkEvent(tokenId, newTokenId, end, amount) =>
      ForkStep(s, e.meta, tokenId, newTokenId, end, amount);
      HandleFork(s, e.meta, tokenId, newTokenId, end, amount)
    case PayEvent(tokenId, sender, recipient, amount, purpose) =>
      PayStep(s, e.meta, tokenId, sender, recipient, amount, purpose);
      HandlePay(s, e.meta, tokenId, sender, recipient, amount, purpose)
    case Content(author, contentHash, content) =>
      ContentStep(s, e.meta, author, contentHash, content);
      HandleContent(s, e.meta, author, contentHash, content)
    case Publish(tokenId, contentHash) =>
      PublishStep(s, e.meta, tokenId, contentHash);
      HandlePublish(s, e.meta, tokenId, contentHash)
    case SetDescription(tokenId, description) =>
      SetDescriptionStep(s, tokenId, description);
      HandleSetDescription(s, tokenId, description)
    case SetForkPrice(tokenId, amount) =>
      SetForkPriceStep(s, tokenId, amount);
      HandleSetForkPrice(s, tokenId, amount)
    case SetTitle(tokenId, title) =>
      SetTitleStep(s, tokenId, title);
      HandleSetTitle(s, tokenId, title)
    case Transfer(from, to, tokenId) =>
      TransferStep(s, e.meta, from, to, tokenId);
      HandleTransfer(s, e.meta, from, to, tokenId)
    case Withdraw(account) =>
      WithdrawStep(s, account);
      HandleWithdraw(s, account)
  }

  /** Applies the events in order, each to the store the previous one left. */
  function HandleAll(s: Store, es: seq<Event>): Store
    decreases |es|
  {
    if es == [] then s else HandleAll(Handle(s, es[0]), es[1..])
  }

  /** Over any run nothing is deleted, logs are write-once up to their growing list of
      logbooks and their first source, and logbook counters never fall. */
  lemma {:induction false} HandleAllGrows(s: Store, es: seq<Event>)
    ensures Grows(s, HandleAll(s, es))
    decreases |es|
  {
    if es == [] {
      assert Grows(s, s) by {
        forall k | k in s.logs
          ensures s.logs[k].logbooks <= s.logs[k].logbooks
        {
        }
      }
    } else {
      var next := Handle(s, es[0]);
      HandleAllGrows(next, es[1..]);
      GrowsTransitive(s, next, HandleAll(next, es[1..]));
    }
  }

  /**
   Over any run no stored balance rises and every account created has balance 0;
   every stored logbook keeps the logs it records and every logbook created records
   none.
   */
  lemma {:induction false} HandleAllFrozen(s: Store, es: seq<Event>)
    ensures BalancesNeverRise(s, HandleAll(s, es))
    ensures LogbookLogsFrozen(s, HandleAll(s, es))
    decreases |es|
  {
    if es != [] {
      var next := Handle(s, es[0]);
      HandleAllFrozen(next, es[1..]);
      FrozenTransitive(s, next, HandleAll(next, es[1..]));
    }
  }

  /** If every balance is zero before a run, it still is after it. */
  lemma BalancesStayZero(s: Store, es: seq<Event>)
    requires AllBalancesZero(s)
    ensures AllBalancesZero(HandleAll(s, es))
  {
    HandleAllFrozen(s, es);
    FrozenKeepsInvariants(s, HandleAll(s, es));
  }

  /** If no stored logbook has a log before a run, none has after it. */
  lemma LogbooksStayEmpty(s: Store, es: seq<Event>)
    requires NoLogbookLogs(s)
    ensures NoLogbookLogs(HandleAll(s, es))
  {
    HandleAllFrozen(s, es);
    FrozenKeepsInvariants(s, HandleAll(s, es));
  }

  /** What the two invariants mean for a subgraph indexed from genesis. */
  lemma IndexedFromGenesis(es: seq<Event>)
    ensures AllBalancesZero(HandleAll(EmptyStore, es))
    ensures NoLogbookLogs(HandleAll(EmptyStore, es))
  {
    BalancesStayZero(EmptyStore, es);
    LogbooksStayEmpty(EmptyStore, es);
  }

  /** A log's source, once set, is the same after any further run. */
  lemma SourceFixedOnceSet(s: Store, es: seq<Event>, id: string)
    requires id in s.logs && !SourceUnset(s.logs[id].source)
    ensures id in HandleAll(s, es).logs
    ensures HandleAll(s, es).logs[id].source == s.logs[id].source
  {
    HandleAllGrows(s, es);
  }
}
