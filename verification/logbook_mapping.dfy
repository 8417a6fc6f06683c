/**
 The event handlers of the Logbook subgraph. Each handler is a pure function from
 the store before the event to the store after it. Ids are built as the source
 builds them: logbooks by `NatHex(tokenId)`, logs by `BytesHex(contentHash)`,
 accounts by `BytesHex(address)`, donations and payments by `BytesHex(txHash)`
 alone, and forks by `from-to`.
 */
module LogbookMapping {
  import opened Wrappers
  import opened Encoding
  import opened LogbookSchema
  import opened LogbookHelpers

  /** What every event carries besides its parameters: the block time and the transaction hash. */
  datatype Meta = Meta(timestamp: nat, txHash: Bytes)

  /** The id of the fork record from logbook `fromId` to logbook `toId`. */
  function ForkId(fromId: string, toId: string): string {
    JoinDash(fromId, toId)
  }

  /** Fork ids of different token pairs never collide, so no fork record overwrites another pair's. */
  lemma ForkIdInjective(from1: nat, to1: nat, from2: nat, to2: nat)
    requires ForkId(NatHex(from1), NatHex(to1)) == ForkId(NatHex(from2), NatHex(to2))
    ensures from1 == from2 && to1 == to2
  {
    JoinDashInjective(NatHex(from1), NatHex(to1), NatHex(from2), NatHex(to2));
    NatHexInjective(from1, from2);
    NatHexInjective(to1, to2);
  }

  /** A logbook as first created by a transfer (the mint), before its owner is assigned. */
  function NewLogbook(createdAt: nat): Logbook {
    Logbook("", "", "", ZeroBI, [], ZeroBI, ZeroBI, ZeroBI, ZeroBI, createdAt, None)
  }

  /** `Donate`: records the donation under the transaction hash and counts it on the logbook. */
  function HandleDonate(s: Store, m: Meta, tokenId: nat, donor: Bytes, amount: nat): (r: Store)
    ensures r.accounts == EnsureAccount(s.accounts, BytesHex(donor))
    ensures r.donations ==
      s.donations[BytesHex(m.txHash) := Donation(NatHex(tokenId), BytesHex(donor), amount, m.timestamp)]
    ensures var id := NatHex(tokenId);
      && (id in s.logbooks ==>
            r.logbooks == s.logbooks[id := s.logbooks[id].(donationCount := s.logbooks[id].donationCount + 1)])
      && (id !in s.logbooks ==> r.logbooks == s.logbooks)
    ensures r.logs == s.logs && r.forks == s.forks && r.pays == s.pays
  {
    var logbookId := NatHex(tokenId);
    var Touched(s1, donorId, _) := GetOrCreateAccount(s, donor);
    var txHash := BytesHex(m.txHash);
    var donation := Donation(logbookId, donorId, amount, m.timestamp);
    var s2 := s1.(donations := s1.donations[txHash := donation]);
    if logbookId in s2.logbooks then
      var logbook := s2.logbooks[logbookId];
      s2.(logbooks := s2.logbooks[logbookId := logbook.(donationCount := logbook.donationCount + OneBI)])
    else
      s2
  }

  /**
   `Fork`: records the fork, counts it on the source logbook, and appends the new
   logbook to the end log's list of logbooks (no check for duplicates).
   */
  function HandleFork(s: Store, m: Meta, tokenId: nat, newTokenId: nat, end: Bytes, amount: nat): (r: Store)
    ensures var fromId, toId := NatHex(tokenId), NatHex(newTokenId);
      r.forks == s.forks[ForkId(fromId, toId) := Fork(fromId, toId, BytesHex(end), amount, m.timestamp)]
    ensures var id := NatHex(tokenId);
      && (id in s.logbooks ==>
            r.logbooks == s.logbooks[id := s.logbooks[id].(forkCount := s.logbooks[id].forkCount + 1)])
      && (id !in s.logbooks ==> r.logbooks == s.logbooks)
    ensures var id := BytesHex(end);
      && (id in s.logs ==>
            r.logs == s.logs[id := s.logs[id].(logbooks := s.logs[id].logbooks + [NatHex(newTokenId)])])
      && (id !in s.logs ==> r.logs == s.logs)
    ensures r.accounts == s.accounts && r.donations == s.donations && r.pays == s.pays
  {
    var fromLogbookId := NatHex(tokenId);
    var toLogbookId := NatHex(newTokenId);
    var endLogId := BytesHex(end);
    var forkId := ForkId(fromLogbookId, toLogbookId);
    var fork := Fork(fromLogbookId, toLogbookId, endLogId, amount, m.timestamp);
    var s1 := s.(forks := s.forks[forkId := fork]);
    var s2 :=
      if fromLogbookId in s1.logbooks then
        var logbook := s1.logbooks[fromLogbookId];
        s1.(logbooks := s1.logbooks[fromLogbookId := logbook.(forkCount := logbook.forkCount + OneBI)])
      else
        s1;
    if endLogId in s2.logs then
      var log := s2.logs[endLogId];
      s2.(logs := s2.logs[endLogId := log.(logbooks := log.logbooks + [toLogbookId])])
    else
      s2
  }

  /** The purpose string a payment is stored with: `Fork` for purpose 0, `Donate` otherwise. */
  function PurposeName(purpose: nat): (name: string)
    ensures name == "Fork" <==> purpose == 0
    ensures name == "Donate" <==> purpose != 0
  {
    if purpose == 0 then "Fork" else "Donate"
  }

  /**
   `Pay`: records the payment under the transaction hash. The recipient's balance
   plus the amount is computed and dropped, so the recipient is saved unchanged.
   */
  function HandlePay(s: Store, m: Meta, tokenId: nat, sender: Bytes, recipient: Bytes, amount: nat, purpose: nat): (r: Store)
    ensures r.accounts == EnsureAccount(EnsureAccount(s.accounts, BytesHex(sender)), BytesHex(recipient))
    ensures BytesHex(recipient) in s.accounts ==>
      r.accounts[BytesHex(recipient)].balance == s.accounts[BytesHex(recipient)].balance
    ensures r.pays == s.pays[BytesHex(m.txHash) :=
      Pay(NatHex(tokenId), BytesHex(sender), BytesHex(recipient), amount, PurposeName(purpose), m.timestamp)]
    ensures r.logbooks == s.logbooks && r.logs == s.logs && r.donations == s.donations && r.forks == s.forks
  {
    var logbookId := NatHex(tokenId);
    var Touched(s1, senderId, _) := GetOrCreateAccount(s, sender);
    var Touched(s2, recipientId, recipientAccount) := GetOrCreateAccount(s1, recipient);
    var txHash := BytesHex(m.txHash);
    var pay := Pay(logbookId, senderId, recipientId, amount, PurposeName(purpose), m.timestamp);
    var s3 := s2.(pays := s2.pays[txHash := pay]);
    var _ := recipientAccount.balance + amount;
    var accounts := s3.accounts[recipientId := recipientAccount];
    assert accounts == s2.accounts;
    s3.(accounts := accounts)
  }

  /** `Content`: creates the log for a content hash unless one exists (first write wins). */
  function HandleContent(s: Store, m: Meta, author: Bytes, contentHash: Bytes, content: string): (r: Store)
    ensures r.accounts == EnsureAccount(s.accounts, BytesHex(author))
    ensures var id := BytesHex(contentHash);
      && (id in s.logs ==> r.logs == s.logs)
      && (id !in s.logs ==> r.logs == s.logs[id := Log(BytesHex(author), content, None, [], m.timestamp)])
    ensures r.logbooks == s.logbooks && r.donations == s.donations && r.forks == s.forks && r.pays == s.pays
  {
    var logId := BytesHex(contentHash);
    var Touched(s1, authorId, _) := GetOrCreateAccount(s, author);
    if logId !in s1.logs then
      var log := Log(authorId, content, None, [], m.timestamp);
      s1.(logs := s1.logs[logId := log])
    else
      s1
  }

  /**
   What `handlePublish` makes of a loaded logbook: stamped, with the log appended and
   counted. The handler never saves this copy.
   */
  function PublishedCopy(logbook: Logbook, logId: string, timestamp: nat): (r: Logbook)
    ensures r.logs == logbook.logs + [logId] && r.logCount == logbook.logCount + 1
    ensures r.loggedAt == Some(timestamp)
    ensures r == logbook.(logs := r.logs, logCount := r.logCount, loggedAt := r.loggedAt)
  {
    logbook.(loggedAt := Some(timestamp), logs := logbook.logs + [logId], logCount := logbook.logCount + OneBI)
  }

  /**
   `Publish`: sets the log's source if it is unset (first publish wins) and appends
   the logbook to the log's list. The logbook is updated only in memory.
   */
  function HandlePublish(s: Store, m: Meta, tokenId: nat, contentHash: Bytes): (r: Store)
    ensures r.logbooks == s.logbooks
    ensures var id, logbookId := BytesHex(contentHash), NatHex(tokenId);
      && (id !in s.logs ==> r.logs == s.logs)
      && (id in s.logs ==> id in r.logs && r.logs == s.logs[id := r.logs[id]])
      && (id in s.logs && id in r.logs ==>
            var before, after := s.logs[id], r.logs[id];
            && after == before.(source := after.source, logbooks := after.logbooks)
            && after.logbooks == before.logbooks + [logbookId]
            && (SourceUnset(before.source) ==> after.source == Some(logbookId))
            && (!SourceUnset(before.source) ==> after.source == before.source))
    ensures r.accounts == s.accounts && r.donations == s.donations && r.forks == s.forks && r.pays == s.pays
  {
    var logbookId := NatHex(tokenId);
    var logId := BytesHex(contentHash);
    var _ := if logbookId in s.logbooks then Some(PublishedCopy(s.logbooks[logbookId], logId, m.timestamp)) else None;
    if logId in s.logs then
      var log := s.logs[logId];
      var source := if SourceUnset(log.source) then Some(logbookId) else log.source;
      s.(logs := s.logs[logId := log.(source := source, logbooks := log.logbooks + [logbookId])])
    else
      s
  }

  /** `SetDescription`: overwrites the description of an existing logbook; nothing otherwise. */
  function HandleSetDescription(s: Store, tokenId: nat, description: string): (r: Store)
    ensures var id := NatHex(tokenId);
      && (id !in s.logbooks ==> r == s)
      && (id in s.logbooks ==>
            r == s.(logbooks := s.logbooks[id := s.logbooks[id].(description := description)]))
  {
    var logbookId := NatHex(tokenId);
    if logbookId in s.logbooks then
      s.(logbooks := s.logbooks[logbookId := s.logbooks[logbookId].(description := description)])
    else
      s
  }

  /** `SetForkPrice`: overwrites the fork price of an existing logbook; nothing otherwise. */
  function HandleSetForkPrice(s: Store, tokenId: nat, amount: nat): (r: Store)
    ensures var id := NatHex(tokenId);
      && (id !in s.logbooks ==> r == s)
      && (id in s.logbooks ==>
            r == s.(logbooks := s.logbooks[id := s.logbooks[id].(forkPrice := amount)]))
  {
    var logbookId := NatHex(tokenId);
    if logbookId in s.logbooks then
      s.(logbooks := s.logbooks[logbookId := s.logbooks[logbookId].(forkPrice := amount)])
    else
      s
  }

  /** `SetTitle`: overwrites the title of an existing logbook; nothing otherwise. */
  function HandleSetTitle(s: Store, tokenId: nat, title: string): (r: Store)
    ensures var id := NatHex(tokenId);
      && (id !in s.logbooks ==> r == s)
      && (id in s.logbooks ==>
            r == s.(logbooks := s.logbooks[id := s.logbooks[id].(title := title)]))
  {
    var logbookId := NatHex(tokenId);
    if logbookId in s.logbooks then
      s.(logbooks := s.logbooks[logbookId := s.logbooks[logbookId].(title := title)])
    else
      s
  }

  /**
   `Transfer`: creates the logbook on its first transfer (the mint), otherwise counts
   the transfer; either way the recipient becomes the owner.
   */
  function HandleTransfer(s: Store, m: Meta, from: Bytes, to: Bytes, tokenId: nat): (r: Store)
    ensures r.accounts == EnsureAccount(EnsureAccount(s.accounts, BytesHex(from)), BytesHex(to))
    ensures var id := NatHex(tokenId);
      && id in r.logbooks
      && r.logbooks == s.logbooks[id := r.logbooks[id]]
      && r.logbooks[id].owner == BytesHex(to)
    ensures var logbook := r.logbooks[NatHex(tokenId)];
      NatHex(tokenId) !in s.logbooks ==>
        && logbook.title == "" && logbook.description == ""
        && logbook.forkPrice == 0
        && logbook.logs == [] && logbook.logCount == 0
        && logbook.forkCount == 0 && logbook.donationCount == 0 && logbook.transferCount == 0
        && logbook.createdAt == m.timestamp
        && logbook.loggedAt == None
    ensures var id := NatHex(tokenId);
      id in s.logbooks ==>
        r.logbooks[id] == s.logbooks[id].(owner := BytesHex(to), transferCount := s.logbooks[id].transferCount + 1)
    ensures r.logs == s.logs && r.donations == s.donations && r.forks == s.forks && r.pays == s.pays
  {
    var Touched(s1, _, _) := GetOrCreateAccount(s, from);
    var Touched(s2, toId, _) := GetOrCreateAccount(s1, to);
    var logbookId := NatHex(tokenId);
    var logbook :=
      if logbookId !in s2.logbooks then
        NewLogbook(m.timestamp)
      else
        s2.logbooks[logbookId].(transferCount := s2.logbooks[logbookId].transferCount + OneBI);
    s2.(logbooks := s2.logbooks[logbookId := logbook.(owner := toId)])
  }

  /** `Withdraw`: resets the balance of an existing account to zero; nothing if it is absent. */
  function HandleWithdraw(s: Store, account: Bytes): (r: Store)
    ensures var id := BytesHex(account);
      && (id !in s.accounts ==> r == s)
      && (id in s.accounts ==>
            r == s.(accounts := s.accounts[id := s.accounts[id].(balance := 0)]))
  {
    var accountId := BytesHex(account);
    if accountId !in s.accounts then
      s
    else
      s.(accounts := s.accounts[accountId := s.accounts[accountId].(balance := ZeroBI)])
  }

  /** A second `Content` event for the same hash leaves the logs as the first one left them. */
  lemma ContentWriteOnce(s: Store, m1: Meta, author1: Bytes, m2: Meta, author2: Bytes,
                         contentHash: Bytes, content1: string, content2: string)
    ensures var first := HandleContent(s, m1, author1, contentHash, content1);
      HandleContent(first, m2, author2, contentHash, content2).logs == first.logs
  {
  }

  /** The first publish of an unsourced log fixes its source; a later publish only appends. */
  lemma PublishFirstWins(s: Store, m1: Meta, tokenId1: nat, m2: Meta, tokenId2: nat, contentHash: Bytes)
    requires BytesHex(contentHash) in s.logs
    requires SourceUnset(s.logs[BytesHex(contentHash)].source)
    ensures var id := BytesHex(contentHash);
      var r := HandlePublish(HandlePublish(s, m1, tokenId1, contentHash), m2, tokenId2, contentHash);
      && r.logs[id].source == Some(NatHex(tokenId1))
      && r.logs[id].logbooks == s.logs[id].logbooks + [NatHex(tokenId1), NatHex(tokenId2)]
  {
  }

  /** The copy `handlePublish` updates is not what is stored: the stored logbook keeps its log count. */
  lemma PublishDropsLogbookUpdate(s: Store, m: Meta, tokenId: nat, contentHash: Bytes)
    requires NatHex(tokenId) in s.logbooks
    ensures var id := NatHex(tokenId);
      && HandlePublish(s, m, tokenId, contentHash).logbooks[id].logCount == s.logbooks[id].logCount
      && HandlePublish(s, m, tokenId, contentHash).logbooks[id]
           != PublishedCopy(s.logbooks[id], BytesHex(contentHash), m.timestamp)
  {
  }

  /** A fork event never replaces the fork record of another pair of logbooks. */
  lemma ForkKeepsOtherPairs(s: Store, m: Meta, tokenId: nat, newTokenId: nat, end: Bytes, amount: nat,
                            otherFrom: nat, otherTo: nat)
    requires otherFrom != tokenId || otherTo != newTokenId
    ensures var r := HandleFork(s, m, tokenId, newTokenId, end, amount);
      var id := ForkId(NatHex(otherFrom), NatHex(otherTo));
      && (id in r.forks <==> id in s.forks)
      && (id in s.forks ==> r.forks[id] == s.forks[id])
  {
    if ForkId(NatHex(otherFrom), NatHex(otherTo)) == ForkId(NatHex(tokenId), NatHex(newTokenId)) {
      ForkIdInjective(otherFrom, otherTo, tokenId, newTokenId);
    }
  }

  /** Two donations in one transaction leave a single record: the later one. */
  lemma SameTransactionDonationsCollapse(s: Store, m: Meta, tokenId1: nat, donor1: Bytes, amount1: nat,
                                         tokenId2: nat, donor2: Bytes, amount2: nat)
    ensures var r := HandleDonate(HandleDonate(s, m, tokenId1, donor1, amount1), m, tokenId2, donor2, amount2);
      && r.donations.Keys == s.donations.Keys + {BytesHex(m.txHash)}
      && r.donations[BytesHex(m.txHash)] == Donation(NatHex(tokenId2), BytesHex(donor2), amount2, m.timestamp)
  {
  }
}
