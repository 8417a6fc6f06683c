/**
 The older Traveloggers subgraph: logbooks created or re-owned on ERC-721
 transfers, and one log per `LogbookNewLog` event, keyed `tokenId-index`. Its two
 contract reads, `tokenURI` and `readLogbook`, are not performed here: their results
 arrive with the event, as the URI and the list of log messages.
 */
module Traveloggers {
  import opened Wrappers
  import opened Encoding

  /** A Traveloggers token. A field no handler has assigned is `None`. */
  datatype Logbook = Logbook(owner: Option<Bytes>, uri: Option<string>, length: nat)

  /** One log, keyed `tokenId-index`. */
  datatype Log = Log(author: Bytes, book: string, createdAt: nat, content: string)

  datatype Store = Store(logbooks: map<string, Logbook>, logs: map<string, Log>)

  /** A handler either completes with a new store or aborts, leaving nothing saved. */
  datatype Outcome = Saved(store: Store) | Aborted

  /** `${tokenId}`, the same string as `tokenId.toString()`. */
  function LogbookId(tokenId: nat): string {
    NatDecimal(tokenId)
  }

  /** `${tokenId}-${index}`. */
  function LogId(tokenId: nat, index: nat): string {
    JoinDash(NatDecimal(tokenId), NatDecimal(index))
  }

  /** Different (token, index) pairs have different log ids, so no log overwrites another pair's. */
  lemma LogIdInjective(tokenId1: nat, index1: nat, tokenId2: nat, index2: nat)
    requires LogId(tokenId1, index1) == LogId(tokenId2, index2)
    ensures tokenId1 == tokenId2 && index1 == index2
  {
    JoinDashInjective(NatDecimal(tokenId1), NatDecimal(index1), NatDecimal(tokenId2), NatDecimal(index2));
    NatDecimalInjective(tokenId1, tokenId2);
    NatDecimalInjective(index1, index2);
  }

  /**
   `Transfer`: creates the logbook with the token URI and length 0 when it is absent;
   either way the recipient becomes the owner.
   */
  function HandleTransfer(s: Store, to: Bytes, tokenId: nat, tokenUri: string): (r: Store)
    ensures var id := LogbookId(tokenId);
      && id in r.logbooks
      && r.logbooks == s.logbooks[id := r.logbooks[id]]
      && r.logbooks[id].owner == Some(to)
      && (id !in s.logbooks ==> r.logbooks[id].uri == Some(tokenUri) && r.logbooks[id].length == 0)
      && (id in s.logbooks ==> r.logbooks[id] == s.logbooks[id].(owner := Some(to)))
    ensures r.logs == s.logs
  {
    var id := LogbookId(tokenId);
    var logbook := if id in s.logbooks then s.logbooks[id] else Logbook(None, Some(tokenUri), 0);
    s.(logbooks := s.logbooks[id := logbook.(owner := Some(to))])
  }

  /** The URI is read from the contract only for a new logbook: for a stored one it does not matter. */
  lemma TransferReadsUriOnlyWhenAbsent(s: Store, to: Bytes, tokenId: nat, uri1: string, uri2: string)
    requires LogbookId(tokenId) in s.logbooks
    ensures HandleTransfer(s, to, tokenId, uri1) == HandleTransfer(s, to, tokenId, uri2)
  {
  }

  /**
   Saves `Logbook(id)` with only `length` assigned. A save merges the assigned
   fields into the stored entity, as `LogbookSchema` describes, so the others keep
   their values.
   */
  function SaveLength(logbooks: map<string, Logbook>, id: string, length: nat): (r: map<string, Logbook>)
    ensures id in r && r[id].length == length
    ensures r == logbooks[id := r[id]]
    ensures id in logbooks ==> r[id] == logbooks[id].(length := length)
    ensures id !in logbooks ==> r[id].owner == None && r[id].uri == None
  {
    if id in logbooks then logbooks[id := logbooks[id].(length := length)]
    else logbooks[id := Logbook(None, None, length)]
  }

  /**
   `LogbookNewLog`: saves log `tokenId-index` with the message at `index` of the
   logbook's log list, then sets the logbook's length to `index`. Reading past the
   end of the list aborts the handler.
   */
  function HandleLogbookNewLog(s: Store, timestamp: nat, tokenId: nat, index: nat, sender: Bytes, messages: seq<string>): (r: Outcome)
    ensures r.Aborted? <==> index >= |messages|
    ensures r.Saved? ==>
      && r.store.logs == s.logs[LogId(tokenId, index) :=
           Log(sender, LogbookId(tokenId), timestamp, messages[index])]
      && r.store.logbooks == SaveLength(s.logbooks, LogbookId(tokenId), index)
      && r.store.logbooks[LogbookId(tokenId)].length == index
  {
    if index >= |messages| then
      Aborted
    else
      var logId := LogId(tokenId, index);
      var log := Log(sender, LogbookId(tokenId), timestamp, messages[index]);
      var s1 := s.(logs := s.logs[logId := log]);
      Saved(s1.(logbooks := SaveLength(s1.logbooks, LogbookId(tokenId), index)))
  }

  /** A new log never replaces the log of another (token, index) pair. */
  lemma NewLogKeepsOtherLogs(s: Store, timestamp: nat, tokenId: nat, index: nat, sender: Bytes, messages: seq<string>,
                             otherToken: nat, otherIndex: nat)
    requires index < |messages|
    requires otherToken != tokenId || otherIndex != index
    ensures var r := HandleLogbookNewLog(s, timestamp, tokenId, index, sender, messages).store;
      var id := LogId(otherToken, otherIndex);
      && (id in r.logs <==> id in s.logs)
      && (id in s.logs ==> r.logs[id] == s.logs[id])
  {
    if LogId(otherToken, otherIndex) == LogId(tokenId, index) {
      LogIdInjective(otherToken, otherIndex, tokenId, index);
    }
  }

  function HandleApproval(s: Store): (r: Store)
    ensures r == s
  {
    s
  }

  function HandleApprovalForAll(s: Store): (r: Store)
    ensures r == s
  {
    s
  }

  function HandleLotteryWinners(s: Store): (r: Store)
    ensures r == s
  {
    s
  }

  function HandleOwnershipTransferred(s: Store): (r: Store)
    ensures r == s
  {
    s
  }

  function HandlePreOrderMinted(s: Store): (r: Store)
    ensures r == s
  {
    s
  }

  /** The decoded parameters of one Traveloggers contract event, with the contract reads they need. */
  datatype Params =
    | Transfer(from: Bytes, to: Bytes, tokenId: nat, tokenUri: string)
    | LogbookNewLog(tokenId: nat, index: nat, sender: Bytes, messages: seq<string>)
    | Approval
    | ApprovalForAll
    | LotteryWinners
    | OwnershipTransferred
    | PreOrderMinted

  datatype Event = Event(timestamp: nat, params: Params)

  /** `r` is a later state of `s`: nothing was deleted, and a logbook's URI, once set, stays. */
  predicate Grows(s: Store, r: Store) {
    && s.logbooks.Keys <= r.logbooks.Keys
    && s.logs.Keys <= r.logs.Keys
    && (forall k :: k in s.logbooks && s.logbooks[k].uri.Some? ==> r.logbooks[k].uri == s.logbooks[k].uri)
  }

  /** Applies one event: the handler its kind is routed to. */
  function Handle(s: Store, e: Event): (r: Outcome)
    ensures r.Saved? ==> Grows(s, r.store)
    ensures r.Aborted? <==> e.params.LogbookNewLog? && e.params.index >= |e.params.messages|
  {
    match e.params
    case Transfer(_, to, tokenId, tokenUri) => Saved(HandleTransfer(s, to, tokenId, tokenUri))
    case LogbookNewLog(tokenId, index, sender, messages) =>
      HandleLogbookNewLog(s, e.timestamp, tokenId, index, sender, messages)
    case Approval => Saved(HandleApproval(s))
    case ApprovalForAll => Saved(HandleApprovalForAll(s))
    case LotteryWinners => Saved(HandleLotteryWinners(s))
    case OwnershipTransferred => Saved(HandleOwnershipTransferred(s))
    case PreOrderMinted => Saved(HandlePreOrderMinted(s))
  }

  /** Applies the events in order; the first abort stops the run. */
  function Run(s: Store, es: seq<Event>): Outcome
    decreases |es|
  {
    if es == [] then Saved(s)
    else
      match Handle(s, es[0])
      case Aborted => Aborted
      case Saved(next) => Run(next, es[1..])
  }

  /** Over any run that completes nothing is deleted and no logbook's URI changes once set. */
  lemma {:induction false} RunGrows(s: Store, es: seq<Event>)
    requires Run(s, es).Saved?
    ensures Grows(s, Run(s, es).store)
    decreases |es|
  {
    if es != [] {
      var next := Handle(s, es[0]).store;
      RunGrows(next, es[1..]);
    }
  }
}
