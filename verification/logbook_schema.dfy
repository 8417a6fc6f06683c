/**
 The entities of the Logbook subgraph and the store that holds them: one map per
 entity kind, from id to entity. An entity's id is its key in that map, so the
 records below hold every field except `id`. A `load` that misses is a key that
 is not in the map. A `save` merges the fields the entity has assigned into the
 stored entity under its id. Every save in the Logbook handlers is of a loaded
 entity, which holds all its fields, or of a new one. Every new entity has all its
 fields assigned, except the logbook `handleTransfer` creates, which leaves
 `loggedAt` unset. Nothing is stored under that id yet, so merging into it gives
 `loggedAt` None. So here a save is a map update that replaces the whole entity.
 */
module LogbookSchema {
  import opened Wrappers

  /** An address that has taken part in an event, with its indexed balance. */
  datatype Account = Account(balance: nat)

  /** An ERC-721 logbook token. `loggedAt` is written only on a copy that is never saved. */
  datatype Logbook = Logbook(
    owner: string,
    title: string,
    description: string,
    forkPrice: nat,
    logs: seq<string>,
    logCount: nat,
    forkCount: nat,
    donationCount: nat,
    transferCount: nat,
    createdAt: nat,
    loggedAt: Option<nat>)

  /** A piece of content, keyed by its content hash. */
  datatype Log = Log(
    author: string,
    content: string,
    source: Option<string>,
    logbooks: seq<string>,
    createdAt: nat)

  datatype Donation = Donation(to: string, donor: string, amount: nat, createdAt: nat)

  datatype Fork = Fork(from: string, to: string, end: string, amount: nat, createdAt: nat)

  datatype Pay = Pay(
    to: string,
    sender: string,
    recipient: string,
    amount: nat,
    purpose: string,
    createdAt: nat)

  datatype Store = Store(
    accounts: map<string, Account>,
    logbooks: map<string, Logbook>,
    logs: map<string, Log>,
    donations: map<string, Donation>,
    forks: map<string, Fork>,
    pays: map<string, Pay>)

  /** The store before the first event. */
  const EmptyStore: Store := Store(map[], map[], map[], map[], map[], map[])

  /** AssemblyScript's `!log.source`: the field is null or the empty string. */
  predicate SourceUnset(source: Option<string>) {
    source.None? || source.value == ""
  }
}
