/** The compare-and-swap match record (runtime/nakama_storage.go).

    The snapshot bytes of a record are modelled by the engine they encode, and
    the version that storage assigns to a value is a digest of exactly that
    value, so it is an injective function of the record. */
module StoredMatch {
  import opened Common
  import opened MatchEngine

  datatype Record = Record(logicalId: string, snapshot: Engine, externalId: string, generation: nat)

  datatype Version = Digest(record: Record)

  /** The version "*" demands an absent object; any other one names a value. */
  datatype Expectation = MustBeAbsent | MustMatch(version: Version)

  datatype Write = Write(record: Record, expectation: Expectation)

  type Store = map<string, Record>

  /** What happens to one storage call on its way: it may be performed and
      acknowledged, performed with its acknowledgement lost or malformed, not
      performed at all, or fail at the client and be performed later. */
  datatype Fault = Reliable | AckLost | Dropped | Delayed

  datatype Ack = Acked(version: Version) | Conflict | Failed

  predicate Admits(store: Store, w: Write)
  {
    match w.expectation
    case MustBeAbsent => w.record.logicalId !in store
    case MustMatch(version) => w.record.logicalId in store && Digest(store[w.record.logicalId]) == version
  }

  function Commit(store: Store, w: Write): Store
  {
    if Admits(store, w) then store[w.record.logicalId := w.record] else store
  }

  /** The storage after one write call and the answer its caller sees. */
  function Perform(store: Store, floating: multiset<Write>, w: Write, fault: Fault)
    : (Store, multiset<Write>, Ack)
  {
    match fault
    case Reliable => (Commit(store, w), floating, if Admits(store, w) then Acked(Digest(w.record)) else Conflict)
    case AckLost => (Commit(store, w), floating, Failed)
    case Dropped => (store, floating, Failed)
    case Delayed => (store, floating + multiset{w}, Failed)
  }
}
