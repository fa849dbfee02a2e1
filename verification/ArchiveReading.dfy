/** The archive of one match, read across a run of the whole cluster. */
module ArchiveReading {
  import opened Common
  import opened Contract
  import opened EventArchive
  import opened MatchEngine
  import opened Snapshot
  import opened StoredMatch
  import opened ArchivePaging
  import opened Protocol
  import opened ProtocolInvariant
  import opened ProtocolTheorems
  import opened ProtocolRecovery

  /** The requests of one reader: the moment each reaches storage, and its limit. */
  datatype Request = Request(moment: nat, limit: nat)

  ghost predicate Served(c: Cluster, steps: seq<Step>, id: string, r: Request)
  {
    r.moment <= |steps| && 1 <= r.limit <= MAXIMUM_PAGE_SIZE && id in At(c, steps, r.moment).store
  }

  ghost predicate Orderly(c: Cluster, steps: seq<Step>, id: string, requests: seq<Request>)
  {
    && (forall i :: 0 <= i < |requests| ==> Served(c, steps, id, requests[i]))
    && (forall i, j :: 0 <= i < j < |requests| ==> requests[i].moment <= requests[j].moment)
  }

  ghost function FetchOf(c: Cluster, steps: seq<Step>, id: string, r: Request): Fetch
    requires Served(c, steps, id, r)
  {
    Fetch(At(c, steps, r.moment).store[id], r.limit)
  }

  ghost function Fetches(c: Cluster, steps: seq<Step>, id: string, requests: seq<Request>): seq<Fetch>
    requires Orderly(c, steps, id, requests)
  {
    seq(|requests|, i requires 0 <= i < |requests| =>
      FetchOf(c, steps, id, requests[i]))
  }

  lemma DurableLogIsNumbered(c: Cluster, steps: seq<Step>, moment: nat, id: string)
    requires Genuine(c) && moment <= |steps| && id in At(c, steps, moment).store
    ensures Loads(c, At(c, steps, moment), id) && 0 < At(c, steps, moment).store[id].generation
    ensures Numbered(At(c, steps, moment).store[id].snapshot.events)
  {
    RunKeeps(c, steps[..moment]);
    EveryDurableRecordLoads(c, steps[..moment], id);
    var e := At(c, steps, moment).store[id].snapshot;
    forall i | 0 <= i < |e.events| ensures e.events[i].facts.sequence == i + 1 {
      assert ArchiveAdmits(c.config, e.events, i);
    }
  }

  /** With joins, commands, crashes, resumes and lost acknowledgements between the
      requests, each of them is answered, and the reader has at every time exactly
      the durable log up to its cursor. */
  lemma ReadingAcrossARun(c: Cluster, steps: seq<Step>, id: string, requests: seq<Request>)
    requires Genuine(c) && Orderly(c, steps, id, requests) && requests != []
    ensures Reading(Fetches(c, steps, id, requests))
    ensures var collected := Collected(Fetches(c, steps, id, requests));
      var log := At(c, steps, requests[|requests| - 1].moment).store[id].snapshot.events;
      && collected.Some? && |collected.value.0| == collected.value.1 && collected.value.0 <= log
  {
    var fetches := Fetches(c, steps, id, requests);
    forall i | 0 <= i < |requests|
      ensures Readable(fetches[i])
    {
      RequestIsReadable(c, steps, id, requests[i]);
    }
    forall i, j | 0 <= i && j == i + 1 < |requests|
      ensures Extends(fetches[i], fetches[j])
    {
      LaterRequestSeesMore(c, steps, id, requests[i], requests[j]);
    }
    PagingIsExact(fetches);
  }

  lemma RequestIsReadable(c: Cluster, steps: seq<Step>, id: string, r: Request)
    requires Genuine(c) && Served(c, steps, id, r)
    ensures Readable(FetchOf(c, steps, id, r))
  {
    DurableLogIsNumbered(c, steps, r.moment, id);
  }

  lemma LaterRequestSeesMore(c: Cluster, steps: seq<Step>, id: string, one: Request, two: Request)
    requires Served(c, steps, id, one) && Served(c, steps, id, two) && one.moment <= two.moment
    ensures Extends(FetchOf(c, steps, id, one), FetchOf(c, steps, id, two))
  {
    DurableLogIsExtended(c, steps, one.moment, two.moment, id);
  }
}
