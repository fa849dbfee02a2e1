/** Reading the event archive of a match in pages while the match goes on
    (rpcArchiveFromStorage and archiveResponseFor in runtime/nakama_rpc.go). */
module ArchivePaging {
  import opened Common
  import opened Contract
  import opened MatchEngine
  import opened StoredMatch

  const MAXIMUM_PAGE_SIZE := 128

  datatype Page = Page(after: nat, next: nat, hasMore: bool, events: seq<Event>)

  /** archiveResponseFor: nothing for an inconsistent record or a bad cursor. The
      next cursor is the sequence number written in the last event of the page. */
  function ArchivePage(r: Record, after: nat, limit: nat): Option<Page>
  {
    var events := r.snapshot.events;
    if r.generation == 0 || after > |events| || limit == 0 || limit > MAXIMUM_PAGE_SIZE then None
    else
      var end := if after + limit > |events| then |events| else after + limit;
      var page := events[after..end];
      var next := if page == [] then after else page[|page| - 1].facts.sequence;
      Some(Page(after, next, next < |events|, page))
  }

  predicate Numbered(events: seq<Event>)
  {
    forall i :: 0 <= i < |events| ==> events[i].facts.sequence == i + 1
  }

  /** One page request: the record that it finds in storage, and its limit. */
  datatype Fetch = Fetch(record: Record, limit: nat)

  /** A reader that starts at cursor 0 and follows next_after_sequence: what it
      has collected and its cursor, or nothing once a request was refused. */
  function Collected(fetches: seq<Fetch>): Option<(seq<Event>, nat)>
  {
    if fetches == [] then Some(([], 0))
    else
      var f := fetches[|fetches| - 1];
      match Collected(fetches[..|fetches| - 1])
      case None => None
      case Some((events, cursor)) =>
        match ArchivePage(f.record, cursor, f.limit)
        case None => None
        case Some(page) => Some((events + page.events, page.next))
  }

  predicate Readable(f: Fetch)
  {
    0 < f.record.generation && Numbered(f.record.snapshot.events) && 1 <= f.limit <= MAXIMUM_PAGE_SIZE
  }

  /** Valid requests, each finding the log of the one before or an extension. */
  predicate Reading(fetches: seq<Fetch>)
  {
    && (forall i :: 0 <= i < |fetches| ==> Readable(fetches[i]))
    && (forall i, j :: 0 <= i && j == i + 1 < |fetches| ==> Extends(fetches[i], fetches[j]))
  }

  predicate Extends(one: Fetch, two: Fetch)
  {
    one.record.snapshot.events <= two.record.snapshot.events
  }

  /** A page of a numbered log continues the prefix before its cursor. */
  lemma PageContinues(f: Fetch, events: seq<Event>)
    requires Readable(f) && events <= f.record.snapshot.events
    ensures var log := f.record.snapshot.events;
      && ArchivePage(f.record, |events|, f.limit).Some?
      && var page := ArchivePage(f.record, |events|, f.limit).value;
      && |events| <= page.next <= |log| && events + page.events == log[..page.next]
      && (page.next < |log| ==> page.next == |events| + f.limit) && (page.hasMore <==> page.next < |log|)
  {
    var log, after := f.record.snapshot.events, |events|;
    var end := if after + f.limit > |log| then |log| else after + f.limit;
    assert events == log[..after];
    assert log[..after] + log[after..end] == log[..end];
    if after < end {
      assert log[after..end][end - after - 1] == log[end - 1];
    }
  }

  /** No request is refused, and what has been collected is exactly the log up to
      the cursor: every event once and in order, also when the log grows between
      the requests. */
  lemma {:induction false} PagingIsExact(fetches: seq<Fetch>)
    requires Reading(fetches)
    ensures Collected(fetches).Some?
    ensures var (events, cursor) := Collected(fetches).value;
      && |events| == cursor && Numbered(events)
      && (fetches != [] ==> events <= fetches[|fetches| - 1].record.snapshot.events)
  {
    if fetches != [] {
      var before, f := fetches[..|fetches| - 1], fetches[|fetches| - 1];
      PagingIsExact(before);
      assert before != [] ==> before[|before| - 1] == fetches[|fetches| - 2];
      PageContinues(f, Collected(before).value.0);
    }
  }

  /** From this request on the log does not grow. */
  predicate Still(fetches: seq<Fetch>, first: nat)
  {
    forall i, j :: first <= i < |fetches| && first <= j < |fetches| ==>
      fetches[i].record.snapshot.events == fetches[j].record.snapshot.events
  }

  /** On a log that no longer grows every page leaves fewer events, whatever the
      limits: after n pages the cursor is at the end or has passed n events. */
  lemma {:induction false} PagingTerminates(fetches: seq<Fetch>, first: nat)
    requires Reading(fetches) && first < |fetches| && Still(fetches, first)
    ensures Collected(fetches).Some?
    ensures var log := fetches[first].record.snapshot.events;
      var (events, cursor) := Collected(fetches).value;
      (cursor == |log| && events == log) || (cursor < |log| && |fetches| - first <= cursor)
  {
    PagingIsExact(fetches);
    var before, f := fetches[..|fetches| - 1], fetches[|fetches| - 1];
    PagingIsExact(before);
    assert before != [] ==> before[|before| - 1] == fetches[|fetches| - 2];
    PageContinues(f, Collected(before).value.0);
    if first < |before| {
      assert before[first] == fetches[first];
      PagingTerminates(before, first);
    }
  }
}
