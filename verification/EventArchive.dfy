/** The cross-component contract of an event archive
    (ValidateArchive in runtime/internal/contract/evidence.go). */
module EventArchive {
  import opened Contract

  // ------------------------------------------------- counters over an archive

  /** A participant_joined event for this slot occurs. */
  predicate HasJoined(events: seq<Event>, slot: int)
  {
    events != [] &&
    var last := events[|events| - 1].facts;
    (last.kind == ParticipantJoined && last.slot == slot) || HasJoined(events[..|events| - 1], slot)
  }

  function CommandCount(events: seq<Event>): nat
  {
    if events == [] then 0
    else CommandCount(events[..|events| - 1]) + (if events[|events| - 1].facts.kind == CommandApplied then 1 else 0)
  }

  function SlotCommands(events: seq<Event>, slot: int): nat
  {
    if events == [] then 0
    else
      var last := events[|events| - 1].facts;
      SlotCommands(events[..|events| - 1], slot) +
      (if last.kind == CommandApplied && last.slot == slot then 1 else 0)
  }

  predicate Terminated(events: seq<Event>)
  {
    events != [] &&
    (events[|events| - 1].facts.kind == MatchCompleted || Terminated(events[..|events| - 1]))
  }

  // ----------------------------------------------------- the archive contract

  /** What ValidateArchive demands of the event at position i. */
  predicate ArchiveAdmits(cfg: Config, events: seq<Event>, i: nat)
    requires i < |events|
  {
    var before, f := events[..i], events[i].facts;
    && f.matchId == events[0].facts.matchId && f.challengeId == events[0].facts.challengeId
    && f.sequence == i + 1 && f.version == i + 2
    && (i > 0 ==> events[i - 1].facts.occurredAt <= f.occurredAt)
    && EventSealed(cfg, events[i])
    && f.eventId == EventId(f.matchId, f.causation, f.sequence)
    && match f.kind
       case ParticipantJoined =>
         CommandCount(before) == 0 && !Terminated(before) && (f.slot == 1 || f.slot == 2) &&
         !HasJoined(before, f.slot) && f.payloadType == JOIN_PAYLOAD_TYPE
       case CommandApplied =>
         HasJoined(before, 1) && HasJoined(before, 2) && !Terminated(before) && (f.slot == 1 || f.slot == 2)
       case MatchCompleted =>
         !Terminated(before) && i == |events| - 1 && CommandCount(before) != 0 && f.slot == 0 &&
         f.payloadType == TERMINAL_PAYLOAD_TYPE
       case Unsupported(_) => false
  }

  predicate ValidArchive(cfg: Config, events: seq<Event>)
  {
    events != [] && forall i :: 0 <= i < |events| ==> ArchiveAdmits(cfg, events, i)
  }
}
