/** Runs that reach the two states the source does not expect, under a
    configuration that signs and admits everything
    (runtime/world_authoritative_match.go, runtime/internal/worldcommand/coordinator.go). */
module Witnesses {
  import opened Common
  import opened Contract
  import opened MatchEngine
  import opened StoredMatch
  import opened MatchCallbacks
  import opened Protocol
  import opened ProtocolProofs
  import opened ProtocolTheorems
  import opened ProtocolRecovery
  import opened WorldStore
  import opened WorldAgreement
  import opened WorldStorage
  import opened WorldProtocol
  import opened WorldRefinement

  function Permissive(): Config
  {
    Config(a => true, (c, k) => true, f => true, t => true, b => "", "")
  }

  function Seat(slot: int): Authorization
  {
    var one := slot == 1;
    Authorization(Claim(if one then "a" else "aa", "m", "", if one then "a" else "aa", if one then "a" else "aa",
                        if one then "a" else "aa", if one then "a" else "aa", if one then "a" else "aa", slot, "", "", "", "", 0, 1),
                  "", "")
  }

  function Unjoined(): Engine
  {
    Engine("m", "", Status.Created, 1, Pair(Participant(Seat(1), false, 0), Participant(Seat(2), false, 0)), map[], [], None, None)
  }

  lemma MatchIsCreated()
    ensures NewMatch(Permissive(), Seat(1), Seat(2), 0) == Some(Unjoined())
  {
  }

  function EventAt(sequence: nat, kind: EventKind, cause: string, slot: int, payloadType: string, payload: Payload): Event
  {
    var facts := EventFacts(EventId("m", Cites(cause), sequence), kind, "m", "", sequence, Cites(cause), 0, slot,
                            sequence + 1, payloadType, payload);
    Event(facts, EventHash(facts))
  }

  function JoinEvent(slot: int): Event
  {
    var id := if slot == 1 then "a" else "aa";
    EventAt(if slot == 1 then 1 else 2, ParticipantJoined, id, slot, JOIN_PAYLOAD_TYPE, JoinPayload(slot, id, id, id))
  }

  function OneJoined(): Engine
  {
    Unjoined().(status := Waiting, version := 2, events := [JoinEvent(1)],
               participants := Pair(Participant(Seat(1), true, 0), Participant(Seat(2), false, 0)))
  }

  function BothJoined(): Engine
  {
    Unjoined().(status := Ready, version := 3, events := [JoinEvent(1), JoinEvent(2)],
               participants := Pair(Participant(Seat(1), true, 0), Participant(Seat(2), true, 0)))
  }

  lemma FirstJoins()
    ensures Join(Permissive(), Unjoined(), "a", "a", 0) == (OneJoined(), JoinAccepted(JoinEvent(1)))
  {
    assert [] + [JoinEvent(1)] == [JoinEvent(1)];
  }

  lemma SecondJoins()
    ensures Join(Permissive(), OneJoined(), "aa", "aa", 0) == (BothJoined(), JoinAccepted(JoinEvent(2)))
  {
    assert [JoinEvent(1)] + [JoinEvent(2)] == [JoinEvent(1), JoinEvent(2)];
  }

  function FirstCommand(): Command
  {
    Command("c", "a", "m", "", "a", "a", 1, 1, 3, 0, "", "", "")
  }

  function Played(): Engine
  {
    var event := EventAt(3, CommandApplied, "c", 1, "", CommandPayload(""));
    BothJoined().(status := Active, version := 4, events := BothJoined().events + [event],
                  participants := Pair(Participant(Seat(1), true, 1), Participant(Seat(2), true, 0)),
                  commands := map["c" := CommandRecord(FirstCommand(), Fingerprint(FirstCommand()), event)])
  }

  lemma CommandIsPlayed()
    ensures ApplyCommand(Permissive(), BothJoined(), "a", FirstCommand(), 0) == (Played(), CommandAccepted(Played().events[2]))
    ensures Preflight(Permissive(), BothJoined(), "a", FirstCommand(), 0).PreflightFresh?
  {
    var e, c := BothJoined(), FirstCommand();
    assert FindSlot(e, c.authorizationId) == Some(1);
    assert Authenticate(Permissive(), e, "a", c) == Ok(1);
    assert PayloadUsed(map[]) == 0;
  }

  // --------------------------------------------------------------- the two runs

  function Stored(e: Engine, externalId: string): Record
  {
    Record("m", e, externalId, 1)
  }

  /** The runtime "r" holds this engine, and its record is durable. */
  function Serving(e: Engine, pending: map<string, Event>): System
  {
    var record := Stored(e, "r");
    var inst := Instance(e, record, Digest(record), "m", 1, pending, true, false);
    Empty.(store := map["m" := record], used := {"r"}, matches := map["r" := Live(inst)])
  }

  function Requesting(): System
  {
    Empty.(store := map["m" := Stored(Unjoined(), "")], rpcs := map[0 := Starting("m", 1)])
  }

  function Initializing(m: Match): System
  {
    Empty.(store := map["m" := Stored(Unjoined(), "")], used := {"r"}, matches := map["r" := m])
  }

  function Opening(): seq<Step>
  {
    [Step.Create(0, Seat(1), Seat(2), 0, Reliable), MatchCreate(0, "r"), InitRead("r"), InitWrite("r", true, Reliable),
     JoinMatch("r", "a", "a", "s", 0, Reliable)]
  }

  function SecondJoin(): Step
  {
    JoinMatch("r", "aa", "aa", "t", 0, Reliable)
  }

  /** The acknowledgement of the commit of this accepted command is lost. */
  function Ambiguous(): Step
  {
    PlayTarget("r", "a", FirstCommand(), 0, false, WorldAccepts(0, true), AckLost)
  }

  lemma {:induction false} CreatesMatch(c: Cluster)
    requires c.config == Permissive()
    ensures Do(c, Empty, Opening()[0]) == Requesting()
    ensures Do(c, Requesting(), Opening()[1]) == Initializing(Requested("m", 1))
  {
    MatchIsCreated();
    assert Requesting().rpcs - {0} == map[];
  }

  lemma {:induction false} RequestRuns(c: Cluster)
    requires c.config == Permissive()
    ensures Run(c, Empty, Opening()[..2]) == Initializing(Requested("m", 1))
  {
    CreatesMatch(c);
    RunSplit(c, Empty, [], Opening()[0]);
    RunSplit(c, Empty, [Opening()[0]], Opening()[1]);
    assert [] + [Opening()[0]] == [Opening()[0]];
    assert Opening()[..2] == [Opening()[0]] + [Opening()[1]];
  }

  lemma {:induction false} UnjoinedLoads(c: Cluster)
    requires c.config == Permissive() && Genuine(c)
    ensures c.restores(Unjoined())
  {
    RequestRuns(c);
    EveryDurableRecordLoads(c, Opening()[..2], "m");
  }

  lemma {:induction false} Initializes(c: Cluster)
    requires c.restores(Unjoined())
    ensures DoInitRead(c, Initializing(Requested("m", 1)), "r") == Initializing(Loaded(Stored(Unjoined(), "")))
    ensures DoInitWrite(Initializing(Loaded(Stored(Unjoined(), ""))), "r", true, Reliable) == Serving(Unjoined(), map[])
  {
  }

  lemma {:induction false} FirstJoinServes(c: Cluster)
    requires c.config == Permissive()
    ensures Do(c, Serving(Unjoined(), map[]), Opening()[4]) == Serving(OneJoined(), map["s" := JoinEvent(1)])
  {
    FirstJoins();
  }

  lemma {:induction false} SecondJoinServes(c: Cluster)
    requires c.config == Permissive()
    ensures Do(c, Serving(OneJoined(), map["s" := JoinEvent(1)]), SecondJoin()) ==
      Serving(BothJoined(), map["s" := JoinEvent(1), "t" := JoinEvent(2)])
  {
    SecondJoins();
  }

  lemma OpeningInTurn()
    ensures Opening()[..3] == Opening()[..2] + [Opening()[2]] && Opening()[..4] == Opening()[..3] + [Opening()[3]]
    ensures Opening() == Opening()[..4] + [Opening()[4]]
  {
  }

  lemma {:induction false} OpeningRuns(c: Cluster)
    requires c.config == Permissive() && Genuine(c)
    ensures Run(c, Empty, Opening()) == Serving(OneJoined(), map["s" := JoinEvent(1)])
  {
    UnjoinedLoads(c);
    Initializes(c);
    RequestRuns(c);
    OpeningInTurn();
    RunSplit(c, Empty, Opening()[..2], Opening()[2]);
    RunSplit(c, Empty, Opening()[..3], Opening()[3]);
    RunSplit(c, Empty, Opening()[..4], Opening()[4]);
    FirstJoinServes(c);
  }

  // ------------------------------------------------------ a wedged live instance

  /** The command is durable, and the instance holds it, too, but not as durable. */
  function Wedged(): System
  {
    var s := Serving(BothJoined(), map["s" := JoinEvent(1), "t" := JoinEvent(2)]);
    s.(store := map["m" := Stored(Played(), "r")],
       matches := map["r" := Live(s.matches["r"].instance.(engine := Played(), wedged := true))])
  }

  lemma {:induction false} CommitOutlived(inst: Instance, store: Store)
    requires inst == Serving(BothJoined(), map["s" := JoinEvent(1), "t" := JoinEvent(2)]).matches["r"].instance
    requires store == map["m" := Stored(BothJoined(), "r")]
    ensures OnTargetCommand(Permissive(), inst, store, multiset{}, "a", FirstCommand(), 0, false, WorldAccepts(0, true), AckLost) ==
      Effect(Some(inst.(engine := Played(), wedged := true)), map["m" := Stored(Played(), "r")], multiset{}, [], None, None)
  {
    CommandIsPlayed();
    assert store["m" := Stored(Played(), "r")] == map["m" := Stored(Played(), "r")];
  }

  lemma {:induction false} CommitIsAmbiguous(c: Cluster, s: System)
    requires c.config == Permissive() && s == Serving(BothJoined(), map["s" := JoinEvent(1), "t" := JoinEvent(2)])
    ensures Do(c, s, Ambiguous()) == Wedged()
  {
    CommitOutlived(s.matches["r"].instance, s.store);
    StepIsCallback(c, s, Ambiguous());
  }

  /** A run of seven steps from an empty cluster reaches an instance that outlives
      an ambiguous commit, and no operator call can resume its match: the look-up
      finds the instance alive, and the call ends where it began. */
  lemma {:induction false} WedgedInstanceIsReachable(c: Cluster)
    requires c.config == Permissive() && Genuine(c)
    ensures var s := Run(c, Empty, Opening() + [SecondJoin(), Ambiguous()]);
      && IsLive(s, "r") && s.matches["r"].instance.wedged && "m" in s.store
      && s.matches["r"].instance.engine == s.store["m"].snapshot != s.matches["r"].instance.record.snapshot
      && Run(c, s, [ResumeLoad(0, "m"), ResumeInspect(0)]) == s
  {
    OpeningRuns(c);
    RunSplit(c, Empty, Opening(), SecondJoin());
    RunSplit(c, Empty, Opening() + [SecondJoin()], Ambiguous());
    assert Opening() + [SecondJoin(), Ambiguous()] == Opening() + [SecondJoin()] + [Ambiguous()];
    SecondJoinServes(c);
    CommitIsAmbiguous(c, Serving(BothJoined(), map["s" := JoinEvent(1), "t" := JoinEvent(2)]));
    EveryDurableRecordLoads(c, Opening() + [SecondJoin(), Ambiguous()], "m");
    LiveRuntimeBlocksResume(c, Wedged(), 0, "m");
  }

  // --------------------------------------------- a World document made too early

  /** A completion signal after the first join creates the World document. */
  function EarlyGate(): WorldStep
  {
    Gate("r", [Creates(WorldWrite("m", FirstDoc(OneJoined(), "", 0), None), Stored(OneJoined(), "r"))], [])
  }

  /** The cluster without any World document. */
  function Bare(s: System): WorldSystem
  {
    WorldSystem(s, map[], map[], [])
  }

  lemma {:induction false} PlainMoves(c: Cluster, s: System, step: Step, s': System)
    requires IsPlain(step) && Do(c, s, step) == s' && s.floating == multiset{} == s'.floating
    ensures DoWorld(c, Bare(s), Plain(step)) == Bare(s')
  {
    assert s'.floating - s.floating == multiset{};
  }

  function EarlyRun(): seq<WorldStep>
  {
    var o := Opening();
    [Plain(o[0]), Plain(o[1]), Plain(o[2]), Plain(o[3]), Plain(o[4])]
  }

  lemma EarlyRunInTurn()
    ensures EarlyRun()[..1] == [] + [EarlyRun()[0]] && EarlyRun()[..2] == EarlyRun()[..1] + [EarlyRun()[1]]
    ensures EarlyRun()[..3] == EarlyRun()[..2] + [EarlyRun()[2]] && EarlyRun()[..4] == EarlyRun()[..3] + [EarlyRun()[3]]
    ensures EarlyRun() == EarlyRun()[..4] + [EarlyRun()[4]]
  {
  }

  lemma {:induction false} EarlyRunRequests(c: Cluster)
    requires c.config == Permissive()
    ensures RunWorld(c, EarlyRun()[..2]) == Bare(Initializing(Requested("m", 1)))
  {
    EarlyRunInTurn();
    CreatesMatch(c);
    PlainMoves(c, Empty, Opening()[0], Requesting());
    PlainMoves(c, Requesting(), Opening()[1], Initializing(Requested("m", 1)));
    RunFromOneMore(c, NoWorlds, [], EarlyRun()[0]);
    RunFromOneMore(c, NoWorlds, EarlyRun()[..1], EarlyRun()[1]);
  }

  lemma {:induction false} EarlyRunServes(c: Cluster)
    requires c.config == Permissive() && Genuine(c)
    ensures RunWorld(c, EarlyRun()) == Bare(Serving(OneJoined(), map["s" := JoinEvent(1)]))
  {
    UnjoinedLoads(c);
    Initializes(c);
    FirstJoinServes(c);
    EarlyRunRequests(c);
    EarlyRunInTurn();
    PlainMoves(c, Initializing(Requested("m", 1)), Opening()[2], Initializing(Loaded(Stored(Unjoined(), ""))));
    PlainMoves(c, Initializing(Loaded(Stored(Unjoined(), ""))), Opening()[3], Serving(Unjoined(), map[]));
    PlainMoves(c, Serving(Unjoined(), map[]), Opening()[4], Serving(OneJoined(), map["s" := JoinEvent(1)]));
    RunFromOneMore(c, NoWorlds, EarlyRun()[..2], EarlyRun()[2]);
    RunFromOneMore(c, NoWorlds, EarlyRun()[..3], EarlyRun()[3]);
    RunFromOneMore(c, NoWorlds, EarlyRun()[..4], EarlyRun()[4]);
  }

  function EarlyWorld(core: System): WorldSystem
  {
    WorldSystem(core, map["m" := FirstDoc(OneJoined(), "", 0)], map["m" := Stored(OneJoined(), "r")], [])
  }

  lemma {:induction false} GateCreates(c: Cluster)
    ensures DoWorld(c, Bare(Serving(OneJoined(), map["s" := JoinEvent(1)])), EarlyGate()) ==
      EarlyWorld(Serving(OneJoined(), map["s" := JoinEvent(1)]))
  {
    var s, done := Bare(Serving(OneJoined(), map["s" := JoinEvent(1)])), EarlyGate().done;
    assert done[..0] == [] && Performed(Data(s), []) == Data(s);
    assert Performed(Data(s), done) == Apply(Data(s), done[0]);
    assert GateEnabled(s, "r", done, []);
    assert s.late + [] == s.late;
  }

  lemma {:induction false} SecondJoinMoves(c: Cluster)
    requires c.config == Permissive()
    ensures DoWorld(c, EarlyWorld(Serving(OneJoined(), map["s" := JoinEvent(1)])), Plain(SecondJoin())) ==
      EarlyWorld(Serving(BothJoined(), map["s" := JoinEvent(1), "t" := JoinEvent(2)]))
  {
    SecondJoinServes(c);
    var s := Serving(OneJoined(), map["s" := JoinEvent(1)]);
    assert Do(c, s, SecondJoin()).floating - s.floating == multiset{};
  }

  /** A run from an empty cluster in which the gate of a completion signal creates
      the World document after one join; the second join is then durable, the two
      objects of the match no longer agree, and no instance will open the document. */
  lemma {:induction false} EarlyDocumentIsReachable(c: Cluster)
    requires c.config == Permissive() && Genuine(c)
    ensures var s := RunWorld(c, EarlyRun() + [EarlyGate()]);
      "m" in s.worlds && "m" in s.core.store && Agreeing(s.core.store, s.worlds, "m")
    ensures var t := RunWorld(c, EarlyRun() + [EarlyGate()] + [Plain(SecondJoin())]);
      && "m" in t.worlds && "m" in t.core.store && t.core.store["m"].snapshot.completion.None?
      && !CursorsAgree(t.worlds["m"].state, t.core.store["m"].snapshot)
  {
    EarlyRunServes(c);
    RunFromOneMore(c, NoWorlds, EarlyRun(), EarlyGate());
    RunFromOneMore(c, NoWorlds, EarlyRun() + [EarlyGate()], Plain(SecondJoin()));
    GateCreates(c);
    SecondJoinMoves(c);
    SecondJoins();
    JoinAfterStoreDiverges(Permissive(), FirstDoc(OneJoined(), "", 0).state, OneJoined(), "aa", "aa", 0);
  }
}
