/** The looping callbacks of a match object refine the protocol: one call is a run
    of single protocol steps of the same instance. */
module MatchRefinement {
  import opened Common
  import opened Contract
  import opened MatchEngine
  import opened StoredMatch
  import opened MatchCallbacks
  import opened Protocol
  import opened ProtocolRecovery
  import opened MatchRuntime

  // ------------------------------------------------------------------ MatchJoin

  /** The protocol steps of one MatchJoin call. */
  function Deliveries(x: string, sessions: seq<string>): seq<Step>
  {
    if sessions == [] then [] else Deliveries(x, sessions[..|sessions| - 1]) + [JoinedMatch(x, sessions[|sessions| - 1])]
  }

  function Joined(s: System, x: string, sessions: seq<string>): Effect
    requires IsLive(s, x)
  {
    var (inst, sent) := AfterJoined(s.matches[x].instance, sessions);
    Effect(Some(inst), s.store, s.floating, sent, None, None)
  }

  /** A MatchJoin call is the run of its deliveries, one for each presence. */
  lemma {:induction false} MatchJoinIsARun(c: Cluster, s: System, x: string, sessions: seq<string>)
    requires IsLive(s, x)
    ensures Run(c, s, Deliveries(x, sessions)) == AfterCallback(s, x, Joined(s, x, sessions))
    ensures Joined(s, x, sessions).instance.value.logicalId == s.matches[x].instance.logicalId
  {
    if sessions == [] {
      assert s.matches[x := Live(s.matches[x].instance)] == s.matches;
      assert AfterCallback(s, x, Joined(s, x, sessions)) == s;
    } else {
      var before, session := sessions[..|sessions| - 1], sessions[|sessions| - 1];
      MatchJoinIsARun(c, s, x, before);
      RunSplit(c, s, Deliveries(x, before), JoinedMatch(x, session));
      var first := Joined(s, x, before);
      DeliveryExtends(c, s, x, first, session, Joined(s, x, sessions));
    }
  }

  lemma {:induction false} DeliveryExtends(c: Cluster, s: System, x: string, first: Effect, session: string, whole: Effect)
    requires IsLive(s, x) && first.instance.Some? && first.announced.None? && first.store == s.store && first.floating == s.floating
    requires first.instance.value.logicalId == s.matches[x].instance.logicalId
    requires var second := OnJoined(first.instance.value, s.store, s.floating, session);
      whole == second.(broadcast := first.broadcast + second.broadcast)
    ensures Do(c, AfterCallback(s, x, first), JoinedMatch(x, session)) == AfterCallback(s, x, whole)
  {
    ComposeCallbacks(s, x, first, OnJoined(first.instance.value, s.store, s.floating, session));
  }

  // ------------------------------------------------------------------ MatchLoop

  /** The protocol steps of one MatchLoop call. */
  function Plays(x: string, messages: seq<Message>): seq<Step>
  {
    if messages == [] then []
    else
      var before, m := Plays(x, messages[..|messages| - 1]), messages[|messages| - 1];
      if Playable(m) then before + [PlayCommand(x, m.userId, m.command.value, m.now, m.fault)] else before
  }

  ghost function Effects(c: Cluster, s: System, x: string, messages: seq<Message>): Effect
    requires IsLive(s, x)
  {
    AfterMessages(c.config, s.matches[x].instance, s.store, s.floating, messages)
  }

  /** A MatchLoop call of a legacy instance is the run of its command steps: same
      storage, same surviving instance, and the same events made visible. */
  lemma {:induction false} MatchLoopIsARun(c: Cluster, s: System, x: string, messages: seq<Message>)
    requires IsLive(s, x) && !s.matches[x].instance.target
    ensures Run(c, s, Plays(x, messages)) == AfterCallback(s, x, Effects(c, s, x, messages))
    ensures Effects(c, s, x, messages).announced.None?
    ensures Effects(c, s, x, messages).instance.Some? ==>
      !Effects(c, s, x, messages).instance.value.target &&
      Effects(c, s, x, messages).instance.value.logicalId == s.matches[x].instance.logicalId
  {
    if messages == [] {
      assert s.matches[x := Live(s.matches[x].instance)] == s.matches;
      assert AfterCallback(s, x, Effects(c, s, x, messages)) == s;
    } else {
      var before, m := messages[..|messages| - 1], messages[|messages| - 1];
      MatchLoopIsARun(c, s, x, before);
      if Playable(m) {
        RunSplit(c, s, Plays(x, before), PlayCommand(x, m.userId, m.command.value, m.now, m.fault));
        PlayExtends(c, s, x, before, m);
      }
    }
  }

  lemma PlayExtends(c: Cluster, s: System, x: string, before: seq<Message>, m: Message)
    requires IsLive(s, x) && Playable(m)
    requires Effects(c, s, x, before).announced.None?
    requires Effects(c, s, x, before).instance.Some? ==>
      !Effects(c, s, x, before).instance.value.target &&
      Effects(c, s, x, before).instance.value.logicalId == s.matches[x].instance.logicalId
    ensures Do(c, AfterCallback(s, x, Effects(c, s, x, before)), PlayCommand(x, m.userId, m.command.value, m.now, m.fault))
      == AfterCallback(s, x, Effects(c, s, x, before + [m]))
    ensures Effects(c, s, x, before + [m]).announced.None?
    ensures Effects(c, s, x, before + [m]).instance.Some? ==>
      !Effects(c, s, x, before + [m]).instance.value.target &&
      Effects(c, s, x, before + [m]).instance.value.logicalId == s.matches[x].instance.logicalId
  {
    assert (before + [m])[..|before|] == before;
    var first := Effects(c, s, x, before);
    if first.instance.Some? {
      OnCommandShape(c.config, first.instance.value, first.store, first.floating, m);
      ComposeCallbacks(s, x, first,
        OnCommand(c.config, first.instance.value, first.store, first.floating, m.userId, m.command.value, m.now, m.fault));
    }
  }

  lemma OnCommandShape(cfg: Config, inst: Instance, store: Store, floating: multiset<Write>, m: Message)
    requires m.command.Some?
    ensures var effect := OnCommand(cfg, inst, store, floating, m.userId, m.command.value, m.now, m.fault);
      && effect.announced.None? && effect.reply.None?
      && (effect.instance.Some? ==>
            effect.instance.value.target == inst.target && effect.instance.value.logicalId == inst.logicalId)
  {
  }

  /** Two callbacks in a row are one with both broadcasts. */
  lemma ComposeCallbacks(s: System, x: string, first: Effect, second: Effect)
    requires IsLive(s, x) && first.instance.Some? && first.announced.None? && second.announced.None?
    requires first.instance.value.logicalId == s.matches[x].instance.logicalId
    ensures AfterCallback(AfterCallback(s, x, first), x, second)
      == AfterCallback(s, x, second.(broadcast := first.broadcast + second.broadcast))
  {
    var mid := AfterCallback(s, x, first);
    var t := AfterCallback(mid, x, second);
    var u := AfterCallback(s, x, second.(broadcast := first.broadcast + second.broadcast));
    var id := s.matches[x].instance.logicalId;
    assert (set n | n in first.broadcast + second.broadcast :: (id, n)) ==
      (set n | n in first.broadcast :: (id, n)) + (set n | n in second.broadcast :: (id, n));
    assert t.visible == u.visible;
    assert t.matches == u.matches;
  }
}
