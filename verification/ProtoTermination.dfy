/** When the loop of parse returns at all: skip_declaration makes no progress at a
    closing brace (scripts/generate-api-rtapi-denominator.py). */
module ProtoTermination {
  import opened Common
  import opened ProtoLexer
  import opened ProtoParser

  ghost predicate Returns(ts: seq<Token>, st: State)
    requires st.i <= |ts|
  {
    exists turns: nat :: !AfterTurns(ts, st, turns).Running?
  }

  /** After this many turns, none of which raised an error, the cursor stands at a
      closing brace of the top level. */
  predicate StuckAfter(ts: seq<Token>, st: State, turns: nat)
    requires st.i <= |ts|
  {
    AfterTurns(ts, st, turns).Running? && At(ts, AfterTurns(ts, st, turns).state.i, "}")
  }

  function OutcomeOf(p: Progress): Outcome
  {
    match p
    case Running(_) => NeverReturns
    case Finished(items, manual) => Parsed(items, manual)
    case Raised => ContractError
    case AtService => MeetsService
  }

  /** At a closing brace no number of turns changes anything. */
  lemma {:induction false} BraceStandsStill(ts: seq<Token>, st: State, turns: nat)
    requires At(ts, st.i, "}")
    ensures AfterTurns(ts, st, turns) == Running(st)
  {
    if turns > 0 {
      BraceStandsStill(ts, st, turns - 1);
    }
  }

  /** A loop that has ended, and one that stands still, are the same ever after. */
  lemma {:induction false} NothingMore(ts: seq<Token>, st: State, turns: nat, later: nat)
    requires st.i <= |ts| && turns <= later && (!AfterTurns(ts, st, turns).Running? || StuckAfter(ts, st, turns))
    ensures AfterTurns(ts, st, later) == AfterTurns(ts, st, turns)
    decreases turns
  {
    if turns == 0 {
      BraceStandsStill(ts, st, later);
    } else if st.i < |ts| && ts[st.i].value != "service" && NextDecl(ts, st).Some? {
      NothingMore(ts, NextDecl(ts, st).value, turns - 1, later - 1);
    }
  }

  /** Some number of turns shows the outcome. */
  lemma {:induction false} TurnsTell(ts: seq<Token>, st: State) returns (turns: nat)
    requires st.i <= |ts|
    ensures File(ts, st) == OutcomeOf(AfterTurns(ts, st, turns))
    ensures AfterTurns(ts, st, turns).Running? ==> StuckAfter(ts, st, turns)
    decreases |ts| - st.i
  {
    if At(ts, st.i, "}") {
      turns := 0;
    } else if st.i == |ts| || ts[st.i].value == "service" || NextDecl(ts, st).None? {
      turns := 1;
    } else {
      var rest := TurnsTell(ts, NextDecl(ts, st).value);
      turns := 1 + rest;
    }
  }

  /** The outcome of a parse is what its loop arrives at. */
  lemma FileIsTheLoop(ts: seq<Token>, st: State, turns: nat)
    requires st.i <= |ts| && !AfterTurns(ts, st, turns).Running?
    ensures File(ts, st) == OutcomeOf(AfterTurns(ts, st, turns))
  {
    var told := TurnsTell(ts, st);
    NothingMore(ts, st, turns, turns + told);
    NothingMore(ts, st, told, turns + told);
  }

  /** The parse fails to return exactly when its declarations, read one after the
      other without an error, lead to a closing brace at the top level. */
  lemma ReturnsUnlessStuck(ts: seq<Token>, st: State)
    requires st.i <= |ts|
    ensures !Returns(ts, st) <==> exists turns: nat :: StuckAfter(ts, st, turns)
    ensures !Returns(ts, st) <==> File(ts, st) == NeverReturns
  {
    var told := TurnsTell(ts, st);
    if turns: nat :| StuckAfter(ts, st, turns) {
      forall later: nat ensures AfterTurns(ts, st, later).Running? {
        if later < turns {
          if !AfterTurns(ts, st, later).Running? { NothingMore(ts, st, later, turns); }
        } else {
          NothingMore(ts, st, turns, later);
        }
      }
    }
  }
}
