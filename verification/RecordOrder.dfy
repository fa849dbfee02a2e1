/** The order in which the values of one match record replace each other. */
module RecordOrder {
  import opened Common
  import opened MatchEngine
  import opened EngineProgress
  import opened StoredMatch

  /** Strictly earlier in (generation, runtime bound or not, engine version). */
  predicate RankLess(r: Record, t: Record)
  {
    r.generation < t.generation ||
    (r.generation == t.generation &&
     ((r.externalId == "" && t.externalId != "") ||
      (r.externalId == t.externalId && r.snapshot.version < t.snapshot.version)))
  }

  /** `t` is `r`, or a later value of the same record reached while `r` was
      incomplete; the engine history of `r` is kept. */
  predicate Below(r: Record, t: Record)
  {
    r == t ||
    (r.logicalId == t.logicalId && RankLess(r, t) && r.snapshot.completion.None? && Grows(r.snapshot, t.snapshot))
  }

  lemma BelowTransitive(r: Record, t: Record, u: Record)
    requires Below(r, t) && Below(t, u)
    ensures Below(r, u)
  {
  }

  /** A value that has been left does not come back. */
  lemma BelowAntisymmetric(r: Record, t: Record)
    requires Below(r, t) && Below(t, r)
    ensures r == t
  {
  }

  /** Every record of `s` is still there in `t`, at the same or a later value. */
  ghost predicate Advanced(s: Store, t: Store)
  {
    forall id :: id in s ==> id in t && Below(s[id], t[id])
  }

  lemma AdvancedTransitive(s: Store, t: Store, u: Store)
    requires Advanced(s, t) && Advanced(t, u)
    ensures Advanced(s, u)
  {
    forall id | id in s ensures id in u && Below(s[id], u[id]) {
      assert id in t;
      BelowTransitive(s[id], t[id], u[id]);
    }
  }

  /** `r` was the durable value of its record at some time. */
  predicate Past(store: Store, r: Record)
  {
    r.logicalId in store && Below(r, store[r.logicalId])
  }

  lemma PastKept(s: Store, t: Store, r: Record)
    requires Past(s, r) && Advanced(s, t)
    ensures Past(t, r)
  {
    BelowTransitive(r, s[r.logicalId], t[r.logicalId]);
  }
}
