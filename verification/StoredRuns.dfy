/** A whole run of the publisher, its tables, and the restart that reads them. */
module StoredRuns {
  import opened Wrappers
  import opened Compiler
  import opened Ledger
  import opened LedgerRuns
  import Store = StateStore

  function RevisionRows(rs: seq<Revision>): seq<Store.Entry> {
    seq(|rs|, i requires 0 <= i < |rs| => Store.Entry(rs[i].id, Store.OfRevision(rs[i])))
  }

  function PublishRows(ps: seq<Record>): seq<Store.Entry> {
    seq(|ps|, i requires 0 <= i < |ps| => Store.Entry(ps[i].publishId, Store.OfPublish(ps[i])))
  }

  // What the publisher hands to the store, and what it makes of what the store gives back.
  function Written(st: Stored): Store.State {
    Store.State(Store.CURRENT_VERSION, st.activeId, RevisionRows(st.revisions), PublishRows(st.publishes))
  }

  predicate RevisionsOnly(entries: seq<Store.Entry>) {
    forall i :: 0 <= i < |entries| ==> entries[i].body.OfRevision?
  }

  predicate PublishesOnly(entries: seq<Store.Entry>) {
    forall i :: 0 <= i < |entries| ==> entries[i].body.OfPublish?
  }

  function ReadBack(s: Store.State): Stored
    requires RevisionsOnly(s.revisions) && PublishesOnly(s.publishes)
  {
    Stored(s.activeId,
           seq(|s.revisions|, i requires 0 <= i < |s.revisions| => s.revisions[i].body.revision.(id := s.revisions[i].id)),
           seq(|s.publishes|, i requires 0 <= i < |s.publishes| => s.publishes[i].body.record.(publishId := s.publishes[i].id)))
  }

  lemma {:induction false} WrittenReadsBack(st: Stored)
    ensures var s := Written(st); RevisionsOnly(s.revisions) && PublishesOnly(s.publishes) && ReadBack(s) == st
  {
    var back := ReadBack(Written(st));
    assert forall i :: 0 <= i < |st.revisions| ==> back.revisions[i] == st.revisions[i];
    assert forall i :: 0 <= i < |st.publishes| ==> back.publishes[i] == st.publishes[i];
  }

  predicate DistinctPublishes(ps: seq<Record>) {
    forall i, j :: 0 <= i < j < |ps| ==> ps[i].publishId != ps[j].publishId
  }

  // A save of the ledger lands exactly when it gets to its commit and no publish id comes twice.
  lemma {:induction false} SaveLandsIff(env: Env, ops: seq<Op>, committed: bool)
    requires FreshIds(env, ops)
    ensures var l := Run(env, ops).ledger;
            Store.Lands(Store.Attempt(Written(Persisted(l)), committed)) <==> committed && DistinctPublishes(l.publishes)
  {
    LedgerInvariant(env, ops);
    var l := Run(env, ops).ledger;
    var s := Written(Persisted(l));
    assert forall i :: 0 <= i < |l.revisions| ==> s.revisions[i].id == l.revisions[i].id;
    assert forall i :: 0 <= i < |l.publishes| ==> s.publishes[i].id == l.publishes[i].publishId;
  }

  // After any run, any attempts to save whose last one to land was that of the ledger, and a
  // restart that reads the tables: the same revisions in the same order, the same one active,
  // each configuration in its normal form, and the newest publishes that its limit allows.
  lemma {:induction false} RunSurvivesRestart(env: Env, ops: seq<Op>, attempts: seq<Store.Attempt>, read: Option<Store.State>)
    requires FreshIds(env, ops)
    requires forall k :: 0 <= k < |attempts| ==> attempts[k].state.version == Store.CURRENT_VERSION
    requires Store.LastLanded(attempts) == Some(Written(Persisted(Run(env, ops).ledger)))
    requires Store.Reads(Store.DatabaseAfter(attempts), read)
    ensures read.Some? && RevisionsOnly(read.value.revisions) && PublishesOnly(read.value.publishes)
    ensures var l, back := Run(env, ops).ledger, Restarted(Some(ReadBack(read.value)));
            && Ids(back.revisions) == Ids(l.revisions) && back.active == l.active
            && (forall i :: 0 <= i < |l.revisions| ==> BroughtBack(l.revisions[i], back.revisions[i]))
            && KeepsNewest(l.publishes, back.publishes, back.limit)
  {
    var l := Run(env, ops).ledger;
    LedgerInvariant(env, ops);
    Store.LoadGivesTheLastSave(attempts, read);
    WrittenReadsBack(Persisted(l));
    RestartBringsBackTheLastSave(l);
  }
}
