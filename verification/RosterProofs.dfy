/** Rosters, and what an empty shutdown binding says. */
module RosterProofs {
  import opened RuntimeState
  import opened OwnershipInvariants
  import opened LifecycleInvariants
  import opened Counting

  /** The identity of a roster row determines the row. */
  ghost predicate RowOf(o: Ownership, x: RunSnapshot)
  {
    if x.run in o.runs then x == o.runs[x.run].snapshot
    else x.run in o.drawn
         && match o.drawn[x.run]
            case ByLaunch(_, ref) => ref in o.launches && ListedLaunch(o.launches[ref]) && x == LaunchSnapshot(o.launches[ref])
            case ByResume(_, id) => id in o.resumes && x == o.resumes[id].snapshot.MarkUncertain()
  }

  lemma {:induction false} LaunchRow(epoch: nat, o: Ownership, ref: Ref)
    requires ref in o.launches && LaunchEntry(epoch, o, ref) && ListedLaunch(o.launches[ref])
    requires LaunchSnapshot(o.launches[ref]).run !in o.runs
    ensures RowOf(o, LaunchSnapshot(o.launches[ref]))
  {
  }

  lemma {:induction false} ResumeRow(epoch: nat, o: Ownership, id: RequestId)
    requires id in o.resumes && ResumeEntry(epoch, o, id) && ListedResume(o.resumes[id])
    ensures RowOf(o, o.resumes[id].snapshot.MarkUncertain())
  {
  }

  lemma {:induction false} RosterRow(epoch: nat, o: Ownership, x: RunSnapshot)
    requires LaunchEntries(epoch, o) && ResumeEntries(epoch, o) && RunEntries(o) && x in Roster(o)
    ensures RowOf(o, x)
  {
    if r :| r in o.runs && x == o.runs[r].snapshot {
    } else if id :| id in o.index && o.index[id] in o.launches && ListedLaunch(o.launches[o.index[id]])
                    && LaunchSnapshot(o.launches[o.index[id]]).run !in o.runs && x == LaunchSnapshot(o.launches[o.index[id]]) {
      LaunchRow(epoch, o, o.index[id]);
    } else {
      var id :| id in o.resumes && ListedResume(o.resumes[id]) && x == o.resumes[id].snapshot.MarkUncertain();
      ResumeRow(epoch, o, id);
    }
  }

  lemma {:induction false} RosterInjective(epoch: nat, o: Ownership)
    requires LaunchEntries(epoch, o) && ResumeEntries(epoch, o) && RunEntries(o)
    ensures Injective(Roster(o))
  {
    forall x, y | x in Roster(o) && y in Roster(o) && x.run == y.run ensures x == y {
      RosterRow(epoch, o, x);
      RosterRow(epoch, o, y);
    }
  }

  lemma {:induction false} InjectiveSize(rows: set<RunSnapshot>)
    requires Injective(rows)
    ensures |Ids(rows)| == |rows|
    decreases |rows|
  {
    if rows != {} {
      var x :| x in rows;
      InjectiveSize(rows - {x});
      assert Ids(rows) == Ids(rows - {x}) + {x.run};
    }
  }

  /** An empty binding means that every owned run is reconciled. */
  lemma {:induction false} EmptyBindingMeansNoWork(s: State, id: PreviewId)
    requires Conserved(s.own) && RunEntries(s.own)
    requires EmptyBinding(BindingOf(s, id))
    ensures s.own.active == 0
  {
    var o := s.own;
    forall r | r in o.runs ensures !HoldsRun(o.runs[r]) {
      assert o.runs[r].snapshot in Roster(o);
      assert o.runs[r].snapshot !in ShutdownRoster(o);
      assert r !in ReconcilingRuns(o);
    }
    CountZero(o.runs, HoldsRun);
  }

  // ---- Nothing is missing -----------------------------------------------------------

  /** Committed to start and neither transferred nor known to have no child. */
  predicate MayOwnLaunch(t: LaunchTicket) { t.starting && HoldsLaunch(t) }

  predicate MayOwnResume(t: ResumeTicket) { t.starting && HoldsResume(t) }

  lemma {:induction false} LaunchIsListed(epoch: nat, o: Ownership, ref: Ref)
    requires ref in o.launches && LaunchEntry(epoch, o, ref)
    ensures MayOwnLaunch(o.launches[ref]) ==>
              ListedLaunch(o.launches[ref]) && LaunchSnapshot(o.launches[ref]).run == o.launches[ref].snapshot.run
              && o.launches[ref].request.id in o.index && o.index[o.launches[ref].request.id] == ref
              && o.launches[ref].snapshot.run !in o.runs
    ensures ListedLaunch(o.launches[ref]) && LaunchSnapshot(o.launches[ref]).run !in o.runs ==>
              MayOwnLaunch(o.launches[ref]) && LaunchSnapshot(o.launches[ref]).run == o.launches[ref].snapshot.run
  {
  }

  lemma {:induction false} ResumeIsListed(epoch: nat, o: Ownership, id: RequestId)
    requires id in o.resumes && ResumeEntry(epoch, o, id)
    ensures MayOwnResume(o.resumes[id]) <==> ListedResume(o.resumes[id])
  {
  }

  /** The roster shows exactly the owned runs and the launches and resumes that are
      committed to start and may own a child; an owned run shows as it is. */
  lemma {:induction false} RosterIsExact(epoch: nat, o: Ownership, r: RunId)
    requires LaunchEntries(epoch, o) && ResumeEntries(epoch, o) && RunEntries(o) && Indexed(o)
    ensures r in Ids(Roster(o))
            <==> r in o.runs || (exists ref :: ref in o.launches && MayOwnLaunch(o.launches[ref]) && o.launches[ref].snapshot.run == r)
                 || (exists id :: id in o.resumes && MayOwnResume(o.resumes[id]) && o.resumes[id].snapshot.run == r)
    ensures r in o.runs ==> o.runs[r].snapshot in Roster(o)
  {
    hide LaunchEntry, ResumeEntry, ListedLaunch, ListedResume, LaunchSnapshot, MayOwnLaunch, MayOwnResume, RunShape;
    forall ref | ref in o.launches && MayOwnLaunch(o.launches[ref]) && o.launches[ref].snapshot.run == r ensures r in Ids(Roster(o)) {
      LaunchIsListed(epoch, o, ref);
      assert LaunchSnapshot(o.launches[ref]) in Roster(o);
    }
    forall id | id in o.resumes && MayOwnResume(o.resumes[id]) && o.resumes[id].snapshot.run == r ensures r in Ids(Roster(o)) {
      ResumeIsListed(epoch, o, id);
      assert o.resumes[id].snapshot.MarkUncertain() in Roster(o);
    }
    if r in o.runs { assert o.runs[r].snapshot in Roster(o); }
    if r in Ids(Roster(o)) && r !in o.runs { Unlisted(epoch, o, r); }
  }

  lemma {:induction false} Unlisted(epoch: nat, o: Ownership, r: RunId)
    requires LaunchEntries(epoch, o) && ResumeEntries(epoch, o) && RunEntries(o) && Indexed(o) && r in Ids(Roster(o)) && r !in o.runs
    ensures (exists ref :: ref in o.launches && MayOwnLaunch(o.launches[ref]) && o.launches[ref].snapshot.run == r)
            || (exists id :: id in o.resumes && MayOwnResume(o.resumes[id]) && o.resumes[id].snapshot.run == r)
  {
    hide LaunchEntry, ResumeEntry, ListedLaunch, ListedResume, LaunchSnapshot, MayOwnLaunch, MayOwnResume, RunShape;
    var x :| x in Roster(o) && x.run == r;
    if id :| id in o.resumes && ListedResume(o.resumes[id]) && o.resumes[id].snapshot.MarkUncertain() == x {
      ResumeIsListed(epoch, o, id);
    } else {
      var id :| id in o.index && o.index[id] in o.launches && ListedLaunch(o.launches[o.index[id]])
                && LaunchSnapshot(o.launches[o.index[id]]).run !in o.runs && LaunchSnapshot(o.launches[o.index[id]]) == x;
      LaunchIsListed(epoch, o, o.index[id]);
    }
  }

  lemma {:induction false} LaunchesAreQuiet(epoch: nat, o: Ownership)
    requires LaunchEntries(epoch, o) && Indexed(o)
    ensures Count(o.launches, HoldsLaunch) == 0 && PublishingLaunches(o) == {}
            <==> forall ref :: ref in o.launches ==> o.launches[ref].phase == Finished(false)
  {
    CountZero(o.launches, HoldsLaunch);
    forall ref | ref in o.launches && o.launches[ref].phase.Publishing? ensures o.launches[ref].request.id in PublishingLaunches(o) {
      assert LaunchEntry(epoch, o, ref);
    }
    forall q | q in PublishingLaunches(o) ensures o.launches[o.index[q]].phase != Finished(false) { assert LaunchEntry(epoch, o, o.index[q]); }
  }

  lemma {:induction false} ResumesAreQuiet(epoch: nat, o: Ownership)
    requires ResumeEntries(epoch, o)
    ensures Count(o.resumes, HoldsResume) == 0 && PublishingResumes(o) == {}
            <==> forall q :: q in o.resumes ==> o.resumes[q].complete && !o.resumes[q].possibleChild
  {
    CountZero(o.resumes, HoldsResume);
    forall q | q in o.resumes && o.resumes[q].attached
      ensures !o.resumes[q].possibleChild && (!o.resumes[q].complete ==> q in PublishingResumes(o))
    {
      assert ResumeEntry(epoch, o, q);
    }
  }

  /** The counts of a binding are zero exactly when nothing is in motion. */
  lemma {:induction false} BindingIsQuiet(s: State, id: PreviewId)
    requires Conserved(s.own) && LaunchEntries(s.epoch, s.own) && ResumeEntries(s.epoch, s.own) && Indexed(s.own)
    ensures BindingOf(s, id).pendingLaunches == 0
            <==> (forall ref :: ref in s.own.launches ==> s.own.launches[ref].phase == Finished(false))
                 && (forall q :: q in s.own.resumes ==> s.own.resumes[q].complete && !s.own.resumes[q].possibleChild)
    ensures BindingOf(s, id).pendingReconciliations == 0
            <==> forall r :: r in s.own.runs && s.own.runs[r].snapshot.state == Exited ==> s.own.runs[r].phase.Reconciled?
  {
    hide LaunchEntries, ResumeEntries, Indexed, PublishingLaunches, PublishingResumes, Count;
    LaunchesAreQuiet(s.epoch, s.own);
    ResumesAreQuiet(s.epoch, s.own);
    forall r | r in s.own.runs && s.own.runs[r].snapshot.state == Exited && !s.own.runs[r].phase.Reconciled?
      ensures r in ReconcilingRuns(s.own)
    {
    }
    if ReconcilingRuns(s.own) != {} { var r :| r in ReconcilingRuns(s.own); }
  }
}
