/** The paged roster: at one revision the run identities cannot change, and following
    the cursor visits each of them once, in increasing order. */
module RunPages {
  import opened Options
  import opened RuntimeState
  import opened LaunchSteps
  import opened ResumeSteps
  import opened ControlSteps
  import opened ShutdownSteps
  import opened LifecycleSteps
  import opened RuntimeMachine
  import opened OwnershipInvariants
  import opened ControlInvariants
  import opened LifecycleInvariants
  import opened RosterProofs
  import opened FrozenProofs
  import opened RuntimeProofs
  import opened Receipts
  import opened Finality

  // ---- Pages ------------------------------------------------------------------

  ghost predicate Increasing(ids: seq<RunId>)
  {
    forall i, j :: 0 <= i < j < |ids| ==> ids[i] < ids[j]
  }

  /** The listing of the owner: the roster in the order of its identities. */
  ghost predicate Lists(o: Ownership, runs: seq<RunSnapshot>)
  {
    Increasing(IdsOf(runs)) && forall x :: x in runs <==> x in Roster(o)
  }

  function IdsOf(runs: seq<RunSnapshot>): (ids: seq<RunId>)
    ensures |ids| == |runs| && forall i :: 0 <= i < |runs| ==> ids[i] == runs[i].run
  {
    seq(|runs|, i requires 0 <= i < |runs| => runs[i].run)
  }

  datatype PageRequest = PageRequest(epoch: nat, revision: nat, cursor: Option<RunId>)
  datatype RunPage = RunPage(epoch: nat, revision: nat, runs: seq<RunSnapshot>, next: Option<RunId>)
  datatype PageReply = NoPage(error: Failure) | Page(page: RunPage)

  /** The first position from `i` on whose identity reaches the cursor. */
  function Search(runs: seq<RunSnapshot>, cursor: RunId, i: nat): (k: nat)
    requires i <= |runs|
    ensures i <= k <= |runs| && (forall j :: i <= j < k ==> runs[j].run < cursor) && (k < |runs| ==> runs[k].run >= cursor)
    decreases |runs| - i
  {
    if i == |runs| || runs[i].run >= cursor then i else Search(runs, cursor, i + 1)
  }

  function Rows(epoch: nat, revision: nat, runs: seq<RunSnapshot>, start: nat): RunPage
    requires start <= |runs|
  {
    var end := if start + 2 <= |runs| then start + 2 else |runs|;
    RunPage(epoch, revision, runs[start..end], if end < |runs| && end > 0 then Some(runs[end - 1].run) else None)
  }

  function PageOf(epoch: nat, revision: nat, runs: seq<RunSnapshot>, request: PageRequest): PageReply
  {
    if request.epoch != epoch then NoPage(ErrChanged)
    else if request.revision != 0 && request.revision != revision then NoPage(ErrChanged)
    else if request.cursor.None? then Page(Rows(epoch, revision, runs, 0))
    else if request.revision == 0 then NoPage(ErrInvalid)
    else
      var index := Search(runs, request.cursor.value, 0);
      if index == |runs| || runs[index].run != request.cursor.value then NoPage(ErrChanged)
      else Page(Rows(epoch, revision, runs, index + 1))
  }

  /** A page is given exactly to a request of this epoch, at this revision if it names
      one, that begins or names a revision and a listed identity to go on from. */
  lemma {:induction false} PageExactly(epoch: nat, revision: nat, runs: seq<RunSnapshot>, request: PageRequest)
    requires Increasing(IdsOf(runs))
    ensures PageOf(epoch, revision, runs, request).Page?
            <==> request.epoch == epoch && (request.revision == 0 || request.revision == revision)
                 && (request.cursor.None? || (request.revision != 0 && request.cursor.value in IdsOf(runs)))
    ensures PageOf(epoch, revision, runs, request) == NoPage(ErrInvalid)
            <==> request.epoch == epoch && request.revision == 0 && request.cursor.Some?
  {
    if request.cursor.Some? {
      var index := Search(runs, request.cursor.value, 0);
      if request.cursor.value in IdsOf(runs) {
        var i :| 0 <= i < |runs| && runs[i].run == request.cursor.value;
        assert index == i;
      } else if index < |runs| {
        assert IdsOf(runs)[index] == runs[index].run;
      }
    }
  }

  // ---- Silent sections keep the identities ---------------------------------------

  function RosterIds(o: Ownership): set<RunId>
  {
    o.runs.Keys
    + (set id | id in o.index && o.index[id] in o.launches && ListedLaunch(o.launches[o.index[id]]) :: LaunchSnapshot(o.launches[o.index[id]]).run)
    + (set id | id in o.resumes && ListedResume(o.resumes[id]) :: o.resumes[id].snapshot.run)
  }

  lemma {:induction false} ListedHasRow(o: Ownership, r: RunId)
    requires RunEntries(o) && r in RosterIds(o)
    ensures r in Ids(Roster(o))
  {
    if r in o.runs {
      assert o.runs[r].snapshot in Roster(o);
    } else if id :| id in o.index && o.index[id] in o.launches && ListedLaunch(o.launches[o.index[id]])
                    && LaunchSnapshot(o.launches[o.index[id]]).run == r {
      assert LaunchSnapshot(o.launches[o.index[id]]) in Roster(o);
    } else {
      var id :| id in o.resumes && ListedResume(o.resumes[id]) && o.resumes[id].snapshot.run == r;
      assert o.resumes[id].snapshot.MarkUncertain() in Roster(o);
    }
  }

  lemma {:induction false} RowIsListed(o: Ownership, x: RunSnapshot)
    requires RunEntries(o) && x in Roster(o)
    ensures x.run in RosterIds(o)
  {
    if q :| q in o.runs && x == o.runs[q].snapshot {
    } else if id :| id in o.index && o.index[id] in o.launches && ListedLaunch(o.launches[o.index[id]])
                    && x == LaunchSnapshot(o.launches[o.index[id]]) {
    } else {
      var id :| id in o.resumes && ListedResume(o.resumes[id]) && x == o.resumes[id].snapshot.MarkUncertain();
    }
  }

  lemma {:induction false} RosterIdsAreIds(o: Ownership)
    requires RunEntries(o)
    ensures RosterIds(o) == Ids(Roster(o))
  {
    hide Roster, RosterIds;
    forall r | r in RosterIds(o) ensures r in Ids(Roster(o)) { ListedHasRow(o, r); }
    forall x | x in Roster(o) ensures x.run in RosterIds(o) { RowIsListed(o, x); }
  }

  /** Rewriting one ticket so that it is listed as before keeps the identities. */
  lemma {:induction false} SameLaunchIds(o: Ownership, o': Ownership, ref: Ref, t': LaunchTicket)
    requires ref in o.launches && o'.launches == o.launches[ref := t'] && o'.index == o.index && o'.resumes == o.resumes && o'.runs == o.runs
    requires ListedLaunch(t') == ListedLaunch(o.launches[ref])
    requires ListedLaunch(t') ==> LaunchSnapshot(t').run == LaunchSnapshot(o.launches[ref]).run
    ensures RosterIds(o') == RosterIds(o)
  {
    forall id | id in o.index && o.index[id] in o.launches
      ensures ListedLaunch(o'.launches[o.index[id]]) == ListedLaunch(o.launches[o.index[id]])
      ensures ListedLaunch(o.launches[o.index[id]]) ==>
                LaunchSnapshot(o'.launches[o.index[id]]).run == LaunchSnapshot(o.launches[o.index[id]]).run
    {
    }
    assert (set id | id in o.index && o.index[id] in o.launches && ListedLaunch(o.launches[o.index[id]]) :: LaunchSnapshot(o.launches[o.index[id]]).run)
           == (set id | id in o'.index && o'.index[id] in o'.launches && ListedLaunch(o'.launches[o'.index[id]]) :: LaunchSnapshot(o'.launches[o'.index[id]]).run);
  }

  lemma {:induction false} SameResumeIds(o: Ownership, o': Ownership, q: RequestId, t': ResumeTicket)
    requires q in o.resumes && o'.resumes == o.resumes[q := t'] && o'.launches == o.launches && o'.index == o.index && o'.runs == o.runs
    requires ListedResume(t') == ListedResume(o.resumes[q]) && t'.snapshot == o.resumes[q].snapshot
    ensures RosterIds(o') == RosterIds(o)
  {
    forall id | id in o.resumes
      ensures ListedResume(o'.resumes[id]) == ListedResume(o.resumes[id]) && o'.resumes[id].snapshot == o.resumes[id].snapshot
    {
    }
    assert (set id | id in o.resumes && ListedResume(o.resumes[id]) :: o.resumes[id].snapshot.run)
           == (set id | id in o'.resumes && ListedResume(o'.resumes[id]) :: o'.resumes[id].snapshot.run);
  }

  lemma {:induction false} SilentLaunch(s: State, step: LaunchStep)
    requires LaunchEntries(s.epoch, s.own) && LaunchEnabled(s, step) && !LaunchSignals(s.own, step)
    ensures RosterIds(LaunchOwnership(s, step)) == RosterIds(s.own)
  {
    hide RosterIds;
    assert LaunchEntry(s.epoch, s.own, step.ref);
    SameLaunchIds(s.own, LaunchOwnership(s, step), step.ref, LaunchOwnership(s, step).launches[step.ref]);
  }

  lemma {:induction false} SilentResume(s: State, step: ResumeStep)
    requires ResumeEntries(s.epoch, s.own) && ResumeEnabled(s, step) && !ResumeSignals(step)
    ensures RosterIds(ResumeOwnership(s, step)) == RosterIds(s.own)
  {
    hide RosterIds;
    var id := if step.DoJoinResume? then step.resume.id else step.id;
    assert ResumeEntry(s.epoch, s.own, id);
    SameResumeIds(s.own, ResumeOwnership(s, step), id, ResumeOwnership(s, step).resumes[id]);
  }

  // ---- One revision, one set of identities ------------------------------------------

  /** A step moves the revision forward or keeps the identities. */
  ghost predicate Paged(s: State, s': State)
  {
    s.gate.revision <= s'.gate.revision
    && (s.gate.revision < MAX_REVISION && s'.gate.revision == s.gate.revision ==> RosterIds(s'.own) == RosterIds(s.own))
  }

  lemma {:induction false} StepPages(s: State, step: Step)
    requires LaunchEntries(s.epoch, s.own) && ResumeEntries(s.epoch, s.own) && Enabled(s, step) && !step.Crash?
    requires s.gate.revision <= MAX_REVISION
    ensures Paged(s, Apply(s, step))
  {
    hide LaunchEnabled, ResumeEnabled, ControlEnabled, ShutdownEnabled, LifecycleEnabled, LaunchEntries, ResumeEntries;
    hide LaunchOwnership, ResumeOwnership, ControlControls, ShutdownLifecycle, LifecycleLifecycle, RosterIds, LaunchSignals;
    match step
    case Launching(l) => if !LaunchSignals(s.own, l) { SilentLaunch(s, l); }
    case Resuming(r) => if !ResumeSignals(r) { SilentResume(s, r); }
    case _ =>
  }

  lemma {:induction false} Entries(s: State)
    requires Inv(s)
    ensures LaunchEntries(s.epoch, s.own) && ResumeEntries(s.epoch, s.own) && RunEntries(s.own) && s.gate.revision <= MAX_REVISION
    ensures RosterIds(s.own) == Ids(Roster(s.own)) && Injective(Roster(s.own))
  {
    hide CtlInv, Frozen, TerminalsCounted, DecisionsCounted, Deferred, CleanPublished, Shapes, RosterIds;
    RosterIdsAreIds(s.own);
    RosterInjective(s.epoch, s.own);
  }

  lemma {:induction false} RunPaged(s: State, steps: seq<Step>)
    requires Inv(s) && Legal(s, steps) && NoCrash(steps)
    ensures Paged(s, After(s, steps))
    decreases |steps|
  {
    hide Inv, Enabled, Apply, RosterIds;
    if steps != [] {
      Entries(s);
      StepPages(s, steps[0]);
      StepKeeps(s, steps[0]);
      RunPaged(Apply(s, steps[0]), steps[1..]);
    }
  }

  /** Below the last revision, an unchanged revision means an unchanged set of run
      identities, whatever happened in between. */
  lemma {:induction false} SameRevisionSameIds(s: State, steps: seq<Step>)
    requires Inv(s) && Legal(s, steps) && NoCrash(steps)
    requires After(s, steps).gate.revision == s.gate.revision < MAX_REVISION
    ensures Ids(Roster(After(s, steps).own)) == Ids(Roster(s.own))
  {
    hide Inv, Enabled, Apply, Roster, RosterIds;
    RunPaged(s, steps);
    RunKeeps(s, steps);
    Entries(s);
    Entries(After(s, steps));
  }

  // ---- The walk ------------------------------------------------------------------------

  function Members(ids: seq<RunId>): set<RunId> { set r | r in ids }

  lemma {:induction false} LastIsLargest(a: seq<RunId>)
    requires Increasing(a) && |a| > 0
    ensures a[|a| - 1] in Members(a) && forall r :: r in Members(a) ==> r <= a[|a| - 1]
    ensures Members(a[..|a| - 1]) == Members(a) - {a[|a| - 1]}
  {
    assert a == a[..|a| - 1] + [a[|a| - 1]];
  }

  /** There is one increasing sequence of given identities. */
  lemma {:induction false} IncreasingUnique(a: seq<RunId>, b: seq<RunId>)
    requires Increasing(a) && Increasing(b) && Members(a) == Members(b)
    ensures a == b
    decreases |a|
  {
    hide Members;
    if |a| > 0 { LastIsLargest(a); }
    if |b| > 0 { LastIsLargest(b); }
    if |a| > 0 && |b| > 0 {
      IncreasingUnique(a[..|a| - 1], b[..|b| - 1]);
      assert a == a[..|a| - 1] + [a[|a| - 1]] && b == b[..|b| - 1] + [b[|b| - 1]];
    } else {
      NoMembers(a);
      NoMembers(b);
    }
  }

  lemma {:induction false} NoMembers(a: seq<RunId>)
    ensures Members(a) == {} <==> a == []
  {
    if a != [] { assert a[0] in Members(a); }
  }

  lemma {:induction false} ListingIds(o: Ownership, runs: seq<RunSnapshot>, ids: seq<RunId>)
    requires Lists(o, runs) && Increasing(ids) && Members(ids) == Ids(Roster(o))
    ensures IdsOf(runs) == ids
  {
    hide Roster;
    forall r | r in Members(IdsOf(runs)) ensures r in Members(ids) {
      var i :| 0 <= i < |runs| && IdsOf(runs)[i] == r;
      assert runs[i] in Roster(o);
    }
    forall r | r in Members(ids) ensures r in Members(IdsOf(runs)) {
      var x :| x in Roster(o) && x.run == r;
      var i :| 0 <= i < |runs| && runs[i] == x;
      assert IdsOf(runs)[i] == r;
    }
    IncreasingUnique(IdsOf(runs), ids);
  }

  /** The request that a page's own fields make for the page after it. */
  function Onward(page: RunPage): PageRequest { PageRequest(page.epoch, page.revision, page.next) }

  predicate Asks(s: State, request: PageRequest, cursor: Option<RunId>)
  {
    request.epoch == s.epoch && request.cursor == cursor && (request.revision == 0 || request.revision == s.gate.revision)
  }

  /** The page at a position of the listing holds the next pair, and its own request
      asks for the pair after it, exactly when there is one. */
  lemma {:induction false} WalkPage(s: State, runs: seq<RunSnapshot>, ids: seq<RunId>, k: nat, request: PageRequest)
    requires Increasing(ids) && IdsOf(runs) == ids && (k > 0 ==> 2 * k < |ids| && request.revision > 0)
    requires Asks(s, request, if k == 0 then None else Some(ids[2 * k - 1]))
    ensures var reply := PageOf(s.epoch, s.gate.revision, runs, request);
            var end := if 2 * k + 2 < |ids| then 2 * k + 2 else |ids|;
            reply.Page? && IdsOf(reply.page.runs) == ids[2 * k..end]
            && Onward(reply.page) == PageRequest(s.epoch, s.gate.revision, if end < |ids| then Some(ids[end - 1]) else None)
  {
    if k > 0 {
      var index := Search(runs, ids[2 * k - 1], 0);
      assert index == 2 * k - 1;
    }
  }

  /** A client that walks the roster: at each visit it may wait for any steps of the
      daemon, then asks for the page that the last one pointed to; it stops when that
      points nowhere. */
  datatype Visit = Visit(steps: seq<Step>, runs: seq<RunSnapshot>)

  ghost predicate Walks(s: State, visits: seq<Visit>, request: PageRequest)
    decreases |visits|
  {
    visits != [] && Legal(s, visits[0].steps) && NoCrash(visits[0].steps)
    && var s' := After(s, visits[0].steps);
    Lists(s'.own, visits[0].runs)
    && var reply := PageOf(s'.epoch, s'.gate.revision, visits[0].runs, request);
    reply.Page? && (reply.page.next.Some? ==> Walks(s', visits[1..], Onward(reply.page))) && (reply.page.next.None? ==> |visits| == 1)
  }

  /** The identities a walk sees, page by page. */
  ghost function Seen(s: State, visits: seq<Visit>, request: PageRequest): seq<RunId>
    requires Walks(s, visits, request)
    decreases |visits|
  {
    var s' := After(s, visits[0].steps);
    var page := PageOf(s'.epoch, s'.gate.revision, visits[0].runs, request).page;
    IdsOf(page.runs) + if page.next.Some? then Seen(s', visits[1..], Onward(page)) else []
  }

  lemma {:induction false} WalkFrom(s: State, visits: seq<Visit>, ids: seq<RunId>, k: nat)
    requires Inv(s) && 0 < s.gate.revision < MAX_REVISION && 0 < k && 2 * k < |ids|
    requires Walks(s, visits, PageRequest(s.epoch, s.gate.revision, Some(ids[2 * k - 1])))
    requires Increasing(ids) && Members(ids) == Ids(Roster(s.own))
    ensures Seen(s, visits, PageRequest(s.epoch, s.gate.revision, Some(ids[2 * k - 1]))) == ids[2 * k..]
    decreases |visits|
  {
    hide Inv, Enabled, Apply, Roster, Members, Increasing, Rows, Search;
    var s', runs := After(s, visits[0].steps), visits[0].runs;
    var request := PageRequest(s.epoch, s.gate.revision, Some(ids[2 * k - 1]));
    assert s'.gate.revision == s.gate.revision;
    hide PageOf;
    RunKeeps(s, visits[0].steps);
    SameRevisionSameIds(s, visits[0].steps);
    SameEpoch(s, visits[0].steps);
    ListingIds(s'.own, runs, ids);
    WalkPage(s', runs, ids, k, request);
    if 2 * k + 2 < |ids| {
      WalkFrom(s', visits[1..], ids, k + 1);
    }
  }

  lemma {:induction false} SameEpoch(s: State, steps: seq<Step>)
    requires Legal(s, steps) && NoCrash(steps)
    ensures After(s, steps).epoch == s.epoch
    decreases |steps|
  {
    hide Enabled, Apply;
    if steps != [] {
      EpochsOfStep(s, steps[0]);
      SameEpoch(Apply(s, steps[0]), steps[1..]);
    }
  }

  /** A walk that begins without a cursor and follows the pages sees every run
      identity of the roster it began with exactly once, in increasing order, whatever
      the daemon does between pages. */
  lemma {:induction false} WalkSeesRoster(s: State, visits: seq<Visit>, request: PageRequest, ids: seq<RunId>)
    requires Inv(s) && Walks(s, visits, request) && request.cursor.None? && request.epoch == s.epoch
    requires var s' := After(s, visits[0].steps);
             s'.gate.revision < MAX_REVISION && Increasing(ids) && Members(ids) == Ids(Roster(s'.own))
    ensures Seen(s, visits, request) == ids
  {
    hide Inv, Roster, Enabled, Apply, Members, Increasing, Rows, Search;
    var s', runs := After(s, visits[0].steps), visits[0].runs;
    assert Asks(s', request, None) by { SameEpoch(s, visits[0].steps); }
    RunKeeps(s, visits[0].steps);
    ListingIds(s'.own, runs, ids);
    WalkPage(s', runs, ids, 0, request);
    if 2 < |ids| {
      var page := PageOf(s'.epoch, s'.gate.revision, runs, request).page;
      assert s'.gate.revision > 0 by {
        var after := After(s', visits[1].steps);
        assert visits[1..][0] == visits[1];
        assert PageOf(after.epoch, after.gate.revision, visits[1].runs, Onward(page)).Page?;
      }
      hide PageOf;
      WalkFrom(s', visits[1..], ids, 1);
    }
    assert ids[0..] == ids;
  }
}