// What every run of the tournament system keeps: drain safety, the drain measure, and the
// outbox guarantees, for any number of concurrent pollers that may die at any point.
module TournamentDrain {
  import opened Wrappers
  import opened TournamentTables
  import opened TournamentPollers

  ghost predicate CanRun(s: System, steps: seq<Step>)
    decreases steps
  {
    steps == [] || (Enabled(s, steps[0]) && CanRun(Next(s, steps[0]), steps[1..]))
  }

  ghost function After(s: System, steps: seq<Step>): System
    requires CanRun(s, steps)
    decreases steps
  {
    if steps == [] then s else After(Next(s, steps[0]), steps[1..])
  }

  lemma {:induction false} RunKeepsInv(s: System, steps: seq<Step>)
    requires Inv(s) && CanRun(s, steps)
    ensures Inv(After(s, steps))
    decreases steps
  {
    if steps != [] {
      StepKeepsInv(s, steps[0]);
      RunKeepsInv(Next(s, steps[0]), steps[1..]);
    }
  }

  // ---- Drain safety ----

  ghost predicate IsCompleted(db: Db, e: nat) {
    e in db.editions && db.editions[e].status == EditionCompleted
  }

  ghost predicate ResultsWritten(db: Db, e: nat) {
    exists r :: IsResultsRow(db, r, e)
  }

  ghost predicate Completes(s: System, step: Step, e: nat)
    requires Enabled(s, step)
  {
    !IsCompleted(s.db, e) && IsCompleted(Next(s, step).db, e)
  }

  ghost predicate WritesResults(s: System, step: Step, e: nat)
    requires Enabled(s, step)
  {
    !ResultsWritten(s.db, e) && ResultsWritten(Next(s, step).db, e)
  }

  predicate WritesTables(step: Step) {
    step.Submit? || step.Verdict? || step.Cron? || step.Bootstrap? || step.Commit?
  }

  lemma OthersLeaveTables(s: System, step: Step)
    requires Enabled(s, step) && !WritesTables(step)
    ensures Next(s, step).db == s.db
  {
  }

  // Submissions, verdicts, the cron function and the first edition complete nothing.
  lemma OnlyCommitsComplete(s: System, step: Step, e: nat)
    requires Inv(s) && Enabled(s, step) && !step.Commit?
    ensures IsCompleted(Next(s, step).db, e) <==> IsCompleted(s.db, e)
    ensures forall r :: IsResultsRow(Next(s, step).db, r, e) <==> IsResultsRow(s.db, r, e)
  {
    match step
    case Submit(run, user, mapId, cycle) =>
      assert AddRun(s.db, run, user, cycle).outbox == s.db.outbox;
    case Verdict(run, verified) =>
      assert SetVerdict(s.db, run, verified).outbox == s.db.outbox;
    case Cron(now, period, paused, due, newEdition, newCycles) =>
      assert FlipEdition(s.db, due, period, paused, newEdition, newCycles).outbox == s.db.outbox;
    case Bootstrap(newEdition, endsAt, newCycles) => BootstrapCompletesNothing(s, step, e);
    case _ => OthersLeaveTables(s, step);
  }

  lemma BootstrapCompletesNothing(s: System, step: Step, e: nat)
    requires OutboxOk(s) && Enabled(s, step) && step.Bootstrap?
    ensures IsCompleted(Next(s, step).db, e) <==> IsCompleted(s.db, e)
    ensures forall r :: IsResultsRow(Next(s, step).db, r, e) <==> IsResultsRow(s.db, r, e)
  {
  }

  lemma CommitRows(db: Db, w: Writes, e: nat)
    requires forall r :: r in w.inserted ==> r !in db.outbox && w.inserted[r].kind == EditionResults
    ensures forall r :: IsResultsRow(View(db, w), r, e) <==> IsResultsRow(db, r, e) || Inserts(w, r, e)
  {
  }

  lemma CommitResults(s: System, p: nat, e: nat)
    requires Inv(s) && Enabled(s, Commit(p))
    ensures ResultsWritten(Next(s, Commit(p)).db, e) <==>
            ResultsWritten(s.db, e) || exists r :: Inserts(s.pollers[p].writes, r, e)
    ensures (exists r :: Inserts(s.pollers[p].writes, r, e)) <==>
            e in s.pollers[p].writes.finished && s.db.editions[e].startAnnounced
    ensures e in s.pollers[p].writes.finished ==>
              e in s.db.editions && s.db.editions[e].status == AwaitingResults && Inflight(s.db, e) == {}
  {
    var tx, db' := s.pollers[p], Next(s, Commit(p)).db;
    assert TxOk(s.db, tx, s.nextRow, s.sent);
    forall r | r in tx.writes.inserted
      ensures r !in s.db.outbox && tx.writes.inserted[r].kind == EditionResults
              && tx.writes.inserted[r].edition in tx.writes.finished && tx.locked[tx.writes.inserted[r].edition]
    {
      assert InsertedRowOk(s.db, tx, r, s.nextRow);
    }
    CommitRows(s.db, tx.writes, e);
    if r :| IsResultsRow(s.db, r, e) {
      assert IsResultsRow(db', r, e);
    }
    if r :| Inserts(tx.writes, r, e) {
      assert IsResultsRow(db', r, e);
    }
  }

  // An edition is completed by one commit, out of awaiting_results, when no run on any of its
  // child cycles is pending; all its cycles end completed, and the results row appears in the
  // same commit exactly when the start-only card had gone out before.
  lemma CompletionIsDrained(s: System, step: Step, e: nat)
    requires Inv(s) && Enabled(s, step) && Completes(s, step, e)
    ensures step.Commit? && e in s.db.editions && s.db.editions[e].status == AwaitingResults
    ensures forall r :: r in s.db.runs && ChildOf(s.db, s.db.runs[r].cycle, e) ==> s.db.runs[r].status != Pending
    ensures forall c :: ChildOf(Next(s, step).db, c, e) ==> Next(s, step).db.cycles[c].status == CycleCompleted
    ensures WritesResults(s, step, e) <==> s.db.editions[e].startAnnounced
  {
    if !step.Commit? {
      OnlyCommitsComplete(s, step, e);
      assert false;
    }
    CommitResults(s, step.p, e);
    NothingPending(s.db, e);
    StepKeepsInv(s, step);
    ChildrenCompleted(Next(s, step).db, e);
  }

  lemma NothingPending(db: Db, e: nat)
    requires Integrity(db) && e in db.editions && db.editions[e].status == AwaitingResults && Inflight(db, e) == {}
    ensures forall r :: r in db.runs && ChildOf(db, db.runs[r].cycle, e) ==> db.runs[r].status != Pending
  {
    forall r | r in db.runs && ChildOf(db, db.runs[r].cycle, e) ensures db.runs[r].status != Pending {
      assert r !in Inflight(db, e);
    }
  }

  lemma ChildrenCompleted(db: Db, e: nat)
    requires Integrity(db) && IsCompleted(db, e)
    ensures forall c :: ChildOf(db, c, e) ==> db.cycles[c].status == CycleCompleted
  {
  }

  lemma ResultsComeWithCompletion(s: System, step: Step, e: nat)
    requires Inv(s) && Enabled(s, step) && WritesResults(s, step, e)
    ensures Completes(s, step, e)
  {
    if step.Commit? {
      CommitResults(s, step.p, e);
    } else {
      OnlyCommitsComplete(s, step, e);
    }
  }

  lemma CompletedForGood(s: System, step: Step, e: nat)
    requires Inv(s) && Enabled(s, step)
    ensures IsCompleted(s.db, e) ==> IsCompleted(Next(s, step).db, e)
    ensures ResultsWritten(s.db, e) ==> ResultsWritten(Next(s, step).db, e)
  {
    if step.Commit? {
      CommitResults(s, step.p, e);
    } else {
      OnlyCommitsComplete(s, step, e);
    }
  }

  ghost function Completions(s: System, steps: seq<Step>, e: nat): nat
    requires CanRun(s, steps)
    decreases steps
  {
    if steps == [] then 0
    else One(Completes(s, steps[0], e)) + Completions(Next(s, steps[0]), steps[1..], e)
  }

  ghost function ResultsWrites(s: System, steps: seq<Step>, e: nat): nat
    requires CanRun(s, steps)
    decreases steps
  {
    if steps == [] then 0
    else One(WritesResults(s, steps[0], e)) + ResultsWrites(Next(s, steps[0]), steps[1..], e)
  }

  ghost function One(b: bool): nat { if b then 1 else 0 }

  lemma CompletionCounted(s: System, step: Step, e: nat)
    requires Inv(s) && Enabled(s, step)
    ensures One(IsCompleted(s.db, e)) + One(Completes(s, step, e)) == One(IsCompleted(Next(s, step).db, e))
    ensures One(ResultsWritten(s.db, e)) + One(WritesResults(s, step, e)) == One(ResultsWritten(Next(s, step).db, e))
    ensures One(WritesResults(s, step, e)) <= One(Completes(s, step, e))
  {
    CompletedForGood(s, step, e);
    if WritesResults(s, step, e) {
      ResultsComeWithCompletion(s, step, e);
    }
  }

  // Over a whole run an edition is completed once if at all, and so are its results written.
  lemma {:induction false} CompletedAtMostOnce(s: System, steps: seq<Step>, e: nat)
    requires Inv(s) && CanRun(s, steps)
    ensures One(IsCompleted(s.db, e)) + Completions(s, steps, e) == One(IsCompleted(After(s, steps).db, e)) <= 1
    ensures One(ResultsWritten(s.db, e)) + ResultsWrites(s, steps, e) == One(ResultsWritten(After(s, steps).db, e)) <= 1
    ensures ResultsWrites(s, steps, e) <= Completions(s, steps, e)
    decreases steps
  {
    if steps != [] {
      StepKeepsInv(s, steps[0]);
      CompletionCounted(s, steps[0], e);
      CompletedAtMostOnce(Next(s, steps[0]), steps[1..], e);
    }
  }

  // ---- One active edition ----

  ghost predicate IsActive(db: Db, e: nat) {
    e in db.editions && db.editions[e].status == EditionActive
  }

  ghost predicate OneActive(db: Db) {
    forall e, f :: IsActive(db, e) && IsActive(db, f) ==> e == f
  }

  lemma SameEditions(db: Db, db': Db)
    requires db'.editions == db.editions && OneActive(db)
    ensures OneActive(db')
  {
    assert forall e :: IsActive(db', e) ==> IsActive(db, e);
  }

  lemma StepKeepsOneActive(s: System, step: Step)
    requires Inv(s) && Enabled(s, step) && OneActive(s.db)
    ensures OneActive(Next(s, step).db)
  {
    var db' := Next(s, step).db;
    match step
    case Cron(_, period, paused, due, newEdition, newCycles) =>
      assert IsActive(s.db, due);
      forall e | IsActive(db', e) ensures e == newEdition {
        assert e != newEdition ==> IsActive(s.db, e);
      }
    case Bootstrap(newEdition, _, _) =>
      forall e | IsActive(db', e) ensures e == newEdition {
        assert e != newEdition ==> IsActive(s.db, e);
      }
    case Commit(p) =>
      forall e | IsActive(db', e) ensures IsActive(s.db, e) {
      }
    case Submit(_, _, _, _) => SameEditions(s.db, db');
    case Verdict(_, _) => SameEditions(s.db, db');
    case _ => OthersLeaveTables(s, step);
  }

  // In every run from an empty database at most one edition is active, so the edition the
  // boundary function finds due is the only one.
  lemma {:induction false} RunKeepsOneActive(s: System, steps: seq<Step>)
    requires Inv(s) && CanRun(s, steps) && OneActive(s.db)
    ensures OneActive(After(s, steps).db)
    decreases steps
  {
    if steps != [] {
      StepKeepsOneActive(s, steps[0]);
      StepKeepsInv(s, steps[0]);
      RunKeepsOneActive(Next(s, steps[0]), steps[1..]);
    }
  }

  // The first edition in table fields: active, unannounced, with its own active cycles and one
  // unpublished rollover row; nothing else changes.
  lemma BootstrapRows(s: System, step: Step)
    requires Inv(s) && Enabled(s, step) && step.Bootstrap?
    ensures var db, db' := s.db, Next(s, step).db;
            && db'.runs == db.runs
            && db'.editions == db.editions[step.newEdition := Edition(EditionActive, false, step.endsAt)]
            && db'.outbox == db.outbox[s.nextRow := Transition(step.newEdition, EditionRollover, false)] && s.nextRow !in db.outbox
            && db'.cycles.Keys == db.cycles.Keys + step.newCycles.Keys
            && (forall c :: c in step.newCycles ==> db'.cycles[c] == Cycle(Some(step.newEdition), step.newCycles[c], CycleActive))
            && (forall c :: c in db.cycles ==> db'.cycles[c] == db.cycles[c])
  {
  }

  // ---- The grid ----

  ghost predicate ActiveUntil(db: Db, t: int) {
    exists e :: IsActive(db, e) && db.editions[e].endsAt == t
  }

  predicate Unpaused(step: Step) { step.Cron? ==> !step.paused }

  // What the flips of a run add up to.
  function Periods(steps: seq<Step>): nat {
    if steps == [] then 0 else (if steps[0].Cron? then steps[0].period else 0) + Periods(steps[1..])
  }

  function Flips(steps: seq<Step>): nat {
    if steps == [] then 0 else (if steps[0].Cron? then 1 else 0) + Flips(steps[1..])
  }

  lemma ActiveStays(db: Db, db': Db, t: int)
    requires ActiveUntil(db, t) && forall e :: IsActive(db, e) ==> IsActive(db', e) && db'.editions[e].endsAt == db.editions[e].endsAt
    ensures ActiveUntil(db', t)
  {
    var e :| IsActive(db, e) && db.editions[e].endsAt == t;
    assert IsActive(db', e);
  }

  lemma FlipAdvances(s: System, step: Step, t: int)
    requires Enabled(s, step) && step.Cron? && !step.paused && OneActive(s.db) && ActiveUntil(s.db, t)
    ensures ActiveUntil(Next(s, step).db, t + step.period)
  {
    FlipRows(s.db, step.due, step.period, step.paused, step.newEdition, step.newCycles);
    var e :| IsActive(s.db, e) && s.db.editions[e].endsAt == t;
    assert IsActive(s.db, step.due);
    assert IsActive(Next(s, step).db, step.newEdition);
  }

  lemma GridStep(s: System, step: Step, t: int)
    requires Inv(s) && Enabled(s, step) && Unpaused(step) && OneActive(s.db) && ActiveUntil(s.db, t)
    ensures ActiveUntil(Next(s, step).db, t + if step.Cron? then step.period else 0)
  {
    match step
    case Cron(_, _, _, _, _, _) => FlipAdvances(s, step, t);
    case Bootstrap(_, _, _) =>
      assert false;
    case Submit(_, _, _, _) => ActiveStays(s.db, Next(s, step).db, t);
    case Verdict(_, _) => ActiveStays(s.db, Next(s, step).db, t);
    case Commit(p) =>
      assert TxOk(s.db, s.pollers[p], s.nextRow, s.sent);
      ActiveStays(s.db, Next(s, step).db, t);
    case _ => OthersLeaveTables(s, step);
  }

  // Editions stay on the grid: however late the flips of an unpaused run come, the active edition
  // ends exactly their periods after the one the run started with.
  lemma {:induction false} GridLaw(s: System, steps: seq<Step>, t: int)
    requires Inv(s) && CanRun(s, steps) && OneActive(s.db) && ActiveUntil(s.db, t)
    requires forall i :: 0 <= i < |steps| ==> Unpaused(steps[i])
    ensures ActiveUntil(After(s, steps).db, t + Periods(steps))
    decreases steps
  {
    if steps != [] {
      assert Unpaused(steps[0]);
      GridStep(s, steps[0], t);
      StepKeepsOneActive(s, steps[0]);
      StepKeepsInv(s, steps[0]);
      GridLaw(Next(s, steps[0]), steps[1..], t + if steps[0].Cron? then steps[0].period else 0);
    }
  }

  lemma {:induction false} EqualPeriods(steps: seq<Step>, period: nat)
    requires forall i :: 0 <= i < |steps| && steps[i].Cron? ==> steps[i].period == period
    ensures Periods(steps) == Flips(steps) * period
  {
    if steps != [] {
      EqualPeriods(steps[1..], period);
    }
  }

  // k flips with one period.
  lemma GridOfEqualPeriods(s: System, steps: seq<Step>, t: int, period: nat)
    requires Inv(s) && CanRun(s, steps) && OneActive(s.db) && ActiveUntil(s.db, t)
    requires forall i :: 0 <= i < |steps| && steps[i].Cron? ==> !steps[i].paused && steps[i].period == period
    ensures ActiveUntil(After(s, steps).db, t + Flips(steps) * period)
  {
    GridLaw(s, steps, t);
    EqualPeriods(steps, period);
  }

  // After a flip the new edition is due from its own boundary on, one period after the old one, and
  // nothing else is; after a paused flip nothing is due at all.
  lemma DueAfterFlip(s: System, step: Step, later: int, e: nat)
    requires Inv(s) && Enabled(s, step) && step.Cron? && OneActive(s.db)
    ensures IsDue(Next(s, step).db, later, e) <==>
              !step.paused && e == step.newEdition && s.db.editions[step.due].endsAt + step.period <= later
  {
    var db, db' := s.db, Next(s, step).db;
    FlipRows(db, step.due, step.period, step.paused, step.newEdition, step.newCycles);
    assert IsActive(db, step.due);
    forall f | f in db'.editions && db'.editions[f].status == EditionActive ensures !step.paused && f == step.newEdition {
      if f in db.editions {
        assert IsActive(db, f);
      }
    }
  }

  // ---- The drain measure ----

  ghost predicate IsFirstVerdict(s: System, step: Step, e: nat) {
    step.Verdict? && step.run in Inflight(s.db, e)
  }

  lemma SubmitMissesStopped(db: Db, run: nat, user: nat, cycle: nat, e: nat)
    requires Integrity(db) && run !in db.runs && cycle in db.cycles && db.cycles[cycle].status == CycleActive
    requires e in db.editions && db.editions[e].status != EditionActive
    ensures Inflight(AddRun(db, run, user, cycle), e) == Inflight(db, e)
  {
    assert !ChildOf(db, cycle, e);
  }

  lemma FlipMissesStopped(db: Db, due: nat, period: nat, paused: bool, newEdition: nat, newCycles: map<nat, nat>, e: nat)
    requires Integrity(db) && due in db.editions && db.editions[due].status == EditionActive
    requires newEdition !in db.editions && newCycles.Keys !! db.cycles.Keys
    requires e in db.editions && db.editions[e].status != EditionActive
    ensures Inflight(FlipEdition(db, due, period, paused, newEdition, newCycles), e) == Inflight(db, e)
  {
    assert Inflight(FlipDue(db, due), e) == Inflight(db, e);
    if !paused {
      OpenMissesStopped(FlipDue(db, due), newEdition, db.editions[due].endsAt + period, newCycles, e);
    }
  }

  lemma OpenMissesStopped(db: Db, newEdition: nat, endsAt: int, newCycles: map<nat, nat>, e: nat)
    requires forall r :: r in db.runs ==> db.runs[r].cycle in db.cycles
    requires newEdition != e && newCycles.Keys !! db.cycles.Keys
    ensures Inflight(OpenEdition(db, newEdition, endsAt, newCycles), e) == Inflight(db, e)
  {
  }

  lemma CommitMissesStopped(s: System, p: nat, e: nat)
    requires Inv(s) && Enabled(s, Commit(p))
    ensures Inflight(Next(s, Commit(p)).db, e) == Inflight(s.db, e)
  {
    var w := s.pollers[p].writes;
    if e in w.finished {
      CommitResults(s, p, e);
      assert Inflight(View(s.db, w), e) == {};
    } else {
      ViewInflight(s.db, w, e);
    }
  }

  lemma VerdictTakesOut(db: Db, run: nat, verified: bool, e: nat)
    ensures Inflight(SetVerdict(db, run, verified), e) == Inflight(db, e) - {run}
  {
  }

  lemma SameButOutbox(db: Db, db': Db, e: nat)
    requires db'.cycles == db.cycles && db'.runs == db.runs
    ensures Inflight(db', e) == Inflight(db, e)
  {
  }

  // Once an edition has left active, the only thing that moves its queue is a first verdict,
  // which takes exactly that run out.
  lemma QueueStep(s: System, step: Step, e: nat)
    requires Inv(s) && Enabled(s, step) && e in s.db.editions && s.db.editions[e].status != EditionActive
    ensures Inflight(Next(s, step).db, e)
            == Inflight(s.db, e) - (if IsFirstVerdict(s, step, e) then {step.run} else {})
    ensures e in Next(s, step).db.editions && Next(s, step).db.editions[e].status != EditionActive
  {
    match step
    case Submit(run, user, mapId, cycle) => SubmitMissesStopped(s.db, run, user, cycle, e);
    case Verdict(run, verified) => VerdictTakesOut(s.db, run, verified, e);
    case Cron(now, period, paused, due, newEdition, newCycles) =>
      FlipMissesStopped(s.db, due, period, paused, newEdition, newCycles, e);
    case Bootstrap(newEdition, endsAt, newCycles) =>
      OpenMissesStopped(s.db, newEdition, endsAt, newCycles, e);
      SameButOutbox(OpenEdition(s.db, newEdition, endsAt, newCycles), Next(s, step).db, e);
    case Commit(p) => CommitMissesStopped(s, p, e);
    case _ => OthersLeaveTables(s, step);
  }

  ghost function FirstVerdicts(s: System, steps: seq<Step>, e: nat): nat
    requires CanRun(s, steps)
    decreases steps
  {
    if steps == [] then 0
    else One(IsFirstVerdict(s, steps[0], e)) + FirstVerdicts(Next(s, steps[0]), steps[1..], e)
  }

  // Conservation: the queue shrinks by the number of first verdicts, so as many first verdicts
  // as there were pending runs are needed, and enough, to empty it.
  lemma {:induction false} DrainMeasure(s: System, steps: seq<Step>, e: nat)
    requires Inv(s) && CanRun(s, steps) && e in s.db.editions && s.db.editions[e].status != EditionActive
    ensures |Inflight(s.db, e)| == |Inflight(After(s, steps).db, e)| + FirstVerdicts(s, steps, e)
    ensures Inflight(After(s, steps).db, e) == {} <==> FirstVerdicts(s, steps, e) == |Inflight(s.db, e)|
    decreases steps
  {
    if steps != [] {
      QueueStep(s, steps[0], e);
      StepKeepsInv(s, steps[0]);
      DrainMeasure(Next(s, steps[0]), steps[1..], e);
    }
  }

  // ---- The outbox ----

  // For every run from an empty database: no edition and no outbox row is held by two open
  // transactions, a published row was emitted, and each True answer is accounted for.
  lemma OutboxSafety(steps: seq<Step>, p: nat, q: nat, r: nat)
    requires CanRun(START, steps)
    ensures var s := After(START, steps);
            && (p in s.pollers && q in s.pollers && p != q ==>
                  s.pollers[p].locked.Keys !! s.pollers[q].locked.Keys && s.pollers[p].rows.Keys !! s.pollers[q].rows.Keys)
            && (IsPublished(s.db, r) == 1 ==> RowEvent(r) in s.sent)
            && s.answered[r] == IsPublished(s.db, r) + s.lost[r] + InFlightMarks(s.pollers, r)
  {
    assert Inv(START);
    RunKeepsInv(START, steps);
    var s := After(START, steps);
    assert Accounted(s, r);
    assert p in s.pollers && q in s.pollers && p != q ==> Apart(s.pollers[p], s.pollers[q]);
  }

  lemma PublishedStays(s: System, step: Step, r: nat)
    requires Inv(s) && Enabled(s, step) && IsPublished(s.db, r) == 1
    ensures IsPublished(Next(s, step).db, r) == 1
  {
    match step
    case Submit(_, _, _, _) =>
    case Verdict(_, _) =>
    case Cron(_, _, _, _, _, _) =>
    case Bootstrap(_, _, _) =>
    case Commit(p) =>
      assert TxOk(s.db, s.pollers[p], s.nextRow, s.sent);
      assert InsertedRowOk(s.db, s.pollers[p], r, s.nextRow);
    case _ => OthersLeaveTables(s, step);
  }

  lemma {:induction false} PublishedForGood(s: System, steps: seq<Step>, r: nat)
    requires Inv(s) && CanRun(s, steps) && IsPublished(s.db, r) == 1
    ensures IsPublished(After(s, steps).db, r) == 1
    decreases steps
  {
    if steps != [] {
      StepKeepsInv(s, steps[0]);
      PublishedStays(s, steps[0], r);
      PublishedForGood(Next(s, steps[0]), steps[1..], r);
    }
  }

  // mark_transition_published answers True exactly once for a published row if and only if no
  // transaction that had marked it was rolled back.
  lemma AnsweredOnceIffNoRollback(s: System, r: nat)
    requires Inv(s) && IsPublished(s.db, r) == 1
    ensures s.answered[r] == 1 + s.lost[r]
    ensures s.answered[r] == 1 <==> s.lost[r] == 0
  {
    forall p | p in s.pollers ensures r !in s.pollers[p].writes.marked {
      assert TxOk(s.db, s.pollers[p], s.nextRow, s.sent);
      assert InsertedRowOk(s.db, s.pollers[p], r, s.nextRow);
    }
    assert InFlightMarks(s.pollers, r) == 0 && Accounted(s, r);
  }

  // ---- The inline cards ----

  // Every announcement in the tables was sent: the start-only card of an edition marked as
  // announced, the combined card of one completed without that mark.
  ghost predicate CardSent(db: Db, sent: multiset<Message>, e: nat) {
    e in db.editions ==>
      && (db.editions[e].startAnnounced ==> StartCard(e) in sent)
      && (db.editions[e].status == EditionCompleted && !db.editions[e].startAnnounced ==> ResultsCard(e) in sent)
  }

  // The same for what an open transaction is about to write.
  ghost predicate TxCardSent(tx: Tx, sent: multiset<Message>, e: nat) {
    && (e in tx.writes.announced ==> StartCard(e) in sent)
    && (e in tx.writes.finished && e in tx.locked && !tx.locked[e] ==> ResultsCard(e) in sent)
  }

  ghost predicate CardsSent(s: System) {
    && (forall e :: CardSent(s.db, s.sent, e))
    && forall p, e :: p in s.pollers ==> TxCardSent(s.pollers[p], s.sent, e)
  }

  // One transaction moves, nothing else does.
  lemma OneTxCards(s: System, s': System, p: nat, tx': Tx)
    requires CardsSent(s) && s'.db == s.db && s.sent <= s'.sent && s'.pollers == s.pollers[p := tx']
    requires forall e :: TxCardSent(tx', s'.sent, e)
    ensures CardsSent(s')
  {
    forall e ensures CardSent(s'.db, s'.sent, e) {
      assert CardSent(s.db, s.sent, e);
    }
    forall q, e | q in s'.pollers ensures TxCardSent(s'.pollers[q], s'.sent, e) {
      assert q != p ==> TxCardSent(s.pollers[q], s.sent, e);
    }
  }

  lemma RecordSendsCard(tx: Tx, e: nat, inflight: nat, rowId: nat, sent: multiset<Message>, f: nat)
    requires e in tx.locked && TxCardSent(tx, sent, f)
    ensures var d := Decide(tx.locked[e], inflight);
            TxCardSent(tx.(todo := tx.todo - {e}, writes := Record(tx.writes, e, d, rowId)), sent + CardFor(e, d), f)
  {
  }

  lemma ProcessSendsCard(s: System, p: nat, e: nat, inflight: nat)
    requires CardsSent(s) && p in s.pollers && e in s.pollers[p].locked
    ensures CardsSent(AfterProcess(s, p, e, Decide(s.pollers[p].locked[e], inflight)))
  {
    var tx, d := s.pollers[p], Decide(s.pollers[p].locked[e], inflight);
    var tx' := tx.(todo := tx.todo - {e}, writes := Record(tx.writes, e, d, s.nextRow));
    forall f ensures TxCardSent(tx', s.sent + CardFor(e, d), f) {
      assert TxCardSent(tx, s.sent, f);
      RecordSendsCard(tx, e, inflight, s.nextRow, s.sent, f);
    }
    OneTxCards(s, AfterProcess(s, p, e, d), p, tx');
  }

  lemma RowStepCards(s: System, s': System, p: nat, tx': Tx)
    requires CardsSent(s) && s'.db == s.db && s.sent <= s'.sent && s'.pollers == s.pollers[p := tx'] && p in s.pollers
    requires tx'.locked == s.pollers[p].locked && tx'.writes.announced == s.pollers[p].writes.announced
    requires tx'.writes.finished == s.pollers[p].writes.finished
    ensures CardsSent(s')
  {
    forall e ensures TxCardSent(tx', s'.sent, e) {
      assert TxCardSent(s.pollers[p], s.sent, e);
    }
    OneTxCards(s, s', p, tx');
  }

  lemma CommitSendsCards(s: System, p: nat)
    requires AllTxOk(s) && CardsSent(s) && p in s.pollers
    ensures CardsSent(AfterCommit(s, p))
  {
    var s', tx := AfterCommit(s, p), s.pollers[p];
    assert TxOk(s.db, tx, s.nextRow, s.sent);
    forall e ensures CardSent(s'.db, s'.sent, e) {
      assert CardSent(s.db, s.sent, e) && TxCardSent(tx, s.sent, e);
    }
    FewerTxCards(s, s');
  }

  lemma FewerTxCards(s: System, s': System)
    requires CardsSent(s) && s.sent <= s'.sent && forall q :: q in s'.pollers ==> q in s.pollers && s'.pollers[q] == s.pollers[q]
    ensures forall q, e :: q in s'.pollers ==> TxCardSent(s'.pollers[q], s'.sent, e)
  {
    forall q, e | q in s'.pollers ensures TxCardSent(s'.pollers[q], s'.sent, e) {
      assert TxCardSent(s.pollers[q], s.sent, e);
    }
  }

  // A writer that neither announces nor completes an edition.
  ghost predicate EditionsNoNews(db: Db, db': Db) {
    forall e :: e in db'.editions ==>
      if e in db.editions
      then db'.editions[e].startAnnounced == db.editions[e].startAnnounced
           && (db'.editions[e].status == EditionCompleted ==> db.editions[e].status == EditionCompleted)
      else !db'.editions[e].startAnnounced && db'.editions[e].status != EditionCompleted
  }

  lemma WriterKeepsCards(s: System, s': System)
    requires CardsSent(s) && s'.pollers == s.pollers && s'.sent == s.sent && EditionsNoNews(s.db, s'.db)
    ensures CardsSent(s')
  {
    forall e ensures CardSent(s'.db, s'.sent, e) {
      assert CardSent(s.db, s.sent, e);
    }
  }

  lemma WritersBringNoNews(s: System, step: Step)
    requires Enabled(s, step) && (step.Submit? || step.Verdict? || step.Cron? || step.Bootstrap?)
    ensures EditionsNoNews(s.db, Next(s, step).db)
  {
  }

  lemma StepSendsCards(s: System, step: Step)
    requires Inv(s) && CardsSent(s) && Enabled(s, step)
    ensures CardsSent(Next(s, step))
  {
    match step
    case Begin(p) => OneTxCards(s, AfterBegin(s, p), p, AfterBegin(s, p).pollers[p]);
    case Process(p, e) => ProcessSendsCard(s, p, e, |Inflight(View(s.db, s.pollers[p].writes), e)|);
    case FetchRows(p) => RowStepCards(s, AfterFetchRows(s, p), p, AfterFetchRows(s, p).pollers[p]);
    case Send(p, r) => RowStepCards(s, AfterSend(s, p, r), p, AfterSend(s, p, r).pollers[p]);
    case Mark(p, r) => RowStepCards(s, AfterMark(s, p, r), p, AfterMark(s, p, r).pollers[p]);
    case Commit(p) => CommitSendsCards(s, p);
    case Crash(p) => FewerTxCards(s, Next(s, step));
    case _ =>
      WritersBringNoNews(s, step);
      WriterKeepsCards(s, Next(s, step));
  }

  // In every run every inline card was sent before its commit.
  lemma {:induction false} RunSendsCards(s: System, steps: seq<Step>)
    requires Inv(s) && CardsSent(s) && CanRun(s, steps)
    ensures CardsSent(After(s, steps))
    decreases steps
  {
    if steps != [] {
      StepSendsCards(s, steps[0]);
      StepKeepsInv(s, steps[0]);
      RunSendsCards(Next(s, steps[0]), steps[1..]);
    }
  }

  // From an empty database: an edition marked as announced had its start card sent, and one
  // completed without the mark had its combined card sent.
  lemma EveryCardSent(steps: seq<Step>, e: nat)
    requires CanRun(START, steps)
    ensures CardSent(After(START, steps).db, After(START, steps).sent, e)
  {
    assert Inv(START);
    RunSendsCards(START, steps);
  }

  // ---- Every message, counted ----

  // What a message announces stands in the tables.
  predicate Recorded(db: Db, m: Message) {
    match m
    case StartCard(e) => e in db.editions && db.editions[e].startAnnounced
    case ResultsCard(e) => e in db.editions && db.editions[e].status == EditionCompleted && !db.editions[e].startAnnounced
    case RowEvent(r) => r in db.outbox && db.outbox[r].published
  }

  // An open transaction has sent it and is to record it.
  predicate SentBy(tx: Tx, m: Message) {
    match m
    case StartCard(e) => e in tx.writes.announced
    case ResultsCard(e) => e in tx.writes.finished && e in tx.locked && !tx.locked[e]
    case RowEvent(r) => r in tx.rows && tx.rows[r] != Todo
  }

  predicate InFlight(pollers: map<nat, Tx>, m: Message) {
    exists p | p in pollers :: SentBy(pollers[p], m)
  }

  // The transaction that ends without a commit takes its record of m along.
  predicate LosesRecord(s: System, step: Step, m: Message) {
    step.Crash? && step.p in s.pollers && SentBy(s.pollers[step.p], m)
  }

  function Unaccounted(s: System, m: Message): int {
    s.sent[m] as int - (if Recorded(s.db, m) then 1 else 0) - if InFlight(s.pollers, m) then 1 else 0
  }

  // At most one transaction answers for a message, and none for one already recorded.
  lemma OneSender(s: System, p: nat, m: Message)
    requires Inv(s) && p in s.pollers && SentBy(s.pollers[p], m)
    ensures forall q :: q in s.pollers && q != p ==> !SentBy(s.pollers[q], m)
    ensures !Recorded(s.db, m)
  {
    assert TxOk(s.db, s.pollers[p], s.nextRow, s.sent);
    match m
    case RowEvent(r) => assert InsertedRowOk(s.db, s.pollers[p], r, s.nextRow);
    case _ =>
    forall q | q in s.pollers && q != p ensures !SentBy(s.pollers[q], m) {
      assert TxOk(s.db, s.pollers[q], s.nextRow, s.sent) && Apart(s.pollers[p], s.pollers[q]);
    }
  }

  // Only transaction p changes, from tx to tx'.
  lemma OneTxInFlight(s: System, p: nat, tx': Tx, m: Message)
    requires p in s.pollers && SentBy(s.pollers[p], m) ==> SentBy(tx', m)
    ensures InFlight(s.pollers[p := tx'], m) <==>
            InFlight(s.pollers, m) || SentBy(tx', m)
  {
    if q :| q in s.pollers && SentBy(s.pollers[q], m) {
      assert q in s.pollers[p := tx'] && SentBy(s.pollers[p := tx'][q], m);
    }
    assert p in s.pollers[p := tx'];
  }

  // Nobody answers for a message that p is about to send.
  lemma NotYetSent(s: System, p: nat, m: Message)
    requires Inv(s) && p in s.pollers
    requires match m
             case StartCard(e) => e in s.pollers[p].todo
             case ResultsCard(e) => e in s.pollers[p].todo
             case RowEvent(r) => r in s.pollers[p].rows && s.pollers[p].rows[r] == Todo
    ensures !InFlight(s.pollers, m)
  {
    assert TxOk(s.db, s.pollers[p], s.nextRow, s.sent);
    forall q | q in s.pollers ensures !SentBy(s.pollers[q], m) {
      assert TxOk(s.db, s.pollers[q], s.nextRow, s.sent);
      if q != p {
        assert Apart(s.pollers[p], s.pollers[q]);
      }
    }
  }

  // Only p's transaction moved, and m was sent or not.
  lemma OneTxAccounts(s: System, s': System, p: nat, tx': Tx, m: Message, sends: bool)
    requires s'.pollers == s.pollers[p := tx'] && s'.db == s.db
    requires s'.sent[m] == s.sent[m] + (if sends then 1 else 0)
    requires SentBy(tx', m) <==> sends || (p in s.pollers && SentBy(s.pollers[p], m))
    requires sends ==> !InFlight(s.pollers, m)
    ensures Unaccounted(s', m) == Unaccounted(s, m)
  {
    OneTxInFlight(s, p, tx', m);
    if !sends && SentBy(tx', m) {
      assert p in s.pollers && InFlight(s.pollers, m);
    }
  }

  // What a processed edition sends is what its transaction is to record.
  lemma RecordSends(tx: Tx, e: nat, inflight: nat, rowId: nat, m: Message)
    requires e in tx.locked && e !in tx.writes.announced && e !in tx.writes.finished
    ensures var d := Decide(tx.locked[e], inflight);
            var sends := (m == StartCard(e) && !tx.locked[e] && inflight > 0)
                         || (m == ResultsCard(e) && !tx.locked[e] && inflight == 0);
            && CardFor(e, d)[m] == (if sends then 1 else 0)
            && (SentBy(tx.(todo := tx.todo - {e}, writes := Record(tx.writes, e, d, rowId)), m) <==> sends || SentBy(tx, m))
  {
  }

  lemma ProcessAccounts(s: System, p: nat, e: nat, inflight: nat, m: Message)
    requires Inv(s) && p in s.pollers && e in s.pollers[p].todo && e in s.pollers[p].locked
    ensures Unaccounted(AfterProcess(s, p, e, Decide(s.pollers[p].locked[e], inflight)), m) == Unaccounted(s, m)
  {
    var tx, d := s.pollers[p], Decide(s.pollers[p].locked[e], inflight);
    assert TxOk(s.db, tx, s.nextRow, s.sent);
    RecordSends(tx, e, inflight, s.nextRow, m);
    if m == StartCard(e) || m == ResultsCard(e) {
      NotYetSent(s, p, m);
    }
    OneTxAccounts(s, AfterProcess(s, p, e, d), p, tx.(todo := tx.todo - {e}, writes := Record(tx.writes, e, d, s.nextRow)),
                  m, CardFor(e, d)[m] == 1);
  }

  lemma SendAccounts(s: System, p: nat, r: nat, m: Message)
    requires Inv(s) && p in s.pollers && r in s.pollers[p].rows && s.pollers[p].rows[r] == Todo
    ensures Unaccounted(AfterSend(s, p, r), m) == Unaccounted(s, m)
  {
    if m == RowEvent(r) {
      NotYetSent(s, p, m);
    }
    OneTxAccounts(s, AfterSend(s, p, r), p, AfterSend(s, p, r).pollers[p], m, m == RowEvent(r));
  }

  lemma BeginAccounts(s: System, p: nat, m: Message)
    requires p !in s.pollers
    ensures Unaccounted(AfterBegin(s, p), m) == Unaccounted(s, m)
  {
    OneTxAccounts(s, AfterBegin(s, p), p, AfterBegin(s, p).pollers[p], m, false);
  }

  lemma FetchAccounts(s: System, p: nat, m: Message)
    requires AllTxOk(s) && p in s.pollers && !s.pollers[p].fetched
    ensures Unaccounted(AfterFetchRows(s, p), m) == Unaccounted(s, m)
  {
    assert TxOk(s.db, s.pollers[p], s.nextRow, s.sent);
    OneTxAccounts(s, AfterFetchRows(s, p), p, AfterFetchRows(s, p).pollers[p], m, false);
  }

  lemma MarkAccounts(s: System, p: nat, r: nat, m: Message)
    requires p in s.pollers && r in s.pollers[p].rows && s.pollers[p].rows[r] == Sent
    ensures Unaccounted(AfterMark(s, p, r), m) == Unaccounted(s, m)
  {
    OneTxAccounts(s, AfterMark(s, p, r), p, AfterMark(s, p, r).pollers[p], m, false);
  }

  lemma Without(s: System, p: nat, m: Message)
    requires Inv(s) && p in s.pollers
    ensures InFlight(s.pollers, m) <==> InFlight(s.pollers - {p}, m) || SentBy(s.pollers[p], m)
    ensures SentBy(s.pollers[p], m) ==> !InFlight(s.pollers - {p}, m) && !Recorded(s.db, m)
  {
    if SentBy(s.pollers[p], m) {
      OneSender(s, p, m);
    }
    if q :| q in s.pollers && SentBy(s.pollers[q], m) {
      assert q == p || q in s.pollers - {p};
    }
  }

  // A commit records exactly what its transaction has sent.
  lemma CommitRecords(s: System, p: nat, m: Message)
    requires Inv(s) && Enabled(s, Commit(p))
    ensures Recorded(Next(s, Commit(p)).db, m) <==> Recorded(s.db, m) || SentBy(s.pollers[p], m)
  {
    var tx := s.pollers[p];
    assert TxOk(s.db, tx, s.nextRow, s.sent);
    if m.RowEvent? {
      assert InsertedRowOk(s.db, tx, m.row, s.nextRow);
    }
  }

  lemma WriterRecordsNothing(s: System, step: Step, m: Message)
    requires OutboxOk(s) && Enabled(s, step) && (step.Submit? || step.Verdict? || step.Cron? || step.Bootstrap?)
    ensures Recorded(Next(s, step).db, m) <==> Recorded(s.db, m)
  {
    WritersBringNoNews(s, step);
    if step.Cron? {
      FlipRows(s.db, step.due, step.period, step.paused, step.newEdition, step.newCycles);
    }
  }

  lemma StepAccounts(s: System, step: Step, m: Message)
    requires Inv(s) && Enabled(s, step)
    ensures Unaccounted(Next(s, step), m) == Unaccounted(s, m) + if LosesRecord(s, step, m) then 1 else 0
  {
    match step
    case Begin(p) => BeginAccounts(s, p, m);
    case Process(p, e) => ProcessAccounts(s, p, e, |Inflight(View(s.db, s.pollers[p].writes), e)|, m);
    case FetchRows(p) => FetchAccounts(s, p, m);
    case Send(p, r) => SendAccounts(s, p, r, m);
    case Mark(p, r) => MarkAccounts(s, p, r, m);
    case Commit(p) =>
      CommitRecords(s, p, m);
      Without(s, p, m);
    case Crash(p) => Without(s, p, m);
    case _ => WriterRecordsNothing(s, step, m);
  }

  ghost function LostRecords(s: System, steps: seq<Step>, m: Message): nat
    requires CanRun(s, steps)
    decreases steps
  {
    if steps == [] then 0
    else (if LosesRecord(s, steps[0], m) then 1 else 0) + LostRecords(Next(s, steps[0]), steps[1..], m)
  }

  lemma {:induction false} RunAccounts(s: System, steps: seq<Step>, m: Message)
    requires Inv(s) && CanRun(s, steps)
    ensures Unaccounted(After(s, steps), m) == Unaccounted(s, m) + LostRecords(s, steps, m)
    decreases steps
  {
    if steps != [] {
      StepAccounts(s, steps[0], m);
      StepKeepsInv(s, steps[0]);
      RunAccounts(Next(s, steps[0]), steps[1..], m);
    }
  }

  // In every run from an empty database each message was sent once for its record in the tables,
  // once if an open transaction is about to record it, and once for every crash that lost one.
  lemma SentExactly(steps: seq<Step>, m: Message)
    requires CanRun(START, steps)
    ensures var s := After(START, steps);
            s.sent[m] == (if Recorded(s.db, m) then 1 else 0) + (if InFlight(s.pollers, m) then 1 else 0)
                         + LostRecords(START, steps, m)
  {
    assert Inv(START);
    RunAccounts(START, steps, m);
  }

  lemma {:induction false} NoCrashNoLoss(s: System, steps: seq<Step>, m: Message)
    requires CanRun(s, steps) && forall i :: 0 <= i < |steps| ==> !steps[i].Crash?
    ensures LostRecords(s, steps, m) == 0
    decreases steps
  {
    if steps != [] {
      assert !steps[0].Crash?;
      NoCrashNoLoss(Next(s, steps[0]), steps[1..], m);
    }
  }

  // Without crashes every message goes out at most once, and an edition whose results went out
  // inline has no results row.
  lemma SentOnceWithoutCrash(steps: seq<Step>, m: Message, r: nat)
    requires CanRun(START, steps) && forall i :: 0 <= i < |steps| ==> !steps[i].Crash?
    ensures After(START, steps).sent[m] <= 1
    ensures m.ResultsCard? && After(START, steps).sent[m] == 1 ==> !IsResultsRow(After(START, steps).db, r, m.edition)
  {
    SentExactly(steps, m);
    NoCrashNoLoss(START, steps, m);
    assert Inv(START);
    RunKeepsInv(START, steps);
    var s := After(START, steps);
    if p :| p in s.pollers && SentBy(s.pollers[p], m) {
      OneSender(s, p, m);
      assert TxOk(s.db, s.pollers[p], s.nextRow, s.sent);
    }
  }

  // Marked, rolled back, marked again: two True answers for one row.
  lemma MarkedTwiceAfterACrash()
    ensures exists steps :: CanRun(START, steps) && IsPublished(After(START, steps).db, 0) == 1
                            && After(START, steps).answered[0] == 2
  {
    var boot := Bootstrap(0, 10, map[]);
    var s0 := Next(START, boot);
    assert s0.db.outbox == map[0 := Transition(0, EditionRollover, false)];
    OnePass(s0, Crash(1));
    var s5 := After(s0, Pass(Crash(1)));
    OnePass(s5, Commit(1));
    RunsJoin(s0, Pass(Crash(1)), Pass(Commit(1)));
    var steps := Pass(Crash(1)) + Pass(Commit(1));
    assert ([boot] + steps)[0] == boot && ([boot] + steps)[1..] == steps;
    assert CanRun(START, [boot] + steps);
  }

  const PUBLISH := ([Begin(1)] + [FetchRows(1)]) + ([Send(1, 0)] + [Mark(1, 0)])

  function Pass(end: Step): seq<Step> { PUBLISH + [end] }

  lemma Prepend(s: System, step: Step, rest: seq<Step>)
    requires Enabled(s, step) && CanRun(Next(s, step), rest)
    ensures CanRun(s, [step] + rest) && After(s, [step] + rest) == After(Next(s, step), rest)
  {
    assert ([step] + rest)[1..] == rest;
  }

  lemma TwoSteps(s: System, a: Step, b: Step)
    requires Enabled(s, a) && Enabled(Next(s, a), b)
    ensures CanRun(s, [a] + [b]) && After(s, [a] + [b]) == Next(Next(s, a), b)
  {
    var t := Next(Next(s, a), b);
    assert CanRun(t, []) && [b] + [] == [b];
    Prepend(Next(s, a), b, []);
    Prepend(s, a, [b]);
  }

  // Poller 1 alone, up to its mark on the only unpublished row.
  lemma UpToFetch(s: System)
    requires s.pollers == map[] && Awaiting(s.db) == {} && Unpublished(s.db) == {0}
    ensures Enabled(s, Begin(1)) && Enabled(Next(s, Begin(1)), FetchRows(1))
    ensures Next(Next(s, Begin(1)), FetchRows(1))
            == s.(pollers := map[1 := Tx(map[], {}, NO_WRITES, map[0 := Todo], true)])
  {
    var s1 := Next(s, Begin(1));
    assert Lockable(s) == {};
    assert s1.pollers[1] == Tx(map[], {}, NO_WRITES, map[], false);
    assert View(s.db, NO_WRITES).outbox == s.db.outbox;
    assert LockableRows(s1, 1) == {0};
    var s2 := Next(s1, FetchRows(1));
    assert s2.pollers[1].rows == map[0 := Todo];
    assert s2.pollers == map[1 := Tx(map[], {}, NO_WRITES, map[0 := Todo], true)];
  }

  lemma UpToMark(s: System)
    requires s.pollers == map[] && Awaiting(s.db) == {} && Unpublished(s.db) == {0}
    ensures CanRun(s, PUBLISH)
    ensures var t := After(s, PUBLISH);
            && t.db == s.db && t.answered == s.answered + multiset{0}
            && t.pollers.Keys == {1} && t.pollers[1].fetched
            && t.pollers[1].rows == map[0 := Done] && t.pollers[1].writes.marked == {0}
  {
    UpToFetch(s);
    TwoSteps(s, Begin(1), FetchRows(1));
    var s2 := s.(pollers := map[1 := Tx(map[], {}, NO_WRITES, map[0 := Todo], true)]);
    assert View(s.db, NO_WRITES).outbox == s.db.outbox;
    assert Next(s2, Send(1, 0)).pollers[1].rows == map[0 := Sent];
    TwoSteps(s2, Send(1, 0), Mark(1, 0));
    RunsJoin(s, [Begin(1)] + [FetchRows(1)], [Send(1, 0)] + [Mark(1, 0)]);
  }

  // The same pass ended by a commit or a crash.
  lemma OnePass(s: System, end: Step)
    requires s.pollers == map[] && Awaiting(s.db) == {} && Unpublished(s.db) == {0}
    requires end == Crash(1) || end == Commit(1)
    ensures CanRun(s, Pass(end))
    ensures var t := After(s, Pass(end));
            && t.pollers == map[] && t.answered == s.answered + multiset{0}
            && (end == Crash(1) ==> t.db == s.db)
            && (end == Commit(1) ==> IsPublished(t.db, 0) == 1)
  {
    UpToMark(s);
    var t := After(s, PUBLISH);
    assert 0 in s.db.outbox;
    assert CanRun(Next(t, end), []) && [end] + [] == [end];
    Prepend(t, end, []);
    RunsJoin(s, PUBLISH, [end]);
  }

  lemma {:induction false} RunsJoin(s: System, a: seq<Step>, b: seq<Step>)
    requires CanRun(s, a) && CanRun(After(s, a), b)
    ensures CanRun(s, a + b) && After(s, a + b) == After(After(s, a), b)
    decreases a
  {
    if a == [] {
      assert a + b == b;
    } else {
      RunsJoin(Next(s, a[0]), a[1..], b);
      assert (a + b)[1..] == a[1..] + b;
    }
  }
}
