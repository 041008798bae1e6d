// The standings of one cycle inside the running system: which submissions they are made of, and
// what can still change them once the edition is over.
module Standings {
  import opened Wrappers
  import opened TournamentTables
  import opened TournamentPollers
  import opened TournamentDrain
  import opened Leaderboard

  // The columns of a tournament completion that nothing updates.
  datatype Columns = Columns(hasVideo: bool, time: real, insertedAt: int)

  // ids lists exactly the submissions of cycle c.
  ghost predicate ListsCycle(db: Db, c: nat, ids: seq<nat>) {
    (forall i, j :: 0 <= i < j < |ids| ==> ids[i] != ids[j])
    && forall r :: r in ids <==> r in db.runs && db.runs[r].cycle == c
  }

  function RowOf(db: Db, columns: map<nat, Columns>, r: nat): Submission
    requires r in db.runs && r in columns
  {
    Submission(r, db.runs[r].user, db.runs[r].status, columns[r].hasVideo, columns[r].time, columns[r].insertedAt)
  }

  ghost predicate Covered(db: Db, columns: map<nat, Columns>, ids: seq<nat>) {
    forall r :: r in ids ==> r in db.runs && r in columns
  }

  // What fetch_leaderboard selects from.
  ghost function CycleRows(db: Db, columns: map<nat, Columns>, ids: seq<nat>): (rows: seq<Submission>)
    requires Covered(db, columns, ids)
  {
    seq(|ids|, i requires 0 <= i < |ids| => RowOf(db, columns, ids[i]))
  }

  ghost predicate Over(db: Db, e: nat, c: nat) {
    e in db.editions && db.editions[e].status != EditionActive && ChildOf(db, c, e)
  }

  // A step of the system as the standings see it.
  function ReVerdict(rows: seq<Submission>, step: Step): seq<Submission> {
    if step.Verdict? then SetStatus(rows, step.run, if step.verified then Verified else Rejected) else rows
  }

  function ReVerdicts(rows: seq<Submission>, steps: seq<Step>): seq<Submission>
    decreases steps
  {
    if steps == [] then rows else ReVerdicts(ReVerdict(rows, steps[0]), steps[1..])
  }

  lemma SameRuns(db: Db, db': Db, c: nat, ids: seq<nat>, columns: map<nat, Columns>)
    requires db'.runs == db.runs && ListsCycle(db, c, ids) && Covered(db, columns, ids)
    ensures ListsCycle(db', c, ids) && Covered(db', columns, ids)
    ensures CycleRows(db', columns, ids) == CycleRows(db, columns, ids)
  {
  }

  lemma SubmitElsewhere(db: Db, run: nat, user: nat, cycle: nat, c: nat, ids: seq<nat>, columns: map<nat, Columns>)
    requires run !in db.runs && cycle != c && ListsCycle(db, c, ids) && Covered(db, columns, ids)
    ensures var db' := AddRun(db, run, user, cycle);
            ListsCycle(db', c, ids) && Covered(db', columns, ids) && CycleRows(db', columns, ids) == CycleRows(db, columns, ids)
  {
  }

  lemma VerdictIsSetStatus(db: Db, run: nat, verified: bool, c: nat, ids: seq<nat>, columns: map<nat, Columns>)
    requires ListsCycle(db, c, ids) && Covered(db, columns, ids)
    ensures var db' := SetVerdict(db, run, verified);
            && ListsCycle(db', c, ids) && Covered(db', columns, ids)
            && CycleRows(db', columns, ids)
               == SetStatus(CycleRows(db, columns, ids), run, if verified then Verified else Rejected)
  {
    var rows, rows' := CycleRows(db, columns, ids), CycleRows(SetVerdict(db, run, verified), columns, ids);
    forall i | 0 <= i < |ids| ensures rows'[i] == SetStatus(rows, run, if verified then Verified else Rejected)[i] {
      assert ids[i] in ids;
    }
  }

  lemma CycleKeepsEdition(s: System, step: Step, e: nat, c: nat)
    requires Enabled(s, step) && ChildOf(s.db, c, e)
    ensures ChildOf(Next(s, step).db, c, e)
  {
    match step
    case Submit(_, _, _, _) =>
    case Verdict(_, _) =>
    case Cron(_, _, _, _, _, _) =>
    case Bootstrap(_, _, _) =>
    case Commit(p) => assert Next(s, step).db.cycles == View(s.db, s.pollers[p].writes).cycles;
    case _ => OthersLeaveTables(s, step);
  }

  lemma StaysOver(s: System, step: Step, e: nat, c: nat)
    requires Inv(s) && Enabled(s, step) && Over(s.db, e, c)
    ensures Over(Next(s, step).db, e, c)
  {
    QueueStep(s, step, e);
    CycleKeepsEdition(s, step, e, c);
  }

  lemma OpenCycleIsElsewhere(db: Db, cycle: nat, mapId: nat, e: nat, c: nat)
    requires Integrity(db) && ActiveOn(db, cycle, mapId) && Over(db, e, c)
    ensures cycle != c
  {
  }

  lemma WriterKeepsRuns(s: System, step: Step)
    requires Enabled(s, step) && (step.Cron? || step.Bootstrap? || step.Commit?)
    ensures Next(s, step).db.runs == s.db.runs
  {
  }

  // Once its edition is no longer active, a step leaves a cycle's submissions alone or is a
  // verdict on one of them.
  lemma StepReVerdicts(s: System, step: Step, e: nat, c: nat, ids: seq<nat>, columns: map<nat, Columns>)
    requires Inv(s) && Enabled(s, step) && Over(s.db, e, c) && ListsCycle(s.db, c, ids) && Covered(s.db, columns, ids)
    ensures var db' := Next(s, step).db;
            && ListsCycle(db', c, ids) && Covered(db', columns, ids)
            && CycleRows(db', columns, ids) == ReVerdict(CycleRows(s.db, columns, ids), step)
  {
    if step.Submit? {
      OpenCycleIsElsewhere(s.db, step.cycle, step.mapId, e, c);
      SubmitElsewhere(s.db, step.run, step.user, step.cycle, c, ids, columns);
    } else if step.Verdict? {
      VerdictIsSetStatus(s.db, step.run, step.verified, c, ids, columns);
    } else {
      if WritesTables(step) {
        WriterKeepsRuns(s, step);
      } else {
        OthersLeaveTables(s, step);
      }
      SameRuns(s.db, Next(s, step).db, c, ids, columns);
    }
  }

  // In every later run the set of submissions is fixed, and the standings are the old ones after
  // exactly the verdicts of that run, in order.
  lemma {:induction false} StandingsFixed(s: System, steps: seq<Step>, e: nat, c: nat, ids: seq<nat>, columns: map<nat, Columns>)
    requires Inv(s) && CanRun(s, steps) && Over(s.db, e, c) && ListsCycle(s.db, c, ids) && Covered(s.db, columns, ids)
    ensures var db' := After(s, steps).db;
            && ListsCycle(db', c, ids) && Covered(db', columns, ids)
            && CycleRows(db', columns, ids) == ReVerdicts(CycleRows(s.db, columns, ids), steps)
    decreases steps
  {
    if steps != [] {
      StepReVerdicts(s, steps[0], e, c, ids, columns);
      StaysOver(s, steps[0], e, c);
      StepKeepsInv(s, steps[0]);
      StandingsFixed(Next(s, steps[0]), steps[1..], e, c, ids, columns);
    }
  }

  ghost predicate NoVerdictOn(steps: seq<Step>, ids: seq<nat>) {
    forall i :: 0 <= i < |steps| && steps[i].Verdict? ==> steps[i].run !in ids
  }

  lemma {:induction false} NothingToReVerdict(rows: seq<Submission>, steps: seq<Step>)
    requires forall i, j :: 0 <= i < |rows| && 0 <= j < |steps| && steps[j].Verdict? ==> steps[j].run != rows[i].id
    ensures ReVerdicts(rows, steps) == rows
    decreases steps
  {
    if steps != [] {
      assert ReVerdict(rows, steps[0]) == rows;
      NothingToReVerdict(rows, steps[1..]);
    }
  }

  // A completed edition's board is final until somebody re-judges one of its submissions.
  lemma BoardIsFinal(s: System, steps: seq<Step>, e: nat, c: nat, ids: seq<nat>, columns: map<nat, Columns>)
    requires Inv(s) && CanRun(s, steps) && IsCompleted(s.db, e) && ChildOf(s.db, c, e)
    requires ListsCycle(s.db, c, ids) && Covered(s.db, columns, ids) && NoVerdictOn(steps, ids)
    ensures Covered(After(s, steps).db, columns, ids) && ListsCycle(After(s, steps).db, c, ids)
    ensures FetchLeaderboard(CycleRows(After(s, steps).db, columns, ids)) == FetchLeaderboard(CycleRows(s.db, columns, ids))
  {
    StandingsFixed(s, steps, e, c, ids, columns);
    NothingToReVerdict(CycleRows(s.db, columns, ids), steps);
  }

  // Each such verdict moves the ranks as Leaderboard says.
  lemma ReVerifyMovesRanks(db: Db, run: nat, c: nat, ids: seq<nat>, columns: map<nat, Columns>, u: nat)
    requires ListsCycle(db, c, ids) && Covered(db, columns, ids) && run in ids
    ensures Covered(SetVerdict(db, run, true), columns, ids)
    ensures var rows, after := CycleRows(db, columns, ids), CycleRows(SetVerdict(db, run, true), columns, ids);
            if u == db.runs[run].user then BoardRank(after, u) <= BoardRank(rows, u)
            else BoardRank(rows, u) <= BoardRank(after, u) <= BoardRank(rows, u) + 1
  {
    var rows := CycleRows(db, columns, ids);
    var k :| 0 <= k < |ids| && ids[k] == run;
    forall i | 0 <= i < |rows| && rows[i].id == rows[k].id ensures i == k {
      assert ids[i] == ids[k];
    }
    VerdictIsSetStatus(db, run, true, c, ids, columns);
    VerifyMovesRanks(rows, k, u);
    if u != db.runs[run].user {
      VerifyMovesRanks(rows, k, db.runs[run].user);
    }
  }
}
