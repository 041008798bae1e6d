// The tournament tables (editions, cycles, completions, outbox) and the repository
// methods that change them, one SQL statement or one PL/pgSQL function each.
// Every method is specified by a function on the table contents; the concurrent model
// in TournamentPollers runs the same functions.

module TournamentTables {
  import opened Wrappers

  datatype EditionStatus = EditionActive | AwaitingResults | EditionCompleted
  datatype CycleStatus = CyclePending | CycleActive | Finalizing | CycleCompleted
  datatype RunStatus = Pending | Verified | Rejected
  datatype EventType = EditionRollover | EditionResults

  datatype Edition = Edition(status: EditionStatus, startAnnounced: bool, endsAt: int)
  // edition is NULL for the cycles that predate editions and for map previews.
  datatype Cycle = Cycle(edition: Option<nat>, mapId: nat, status: CycleStatus)
  datatype Run = Run(cycle: nat, user: nat, status: RunStatus)
  datatype Transition = Transition(edition: nat, kind: EventType, published: bool)

  // The committed contents of the four tables, keyed by their identity columns.
  datatype Db = Db(editions: map<nat, Edition>, cycles: map<nat, Cycle>,
                   runs: map<nat, Run>, outbox: map<nat, Transition>)

  const EMPTY := Db(map[], map[], map[], map[])

  // ---- Reads ----

  predicate ChildOf(db: Db, c: nat, e: nat) {
    c in db.cycles && db.cycles[c].edition == Some(e)
  }

  // The rows counted by count_inflight_verifications.
  function Inflight(db: Db, e: nat): set<nat> {
    set r | r in db.runs && db.runs[r].status == Pending && ChildOf(db, db.runs[r].cycle, e)
            && db.cycles[db.runs[r].cycle].status in {CycleActive, Finalizing}
  }

  function Awaiting(db: Db): set<nat> {
    set e | e in db.editions && db.editions[e].status == AwaitingResults
  }

  function Unpublished(db: Db): set<nat> {
    set r | r in db.outbox && !db.outbox[r].published
  }

  // get_active_cycle_by_map_id: LIMIT 1, any active cycle of the map will do.
  predicate ActiveOn(db: Db, c: nat, mapId: nat) {
    c in db.cycles && db.cycles[c].mapId == mapId && db.cycles[c].status == CycleActive
  }

  ghost predicate HasActiveCycle(db: Db, mapId: nat) {
    exists c :: ActiveOn(db, c, mapId)
  }

  ghost predicate FirstActive(db: Db, mapId: nat, c: Option<nat>) {
    match c
    case None => !HasActiveCycle(db, mapId)
    case Some(k) => ActiveOn(db, k, mapId)
  }

  // ---- Writes, each as one statement sees them ----

  function AddRun(db: Db, run: nat, user: nat, cycle: nat): Db {
    db.(runs := db.runs[run := Run(cycle, user, Pending)])
  }

  function SetVerdict(db: Db, r: nat, verified: bool): Db {
    if r in db.runs
    then db.(runs := db.runs[r := db.runs[r].(status := if verified then Verified else Rejected)])
    else db
  }

  function MarkStartAnnounced(db: Db, e: nat): Db {
    if e in db.editions then db.(editions := db.editions[e := db.editions[e].(startAnnounced := true)]) else db
  }

  function CompleteEdition(db: Db, e: nat): Db {
    db.(cycles := map c | c in db.cycles ::
                    if db.cycles[c].edition == Some(e) then db.cycles[c].(status := CycleCompleted) else db.cycles[c],
        editions := if e in db.editions
                    then db.editions[e := db.editions[e].(status := EditionCompleted)] else db.editions)
  }

  function MarkPublished(db: Db, r: nat): Db {
    if r in db.outbox then db.(outbox := db.outbox[r := db.outbox[r].(published := true)]) else db
  }

  // What the poller does with one locked edition: announce the start, publish the combined
  // card inline, write the deferred results row, or wait.
  datatype Decision = AnnounceStart | CombinedResults | DeferredResults | Wait

  function Decide(announced: bool, inflight: nat): Decision {
    if !announced && inflight > 0 then AnnounceStart
    else if !announced then CombinedResults
    else if inflight == 0 then DeferredResults
    else Wait
  }

  function ApplyDecision(db: Db, e: nat, d: Decision, rowId: nat): Db {
    match d
    case AnnounceStart => MarkStartAnnounced(db, e)
    case CombinedResults => CompleteEdition(db, e)
    case DeferredResults =>
      CompleteEdition(db.(outbox := db.outbox[rowId := Transition(e, EditionResults, false)]), e)
    case Wait => db
  }

  function ProcessEdition(db: Db, e: nat, announced: bool, rowId: nat): Db {
    ApplyDecision(db, e, Decide(announced, |Inflight(db, e)|), rowId)
  }

  // ---- The cron function ----

  ghost predicate IsDue(db: Db, now: int, e: nat) {
    && e in db.editions && db.editions[e].status == EditionActive && now >= db.editions[e].endsAt
    && forall f :: f in db.editions && db.editions[f].status == EditionActive && now >= db.editions[f].endsAt
                   ==> db.editions[e].endsAt <= db.editions[f].endsAt
  }

  function StopCycles(db: Db, e: nat): Db {
    db.(cycles := map c | c in db.cycles ::
                    if db.cycles[c].edition == Some(e) && db.cycles[c].status == CycleActive
                    then db.cycles[c].(status := Finalizing) else db.cycles[c])
  }

  function OpenEdition(db: Db, e: nat, endsAt: int, cycles: map<nat, nat>): Db {
    db.(editions := db.editions[e := Edition(EditionActive, false, endsAt)],
        cycles := map c | c in db.cycles.Keys + cycles.Keys ::
                    if c in cycles then Cycle(Some(e), cycles[c], CycleActive) else db.cycles[c])
  }

  function FlipDue(db: Db, e: nat): Db
    requires e in db.editions
  {
    var stopped := StopCycles(db, e);
    stopped.(editions := stopped.editions[e := stopped.editions[e].(status := AwaitingResults)])
  }

  function FlipEdition(db: Db, e: nat, period: nat, paused: bool, newEdition: nat, newCycles: map<nat, nat>): Db
    requires e in db.editions
  {
    if paused then FlipDue(db, e)
    else OpenEdition(FlipDue(db, e), newEdition, db.editions[e].endsAt + period, newCycles)
  }

  // The flip in table fields: the due edition waits for its results, its active cycles are
  // stopped, and unless paused one new edition opens where the old one ended, for one period.
  lemma FlipRows(db: Db, e: nat, period: nat, paused: bool, newEdition: nat, newCycles: map<nat, nat>)
    requires e in db.editions && newEdition !in db.editions && newCycles.Keys !! db.cycles.Keys
    ensures var db' := FlipEdition(db, e, period, paused, newEdition, newCycles);
            && db'.runs == db.runs && db'.outbox == db.outbox
            && db'.editions.Keys == db.editions.Keys + (if paused then {} else {newEdition})
            && db'.cycles.Keys == db.cycles.Keys + (if paused then {} else newCycles.Keys)
            && (!paused ==> db'.editions[newEdition] == Edition(EditionActive, false, db.editions[e].endsAt + period))
            && (!paused ==> forall c :: c in newCycles ==> db'.cycles[c] == Cycle(Some(newEdition), newCycles[c], CycleActive))
            && (forall f :: f in db.editions ==>
                  db'.editions[f] == if f == e then db.editions[f].(status := AwaitingResults) else db.editions[f])
            && (forall c :: c in db.cycles ==>
                  db'.cycles[c] == if db.cycles[c].edition == Some(e) && db.cycles[c].status == CycleActive
                                   then db.cycles[c].(status := Finalizing) else db.cycles[c])
  {
  }

  // ---- The integrity every reachable database keeps ----

  ghost predicate ForeignKeys(db: Db) {
    && (forall r :: r in db.runs ==> db.runs[r].cycle in db.cycles)
    && (forall c :: c in db.cycles && db.cycles[c].edition.Some? ==> db.cycles[c].edition.value in db.editions)
    && (forall r :: r in db.outbox ==> db.outbox[r].edition in db.editions)
  }

  // Child cycles move in step with their edition.
  function StatusOfChildren(s: EditionStatus): CycleStatus {
    match s
    case EditionActive => CycleActive
    case AwaitingResults => Finalizing
    case EditionCompleted => CycleCompleted
  }

  ghost predicate CyclesInStep(db: Db)
    requires ForeignKeys(db)
  {
    forall c :: c in db.cycles && db.cycles[c].edition.Some? ==>
      db.cycles[c].status == StatusOfChildren(db.editions[db.cycles[c].edition.value].status)
  }

  ghost predicate IsResultsRow(db: Db, r: nat, e: nat) {
    r in db.outbox && db.outbox[r].edition == e && db.outbox[r].kind == EditionResults
  }

  // A deferred results row exists exactly for the editions completed after a start-only
  // announcement, and there is never a second one.
  ghost predicate ResultsRowsExact(db: Db) {
    && (forall r, e :: IsResultsRow(db, r, e) ==>
          e in db.editions && db.editions[e].status == EditionCompleted && db.editions[e].startAnnounced)
    && (forall e :: e in db.editions && db.editions[e].status == EditionCompleted && db.editions[e].startAnnounced ==>
          exists r :: IsResultsRow(db, r, e))
    && (forall q, r, e :: IsResultsRow(db, q, e) && IsResultsRow(db, r, e) ==> q == r)
  }

  ghost predicate Integrity(db: Db) {
    ForeignKeys(db) && CyclesInStep(db) && ResultsRowsExact(db)
  }

  // ---- The repository ----

  lemma OneFewer(all: set<nat>, todo: set<nat>, r: nat)
    requires r in todo
    ensures |all - (todo - {r})| == |all - todo| + if r in all then 1 else 0
  {
    assert all - (todo - {r}) == (all - todo) + if r in all then {r} else {};
  }

  class TournamentRepository {
    var editions: map<nat, Edition>
    var cycles: map<nat, Cycle>
    var runs: map<nat, Run>
    var outbox: map<nat, Transition>
    var nextRow: nat  // identity sequence of the outbox
    var nextRun: nat  // identity sequence of the completions

    function Contents(): Db
      reads this
    {
      Db(editions, cycles, runs, outbox)
    }

    method GetActiveCycleByMapId(mapId: nat) returns (c: Option<nat>)
      ensures FirstActive(Contents(), mapId, c)
    {
      var todo := cycles.Keys;
      while todo != {}
        invariant todo <= cycles.Keys
        invariant forall k :: ActiveOn(Contents(), k, mapId) ==> k in todo
        decreases |todo|
      {
        var k :| k in todo;
        if cycles[k].mapId == mapId && cycles[k].status == CycleActive {
          assert ActiveOn(Contents(), k, mapId);
          return Some(k);
        }
        todo := todo - {k};
      }
      c := None;
    }

    method CreateTournamentCompletion(cycle: nat, user: nat) returns (run: nat)
      modifies this`runs, this`nextRun
      ensures run == old(nextRun) && nextRun == run + 1
      ensures Contents() == AddRun(old(Contents()), run, user, cycle)
    {
      run := nextRun;
      runs := runs[run := Run(cycle, user, Pending)];
      nextRun := nextRun + 1;
    }

    // RETURNING row: Some exactly when the guarded UPDATE changed the row.
    method SetTournamentVerified(r: nat, verified: bool) returns (changed: Option<Run>)
      modifies this`runs
      ensures Contents() == SetVerdict(old(Contents()), r, verified)
      ensures changed.Some? <==>
              r in old(runs) && old(runs[r]).status != if verified then Verified else Rejected
      ensures changed.Some? ==> r in runs && changed.value == runs[r]
    {
      var target := if verified then Verified else Rejected;
      if r in runs && runs[r].status != target {
        runs := runs[r := runs[r].(status := target)];
        return Some(runs[r]);
      }
      if r in runs {
        assert runs == runs[r := runs[r].(status := target)];
      }
      return None;
    }

    method CountInflightVerifications(e: nat) returns (count: nat)
      ensures count == |Inflight(Contents(), e)|
    {
      ghost var all := Inflight(Contents(), e);
      var todo := runs.Keys;
      count := 0;
      assert all - todo == {};
      while todo != {}
        invariant todo <= runs.Keys && count == |all - todo|
        decreases todo
      {
        var r :| r in todo;
        if runs[r].status == Pending && runs[r].cycle in cycles && cycles[runs[r].cycle].edition == Some(e)
           && (cycles[runs[r].cycle].status == CycleActive || cycles[runs[r].cycle].status == Finalizing)
        {
          assert r in all;
          count := count + 1;
        }
        OneFewer(all, todo, r);
        todo := todo - {r};
      }
      assert all - {} == all;
    }

    method MarkEditionStartAnnounced(e: nat)
      modifies this`editions
      ensures Contents() == MarkStartAnnounced(old(Contents()), e)
    {
      if e in editions {
        editions := editions[e := editions[e].(startAnnounced := true)];
      }
    }

    method CompleteEditionRows(e: nat)
      modifies this`cycles, this`editions
      ensures Contents() == CompleteEdition(old(Contents()), e)
      ensures e in editions ==> editions[e] == old(editions)[e].(status := EditionCompleted)
      ensures cycles.Keys == old(cycles.Keys)
      ensures forall c :: c in cycles && cycles[c].edition == Some(e) ==> cycles[c].status == CycleCompleted
      ensures forall c :: c in cycles && cycles[c].edition != Some(e) ==> cycles[c] == old(cycles)[c]
      ensures editions.Keys == old(editions.Keys) && forall f :: f in editions && f != e ==> editions[f] == old(editions)[f]
    {
      cycles := map c | c in cycles ::
        if cycles[c].edition == Some(e) then cycles[c].(status := CycleCompleted) else cycles[c];
      if e in editions {
        editions := editions[e := editions[e].(status := EditionCompleted)];
      }
    }

    method CreatePendingTransition(e: nat, kind: EventType) returns (id: nat)
      modifies this`outbox, this`nextRow
      ensures id == old(nextRow) && nextRow == id + 1
      ensures outbox == old(outbox)[id := Transition(e, kind, false)]
    {
      id := nextRow;
      nextRow := nextRow + 1;
      outbox := outbox[id := Transition(e, kind, false)];
    }

    // True exactly when the UPDATE ... WHERE published = FALSE hit the row.
    method MarkTransitionPublished(r: nat) returns (updated: bool)
      modifies this`outbox
      ensures Contents() == MarkPublished(old(Contents()), r)
      ensures updated <==> r in Unpublished(old(Contents()))
    {
      updated := r in outbox && !outbox[r].published;
      if updated {
        outbox := outbox[r := outbox[r].(published := true)];
      } else if r in outbox {
        assert outbox == outbox[r := outbox[r].(published := true)];
      }
    }

    // SELECT ... WHERE status = 'active' AND now() >= ends_at ORDER BY ends_at ASC LIMIT 1
    method FindDueEdition(now: int) returns (due: Option<nat>)
      ensures due.Some? ==> IsDue(Contents(), now, due.value)
      ensures due.None? ==>
                forall e :: e in editions && editions[e].status == EditionActive ==> now < editions[e].endsAt
    {
      due := None;
      var todo := editions.Keys;
      while todo != {}
        invariant todo <= editions.Keys
        invariant due.Some? ==> due.value in editions && editions[due.value].status == EditionActive
                                && now >= editions[due.value].endsAt
        invariant forall f :: f in editions.Keys - todo && editions[f].status == EditionActive
                              && now >= editions[f].endsAt ==>
                    due.Some? && editions[due.value].endsAt <= editions[f].endsAt
        decreases todo
      {
        var e :| e in todo;
        todo := todo - {e};
        if editions[e].status == EditionActive && now >= editions[e].endsAt
           && (due.None? || editions[e].endsAt < editions[due.value].endsAt) {
          due := Some(e);
        }
      }
    }

    // FOR v_child IN ... LOOP UPDATE ... SET status = 'finalizing'
    method StopChildCycles(e: nat)
      modifies this`cycles
      ensures Contents() == StopCycles(old(Contents()), e)
    {
      var children := set c | c in cycles && cycles[c].edition == Some(e)
                              && cycles[c].status in {CycleActive, Finalizing};
      ghost var all := children;
      while children != {}
        invariant children <= all && cycles.Keys == old(cycles.Keys)
        invariant forall c :: c in cycles ==>
                    cycles[c] == if c in all - children then old(cycles)[c].(status := Finalizing) else old(cycles)[c]
        decreases children
      {
        var c :| c in children;
        children := children - {c};
        cycles := cycles[c := cycles[c].(status := Finalizing)];
      }
    }

    // process_edition_transitions(): flip the due edition, stop its cycles one by one, and
    // unless paused open the next edition on the same grid boundary.
    method ProcessEditionTransitions(now: int, period: nat, paused: bool, newEdition: nat,
                                     newCycles: map<nat, nat>) returns (due: Option<nat>)
      modifies this`cycles, this`editions
      ensures due.None? ==>
                && Contents() == old(Contents())
                && forall e :: e in editions && editions[e].status == EditionActive ==> now < editions[e].endsAt
      ensures due.Some? ==>
                && due.value in old(editions) && old(editions)[due.value].status == EditionActive
                && old(editions)[due.value].endsAt <= now
                && forall f :: f in old(editions) && old(editions)[f].status == EditionActive ==>
                     old(editions)[due.value].endsAt <= old(editions)[f].endsAt
      ensures due.Some? ==>
                && IsDue(old(Contents()), now, due.value)
                && Contents() == FlipEdition(old(Contents()), due.value, period, paused, newEdition, newCycles)
      ensures due.Some? && newEdition !in old(editions) && newCycles.Keys !! old(cycles).Keys ==>
                && editions.Keys == old(editions).Keys + (if paused then {} else {newEdition})
                && cycles.Keys == old(cycles).Keys + (if paused then {} else newCycles.Keys)
                && (!paused ==> editions[newEdition]
                                == Edition(EditionActive, false, old(editions)[due.value].endsAt + period))
                && (!paused ==> forall c :: c in newCycles ==> cycles[c] == Cycle(Some(newEdition), newCycles[c], CycleActive))
                && (forall f :: f in old(editions) && f != due.value ==> editions[f] == old(editions)[f])
                && (forall c :: c in old(cycles) && old(cycles)[c].edition != due ==> cycles[c] == old(cycles)[c])
    {
      due := FindDueEdition(now);
      if due.None? {
        return;
      }
      ghost var before := Contents();
      FlipAndOpen(due.value, period, paused, newEdition, newCycles);
      if newEdition !in before.editions && newCycles.Keys !! before.cycles.Keys {
        FlipRows(before, due.value, period, paused, newEdition, newCycles);
      }
    }

    // Steps (a) to (c) for the edition found due.
    method FlipAndOpen(e: nat, period: nat, paused: bool, newEdition: nat, newCycles: map<nat, nat>)
      requires e in editions
      modifies this`cycles, this`editions
      ensures Contents() == FlipEdition(old(Contents()), e, period, paused, newEdition, newCycles)
    {
      var endsAt := editions[e].endsAt;
      StopChildCycles(e);
      editions := editions[e := editions[e].(status := AwaitingResults)];
      if !paused {
        editions := editions[newEdition := Edition(EditionActive, false, endsAt + period)];
        cycles := map c | c in cycles.Keys + newCycles.Keys ::
          if c in newCycles then Cycle(Some(newEdition), newCycles[c], CycleActive) else cycles[c];
      }
    }
  }
}
