// Any number of outbox pollers against the tournament tables. A poller's transaction holds
// FOR UPDATE SKIP LOCKED row locks from its first SELECT until it commits or dies, and its
// writes stay invisible to everybody else until the commit. All other writers (submissions,
// verdicts, the cron function, the first edition) are one transaction, hence one step, each.
module TournamentPollers {
  import opened TournamentTables

  // ---- A transaction's uncommitted writes, and what the transaction itself sees ----

  datatype Writes = Writes(announced: set<nat>, finished: set<nat>,
                           inserted: map<nat, Transition>, marked: set<nat>)

  const NO_WRITES := Writes({}, {}, map[], {})

  function ViewEdition(d: Edition, e: nat, w: Writes): Edition {
    d.(status := if e in w.finished then EditionCompleted else d.status,
       startAnnounced := d.startAnnounced || e in w.announced)
  }

  function ViewCycle(c: Cycle, w: Writes): Cycle {
    if c.edition.Some? && c.edition.value in w.finished then c.(status := CycleCompleted) else c
  }

  function ViewRow(db: Db, w: Writes, r: nat): Transition
    requires r in db.outbox || r in w.inserted
  {
    var t := if r in w.inserted then w.inserted[r] else db.outbox[r];
    if r in w.marked then t.(published := true) else t
  }

  // READ COMMITTED: the committed tables with the transaction's own writes on top.
  function View(db: Db, w: Writes): Db {
    Db(map e | e in db.editions :: ViewEdition(db.editions[e], e, w),
       map c | c in db.cycles :: ViewCycle(db.cycles[c], w),
       db.runs,
       map r | r in db.outbox.Keys + w.inserted.Keys :: ViewRow(db, w, r))
  }

  // The writes of one pass through the poller's edition loop.
  function Record(w: Writes, e: nat, d: Decision, rowId: nat): Writes {
    match d
    case AnnounceStart => w.(announced := w.announced + {e})
    case CombinedResults => w.(finished := w.finished + {e})
    case DeferredResults => w.(finished := w.finished + {e},
                               inserted := w.inserted[rowId := Transition(e, EditionResults, false)])
    case Wait => w
  }

  lemma ViewInflight(db: Db, w: Writes, e: nat)
    requires e !in w.finished
    ensures Inflight(View(db, w), e) == Inflight(db, e)
  {
  }

  // Recording the writes and executing the statements are the same thing, seen from inside.
  lemma RecordIsProcess(db: Db, w: Writes, e: nat, announced: bool, rowId: nat)
    requires e in db.editions && e !in w.announced + w.finished
    requires rowId !in db.outbox && rowId !in w.inserted && rowId !in w.marked
    ensures View(db, Record(w, e, Decide(announced, |Inflight(db, e)|), rowId))
            == ProcessEdition(View(db, w), e, announced, rowId)
  {
    ViewInflight(db, w, e);
    RecordIsApply(db, w, e, Decide(announced, |Inflight(db, e)|), rowId);
  }

  lemma RecordIsApply(db: Db, w: Writes, e: nat, d: Decision, rowId: nat)
    requires e in db.editions && e !in w.announced + w.finished
    requires rowId !in db.outbox && rowId !in w.inserted && rowId !in w.marked
    ensures View(db, Record(w, e, d, rowId)) == ApplyDecision(View(db, w), e, d, rowId)
  {
    match d
    case AnnounceStart => ViewAnnounced(db, w, e);
    case CombinedResults => ViewFinished(db, w, e);
    case DeferredResults =>
      var t := Transition(e, EditionResults, false);
      ViewInserted(db, w, rowId, t);
      ViewFinished(db, w.(inserted := w.inserted[rowId := t]), e);
    case Wait =>
  }

  lemma ViewInserted(db: Db, w: Writes, rowId: nat, t: Transition)
    requires rowId !in w.marked
    ensures View(db, w.(inserted := w.inserted[rowId := t]))
            == View(db, w).(outbox := View(db, w).outbox[rowId := t])
  {
    var w' := w.(inserted := w.inserted[rowId := t]);
    assert View(db, w').editions == View(db, w).editions;
    assert View(db, w').cycles == View(db, w).cycles;
    assert View(db, w').outbox == View(db, w).outbox[rowId := t];
  }

  lemma ViewAnnounced(db: Db, w: Writes, e: nat)
    requires e in db.editions
    ensures View(db, w.(announced := w.announced + {e})) == MarkStartAnnounced(View(db, w), e)
  {
    assert View(db, w.(announced := w.announced + {e})).editions == MarkStartAnnounced(View(db, w), e).editions;
  }

  lemma ViewFinished(db: Db, w: Writes, e: nat)
    requires e in db.editions
    ensures View(db, w.(finished := w.finished + {e})) == CompleteEdition(View(db, w), e)
  {
    var after, run := View(db, w.(finished := w.finished + {e})), CompleteEdition(View(db, w), e);
    assert after.editions == run.editions;
    assert after.cycles == run.cycles;
  }

  // ---- The system ----

  datatype Message = StartCard(edition: nat) | ResultsCard(edition: nat) | RowEvent(row: nat)

  // The publish loop's progress on one locked outbox row.
  datatype RowWork = Todo | Sent | Done

  datatype Tx = Tx(locked: map<nat, bool>,     // locked editions with start_announced as fetched
                   todo: set<nat>,             // editions the loop has not reached
                   writes: Writes,
                   rows: map<nat, RowWork>,    // locked outbox rows
                   fetched: bool)              // fetch_unpublished_transitions has run

  // answered counts the True results of mark_transition_published, lost those of them
  // whose transaction rolled back; sent is what the broker has received.
  datatype System = System(db: Db, pollers: map<nat, Tx>, nextRow: nat,
                           sent: multiset<Message>, answered: multiset<nat>, lost: multiset<nat>)

  const START := System(EMPTY, map[], 0, multiset{}, multiset{}, multiset{})

  datatype Step =
    | Submit(run: nat, user: nat, mapId: nat, cycle: nat)
    | Verdict(run: nat, verified: bool)
    | Cron(now: int, period: nat, paused: bool, due: nat, newEdition: nat, newCycles: map<nat, nat>)
    | Bootstrap(newEdition: nat, endsAt: int, newCycles: map<nat, nat>)
    | Begin(p: nat)
    | Process(p: nat, e: nat)
    | FetchRows(p: nat)
    | Send(p: nat, r: nat)
    | Mark(p: nat, r: nat)
    | Commit(p: nat)
    | Crash(p: nat)

  ghost predicate Enabled(s: System, step: Step) {
    match step
    case Submit(run, user, mapId, cycle) =>
      run !in s.db.runs && ActiveOn(s.db, cycle, mapId)
    case Verdict(run, verified) => true
    case Cron(now, period, paused, due, newEdition, newCycles) =>
      IsDue(s.db, now, due) && newEdition !in s.db.editions && newCycles.Keys !! s.db.cycles.Keys
    case Bootstrap(newEdition, endsAt, newCycles) =>
      && (forall e :: e in s.db.editions ==> s.db.editions[e].status != EditionActive)
      && newEdition !in s.db.editions && newCycles.Keys !! s.db.cycles.Keys
    case Begin(p) => p !in s.pollers
    case Process(p, e) => p in s.pollers && e in s.pollers[p].todo && e in s.pollers[p].locked
    case FetchRows(p) => p in s.pollers && s.pollers[p].todo == {} && !s.pollers[p].fetched
    case Send(p, r) => p in s.pollers && r in s.pollers[p].rows && s.pollers[p].rows[r] == Todo
    case Mark(p, r) => p in s.pollers && r in s.pollers[p].rows && s.pollers[p].rows[r] == Sent
    case Commit(p) => p in s.pollers && s.pollers[p].fetched
                      && forall r :: r in s.pollers[p].rows ==> s.pollers[p].rows[r] == Done
    case Crash(p) => p in s.pollers
  }

  // Awaiting editions that no transaction has locked.
  function Lockable(s: System): set<nat> {
    set e | e in Awaiting(s.db) && forall q :: q in s.pollers ==> e !in s.pollers[q].locked
  }

  // Unpublished rows p can see and nobody has locked.
  function LockableRows(s: System, p: nat): set<nat>
    requires p in s.pollers
  {
    set r | r in Unpublished(View(s.db, s.pollers[p].writes))
            && forall q :: q in s.pollers ==> r !in s.pollers[q].rows
  }

  function CardFor(e: nat, d: Decision): multiset<Message> {
    match d
    case AnnounceStart => multiset{StartCard(e)}
    case CombinedResults => multiset{ResultsCard(e)}
    case DeferredResults => multiset{}
    case Wait => multiset{}
  }

  // BEGIN and fetch_awaiting_results_editions.
  function AfterBegin(s: System, p: nat): System {
    s.(pollers := s.pollers[p := Tx(map e | e in Lockable(s) :: s.db.editions[e].startAnnounced,
                                    Lockable(s), NO_WRITES, map[], false)])
  }

  function AfterProcess(s: System, p: nat, e: nat, d: Decision): System
    requires p in s.pollers
  {
    var tx := s.pollers[p];
    s.(pollers := s.pollers[p := tx.(todo := tx.todo - {e}, writes := Record(tx.writes, e, d, s.nextRow))],
       nextRow := if d == DeferredResults then s.nextRow + 1 else s.nextRow,
       sent := s.sent + CardFor(e, d))
  }

  function AfterFetchRows(s: System, p: nat): System
    requires p in s.pollers
  {
    s.(pollers := s.pollers[p := s.pollers[p].(rows := map r | r in LockableRows(s, p) :: Todo, fetched := true)])
  }

  function AfterSend(s: System, p: nat, r: nat): System
    requires p in s.pollers
  {
    s.(pollers := s.pollers[p := s.pollers[p].(rows := s.pollers[p].rows[r := Sent])],
       sent := s.sent + multiset{RowEvent(r)})
  }

  // The guarded UPDATE answers True when it changed the row.
  function AfterMark(s: System, p: nat, r: nat): System
    requires p in s.pollers
  {
    var tx := s.pollers[p];
    s.(pollers := s.pollers[p := tx.(rows := tx.rows[r := Done],
                                     writes := tx.writes.(marked := tx.writes.marked + {r}))],
       answered := if r in Unpublished(View(s.db, tx.writes)) then s.answered + multiset{r} else s.answered)
  }

  function AfterCommit(s: System, p: nat): System
    requires p in s.pollers
  {
    s.(db := View(s.db, s.pollers[p].writes), pollers := s.pollers - {p})
  }

  ghost function Next(s: System, step: Step): System
    requires Enabled(s, step)
  {
    match step
    case Submit(run, user, mapId, cycle) => s.(db := AddRun(s.db, run, user, cycle))
    case Verdict(run, verified) => s.(db := SetVerdict(s.db, run, verified))
    case Cron(now, period, paused, due, newEdition, newCycles) =>
      s.(db := FlipEdition(s.db, due, period, paused, newEdition, newCycles))
    case Bootstrap(newEdition, endsAt, newCycles) =>
      var next := OpenEdition(s.db, newEdition, endsAt, newCycles);
      s.(db := next.(outbox := next.outbox[s.nextRow := Transition(newEdition, EditionRollover, false)]),
         nextRow := s.nextRow + 1)
    case Begin(p) => AfterBegin(s, p)
    case Process(p, e) =>
      AfterProcess(s, p, e, Decide(s.pollers[p].locked[e], |Inflight(View(s.db, s.pollers[p].writes), e)|))
    case FetchRows(p) => AfterFetchRows(s, p)
    case Send(p, r) => AfterSend(s, p, r)
    case Mark(p, r) => AfterMark(s, p, r)
    case Commit(p) => AfterCommit(s, p)
    case Crash(p) => s.(pollers := s.pollers - {p}, lost := s.lost + multiset(s.pollers[p].writes.marked))
  }

  // ---- The invariant ----

  ghost predicate LocksHeld(db: Db, tx: Tx) {
    && tx.todo <= tx.locked.Keys
    && (forall e :: e in tx.locked ==> e in db.editions && db.editions[e].status == AwaitingResults
                                       && tx.locked[e] == db.editions[e].startAnnounced)
    && (forall r :: r in tx.rows ==> r in tx.writes.inserted || (r in db.outbox && !db.outbox[r].published))
    && (if tx.fetched then tx.todo == {} else tx.rows == map[])
  }

  ghost predicate EditionWritesOk(db: Db, tx: Tx) {
    var w := tx.writes;
    && w.announced !! w.finished && w.announced + w.finished <= tx.locked.Keys - tx.todo
    && (forall e :: e in w.announced ==> !tx.locked[e])
    && (forall e :: e in w.finished ==> Inflight(db, e) == {})
  }

  ghost predicate InsertedRowOk(db: Db, tx: Tx, r: nat, nextRow: nat) {
    var w := tx.writes;
    r in w.inserted ==>
      && r < nextRow && r !in db.outbox && !w.inserted[r].published && w.inserted[r].kind == EditionResults
      && w.inserted[r].edition in w.finished && w.inserted[r].edition in tx.locked && tx.locked[w.inserted[r].edition]
  }

  ghost predicate Inserts(w: Writes, r: nat, e: nat) {
    r in w.inserted && w.inserted[r].edition == e
  }

  ghost predicate InsertedOk(db: Db, tx: Tx, nextRow: nat) {
    var w := tx.writes;
    && (forall r :: InsertedRowOk(db, tx, r, nextRow))
    && (forall q, r, e :: Inserts(w, q, e) && Inserts(w, r, e) ==> q == r)
    && (forall e :: e in w.finished && e in tx.locked && tx.locked[e] ==> exists r :: Inserts(w, r, e))
  }

  ghost predicate RowsOk(tx: Tx, sent: multiset<Message>) {
    && (forall r :: r in tx.writes.marked <==> r in tx.rows && tx.rows[r] == Done)
    && (forall r :: r in tx.rows && tx.rows[r] != Todo ==> RowEvent(r) in sent)
  }

  ghost predicate TxOk(db: Db, tx: Tx, nextRow: nat, sent: multiset<Message>) {
    LocksHeld(db, tx) && EditionWritesOk(db, tx) && InsertedOk(db, tx, nextRow) && RowsOk(tx, sent)
  }

  // SKIP LOCKED: no row of either table is held twice, nor inserted twice.
  ghost predicate Apart(t: Tx, u: Tx) {
    && t.locked.Keys !! u.locked.Keys && t.rows.Keys !! u.rows.Keys
    && t.writes.inserted.Keys !! u.writes.inserted.Keys
    && t.rows.Keys !! u.writes.inserted.Keys && u.rows.Keys !! t.writes.inserted.Keys
  }

  ghost predicate AllTxOk(s: System) {
    forall p :: p in s.pollers ==> TxOk(s.db, s.pollers[p], s.nextRow, s.sent)
  }

  ghost predicate AllApart(pollers: map<nat, Tx>) {
    forall p, q :: p in pollers && q in pollers && p != q ==> Apart(pollers[p], pollers[q])
  }

  ghost predicate MarkedInFlight(pollers: map<nat, Tx>, r: nat) {
    exists p :: p in pollers && r in pollers[p].writes.marked
  }

  function IsPublished(db: Db, r: nat): nat {
    if r in db.outbox && db.outbox[r].published then 1 else 0
  }

  ghost function InFlightMarks(pollers: map<nat, Tx>, r: nat): nat {
    if MarkedInFlight(pollers, r) then 1 else 0
  }

  // Every True answer is a published row, or rolled back, or not committed yet.
  ghost predicate Accounted(s: System, r: nat) {
    s.answered[r] == IsPublished(s.db, r) + s.lost[r] + InFlightMarks(s.pollers, r)
  }

  ghost predicate AnswersAccounted(s: System) {
    forall r: nat :: Accounted(s, r)
  }

  ghost predicate OutboxOk(s: System) {
    forall r :: r in s.db.outbox ==> r < s.nextRow && (s.db.outbox[r].published ==> RowEvent(r) in s.sent)
  }

  ghost predicate Inv(s: System) {
    Integrity(s.db) && OutboxOk(s) && AllTxOk(s) && AllApart(s.pollers) && AnswersAccounted(s)
  }

  // ---- Steps of other writers ----

  // A transaction does not notice changes outside the rows it has locked.
  ghost predicate Undisturbed(db: Db, db': Db, tx: Tx) {
    && (forall e :: e in tx.locked && e in db.editions ==>
          e in db'.editions && db'.editions[e] == db.editions[e] && Inflight(db', e) <= Inflight(db, e))
    && (forall r :: r in tx.rows && r in db.outbox ==> r in db'.outbox && db'.outbox[r] == db.outbox[r])
    && (forall r :: r in tx.writes.inserted ==> r !in db'.outbox)
  }

  lemma Frame(db: Db, db': Db, tx: Tx, nextRow: nat, nextRow': nat, sent: multiset<Message>)
    requires TxOk(db, tx, nextRow, sent) && Undisturbed(db, db', tx) && nextRow <= nextRow'
    ensures TxOk(db', tx, nextRow', sent)
  {
    forall e | e in tx.writes.finished ensures Inflight(db', e) == {} {
      assert e in tx.locked;
    }
    forall r ensures InsertedRowOk(db', tx, r, nextRow') {
      assert InsertedRowOk(db, tx, r, nextRow);
    }
  }

  // An awaiting edition is out of everybody's reach but its poller's: its own row stays, and
  // nothing starts pending on its cycles.
  ghost predicate AwaitingUntouched(db: Db, db': Db) {
    forall e :: e in db.editions && db.editions[e].status == AwaitingResults ==>
      e in db'.editions && db'.editions[e] == db.editions[e] && Inflight(db', e) <= Inflight(db, e)
  }

  ghost predicate OutboxGrows(db: Db, db': Db, nextRow: nat) {
    && (forall r :: r in db.outbox ==> r in db'.outbox && db'.outbox[r] == db.outbox[r])
    && (forall r :: r in db'.outbox && r !in db.outbox ==> r == nextRow && !db'.outbox[r].published)
  }

  lemma OtherWriter(s: System, s': System)
    requires Inv(s) && Integrity(s'.db)
    requires s' == s.(db := s'.db, nextRow := s'.nextRow) && s.nextRow <= s'.nextRow
    requires AwaitingUntouched(s.db, s'.db) && OutboxGrows(s.db, s'.db, s.nextRow)
    requires s.nextRow in s'.db.outbox ==> s.nextRow < s'.nextRow
    ensures Inv(s')
  {
    forall p | p in s'.pollers ensures TxOk(s'.db, s'.pollers[p], s'.nextRow, s'.sent) {
      var tx := s.pollers[p];
      assert TxOk(s.db, tx, s.nextRow, s.sent);
      forall r | r in tx.writes.inserted ensures r !in s'.db.outbox {
        assert InsertedRowOk(s.db, tx, r, s.nextRow);
      }
      Frame(s.db, s'.db, tx, s.nextRow, s'.nextRow, s.sent);
    }
    forall r: nat ensures Accounted(s', r) {
      assert Accounted(s, r);
      assert IsPublished(s'.db, r) == IsPublished(s.db, r);
    }
  }

  // What is in flight on e cannot grow unless a pending run or an open child cycle of e appears.
  lemma InflightShrinks(db: Db, db': Db, e: nat)
    requires forall r :: r in Inflight(db', e) ==> r in db.runs && db.runs[r] == db'.runs[r]
    requires forall c :: ChildOf(db', c, e) && db'.cycles[c].status in {CycleActive, Finalizing} ==>
               ChildOf(db, c, e) && db.cycles[c].status in {CycleActive, Finalizing}
    ensures Inflight(db', e) <= Inflight(db, e)
  {
  }

  lemma SameResultsRows(db: Db, db': Db)
    requires ResultsRowsExact(db)
    requires forall r, e :: IsResultsRow(db', r, e) <==> IsResultsRow(db, r, e)
    requires forall e :: e in db.editions && (db.editions[e].status == EditionCompleted)
               ==> e in db'.editions && db'.editions[e] == db.editions[e]
    requires forall e :: e in db'.editions && (db'.editions[e].status == EditionCompleted)
               ==> e in db.editions && db'.editions[e] == db.editions[e]
    ensures ResultsRowsExact(db')
  {
    forall e | e in db'.editions && db'.editions[e].status == EditionCompleted && db'.editions[e].startAnnounced
      ensures exists r :: IsResultsRow(db', r, e)
    {
      var r :| IsResultsRow(db, r, e);
      assert IsResultsRow(db', r, e);
    }
  }

  lemma SubmitTables(db: Db, run: nat, user: nat, cycle: nat)
    requires Integrity(db) && run !in db.runs && cycle in db.cycles && db.cycles[cycle].status == CycleActive
    ensures var db' := AddRun(db, run, user, cycle);
            Integrity(db') && AwaitingUntouched(db, db')
  {
    var db' := AddRun(db, run, user, cycle);
    SameResultsRows(db, db');
    forall e | e in db.editions && db.editions[e].status == AwaitingResults
      ensures Inflight(db', e) <= Inflight(db, e)
    {
      assert !ChildOf(db, cycle, e);
      InflightShrinks(db, db', e);
    }
  }

  lemma VerdictTables(db: Db, r: nat, verified: bool)
    requires Integrity(db)
    ensures Integrity(SetVerdict(db, r, verified)) && AwaitingUntouched(db, SetVerdict(db, r, verified))
  {
    var db' := SetVerdict(db, r, verified);
    SameResultsRows(db, db');
    forall e ensures Inflight(db', e) <= Inflight(db, e) {
      InflightShrinks(db, db', e);
    }
  }

  lemma FlipIntegrity(db: Db, due: nat)
    requires Integrity(db) && due in db.editions && db.editions[due].status == EditionActive
    ensures Integrity(FlipDue(db, due))
  {
    SameResultsRows(db, FlipDue(db, due));
  }

  lemma FlipUntouched(db: Db, due: nat)
    requires due in db.editions && db.editions[due].status == EditionActive
    ensures AwaitingUntouched(db, FlipDue(db, due))
  {
    var db' := FlipDue(db, due);
    forall e | e in db.editions && db.editions[e].status == AwaitingResults
      ensures Inflight(db', e) <= Inflight(db, e)
    {
      InflightShrinks(db, db', e);
    }
  }

  lemma OpenIntegrity(db: Db, e: nat, endsAt: int, cycles: map<nat, nat>)
    requires Integrity(db) && e !in db.editions && cycles.Keys !! db.cycles.Keys
    ensures Integrity(OpenEdition(db, e, endsAt, cycles))
  {
    SameResultsRows(db, OpenEdition(db, e, endsAt, cycles));
  }

  lemma OpenUntouched(db: Db, e: nat, endsAt: int, cycles: map<nat, nat>)
    requires e !in db.editions && cycles.Keys !! db.cycles.Keys
    ensures AwaitingUntouched(db, OpenEdition(db, e, endsAt, cycles))
  {
    var db' := OpenEdition(db, e, endsAt, cycles);
    forall f | f in db.editions && db.editions[f].status == AwaitingResults
      ensures Inflight(db', f) <= Inflight(db, f)
    {
      InflightShrinks(db, db', f);
    }
  }

  lemma AwaitingUntouchedTrans(a: Db, b: Db, c: Db)
    requires AwaitingUntouched(a, b) && AwaitingUntouched(b, c)
    ensures AwaitingUntouched(a, c)
  {
    forall e | e in a.editions && a.editions[e].status == AwaitingResults
      ensures e in c.editions && c.editions[e] == a.editions[e] && Inflight(c, e) <= Inflight(a, e)
    {
      assert Inflight(c, e) <= Inflight(b, e) <= Inflight(a, e);
    }
  }

  lemma KeepSubmit(s: System, step: Step)
    requires Inv(s) && Enabled(s, step) && step.Submit?
    ensures Inv(Next(s, step)) && AwaitingUntouched(s.db, Next(s, step).db)
  {
    SubmitTables(s.db, step.run, step.user, step.cycle);
    OtherWriter(s, Next(s, step));
  }

  lemma KeepVerdict(s: System, step: Step)
    requires Inv(s) && Enabled(s, step) && step.Verdict?
    ensures Inv(Next(s, step)) && AwaitingUntouched(s.db, Next(s, step).db)
  {
    VerdictTables(s.db, step.run, step.verified);
    OtherWriter(s, Next(s, step));
  }

  lemma CronTables(db: Db, due: nat, period: nat, paused: bool, newEdition: nat, newCycles: map<nat, nat>)
    requires Integrity(db) && due in db.editions && db.editions[due].status == EditionActive
    requires newEdition !in db.editions && newCycles.Keys !! db.cycles.Keys
    ensures var db' := FlipEdition(db, due, period, paused, newEdition, newCycles);
            Integrity(db') && AwaitingUntouched(db, db') && db'.outbox == db.outbox
  {
    FlipIntegrity(db, due);
    CronUntouched(db, due, period, paused, newEdition, newCycles);
    if !paused {
      OpenIntegrity(FlipDue(db, due), newEdition, db.editions[due].endsAt + period, newCycles);
    }
  }

  lemma CronUntouched(db: Db, due: nat, period: nat, paused: bool, newEdition: nat, newCycles: map<nat, nat>)
    requires due in db.editions && db.editions[due].status == EditionActive
    requires newEdition !in db.editions && newCycles.Keys !! db.cycles.Keys
    ensures AwaitingUntouched(db, FlipEdition(db, due, period, paused, newEdition, newCycles))
  {
    FlipUntouched(db, due);
    if !paused {
      var flipped := FlipDue(db, due);
      OpenUntouched(flipped, newEdition, db.editions[due].endsAt + period, newCycles);
      AwaitingUntouchedTrans(db, flipped, FlipEdition(db, due, period, paused, newEdition, newCycles));
    }
  }

  lemma KeepCron(s: System, step: Step)
    requires Inv(s) && Enabled(s, step) && step.Cron?
    ensures Inv(Next(s, step)) && AwaitingUntouched(s.db, Next(s, step).db)
  {
    CronTables(s.db, step.due, step.period, step.paused, step.newEdition, step.newCycles);
    OtherWriter(s, Next(s, step));
  }

  lemma BootstrapTables(db: Db, e: nat, endsAt: int, cycles: map<nat, nat>, row: nat)
    requires Integrity(db) && e !in db.editions && cycles.Keys !! db.cycles.Keys && row !in db.outbox
    ensures var next := OpenEdition(db, e, endsAt, cycles);
            var db' := next.(outbox := next.outbox[row := Transition(e, EditionRollover, false)]);
            Integrity(db') && AwaitingUntouched(db, db')
  {
    OpenIntegrity(db, e, endsAt, cycles);
    OpenUntouched(db, e, endsAt, cycles);
    var next := OpenEdition(db, e, endsAt, cycles);
    var db' := next.(outbox := next.outbox[row := Transition(e, EditionRollover, false)]);
    SameResultsRows(next, db');
    forall f ensures Inflight(db', f) == Inflight(next, f) {
    }
  }

  lemma KeepBootstrap(s: System, step: Step)
    requires Inv(s) && Enabled(s, step) && step.Bootstrap?
    ensures Inv(Next(s, step)) && AwaitingUntouched(s.db, Next(s, step).db)
  {
    BootstrapTables(s.db, step.newEdition, step.endsAt, step.newCycles, s.nextRow);
    OtherWriter(s, Next(s, step));
  }

  // ---- Steps inside one transaction ----

  lemma Later(db: Db, tx: Tx, nextRow: nat, nextRow': nat, sent: multiset<Message>, sent': multiset<Message>)
    requires TxOk(db, tx, nextRow, sent) && nextRow <= nextRow' && sent <= sent'
    ensures TxOk(db, tx, nextRow', sent')
  {
    forall r ensures InsertedRowOk(db, tx, r, nextRow') {
      assert InsertedRowOk(db, tx, r, nextRow);
    }
  }

  lemma LocalMarks(pollers: map<nat, Tx>, p: nat, tx': Tx, marks: set<nat>, r: nat)
    requires tx'.writes.marked == (if p in pollers then pollers[p].writes.marked else {}) + marks
    requires r in marks ==> !MarkedInFlight(pollers, r)
    ensures InFlightMarks(pollers[p := tx'], r) == InFlightMarks(pollers, r) + multiset(marks)[r]
  {
    var pollers' := pollers[p := tx'];
    if MarkedInFlight(pollers, r) {
      var q :| q in pollers && r in pollers[q].writes.marked;
      assert q in pollers' && r in pollers'[q].writes.marked;
    } else if r in marks {
      assert r in pollers'[p].writes.marked;
    }
  }

  lemma LocalApart(pollers: map<nat, Tx>, p: nat, tx': Tx)
    requires AllApart(pollers)
    requires forall q :: q in pollers && q != p ==> Apart(pollers[q], tx')
    ensures AllApart(pollers[p := tx'])
  {
    var pollers' := pollers[p := tx'];
    forall q, r | q in pollers' && r in pollers' && q != r ensures Apart(pollers'[q], pollers'[r]) {
      if q == p {
        assert Apart(pollers[r], tx');
      } else if r == p {
        assert Apart(pollers[q], tx');
      }
    }
  }

  // The rest of the system does not see a transaction move.
  lemma LocalStep(s: System, s': System, p: nat, tx': Tx, marks: set<nat>)
    requires Inv(s) && s'.pollers == s.pollers[p := tx']
    requires s'.db == s.db && s.nextRow <= s'.nextRow && s.sent <= s'.sent && s'.lost == s.lost
    requires TxOk(s.db, tx', s'.nextRow, s'.sent)
    requires forall q :: q in s.pollers && q != p ==> Apart(s.pollers[q], tx')
    requires tx'.writes.marked == (if p in s.pollers then s.pollers[p].writes.marked else {}) + marks
    requires s'.answered == s.answered + multiset(marks)
    requires forall r :: r in marks ==> !MarkedInFlight(s.pollers, r)
    ensures Inv(s')
  {
    LocalApart(s.pollers, p, tx');
    LocalTxs(s, s', p, tx');
    assert AnswersAccounted(s') by {
      forall r: nat ensures Accounted(s', r) {
        assert Accounted(s, r);
        LocalMarks(s.pollers, p, tx', marks, r);
      }
    }
  }

  lemma LocalTxs(s: System, s': System, p: nat, tx': Tx)
    requires AllTxOk(s) && s'.pollers == s.pollers[p := tx']
    requires s'.db == s.db && s.nextRow <= s'.nextRow && s.sent <= s'.sent
    requires TxOk(s.db, tx', s'.nextRow, s'.sent)
    ensures AllTxOk(s')
  {
    forall q | q in s'.pollers ensures TxOk(s'.db, s'.pollers[q], s'.nextRow, s'.sent) {
      if q != p {
        assert TxOk(s.db, s.pollers[q], s.nextRow, s.sent);
        Later(s.db, s.pollers[q], s.nextRow, s'.nextRow, s.sent, s'.sent);
      }
    }
  }

  // A transaction that marks nothing.
  lemma QuietStep(s: System, s': System, p: nat, tx': Tx)
    requires Inv(s) && s'.pollers == s.pollers[p := tx'] && s'.db == s.db && s.nextRow <= s'.nextRow
    requires s.sent <= s'.sent && s'.lost == s.lost && s'.answered == s.answered
    requires TxOk(s.db, tx', s'.nextRow, s'.sent)
    requires forall q :: q in s.pollers && q != p ==> Apart(s.pollers[q], tx')
    requires tx'.writes.marked == if p in s.pollers then s.pollers[p].writes.marked else {}
    ensures Inv(s')
  {
    var none: set<nat> := {};
    assert s.answered + multiset(none) == s.answered && tx'.writes.marked + none == tx'.writes.marked;
    LocalStep(s, s', p, tx', none);
  }

  lemma BeginOk(s: System, p: nat)
    requires p !in s.pollers
    ensures var tx := AfterBegin(s, p).pollers[p];
            TxOk(s.db, tx, s.nextRow, s.sent) && forall q :: q in s.pollers ==> Apart(s.pollers[q], tx)
  {
  }

  lemma KeepBegin(s: System, p: nat)
    requires Inv(s) && p !in s.pollers
    ensures Inv(AfterBegin(s, p))
  {
    BeginOk(s, p);
    QuietStep(s, AfterBegin(s, p), p, AfterBegin(s, p).pollers[p]);
  }

  lemma ProcessOk(db: Db, tx: Tx, e: nat, nextRow: nat, sent: multiset<Message>, d: Decision)
    requires TxOk(db, tx, nextRow, sent) && e in tx.todo && e in tx.locked
    requires d == Decide(tx.locked[e], |Inflight(db, e)|)
    requires forall r :: r in db.outbox ==> r < nextRow
    ensures TxOk(db, tx.(todo := tx.todo - {e}, writes := Record(tx.writes, e, d, nextRow)),
                 if d == DeferredResults then nextRow + 1 else nextRow, sent)
  {
    var tx' := tx.(todo := tx.todo - {e}, writes := Record(tx.writes, e, d, nextRow));
    var w, w' := tx.writes, tx'.writes;
    var nextRow' := if d == DeferredResults then nextRow + 1 else nextRow;
    forall r ensures InsertedRowOk(db, tx', r, nextRow') {
      assert InsertedRowOk(db, tx, r, nextRow);
    }
    forall q, r, f | Inserts(w', q, f) && Inserts(w', r, f) ensures q == r {
      assert InsertedRowOk(db, tx, q, nextRow) && InsertedRowOk(db, tx, r, nextRow);
      assert q in w.inserted && r in w.inserted ==> Inserts(w, q, f) && Inserts(w, r, f);
    }
    forall f | f in w'.finished && f in tx'.locked && tx'.locked[f] ensures exists r :: Inserts(w', r, f) {
      if f == e {
        assert Inserts(w', nextRow, f);
      } else {
        var r :| Inserts(w, r, f);
        assert InsertedRowOk(db, tx, r, nextRow);
        assert Inserts(w', r, f);
      }
    }
  }

  lemma ApartWith(u: Tx, tx: Tx, tx': Tx, row: nat)
    requires Apart(u, tx) && tx'.locked == tx.locked && tx'.rows.Keys == tx.rows.Keys
    requires tx'.writes.inserted.Keys <= tx.writes.inserted.Keys + {row}
    requires row !in u.writes.inserted && row !in u.rows
    ensures Apart(u, tx')
  {
  }

  lemma ProcessApart(s: System, p: nat, tx': Tx)
    requires AllTxOk(s) && AllApart(s.pollers) && OutboxOk(s) && p in s.pollers
    requires tx'.locked == s.pollers[p].locked && tx'.rows == s.pollers[p].rows
    requires tx'.writes.inserted.Keys <= s.pollers[p].writes.inserted.Keys + {s.nextRow}
    ensures forall q :: q in s.pollers && q != p ==> Apart(s.pollers[q], tx')
  {
    forall q | q in s.pollers && q != p ensures Apart(s.pollers[q], tx') {
      assert TxOk(s.db, s.pollers[q], s.nextRow, s.sent) && Apart(s.pollers[q], s.pollers[p]);
      FreshRow(s.db, s.pollers[q], s.nextRow, s.sent);
      ApartWith(s.pollers[q], s.pollers[p], tx', s.nextRow);
    }
  }

  lemma ProcessedShape(s: System, p: nat, e: nat, d: Decision)
    requires p in s.pollers
    ensures var s', tx := AfterProcess(s, p, e, d), s.pollers[p];
            && p in s'.pollers && s'.pollers == s.pollers[p := s'.pollers[p]] && s'.db == s.db && s'.lost == s.lost
            && s'.answered == s.answered && s'.pollers[p].locked == tx.locked && s'.pollers[p].rows == tx.rows
            && s'.pollers[p].writes.marked == tx.writes.marked
            && s'.pollers[p].writes.inserted.Keys <= tx.writes.inserted.Keys + {s.nextRow}
  {
  }

  lemma ProcessedTxOk(s: System, p: nat, e: nat, d: Decision)
    requires AllTxOk(s) && OutboxOk(s) && p in s.pollers && e in s.pollers[p].todo && e in s.pollers[p].locked
    requires d == Decide(s.pollers[p].locked[e], |Inflight(s.db, e)|)
    ensures var s' := AfterProcess(s, p, e, d);
            s.nextRow <= s'.nextRow && s.sent <= s'.sent && TxOk(s.db, s'.pollers[p], s'.nextRow, s'.sent)
  {
    var tx, s' := s.pollers[p], AfterProcess(s, p, e, d);
    var tx' := tx.(todo := tx.todo - {e}, writes := Record(tx.writes, e, d, s.nextRow));
    assert TxOk(s.db, tx, s.nextRow, s.sent);
    ProcessOk(s.db, tx, e, s.nextRow, s.sent, d);
    Later(s.db, tx', s'.nextRow, s'.nextRow, s.sent, s'.sent);
  }

  lemma KeepProcessed(s: System, p: nat, e: nat, d: Decision)
    requires Inv(s) && p in s.pollers && e in s.pollers[p].todo && e in s.pollers[p].locked
    requires d == Decide(s.pollers[p].locked[e], |Inflight(s.db, e)|)
    ensures Inv(AfterProcess(s, p, e, d))
  {
    var s' := AfterProcess(s, p, e, d);
    var tx' := s'.pollers[p];
    ProcessedShape(s, p, e, d);
    ProcessedTxOk(s, p, e, d);
    ProcessApart(s, p, tx');
    QuietStep(s, s', p, tx');
  }

  lemma KeepProcess(s: System, p: nat, e: nat)
    requires Inv(s) && p in s.pollers && e in s.pollers[p].todo && e in s.pollers[p].locked
    ensures Inv(AfterProcess(s, p, e, Decide(s.pollers[p].locked[e], |Inflight(View(s.db, s.pollers[p].writes), e)|)))
  {
    assert TxOk(s.db, s.pollers[p], s.nextRow, s.sent);
    ViewInflight(s.db, s.pollers[p].writes, e);
    KeepProcessed(s, p, e, Decide(s.pollers[p].locked[e], |Inflight(s.db, e)|));
  }

  lemma FreshRow(db: Db, tx: Tx, nextRow: nat, sent: multiset<Message>)
    requires TxOk(db, tx, nextRow, sent) && forall r :: r in db.outbox ==> r < nextRow
    ensures nextRow !in tx.writes.inserted && nextRow !in tx.rows
  {
    assert InsertedRowOk(db, tx, nextRow, nextRow);
  }

  lemma FetchApart(s: System, p: nat)
    requires AllTxOk(s) && AllApart(s.pollers) && OutboxOk(s) && p in s.pollers
    ensures forall q :: q in s.pollers && q != p ==> Apart(s.pollers[q], AfterFetchRows(s, p).pollers[p])
  {
    var tx' := AfterFetchRows(s, p).pollers[p];
    forall q | q in s.pollers && q != p ensures Apart(s.pollers[q], tx') {
      assert Apart(s.pollers[q], s.pollers[p]) && TxOk(s.db, s.pollers[q], s.nextRow, s.sent);
      forall r | r in s.pollers[q].writes.inserted ensures r !in tx'.rows {
        assert InsertedRowOk(s.db, s.pollers[q], r, s.nextRow);
      }
    }
  }

  lemma FetchOk(s: System, p: nat)
    requires AllTxOk(s) && p in s.pollers && s.pollers[p].todo == {} && !s.pollers[p].fetched
    ensures TxOk(s.db, AfterFetchRows(s, p).pollers[p], s.nextRow, s.sent)
  {
    var tx, tx' := s.pollers[p], AfterFetchRows(s, p).pollers[p];
    assert TxOk(s.db, tx, s.nextRow, s.sent);
    forall r ensures InsertedRowOk(s.db, tx', r, s.nextRow) {
      assert InsertedRowOk(s.db, tx, r, s.nextRow);
    }
  }

  lemma KeepFetchRows(s: System, p: nat)
    requires Inv(s) && p in s.pollers && s.pollers[p].todo == {} && !s.pollers[p].fetched
    ensures Inv(AfterFetchRows(s, p))
  {
    FetchOk(s, p);
    FetchApart(s, p);
    QuietStep(s, AfterFetchRows(s, p), p, AfterFetchRows(s, p).pollers[p]);
  }

  lemma SendOk(db: Db, tx: Tx, nextRow: nat, sent: multiset<Message>, r: nat)
    requires TxOk(db, tx, nextRow, sent) && r in tx.rows && tx.rows[r] == Todo
    ensures TxOk(db, tx.(rows := tx.rows[r := Sent]), nextRow, sent + multiset{RowEvent(r)})
  {
    var tx' := tx.(rows := tx.rows[r := Sent]);
    forall x ensures InsertedRowOk(db, tx', x, nextRow) {
      assert InsertedRowOk(db, tx, x, nextRow);
    }
  }

  lemma StayApart(pollers: map<nat, Tx>, p: nat, tx': Tx)
    requires AllApart(pollers) && p in pollers && tx'.locked == pollers[p].locked
    requires tx'.rows.Keys == pollers[p].rows.Keys && tx'.writes.inserted == pollers[p].writes.inserted
    ensures forall q :: q in pollers && q != p ==> Apart(pollers[q], tx')
  {
    forall q | q in pollers && q != p ensures Apart(pollers[q], tx') {
      assert Apart(pollers[q], pollers[p]);
    }
  }

  lemma KeepSend(s: System, p: nat, r: nat)
    requires Inv(s) && p in s.pollers && r in s.pollers[p].rows && s.pollers[p].rows[r] == Todo
    ensures Inv(AfterSend(s, p, r))
  {
    var tx := s.pollers[p];
    var tx' := tx.(rows := tx.rows[r := Sent]);
    assert TxOk(s.db, tx, s.nextRow, s.sent);
    SendOk(s.db, tx, s.nextRow, s.sent, r);
    StayApart(s.pollers, p, tx');
    QuietStep(s, AfterSend(s, p, r), p, tx');
  }

  // A row that its holder has not marked is unpublished in the holder's view, so the guarded
  // UPDATE always hits it.
  lemma HeldIsUnpublished(s: System, p: nat, r: nat)
    requires Inv(s) && p in s.pollers && r in s.pollers[p].rows && s.pollers[p].rows[r] != Done
    ensures r in Unpublished(View(s.db, s.pollers[p].writes))
    ensures !MarkedInFlight(s.pollers, r)
  {
    assert TxOk(s.db, s.pollers[p], s.nextRow, s.sent);
    assert InsertedRowOk(s.db, s.pollers[p], r, s.nextRow);
    forall q | q in s.pollers ensures r !in s.pollers[q].writes.marked {
      assert TxOk(s.db, s.pollers[q], s.nextRow, s.sent);
      if q != p {
        assert Apart(s.pollers[q], s.pollers[p]);
      }
    }
  }

  lemma MarkOk(db: Db, tx: Tx, nextRow: nat, sent: multiset<Message>, r: nat)
    requires TxOk(db, tx, nextRow, sent) && r in tx.rows && tx.rows[r] == Sent
    ensures TxOk(db, tx.(rows := tx.rows[r := Done], writes := tx.writes.(marked := tx.writes.marked + {r})), nextRow, sent)
  {
    var tx' := tx.(rows := tx.rows[r := Done], writes := tx.writes.(marked := tx.writes.marked + {r}));
    forall x ensures InsertedRowOk(db, tx', x, nextRow) {
      assert InsertedRowOk(db, tx, x, nextRow);
    }
    forall x, e ensures Inserts(tx'.writes, x, e) <==> Inserts(tx.writes, x, e) {
    }
    forall e | e in tx'.writes.finished && e in tx'.locked && tx'.locked[e] ensures exists x :: Inserts(tx'.writes, x, e) {
      var x :| Inserts(tx.writes, x, e);
      assert Inserts(tx'.writes, x, e);
    }
  }

  lemma KeepMark(s: System, p: nat, r: nat)
    requires Inv(s) && p in s.pollers && r in s.pollers[p].rows && s.pollers[p].rows[r] == Sent
    ensures Inv(AfterMark(s, p, r))
  {
    var tx := s.pollers[p];
    var tx' := tx.(rows := tx.rows[r := Done], writes := tx.writes.(marked := tx.writes.marked + {r}));
    assert TxOk(s.db, tx, s.nextRow, s.sent);
    HeldIsUnpublished(s, p, r);
    MarkOk(s.db, tx, s.nextRow, s.sent, r);
    StayApart(s.pollers, p, tx');
    assert multiset({r}) == multiset{r};
    LocalStep(s, AfterMark(s, p, r), p, tx', {r});
  }

  // ---- The end of a transaction ----

  // A row marked by one transaction is marked by no other.
  lemma MarkedOnce(s: System, p: nat, q: nat, r: nat)
    requires AllTxOk(s) && AllApart(s.pollers) && p in s.pollers && q in s.pollers && p != q
    requires r in s.pollers[p].writes.marked
    ensures r !in s.pollers[q].writes.marked
  {
    assert TxOk(s.db, s.pollers[p], s.nextRow, s.sent) && TxOk(s.db, s.pollers[q], s.nextRow, s.sent);
    assert Apart(s.pollers[p], s.pollers[q]);
  }

  lemma MarksOfEnded(s: System, p: nat, r: nat)
    requires AllTxOk(s) && AllApart(s.pollers) && p in s.pollers
    ensures InFlightMarks(s.pollers, r) ==
            InFlightMarks(s.pollers - {p}, r) + if r in s.pollers[p].writes.marked then 1 else 0
  {
    var rest := s.pollers - {p};
    if r in s.pollers[p].writes.marked {
      forall q | q in rest ensures r !in rest[q].writes.marked {
        MarkedOnce(s, p, q, r);
      }
    } else if q :| q in s.pollers && r in s.pollers[q].writes.marked {
      assert q in rest && rest[q] == s.pollers[q];
    }
  }

  lemma KeepCrash(s: System, step: Step)
    requires Inv(s) && Enabled(s, step) && step.Crash?
    ensures Inv(Next(s, step))
  {
    var s', p := Next(s, step), step.p;
    forall r: nat ensures Accounted(s', r) {
      MarksOfEnded(s, p, r);
      assert Accounted(s, r);
    }
  }

  lemma CommitTables(db: Db, tx: Tx, nextRow: nat, sent: multiset<Message>)
    requires Integrity(db) && TxOk(db, tx, nextRow, sent)
    ensures Integrity(View(db, tx.writes))
  {
    var db', w := View(db, tx.writes), tx.writes;
    assert ForeignKeys(db') by {
      forall r | r in db'.outbox ensures db'.outbox[r].edition in db'.editions {
        assert InsertedRowOk(db, tx, r, nextRow);
      }
    }
    forall r, e ensures IsResultsRow(db', r, e) <==> IsResultsRow(db, r, e) || Inserts(w, r, e) {
      assert InsertedRowOk(db, tx, r, nextRow);
    }
    forall r, e | Inserts(w, r, e) ensures e in w.finished && db.editions[e].status == AwaitingResults
                                           && db.editions[e].startAnnounced {
      assert InsertedRowOk(db, tx, r, nextRow);
    }
    CommitResultsRows(db, tx, nextRow, sent);
  }

  lemma CommitResultsRows(db: Db, tx: Tx, nextRow: nat, sent: multiset<Message>)
    requires Integrity(db) && TxOk(db, tx, nextRow, sent)
    requires forall r, e :: IsResultsRow(View(db, tx.writes), r, e) <==>
                            IsResultsRow(db, r, e) || Inserts(tx.writes, r, e)
    requires forall r, e :: Inserts(tx.writes, r, e) ==>
               e in tx.writes.finished && db.editions[e].status == AwaitingResults && db.editions[e].startAnnounced
    ensures ResultsRowsExact(View(db, tx.writes))
  {
    var db', w := View(db, tx.writes), tx.writes;
    forall e | e in db'.editions && db'.editions[e].status == EditionCompleted && db'.editions[e].startAnnounced
      ensures exists r :: IsResultsRow(db', r, e)
    {
      if e in w.finished {
        var r :| Inserts(w, r, e);
        assert IsResultsRow(db', r, e);
      } else {
        assert e !in w.announced;
        var r :| IsResultsRow(db, r, e);
        assert IsResultsRow(db', r, e);
      }
    }
    forall q, r, e | IsResultsRow(db', q, e) && IsResultsRow(db', r, e) ensures q == r {
      assert Inserts(w, q, e) ==> !IsResultsRow(db, r, e);
      assert Inserts(w, r, e) ==> !IsResultsRow(db, q, e);
    }
  }

  lemma CommitUndisturbs(db: Db, tx: Tx, ux: Tx, nextRow: nat, sent: multiset<Message>)
    requires TxOk(db, tx, nextRow, sent) && TxOk(db, ux, nextRow, sent) && Apart(tx, ux)
    ensures Undisturbed(db, View(db, tx.writes), ux)
  {
    var db' := View(db, tx.writes);
    forall e | e in ux.locked ensures Inflight(db', e) <= Inflight(db, e) {
      ViewInflight(db, tx.writes, e);
    }
    forall r | r in ux.writes.inserted ensures r !in db'.outbox {
      assert InsertedRowOk(db, ux, r, nextRow);
    }
  }

  lemma CommitAnswers(s: System, p: nat, r: nat)
    requires AllTxOk(s) && AllApart(s.pollers) && AnswersAccounted(s) && OutboxOk(s) && p in s.pollers
    requires forall x :: x in s.pollers[p].rows ==> s.pollers[p].rows[x] == Done
    ensures Accounted(AfterCommit(s, p), r)
  {
    MarksOfEnded(s, p, r);
    assert TxOk(s.db, s.pollers[p], s.nextRow, s.sent);
    assert Accounted(s, r);
    assert InsertedRowOk(s.db, s.pollers[p], r, s.nextRow);
  }

  lemma CommitOutbox(s: System, p: nat)
    requires AllTxOk(s) && OutboxOk(s) && p in s.pollers
    requires forall x :: x in s.pollers[p].rows ==> s.pollers[p].rows[x] == Done
    ensures OutboxOk(AfterCommit(s, p))
  {
    var s' := AfterCommit(s, p);
    assert TxOk(s.db, s.pollers[p], s.nextRow, s.sent);
    forall r | r in s'.db.outbox
      ensures r < s'.nextRow && (s'.db.outbox[r].published ==> RowEvent(r) in s'.sent)
    {
      assert InsertedRowOk(s.db, s.pollers[p], r, s.nextRow);
    }
  }

  lemma CommitOthers(s: System, p: nat)
    requires AllTxOk(s) && AllApart(s.pollers) && p in s.pollers
    ensures AllTxOk(AfterCommit(s, p))
  {
    var s' := AfterCommit(s, p);
    forall q | q in s'.pollers ensures TxOk(s'.db, s'.pollers[q], s'.nextRow, s'.sent) {
      assert TxOk(s.db, s.pollers[q], s.nextRow, s.sent) && Apart(s.pollers[p], s.pollers[q]);
      CommitUndisturbs(s.db, s.pollers[p], s.pollers[q], s.nextRow, s.sent);
      Frame(s.db, s'.db, s.pollers[q], s.nextRow, s.nextRow, s.sent);
    }
  }

  lemma KeepCommit(s: System, p: nat)
    requires Inv(s) && p in s.pollers && forall r :: r in s.pollers[p].rows ==> s.pollers[p].rows[r] == Done
    ensures Inv(AfterCommit(s, p))
  {
    assert TxOk(s.db, s.pollers[p], s.nextRow, s.sent);
    CommitTables(s.db, s.pollers[p], s.nextRow, s.sent);
    CommitOthers(s, p);
    CommitOutbox(s, p);
    forall r: nat ensures Accounted(AfterCommit(s, p), r) {
      CommitAnswers(s, p, r);
    }
  }

  lemma StepKeepsInv(s: System, step: Step)
    requires Inv(s) && Enabled(s, step)
    ensures Inv(Next(s, step))
  {
    match step
    case Submit(_, _, _, _) => KeepSubmit(s, step);
    case Verdict(_, _) => KeepVerdict(s, step);
    case Cron(_, _, _, _, _, _) => KeepCron(s, step);
    case Bootstrap(_, _, _) => KeepBootstrap(s, step);
    case Begin(p) => KeepBegin(s, p);
    case Process(p, e) => KeepProcess(s, p, e);
    case FetchRows(p) => KeepFetchRows(s, p);
    case Send(p, r) => KeepSend(s, p, r);
    case Mark(p, r) => KeepMark(s, p, r);
    case Commit(p) => KeepCommit(s, p);
    case Crash(_) => KeepCrash(s, step);
  }
}
