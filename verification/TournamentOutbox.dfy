// publish_pending_transitions: one pass of one poller, loop by loop, on the tables as its
// transaction sees them.
module TournamentOutbox {
  import opened TournamentTables
  import opened TournamentPollers
  import opened TournamentDrain
  import opened PollerRun

  // An edition the loop has not reached looks the same inside the transaction as outside.
  lemma PartPassView(db: Db, w: Writes, done: set<nat>, nextRow: nat, e: nat, d: Decision)
    requires done <= db.editions.Keys && PartPass(db, w, done, nextRow) && e in db.editions && e !in done
    requires forall r :: r in db.outbox ==> r < nextRow
    ensures View(db, Record(w, e, d, nextRow)) == ApplyDecision(View(db, w), e, d, nextRow)
    ensures Inflight(View(db, w), e) == Inflight(db, e) && View(db, w).editions[e] == db.editions[e]
    ensures forall r :: r in View(db, w).outbox ==> r < nextRow
  {
    ViewInflight(db, w, e);
    RecordIsApply(db, w, e, d, nextRow);
  }

  ghost predicate HasRow(w: Writes, e: nat) {
    exists r :: Inserts(w, r, e)
  }

  // What a pass over the editions and rows nobody else holds must write: the drained editions are
  // completed, those announced earlier each with one results row, the undrained new ones are
  // announced, and each of the rows, the new ones included, ends published.
  ghost predicate FullPass(db: Db, w: Writes, editions: set<nat>, held: set<nat>)
    requires editions <= db.editions.Keys
  {
    && w.announced == (set e | e in editions && !db.editions[e].startAnnounced && Inflight(db, e) != {})
    && w.finished == (set e | e in editions && Inflight(db, e) == {})
    && (forall e :: HasRow(w, e) <==> e in w.finished && db.editions[e].startAnnounced)
    && (forall q, r, e :: Inserts(w, q, e) && Inserts(w, r, e) ==> q == r)
    && (forall r :: r in w.inserted ==> r !in db.outbox && w.inserted[r].kind == EditionResults)
    && w.marked == Unpublished(db) - held + w.inserted.Keys
  }

  // The same for the editions the loop has done so far.
  ghost predicate PartPass(db: Db, w: Writes, done: set<nat>, nextRow: nat)
    requires done <= db.editions.Keys
  {
    && w.announced == (set e | e in done && !db.editions[e].startAnnounced && Inflight(db, e) != {})
    && w.finished == (set e | e in done && Inflight(db, e) == {})
    && (forall e :: HasRow(w, e) <==> e in w.finished && db.editions[e].startAnnounced)
    && (forall q, r, e :: Inserts(w, q, e) && Inserts(w, r, e) ==> q == r)
    && (forall r :: r in w.inserted ==>
          r < nextRow && r !in db.outbox && w.inserted[r].kind == EditionResults && !w.inserted[r].published)
    && w.marked == {}
  }

  lemma PartPassStep(db: Db, w: Writes, done: set<nat>, nextRow: nat, e: nat, d: Decision)
    requires done <= db.editions.Keys && PartPass(db, w, done, nextRow) && e in db.editions && e !in done
    requires forall r :: r in db.outbox ==> r < nextRow
    requires d == Decide(db.editions[e].startAnnounced, |Inflight(db, e)|)
    ensures PartPass(db, Record(w, e, d, nextRow), done + {e}, if d == DeferredResults then nextRow + 1 else nextRow)
  {
    var w' := Record(w, e, d, nextRow);
    assert |Inflight(db, e)| == 0 <==> Inflight(db, e) == {};
    forall f ensures HasRow(w', f) <==> HasRow(w, f) || (d == DeferredResults && f == e) {
      if HasRow(w, f) {
        var r :| Inserts(w, r, f);
        assert Inserts(w', r, f);
      }
      if d == DeferredResults && f == e {
        assert Inserts(w', nextRow, f);
      }
      if r :| Inserts(w', r, f) {
        assert r == nextRow || Inserts(w, r, f);
      }
    }
    forall q, r, f | Inserts(w', q, f) && Inserts(w', r, f) ensures q == r {
      assert e !in w.finished;
      assert Inserts(w, q, f) || (q == nextRow && f == e);
      assert Inserts(w, r, f) || (r == nextRow && f == e);
      assert Inserts(w, q, f) || Inserts(w, r, f) ==> HasRow(w, f);
    }
  }

  // The loop's invariant: the tables show the recorded writes of the editions done so far.
  ghost predicate InPass(db: Db, now: Db, w: Writes, done: set<nat>, nextRow: nat) {
    done <= Awaiting(db) && PartPass(db, w, done, nextRow) && now == View(db, w)
    && (forall r :: r in db.outbox ==> r < nextRow)
  }

  lemma PassStarts(db: Db, nextRow: nat)
    requires forall r :: r in db.outbox ==> r < nextRow
    ensures InPass(db, db, NO_WRITES, {}, nextRow)
  {
    var v := View(db, NO_WRITES);
    assert v.editions == db.editions && v.cycles == db.cycles && v.outbox == db.outbox;
    assert forall e :: !HasRow(NO_WRITES, e);
  }

  lemma PassStep(db: Db, now: Db, w: Writes, done: set<nat>, nextRow: nat, e: nat)
    requires InPass(db, now, w, done, nextRow) && e in Awaiting(db) && e !in done
    ensures e in now.editions && forall r :: r in now.outbox ==> r < nextRow
    ensures var d := Decide(now.editions[e].startAnnounced, |Inflight(now, e)|);
            InPass(db, ApplyDecision(now, e, d, nextRow), Record(w, e, d, nextRow), done + {e},
                   if d == DeferredResults then nextRow + 1 else nextRow)
  {
    var d := Decide(db.editions[e].startAnnounced, |Inflight(db, e)|);
    PartPassView(db, w, done, nextRow, e, d);
    PartPassStep(db, w, done, nextRow, e, d);
  }

  function Cards(e: nat, d: Decision): seq<Message> {
    match d
    case AnnounceStart => [StartCard(e)]
    case CombinedResults => [ResultsCard(e)]
    case _ => []
  }

  // The tables as the transaction sees them, and the messages of this pass.
  datatype Progress = Progress(db: Db, nextRow: nat, news: seq<Message>)

  function DoEdition(o: Progress, e: nat): Progress {
    if e !in o.db.editions then o
    else
      var d := Decide(o.db.editions[e].startAnnounced, |Inflight(o.db, e)|);
      Progress(ApplyDecision(o.db, e, d, o.nextRow), if d == DeferredResults then o.nextRow + 1 else o.nextRow,
               o.news + Cards(e, d))
  }

  function DoEditions(o: Progress, order: seq<nat>): Progress {
    if order == [] then o else DoEdition(DoEditions(o, order[..|order| - 1]), order[|order| - 1])
  }

  function DoRow(o: Progress, r: nat): Progress {
    o.(db := MarkPublished(o.db, r), news := o.news + [RowEvent(r)])
  }

  function DoRows(o: Progress, order: seq<nat>): Progress {
    if order == [] then o else DoRow(DoRows(o, order[..|order| - 1]), order[|order| - 1])
  }

  // The messages of a pass so far, from the tables before it: a start card for each edition done
  // that was not announced and still has runs in flight, a results card for each that was not
  // announced and has none, an event for each row published, each once, and nothing else.
  ghost predicate NewsTold(db: Db, done: set<nat>, published: set<nat>, news: seq<Message>)
    requires done <= db.editions.Keys
  {
    forall m :: multiset(news)[m] ==
      match m
      case StartCard(e) => if e in done && !db.editions[e].startAnnounced && Inflight(db, e) != {} then 1 else 0
      case ResultsCard(e) => if e in done && !db.editions[e].startAnnounced && Inflight(db, e) == {} then 1 else 0
      case RowEvent(r) => if r in published then 1 else 0
  }

  lemma CardsTold(db: Db, done: set<nat>, news: seq<Message>, e: nat)
    requires done <= db.editions.Keys && NewsTold(db, done, {}, news) && e in db.editions && e !in done
    ensures NewsTold(db, done + {e}, {}, news + Cards(e, Decide(db.editions[e].startAnnounced, |Inflight(db, e)|)))
  {
    assert |Inflight(db, e)| == 0 <==> Inflight(db, e) == {};
    var cards := Cards(e, Decide(db.editions[e].startAnnounced, |Inflight(db, e)|));
    assert multiset(news + cards) == multiset(news) + multiset(cards);
  }

  lemma RowTold(db: Db, done: set<nat>, published: set<nat>, news: seq<Message>, r: nat)
    requires done <= db.editions.Keys && NewsTold(db, done, published, news) && r !in published
    ensures NewsTold(db, done, published + {r}, news + [RowEvent(r)])
  {
    assert multiset(news + [RowEvent(r)]) == multiset(news) + multiset{RowEvent(r)};
  }

  // Both loop invariants together: what the tables show, and the run that leads there.
  ghost predicate EditionLoop(start: System, p: nat, now: Db, w: Writes, done: set<nat>, nextRow: nat,
                              run: seq<Step>, news: seq<Message>) {
    && InPass(start.db, now, w, done, nextRow) && InLoop(start, p, run, done, w, nextRow, start.sent + multiset(news))
    && NewsTold(start.db, done, {}, news)
    && start.nextRow <= nextRow && forall r :: r in w.inserted ==> r >= start.nextRow
  }

  lemma EditionLoopStarts(start: System, p: nat)
    requires p !in start.pollers && forall r :: r in start.db.outbox ==> r < start.nextRow
    ensures EditionLoop(start, p, start.db, NO_WRITES, {}, start.nextRow, [Begin(p)], [])
  {
    PassStarts(start.db, start.nextRow);
    LoopStarts(start, p);
    assert start.sent + multiset([]) == start.sent;
  }

  lemma RecordKeepsRows(w: Writes, e: nat, d: Decision, nextRow: nat, start: nat)
    requires start <= nextRow && forall r :: r in w.inserted ==> r >= start
    ensures forall r :: r in Record(w, e, d, nextRow).inserted ==> r >= start
  {
  }

  lemma EditionDone(start: System, p: nat, o: Progress, w: Writes, done: set<nat>, run: seq<Step>, e: nat)
    requires EditionLoop(start, p, o.db, w, done, o.nextRow, run, o.news) && e in Mine(start) && e !in done
    ensures e in o.db.editions
    ensures var o', d := DoEdition(o, e), Decide(o.db.editions[e].startAnnounced, |Inflight(o.db, e)|);
            EditionLoop(start, p, o'.db, Record(w, e, d, o.nextRow), done + {e}, o'.nextRow, run + [Process(p, e)], o'.news)
  {
    PassStep(start.db, o.db, w, done, o.nextRow, e);
    PartPassUntouched(start.db, w, done, o.nextRow, e);
    var d := Decide(o.db.editions[e].startAnnounced, |Inflight(o.db, e)|);
    LoopStep(start, p, run, done, w, o.nextRow, start.sent + multiset(o.news), e, d);
    CardsAreNews(start.sent, o.news, e, d);
    CardsTold(start.db, done, o.news, e);
    RecordKeepsRows(w, e, d, o.nextRow, start.nextRow);
  }

  lemma PartPassUntouched(db: Db, w: Writes, done: set<nat>, nextRow: nat, e: nat)
    requires done <= db.editions.Keys && PartPass(db, w, done, nextRow) && e in db.editions && e !in done
    ensures e in View(db, w).editions && View(db, w).editions[e].startAnnounced == db.editions[e].startAnnounced
    ensures Inflight(View(db, w), e) == Inflight(db, e)
  {
    ViewInflight(db, w, e);
  }

  ghost predicate RowLoop(start: System, p: nat, now: Db, v: Writes, all: set<nat>, rows: set<nat>, nextRow: nat,
                          run: seq<Step>, news: seq<Message>) {
    && rows <= all && all == Unpublished(View(start.db, v)) - LockedRows(start) && now == View(start.db, v.(marked := all - rows))
    && InRows(start, p, run, v, all, rows, nextRow, start.sent + multiset(news))
    && NewsTold(start.db, Mine(start), all - rows, news)
  }

  lemma RowLoopStarts(start: System, p: nat, now: Db, v: Writes, nextRow: nat, run: seq<Step>, news: seq<Message>)
    requires p !in start.pollers && EditionLoop(start, p, now, v, Mine(start), nextRow, run, news)
    ensures var all := Unpublished(now) - LockedRows(start);
            RowLoop(start, p, now, v, all, all, nextRow, run + [FetchRows(p)], news)
  {
    RowsStart(start, p, run, v, nextRow, start.sent + multiset(news));
    var all := Unpublished(now) - LockedRows(start);
    assert v.(marked := all - all) == v && all - all == {};
  }

  lemma RowDone(start: System, p: nat, now: Db, v: Writes, all: set<nat>, rows: set<nat>, nextRow: nat,
                run: seq<Step>, news: seq<Message>, r: nat)
    requires RowLoop(start, p, now, v, all, rows, nextRow, run, news) && r in rows
    ensures RowLoop(start, p, MarkPublished(now, r), v, all, rows - {r}, nextRow,
                    run + [Send(p, r)] + [Mark(p, r)], news + [RowEvent(r)])
  {
    MarkOnView(start.db, v.(marked := all - rows), r);
    assert (all - rows) + {r} == all - (rows - {r});
    RowsStep(start, p, run, v, all, rows, nextRow, start.sent + multiset(news), r);
    RowIsNews(start.sent, news, r);
    RowTold(start.db, Mine(start), all - rows, news, r);
  }

  lemma RowLoopEnds(start: System, p: nat, now: Db, v: Writes, all: set<nat>, nextRow: nat, run: seq<Step>, news: seq<Message>)
    requires p !in start.pollers && RowLoop(start, p, now, v, all, {}, nextRow, run, news)
    requires PartPass(start.db, v, Mine(start), nextRow) && v.inserted.Keys !! LockedRows(start)
    ensures var w := v.(marked := all);
            && FullPass(start.db, w, Mine(start), LockedRows(start)) && now == View(start.db, w)
            && Unpublished(now) == Unpublished(start.db) * LockedRows(start) && CanRun(start, run + [Commit(p)])
            && NewsTold(start.db, Mine(start), w.marked, news)
            && After(start, run + [Commit(p)]) == start.(db := now, nextRow := nextRow, sent := start.sent + multiset(news),
                                                         answered := start.answered + multiset(all))
  {
    assert all - {} == all;
    PassDone(start, v, v.(marked := all), nextRow);
    Commits(start, p, run, v, all, nextRow, start.sent + multiset(news));
  }

  // ---- The loops ----

  ghost predicate Lists(order: seq<nat>, all: set<nat>) {
    multiset(order) == multiset(all)
  }

  lemma Snoc(order: seq<nat>, x: nat)
    ensures (order + [x])[..|order|] == order && (order + [x])[|order|] == x
  {
  }

  // ---- A pass is a run ----

  lemma LastIsNew(order: seq<nat>, todo: set<nat>, all: set<nat>)
    requires order != [] && multiset(order) + multiset(todo) == multiset(all)
    ensures var last := |order| - 1;
            && multiset(order[..last]) + multiset(todo + {order[last]}) == multiset(all)
            && order[last] in all && order[last] !in todo
  {
    var x := order[|order| - 1];
    assert order == order[..|order| - 1] + [x];
    assert multiset(all)[x] <= 1 && multiset(order)[x] >= 1;
    assert multiset(todo + {x}) == multiset(todo) + multiset{x};
  }

  lemma OneMoreEdition(start: System, p: nat, o: Progress, w0: Writes, run0: seq<Step>, done: set<nat>, e: nat)
    returns (w: Writes, run: seq<Step>)
    requires EditionLoop(start, p, o.db, w0, done, o.nextRow, run0, o.news) && e in Mine(start) && e !in done
    ensures var o' := DoEdition(o, e);
            EditionLoop(start, p, o'.db, w, done + {e}, o'.nextRow, run, o'.news)
  {
    EditionDone(start, p, o, w0, done, run0, e);
    w := Record(w0, e, Decide(o.db.editions[e].startAnnounced, |Inflight(o.db, e)|), o.nextRow);
    run := run0 + [Process(p, e)];
  }

  lemma {:induction false} EditionsRun(start: System, p: nat, order: seq<nat>, todo: set<nat>)
    returns (w: Writes, run: seq<Step>)
    requires p !in start.pollers && forall r :: r in start.db.outbox ==> r < start.nextRow
    requires multiset(order) + multiset(todo) == multiset(Mine(start))
    ensures var o := DoEditions(Progress(start.db, start.nextRow, []), order);
            EditionLoop(start, p, o.db, w, Mine(start) - todo, o.nextRow, run, o.news)
    decreases |order|
  {
    if order == [] {
      EditionLoopStarts(start, p);
      AllTodo(todo, Mine(start));
      w, run := NO_WRITES, [Begin(p)];
    } else {
      var last := |order| - 1;
      LastIsNew(order, todo, Mine(start));
      var done := Mine(start) - (todo + {order[last]});
      w, run := EditionsRun(start, p, order[..last], todo + {order[last]});
      w, run := OneMoreEdition(start, p, DoEditions(Progress(start.db, start.nextRow, []), order[..last]), w, run, done, order[last]);
      assert done + {order[last]} == Mine(start) - todo;
    }
  }

  lemma AllTodo(todo: set<nat>, all: set<nat>)
    requires multiset(todo) == multiset(all)
    ensures all - todo == {}
  {
    forall x | x in all ensures x in todo {
      assert x in multiset(all);
    }
  }

  lemma {:induction false} RowsRun(start: System, p: nat, o: Progress, v: Writes, run0: seq<Step>, order: seq<nat>, rows: set<nat>)
    returns (run: seq<Step>)
    requires p !in start.pollers && EditionLoop(start, p, o.db, v, Mine(start), o.nextRow, run0, o.news)
    requires multiset(order) + multiset(rows) == multiset(Unpublished(o.db) - LockedRows(start))
    ensures var o' := DoRows(o, order);
            o'.nextRow == o.nextRow
            && RowLoop(start, p, o'.db, v, Unpublished(o.db) - LockedRows(start), rows, o.nextRow, run, o'.news)
    decreases |order|
  {
    var all := Unpublished(o.db) - LockedRows(start);
    if order == [] {
      RowLoopStarts(start, p, o.db, v, o.nextRow, run0, o.news);
      AllTodo(rows, all);
      AllTodo(all, rows);
      assert rows == all;
      run := run0 + [FetchRows(p)];
    } else {
      var last := |order| - 1;
      var r := order[last];
      LastIsNew(order, rows, all);
      run := RowsRun(start, p, o, v, run0, order[..last], rows + {r});
      var o' := DoRows(o, order[..last]);
      RowDone(start, p, o'.db, v, all, rows + {r}, o.nextRow, run, o'.news, r);
      assert rows + {r} - {r} == rows;
      run := run + [Send(p, r)] + [Mark(p, r)];
    }
  }

  // Every row of the outbox, and every row some transaction holds, was numbered before.
  ghost predicate RowsBelow(start: System) {
    (forall r :: r in start.db.outbox ==> r < start.nextRow) && forall r :: r in LockedRows(start) ==> r < start.nextRow
  }

  lemma ReachableRowsBelow(start: System)
    requires Inv(start)
    ensures RowsBelow(start)
  {
    forall q, r | q in start.pollers && r in start.pollers[q].rows ensures r < start.nextRow {
      assert TxOk(start.db, start.pollers[q], start.nextRow, start.sent);
      assert InsertedRowOk(start.db, start.pollers[q], r, start.nextRow);
    }
  }

  ghost predicate PassTold(start: System, o: Progress, w: Writes, run: seq<Step>) {
    && FullPass(start.db, w, Mine(start), LockedRows(start)) && o.db == View(start.db, w)
    && Unpublished(o.db) == Unpublished(start.db) * LockedRows(start) && NewsTold(start.db, Mine(start), w.marked, o.news)
    && CanRun(start, run)
    && After(start, run) == start.(db := o.db, nextRow := o.nextRow, sent := start.sent + multiset(o.news),
                                   answered := start.answered + multiset(w.marked))
  }

  lemma RowsOfPass(start: System, p: nat, o: Progress, v: Writes, run0: seq<Step>, rows: seq<nat>) returns (w: Writes, run: seq<Step>)
    requires RowsBelow(start) && p !in start.pollers && EditionLoop(start, p, o.db, v, Mine(start), o.nextRow, run0, o.news)
    requires Lists(rows, Unpublished(o.db) - LockedRows(start))
    ensures PassTold(start, DoRows(o, rows), w, run)
  {
    run := RowsRun(start, p, o, v, run0, rows, {});
    var o', all := DoRows(o, rows), Unpublished(o.db) - LockedRows(start);
    RowLoopEnds(start, p, o'.db, v, all, o.nextRow, run, o'.news);
    w, run := v.(marked := all), run + [Commit(p)];
  }

  lemma EditionsOfPass(start: System, p: nat, order: seq<nat>) returns (w: Writes, run: seq<Step>)
    requires RowsBelow(start) && p !in start.pollers && Lists(order, Mine(start))
    ensures var o := DoEditions(Progress(start.db, start.nextRow, []), order);
            EditionLoop(start, p, o.db, w, Mine(start), o.nextRow, run, o.news)
  {
    var none: set<nat> := {};
    assert multiset(order) + multiset(none) == multiset(Mine(start)) && Mine(start) - none == Mine(start);
    w, run := EditionsRun(start, p, order, none);
  }

  lemma WholePass(start: System, p: nat, o: Progress, editions: seq<nat>, rows: seq<nat>) returns (w: Writes, run: seq<Step>)
    requires RowsBelow(start) && p !in start.pollers && Lists(editions, Mine(start))
    requires o == DoEditions(Progress(start.db, start.nextRow, []), editions)
    requires Lists(rows, Unpublished(o.db) - LockedRows(start))
    ensures PassTold(start, DoRows(o, rows), w, run)
  {
    var v, run0 := EditionsOfPass(start, p, editions);
    w, run := RowsOfPass(start, p, o, v, run0, rows);
  }

  // One pass by a poller among others, over the awaiting editions and the unpublished rows that
  // the others do not hold, in any order, writes what a full pass must, leaves only their rows
  // unpublished, and is one run of the concurrent system: BEGIN, the editions, the rows, COMMIT.
  lemma PassIsRun(start: System, p: nat, o: Progress, editions: seq<nat>, rows: seq<nat>) returns (w: Writes, run: seq<Step>)
    requires Inv(start) && p !in start.pollers
    requires Lists(editions, Mine(start)) && o == DoEditions(Progress(start.db, start.nextRow, []), editions)
    requires Lists(rows, Unpublished(o.db) - LockedRows(start))
    ensures PassTold(start, DoRows(o, rows), w, run)
  {
    ReachableRowsBelow(start);
    w, run := WholePass(start, p, o, editions, rows);
  }

  class OutboxPoller {
    const repo: TournamentRepository
    var sent: seq<Message>

    constructor (repo: TournamentRepository)
      ensures this.repo == repo && sent == []
    {
      this.repo := repo;
      sent := [];
    }

    // The poller has come as far as o since it had sent `before`.
    ghost predicate ShowsFrom(before: seq<Message>, o: Progress)
      reads this, repo
    {
      repo.Contents() == o.db && repo.nextRow == o.nextRow && sent == before + o.news
    }

    // One iteration of the edition loop.
    method ProcessEditionRow(e: nat)
      requires e in repo.editions
      modifies this`sent, repo
      ensures ShowsFrom(old(sent), DoEdition(old(Progress(repo.Contents(), repo.nextRow, [])), e))
      ensures var announced, drained := old(repo.editions)[e].startAnnounced, old(Inflight(repo.Contents(), e)) == {};
              && sent == old(sent) + (if announced then [] else if drained then [ResultsCard(e)] else [StartCard(e)])
              && repo.outbox == (if announced && drained
                                 then old(repo.outbox)[old(repo.nextRow) := Transition(e, EditionResults, false)]
                                 else old(repo.outbox))
              && e in repo.editions
              && repo.editions[e] == if drained then old(repo.editions)[e].(status := EditionCompleted)
                                     else old(repo.editions)[e].(startAnnounced := true)
    {
      var inflight := repo.CountInflightVerifications(e);
      var startAnnounced := repo.editions[e].startAnnounced;
      if !startAnnounced && inflight > 0 {
        repo.MarkEditionStartAnnounced(e);
        sent := sent + [StartCard(e)];
      } else if !startAnnounced && inflight == 0 {
        sent := sent + [ResultsCard(e)];
        repo.CompleteEditionRows(e);
      } else if inflight == 0 {
        var id := repo.CreatePendingTransition(e, EditionResults);
        repo.CompleteEditionRows(e);
      }
    }

    // locked holds the editions other transactions have locked: SKIP LOCKED passes over them.
    method ProcessAwaitingResultsEditions(locked: set<nat>) returns (ghost order: seq<nat>)
      modifies this`sent, repo
      ensures Lists(order, Awaiting(old(repo.Contents())) - locked)
      ensures ShowsFrom(old(sent), DoEditions(old(Progress(repo.Contents(), repo.nextRow, [])), order))
    {
      var editions := Awaiting(repo.Contents()) - locked;
      order := [];
      while editions != {}
        invariant multiset(order) + multiset(editions) == multiset(Awaiting(old(repo.Contents())) - locked)
        invariant editions <= repo.editions.Keys
        invariant ShowsFrom(old(sent), DoEditions(old(Progress(repo.Contents(), repo.nextRow, [])), order))
        decreases editions
      {
        var e :| e in editions;
        Snoc(order, e);
        ProcessEditionRow(e);
        order := order + [e];
        editions := editions - {e};
      }
    }

    // The whole pass, in whatever order the rows come; PassIsRun says what that amounts to.
    method PublishPendingTransitions(locked: set<nat>, lockedRows: set<nat>)
      returns (ghost editions: seq<nat>, ghost rows: seq<nat>)
      modifies this`sent, repo
      ensures Lists(editions, Awaiting(old(repo.Contents())) - locked)
      ensures var o := DoEditions(old(Progress(repo.Contents(), repo.nextRow, [])), editions);
              Lists(rows, Unpublished(o.db) - lockedRows) && ShowsFrom(old(sent), DoRows(o, rows))
    {
      editions := ProcessAwaitingResultsEditions(locked);
      ghost var o := DoEditions(old(Progress(repo.Contents(), repo.nextRow, [])), editions);
      var unpublished := Unpublished(repo.Contents()) - lockedRows;
      rows := [];
      while unpublished != {}
        invariant multiset(rows) + multiset(unpublished) == multiset(Unpublished(o.db) - lockedRows)
        invariant ShowsFrom(old(sent), DoRows(o, rows))
        decreases unpublished
      {
        var r :| r in unpublished;
        Snoc(rows, r);
        sent := sent + [RowEvent(r)];
        var updated := repo.MarkTransitionPublished(r);
        rows := rows + [r];
        unpublished := unpublished - {r};
      }
    }
  }

  lemma CardsAreNews(sent: multiset<Message>, news: seq<Message>, e: nat, d: Decision)
    ensures sent + multiset(news) + CardFor(e, d) == sent + multiset(news + Cards(e, d))
  {
  }

  lemma RowIsNews(sent: multiset<Message>, news: seq<Message>, r: nat)
    ensures sent + multiset(news) + multiset{RowEvent(r)} == sent + multiset(news + [RowEvent(r)])
  {
  }

  lemma MarkOnView(db: Db, w: Writes, r: nat)
    requires r in db.outbox || r in w.inserted
    ensures View(db, w.(marked := w.marked + {r})) == MarkPublished(View(db, w), r)
  {
    assert View(db, w.(marked := w.marked + {r})).outbox == MarkPublished(View(db, w), r).outbox;
  }

  lemma PassDone(start: System, v: Writes, w: Writes, n: nat)
    requires PartPass(start.db, v, Mine(start), n) && v.inserted.Keys !! LockedRows(start)
    requires w == v.(marked := Unpublished(View(start.db, v)) - LockedRows(start))
    ensures FullPass(start.db, w, Mine(start), LockedRows(start))
    ensures Unpublished(View(start.db, w)) == Unpublished(start.db) * LockedRows(start)
  {
    assert forall r, e :: Inserts(w, r, e) <==> Inserts(v, r, e);
    assert forall e :: HasRow(w, e) <==> HasRow(v, e);
    assert Unpublished(View(start.db, v)) == Unpublished(start.db) + v.inserted.Keys;
    assert w.marked == Unpublished(start.db) - LockedRows(start) + w.inserted.Keys;
  }
}
