// One poller's pass as a run of the concurrent system: the steps its statements amount to.
module PollerRun {
  import opened TournamentTables
  import opened TournamentPollers
  import opened TournamentDrain

  lemma Extend(s: System, steps: seq<Step>, step: Step)
    requires CanRun(s, steps) && Enabled(After(s, steps), step)
    ensures CanRun(s, steps + [step]) && After(s, steps + [step]) == Next(After(s, steps), step)
  {
    var t := After(s, steps);
    assert CanRun(t, [step]) && After(t, [step]) == Next(t, step) by {
      assert [step][1..] == [];
      assert CanRun(Next(t, step), []);
    }
    RunsJoin(s, steps, [step]);
  }

  // What the other transactions hold, which SKIP LOCKED passes over.
  ghost function LockedEditions(s: System): set<nat> {
    set q, e | q in s.pollers && e in s.pollers[q].locked :: e
  }

  ghost function LockedRows(s: System): set<nat> {
    set q, r | q in s.pollers && r in s.pollers[q].rows :: r
  }

  ghost function Mine(s: System): set<nat> { Awaiting(s.db) - LockedEditions(s) }

  // The transaction of poller p in its edition loop: it holds every awaiting edition that was
  // free when it began and has done some of them.
  ghost function LoopTx(s: System, done: set<nat>, w: Writes): Tx {
    Tx(map e | e in Mine(s) :: s.db.editions[e].startAnnounced, Mine(s) - done, w, map[], false)
  }

  ghost predicate InLoop(s: System, p: nat, steps: seq<Step>, done: set<nat>, w: Writes, nextRow: nat, sent: multiset<Message>) {
    CanRun(s, steps)
    && After(s, steps) == s.(pollers := s.pollers[p := LoopTx(s, done, w)], nextRow := nextRow, sent := sent)
  }

  lemma LoopStarts(s: System, p: nat)
    requires p !in s.pollers
    ensures InLoop(s, p, [Begin(p)], {}, NO_WRITES, s.nextRow, s.sent)
  {
    assert CanRun(s, []) && [] + [Begin(p)] == [Begin(p)];
    Extend(s, [], Begin(p));
    assert Lockable(s) == Mine(s) - {};
    assert LoopTx(s, {}, NO_WRITES).locked == AfterBegin(s, p).pollers[p].locked;
    assert AfterBegin(s, p).pollers == s.pollers[p := LoopTx(s, {}, NO_WRITES)];
  }

  lemma LoopStep(s: System, p: nat, steps: seq<Step>, done: set<nat>, w: Writes, nextRow: nat,
                 sent: multiset<Message>, e: nat, d: Decision)
    requires InLoop(s, p, steps, done, w, nextRow, sent) && e in Mine(s) && e !in done
    requires d == Decide(s.db.editions[e].startAnnounced, |Inflight(View(s.db, w), e)|)
    ensures InLoop(s, p, steps + [Process(p, e)], done + {e}, Record(w, e, d, nextRow),
                   if d == DeferredResults then nextRow + 1 else nextRow, sent + CardFor(e, d))
  {
    var t := After(s, steps);
    var tx := LoopTx(s, done, w);
    assert t.pollers[p] == tx && tx.locked[e] == s.db.editions[e].startAnnounced;
    Extend(s, steps, Process(p, e));
    assert tx.todo - {e} == Mine(s) - (done + {e});
    assert AfterProcess(t, p, e, d).pollers == s.pollers[p := LoopTx(s, done + {e}, Record(w, e, d, nextRow))];
  }

  // The same transaction in its publish loop: rows are those it has still to publish.
  ghost function RowsTx(s: System, w: Writes, all: set<nat>, rows: set<nat>): Tx {
    Tx(map e | e in Mine(s) :: s.db.editions[e].startAnnounced, {}, w.(marked := all - rows),
       map r | r in all :: if r in rows then Todo else Done, true)
  }

  ghost predicate InRows(s: System, p: nat, steps: seq<Step>, w: Writes, all: set<nat>, rows: set<nat>,
                         nextRow: nat, sent: multiset<Message>) {
    CanRun(s, steps) && rows <= all
    && After(s, steps) == s.(pollers := s.pollers[p := RowsTx(s, w, all, rows)], nextRow := nextRow, sent := sent,
                             answered := s.answered + multiset(all - rows))
  }

  lemma RowsStart(s: System, p: nat, steps: seq<Step>, w: Writes, nextRow: nat, sent: multiset<Message>)
    requires p !in s.pollers && InLoop(s, p, steps, Mine(s), w, nextRow, sent) && w.marked == {}
    ensures var all := Unpublished(View(s.db, w)) - LockedRows(s);
            InRows(s, p, steps + [FetchRows(p)], w, all, all, nextRow, sent)
  {
    var t, all := After(s, steps), Unpublished(View(s.db, w)) - LockedRows(s);
    assert LoopTx(s, Mine(s), w).todo == {};
    Extend(s, steps, FetchRows(p));
    FreeRows(s, t, p, w);
    assert AfterFetchRows(t, p).pollers[p].rows == RowsTx(s, w, all, all).rows;
    assert all - all == {} && w.(marked := {}) == w;
    assert AfterFetchRows(t, p).pollers == s.pollers[p := RowsTx(s, w, all, all)];
    assert s.answered + multiset(all - all) == s.answered;
  }

  lemma FreeRows(s: System, t: System, p: nat, w: Writes)
    requires p !in s.pollers && t.db == s.db && t.pollers == s.pollers[p := LoopTx(s, Mine(s), w)]
    ensures LockableRows(t, p) == Unpublished(View(s.db, w)) - LockedRows(s)
  {
    forall r ensures r in LockedRows(s) <==> exists q :: q in t.pollers && r in t.pollers[q].rows {
      if r in LockedRows(s) {
        var q :| q in s.pollers && r in s.pollers[q].rows;
        assert q in t.pollers && r in t.pollers[q].rows;
      }
    }
  }

  lemma StillUnpublished(db: Db, w: Writes, m: set<nat>, r: nat)
    requires r in Unpublished(View(db, w)) && r !in m
    ensures r in Unpublished(View(db, w.(marked := m)))
  {
  }

  lemma SendOne(t: System, p: nat, r: nat, tx: Tx)
    requires p in t.pollers && t.pollers[p] == tx && r in tx.rows && tx.rows[r] == Todo
    ensures Enabled(t, Send(p, r))
    ensures Next(t, Send(p, r))
            == t.(pollers := t.pollers[p := tx.(rows := tx.rows[r := Sent])], sent := t.sent + multiset{RowEvent(r)})
  {
  }

  lemma MarkOne(t: System, p: nat, r: nat, tx: Tx)
    requires p in t.pollers && t.pollers[p] == tx && r in tx.rows && tx.rows[r] == Sent
    requires r in Unpublished(View(t.db, tx.writes))
    ensures Enabled(t, Mark(p, r))
    ensures Next(t, Mark(p, r))
            == t.(pollers := t.pollers[p := tx.(rows := tx.rows[r := Done], writes := tx.writes.(marked := tx.writes.marked + {r}))],
                  answered := t.answered + multiset{r})
  {
  }

  lemma SentThenMarked(s: System, t: System, p: nat, r: nat, w: Writes, all: set<nat>, rows: set<nat>)
    requires t.pollers == s.pollers[p := RowsTx(s, w, all, rows)] && t.db == s.db && r in rows && rows <= all
    requires all <= Unpublished(View(s.db, w))
    ensures Enabled(t, Send(p, r)) && Enabled(Next(t, Send(p, r)), Mark(p, r))
    ensures Next(Next(t, Send(p, r)), Mark(p, r))
            == t.(pollers := s.pollers[p := RowsTx(s, w, all, rows - {r})], sent := t.sent + multiset{RowEvent(r)},
                  answered := t.answered + multiset{r})
  {
    var tx, tx' := RowsTx(s, w, all, rows), RowsTx(s, w, all, rows - {r});
    SendOne(t, p, r, tx);
    StillUnpublished(s.db, w, all - rows, r);
    MarkOne(Next(t, Send(p, r)), p, r, tx.(rows := tx.rows[r := Sent]));
    assert (all - rows) + {r} == all - (rows - {r});
    assert tx.rows[r := Sent][r := Done] == tx'.rows;
    assert t.pollers[p := tx.(rows := tx.rows[r := Sent])][p := tx'] == s.pollers[p := tx'];
  }

  lemma OneMoreMarked(all: set<nat>, rows: set<nat>, r: nat)
    requires r in rows && rows <= all
    ensures multiset(all - (rows - {r})) == multiset(all - rows) + multiset{r}
  {
    assert all - (rows - {r}) == (all - rows) + {r};
  }

  lemma RowsStep(s: System, p: nat, steps: seq<Step>, w: Writes, all: set<nat>, rows: set<nat>,
                 nextRow: nat, sent: multiset<Message>, r: nat)
    requires InRows(s, p, steps, w, all, rows, nextRow, sent) && r in rows && all <= Unpublished(View(s.db, w))
    ensures InRows(s, p, steps + [Send(p, r)] + [Mark(p, r)], w, all, rows - {r}, nextRow, sent + multiset{RowEvent(r)})
  {
    var t := After(s, steps);
    SentThenMarked(s, t, p, r, w, all, rows);
    Extend(s, steps, Send(p, r));
    Extend(s, steps + [Send(p, r)], Mark(p, r));
    OneMoreMarked(all, rows, r);
    assert s.answered + multiset(all - (rows - {r})) == t.answered + multiset{r};
  }

  lemma Commits(s: System, p: nat, steps: seq<Step>, w: Writes, all: set<nat>, nextRow: nat, sent: multiset<Message>)
    requires InRows(s, p, steps, w, all, {}, nextRow, sent) && p !in s.pollers
    ensures CanRun(s, steps + [Commit(p)])
    ensures After(s, steps + [Commit(p)])
            == s.(db := View(s.db, w.(marked := all)), nextRow := nextRow, sent := sent, answered := s.answered + multiset(all))
  {
    assert all - {} == all;
    var t := After(s, steps);
    assert t.pollers[p] == RowsTx(s, w, all, {});
    Extend(s, steps, Commit(p));
    assert t.pollers - {p} == s.pollers;
  }
}
