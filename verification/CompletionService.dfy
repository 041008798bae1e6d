// The completions service: submit, verify and moderate, each carried out statement by statement
// and proved to do what Completions and CompletionVerdicts say.
module CompletionService {
  import opened Wrappers
  import opened TournamentTables
  import opened Completions
  import opened CompletionVerdicts
  import TournamentDrain

  // Fetch, write and count with nothing in between; a refused write has already closed the call.
  ghost function CountedCall(s: State, p: nat, c: nat, verified: bool, judge: Option<nat>): State
    requires p !in s.calls && c < |s.store.core|
  {
    var wrote := Next(Next(s, Fetch(p, c, verified, judge)), Write(p));
    if p in wrote.calls then Next(wrote, Count(p)) else wrote
  }

  // Propagate, and publish if the status changed.
  ghost function Announced(s: State, p: nat): State
    requires p in s.calls ==> s.calls[p].phase == Counted
  {
    if p !in s.calls then s
    else
      var put := Next(s, Propagate(p));
      if p in put.calls then Next(put, Publish(p)) else put
  }

  ghost function Verify(s: State, p: nat, c: nat, verified: bool, judge: nat): State
    requires p !in s.calls && c < |s.store.core|
  {
    Announced(CountedCall(s, p, c, verified, Some(judge)), p)
  }

  // The same call told as its statements: row, quests, tournament row, event.
  function Once(c: nat, happens: bool): multiset<nat> {
    if happens then multiset{c} else multiset{}
  }

  function SetRow(s: State, c: nat, row: Core, verified: bool): State
    requires c < |s.store.core|
  {
    var before := s.store.core[c].verified;
    s.(store := s.store.(core := s.store.core[c := row]),
       updates := s.updates + Once(c, verified && !before), reverts := s.reverts + Once(c, !verified && before))
  }

  function SetLinked(s: State, link: Option<nat>, verified: bool): State {
    if !Propagates(s.store.db, link) then s
    else
      s.(store := s.store.(db := SetVerdict(s.store.db, link.value, verified)),
         published := s.published + Once(link.value, s.store.db.runs[link.value].status != StatusFor(verified)))
  }

  lemma WriteIs(s: State, call: Call)
    requires s.calls == map[0 := call] && call.completion < |s.store.core| && !WriteRefused(s.store, call)
    ensures var c := call.completion;
            WriteVerdict(s, 0)
            == s.(store := s.store.(core := s.store.core[c := Judged(s.store.core[c], call.verified, call.judge)]),
                  calls := map[0 := call.(phase := Written)])
  {
    assert s.calls[0 := call.(phase := Written)] == map[0 := call.(phase := Written)];
  }

  lemma CountIs(s: State, call: Call)
    requires s.calls == map[0 := call]
    ensures CountQuest(s, 0)
            == s.(updates := s.updates + Once(call.completion, DueUpdate(call)),
                  reverts := s.reverts + Once(call.completion, DueRevert(call)),
                  calls := if call.judge.Some? then map[0 := call.(phase := Counted)] else map[])
  {
    assert s.calls - {0} == map[];
    assert s.calls[0 := call.(phase := Counted)] == map[0 := call.(phase := Counted)];
  }

  lemma AnnouncedIs(s: State, call: Call)
    requires s.calls == map[0 := call] && call.phase == Counted
    ensures Announced(s, 0) == SetLinked(s, call.link, call.verified).(calls := map[])
  {
    assert s.calls - {0} == map[];
    var put := PropagateVerdict(s, 0);
    if Propagates(s.store.db, call.link) {
      var db := SetVerdict(s.store.db, call.link.value, call.verified);
      if s.store.db.runs[call.link.value].status != StatusFor(call.verified) {
        assert put == s.(store := s.store.(db := db), calls := map[0 := call.(phase := Changed)]);
        assert put.calls - {0} == map[];
      } else {
        assert put == s.(store := s.store.(db := db), calls := map[]);
      }
    } else {
      assert put == s.(calls := map[]);
    }
  }

  lemma CountedIs(s: State, c: nat, verified: bool, judge: Option<nat>)
    requires s.calls == map[] && c < |s.store.core| && (judge.Some? ==> judge.value in s.store.users)
    ensures var row := s.store.core[c];
            CountedCall(s, 0, c, verified, judge)
            == SetRow(s, c, Judged(row, verified, judge), verified)
                 .(calls := if judge.Some? then map[0 := Call(c, verified, judge, row.verified, row.link, Counted)] else map[])
  {
    var call := Call(c, verified, judge, s.store.core[c].verified, s.store.core[c].link, Fetched);
    var fetched := s.(calls := map[0 := call]);
    WriteIs(fetched, call);
    CountIs(WriteVerdict(fetched, 0), call.(phase := Written));
  }

  lemma RefusedIs(s: State, c: nat, verified: bool, judge: nat)
    requires s.calls == map[] && c < |s.store.core| && judge !in s.store.users
    ensures CountedCall(s, 0, c, verified, Some(judge)) == s
  {
    assert Next(s, Fetch(0, c, verified, Some(judge))).calls - {0} == map[];
  }

  lemma VerifyIs(s: State, c: nat, verified: bool, judge: nat)
    requires s.calls == map[] && c < |s.store.core| && judge in s.store.users
    ensures Verify(s, 0, c, verified, judge)
            == SetLinked(SetRow(s, c, s.store.core[c].(verified := verified, verifiedBy := Some(judge)), verified),
                         s.store.core[c].link, verified)
  {
    var row := s.store.core[c];
    CountedIs(s, c, verified, Some(judge));
    AnnouncedIs(CountedCall(s, 0, c, verified, Some(judge)), Call(c, verified, Some(judge), row.verified, row.link, Counted));
  }

  lemma ModerateIs(s: State, c: nat, verified: bool)
    requires s.calls == map[] && c < |s.store.core|
    ensures CountedCall(s, 0, c, verified, None) == SetRow(s, c, s.store.core[c].(verified := verified), verified)
  {
    CountedIs(s, c, verified, None);
  }

  // A verify call on a linked completion takes exactly its run out of the edition's queue.
  lemma VerifyTakesOut(s: State, c: nat, verified: bool, judge: nat, e: nat)
    requires s.calls == map[] && c < |s.store.core| && judge in s.store.users && Propagates(s.store.db, s.store.core[c].link)
    ensures Inflight(Verify(s, 0, c, verified, judge).store.db, e) == Inflight(s.store.db, e) - {s.store.core[c].link.value}
  {
    VerifyIs(s, c, verified, judge);
    TournamentDrain.VerdictTakesOut(s.store.db, s.store.core[c].link.value, verified, e);
  }

  lemma StoredRunJoins(db: Db, run: nat, user: nat, c: nat, mapId: nat, e: nat)
    requires run !in db.runs && ActiveOn(db, c, mapId) && ChildOf(db, c, e)
    ensures Inflight(AddRun(db, run, user, c), e) == Inflight(db, e) + {run} && run !in Inflight(db, e)
  {
  }

  lemma FlipKeepsInflight(db: Db, e: nat, period: nat, paused: bool, newEdition: nat, newCycles: map<nat, nat>)
    requires e in db.editions && newEdition !in db.editions && newCycles.Keys !! db.cycles.Keys
    requires forall r :: r in db.runs ==> db.runs[r].cycle in db.cycles
    ensures Inflight(FlipEdition(db, e, period, paused, newEdition, newCycles), e) == Inflight(db, e)
  {
    FlipRows(db, e, period, paused, newEdition, newCycles);
  }

  // A submission stored on an edition's active cycle joins that edition's queue.
  lemma StoredRunQueues(st: Store, rq: Request, now: int, ch: Choice, c: nat, e: nat) returns (r: nat)
    requires Fair(st, rq, ch) && Links(st) && ForeignKeys(st.db) && ch.cycle == Some(c) && ChildOf(st.db, c, e)
    requires Submit(st, rq, now, ch).1.Stored?
    ensures var (st1, out) := Submit(st, rq, now, ch);
            && out.id < |st1.core| && st1.core[out.id].link == Some(r) && st1.users == st.users
            && st1.db == AddRun(st.db, r, rq.user, c)
            && r !in Inflight(st.db, e) && Inflight(st1.db, e) == Inflight(st.db, e) + {r}
  {
    SubmitWithCycle(st, rq, now, ch, c);
    var (st1, out) := Submit(st, rq, now, ch);
    r := st1.core[out.id].link.value;
    StoredRunJoins(st.db, r, rq.user, c, rq.mapId, e);
  }

  // A run in the queue stays in it when the boundary comes, and the verify call of its completion,
  // with either verdict, takes exactly that run out.
  lemma FlippedRunDrains(st: Store, id: nat, r: nat, e: nat, period: nat, paused: bool, newEdition: nat,
                         newCycles: map<nat, nat>, verified: bool, judge: nat)
    requires id < |st.core| && st.core[id].link == Some(r) && ForeignKeys(st.db) && r in Inflight(st.db, e) && judge in st.users
    requires e in st.db.editions && newEdition !in st.db.editions && newCycles.Keys !! st.db.cycles.Keys
    ensures var flipped := FlipEdition(st.db, e, period, paused, newEdition, newCycles);
            && Inflight(flipped, e) == Inflight(st.db, e)
            && Inflight(Verify(Quiet(st.(db := flipped)), 0, id, verified, judge).store.db, e) == Inflight(st.db, e) - {r}
  {
    var flipped := FlipEdition(st.db, e, period, paused, newEdition, newCycles);
    FlipKeepsInflight(st.db, e, period, paused, newEdition, newCycles);
    assert r in Inflight(flipped, e);
    VerifyTakesOut(Quiet(st.(db := flipped)), id, verified, judge, e);
  }

  // Submit, boundary, verify: the queue is back where it was, whatever the verdict.
  lemma StoredRunDrains(st: Store, rq: Request, now: int, ch: Choice, c: nat, e: nat, period: nat, paused: bool,
                        newEdition: nat, newCycles: map<nat, nat>, verified: bool, judge: nat)
    requires Fair(st, rq, ch) && Links(st) && ForeignKeys(st.db) && ch.cycle == Some(c) && ChildOf(st.db, c, e)
    requires Submit(st, rq, now, ch).1.Stored? && judge in st.users
    requires newEdition !in st.db.editions && newCycles.Keys !! st.db.cycles.Keys
    ensures var (st1, out) := Submit(st, rq, now, ch);
            && e in st1.db.editions && out.id < |st1.core| && |Inflight(st1.db, e)| == |Inflight(st.db, e)| + 1
            && var flipped := FlipEdition(st1.db, e, period, paused, newEdition, newCycles);
               Inflight(flipped, e) == Inflight(st1.db, e)
               && Inflight(Verify(Quiet(st1.(db := flipped)), 0, out.id, verified, judge).store.db, e) == Inflight(st.db, e)
  {
    var r := StoredRunQueues(st, rq, now, ch, c, e);
    var (st1, out) := Submit(st, rq, now, ch);
    AddRunKeepsKeys(st.db, r, rq.user, c);
    FlippedRunDrains(st1, out.id, r, e, period, paused, newEdition, newCycles, verified, judge);
    assert Inflight(st.db, e) + {r} - {r} == Inflight(st.db, e);
  }

  lemma AddRunKeepsKeys(db: Db, r: nat, user: nat, c: nat)
    requires ForeignKeys(db) && c in db.cycles
    ensures ForeignKeys(AddRun(db, r, user, c))
  {
  }

  class CompletionsService {
    const users: set<nat>
    const maps: map<nat, MapInfo>
    const tournaments: TournamentRepository
    var core: seq<Core>
    var updates: multiset<nat>
    var reverts: multiset<nat>
    var published: multiset<nat>

    ghost function Rows(): Store
      reads this, tournaments
    {
      Store(users, maps, core, tournaments.Contents(), tournaments.nextRun)
    }

    ghost function Contents(): State
      reads this, tournaments
    {
      State(Rows(), map[], updates, reverts, published)
    }

    constructor (users: set<nat>, maps: map<nat, MapInfo>, tournaments: TournamentRepository)
      ensures this.users == users && this.maps == maps && this.tournaments == tournaments
      ensures core == [] && updates == reverts == published == multiset{}
    {
      this.users, this.maps, this.tournaments := users, maps, tournaments;
      core, updates, reverts, published := [], multiset{}, multiset{}, multiset{};
    }

    method GetPendingVerification(user: nat, mapId: nat) returns (p: Option<nat>)
      ensures FirstPending(core, user, mapId, p)
      ensures p.Some? ==> p.value < |core| && core[p.value].user == user && core[p.value].mapId == mapId
                          && !core[p.value].verified && core[p.value].verifiedBy.None? && !core[p.value].legacy
      ensures forall k: nat :: k < |core| && core[k].user == user && core[k].mapId == mapId
                               && !core[k].verified && core[k].verifiedBy.None? && !core[k].legacy ==>
                p.Some? && core[p.value].time <= core[k].time
    {
      p := None;
      for i := 0 to |core|
        invariant p.Some? ==> p.value < i && PendingAt(core, p.value, user, mapId)
        invariant forall k: nat :: k < i && PendingAt(core, k, user, mapId) ==>
                    p.Some? && core[p.value].time <= core[k].time
      {
        if PendingAt(core, i, user, mapId) && (p.None? || core[i].time < core[p.value].time) {
          p := Some(i);
        }
      }
    }

    // The trigger's own query, over the rows as the transaction sees them.
    method FindBest(rows: seq<Core>, user: nat, mapId: nat) returns (b: Option<nat>)
      ensures FirstLive(rows, user, mapId, b)
      ensures b.Some? ==> b.value < |rows| && rows[b.value].user == user && rows[b.value].mapId == mapId
                          && (rows[b.value].verified || rows[b.value].verifiedBy.None?) && !rows[b.value].legacy
      ensures forall k: nat :: k < |rows| && rows[k].user == user && rows[k].mapId == mapId
                               && (rows[k].verified || rows[k].verifiedBy.None?) && !rows[k].legacy ==>
                b.Some? && rows[b.value].time <= rows[k].time
    {
      b := None;
      for i := 0 to |rows|
        invariant b.Some? ==> b.value < i && LiveAt(rows, b.value, user, mapId)
        invariant forall k: nat :: k < i && LiveAt(rows, k, user, mapId) ==>
                    b.Some? && rows[b.value].time <= rows[k].time
      {
        if LiveAt(rows, i, user, mapId) && (b.None? || rows[i].time < rows[b.value].time) {
          b := Some(i);
        }
      }
    }

    // Changes reach the fields only where the transaction commits; every early return before that
    // is a rollback.
    method SubmitCompletion(rq: Request, now: int) returns (outcome: Outcome, ghost ch: Choice)
      modifies this`core, tournaments`runs, tournaments`nextRun
      ensures Fair(old(Rows()), rq, ch)
      ensures (Rows(), outcome) == Submit(old(Rows()), rq, now, ch)
    {
      var cycle := tournaments.GetActiveCycleByMapId(rq.mapId);
      var pending := GetPendingVerification(rq.user, rq.mapId);
      var rows := core;
      if pending.Some? && rq.time < core[pending.value].time {
        rows := core[pending.value := core[pending.value].(verifiedBy := Some(BOT_USER_ID))];
      }
      var best := FindBest(rows, rq.user, rq.mapId);
      ch := Choice(pending, best, cycle);
      if rq.mapId !in maps {
        return MapNotFound, ch;
      }
      if pending.Some? && rq.time >= core[pending.value].time && cycle.None? {
        return SlowerThanPending, ch;
      }
      var row := NewRow(maps[rq.mapId], rq, now);
      if !TriggerAccepts(rows, row, best) {
        if cycle.None? {
          return TooSlow, ch;
        }
        if rq.user !in users {
          return UserNotFound, ch;
        }
        var run := tournaments.CreateTournamentCompletion(cycle.value, rq.user);
        core := rows;
        return TournamentOnly(run), ch;
      }
      if SameInstant(rows, rq, now) {
        return Duplicate, ch;
      }
      if rq.user !in users {
        return UserNotFound, ch;
      }
      outcome := Stored(|core|);
      InsertAndLink(rows, row, cycle);
    }

    // insert_completion, then set_completion_tournament_link on a map with an active cycle.
    method InsertAndLink(rows: seq<Core>, row: Core, cycle: Option<nat>)
      requires row.link.None?
      modifies this`core, tournaments`runs, tournaments`nextRun
      ensures Rows() == InsertRows(old(Rows()), rows, row, cycle)
    {
      core := rows + [row];
      if cycle.Some? {
        var run := tournaments.CreateTournamentCompletion(cycle.value, row.user);
        core := core[|rows| := row.(link := Some(run))];
        assert core == rows + [row.(link := Some(run))];
      }
    }

    method PropagateTournamentVerdict(link: Option<nat>, verified: bool)
      modifies this`published, tournaments`runs
      ensures Contents() == SetLinked(old(Contents()), link, verified)
    {
      if link.None? || link.value !in tournaments.runs || tournaments.runs[link.value].cycle !in tournaments.cycles {
        return;
      }
      var changed := tournaments.SetTournamentVerified(link.value, verified);
      if changed.Some? {
        published := published + multiset{link.value};
      }
    }

    // The UPDATE of the row, then the quest progress against the flag read before it.
    method UpdateRow(c: nat, row: Core, verified: bool)
      requires c < |core|
      modifies this`core, this`updates, this`reverts
      ensures Contents() == SetRow(old(Contents()), c, row, verified)
    {
      var before := core[c].verified;
      core := core[c := row];
      if verified && !before {
        updates := updates + multiset{c};
      }
      if !verified && before {
        reverts := reverts + multiset{c};
      }
    }

    // ok is false for CompletionNotFoundError: an unknown completion or an unknown verifier.
    method VerifyCompletion(c: nat, verified: bool, judge: nat) returns (ok: bool)
      modifies this`core, this`updates, this`reverts, this`published, tournaments`runs
      ensures ok <==> c < |old(core)| && judge in users
      ensures Contents() == if c < |old(core)| then Verify(old(Contents()), 0, c, verified, judge) else old(Contents())
      ensures ok ==>
                && core == old(core)[c := old(core)[c].(verified := verified, verifiedBy := Some(judge))]
                && updates == old(updates) + (if verified && !old(core)[c].verified then multiset{c} else multiset{})
                && reverts == old(reverts) + (if !verified && old(core)[c].verified then multiset{c} else multiset{})
                && (Propagates(old(tournaments.Contents()), core[c].link) ==>
                      tournaments.runs == old(tournaments.runs)[core[c].link.value :=
                        old(tournaments.runs)[core[c].link.value].(status := if verified then Verified else Rejected)])
    {
      if c >= |core| {
        return false;
      }
      if judge !in users {
        RefusedIs(Contents(), c, verified, judge);
        return false;
      }
      VerifyIs(Contents(), c, verified, judge);
      var link := core[c].link;
      UpdateRow(c, core[c].(verified := verified, verifiedBy := Some(judge)), verified);
      PropagateTournamentVerdict(link, verified);
      ok := true;
    }

    method ModerateCompletion(c: nat, verified: bool) returns (ok: bool)
      modifies this`core, this`updates, this`reverts
      ensures ok <==> c < |old(core)|
      ensures Contents() == if ok then CountedCall(old(Contents()), 0, c, verified, None) else old(Contents())
      ensures ok ==>
                && core == old(core)[c := old(core)[c].(verified := verified)]
                && updates == old(updates) + (if verified && !old(core)[c].verified then multiset{c} else multiset{})
                && reverts == old(reverts) + (if !verified && old(core)[c].verified then multiset{c} else multiset{})
    {
      if c >= |core| {
        return false;
      }
      ModerateIs(Contents(), c, verified);
      UpdateRow(c, core[c].(verified := verified), verified);
      ok := true;
    }
  }
}
