// Submitting a completion: the pending slot of each (user, map), the speed trigger and the
// tournament row a submission may add.
module Completions {
  import opened TournamentTables
  import opened Wrappers

  // legacy rows are imported history; link is core.completions.tournament_completion_id.
  datatype Core = Core(user: nat, mapId: nat, time: real, full: bool, verified: bool, verifiedBy: Option<nat>,
                       legacy: bool, insertedAt: int, link: Option<nat>)
  datatype MapInfo = MapInfo(official: bool, playtesting: bool)
  datatype Request = Request(user: nat, mapId: nat, time: real, video: bool)

  // core.completions in insertion order (rows are never deleted here, so the id is the index),
  // the tournament tables, and the maps and users the foreign keys point to.
  datatype Store = Store(users: set<nat>, maps: map<nat, MapInfo>, core: seq<Core>, db: Db, nextRun: nat)

  const BOT_USER_ID: nat := 969632729643753482

  datatype Outcome =
    | MapNotFound
    | SlowerThanPending
    | TooSlow
    | Duplicate
    | UserNotFound
    | Stored(id: nat)
    | TournamentOnly(run: nat)

  // What the database may answer where a query says LIMIT 1: any of the equally good rows.
  datatype Choice = Choice(pending: Option<nat>, best: Option<nat>, cycle: Option<nat>)

  // ---- Reads ----

  predicate Pends(c: Core) {
    !c.verified && c.verifiedBy.None? && !c.legacy
  }

  // Verified or pending, never rejected: the rows the trigger compares with.
  predicate Live(c: Core) {
    !c.legacy && (c.verified || c.verifiedBy.None?)
  }

  predicate Of(core: seq<Core>, i: nat, user: nat, mapId: nat) {
    i < |core| && core[i].user == user && core[i].mapId == mapId
  }

  predicate PendingAt(core: seq<Core>, i: nat, user: nat, mapId: nat) {
    Of(core, i, user, mapId) && Pends(core[i])
  }

  predicate LiveAt(core: seq<Core>, i: nat, user: nat, mapId: nat) {
    Of(core, i, user, mapId) && Live(core[i])
  }

  // ORDER BY time LIMIT 1
  ghost predicate FirstPending(core: seq<Core>, user: nat, mapId: nat, p: Option<nat>) {
    match p
    case None => forall i: nat :: !PendingAt(core, i, user, mapId)
    case Some(k) => PendingAt(core, k, user, mapId)
                    && forall i: nat :: PendingAt(core, i, user, mapId) ==> core[k].time <= core[i].time
  }

  ghost predicate FirstLive(core: seq<Core>, user: nat, mapId: nat, b: Option<nat>) {
    match b
    case None => forall i: nat :: !LiveAt(core, i, user, mapId)
    case Some(k) => LiveAt(core, k, user, mapId)
                    && forall i: nat :: LiveAt(core, i, user, mapId) ==> core[k].time <= core[i].time
  }

  // ---- The trigger ----

  // core.enforce_speed_rules_nonlegacy_only for a new non-legacy row.
  predicate TriggerAccepts(core: seq<Core>, row: Core, b: Option<nat>)
    requires b.Some? ==> b.value < |core|
  {
    b.None?
    || row.insertedAt < core[b.value].insertedAt
    || if row.full then row.time < core[b.value].time
       else core[b.value].full || row.time < core[b.value].time
  }

  // ---- submit_completion ----

  predicate Supersedes(core: seq<Core>, rq: Request, p: Option<nat>) {
    p.Some? && p.value < |core| && rq.time < core[p.value].time
  }

  // reject_completion by the bot of a pending row the new time beats.
  function AfterReject(core: seq<Core>, rq: Request, p: Option<nat>): seq<Core> {
    if Supersedes(core, rq, p) then core[p.value := core[p.value].(verifiedBy := Some(BOT_USER_ID))] else core
  }

  function NewRow(info: MapInfo, rq: Request, now: int): Core {
    Core(rq.user, rq.mapId, rq.time, info.playtesting || !rq.video || !info.official, false, None, false, now, None)
  }

  ghost predicate Fair(s: Store, rq: Request, ch: Choice) {
    && FirstPending(s.core, rq.user, rq.mapId, ch.pending)
    && FirstLive(AfterReject(s.core, rq, ch.pending), rq.user, rq.mapId, ch.best)
    && FirstActive(s.db, rq.mapId, ch.cycle)
  }

  predicate SameInstant(core: seq<Core>, rq: Request, now: int) {
    exists i: nat | i < |core| :: Of(core, i, rq.user, rq.mapId) && core[i].insertedAt == now
  }

  function InsertRows(s: Store, core: seq<Core>, row: Core, cycle: Option<nat>): Store {
    match cycle
    case None => s.(core := core + [row])
    case Some(c) => s.(core := core + [row.(link := Some(s.nextRun))],
                       db := AddRun(s.db, s.nextRun, row.user, c), nextRun := s.nextRun + 1)
  }

  // The whole transaction; every error rolls it back.
  ghost function Submit(s: Store, rq: Request, now: int, ch: Choice): (Store, Outcome)
    requires Fair(s, rq, ch)
  {
    if rq.mapId !in s.maps then (s, MapNotFound)
    else if ch.pending.Some? && rq.time >= s.core[ch.pending.value].time && ch.cycle.None? then (s, SlowerThanPending)
    else
      var core := AfterReject(s.core, rq, ch.pending);
      var row := NewRow(s.maps[rq.mapId], rq, now);
      if !TriggerAccepts(core, row, ch.best) then
        (match ch.cycle
         case None => (s, TooSlow)
         case Some(c) =>
           if rq.user !in s.users then (s, UserNotFound)
           else (s.(core := core, db := AddRun(s.db, s.nextRun, rq.user, c), nextRun := s.nextRun + 1),
                 TournamentOnly(s.nextRun)))
      else if SameInstant(core, rq, now) then (s, Duplicate)
      else if rq.user !in s.users then (s, UserNotFound)
      else (InsertRows(s, core, row, ch.cycle), Stored(|s.core|))
  }

  // ---- The pending slot ----

  ghost predicate OneSlot(core: seq<Core>, user: nat, mapId: nat) {
    forall i: nat, j: nat :: PendingAt(core, i, user, mapId) && PendingAt(core, j, user, mapId) ==> i == j
  }

  // A stored submission: the pending rows are the old ones minus the superseded one, plus the new.
  lemma PendingAfterStored(s: Store, rq: Request, now: int, ch: Choice, i: nat, user: nat, mapId: nat)
    requires Fair(s, rq, ch) && Submit(s, rq, now, ch).1.Stored?
    ensures PendingAt(Submit(s, rq, now, ch).0.core, i, user, mapId) <==>
              if i == |s.core| then user == rq.user && mapId == rq.mapId
              else PendingAt(s.core, i, user, mapId) && !(Supersedes(s.core, rq, ch.pending) && ch.pending.value == i)
  {
  }

  // Without a stored row the slots can only empty.
  lemma PendingAfterOther(s: Store, rq: Request, now: int, ch: Choice, i: nat, user: nat, mapId: nat)
    requires Fair(s, rq, ch) && !Submit(s, rq, now, ch).1.Stored?
    ensures PendingAt(Submit(s, rq, now, ch).0.core, i, user, mapId) ==> PendingAt(s.core, i, user, mapId)
  {
  }

  lemma OtherSlotsStay(s: Store, rq: Request, now: int, ch: Choice, user: nat, mapId: nat)
    requires Fair(s, rq, ch) && (user, mapId) != (rq.user, rq.mapId)
    ensures OneSlot(Submit(s, rq, now, ch).0.core, user, mapId) <==> OneSlot(s.core, user, mapId)
  {
    var core' := Submit(s, rq, now, ch).0.core;
    forall i: nat ensures PendingAt(core', i, user, mapId) <==> PendingAt(s.core, i, user, mapId) {
    }
  }

  // The guard under which a submission leaves a second pending row behind: an active cycle, a
  // pending run the new time does not beat, and a trigger that accepts the new row all the same,
  // because the new row is partial and the best live one is full, or because the clock says the
  // new row is older.
  ghost predicate SecondPending(s: Store, rq: Request, now: int, ch: Choice)
    requires Fair(s, rq, ch)
  {
    && rq.mapId in s.maps && rq.user in s.users && !SameInstant(s.core, rq, now)
    && ch.cycle.Some? && ch.pending.Some? && rq.time >= s.core[ch.pending.value].time
    && ch.best.Some?
    && (now < s.core[ch.best.value].insertedAt
        || (s.maps[rq.mapId].official && !s.maps[rq.mapId].playtesting && rq.video && s.core[ch.best.value].full))
  }

  lemma BestBeatsPending(s: Store, rq: Request, ch: Choice)
    requires Fair(s, rq, ch) && ch.pending.Some? && !Supersedes(s.core, rq, ch.pending)
    ensures ch.best.Some? && ch.best.value < |s.core| && s.core[ch.best.value].time <= s.core[ch.pending.value].time
  {
    assert LiveAt(s.core, ch.pending.value, rq.user, rq.mapId);
  }

  // The slot of the submitted (user, map) survives exactly when that guard is false.
  lemma SlotKeptIff(s: Store, rq: Request, now: int, ch: Choice)
    requires Fair(s, rq, ch) && OneSlot(s.core, rq.user, rq.mapId)
    ensures OneSlot(Submit(s, rq, now, ch).0.core, rq.user, rq.mapId) <==> !SecondPending(s, rq, now, ch)
  {
    var (s', out) := Submit(s, rq, now, ch);
    if ch.pending.Some? && !Supersedes(s.core, rq, ch.pending) {
      BestBeatsPending(s, rq, ch);
    }
    if out.Stored? {
      forall i: nat ensures PendingAt(s'.core, i, rq.user, rq.mapId) <==>
                         i == |s.core| || (PendingAt(s.core, i, rq.user, rq.mapId)
                                           && !(Supersedes(s.core, rq, ch.pending) && ch.pending.value == i))
      {
        PendingAfterStored(s, rq, now, ch, i, rq.user, rq.mapId);
      }
      assert PendingAt(s'.core, |s.core|, rq.user, rq.mapId);
    } else {
      forall i: nat ensures PendingAt(s'.core, i, rq.user, rq.mapId) ==> PendingAt(s.core, i, rq.user, rq.mapId) {
        PendingAfterOther(s, rq, now, ch, i, rq.user, rq.mapId);
      }
    }
  }

  // ---- What is accepted ----

  // In columns: faster than each unjudged row, and than each row not rejected, of that user and
  // map, imported rows aside.
  ghost predicate BeatsPending(core: seq<Core>, rq: Request) {
    forall i: nat | i < |core| && core[i].user == rq.user && core[i].mapId == rq.mapId && !core[i].legacy
                    && !core[i].verified && core[i].verifiedBy == None :: rq.time < core[i].time
  }

  ghost predicate BeatsLive(core: seq<Core>, rq: Request) {
    forall i: nat | i < |core| && core[i].user == rq.user && core[i].mapId == rq.mapId && !core[i].legacy
                    && !(core[i].verifiedBy != None && !core[i].verified) :: rq.time < core[i].time
  }

  lemma BeatsIs(core: seq<Core>, rq: Request)
    ensures BeatsPending(core, rq) <==> forall i: nat :: PendingAt(core, i, rq.user, rq.mapId) ==> rq.time < core[i].time
    ensures BeatsLive(core, rq) <==> forall i: nat :: LiveAt(core, i, rq.user, rq.mapId) ==> rq.time < core[i].time
  {
    forall i: nat | i < |core| && core[i].user == rq.user && core[i].mapId == rq.mapId && !core[i].legacy
      ensures PendingAt(core, i, rq.user, rq.mapId) <==> !core[i].verified && core[i].verifiedBy == None
      ensures LiveAt(core, i, rq.user, rq.mapId) <==> !(core[i].verifiedBy != None && !core[i].verified)
    {
    }
  }

  // now() is later than every row of the same user on the same map.
  ghost predicate ClockAhead(core: seq<Core>, rq: Request, now: int) {
    forall i: nat :: Of(core, i, rq.user, rq.mapId) ==> core[i].insertedAt < now
  }

  lemma BeatsPendingIff(core: seq<Core>, rq: Request, p: Option<nat>)
    requires FirstPending(core, rq.user, rq.mapId, p)
    ensures BeatsPending(core, rq) <==> (p.Some? ==> rq.time < core[p.value].time)
  {
    BeatsIs(core, rq);
  }

  lemma LiveAfterReject(core: seq<Core>, rq: Request, p: Option<nat>, i: nat)
    requires FirstPending(core, rq.user, rq.mapId, p)
    ensures LiveAt(AfterReject(core, rq, p), i, rq.user, rq.mapId)
            <==> LiveAt(core, i, rq.user, rq.mapId) && !(Supersedes(core, rq, p) && p.value == i)
    ensures i < |core| ==> AfterReject(core, rq, p)[i].time == core[i].time
  {
  }

  lemma BeatsLiveIff(core: seq<Core>, rq: Request, p: Option<nat>, b: Option<nat>)
    requires FirstPending(core, rq.user, rq.mapId, p)
    requires FirstLive(AfterReject(core, rq, p), rq.user, rq.mapId, b)
    ensures BeatsLive(AfterReject(core, rq, p), rq) <==> BeatsLive(core, rq)
    ensures BeatsLive(core, rq) <==> (b.Some? ==> rq.time < core[b.value].time)
  {
    BeatsIs(core, rq);
    BeatsIs(AfterReject(core, rq, p), rq);
    forall i: nat
      ensures LiveAt(AfterReject(core, rq, p), i, rq.user, rq.mapId)
              <==> LiveAt(core, i, rq.user, rq.mapId) && !(Supersedes(core, rq, p) && p.value == i)
      ensures i < |core| ==> AfterReject(core, rq, p)[i].time == core[i].time
    {
      LiveAfterReject(core, rq, p, i);
    }
  }

  // Only a run with video on an official map that is not being playtested is partial.
  predicate Partial(s: Store, rq: Request) {
    rq.mapId in s.maps && s.maps[rq.mapId].official && !s.maps[rq.mapId].playtesting && rq.video
  }

  // The trigger's rule: beat every run that is not rejected, or be partial where the best is full.
  ghost predicate FastEnough(s: Store, rq: Request, b: Option<nat>)
    requires b.Some? ==> b.value < |s.core|
  {
    BeatsLive(s.core, rq) || (Partial(s, rq) && b.Some? && s.core[b.value].full)
  }

  // The clock says that the best run came after the new one, and the trigger skips its check.
  predicate Backdated(s: Store, now: int, b: Option<nat>)
    requires b.Some? ==> b.value < |s.core|
  {
    b.Some? && now < s.core[b.value].insertedAt
  }

  ghost predicate Taken(s: Store, rq: Request, now: int) {
    exists i: nat :: i < |s.core| && s.core[i].user == rq.user && s.core[i].mapId == rq.mapId && s.core[i].insertedAt == now
  }

  lemma TriggerIff(s: Store, rq: Request, now: int, ch: Choice)
    requires Fair(s, rq, ch) && rq.mapId in s.maps
    ensures TriggerAccepts(AfterReject(s.core, rq, ch.pending), NewRow(s.maps[rq.mapId], rq, now), ch.best)
            <==> FastEnough(s, rq, ch.best) || Backdated(s, now, ch.best)
  {
    BeatsLiveIff(s.core, rq, ch.pending, ch.best);
  }

  lemma TakenIff(s: Store, rq: Request, now: int, p: Option<nat>)
    ensures SameInstant(AfterReject(s.core, rq, p), rq, now) <==> Taken(s, rq, now)
  {
    var core := AfterReject(s.core, rq, p);
    if i: nat :| i < |core| && Of(core, i, rq.user, rq.mapId) && core[i].insertedAt == now {
      assert s.core[i].user == rq.user && s.core[i].mapId == rq.mapId && s.core[i].insertedAt == now;
    }
    if i: nat :| i < |s.core| && s.core[i].user == rq.user && s.core[i].mapId == rq.mapId && s.core[i].insertedAt == now {
      assert Of(core, i, rq.user, rq.mapId) && core[i].insertedAt == now;
    }
  }

  // Which submission ends how, on any map and by any clock, whichever of several equal rows the
  // queries pick.
  lemma OutcomeIff(s: Store, rq: Request, now: int, ch: Choice)
    requires Fair(s, rq, ch)
    ensures var out, open := Submit(s, rq, now, ch).1, HasActiveCycle(s.db, rq.mapId);
            var mapKnown, userKnown, taken := rq.mapId in s.maps, rq.user in s.users, Taken(s, rq, now);
            var beats, passes := BeatsPending(s.core, rq), FastEnough(s, rq, ch.best) || Backdated(s, now, ch.best);
            && (out == MapNotFound <==> !mapKnown)
            && (out == SlowerThanPending <==> mapKnown && !open && !beats)
            && (out == TooSlow <==> mapKnown && !open && beats && !passes)
            && (out == Duplicate <==> mapKnown && (open || beats) && passes && taken)
            && (out.Stored? <==> mapKnown && userKnown && (open || beats) && passes && !taken)
            && (out.TournamentOnly? <==> mapKnown && userKnown && open && !passes)
            && (out == UserNotFound <==> mapKnown && !userKnown && (if passes then (open || beats) && !taken else open))
  {
    BeatsPendingIff(s.core, rq, ch.pending);
    TakenIff(s, rq, now, ch.pending);
    if rq.mapId in s.maps {
      TriggerIff(s, rq, now, ch);
    }
  }

  // On a map without an active cycle a full run is stored exactly when it beats every run of
  // that user that is not rejected, whichever of several equal rows the queries pick; a partial
  // run need not beat the others when the best of them is full.
  lemma AcceptedIff(s: Store, rq: Request, now: int, ch: Choice)
    requires Fair(s, rq, ch) && !HasActiveCycle(s.db, rq.mapId) && ClockAhead(s.core, rq, now)
    ensures Submit(s, rq, now, ch).1.Stored? <==>
              && rq.mapId in s.maps && rq.user in s.users && BeatsPending(s.core, rq)
              && (BeatsLive(s.core, rq)
                  || (s.maps[rq.mapId].official && !s.maps[rq.mapId].playtesting && rq.video
                      && ch.best.Some? && s.core[ch.best.value].full))
  {
    OutcomeIff(s, rq, now, ch);
    if i: nat :| i < |s.core| && s.core[i].user == rq.user && s.core[i].mapId == rq.mapId && s.core[i].insertedAt == now {
      assert Of(s.core, i, rq.user, rq.mapId);
    }
    if ch.best.Some? {
      assert Of(s.core, ch.best.value, rq.user, rq.mapId);
    }
  }

  // The new row of core.completions, column by column.
  function FreshRow(s: Store, rq: Request, now: int, link: Option<nat>): Core
    requires rq.mapId in s.maps
  {
    var m := s.maps[rq.mapId];
    Core(rq.user, rq.mapId, rq.time, m.playtesting || !m.official || !rq.video, false, None, false, now, link)
  }

  // What a submission leaves of the old rows: a pending one that it beats is rejected by the bot.
  ghost predicate OldRowsAfter(s: Store, rq: Request, p: Option<nat>, core': seq<Core>) {
    |core'| >= |s.core|
    && forall i: nat :: i < |s.core| ==>
         core'[i] == if p == Some(i) && rq.time < s.core[i].time then s.core[i].(verifiedBy := Some(969632729643753482)) else s.core[i]
  }

  // On a map with active cycle c: a stored submission adds one completion linked to one new
  // pending tournament row of c; a tournament-only one adds the tournament row alone; every other
  // outcome changes nothing.
  lemma SubmitWithCycle(s: Store, rq: Request, now: int, ch: Choice, c: nat)
    requires Fair(s, rq, ch) && ch.cycle == Some(c) && forall r :: r in s.db.runs ==> r < s.nextRun
    ensures var (s', out) := Submit(s, rq, now, ch);
            match out
            case Stored(id) =>
              && rq.mapId in s.maps && id == |s.core| && |s'.core| == id + 1 && OldRowsAfter(s, rq, ch.pending, s'.core)
              && s'.core[id].link.Some? && s'.core[id].link.value !in s.db.runs
              && s'.core[id] == FreshRow(s, rq, now, s'.core[id].link)
              && s'.db == s.db.(runs := s.db.runs[s'.core[id].link.value := Run(c, rq.user, Pending)])
              && s' == s.(core := s'.core, db := s'.db, nextRun := s.nextRun + 1)
            case TournamentOnly(r) =>
              && |s'.core| == |s.core| && OldRowsAfter(s, rq, ch.pending, s'.core) && r !in s.db.runs
              && s'.db == s.db.(runs := s.db.runs[r := Run(c, rq.user, Pending)])
              && s' == s.(core := s'.core, db := s'.db, nextRun := s.nextRun + 1)
            case _ => s' == s
  {
  }

  // Without an active cycle: a refused submission changes nothing at all, and a stored one turns
  // every pending row of the slot into a rejected, strictly slower one and adds one pending row,
  // in the same transaction, touching nothing else.
  lemma SupersededAtomically(s: Store, rq: Request, now: int, ch: Choice)
    requires Fair(s, rq, ch) && !HasActiveCycle(s.db, rq.mapId) && OneSlot(s.core, rq.user, rq.mapId)
    ensures var (s', out) := Submit(s, rq, now, ch);
            if !out.Stored? then s' == s
            else
              && s' == s.(core := s'.core) && |s'.core| == |s.core| + 1
              && rq.mapId in s.maps && s'.core[|s.core|] == FreshRow(s, rq, now, None)
              && PendingAt(s'.core, |s.core|, rq.user, rq.mapId)
              && forall i: nat :: i < |s.core| ==>
                   if PendingAt(s.core, i, rq.user, rq.mapId)
                   then rq.time < s.core[i].time && s'.core[i] == s.core[i].(verifiedBy := Some(BOT_USER_ID))
                   else s'.core[i] == s.core[i]
  {
    var (s', out) := Submit(s, rq, now, ch);
    if out.Stored? {
      BeatsPendingIff(s.core, rq, ch.pending);
      forall i: nat | i < |s.core|
        ensures if PendingAt(s.core, i, rq.user, rq.mapId)
                then rq.time < s.core[i].time && s'.core[i] == s.core[i].(verifiedBy := Some(BOT_USER_ID))
                else s'.core[i] == s.core[i]
      {
        if PendingAt(s.core, i, rq.user, rq.mapId) {
          assert ch.pending.Some? && PendingAt(s.core, ch.pending.value, rq.user, rq.mapId);
        }
      }
    }
  }

  // The guard can be met: a partial run on an official map with an active cycle, slower than the
  // user's pending full run.
  lemma SecondPendingHappens() returns (s: Store, rq: Request, ch: Choice)
    ensures Fair(s, rq, ch) && OneSlot(s.core, rq.user, rq.mapId) && ClockAhead(s.core, rq, 1)
    ensures SecondPending(s, rq, 1, ch) && !OneSlot(Submit(s, rq, 1, ch).0.core, rq.user, rq.mapId)
  {
    var pending := Core(7, 3, 10.0, true, false, None, false, 0, None);
    var db := EMPTY.(cycles := map[0 := Cycle(None, 3, CycleActive)]);
    s := Store({7}, map[3 := MapInfo(true, false)], [pending], db, 0);
    rq := Request(7, 3, 12.0, true);
    ch := Choice(Some(0), Some(0), Some(0));
    assert Fair(s, rq, ch);
    SlotKeptIff(s, rq, 1, ch);
  }
}
