// Verdicts on completions. verify_completion reads the row, writes it, counts quest progress,
// propagates to the linked tournament row and announces that, each committed on its own;
// moderate_completion stops after the quests. Calls interleave with each other and with
// submissions, and a call may end at any point, because each of its statements can raise.
module CompletionVerdicts {
  import opened Wrappers
  import opened TournamentTables
  import opened Completions
  import TournamentPollers

  // What a call has committed: nothing, the row, the quests, a changed tournament status.
  datatype Phase = Fetched | Written | Counted | Changed

  // A call in flight: verify_completion carries the verifier, moderate_completion carries None.
  // before and link are what the call read when it began.
  datatype Call = Call(completion: nat, verified: bool, judge: Option<nat>, before: bool, link: Option<nat>, phase: Phase)

  // updates and reverts count quest calls per completion, published the verification-changed
  // events per tournament row.
  datatype State = State(store: Store, calls: map<nat, Call>,
                         updates: multiset<nat>, reverts: multiset<nat>, published: multiset<nat>)

  datatype Step =
    | SubmitRun(rq: Request, now: int, ch: Choice)
    | Fetch(call: nat, completion: nat, verified: bool, judge: Option<nat>)
    | Write(call: nat)
    | Count(call: nat)
    | Propagate(call: nat)
    | Publish(call: nat)
    | Die(call: nat)

  predicate InPhase(s: State, p: nat, phase: Phase) {
    p in s.calls && s.calls[p].phase == phase
  }

  ghost predicate Enabled(s: State, step: Step) {
    match step
    case SubmitRun(rq, now, ch) => Fair(s.store, rq, ch)
    case Fetch(p, c, verified, judge) => p !in s.calls && c < |s.store.core|
    case Write(p) => InPhase(s, p, Fetched) && s.calls[p].completion < |s.store.core|
    case Count(p) => InPhase(s, p, Written)
    case Propagate(p) => InPhase(s, p, Counted)
    case Publish(p) => InPhase(s, p, Changed)
    case Die(p) => p in s.calls
  }

  function Close(s: State, p: nat): State {
    s.(calls := s.calls - {p})
  }

  function Move(s: State, p: nat, phase: Phase): State
    requires p in s.calls
  {
    s.(calls := s.calls[p := s.calls[p].(phase := phase)])
  }

  function Judged(row: Core, verified: bool, judge: Option<nat>): Core {
    if judge.Some? then row.(verified := verified, verifiedBy := judge) else row.(verified := verified)
  }

  // The foreign key on verified_by.
  predicate WriteRefused(st: Store, c: Call) {
    c.judge.Some? && c.judge.value !in st.users
  }

  function WriteVerdict(s: State, p: nat): State
    requires p in s.calls && s.calls[p].completion < |s.store.core|
  {
    var c := s.calls[p];
    if WriteRefused(s.store, c) then Close(s, p)
    else
      Move(s, p, Written).(store := s.store.(core :=
        s.store.core[c.completion := Judged(s.store.core[c.completion], c.verified, c.judge)]))
  }

  predicate DueUpdate(c: Call) { c.verified && !c.before }
  predicate DueRevert(c: Call) { !c.verified && c.before }

  // The quest progress follows the old value as read.
  function CountQuest(s: State, p: nat): State
    requires p in s.calls
  {
    var c := s.calls[p];
    (if c.judge.Some? then Move(s, p, Counted) else Close(s, p)).(
      updates := if DueUpdate(c) then s.updates + multiset{c.completion} else s.updates,
      reverts := if DueRevert(c) then s.reverts + multiset{c.completion} else s.reverts)
  }

  function StatusFor(verified: bool): RunStatus {
    if verified then Verified else Rejected
  }

  // _propagate_tournament_verdict acts on an existing row of an existing cycle.
  predicate Propagates(db: Db, link: Option<nat>) {
    link.Some? && link.value in db.runs && db.runs[link.value].cycle in db.cycles
  }

  // Only a real change of the status goes on to be announced.
  function PropagateVerdict(s: State, p: nat): State
    requires p in s.calls
  {
    var c := s.calls[p];
    if !Propagates(s.store.db, c.link) then Close(s, p)
    else
      (if s.store.db.runs[c.link.value].status != StatusFor(c.verified) then Move(s, p, Changed) else Close(s, p)).(
        store := s.store.(db := SetVerdict(s.store.db, c.link.value, c.verified)))
  }

  function PublishChange(s: State, p: nat): State
    requires p in s.calls
  {
    var c := s.calls[p];
    if c.link.Some? then Close(s, p).(published := s.published + multiset{c.link.value}) else Close(s, p)
  }

  ghost function Next(s: State, step: Step): State
    requires Enabled(s, step)
  {
    match step
    case SubmitRun(rq, now, ch) => s.(store := Submit(s.store, rq, now, ch).0)
    case Fetch(p, c, verified, judge) =>
      s.(calls := s.calls[p := Call(c, verified, judge, s.store.core[c].verified, s.store.core[c].link, Fetched)])
    case Write(p) => WriteVerdict(s, p)
    case Count(p) => CountQuest(s, p)
    case Propagate(p) => PropagateVerdict(s, p)
    case Publish(p) => PublishChange(s, p)
    case Die(p) => Close(s, p)
  }

  // ---- Runs ----

  ghost predicate CanRun(s: State, steps: seq<Step>)
    decreases steps
  {
    steps == [] || (Enabled(s, steps[0]) && CanRun(Next(s, steps[0]), steps[1..]))
  }

  ghost function After(s: State, steps: seq<Step>): State
    requires CanRun(s, steps)
    decreases steps
  {
    if steps == [] then s else After(Next(s, steps[0]), steps[1..])
  }

  // Disciplines a run may follow.
  datatype Rule =
    | NoOverlap                       // no two calls work on one completion at once
    | NoModeration
    | NoEarlyEnd(completion: nat)     // no call on it ends between its write and its quests
    | NoLooseEnd(completion: nat)     // whoever writes that completion goes on to propagate

  predicate LooseEnd(s: State, step: Step, c: nat) {
    || (step.Die? && step.call in s.calls && s.calls[step.call].completion == c
        && s.calls[step.call].phase in {Written, Counted})
    || (step.Write? && step.call in s.calls && s.calls[step.call].completion == c && s.calls[step.call].judge.None?)
  }

  predicate Allowed(s: State, step: Step, rule: Rule) {
    match rule
    case NoOverlap => step.Fetch? ==> forall p | p in s.calls :: s.calls[p].completion != step.completion
    case NoModeration => step.Fetch? ==> step.judge.Some?
    case NoEarlyEnd(c) => !(step.Die? && InPhase(s, step.call, Written) && s.calls[step.call].completion == c)
    case NoLooseEnd(c) => !LooseEnd(s, step, c)
  }

  ghost predicate Follows(s: State, steps: seq<Step>, rule: Rule)
    requires CanRun(s, steps)
    decreases steps
  {
    steps == [] || (Allowed(s, steps[0], rule) && Follows(Next(s, steps[0]), steps[1..], rule))
  }

  // A store where nothing has happened to any completion yet.
  ghost predicate Fresh(s: State) {
    && s.store.core == [] && s.calls == map[] && Links(s.store)
    && s.updates == s.reverts == s.published == multiset{}
  }

  // ---- Links between rows and calls ----

  predicate LinkedTo(core: seq<Core>, i: nat, j: nat) {
    i < |core| && j < |core| && core[i].link.Some? && core[i].link == core[j].link
  }

  ghost predicate Links(st: Store) {
    && (forall r :: r in st.db.runs ==> r < st.nextRun)
    && (forall i: nat :: i < |st.core| && st.core[i].link.Some? ==> st.core[i].link.value in st.db.runs)
    && (forall i: nat, j: nat :: LinkedTo(st.core, i, j) ==> i == j)
  }

  // A call never loses its row or its link.
  ghost predicate CallsLinked(core: seq<Core>, calls: map<nat, Call>) {
    forall p :: p in calls ==> calls[p].completion < |core| && calls[p].link == core[calls[p].completion].link
  }

  // ---- Submissions leave verdicts alone ----

  // What a submission may do to the rows: it keeps every verdict and link, and a new row starts
  // unverified with at most a link of its own.
  ghost predicate Grown(core: seq<Core>, core': seq<Core>, nextRun: nat) {
    && |core| <= |core'| <= |core| + 1
    && (forall i: nat :: i < |core| ==> core'[i].verified == core[i].verified && core'[i].link == core[i].link)
    && (|core'| > |core| ==> !core'[|core|].verified && core'[|core|].link in {None, Some(nextRun)})
  }

  lemma SubmitGrows(st: Store, rq: Request, now: int, ch: Choice)
    requires Fair(st, rq, ch)
    ensures Grown(st.core, Submit(st, rq, now, ch).0.core, st.nextRun)
    ensures var (st', out) := Submit(st, rq, now, ch);
            if st'.nextRun == st.nextRun then st'.db == st.db && (|st'.core| > |st.core| ==> st'.core[|st.core|].link.None?)
            else ch.cycle.Some? && ActiveOn(st.db, ch.cycle.value, rq.mapId) && st'.nextRun == st.nextRun + 1
                 && st'.db == AddRun(st.db, st.nextRun, rq.user, ch.cycle.value)
  {
  }

  lemma SubmitKeepsLinks(st: Store, rq: Request, now: int, ch: Choice)
    requires Fair(st, rq, ch) && Links(st)
    ensures Links(Submit(st, rq, now, ch).0)
  {
    SubmitGrows(st, rq, now, ch);
    var st' := Submit(st, rq, now, ch).0;
    if st'.nextRun != st.nextRun {
      assert st.nextRun in st'.db.runs;
    }
    forall i: nat, j: nat | LinkedTo(st'.core, i, j) ensures i == j {
      if i < |st.core| && j < |st.core| {
        assert LinkedTo(st.core, i, j);
      }
    }
  }

  lemma StepKeepsLinks(s: State, step: Step)
    requires Enabled(s, step) && Links(s.store)
    ensures Links(Next(s, step).store)
  {
    match step
    case SubmitRun(rq, now, ch) => SubmitKeepsLinks(s.store, rq, now, ch);
    case Write(p) =>
      var st' := WriteVerdict(s, p).store;
      forall i: nat, j: nat | LinkedTo(st'.core, i, j) ensures i == j {
        assert LinkedTo(s.store.core, i, j);
      }
    case _ =>
  }

  lemma MoveKeepsLinked(core: seq<Core>, calls: map<nat, Call>, p: nat, phase: Phase)
    requires CallsLinked(core, calls) && p in calls
    ensures CallsLinked(core, calls[p := calls[p].(phase := phase)]) && CallsLinked(core, calls - {p})
  {
  }

  lemma WriteKeepsLinked(s: State, p: nat)
    requires Enabled(s, Write(p)) && CallsLinked(s.store.core, s.calls)
    ensures CallsLinked(WriteVerdict(s, p).store.core, WriteVerdict(s, p).calls)
  {
    MoveKeepsLinked(s.store.core, s.calls, p, Written);
  }

  lemma StepKeepsCallsLinked(s: State, step: Step)
    requires Enabled(s, step) && CallsLinked(s.store.core, s.calls)
    ensures CallsLinked(Next(s, step).store.core, Next(s, step).calls)
  {
    match step
    case SubmitRun(rq, now, ch) => SubmitGrows(s.store, rq, now, ch);
    case Fetch(_, _, _, _) =>
    case Write(p) => WriteKeepsLinked(s, p);
    case Count(p) => MoveKeepsLinked(s.store.core, s.calls, p, Counted);
    case Propagate(p) => MoveKeepsLinked(s.store.core, s.calls, p, Changed);
    case Publish(p) => MoveKeepsLinked(s.store.core, s.calls, p, Changed);
    case Die(p) => MoveKeepsLinked(s.store.core, s.calls, p, Fetched);
  }

  // ---- Quest bookkeeping ----

  // A quest call on c that is due and not made yet: an update when up, a revert otherwise.
  predicate Owes(call: Call, c: nat, up: bool) {
    call.completion == c && call.phase == Written && call.verified == up && call.before != up
  }

  function Owed(calls: map<nat, Call>, c: nat, up: bool): set<nat> {
    set p | p in calls && Owes(calls[p], c, up)
  }

  function Bit(b: bool): int { if b then 1 else 0 }

  function IsVerified(core: seq<Core>, c: nat): bool { c < |core| && core[c].verified }

  function Net(s: State, c: nat): int { s.updates[c] as int - s.reverts[c] as int }

  // Quest calls made and still to be made, against the flag they should follow.
  function Books(s: State, c: nat): int {
    Net(s, c) + |Owed(s.calls, c, true)| - |Owed(s.calls, c, false)| - Bit(IsVerified(s.store.core, c))
  }

  // How far the flag the call read is from the one its write replaces.
  function StaleBy(s: State, step: Step, c: nat): int {
    if step.Write? && step.call in s.calls && s.calls[step.call].completion == c && !WriteRefused(s.store, s.calls[step.call])
    then Bit(IsVerified(s.store.core, c)) - Bit(s.calls[step.call].before) else 0
  }

  // The quest call that a call ending between its write and its quests will never make.
  function MissedBy(s: State, step: Step, c: nat): int {
    if step.Die? && InPhase(s, step.call, Written) && s.calls[step.call].completion == c
    then Bit(s.calls[step.call].verified) - Bit(s.calls[step.call].before) else 0
  }

  // A call's own share of the owed quest calls.
  lemma OwedShare(calls: map<nat, Call>, p: nat, c: nat, up: bool)
    requires p in calls
    ensures |Owed(calls, c, up)| == |Owed(calls - {p}, c, up)| + Bit(Owes(calls[p], c, up))
  {
    assert Owed(calls, c, up) == Owed(calls - {p}, c, up) + if Owes(calls[p], c, up) then {p} else {};
  }

  // The shares of a call before and after it moves on.
  lemma OwedMoves(calls: map<nat, Call>, p: nat, phase: Phase, c: nat, up: bool)
    requires p in calls
    ensures |Owed(calls[p := calls[p].(phase := phase)], c, up)| - |Owed(calls, c, up)|
            == Bit(Owes(calls[p].(phase := phase), c, up)) - Bit(Owes(calls[p], c, up))
  {
    var calls' := calls[p := calls[p].(phase := phase)];
    OwedShare(calls, p, c, up);
    OwedShare(calls', p, c, up);
    assert calls' - {p} == calls - {p};
  }

  lemma FetchOwesNothing(calls: map<nat, Call>, p: nat, call: Call, c: nat, up: bool)
    requires p !in calls && call.phase == Fetched
    ensures Owed(calls[p := call], c, up) == Owed(calls, c, up)
  {
  }

  lemma SubmitKeepsBooks(s: State, rq: Request, now: int, ch: Choice, c: nat)
    requires Fair(s.store, rq, ch)
    ensures Books(s.(store := Submit(s.store, rq, now, ch).0), c) == Books(s, c)
  {
    SubmitGrows(s.store, rq, now, ch);
  }

  lemma WriteMovesBooks(s: State, p: nat, c: nat)
    requires Enabled(s, Write(p))
    ensures Books(WriteVerdict(s, p), c) == Books(s, c) + StaleBy(s, Write(p), c)
  {
    if WriteRefused(s.store, s.calls[p]) {
      OwedShare(s.calls, p, c, true);
      OwedShare(s.calls, p, c, false);
    } else {
      OwedMoves(s.calls, p, Written, c, true);
      OwedMoves(s.calls, p, Written, c, false);
    }
  }

  lemma CountMovesBooks(s: State, p: nat, c: nat)
    requires InPhase(s, p, Written)
    ensures Books(CountQuest(s, p), c) == Books(s, c)
  {
    OwedShare(s.calls, p, c, true);
    OwedShare(s.calls, p, c, false);
    OwedMoves(s.calls, p, Counted, c, true);
    OwedMoves(s.calls, p, Counted, c, false);
  }

  lemma PropagateMovesBooks(s: State, p: nat, c: nat)
    requires InPhase(s, p, Counted)
    ensures Books(PropagateVerdict(s, p), c) == Books(s, c)
  {
    OwedShare(s.calls, p, c, true);
    OwedShare(s.calls, p, c, false);
    OwedMoves(s.calls, p, Changed, c, true);
    OwedMoves(s.calls, p, Changed, c, false);
  }

  lemma CloseMovesBooks(s: State, p: nat, c: nat)
    requires p in s.calls
    ensures Books(Close(s, p), c) == Books(s, c) - MissedBy(s, Die(p), c)
  {
    OwedShare(s.calls, p, c, true);
    OwedShare(s.calls, p, c, false);
  }

  lemma PublishMovesBooks(s: State, p: nat, c: nat)
    requires InPhase(s, p, Changed)
    ensures Books(PublishChange(s, p), c) == Books(s, c)
  {
    OwedShare(s.calls, p, c, true);
    OwedShare(s.calls, p, c, false);
  }

  // What each step does to the books: only a stale write and a missed quest call move them.
  lemma StepMovesBooks(s: State, step: Step, c: nat)
    requires Enabled(s, step)
    ensures Books(Next(s, step), c) == Books(s, c) + StaleBy(s, step, c) - MissedBy(s, step, c)
  {
    match step
    case SubmitRun(rq, now, ch) => SubmitKeepsBooks(s, rq, now, ch, c);
    case Fetch(p, _, _, _) =>
      FetchOwesNothing(s.calls, p, Next(s, step).calls[p], c, true);
      FetchOwesNothing(s.calls, p, Next(s, step).calls[p], c, false);
    case Write(p) => WriteMovesBooks(s, p, c);
    case Count(p) => CountMovesBooks(s, p, c);
    case Propagate(p) => PropagateMovesBooks(s, p, c);
    case Publish(p) => PublishMovesBooks(s, p, c);
    case Die(p) => CloseMovesBooks(s, p, c);
  }

  ghost function Stale(s: State, steps: seq<Step>, c: nat): int
    requires CanRun(s, steps)
    decreases steps
  {
    if steps == [] then 0 else StaleBy(s, steps[0], c) + Stale(Next(s, steps[0]), steps[1..], c)
  }

  ghost function Missed(s: State, steps: seq<Step>, c: nat): int
    requires CanRun(s, steps)
    decreases steps
  {
    if steps == [] then 0 else MissedBy(s, steps[0], c) + Missed(Next(s, steps[0]), steps[1..], c)
  }

  // Conservation, for every run whatever.
  lemma {:induction false} RunMovesBooks(s: State, steps: seq<Step>, c: nat)
    requires CanRun(s, steps)
    ensures Books(After(s, steps), c) == Books(s, c) + Stale(s, steps, c) - Missed(s, steps, c)
    decreases steps
  {
    if steps != [] {
      StepMovesBooks(s, steps[0], c);
      RunMovesBooks(Next(s, steps[0]), steps[1..], c);
    }
  }

  // No call on c stands between its write and its quests.
  ghost predicate QuestsSettled(calls: map<nat, Call>, c: nat) {
    forall p :: p in calls && calls[p].completion == c ==> calls[p].phase != Written
  }

  // Over every run, overlapping calls, moderation and calls that end anywhere included: once the
  // calls on c are past their quests, updates minus reverts are 1 for a verified completion and 0
  // otherwise if and only if the stale reads and the missed quest calls of the run cancel.
  lemma RunBalancedIff(s: State, steps: seq<Step>, c: nat)
    requires Fresh(s) && CanRun(s, steps) && QuestsSettled(After(s, steps).calls, c)
    ensures Net(After(s, steps), c) == Bit(IsVerified(After(s, steps).store.core, c))
            <==> Stale(s, steps, c) == Missed(s, steps, c)
  {
    RunMovesBooks(s, steps, c);
    assert Owed(s.calls, c, true) == {} && Owed(s.calls, c, false) == {};
    var calls' := After(s, steps).calls;
    assert Owed(calls', c, true) == {} && Owed(calls', c, false) == {};
  }

  // A write keeps the books exactly when the flag it read at the start of the call is still the
  // one in the row.
  lemma WriteBalancedIff(s: State, p: nat)
    requires Enabled(s, Write(p)) && !WriteRefused(s.store, s.calls[p])
    ensures var c := s.calls[p].completion;
            Books(WriteVerdict(s, p), c) == Books(s, c) <==> s.calls[p].before == s.store.core[c].verified
  {
    WriteMovesBooks(s, p, s.calls[p].completion);
  }

  // A call that ends keeps the books exactly unless it has written a changed flag and not yet
  // counted it.
  lemma DieBalancedIff(s: State, p: nat)
    requires p in s.calls
    ensures var call := s.calls[p];
            Books(Close(s, p), call.completion) == Books(s, call.completion)
            <==> !(call.phase == Written && call.verified != call.before)
  {
    CloseMovesBooks(s, p, s.calls[p].completion);
  }

  // What a call in flight alone on its completion knows.
  ghost predicate CallOk(core: seq<Core>, c: Call) {
    && c.completion < |core| && c.link == core[c.completion].link
    && core[c.completion].verified == if c.phase == Fetched then c.before else c.verified
  }

  ghost predicate CallsOk(core: seq<Core>, calls: map<nat, Call>) {
    && (forall p :: p in calls ==> CallOk(core, calls[p]))
    && forall p, q :: p in calls && q in calls && calls[p].completion == calls[q].completion ==> p == q
  }

  // A step that moves one call on, or closes it, and leaves the rows alone.
  lemma MoveKeepsCalls(core: seq<Core>, calls: map<nat, Call>, p: nat, phase: Phase)
    requires CallsOk(core, calls) && p in calls && calls[p].phase != Fetched && phase != Fetched
    ensures CallsOk(core, calls[p := calls[p].(phase := phase)]) && CallsOk(core, calls - {p})
  {
  }

  lemma WriteKeepsCalls(s: State, p: nat)
    requires Enabled(s, Write(p)) && CallsOk(s.store.core, s.calls)
    ensures CallsOk(WriteVerdict(s, p).store.core, WriteVerdict(s, p).calls)
  {
  }

  lemma StepKeepsCalls(s: State, step: Step)
    requires Enabled(s, step) && Allowed(s, step, NoOverlap) && CallsOk(s.store.core, s.calls)
    ensures CallsOk(Next(s, step).store.core, Next(s, step).calls)
  {
    match step
    case SubmitRun(rq, now, ch) => SubmitGrows(s.store, rq, now, ch);
    case Fetch(_, _, _, _) =>
    case Write(p) => WriteKeepsCalls(s, p);
    case Count(p) => MoveKeepsCalls(s.store.core, s.calls, p, Counted);
    case Propagate(p) => MoveKeepsCalls(s.store.core, s.calls, p, Changed);
    case Publish(p) => MoveKeepsCalls(s.store.core, s.calls, p, Changed);
    case Die(_) =>
  }

  lemma {:induction false} SerialIsFresh(s: State, steps: seq<Step>, c: nat)
    requires CanRun(s, steps) && Follows(s, steps, NoOverlap) && CallsOk(s.store.core, s.calls)
    ensures Stale(s, steps, c) == 0 && CallsOk(After(s, steps).store.core, After(s, steps).calls)
    decreases steps
  {
    if steps != [] {
      assert StaleBy(s, steps[0], c) == 0;
      StepKeepsCalls(s, steps[0]);
      SerialIsFresh(Next(s, steps[0]), steps[1..], c);
    }
  }

  lemma {:induction false} NothingMissed(s: State, steps: seq<Step>, c: nat)
    requires CanRun(s, steps) && Follows(s, steps, NoEarlyEnd(c))
    ensures Missed(s, steps, c) == 0
    decreases steps
  {
    if steps != [] {
      NothingMissed(Next(s, steps[0]), steps[1..], c);
    }
  }

  // Calls that never overlap on one completion keep its books exactly when the quest calls missed
  // by calls that ended too early cancel; in particular when no call ended there.
  lemma RunBalanced(s: State, steps: seq<Step>, c: nat)
    requires Fresh(s) && CanRun(s, steps) && Follows(s, steps, NoOverlap) && QuestsSettled(After(s, steps).calls, c)
    ensures Net(After(s, steps), c) == Bit(IsVerified(After(s, steps).store.core, c)) <==> Missed(s, steps, c) == 0
    ensures Follows(s, steps, NoEarlyEnd(c)) ==> Net(After(s, steps), c) == Bit(IsVerified(After(s, steps).store.core, c))
  {
    if Follows(s, steps, NoEarlyEnd(c)) {
      NothingMissed(s, steps, c);
    }
    RunBalancedIff(s, steps, c);
    SerialIsFresh(s, steps, c);
  }

  lemma RunOne(s: State, step: Step, rest: seq<Step>) returns (steps: seq<Step>)
    requires Enabled(s, step) && CanRun(Next(s, step), rest)
    ensures steps == [step] + rest && CanRun(s, steps) && After(s, steps) == After(Next(s, step), rest)
  {
    steps := [step] + rest;
    assert steps[0] == step && steps[1..] == rest;
  }

  lemma RunOneBy(s: State, step: Step, rest: seq<Step>, rule: Rule) returns (steps: seq<Step>)
    requires Enabled(s, step) && Allowed(s, step, rule) && CanRun(Next(s, step), rest) && Follows(Next(s, step), rest, rule)
    ensures CanRun(s, steps) && After(s, steps) == After(Next(s, step), rest) && Follows(s, steps, rule)
  {
    steps := RunOne(s, step, rest);
    assert steps[0] == step && steps[1..] == rest;
  }

  ghost function Quiet(st: Store): State { State(st, map[], multiset{}, multiset{}, multiset{}) }

  // Two overlapping verify calls on one pending completion: both read it as unverified and both
  // count it.
  lemma OverlapCountsTwice(st: Store, c: nat, judge: nat) returns (steps: seq<Step>)
    requires c < |st.core| && !st.core[c].verified && judge in st.users
    ensures CanRun(Quiet(st), steps)
    ensures After(Quiet(st), steps).updates[c] == 2 && After(Quiet(st), steps).reverts[c] == 0
  {
    var s := Quiet(st);
    var s1 := Next(s, Fetch(0, c, true, Some(judge)));
    var s2 := Next(s1, Fetch(1, c, true, Some(judge)));
    var s3 := Next(s2, Write(0));
    var s4 := Next(s3, Write(1));
    var s5 := Next(s4, Count(0));
    steps := RunOne(s5, Count(1), []);
    steps := RunOne(s4, Count(0), steps);
    steps := RunOne(s3, Write(1), steps);
    steps := RunOne(s2, Write(0), steps);
    steps := RunOne(s1, Fetch(1, c, true, Some(judge)), steps);
    steps := RunOne(s, Fetch(0, c, true, Some(judge)), steps);
  }

  // No overlap at all: a verify call ends between its write and its quests, and the next verify
  // call, complete, reads the flag as already set and does not make up for it.
  lemma EarlyEndNeverCounted(st: Store, c: nat, judge: nat) returns (steps: seq<Step>)
    requires c < |st.core| && !st.core[c].verified && judge in st.users
    ensures CanRun(Quiet(st), steps) && Follows(Quiet(st), steps, NoOverlap)
    ensures IsVerified(After(Quiet(st), steps).store.core, c)
    ensures After(Quiet(st), steps).updates[c] == 0 && After(Quiet(st), steps).reverts[c] == 0
  {
    var s := Quiet(st);
    var s1 := Next(s, Fetch(0, c, true, Some(judge)));
    var s2 := Next(s1, Write(0));
    var s3 := Next(s2, Die(0));
    assert s3.calls == map[];
    var s4 := Next(s3, Fetch(0, c, true, Some(judge)));
    var s5 := Next(s4, Write(0));
    steps := RunOneBy(s5, Count(0), [], NoOverlap);
    steps := RunOneBy(s4, Write(0), steps, NoOverlap);
    steps := RunOneBy(s3, Fetch(0, c, true, Some(judge)), steps, NoOverlap);
    steps := RunOneBy(s2, Die(0), steps, NoOverlap);
    steps := RunOneBy(s1, Write(0), steps, NoOverlap);
    steps := RunOneBy(s, Fetch(0, c, true, Some(judge)), steps, NoOverlap);
  }

  // ---- Verdicts agree ----

  ghost predicate Agrees(db: Db, row: Core) {
    row.link.Some? && Propagates(db, row.link) ==>
      db.runs[row.link.value].status in {Pending, StatusFor(row.verified)}
  }

  ghost predicate AgreesAt(s: State, c: nat) {
    c < |s.store.core| && Agrees(s.store.db, s.store.core[c])
  }

  // The step that puts a verdict on c's tournament row, and the step that writes c itself.
  predicate PutsOn(s: State, step: Step, c: nat) {
    step.Propagate? && step.call in s.calls && s.calls[step.call].completion == c
    && Propagates(s.store.db, s.calls[step.call].link)
  }

  predicate WritesOn(s: State, step: Step, c: nat) {
    step.Write? && step.call in s.calls && s.calls[step.call].completion == c && !WriteRefused(s.store, s.calls[step.call])
  }

  // The verdict last put on c's tournament row, and the verdict last written to c.
  ghost function LastPut(s: State, steps: seq<Step>, c: nat, sofar: Option<bool>): Option<bool>
    requires CanRun(s, steps)
    decreases steps
  {
    if steps == [] then sofar
    else
      LastPut(Next(s, steps[0]), steps[1..], c, if PutsOn(s, steps[0], c) then Some(s.calls[steps[0].call].verified) else sofar)
  }

  ghost function LastWritten(s: State, steps: seq<Step>, c: nat, sofar: bool): bool
    requires CanRun(s, steps)
    decreases steps
  {
    if steps == [] then sofar
    else
      LastWritten(Next(s, steps[0]), steps[1..], c, if WritesOn(s, steps[0], c) then s.calls[steps[0].call].verified else sofar)
  }

  function StatusAfter(put: Option<bool>): RunStatus {
    if put.None? then Pending else StatusFor(put.value)
  }

  // c stands as the verdicts put and written so far leave it.
  ghost predicate Tracks(st: Store, c: nat, put: Option<bool>, written: bool) {
    if c >= |st.core| then put.None? && !written
    else
      st.core[c].verified == written
      && if Propagates(st.db, st.core[c].link) then st.db.runs[st.core[c].link.value].status == StatusAfter(put) else put.None?
  }

  lemma SubmitTracks(st: Store, rq: Request, now: int, ch: Choice, c: nat, put: Option<bool>, written: bool)
    requires Fair(st, rq, ch) && Links(st) && Tracks(st, c, put, written)
    ensures Tracks(Submit(st, rq, now, ch).0, c, put, written)
  {
    SubmitGrows(st, rq, now, ch);
  }

  lemma WriteTracks(s: State, p: nat, c: nat, put: Option<bool>, written: bool)
    requires Enabled(s, Write(p)) && Tracks(s.store, c, put, written)
    ensures Tracks(WriteVerdict(s, p).store, c, put, if WritesOn(s, Write(p), c) then s.calls[p].verified else written)
  {
  }

  lemma PropagateTracks(s: State, p: nat, c: nat, put: Option<bool>, written: bool)
    requires InPhase(s, p, Counted) && Links(s.store) && CallsLinked(s.store.core, s.calls) && Tracks(s.store, c, put, written)
    ensures Tracks(PropagateVerdict(s, p).store, c, if PutsOn(s, Propagate(p), c) then Some(s.calls[p].verified) else put, written)
  {
    var call := s.calls[p];
    if c < |s.store.core| && call.completion != c && s.store.core[c].link.Some? && s.store.core[c].link == call.link {
      assert LinkedTo(s.store.core, c, call.completion);
    }
  }

  lemma StepTracks(s: State, step: Step, c: nat, put: Option<bool>, written: bool)
    requires Enabled(s, step) && Links(s.store) && CallsLinked(s.store.core, s.calls) && Tracks(s.store, c, put, written)
    ensures Tracks(Next(s, step).store, c, if PutsOn(s, step, c) then Some(s.calls[step.call].verified) else put,
                   if WritesOn(s, step, c) then s.calls[step.call].verified else written)
  {
    match step
    case SubmitRun(rq, now, ch) => SubmitTracks(s.store, rq, now, ch, c, put, written);
    case Write(p) => WriteTracks(s, p, c, put, written);
    case Propagate(p) => PropagateTracks(s, p, c, put, written);
    case _ =>
  }

  lemma {:induction false} RunTracks(s: State, steps: seq<Step>, c: nat, put: Option<bool>, written: bool)
    requires CanRun(s, steps) && Links(s.store) && CallsLinked(s.store.core, s.calls) && Tracks(s.store, c, put, written)
    ensures Tracks(After(s, steps).store, c, LastPut(s, steps, c, put), LastWritten(s, steps, c, written))
    decreases steps
  {
    if steps != [] {
      StepKeepsLinks(s, steps[0]);
      StepKeepsCallsLinked(s, steps[0]);
      StepTracks(s, steps[0], c, put, written);
      RunTracks(Next(s, steps[0]), steps[1..], c, if PutsOn(s, steps[0], c) then Some(s.calls[steps[0].call].verified) else put,
                if WritesOn(s, steps[0], c) then s.calls[steps[0].call].verified else written);
    }
  }

  // Over every run, overlapping calls, moderation and calls that end anywhere included: a
  // completion and its tournament row agree if and only if no verdict was ever put on the
  // tournament row, or the last one put is the last one written.
  lemma RunAgreesIff(s: State, steps: seq<Step>, c: nat)
    requires Fresh(s) && CanRun(s, steps) && c < |After(s, steps).store.core|
    ensures var put := LastPut(s, steps, c, None);
            AgreesAt(After(s, steps), c) <==> put.None? || put.value == LastWritten(s, steps, c, false)
  {
    RunTracks(s, steps, c, None, false);
  }

  // One propagation leaves the two rows agreeing exactly when its verdict is still the row's.
  lemma PropagateAgreesIff(s: State, p: nat)
    requires InPhase(s, p, Counted) && CallsLinked(s.store.core, s.calls) && Propagates(s.store.db, s.calls[p].link)
    ensures AgreesAt(PropagateVerdict(s, p), s.calls[p].completion) <==> GuardHolds(s, p)
  {
  }

  predicate GuardHolds(s: State, p: nat) {
    p in s.calls && s.calls[p].completion < |s.store.core| && s.calls[p].verified == s.store.core[s.calls[p].completion].verified
  }

  // Whether the last propagation on c met that guard.
  ghost function LastGuard(s: State, steps: seq<Step>, c: nat, sofar: Option<bool>): Option<bool>
    requires CanRun(s, steps)
    decreases steps
  {
    if steps == [] then sofar
    else
      LastGuard(Next(s, steps[0]), steps[1..], c, if PutsOn(s, steps[0], c) then Some(GuardHolds(s, steps[0].call)) else sofar)
  }

  // Some call has written c and has yet to propagate.
  predicate Unpropagated(calls: map<nat, Call>, c: nat) {
    exists p | p in calls :: calls[p].completion == c && calls[p].phase in {Written, Counted}
  }

  ghost predicate GuardTells(s: State, c: nat, guard: Option<bool>) {
    && (c >= |s.store.core| || !Propagates(s.store.db, s.store.core[c].link) ==> guard.None?)
    && (c < |s.store.core| && !Unpropagated(s.calls, c) ==> (AgreesAt(s, c) <==> guard != Some(false)))
  }

  lemma StillUnpropagated(calls: map<nat, Call>, calls': map<nat, Call>, p: nat, c: nat)
    requires forall q :: q in calls && q != p ==> q in calls' && calls'[q] == calls[q]
    requires p in calls && calls[p].completion == c && calls[p].phase in {Written, Counted} ==>
               p in calls' && calls'[p].completion == c && calls'[p].phase in {Written, Counted}
    ensures Unpropagated(calls, c) ==> Unpropagated(calls', c)
  {
    if q :| q in calls && calls[q].completion == c && calls[q].phase in {Written, Counted} {
      assert q in calls' && calls'[q].completion == c && calls'[q].phase in {Written, Counted};
    }
  }

  lemma SubmitGuard(s: State, rq: Request, now: int, ch: Choice, c: nat, guard: Option<bool>)
    requires Fair(s.store, rq, ch) && Links(s.store) && GuardTells(s, c, guard)
    ensures GuardTells(s.(store := Submit(s.store, rq, now, ch).0), c, guard)
  {
    SubmitGrows(s.store, rq, now, ch);
  }

  lemma WriteGuard(s: State, p: nat, c: nat, guard: Option<bool>)
    requires Enabled(s, Write(p)) && Allowed(s, Write(p), NoLooseEnd(c)) && GuardTells(s, c, guard)
    ensures GuardTells(WriteVerdict(s, p), c, guard)
  {
    var s' := WriteVerdict(s, p);
    if WritesOn(s, Write(p), c) {
      assert p in s'.calls && s'.calls[p].completion == c && s'.calls[p].phase == Written;
      assert Unpropagated(s'.calls, c);
    } else {
      StillUnpropagated(s.calls, s'.calls, p, c);
    }
  }

  lemma PropagateGuard(s: State, p: nat, c: nat, guard: Option<bool>)
    requires InPhase(s, p, Counted) && Links(s.store) && CallsLinked(s.store.core, s.calls) && GuardTells(s, c, guard)
    ensures GuardTells(PropagateVerdict(s, p), c, if PutsOn(s, Propagate(p), c) then Some(GuardHolds(s, p)) else guard)
  {
    var call, s' := s.calls[p], PropagateVerdict(s, p);
    if PutsOn(s, Propagate(p), c) {
      PropagateAgreesIff(s, p);
    } else if call.completion != c {
      StillUnpropagated(s.calls, s'.calls, p, c);
      assert c < |s.store.core| && s.store.core[c].link.Some? && s.store.core[c].link == call.link ==>
               LinkedTo(s.store.core, c, call.completion);
    }
  }

  lemma OtherGuard(s: State, step: Step, c: nat, guard: Option<bool>)
    requires Enabled(s, step) && (step.Fetch? || step.Count? || step.Publish? || step.Die?)
    requires Allowed(s, step, NoLooseEnd(c)) && GuardTells(s, c, guard)
    requires step.Count? ==> s.calls[step.call].judge.Some? || s.calls[step.call].completion != c
    ensures GuardTells(Next(s, step), c, guard)
  {
    StillUnpropagated(s.calls, Next(s, step).calls, step.call, c);
  }

  // What a call that is to propagate carries: whoever has written c is a verify call.
  ghost predicate Signed(calls: map<nat, Call>, c: nat) {
    forall p :: p in calls && calls[p].completion == c && calls[p].phase in {Written, Counted} ==> calls[p].judge.Some?
  }

  lemma MoveKeepsSigned(calls: map<nat, Call>, p: nat, phase: Phase, c: nat)
    requires Signed(calls, c) && p in calls && (calls[p].completion == c && phase in {Written, Counted} ==> calls[p].judge.Some?)
    ensures Signed(calls[p := calls[p].(phase := phase)], c)
  {
  }

  lemma CloseKeepsSigned(calls: map<nat, Call>, p: nat, c: nat)
    requires Signed(calls, c)
    ensures Signed(calls - {p}, c)
  {
  }

  lemma StepKeepsSigned(s: State, step: Step, c: nat)
    requires Enabled(s, step) && Signed(s.calls, c) && Allowed(s, step, NoLooseEnd(c))
    ensures Signed(Next(s, step).calls, c)
  {
    match step
    case SubmitRun(_, _, _) =>
    case Fetch(_, _, _, _) =>
    case Write(p) =>
      CloseKeepsSigned(s.calls, p, c);
      MoveKeepsSigned(s.calls, p, Written, c);
    case Count(p) =>
      CloseKeepsSigned(s.calls, p, c);
      MoveKeepsSigned(s.calls, p, Counted, c);
    case Propagate(p) =>
      CloseKeepsSigned(s.calls, p, c);
      MoveKeepsSigned(s.calls, p, Changed, c);
    case Publish(p) => CloseKeepsSigned(s.calls, p, c);
    case Die(p) => CloseKeepsSigned(s.calls, p, c);
  }

  lemma StepGuard(s: State, step: Step, c: nat, guard: Option<bool>)
    requires Enabled(s, step) && Links(s.store) && CallsLinked(s.store.core, s.calls) && Signed(s.calls, c)
    requires Allowed(s, step, NoLooseEnd(c)) && GuardTells(s, c, guard)
    ensures GuardTells(Next(s, step), c, if PutsOn(s, step, c) then Some(GuardHolds(s, step.call)) else guard)
  {
    match step
    case SubmitRun(rq, now, ch) => SubmitGuard(s, rq, now, ch, c, guard);
    case Write(p) => WriteGuard(s, p, c, guard);
    case Propagate(p) => PropagateGuard(s, p, c, guard);
    case _ => OtherGuard(s, step, c, guard);
  }

  lemma {:induction false} RunGuard(s: State, steps: seq<Step>, c: nat, guard: Option<bool>)
    requires CanRun(s, steps) && Follows(s, steps, NoLooseEnd(c))
    requires Links(s.store) && CallsLinked(s.store.core, s.calls) && Signed(s.calls, c) && GuardTells(s, c, guard)
    ensures GuardTells(After(s, steps), c, LastGuard(s, steps, c, guard))
    decreases steps
  {
    if steps != [] {
      StepGuard(s, steps[0], c, guard);
      StepKeepsSigned(s, steps[0], c);
      StepKeepsLinks(s, steps[0]);
      StepKeepsCallsLinked(s, steps[0]);
      RunGuard(Next(s, steps[0]), steps[1..], c, if PutsOn(s, steps[0], c) then Some(GuardHolds(s, steps[0].call)) else guard);
    }
  }

  // Overlapping or not: as long as whoever writes c goes on to propagate, c and its tournament
  // row agree, once no such call is on its way, if and only if none has propagated yet or the
  // last one to do so met the guard.
  lemma RunGuardedIff(s: State, steps: seq<Step>, c: nat)
    requires Fresh(s) && CanRun(s, steps) && Follows(s, steps, NoLooseEnd(c))
    requires c < |After(s, steps).store.core| && !Unpropagated(After(s, steps).calls, c)
    ensures AgreesAt(After(s, steps), c) <==> LastGuard(s, steps, c, None) != Some(false)
  {
    RunGuard(s, steps, c, None);
  }

  lemma {:induction false} SerialMeetsGuard(s: State, steps: seq<Step>, c: nat, guard: Option<bool>)
    requires CanRun(s, steps) && Follows(s, steps, NoOverlap) && CallsOk(s.store.core, s.calls) && guard != Some(false)
    ensures LastGuard(s, steps, c, guard) != Some(false)
    decreases steps
  {
    if steps != [] {
      StepKeepsCalls(s, steps[0]);
      SerialMeetsGuard(Next(s, steps[0]), steps[1..], c, if PutsOn(s, steps[0], c) then Some(GuardHolds(s, steps[0].call)) else guard);
    }
  }

  // Calls that never overlap on one completion always meet the guard, so the two rows agree
  // whenever no call stands between its write and its propagation.
  lemma RunCoherent(s: State, steps: seq<Step>, c: nat)
    requires Fresh(s) && CanRun(s, steps) && Follows(s, steps, NoOverlap) && Follows(s, steps, NoLooseEnd(c))
    requires c < |After(s, steps).store.core| && !Unpropagated(After(s, steps).calls, c)
    ensures AgreesAt(After(s, steps), c)
  {
    SerialMeetsGuard(s, steps, c, None);
    RunGuardedIff(s, steps, c);
  }

  // Two overlapping verify calls with opposite verdicts, both written, the rejection last. In
  // whichever order they propagate, agreement is decided by the guard of the second.
  lemma OverlapEitherWay(st: Store, c: nat, judge: nat, rejectionLast: bool) returns (steps: seq<Step>)
    requires c < |st.core| && judge in st.users && Propagates(st.db, st.core[c].link) && !st.core[c].verified
    ensures CanRun(Quiet(st), steps)
    ensures AgreesAt(After(Quiet(st), steps), c) <==> rejectionLast
  {
    var link, s0 := st.core[c].link, Quiet(st);
    var one, two := Fetch(0, c, true, Some(judge)), Fetch(1, c, false, Some(judge));
    var s2 := Next(Next(s0, one), two);
    assert Rivals(s2, c, link, Fetched) && s2.store.db == st.db;
    var s4 := WriteBoth(s2, c, link);
    var s6 := CountBoth(s4, c, link);
    steps := SecondDecides(s6, c, if rejectionLast then 0 else 1, if rejectionLast then 1 else 0);
    steps := TwoSteps(s4, Count(0), Count(1), steps);
    steps := TwoSteps(s2, Write(0), Write(1), steps);
    steps := TwoSteps(s0, one, two, steps);
  }

  lemma SecondDecides(s: State, c: nat, p: nat, q: nat) returns (steps: seq<Step>)
    requires p != q && InPhase(s, p, Counted) && InPhase(s, q, Counted) && c < |s.store.core|
    requires s.calls[p].completion == s.calls[q].completion == c && s.calls[p].link == s.calls[q].link == s.store.core[c].link
    requires Propagates(s.store.db, s.store.core[c].link)
    ensures CanRun(s, steps) && (AgreesAt(After(s, steps), c) <==> s.calls[q].verified == s.store.core[c].verified)
  {
    var s1 := Next(s, Propagate(p));
    assert InPhase(s1, q, Counted) && s1.calls[q] == s.calls[q];
    steps := RunOne(s1, Propagate(q), []);
    steps := RunOne(s, Propagate(p), steps);
  }

  // Two verify calls on c, opposite verdicts, both as far as the given phase.
  ghost predicate Rivals(s: State, c: nat, link: Option<nat>, phase: Phase) {
    && InPhase(s, 0, phase) && InPhase(s, 1, phase) && s.calls[0].verified && !s.calls[1].verified
    && (forall p :: p in {0, 1} ==> s.calls[p].completion == c && s.calls[p].link == link && s.calls[p].judge.Some?
                                    && s.calls[p].judge.value in s.store.users)
    && c < |s.store.core| && s.store.core[c].link == link
  }

  lemma WriteBoth(s: State, c: nat, link: Option<nat>) returns (s': State)
    requires Rivals(s, c, link, Fetched)
    ensures Enabled(s, Write(0)) && Enabled(Next(s, Write(0)), Write(1)) && s' == Next(Next(s, Write(0)), Write(1))
    ensures s'.store.db == s.store.db && Rivals(s', c, link, Written) && !s'.store.core[c].verified
  {
    s' := Next(Next(s, Write(0)), Write(1));
  }

  lemma CountBoth(s: State, c: nat, link: Option<nat>) returns (s': State)
    requires Rivals(s, c, link, Written)
    ensures Enabled(s, Count(0)) && Enabled(Next(s, Count(0)), Count(1)) && s' == Next(Next(s, Count(0)), Count(1))
    ensures s'.store == s.store && Rivals(s', c, link, Counted)
  {
    s' := Next(Next(s, Count(0)), Count(1));
  }

  lemma TwoSteps(s: State, one: Step, two: Step, rest: seq<Step>) returns (steps: seq<Step>)
    requires Enabled(s, one) && Enabled(Next(s, one), two) && CanRun(Next(Next(s, one), two), rest)
    ensures CanRun(s, steps) && After(s, steps) == After(Next(Next(s, one), two), rest)
  {
    steps := RunOne(Next(s, one), two, rest);
    steps := RunOne(s, one, steps);
  }

  // No overlap at all: a verified, propagated completion is rejected by a call that ends before it
  // propagates, and the tournament row keeps the old verdict.
  lemma EarlyEndDisagrees(st: Store, c: nat, judge: nat) returns (steps: seq<Step>)
    requires c < |st.core| && judge in st.users && Propagates(st.db, st.core[c].link)
    requires st.db.runs[st.core[c].link.value].status == Verified && st.core[c].verified
    ensures CanRun(Quiet(st), steps) && Follows(Quiet(st), steps, NoOverlap) && After(Quiet(st), steps).calls == map[]
    ensures AgreesAt(Quiet(st), c) && !AgreesAt(After(Quiet(st), steps), c)
  {
    var s := Quiet(st);
    var s1 := Next(s, Fetch(0, c, false, Some(judge)));
    var s2 := Next(s1, Write(0));
    assert Next(s2, Die(0)).calls == map[];
    steps := RunOneBy(s2, Die(0), [], NoOverlap);
    steps := RunOneBy(s1, Write(0), steps, NoOverlap);
    steps := RunOneBy(s, Fetch(0, c, false, Some(judge)), steps, NoOverlap);
  }

  // From a fresh store, calls that neither overlap nor leave c half done keep both promises.
  lemma RunFromFresh(s: State, steps: seq<Step>, c: nat)
    requires Fresh(s) && CanRun(s, steps) && Follows(s, steps, NoOverlap) && Follows(s, steps, NoLooseEnd(c))
    requires c < |After(s, steps).store.core| && !Unpropagated(After(s, steps).calls, c)
    ensures AgreesAt(After(s, steps), c)
    ensures Net(After(s, steps), c) == Bit(IsVerified(After(s, steps).store.core, c))
  {
    RunCoherent(s, steps, c);
    LooseEndsIncludeEarly(s, steps, c);
    RunBalanced(s, steps, c);
  }

  lemma {:induction false} LooseEndsIncludeEarly(s: State, steps: seq<Step>, c: nat)
    requires CanRun(s, steps) && Follows(s, steps, NoLooseEnd(c))
    ensures Follows(s, steps, NoEarlyEnd(c))
    decreases steps
  {
    if steps != [] {
      LooseEndsIncludeEarly(Next(s, steps[0]), steps[1..], c);
    }
  }

  // ---- Events are real changes ----

  function StatusOf(db: Db, r: nat): Option<RunStatus> {
    if r in db.runs then Some(db.runs[r].status) else None
  }

  ghost predicate ChangesStatus(s: State, step: Step, r: nat)
    requires Enabled(s, step)
  {
    StatusOf(s.store.db, r).Some? && StatusOf(Next(s, step).store.db, r) != StatusOf(s.store.db, r)
  }

  predicate OwesNews(call: Call, r: nat) {
    call.phase == Changed && call.link == Some(r)
  }

  // Calls that have changed r and not announced it yet.
  function Unannounced(calls: map<nat, Call>, r: nat): set<nat> {
    set p | p in calls && OwesNews(calls[p], r)
  }

  // A call that ends between the change and its announcement.
  predicate DropsNews(s: State, step: Step, r: nat) {
    step.Die? && step.call in s.calls && OwesNews(s.calls[step.call], r)
  }

  function News(s: State, r: nat): int { s.published[r] as int + |Unannounced(s.calls, r)| }

  lemma NewsShare(calls: map<nat, Call>, p: nat, r: nat)
    requires p in calls
    ensures |Unannounced(calls, r)| == |Unannounced(calls - {p}, r)| + Bit(OwesNews(calls[p], r))
  {
    assert Unannounced(calls, r) == Unannounced(calls - {p}, r) + if OwesNews(calls[p], r) then {p} else {};
  }

  lemma NewsMoves(calls: map<nat, Call>, p: nat, phase: Phase, r: nat)
    requires p in calls && calls[p].phase != Changed
    ensures |Unannounced(calls[p := calls[p].(phase := phase)], r)|
            == |Unannounced(calls, r)| + Bit(OwesNews(calls[p].(phase := phase), r))
    ensures |Unannounced(calls - {p}, r)| == |Unannounced(calls, r)|
  {
    var calls' := calls[p := calls[p].(phase := phase)];
    NewsShare(calls, p, r);
    NewsShare(calls', p, r);
    assert calls' - {p} == calls - {p};
  }

  lemma PropagateNews(s: State, p: nat, r: nat)
    requires Enabled(s, Propagate(p))
    ensures News(PropagateVerdict(s, p), r) == News(s, r) + Bit(ChangesStatus(s, Propagate(p), r))
  {
    NewsMoves(s.calls, p, Changed, r);
  }

  lemma CallNews(s: State, step: Step, r: nat)
    requires Enabled(s, step) && (step.Write? || step.Count? || step.Publish? || step.Die?)
    ensures News(Next(s, step), r) == News(s, r) - Bit(DropsNews(s, step, r))
    ensures !ChangesStatus(s, step, r)
  {
    var p := step.call;
    NewsShare(s.calls, p, r);
    if step.Write? || step.Count? {
      NewsMoves(s.calls, p, if step.Write? then Written else Counted, r);
    }
  }

  lemma FetchNews(s: State, step: Step, r: nat)
    requires Enabled(s, step) && step.Fetch?
    ensures News(Next(s, step), r) == News(s, r)
  {
    assert Unannounced(Next(s, step).calls, r) == Unannounced(s.calls, r);
  }

  lemma StepNews(s: State, step: Step, r: nat)
    requires Enabled(s, step) && Links(s.store)
    ensures News(Next(s, step), r) == News(s, r) + Bit(ChangesStatus(s, step, r)) - Bit(DropsNews(s, step, r))
  {
    match step
    case SubmitRun(rq, now, ch) => SubmitGrows(s.store, rq, now, ch);
    case Fetch(_, _, _, _) => FetchNews(s, step, r);
    case Propagate(p) => PropagateNews(s, p, r);
    case _ => CallNews(s, step, r);
  }

  // Steps that changed the status of an existing tournament row, and changes never announced.
  ghost function Changes(s: State, steps: seq<Step>, r: nat): int
    requires CanRun(s, steps)
    decreases steps
  {
    if steps == [] then 0 else Bit(ChangesStatus(s, steps[0], r)) + Changes(Next(s, steps[0]), steps[1..], r)
  }

  ghost function Dropped(s: State, steps: seq<Step>, r: nat): nat
    requires CanRun(s, steps)
    decreases steps
  {
    if steps == [] then 0 else (if DropsNews(s, steps[0], r) then 1 else 0) + Dropped(Next(s, steps[0]), steps[1..], r)
  }

  lemma {:induction false} RunNews(s: State, steps: seq<Step>, r: nat)
    requires CanRun(s, steps) && Links(s.store)
    ensures News(After(s, steps), r) == News(s, r) + Changes(s, steps, r) - Dropped(s, steps, r)
    decreases steps
  {
    if steps != [] {
      StepNews(s, steps[0], r);
      StepKeepsLinks(s, steps[0]);
      RunNews(Next(s, steps[0]), steps[1..], r);
    }
  }

  // In every run whatever, once no call is between changing r and announcing it, the
  // verification-changed events of r are as many as its real status changes if and only if no
  // call ended in between; there are never more.
  lemma PublishedAreChanges(s: State, steps: seq<Step>, r: nat)
    requires Fresh(s) && CanRun(s, steps)
    ensures var s' := After(s, steps);
            s'.published[r] as int + |Unannounced(s'.calls, r)| + Dropped(s, steps, r) == Changes(s, steps, r)
    ensures Unannounced(After(s, steps).calls, r) == {} ==>
              (After(s, steps).published[r] as int == Changes(s, steps, r) <==> Dropped(s, steps, r) == 0)
  {
    RunNews(s, steps, r);
    assert Unannounced(s.calls, r) == {};
  }

  // ---- The pending slot over runs ----

  lemma WritePending(s: State, p: nat, i: nat, user: nat, mapId: nat)
    requires Enabled(s, Write(p)) && s.calls[p].judge.Some?
    ensures PendingAt(WriteVerdict(s, p).store.core, i, user, mapId) ==> PendingAt(s.store.core, i, user, mapId)
  {
  }

  lemma StepKeepsSlot(s: State, step: Step, user: nat, mapId: nat)
    requires Enabled(s, step) && OneSlot(s.store.core, user, mapId) && !HasActiveCycle(s.store.db, mapId)
    requires step.Write? ==> s.calls[step.call].judge.Some?
    ensures OneSlot(Next(s, step).store.core, user, mapId) && !HasActiveCycle(Next(s, step).store.db, mapId)
  {
    match step
    case SubmitRun(rq, now, ch) =>
      SubmitGrows(s.store, rq, now, ch);
      var db' := Submit(s.store, rq, now, ch).0.db;
      assert forall c :: ActiveOn(db', c, mapId) <==> ActiveOn(s.store.db, c, mapId);
      if (user, mapId) == (rq.user, rq.mapId) {
        assert ch.cycle.None?;
        SlotKeptIff(s.store, rq, now, ch);
      } else {
        OtherSlotsStay(s.store, rq, now, ch, user, mapId);
      }
    case Write(p) =>
      forall i: nat
        ensures PendingAt(WriteVerdict(s, p).store.core, i, user, mapId) ==> PendingAt(s.store.core, i, user, mapId)
      {
        WritePending(s, p, i, user, mapId);
      }
    case Propagate(p) =>
      assert forall c :: ActiveOn(PropagateVerdict(s, p).store.db, c, mapId) <==> ActiveOn(s.store.db, c, mapId);
    case _ =>
  }

  // On a map without an active cycle no run of submissions and verify calls, overlapping or cut
  // short, ever gives a user two pending rows.
  lemma {:induction false} RunKeepsSlot(s: State, steps: seq<Step>, user: nat, mapId: nat)
    requires CanRun(s, steps) && Follows(s, steps, NoModeration) && OneSlot(s.store.core, user, mapId)
    requires !HasActiveCycle(s.store.db, mapId) && forall p :: p in s.calls ==> s.calls[p].judge.Some?
    ensures OneSlot(After(s, steps).store.core, user, mapId)
    decreases steps
  {
    if steps != [] {
      StepKeepsSlot(s, steps[0], user, mapId);
      RunKeepsSlot(Next(s, steps[0]), steps[1..], user, mapId);
    }
  }

  // A moderation write can refill the slot: it keeps the slot exactly unless it unverifies a row
  // nobody has signed while another row is pending.
  lemma ModerateKeepsSlotIff(s: State, p: nat)
    requires Enabled(s, Write(p)) && s.calls[p].judge.None?
    requires var row := s.store.core[s.calls[p].completion]; OneSlot(s.store.core, row.user, row.mapId)
    ensures var c := s.calls[p].completion;
            var row := s.store.core[c];
            OneSlot(WriteVerdict(s, p).store.core, row.user, row.mapId)
            <==> !(!s.calls[p].verified && row.verified && row.verifiedBy.None? && !row.legacy
                   && exists i: nat :: PendingAt(s.store.core, i, row.user, row.mapId))
  {
    var c := s.calls[p].completion;
    var row := s.store.core[c];
    var core' := WriteVerdict(s, p).store.core;
    forall i: nat
      ensures PendingAt(core', i, row.user, row.mapId)
              <==> if i == c then Pends(Judged(row, s.calls[p].verified, None)) else PendingAt(s.store.core, i, row.user, row.mapId)
    {
    }
    if !s.calls[p].verified && row.verified && row.verifiedBy.None? && !row.legacy {
      assert PendingAt(core', c, row.user, row.mapId);
      if i: nat :| PendingAt(s.store.core, i, row.user, row.mapId) {
        assert i != c && PendingAt(core', i, row.user, row.mapId);
        assert !OneSlot(core', row.user, row.mapId);
      } else {
        assert OneSlot(core', row.user, row.mapId);
      }
    } else {
      assert forall i: nat :: PendingAt(core', i, row.user, row.mapId) ==> PendingAt(s.store.core, i, row.user, row.mapId);
    }
  }

  // ---- The drain protocol sees only its own steps ----

  // Every step here changes the tournament tables by nothing, by one submission to an active
  // cycle, or by one verdict, so the runs of TournamentDrain cover it.
  lemma RefinesDrain(sys: TournamentPollers.System, s: State, step: Step)
    requires Enabled(s, step) && Links(s.store) && sys.db == s.store.db
    ensures var db' := Next(s, step).store.db;
            || db' == sys.db
            || exists d: TournamentPollers.Step :: (d.Submit? || d.Verdict?) && TournamentPollers.Enabled(sys, d)
                                                   && TournamentPollers.Next(sys, d) == sys.(db := db')
  {
    var s' := Next(s, step);
    if step.SubmitRun? {
      SubmitGrows(s.store, step.rq, step.now, step.ch);
      if s'.store.nextRun != s.store.nextRun {
        var d := TournamentPollers.Submit(s.store.nextRun, step.rq.user, step.rq.mapId, step.ch.cycle.value);
        assert TournamentPollers.Enabled(sys, d);
        assert TournamentPollers.Next(sys, d) == sys.(db := s'.store.db);
      }
    } else if step.Propagate? {
      var c := s.calls[step.call];
      if Propagates(s.store.db, c.link) {
        var d := TournamentPollers.Verdict(c.link.value, c.verified);
        assert TournamentPollers.Enabled(sys, d);
        assert TournamentPollers.Next(sys, d) == sys.(db := s'.store.db);
      }
    }
  }
}
