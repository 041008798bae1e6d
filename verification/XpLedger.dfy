// Tournament XP: the grant ledger, the floored XP upsert behind it, and the notices that wait
// for the commit. On a bare connection claim and upsert commit one by one.
module XpLedger {
  datatype Reason = Participation | Placement | Streak
  type Key = (nat, nat, Reason)  // (cycle_id, user_id, reason)

  // The upsert rounds the product of amount and multiplier down.
  function Floored(amount: int, multiplier: real): int { (amount as real * multiplier).Floor }

  // One XP grant as it was made: what the ledger row stores, and beside it what it does not, the
  // multiplier of the moment and whether the XP behind the claim was written.
  datatype Grant = Grant(key: Key, amount: int, multiplier: real, settled: bool) {
    function user(): nat { key.1 }
    function paid(): int { Floored(amount, multiplier) }
    function exact(): real { amount as real * multiplier }
  }

  datatype Notice = Notice(user: nat, amount: int, previous: int, new_: int)

  // lootbox.xp and tournaments.xp_grants; grants is the ledger in insertion order, other the
  // XP that reached users from outside the ledger.
  datatype Tables = Tables(xp: map<nat, int>, grants: seq<Grant>, other: map<nat, int>)

  function At(m: map<nat, int>, u: nat): int { if u in m then m[u] else 0 }

  predicate Claimed(t: Tables, k: Key) {
    exists i :: 0 <= i < |t.grants| && t.grants[i].key == k
  }

  // ---- One grant ----

  function AddXp(t: Tables, u: nat, amount: int, multiplier: real): Tables {
    t.(xp := t.xp[u := At(t.xp, u) + Floored(amount, multiplier)])
  }

  // claim_xp_grant, then grant_xp on a fresh claim only.
  function LedgerGrant(t: Tables, k: Key, amount: int, multiplier: real): Tables {
    if Claimed(t, k) then t
    else AddXp(t, k.1, amount, multiplier).(grants := t.grants + [Grant(k, amount, multiplier, true)])
  }

  // The same statements without a transaction around them: the claim commits alone, and the XP
  // follows only if nothing fails in between.
  function BareGrant(t: Tables, k: Key, amount: int, multiplier: real, paid: bool): Tables {
    if paid || Claimed(t, k) then LedgerGrant(t, k, amount, multiplier)
    else t.(grants := t.grants + [Grant(k, amount, multiplier, false)])
  }

  function OtherGrant(t: Tables, u: nat, amount: int, multiplier: real): Tables {
    AddXp(t, u, amount, multiplier).(other := t.other[u := At(t.other, u) + Floored(amount, multiplier)])
  }

  // ---- Sums over the ledger ----

  function PaidTo(grants: seq<Grant>, u: nat): int {
    if grants == [] then 0
    else PaidTo(grants[..|grants| - 1], u) + var g := grants[|grants| - 1]; if g.user() == u then g.paid() else 0
  }

  function ExactTo(grants: seq<Grant>, u: nat): real {
    if grants == [] then 0.0
    else ExactTo(grants[..|grants| - 1], u) + var g := grants[|grants| - 1]; if g.user() == u then g.exact() else 0.0
  }

  // The floors of the rows whose XP was never written.
  function UnpaidTo(grants: seq<Grant>, u: nat): int {
    if grants == [] then 0
    else
      UnpaidTo(grants[..|grants| - 1], u)
      + var g := grants[|grants| - 1]; if g.user() == u && !g.settled then g.paid() else 0
  }

  function Settled(grants: seq<Grant>): seq<Grant> {
    if grants == [] then []
    else Settled(grants[..|grants| - 1]) + if grants[|grants| - 1].settled then [grants[|grants| - 1]] else []
  }

  function RowsOf(grants: seq<Grant>, u: nat): nat {
    if grants == [] then 0
    else RowsOf(grants[..|grants| - 1], u) + if grants[|grants| - 1].user() == u then 1 else 0
  }

  // ---- The invariant ----

  ghost predicate UniqueKeys(grants: seq<Grant>) {
    forall i, j :: 0 <= i < j < |grants| ==> grants[i].key != grants[j].key
  }

  // Each key is granted once, and the balance is the outside XP plus the floored ledger less what
  // was never paid.
  ghost predicate Inv(t: Tables) {
    UniqueKeys(t.grants) && forall u :: At(t.xp, u) == At(t.other, u) + PaidTo(t.grants, u) - UnpaidTo(t.grants, u)
  }

  lemma LedgerGrantKeeps(t: Tables, k: Key, amount: int, multiplier: real)
    requires Inv(t)
    ensures Inv(LedgerGrant(t, k, amount, multiplier))
    ensures Claimed(LedgerGrant(t, k, amount, multiplier), k)
  {
    var t' := LedgerGrant(t, k, amount, multiplier);
    if !Claimed(t, k) {
      var last := |t.grants|;
      assert t'.grants[..last] == t.grants && t'.grants[last].key == k;
    }
  }

  lemma BareGrantKeeps(t: Tables, k: Key, amount: int, multiplier: real, paid: bool)
    requires Inv(t)
    ensures Inv(BareGrant(t, k, amount, multiplier, paid))
  {
    if paid || Claimed(t, k) {
      LedgerGrantKeeps(t, k, amount, multiplier);
    } else {
      var t', last := BareGrant(t, k, amount, multiplier, paid), |t.grants|;
      assert t'.grants[..last] == t.grants && t'.grants[last].key == k;
    }
  }

  lemma OtherGrantKeeps(t: Tables, u: nat, amount: int, multiplier: real)
    requires Inv(t)
    ensures Inv(OtherGrant(t, u, amount, multiplier))
  {
  }

  // A user's ledger-driven XP trails the exact product sum by less than one per ledger row.
  lemma {:induction false} FloorLossBounded(grants: seq<Grant>, u: nat)
    ensures PaidTo(grants, u) as real <= ExactTo(grants, u)
    ensures ExactTo(grants, u) - PaidTo(grants, u) as real <= RowsOf(grants, u) as real
    ensures RowsOf(grants, u) > 0 ==> ExactTo(grants, u) - (PaidTo(grants, u) as real) < RowsOf(grants, u) as real
  {
    if grants != [] {
      FloorLossBounded(grants[..|grants| - 1], u);
    }
  }

  // ---- Runs ----

  // A transaction is a list of ledger grants on one connection; it commits or rolls back whole.
  // Bare is the participation grant of an automatic verification, which runs on a connection
  // without a transaction; paid is false when it fails between the claim and the XP. Replays and
  // verify-reject-verify are just further events with old keys. The notices go out afterwards,
  // unless the caller died first or took the verdict for a no-op.
  datatype Claim = Claim(key: Key, amount: int)
  datatype Event =
    | Transaction(claims: seq<Claim>, commits: bool, announced: bool)
    | Bare(claim: Claim, paid: bool, announced: bool)
    | Outside(user: nat, amount: int)
    | SetMultiplier(value: real)

  datatype World = World(tables: Tables, multiplier: real, published: seq<Notice>, committed: seq<Notice>)

  const START := World(Tables(map[], [], map[]), 1.0, [], [])  // multiplier defaults to 1

  function NoticeOf(t: Tables, c: Claim, multiplier: real): Notice {
    var before := At(t.xp, c.key.1);
    Notice(c.key.1, c.amount, before, before + Floored(c.amount, multiplier))
  }

  function RunClaims(t: Tables, claims: seq<Claim>, multiplier: real): Tables
    decreases claims
  {
    if claims == [] then t
    else RunClaims(LedgerGrant(t, claims[0].key, claims[0].amount, multiplier), claims[1..], multiplier)
  }

  // The pending_events list a transaction fills: one notice per fresh claim.
  function Pending(t: Tables, claims: seq<Claim>, multiplier: real): seq<Notice>
    decreases claims
  {
    if claims == [] then []
    else (if Claimed(t, claims[0].key) then [] else [NoticeOf(t, claims[0], multiplier)])
         + Pending(LedgerGrant(t, claims[0].key, claims[0].amount, multiplier), claims[1..], multiplier)
  }

  // The notice of a bare grant is built after its XP.
  function BareNotice(t: Tables, c: Claim, multiplier: real, paid: bool): seq<Notice> {
    if paid && !Claimed(t, c.key) then [NoticeOf(t, c, multiplier)] else []
  }

  function Announce(w: World, tables: Tables, notices: seq<Notice>, announced: bool): World {
    w.(tables := tables, committed := w.committed + notices,
       published := if announced then w.published + notices else w.published)
  }

  function Apply(w: World, e: Event): World {
    match e
    case Transaction(claims, commits, announced) =>
      if !commits then w
      else Announce(w, RunClaims(w.tables, claims, w.multiplier), Pending(w.tables, claims, w.multiplier), announced)
    case Bare(c, paid, announced) =>
      Announce(w, BareGrant(w.tables, c.key, c.amount, w.multiplier, paid), BareNotice(w.tables, c, w.multiplier, paid), announced)
    case Outside(u, amount) => w.(tables := OtherGrant(w.tables, u, amount, w.multiplier))
    case SetMultiplier(value) => w.(multiplier := value)
  }

  function Run(w: World, events: seq<Event>): World
    decreases events
  {
    if events == [] then w else Run(Apply(w, events[0]), events[1..])
  }

  // The notices and the paid ledger rows tell the same story.
  ghost predicate Matches(n: Notice, g: Grant) {
    n.user == g.user() && n.amount == g.amount && n.new_ == n.previous + g.paid()
  }

  ghost predicate NoticesMatch(notices: seq<Notice>, grants: seq<Grant>) {
    |notices| == |Settled(grants)| && forall i :: 0 <= i < |notices| ==> Matches(notices[i], Settled(grants)[i])
  }

  lemma SettledSnoc(grants: seq<Grant>, g: Grant)
    ensures Settled(grants + [g]) == Settled(grants) + if g.settled then [g] else []
  {
    assert (grants + [g])[..|grants|] == grants;
  }

  lemma LedgerGrantMatches(t: Tables, c: Claim, multiplier: real, notices: seq<Notice>)
    requires NoticesMatch(notices, t.grants)
    ensures NoticesMatch(notices + if Claimed(t, c.key) then [] else [NoticeOf(t, c, multiplier)],
                         LedgerGrant(t, c.key, c.amount, multiplier).grants)
  {
    if Claimed(t, c.key) {
      assert notices + [] == notices;
    } else {
      SettledSnoc(t.grants, Grant(c.key, c.amount, multiplier, true));
    }
  }

  lemma {:induction false} ClaimsKeep(t: Tables, claims: seq<Claim>, multiplier: real, notices: seq<Notice>)
    requires Inv(t) && NoticesMatch(notices, t.grants)
    ensures Inv(RunClaims(t, claims, multiplier))
    ensures NoticesMatch(notices + Pending(t, claims, multiplier), RunClaims(t, claims, multiplier).grants)
    decreases claims
  {
    if claims == [] {
      assert notices + [] == notices;
    } else {
      var c := claims[0];
      var t' := LedgerGrant(t, c.key, c.amount, multiplier);
      LedgerGrantKeeps(t, c.key, c.amount, multiplier);
      LedgerGrantMatches(t, c, multiplier, notices);
      var here := if Claimed(t, c.key) then [] else [NoticeOf(t, c, multiplier)];
      ClaimsKeep(t', claims[1..], multiplier, notices + here);
      assert notices + Pending(t, claims, multiplier) == (notices + here) + Pending(t', claims[1..], multiplier);
    }
  }

  lemma BareKeeps(t: Tables, c: Claim, multiplier: real, paid: bool, notices: seq<Notice>)
    requires Inv(t) && NoticesMatch(notices, t.grants)
    ensures Inv(BareGrant(t, c.key, c.amount, multiplier, paid))
    ensures NoticesMatch(notices + BareNotice(t, c, multiplier, paid), BareGrant(t, c.key, c.amount, multiplier, paid).grants)
  {
    BareGrantKeeps(t, c.key, c.amount, multiplier, paid);
    LedgerGrantMatches(t, c, multiplier, notices);
    if !paid {
      assert notices + [] == notices;
      SettledSnoc(t.grants, Grant(c.key, c.amount, multiplier, false));
    }
  }

  // The notice of a fresh claim shows the base amount and the balance before and after it, and no
  // other balance moves.
  lemma NoticeShowsBalances(t: Tables, c: Claim, multiplier: real, u: nat)
    requires !Claimed(t, c.key)
    ensures var n, t' := NoticeOf(t, c, multiplier), LedgerGrant(t, c.key, c.amount, multiplier);
            && n == Notice(c.key.1, c.amount, At(t.xp, c.key.1), At(t'.xp, c.key.1))
            && (u != c.key.1 ==> At(t'.xp, u) == At(t.xp, u)) && t'.other == t.other
            && 0.0 <= c.amount as real * multiplier - (n.new_ - n.previous) as real < 1.0
  {
  }

  // Notices were published only for grants that committed, each at most once.
  ghost predicate WorldOk(w: World) {
    Inv(w.tables) && NoticesMatch(w.committed, w.tables.grants) && multiset(w.published) <= multiset(w.committed)
  }

  lemma StepKeepsWorld(w: World, e: Event)
    requires WorldOk(w)
    ensures WorldOk(Apply(w, e))
  {
    match e
    case Transaction(claims, _, _) => ClaimsKeep(w.tables, claims, w.multiplier, w.committed);
    case Bare(c, paid, _) => BareKeeps(w.tables, c, w.multiplier, paid, w.committed);
    case Outside(u, amount) => OtherGrantKeeps(w.tables, u, amount, w.multiplier);
    case SetMultiplier(_) =>
  }

  // Over every run: one grant per key, balances account for every XP, each paid ledger row has
  // exactly one notice waiting for it, unpaid rows have none, and no other notice ever goes out.
  lemma {:induction false} LedgerRun(w: World, events: seq<Event>)
    requires WorldOk(w)
    ensures WorldOk(Run(w, events))
    decreases events
  {
    if events != [] {
      StepKeepsWorld(w, events[0]);
      LedgerRun(Apply(w, events[0]), events[1..]);
    }
  }

  // The totals after any run from empty tables, user by user: the ledger's XP has reached the user
  // if and only if the floors of the unpaid rows sum to zero.
  lemma LedgerTotals(events: seq<Event>, u: nat)
    ensures var t := Run(START, events).tables;
            && UniqueKeys(t.grants)
            && At(t.xp, u) == At(t.other, u) + PaidTo(t.grants, u) - UnpaidTo(t.grants, u)
            && (At(t.xp, u) == At(t.other, u) + PaidTo(t.grants, u) <==> UnpaidTo(t.grants, u) == 0)
            && 0.0 <= ExactTo(t.grants, u) - (PaidTo(t.grants, u) as real) <= RowsOf(t.grants, u) as real
            && (RowsOf(t.grants, u) > 0 ==> ExactTo(t.grants, u) - (PaidTo(t.grants, u) as real) < RowsOf(t.grants, u) as real)
  {
    LedgerRun(START, events);
    FloorLossBounded(Run(START, events).tables.grants, u);
  }

  // ---- What a run is worth, told from its events ----

  predicate Asks(claims: seq<Claim>, k: Key, amount: int) {
    Claim(k, amount) in claims
  }

  // The event commits a claim of that key and amount.
  predicate Carries(e: Event, k: Key, amount: int) {
    match e
    case Transaction(claims, commits, _) => commits && Asks(claims, k, amount)
    case Bare(c, _, _) => c == Claim(k, amount)
    case Outside(_, _) => false
    case SetMultiplier(_) => false
  }

  predicate IsAnnounced(e: Event) {
    (e.Transaction? && e.commits && e.announced) || (e.Bare? && e.announced)
  }

  // A row made since grants: by one of the claims, at this multiplier, and paid.
  ghost predicate MadeBy(g: Grant, claims: seq<Claim>, multiplier: real) {
    Asks(claims, g.key, g.amount) && g.multiplier == multiplier && g.settled
  }

  lemma {:induction false} ClaimsMake(t: Tables, claims: seq<Claim>, multiplier: real)
    ensures var t' := RunClaims(t, claims, multiplier);
            && t.grants <= t'.grants && t'.other == t.other
            && (forall j :: |t.grants| <= j < |t'.grants| ==> MadeBy(t'.grants[j], claims, multiplier))
            && (forall c :: c in claims ==> Claimed(t', c.key))
    decreases claims
  {
    if claims != [] {
      var c := claims[0];
      var t1 := LedgerGrant(t, c.key, c.amount, multiplier);
      ClaimsMake(t1, claims[1..], multiplier);
      var t' := RunClaims(t, claims, multiplier);
      forall j | |t.grants| <= j < |t'.grants| ensures MadeBy(t'.grants[j], claims, multiplier) {
        if j < |t1.grants| {
          assert t'.grants[j] == t1.grants[j] == Grant(c.key, c.amount, multiplier, true);
        } else {
          assert MadeBy(t'.grants[j], claims[1..], multiplier);
        }
      }
      GrantTakesKey(t, c, multiplier);
      StaysClaimed(t1, t', c.key);
    }
  }

  lemma GrantTakesKey(t: Tables, c: Claim, multiplier: real)
    ensures Claimed(LedgerGrant(t, c.key, c.amount, multiplier), c.key)
  {
    if !Claimed(t, c.key) {
      assert LedgerGrant(t, c.key, c.amount, multiplier).grants[|t.grants|].key == c.key;
    }
  }

  lemma StaysClaimed(t: Tables, t': Tables, k: Key)
    requires Claimed(t, k) && t.grants <= t'.grants
    ensures Claimed(t', k)
  {
    var i :| 0 <= i < |t.grants| && t.grants[i].key == k;
    assert t'.grants[i].key == k;
  }

  // One event: what it adds to the ledger, to the outside XP and to what was published.
  lemma EventAdds(w: World, e: Event)
    ensures var w' := Apply(w, e);
            && w.tables.grants <= w'.tables.grants && w.committed <= w'.committed
            && (forall j :: |w.tables.grants| <= j < |w'.tables.grants| ==>
                  var g := w'.tables.grants[j];
                  Carries(e, g.key, g.amount) && g.multiplier == w.multiplier && g.settled == !(e.Bare? && !e.paid))
            && (forall c: Claim :: Carries(e, c.key, c.amount) ==> Claimed(w'.tables, c.key))
            && w'.published == w.published + (if IsAnnounced(e) then w'.committed[|w.committed|..] else [])
            && w'.multiplier == (if e.SetMultiplier? then e.value else w.multiplier)
            && (forall u :: At(w'.tables.other, u) == At(w.tables.other, u)
                              + if e.Outside? && e.user == u then Floored(e.amount, w.multiplier) else 0)
  {
    match e
    case Transaction(claims, commits, _) =>
      ClaimsMake(w.tables, claims, w.multiplier);
      if commits {
        var w' := Apply(w, e);
        forall c: Claim | Carries(e, c.key, c.amount) ensures Claimed(w'.tables, c.key) {
          assert c in claims;
        }
      }
    case Bare(c, paid, _) =>
      ClaimsMake(w.tables, [c], w.multiplier);
      BareAdds(w.tables, c, w.multiplier, paid);
    case Outside(_, _) =>
    case SetMultiplier(_) =>
  }

  lemma BareAdds(t: Tables, c: Claim, multiplier: real, paid: bool)
    ensures var t' := BareGrant(t, c.key, c.amount, multiplier, paid);
            && t'.grants == t.grants + (if Claimed(t, c.key) then [] else [Grant(c.key, c.amount, multiplier, paid)])
            && Claimed(t', c.key) && t'.other == t.other
  {
    GrantTakesKey(t, c, multiplier);
    if !paid && !Claimed(t, c.key) {
      assert BareGrant(t, c.key, c.amount, multiplier, paid).grants[|t.grants|].key == c.key;
    }
  }

  // The outside XP of a run, each amount floored at the multiplier last set before it.
  function OutsideXp(events: seq<Event>, multiplier: real, u: nat): int
    decreases events
  {
    if events == [] then 0
    else
      match events[0]
      case Outside(v, amount) =>
        (if v == u then Floored(amount, multiplier) else 0) + OutsideXp(events[1..], multiplier, u)
      case SetMultiplier(value) => OutsideXp(events[1..], value, u)
      case _ => OutsideXp(events[1..], multiplier, u)
  }

  ghost predicate CarriedBy(events: seq<Event>, k: Key) {
    exists i, amount :: 0 <= i < |events| && Carries(events[i], k, amount)
  }

  // Over every run: a key has a ledger row exactly when it had one or a committed event claimed it,
  // and outside XP is that of the outside grants.
  lemma {:induction false} RunAdds(w: World, events: seq<Event>, k: Key, u: nat)
    ensures Claimed(Run(w, events).tables, k) <==> Claimed(w.tables, k) || CarriedBy(events, k)
    ensures At(Run(w, events).tables.other, u) == At(w.tables.other, u) + OutsideXp(events, w.multiplier, u)
    decreases events
  {
    if events != [] {
      var e, rest := events[0], events[1..];
      var w' := Apply(w, e);
      EventAdds(w, e);
      RunAdds(w', rest, k, u);
      ClaimedByEvent(w, e, k);
      CarriedSplits(events, k);
    }
  }

  lemma ClaimedByEvent(w: World, e: Event, k: Key)
    ensures Claimed(Apply(w, e).tables, k) <==> Claimed(w.tables, k) || exists amount :: Carries(e, k, amount)
  {
    EventAdds(w, e);
    var w' := Apply(w, e);
    if Claimed(w.tables, k) {
      StaysClaimed(w.tables, w'.tables, k);
    } else if j :| 0 <= j < |w'.tables.grants| && w'.tables.grants[j].key == k {
      assert Carries(e, k, w'.tables.grants[j].amount);
    }
    if amount :| Carries(e, k, amount) {
      assert Claimed(w'.tables, Claim(k, amount).key);
    }
  }

  lemma CarriedSplits(events: seq<Event>, k: Key)
    requires events != []
    ensures CarriedBy(events, k) <==> (exists amount :: Carries(events[0], k, amount)) || CarriedBy(events[1..], k)
  {
    var rest := events[1..];
    if i, amount :| 0 <= i < |events| && Carries(events[i], k, amount) {
      assert i == 0 || Carries(rest[i - 1], k, amount);
    }
    if i, amount :| 0 <= i < |rest| && Carries(rest[i], k, amount) {
      assert Carries(events[i + 1], k, amount);
    }
  }

  // Nothing to publish: no commit of a claim.
  predicate Silent(e: Event) {
    e.Outside? || e.SetMultiplier? || (e.Transaction? && !e.commits)
  }

  // When every event with something to say says it, all that a run commits is published, in order.
  lemma {:induction false} AllAnnounced(w: World, events: seq<Event>)
    requires forall i :: 0 <= i < |events| ==> Silent(events[i]) || IsAnnounced(events[i])
    ensures w.committed <= Run(w, events).committed
    ensures Run(w, events).published == w.published + Run(w, events).committed[|w.committed|..]
    decreases events
  {
    if events != [] {
      var w', end := Apply(w, events[0]), Run(Apply(w, events[0]), events[1..]).committed;
      assert Silent(events[0]) || IsAnnounced(events[0]);
      EventAdds(w, events[0]);
      AllAnnounced(w', events[1..]);
      SuffixJoins(w.committed, w'.committed, end);
    }
  }

  lemma SuffixJoins<T>(a: seq<T>, b: seq<T>, c: seq<T>)
    requires a <= b <= c
    ensures a <= c && c[|a|..] == b[|a|..] + c[|b|..]
  {
  }

  // ---- Unpaid for good ----

  lemma {:induction false} ClaimsAppend(t: Tables, claims: seq<Claim>, multiplier: real)
    ensures t.grants <= RunClaims(t, claims, multiplier).grants
    decreases claims
  {
    if claims != [] {
      ClaimsAppend(LedgerGrant(t, claims[0].key, claims[0].amount, multiplier), claims[1..], multiplier);
    }
  }

  // No event rewrites a ledger row, so a row left unpaid stays unpaid: its key is taken and every
  // replay is refused.
  lemma {:induction false} LedgerOnlyGrows(w: World, events: seq<Event>)
    ensures w.tables.grants <= Run(w, events).tables.grants
    decreases events
  {
    if events != [] {
      if events[0].Transaction? {
        ClaimsAppend(w.tables, events[0].claims, w.multiplier);
      }
      LedgerOnlyGrows(Apply(w, events[0]), events[1..]);
    }
  }

  // One bare claim that fails before its XP, then the same grant again, whole: nothing is paid and
  // nobody is told.
  lemma BareFailureIsFinal(c: Claim)
    requires c.amount >= 1
    ensures var w := Run(START, [Bare(c, false, false), Bare(c, true, true), Transaction([c], true, true)]);
            && At(w.tables.xp, c.key.1) == 0 && w.published == []
            && PaidTo(w.tables.grants, c.key.1) == UnpaidTo(w.tables.grants, c.key.1) == c.amount
  {
    var e0, e1, e2 := Bare(c, false, false), Bare(c, true, true), Transaction([c], true, true);
    var w1 := Apply(START, e0);
    var row := Grant(c.key, c.amount, 1.0, false);
    assert w1 == World(Tables(map[], [row], map[]), 1.0, [], []);
    assert w1.tables.grants[0].key == c.key && Claimed(w1.tables, c.key);
    ReplaysAreRefused(w1, c);
    RunOfThree(START, e0, e1, e2);
    OneUnpaidRow(row);
    FlooredAtOne(c.amount);
  }

  lemma RunOfThree(w: World, e0: Event, e1: Event, e2: Event)
    ensures Run(w, [e0, e1, e2]) == Apply(Apply(Apply(w, e0), e1), e2)
  {
    assert [e0, e1, e2][1..] == [e1, e2] && [e1, e2][1..] == [e2] && [e2][1..] == [];
    var w2 := Apply(Apply(w, e0), e1);
    assert Run(w2, [e2]) == Apply(w2, e2);
    assert Run(Apply(w, e0), [e1, e2]) == Run(w2, [e2]);
  }

  lemma OneUnpaidRow(row: Grant)
    requires !row.settled
    ensures PaidTo([row], row.user()) == UnpaidTo([row], row.user()) == row.paid()
  {
    assert [row][..0] == [];
  }

  lemma FlooredAtOne(amount: int)
    ensures Floored(amount, 1.0) == amount
  {
  }

  lemma ReplaysAreRefused(w: World, c: Claim)
    requires Claimed(w.tables, c.key)
    ensures Apply(w, Bare(c, true, true)) == w
    ensures Apply(w, Transaction([c], true, true)) == w
  {
    assert [c][1..] == [];
    assert RunClaims(w.tables, [c], w.multiplier) == w.tables && Pending(w.tables, [c], w.multiplier) == [];
  }

  // ---- The services ----

  lemma ClaimsFrom(t: Tables, claims: seq<Claim>, i: nat, multiplier: real)
    requires i < |claims|
    ensures var c := claims[i];
            && RunClaims(t, claims[i..], multiplier)
               == RunClaims(BareGrant(t, c.key, c.amount, multiplier, true), claims[i + 1..], multiplier)
            && Pending(t, claims[i..], multiplier)
               == BareNotice(t, c, multiplier, true)
                  + Pending(BareGrant(t, c.key, c.amount, multiplier, true), claims[i + 1..], multiplier)
  {
    assert claims[i..][0] == claims[i] && claims[i..][1..] == claims[i + 1..];
  }

  class RewardService {
    var xp: map<nat, int>
    var grants: seq<Grant>
    ghost var other: map<nat, int>
    var multiplier: real

    ghost function Contents(): Tables
      reads this
    {
      Tables(xp, grants, other)
    }

    // INSERT ... ON CONFLICT DO NOTHING RETURNING id
    method ClaimXpGrant(k: Key, amount: int) returns (claimed: bool)
      modifies this`grants
      ensures claimed <==> !Claimed(old(Contents()), k)
      ensures grants == if claimed then old(grants) + [Grant(k, amount, multiplier, false)] else old(grants)
    {
      for i := 0 to |grants|
        invariant grants == old(grants) && forall j :: 0 <= j < i ==> grants[j].key != k
      {
        if grants[i].key == k {
          return false;
        }
      }
      grants := grants + [Grant(k, amount, multiplier, false)];
      return true;
    }

    method UpsertUserXp(u: nat, amount: int) returns (previous: int, new_: int)
      modifies this`xp
      ensures previous == At(old(xp), u) && new_ == previous + Floored(amount, multiplier)
      ensures xp == old(xp)[u := new_]
    {
      previous := if u in xp then xp[u] else 0;
      new_ := previous + Floored(amount, multiplier);
      xp := xp[u := new_];
    }

    // The ledger-guarded grant: a replay adds nothing and defers nothing. paid is false when the
    // upsert of a fresh claim raises; with no transaction around it the claim then stays.
    method GrantXp(c: Claim, pending: seq<Notice>, paid: bool) returns (pending': seq<Notice>, raised: bool)
      modifies this`grants, this`xp
      ensures Contents() == BareGrant(old(Contents()), c.key, c.amount, multiplier, paid)
      ensures pending' == pending + BareNotice(old(Contents()), c, multiplier, paid)
      ensures raised <==> !paid && !Claimed(old(Contents()), c.key)
    {
      pending', raised := pending, false;
      var claimed := ClaimXpGrant(c.key, c.amount);
      if claimed {
        if !paid {
          return pending, true;
        }
        var previous, new_ := UpsertUserXp(c.key.1, c.amount);
        var last := |grants| - 1;
        grants := grants[last := grants[last].(settled := true)];
        assert grants == old(grants) + [Grant(c.key, c.amount, multiplier, true)];
        pending' := pending + [Notice(c.key.1, c.amount, previous, new_)];
      }
    }

    // The loop body: what was still to be claimed before it is what is left after it.
    method ClaimNext(claims: seq<Claim>, i: nat, pending: seq<Notice>) returns (pending': seq<Notice>)
      requires i < |claims|
      modifies this`grants, this`xp
      ensures RunClaims(Contents(), claims[i + 1..], multiplier) == RunClaims(old(Contents()), claims[i..], multiplier)
      ensures pending' + Pending(Contents(), claims[i + 1..], multiplier) == pending + Pending(old(Contents()), claims[i..], multiplier)
    {
      ClaimsFrom(Contents(), claims, i, multiplier);
      var raised;
      pending', raised := GrantXp(claims[i], pending, true);
    }

    method ClaimAll(claims: seq<Claim>) returns (pending: seq<Notice>)
      modifies this`grants, this`xp
      ensures Contents() == RunClaims(old(Contents()), claims, multiplier)
      ensures pending == Pending(old(Contents()), claims, multiplier)
    {
      pending := [];
      for i := 0 to |claims|
        invariant RunClaims(old(Contents()), claims, multiplier) == RunClaims(Contents(), claims[i..], multiplier)
        invariant Pending(old(Contents()), claims, multiplier) == pending + Pending(Contents(), claims[i..], multiplier)
      {
        pending := ClaimNext(claims, i, pending);
      }
    }

    // One transaction: every claim in turn, then commit or roll back, then publish.
    method AwardAll(claims: seq<Claim>, commits: bool, announced: bool) returns (published: seq<Notice>)
      modifies this`grants, this`xp
      ensures Contents() == if commits then RunClaims(old(Contents()), claims, multiplier) else old(Contents())
      ensures published == if commits && announced then Pending(old(Contents()), claims, multiplier) else []
    {
      var xp0, grants0 := xp, grants;
      var pending := ClaimAll(claims);
      if !commits {
        xp, grants := xp0, grants0;
        return [];
      }
      if !announced {
        return [];
      }
      published := PublishXpEvents(pending);
    }

    // Broker failures are logged and skipped; this is the list of attempts.
    static method PublishXpEvents(events: seq<Notice>) returns (attempted: seq<Notice>)
      ensures attempted == events
    {
      attempted := [];
      for i := 0 to |events|
        invariant attempted == events[..i]
      {
        attempted := attempted + [events[i]];
      }
    }
  }
}
