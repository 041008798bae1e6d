// fetch_leaderboard: DISTINCT ON the best run of each user, sort, RANK() in row order.
module Leaderboard {
  import opened TournamentTables

  // One tournament completion with the columns the board sorts by.
  datatype Submission = Submission(id: nat, user: nat, status: RunStatus, hasVideo: bool, time: real, insertedAt: int) {
    // The generated columns.
    predicate verified() { status == Verified }
    predicate completion() { hasVideo }
  }
  datatype Entry = Entry(rank: nat, user: nat, time: real, verified: bool, completion: bool)

  // ---- The order ----

  // verified DESC, completion DESC, time ASC
  predicate AheadOnMerit(a: Submission, b: Submission) {
    if a.verified() != b.verified() then a.verified()
    else if a.completion() != b.completion() then a.completion()
    else a.time < b.time
  }

  predicate SameMerit(a: Submission, b: Submission) {
    a.verified() == b.verified() && a.completion() == b.completion() && a.time == b.time
  }

  // ..., inserted_at ASC, user_id ASC
  predicate Ahead(a: Submission, b: Submission) {
    AheadOnMerit(a, b)
    || (SameMerit(a, b) && (a.insertedAt < b.insertedAt || (a.insertedAt == b.insertedAt && a.user < b.user)))
  }

  lemma AheadIsTotal(a: Submission, b: Submission, c: Submission)
    ensures !Ahead(a, a)
    ensures Ahead(a, b) && Ahead(b, c) ==> Ahead(a, c)
    ensures !Ahead(a, b) && !Ahead(b, a) ==> a.user == b.user && a.insertedAt == b.insertedAt
  {
  }

  // UNIQUE (cycle_id, user_id, inserted_at) on the runs of one cycle.
  predicate Unique(runs: seq<Submission>) {
    forall i, j :: 0 <= i < j < |runs| ==> runs[i].user != runs[j].user || runs[i].insertedAt != runs[j].insertedAt
  }

  // ---- The query ----

  function Without(runs: seq<Submission>, u: nat): (rest: seq<Submission>)
    ensures |rest| <= |runs|
  {
    if runs == [] then []
    else if runs[0].user == u then Without(runs[1..], u)
    else [runs[0]] + Without(runs[1..], u)
  }

  // First of u's runs in the DISTINCT ON order, starting from the one in hand.
  function Best(runs: seq<Submission>, u: nat, sofar: Submission): Submission {
    if runs == [] then sofar
    else Best(runs[1..], u, if runs[0].user == u && Ahead(runs[0], sofar) then runs[0] else sofar)
  }

  function BestPerUser(runs: seq<Submission>): seq<Submission>
    decreases |runs|
  {
    if runs == [] then []
    else [Best(runs, runs[0].user, runs[0])] + BestPerUser(Without(runs[1..], runs[0].user))
  }

  function Insert(r: Submission, sorted: seq<Submission>): seq<Submission> {
    if sorted == [] || Ahead(r, sorted[0]) then [r] + sorted else [sorted[0]] + Insert(r, sorted[1..])
  }

  function Sort(runs: seq<Submission>): seq<Submission> {
    if runs == [] then [] else Insert(runs[0], Sort(runs[1..]))
  }

  // RANK(): one more than the rows before this one that are not its peers.
  function RankAt(rows: seq<Submission>, i: nat): nat
    requires i < |rows|
    decreases i
  {
    if i == 0 then 1 else if !Ahead(rows[i - 1], rows[i]) then RankAt(rows, i - 1) else i + 1
  }

  function Rows(runs: seq<Submission>): seq<Submission> { Sort(BestPerUser(runs)) }

  function FetchLeaderboard(runs: seq<Submission>): seq<Entry> {
    var rows := Rows(runs);
    seq(|rows|, i requires 0 <= i < |rows| =>
      Entry(RankAt(rows, i), rows[i].user, rows[i].time, rows[i].verified(), rows[i].completion()))
  }

  // ---- The reference: one plus the users whose best run is ahead ----

  function Users(runs: seq<Submission>): set<nat> { set r | r in runs :: r.user }

  ghost predicate IsBest(runs: seq<Submission>, b: Submission) {
    b in runs && forall r :: r in runs && r.user == b.user ==> !Ahead(r, b)
  }

  // The users with a run ahead of all that b's owner has to show.
  ghost function UsersAhead(runs: seq<Submission>, b: Submission): set<nat> {
    set r | r in runs && r.user != b.user && Ahead(r, b) :: r.user
  }

  ghost function RankOf(runs: seq<Submission>, b: Submission): nat { 1 + |UsersAhead(runs, b)| }

  // ---- DISTINCT ON facts ----

  lemma {:induction false} WithoutFacts(runs: seq<Submission>, u: nat, r: Submission)
    ensures r in Without(runs, u) <==> r in runs && r.user != u
  {
    if runs != [] {
      WithoutFacts(runs[1..], u, r);
      assert r in runs <==> r == runs[0] || r in runs[1..];
    }
  }

  lemma {:induction false} BestFacts(runs: seq<Submission>, u: nat, sofar: Submission)
    requires sofar.user == u
    ensures var best := Best(runs, u, sofar);
            && (best == sofar || (best in runs && best.user == u && Ahead(best, sofar)))
            && forall r :: r in runs && r.user == u ==> !Ahead(r, best)
  {
    if runs != [] {
      var next := if runs[0].user == u && Ahead(runs[0], sofar) then runs[0] else sofar;
      BestFacts(runs[1..], u, next);
      var best := Best(runs, u, sofar);
      forall r | r in runs && r.user == u ensures !Ahead(r, best) {
        if r == runs[0] && Ahead(r, best) {
          AheadIsTotal(r, best, sofar);
          AheadIsTotal(best, next, best);
          AheadIsTotal(r, best, next);
          assert false;
        }
      }
      AheadIsTotal(best, next, sofar);
    }
  }

  lemma {:induction false} BestPerUserFacts(runs: seq<Submission>)
    ensures DistinctUsers(BestPerUser(runs)) && UsersOf(BestPerUser(runs)) == Users(runs)
    ensures forall b :: b in BestPerUser(runs) ==> IsBest(runs, b)
    decreases |runs|
  {
    if runs != [] {
      var u, rest := runs[0].user, Without(runs[1..], runs[0].user);
      var b := Best(runs, u, runs[0]);
      BestFacts(runs, u, runs[0]);
      AheadIsTotal(b, runs[0], b);
      BestPerUserFacts(rest);
      var best, tail := BestPerUser(runs), BestPerUser(rest);
      assert best == [b] + tail;
      forall r: Submission ensures r in rest <==> r in runs && r.user != u {
        WithoutFacts(runs[1..], u, r);
        assert r in runs <==> r == runs[0] || r in runs[1..];
      }
      assert Users(runs) == Users(rest) + {u};
      forall i | 0 <= i < |tail| ensures tail[i].user != u {
        assert tail[i] in tail;
      }
      assert UsersOf(best) == UsersOf(tail) + {u} by {
        forall i | 0 <= i < |tail| ensures tail[i].user in UsersOf(best) {
          assert best[i + 1] == tail[i];
        }
        assert best[0] == b;
      }
      forall c | c in best ensures IsBest(runs, c) {
        assert c == b || c in tail;
      }
    }
  }

  // ---- Sorting facts ----

  predicate Sorted(rows: seq<Submission>) {
    forall i, j :: 0 <= i < j < |rows| ==> Ahead(rows[i], rows[j])
  }

  predicate DistinctUsers(rows: seq<Submission>) {
    forall i, j :: 0 <= i < j < |rows| ==> rows[i].user != rows[j].user
  }

  lemma {:induction false} InsertFacts(r: Submission, sorted: seq<Submission>)
    requires Sorted(sorted) && DistinctUsers(sorted) && forall s :: s in sorted ==> s.user != r.user
    ensures var out := Insert(r, sorted);
            Sorted(out) && DistinctUsers(out) && |out| == |sorted| + 1
            && forall s :: s in out <==> s == r || s in sorted
  {
    if sorted == [] || Ahead(r, sorted[0]) {
      forall j | 0 <= j < |sorted| ensures Ahead(r, sorted[j]) {
        AheadIsTotal(r, sorted[0], sorted[j]);
      }
    } else {
      AheadIsTotal(r, sorted[0], r);
      assert sorted[0] in sorted;
      InsertFacts(r, sorted[1..]);
      var out := [sorted[0]] + Insert(r, sorted[1..]);
      assert forall k :: 0 < k < |out| ==> out[k] in Insert(r, sorted[1..]);
      assert forall k :: 0 < k < |out| ==> out[k] == r || out[k] in sorted[1..];
    }
  }

  lemma {:induction false} SortFacts(runs: seq<Submission>)
    requires DistinctUsers(runs)
    ensures Sorted(Sort(runs)) && DistinctUsers(Sort(runs)) && |Sort(runs)| == |runs|
    ensures forall s :: s in Sort(runs) <==> s in runs
  {
    if runs != [] {
      SortFacts(runs[1..]);
      InsertFacts(runs[0], Sort(runs[1..]));
    }
  }

  // The users of the first k rows.
  function UsersOf(rows: seq<Submission>): set<nat> { set i | 0 <= i < |rows| :: rows[i].user }

  lemma {:induction false} CountUsers(rows: seq<Submission>)
    requires DistinctUsers(rows)
    ensures |UsersOf(rows)| == |rows|
  {
    if rows != [] {
      var last := |rows| - 1;
      CountUsers(rows[..last]);
      assert UsersOf(rows) == UsersOf(rows[..last]) + {rows[last].user};
    }
  }

  lemma RowFacts(runs: seq<Submission>)
    ensures Sorted(Rows(runs)) && DistinctUsers(Rows(runs))
    ensures forall b :: b in Rows(runs) ==> IsBest(runs, b)
    ensures UsersOf(Rows(runs)) == Users(runs)
  {
    var best := BestPerUser(runs);
    BestPerUserFacts(runs);
    SortFacts(best);
    SameMembersSameUsers(Rows(runs), best);
  }

  lemma SameMembersSameUsers(s: seq<Submission>, t: seq<Submission>)
    requires forall r :: r in s <==> r in t
    ensures UsersOf(s) == UsersOf(t)
  {
    forall i | 0 <= i < |s| ensures s[i].user in UsersOf(t) {
      assert s[i] in t;
    }
    forall i | 0 <= i < |t| ensures t[i].user in UsersOf(s) {
      assert t[i] in s;
    }
  }

  // Users ahead of row i are those of the rows above it.
  lemma AheadAreAbove(runs: seq<Submission>, i: nat)
    requires i < |Rows(runs)|
    ensures UsersAhead(runs, Rows(runs)[i]) == UsersOf(Rows(runs)[..i])
  {
    RowFacts(runs);
    var rows := Rows(runs);
    var b := rows[i];
    forall u | u in UsersAhead(runs, b) ensures u in UsersOf(rows[..i]) {
      var r :| r in runs && r.user == u && r.user != b.user && Ahead(r, b);
      assert u in UsersOf(rows);
      var k :| 0 <= k < |rows| && rows[k].user == u;
      assert rows[k] in rows && !Ahead(r, rows[k]);
      if k >= i {
        assert k != i && Ahead(b, rows[k]);
        AheadIsTotal(r, b, rows[k]);
        assert false;
      }
    }
    forall k | 0 <= k < i ensures rows[k].user in UsersAhead(runs, b) {
      assert rows[k] in rows && Ahead(rows[k], b);
    }
  }

  // ---- The board is the reference ----

  lemma RowRank(runs: seq<Submission>, i: nat)
    requires i < |Rows(runs)|
    ensures RankAt(Rows(runs), i) == i + 1 == RankOf(runs, Rows(runs)[i])
  {
    RowFacts(runs);
    var rows := Rows(runs);
    AheadAreAbove(runs, i);
    CountUsers(rows[..i]);
    assert i > 0 ==> Ahead(rows[i - 1], rows[i]);
  }

  lemma UserHasRow(runs: seq<Submission>, u: nat) returns (i: nat)
    requires u in Users(runs)
    ensures i < |Rows(runs)| && Rows(runs)[i].user == u
  {
    RowFacts(runs);
    assert u in UsersOf(Rows(runs));
    i :| 0 <= i < |Rows(runs)| && Rows(runs)[i].user == u;
  }

  // Each submitting user appears exactly once, with a best run of theirs; row i has rank i + 1,
  // which is one more than the number of users whose runs beat it.
  lemma BoardCorrect(runs: seq<Submission>)
    ensures var board, rows := FetchLeaderboard(runs), Rows(runs);
            && |board| == |rows| == |Users(runs)|
            && (forall u :: u in Users(runs) <==> exists i :: 0 <= i < |board| && board[i].user == u)
            && (forall i, j :: 0 <= i < j < |board| ==> board[i].user != board[j].user)
            && (forall i :: 0 <= i < |board| ==>
                  board[i].rank == i + 1 == RankOf(runs, rows[i]) && IsBest(runs, rows[i])
                  && board[i].user == rows[i].user)
  {
    RowFacts(runs);
    var board, rows := FetchLeaderboard(runs), Rows(runs);
    CountUsers(rows);
    forall i | 0 <= i < |board| ensures board[i].rank == i + 1 == RankOf(runs, rows[i]) && IsBest(runs, rows[i]) {
      RowRank(runs, i);
      assert rows[i] in rows;
    }
    forall u | u in Users(runs) ensures exists i :: 0 <= i < |board| && board[i].user == u {
      var i := UserHasRow(runs, u);
      assert board[i].user == u;
    }
    forall i | 0 <= i < |board| ensures board[i].user in Users(runs) {
      assert rows[i].user in UsersOf(rows);
    }
  }

  // The columns of the board: verified rows first, then those with video, then by time; each row
  // shows one of its user's submissions, and none of them is better on those columns.
  lemma BoardColumns(runs: seq<Submission>)
    ensures var board := FetchLeaderboard(runs);
            forall i, j :: 0 <= i < j < |board| ==>
              && (board[j].verified ==> board[i].verified)
              && (board[j].verified == board[i].verified ==>
                    && (board[j].completion ==> board[i].completion)
                    && (board[j].completion == board[i].completion ==> board[i].time <= board[j].time))
    ensures var board := FetchLeaderboard(runs);
            |board| == |Rows(runs)| && forall i :: 0 <= i < |board| ==> ShownAs(runs, Rows(runs)[i], board[i])
  {
    RowFacts(runs);
    var board, rows := FetchLeaderboard(runs), Rows(runs);
    forall i, j | 0 <= i < j < |board| ensures Ahead(rows[i], rows[j]) {
    }
    forall i | 0 <= i < |board| ensures ShownAs(runs, rows[i], board[i]) {
      assert rows[i] in rows;
    }
  }

  // The entry shows b, a submission of its user with the best verified, video and time columns.
  ghost predicate ShownAs(runs: seq<Submission>, b: Submission, entry: Entry) {
    && b in runs && entry.user == b.user && entry.verified == (b.status == Verified) && entry.completion == b.hasVideo && entry.time == b.time
    && forall r :: r in runs && r.user == b.user ==> NotBetter(r, b)
  }

  // On status, video and time alone.
  predicate NotBetter(r: Submission, b: Submission) {
    && (r.status == Verified ==> b.status == Verified)
    && ((r.status == Verified) == (b.status == Verified) ==>
          && (r.hasVideo ==> b.hasVideo)
          && (r.hasVideo == b.hasVideo ==> b.time <= r.time))
  }

  // Ties on the shown columns go to the earlier submission, then to the smaller user id; within
  // one user, to the earlier submission.
  lemma TiesByAge(runs: seq<Submission>)
    ensures var rows := Rows(runs);
            forall i, j :: 0 <= i < j < |rows| && NotBetter(rows[i], rows[j]) ==>
              rows[i].insertedAt < rows[j].insertedAt || (rows[i].insertedAt == rows[j].insertedAt && rows[i].user < rows[j].user)
    ensures forall b, r :: b in Rows(runs) && r in runs && r.user == b.user && NotBetter(b, r) ==> b.insertedAt <= r.insertedAt
  {
    RowFacts(runs);
    var rows := Rows(runs);
    forall i, j | 0 <= i < j < |rows| && NotBetter(rows[i], rows[j])
      ensures rows[i].insertedAt < rows[j].insertedAt || (rows[i].insertedAt == rows[j].insertedAt && rows[i].user < rows[j].user)
    {
      assert Ahead(rows[i], rows[j]) && rows[i].user != rows[j].user;
    }
  }

  // A user's best run is unique up to the columns the board shows.
  lemma BestIsUnique(runs: seq<Submission>, a: Submission, b: Submission)
    requires Unique(runs) && IsBest(runs, a) && IsBest(runs, b) && a.user == b.user
    ensures a == b
  {
    AheadIsTotal(a, b, a);
    var i :| 0 <= i < |runs| && runs[i] == a;
    var j :| 0 <= j < |runs| && runs[j] == b;
    assert i == j;
  }

  // ---- The winner column of fetch_cycles ----

  ghost predicate MayKeep(runs: seq<Submission>, u: nat, r: Submission) {
    r in runs && r.user == u && forall q :: q in runs && q.user == u ==> !AheadOnMerit(q, r)
  }

  // The subquery keeps, per user, any run that no run of theirs is ahead of on merit, and the
  // outer query any of those that none of them is ahead of on merit.
  ghost predicate Picks(runs: seq<Submission>, kept: map<nat, Submission>, w: Submission) {
    && (forall u :: u in Users(runs) ==> u in kept)
    && (forall u :: u in kept ==> MayKeep(runs, u, kept[u]))
    && w.user in kept && kept[w.user] == w
    && forall u :: u in kept ==> !AheadOnMerit(kept[u], w)
  }

  ghost predicate MayWin(runs: seq<Submission>, w: Submission) {
    exists kept :: Picks(runs, kept, w)
  }

  lemma NobodyAheadOfWinner(runs: seq<Submission>, w: Submission)
    requires MayWin(runs, w)
    ensures w in runs && forall r :: r in runs ==> !AheadOnMerit(r, w)
  {
    var kept :| Picks(runs, kept, w);
    assert MayKeep(runs, w.user, w);
    forall r | r in runs ensures !AheadOnMerit(r, w) {
      assert r.user in Users(runs);
      MeritTransfers(r, kept[r.user], w);
    }
  }

  lemma MeritTransfers(r: Submission, k: Submission, w: Submission)
    requires !AheadOnMerit(r, k) && !AheadOnMerit(k, w)
    ensures !AheadOnMerit(r, w)
  {
  }

  lemma NobodyAheadOfTop(runs: seq<Submission>, r: Submission)
    requires r in runs
    ensures |Rows(runs)| > 0 && Rows(runs)[0] in runs && !Ahead(r, Rows(runs)[0])
  {
    RowFacts(runs);
    var rows := Rows(runs);
    assert r.user in UsersOf(rows);
    var k :| 0 <= k < |rows| && rows[k].user == r.user;
    assert rows[k] in rows && rows[0] in rows;
    AheadIsTotal(r, rows[0], rows[k]);
  }

  // Whatever row fetch_cycles picks ties with rank 1 on (verified, completion, time).
  lemma WinnerTiesWithRankOne(runs: seq<Submission>, w: Submission)
    requires MayWin(runs, w)
    ensures |Rows(runs)| > 0 && SameMerit(w, Rows(runs)[0])
  {
    NobodyAheadOfWinner(runs, w);
    NobodyAheadOfTop(runs, w);
  }

  // No submission of the cycle is better than the winner's on status, video and time.
  lemma WinnerColumns(runs: seq<Submission>, w: Submission)
    requires MayWin(runs, w)
    ensures w in runs
    ensures forall r :: r in runs ==>
              && (r.status == Verified ==> w.status == Verified)
              && ((r.status == Verified) == (w.status == Verified) ==>
                    && (r.hasVideo ==> w.hasVideo)
                    && (r.hasVideo == w.hasVideo ==> w.time <= r.time))
  {
    NobodyAheadOfWinner(runs, w);
  }

  // ---- The board under a verdict ----

  function SetStatus(runs: seq<Submission>, id: nat, s: RunStatus): (out: seq<Submission>)
    ensures |out| == |runs|
    ensures forall i :: 0 <= i < |runs| ==> out[i] == if runs[i].id == id then runs[i].(status := s) else runs[i]
  {
    if runs == [] then []
    else [if runs[0].id == id then runs[0].(status := s) else runs[0]] + SetStatus(runs[1..], id, s)
  }

  // The set of users standing ahead of u, whatever u's best run is.
  ghost function Standing(runs: seq<Submission>, u: nat): set<nat> {
    set r | r in runs && r.user != u && (forall q :: q in runs && q.user == u ==> Ahead(r, q)) :: r.user
  }

  lemma StandingIsUsersAhead(runs: seq<Submission>, b: Submission)
    requires IsBest(runs, b)
    ensures Standing(runs, b.user) == UsersAhead(runs, b)
  {
    forall r | r in runs && r.user != b.user && Ahead(r, b) ensures r.user in Standing(runs, b.user) {
      forall q | q in runs && q.user == b.user ensures Ahead(r, q) {
        AheadIsTotal(r, b, q);
        AheadThenNotBehind(r, b, q);
      }
    }
  }

  lemma AheadThenNotBehind(r: Submission, b: Submission, q: Submission)
    requires Ahead(r, b) && !Ahead(q, b)
    ensures Ahead(r, q)
  {
  }

  // The rank the board gives to user u.
  ghost function BoardRank(runs: seq<Submission>, u: nat): nat { 1 + |Standing(runs, u)| }

  lemma BoardShowsRank(runs: seq<Submission>, i: nat)
    requires i < |FetchLeaderboard(runs)|
    ensures FetchLeaderboard(runs)[i].rank == BoardRank(runs, FetchLeaderboard(runs)[i].user)
  {
    BoardCorrect(runs);
    StandingIsUsersAhead(runs, Rows(runs)[i]);
  }

  predicate Raised(r: Submission, r': Submission) {
    r' == r || r' == r.(status := Verified)
  }

  lemma RaisedIsAhead(r: Submission, r': Submission, q: Submission)
    requires Raised(r, r') && q.user != r.user
    ensures Ahead(r, q) ==> Ahead(r', q)
    ensures Ahead(q, r') ==> Ahead(q, r)
  {
  }

  // after differs from runs only in that some of the owner's runs became verified.
  ghost predicate OwnerRaised(runs: seq<Submission>, after: seq<Submission>, owner: nat) {
    && (forall r: Submission :: r.user != owner ==> (r in runs <==> r in after))
    && (forall r :: r in runs && r.user == owner ==> exists r' :: r' in after && Raised(r, r'))
    && (forall r' :: r' in after && r'.user == owner ==> exists r :: r in runs && Raised(r, r'))
  }

  lemma OwnerGains(runs: seq<Submission>, after: seq<Submission>, owner: nat)
    requires OwnerRaised(runs, after, owner)
    ensures BoardRank(after, owner) <= BoardRank(runs, owner)
  {
    forall v | v in Standing(after, owner) ensures v in Standing(runs, owner) {
      var r :| r in after && r.user == v && v != owner && forall q :: q in after && q.user == owner ==> Ahead(r, q);
      forall q | q in runs && q.user == owner ensures Ahead(r, q) {
        var q' :| q' in after && Raised(q, q');
        RaisedIsAhead(q, q', r);
      }
    }
    SubsetSize(Standing(after, owner), Standing(runs, owner));
  }

  lemma OthersLoseOne(runs: seq<Submission>, after: seq<Submission>, owner: nat, u: nat)
    requires OwnerRaised(runs, after, owner) && u != owner
    ensures BoardRank(runs, u) <= BoardRank(after, u) <= BoardRank(runs, u) + 1
  {
    forall v | v in Standing(runs, u) ensures v in Standing(after, u) {
      var r :| r in runs && r.user == v && v != u && forall q :: q in runs && q.user == u ==> Ahead(r, q);
      var r' :| r' in after && Raised(r, r');
      forall q | q in after && q.user == u ensures Ahead(r', q) {
        RaisedIsAhead(r, r', q);
      }
    }
    forall v | v in Standing(after, u) && v != owner ensures v in Standing(runs, u) {
      var r :| r in after && r.user == v && v != u && forall q :: q in after && q.user == u ==> Ahead(r, q);
      assert r in runs;
    }
    SubsetSize(Standing(runs, u), Standing(after, u));
    SubsetSize(Standing(after, u), Standing(runs, u) + {owner});
  }

  lemma OneRaised(runs: seq<Submission>, after: seq<Submission>, k: nat)
    requires |runs| == |after| && k < |runs| && Raised(runs[k], after[k])
    requires forall i :: 0 <= i < |runs| && i != k ==> after[i] == runs[i]
    ensures OwnerRaised(runs, after, runs[k].user)
  {
    var owner := runs[k].user;
    forall r: Submission | r.user != owner ensures r in runs <==> r in after {
      if r in runs {
        var i :| 0 <= i < |runs| && runs[i] == r;
        assert after[i] == r;
      }
    }
    forall r | r in runs ensures exists r' :: r' in after && Raised(r, r') {
      var i :| 0 <= i < |runs| && runs[i] == r;
      assert after[i] in after && Raised(r, after[i]);
    }
    forall r' | r' in after ensures exists r :: r in runs && Raised(r, r') {
      var i :| 0 <= i < |after| && after[i] == r';
      assert runs[i] in runs && Raised(runs[i], r');
    }
  }

  // Verifying a run moves nobody but its owner up, the owner never down, and nobody down by
  // more than one place.
  lemma VerifyMovesRanks(runs: seq<Submission>, k: nat, u: nat)
    requires k < |runs| && (forall i :: 0 <= i < |runs| && runs[i].id == runs[k].id ==> i == k)
    ensures var after, owner := SetStatus(runs, runs[k].id, Verified), runs[k].user;
            && BoardRank(after, owner) <= BoardRank(runs, owner)
            && (u != owner ==> BoardRank(runs, u) <= BoardRank(after, u) <= BoardRank(runs, u) + 1)
  {
    OneRaised(runs, SetStatus(runs, runs[k].id, Verified), k);
    OwnerGains(runs, SetStatus(runs, runs[k].id, Verified), runs[k].user);
    if u != runs[k].user {
      OthersLoseOne(runs, SetStatus(runs, runs[k].id, Verified), runs[k].user, u);
    }
  }

  // Taking a verification back is the mirror image.
  lemma RejectVerifiedMovesRanks(runs: seq<Submission>, k: nat, u: nat)
    requires k < |runs| && (forall i :: 0 <= i < |runs| && runs[i].id == runs[k].id ==> i == k)
    requires runs[k].status == Verified
    ensures var after, owner := SetStatus(runs, runs[k].id, Rejected), runs[k].user;
            && BoardRank(runs, owner) <= BoardRank(after, owner)
            && (u != owner ==> BoardRank(after, u) <= BoardRank(runs, u) <= BoardRank(after, u) + 1)
  {
    OneRaised(SetStatus(runs, runs[k].id, Rejected), runs, k);
    OwnerGains(SetStatus(runs, runs[k].id, Rejected), runs, runs[k].user);
    if u != runs[k].user {
      OthersLoseOne(SetStatus(runs, runs[k].id, Rejected), runs, runs[k].user, u);
    }
  }

  // ---- A rejection the board cannot show ----

  // Equal in every column but status, and verified alike.
  predicate Alike(a: Submission, b: Submission) {
    a == b.(status := a.status) && a.verified() == b.verified()
  }

  predicate AllAlike(s: seq<Submission>, t: seq<Submission>) {
    |s| == |t| && forall i :: 0 <= i < |s| ==> Alike(s[i], t[i])
  }

  lemma {:induction false} WithoutAlike(s: seq<Submission>, t: seq<Submission>, u: nat)
    requires AllAlike(s, t)
    ensures AllAlike(Without(s, u), Without(t, u))
  {
    if s != [] {
      WithoutAlike(s[1..], t[1..], u);
    }
  }

  lemma {:induction false} BestAlike(s: seq<Submission>, t: seq<Submission>, u: nat, a: Submission, b: Submission)
    requires AllAlike(s, t) && Alike(a, b) && a.user == u
    ensures Alike(Best(s, u, a), Best(t, u, b))
    decreases |s|
  {
    if s != [] {
      var better := s[0].user == u && Ahead(s[0], a);
      assert better == (t[0].user == u && Ahead(t[0], b));
      BestAlike(s[1..], t[1..], u, if better then s[0] else a, if better then t[0] else b);
    }
  }

  lemma {:induction false} BestPerUserAlike(s: seq<Submission>, t: seq<Submission>)
    requires AllAlike(s, t)
    ensures AllAlike(BestPerUser(s), BestPerUser(t))
    decreases |s|
  {
    if s != [] {
      BestAlike(s, t, s[0].user, s[0], t[0]);
      WithoutAlike(s[1..], t[1..], s[0].user);
      BestPerUserAlike(Without(s[1..], s[0].user), Without(t[1..], s[0].user));
    }
  }

  lemma {:induction false} InsertAlike(a: Submission, b: Submission, s: seq<Submission>, t: seq<Submission>)
    requires Alike(a, b) && AllAlike(s, t)
    ensures AllAlike(Insert(a, s), Insert(b, t))
    decreases |s|
  {
    if s != [] {
      assert Ahead(a, s[0]) == Ahead(b, t[0]);
      InsertAlike(a, b, s[1..], t[1..]);
    }
  }

  lemma {:induction false} SortAlike(s: seq<Submission>, t: seq<Submission>)
    requires AllAlike(s, t)
    ensures AllAlike(Sort(s), Sort(t))
  {
    if s != [] {
      SortAlike(s[1..], t[1..]);
      InsertAlike(s[0], t[0], Sort(s[1..]), Sort(t[1..]));
    }
  }

  lemma {:induction false} RankAlike(s: seq<Submission>, t: seq<Submission>, i: nat)
    requires AllAlike(s, t) && i < |s|
    ensures RankAt(s, i) == RankAt(t, i)
    decreases i
  {
    if i > 0 {
      assert Alike(s[i - 1], t[i - 1]) && Alike(s[i], t[i]);
      assert Ahead(s[i - 1], s[i]) == Ahead(t[i - 1], t[i]);
      RankAlike(s, t, i - 1);
    }
  }

  // Rejecting a run that is not verified leaves the whole board as it was.
  lemma RejectUnverifiedKeepsBoard(runs: seq<Submission>, id: nat)
    requires forall r :: r in runs && r.id == id ==> !r.verified()
    ensures FetchLeaderboard(SetStatus(runs, id, Rejected)) == FetchLeaderboard(runs)
  {
    var after := SetStatus(runs, id, Rejected);
    assert AllAlike(after, runs);
    BestPerUserAlike(after, runs);
    SortAlike(BestPerUser(after), BestPerUser(runs));
    forall i | 0 <= i < |Rows(runs)| ensures FetchLeaderboard(after)[i] == FetchLeaderboard(runs)[i] {
      RankAlike(Rows(after), Rows(runs), i);
      assert Alike(Rows(after)[i], Rows(runs)[i]);
    }
  }

  lemma {:induction false} SubsetSize(a: set<nat>, b: set<nat>)
    requires a <= b
    ensures |a| <= |b|
  {
    if a != {} {
      var x :| x in a;
      SubsetSize(a - {x}, b - {x});
    }
  }
}
