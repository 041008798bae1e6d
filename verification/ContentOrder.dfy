// The ordered content tables: create appends, delete closes the gap, reorder swaps two
// neighbouring sort orders and renumbers.
module ContentOrder {
  import opened Wrappers

  datatype Direction = Up | Down
  datatype Error = DuplicateName | NotFound
  datatype Outcome = Done | Failed(error: Error)

  // ---- The list the table stands for ----

  predicate Distinct(s: seq<nat>) {
    forall i, j :: 0 <= i < j < |s| ==> s[i] != s[j]
  }

  function Swap(s: seq<nat>, i: nat): seq<nat>
    requires i + 1 < |s|
  {
    s[i := s[i + 1]][i + 1 := s[i]]
  }

  function IndexOf(s: seq<nat>, x: nat): (i: nat)
    requires x in s
    ensures i < |s| && s[i] == x && x !in s[..i]
  {
    if s[0] == x then 0 else 1 + IndexOf(s[1..], x)
  }

  // What one reorder call does to the listing: one adjacent transposition, or nothing at an edge.
  function Moved(s: seq<nat>, x: nat, d: Direction): seq<nat>
    requires x in s
  {
    var i := IndexOf(s, x);
    match d
    case Up => if i == 0 then s else Swap(s, i - 1)
    case Down => if i == |s| - 1 then s else Swap(s, i)
  }

  function Removed(s: seq<nat>, x: nat): seq<nat>
    requires x in s
  {
    s[..IndexOf(s, x)] + s[IndexOf(s, x) + 1..]
  }

  // order is exactly 1..n along list.
  ghost predicate Numbered(order: map<nat, int>, list: seq<nat>) {
    Distinct(list) && (forall id :: id in order <==> id in list)
    && forall i :: 0 <= i < |list| ==> order[list[i]] == i + 1
  }

  // order sorts list, with any strictly increasing numbers.
  ghost predicate SortedBy(order: map<nat, int>, list: seq<nat>) {
    (forall id :: id in order <==> id in list)
    && forall i, j :: 0 <= i < j < |list| ==> list[i] in order && list[j] in order && order[list[i]] < order[list[j]]
  }

  // ROW_NUMBER() OVER (ORDER BY sort_order)
  function RowNumber(order: map<nat, int>, id: nat): nat
    requires id in order
  {
    1 + |set other | other in order && order[other] < order[id]|
  }

  function Renumbered(order: map<nat, int>): map<nat, int> {
    map id | id in order :: RowNumber(order, id)
  }

  function Members(s: seq<nat>): set<nat> { set x | x in s }

  lemma {:induction false} PrefixSize(list: seq<nat>)
    requires Distinct(list)
    ensures |Members(list)| == |list|
  {
    if list != [] {
      var last := |list| - 1;
      PrefixSize(list[..last]);
      assert list[last] !in list[..last];
      assert list == list[..last] + [list[last]];
      assert Members(list) == Members(list[..last]) + {list[last]};
    }
  }

  lemma RenumberingNumbers(order: map<nat, int>, list: seq<nat>)
    requires SortedBy(order, list)
    ensures Numbered(Renumbered(order), list)
  {
    forall i, j | 0 <= i < j < |list| ensures list[i] != list[j] {
      assert order[list[i]] < order[list[j]];
    }
    forall i | 0 <= i < |list| ensures list[i] in order && RowNumber(order, list[i]) == i + 1 {
      assert list[i] in list;
      forall id | id in order && order[id] < order[list[i]] ensures id in list[..i] {
        var k :| 0 <= k < |list| && list[k] == id;
        assert k < i;
      }
      assert (set other | other in order && order[other] < order[list[i]]) == Members(list[..i]);
      PrefixSize(list[..i]);
    }
  }

  ghost predicate IdsBelow(ids: set<nat>, next: nat) {
    forall id :: id in ids ==> id < next
  }

  // The UNIQUE constraint on name.
  ghost predicate UniqueNames(names: map<nat, string>) {
    forall a, b :: a in names && b in names && names[a] == names[b] ==> a == b
  }

  // ---- The table ----

  class CategoryTable {
    var names: map<nat, string>
    var order: map<nat, int>   // sort_order
    var nextId: nat            // identity sequence
    ghost var list: seq<nat>   // ids in listing order

    ghost predicate Valid()
      reads this
    {
      names.Keys == order.Keys && Numbered(order, list) && IdsBelow(order.Keys, nextId) && UniqueNames(names)
    }

    constructor ()
      ensures Valid() && list == []
    {
      names, order, nextId, list := map[], map[], 0, [];
    }

    // SELECT ... ORDER BY sort_order
    method FetchIds() returns (ids: seq<nat>)
      requires Valid()
      ensures ids == list
    {
      ids := [];
      var n := |order|;
      SizeOfOrder(order, list);
      for k := 0 to n
        invariant ids == list[..k]
      {
        assert order[list[k]] == k + 1;
        var id :| id in order && order[id] == k + 1;
        NumberFindsItem(order, list, id, k);
        ids := ids + [id];
      }
    }

    // COALESCE(MAX(sort_order), 0)
    method MaxOrder() returns (m: int)
      requires Valid()
      ensures m == |list|
    {
      m := 0;
      var todo := order.Keys;
      while todo != {}
        invariant todo <= order.Keys && 0 <= m <= |list|
        invariant forall id :: id in order.Keys - todo ==> order[id] <= m
        decreases todo
      {
        var id :| id in todo;
        assert id in list;
        todo := todo - {id};
        if order[id] > m {
          m := order[id];
        }
      }
      assert |list| > 0 ==> list[|list| - 1] in order.Keys;
    }

    method CreateCategory(name: string) returns (r: Outcome)
      requires Valid()
      modifies this
      ensures Valid()
      ensures r.Failed? <==> name in old(names.Values)
      ensures r.Failed? ==> r.error == DuplicateName && list == old(list) && names == old(names) && order == old(order)
      ensures r.Done? ==> list == old(list) + [old(nextId)] && names == old(names)[old(nextId) := name]
    {
      if name in names.Values {
        return Failed(DuplicateName);
      }
      var m := MaxOrder();
      names := names[nextId := name];
      order := order[nextId := m + 1];
      list := list + [nextId];
      nextId := nextId + 1;
      return Done;
    }

    // UPDATE ... SET sort_order = ROW_NUMBER() OVER (ORDER BY sort_order)
    method NormalizeSortOrder(ghost listing: seq<nat>)
      requires SortedBy(order, listing)
      modifies this`order
      ensures order.Keys == old(order.Keys) && Numbered(order, listing)
    {
      RenumberingNumbers(order, listing);
      order := map id | id in order :: RowNumber(order, id);
    }

    method DeleteCategory(id: nat) returns (r: Outcome)
      requires Valid()
      modifies this
      ensures Valid() && nextId == old(nextId)
      ensures r.Failed? <==> id !in old(list)
      ensures r.Failed? ==> r.error == NotFound && list == old(list) && names == old(names) && order == old(order)
      ensures r.Done? ==> list == Removed(old(list), id) && names == old(names) - {id}
    {
      if id !in order {
        return Failed(NotFound);
      }
      RemovedSorts(order, list, id);
      ghost var rest := Removed(list, id);
      assert UniqueNames(names - {id});
      RemoveRow(id, rest);
      list := rest;
      return Done;
    }

    method RemoveRow(id: nat, ghost rest: seq<nat>)
      requires SortedBy(order - {id}, rest)
      modifies this`names, this`order
      ensures names == old(names) - {id} && order.Keys == old(order.Keys) - {id} && Numbered(order, rest)
    {
      names := names - {id};
      order := order - {id};
      NormalizeSortOrder(rest);
    }

    method SwapSortOrder(a: nat, b: nat)
      requires a in order && b in order
      modifies this`order
      ensures order == old(order)[a := old(order[b])][b := old(order[a])]
    {
      order := order[a := order[b]][b := order[a]];
    }

    method ReorderCategory(id: nat, direction: Direction) returns (r: Outcome)
      requires Valid()
      modifies this
      ensures Valid() && names == old(names) && nextId == old(nextId)
      ensures r.Failed? <==> id !in old(list)
      ensures r.Failed? ==> r.error == NotFound && list == old(list) && order == old(order)
      ensures r.Done? ==> list == Moved(old(list), id, direction)
    {
      var ids := FetchIds();
      if id !in ids {
        return Failed(NotFound);
      }
      var neighbor := FindNeighbor(ids, id, direction);
      if neighbor.None? {
        return Done;  // already first or last
      }
      ghost var moved := Moved(list, id, direction);
      SwapSorts(order, list, id, direction, neighbor.value);
      SwapAndNormalize(id, neighbor.value, moved);
      list := moved;
      return Done;
    }

    static method FindNeighbor(ids: seq<nat>, id: nat, direction: Direction) returns (neighbor: Option<nat>)
      requires id in ids
      ensures neighbor.None? ==> Moved(ids, id, direction) == ids
      ensures neighbor.Some? ==> IsNeighbor(ids, id, direction, neighbor.value)
    {
      var idx := IndexOf(ids, id);
      if direction == Up {
        return if idx == 0 then None else Some(ids[idx - 1]);
      } else {
        return if idx == |ids| - 1 then None else Some(ids[idx + 1]);
      }
    }

    method SwapAndNormalize(a: nat, b: nat, ghost moved: seq<nat>)
      requires a in order && b in order && SortedBy(order[a := order[b]][b := order[a]], moved)
      modifies this`order
      ensures order.Keys == old(order.Keys) && Numbered(order, moved)
    {
      SwapSortOrder(a, b);
      NormalizeSortOrder(moved);
    }
  }

  lemma NumberFindsItem(order: map<nat, int>, list: seq<nat>, id: nat, k: nat)
    requires Numbered(order, list) && id in order && order[id] == k + 1
    ensures k < |list| && list[k] == id
  {
    var j :| 0 <= j < |list| && list[j] == id;
    assert order[list[j]] == j + 1;
  }

  lemma SizeOfOrder(order: map<nat, int>, list: seq<nat>)
    requires Numbered(order, list)
    ensures |order| == |list|
  {
    PrefixSize(list);
    assert order.Keys == Members(list);
    assert |order| == |order.Keys|;
  }

  ghost predicate Precedes(s: seq<nat>, x: nat, y: nat) {
    exists k, l :: 0 <= k < l < |s| && s[k] == x && s[l] == y
  }

  // The others keep their relative order.
  lemma RemovedFacts(s: seq<nat>, x: nat)
    requires Distinct(s) && x in s
    ensures var t := Removed(s, x);
            Distinct(t) && |t| == |s| - 1 && forall y :: y in t <==> y in s && y != x
    ensures forall i, j :: 0 <= i < j < |Removed(s, x)| ==> Precedes(s, Removed(s, x)[i], Removed(s, x)[j])
  {
    var at, t := IndexOf(s, x), Removed(s, x);
    forall y | y in s && y != x ensures y in t {
      var k :| 0 <= k < |s| && s[k] == y;
      assert if k < at then t[k] == y else t[k - 1] == y;
    }
    forall i, j | 0 <= i < j < |t| ensures Precedes(s, t[i], t[j]) {
      var k, l := if i < at then i else i + 1, if j < at then j else j + 1;
      assert s[k] == t[i] && s[l] == t[j];
    }
  }

  lemma SwappedOrderSorts(order: map<nat, int>, s: seq<nat>, i: nat)
    requires Numbered(order, s) && i + 1 < |s|
    ensures s[i] in order && s[i + 1] in order
    ensures SortedBy(order[s[i] := order[s[i + 1]]][s[i + 1] := order[s[i]]], Swap(s, i))
    ensures SortedBy(order[s[i + 1] := order[s[i]]][s[i] := order[s[i + 1]]], Swap(s, i))
  {
    var swapped, t := order[s[i] := order[s[i + 1]]][s[i + 1] := order[s[i]]], Swap(s, i);
    SwapMembers(s, i);
    forall k | 0 <= k < |t| ensures t[k] in swapped && swapped[t[k]] == k + 1 {
      assert t[k] in t;
    }
    assert order[s[i + 1] := order[s[i]]][s[i] := order[s[i + 1]]] == swapped;
  }

  predicate IsNeighbor(s: seq<nat>, x: nat, d: Direction, y: nat)
    requires x in s
  {
    var i := IndexOf(s, x);
    if d == Up then i > 0 && y == s[i - 1] else i + 1 < |s| && y == s[i + 1]
  }

  // Swapping the sort orders of an item and its neighbour sorts the moved list.
  lemma SwapSorts(order: map<nat, int>, s: seq<nat>, x: nat, d: Direction, y: nat)
    requires Numbered(order, s) && x in s && IsNeighbor(s, x, d, y)
    ensures x in order && y in order && SortedBy(order[x := order[y]][y := order[x]], Moved(s, x, d))
  {
    var i := IndexOf(s, x);
    SwappedOrderSorts(order, s, if d == Up then i - 1 else i);
  }

  lemma RemovedSorts(order: map<nat, int>, s: seq<nat>, x: nat)
    requires Numbered(order, s) && x in s
    ensures SortedBy(order - {x}, Removed(s, x))
  {
    RemovedFacts(s, x);
  }

  lemma SwapMembers(s: seq<nat>, i: nat)
    requires i + 1 < |s|
    ensures forall x :: x in Swap(s, i) <==> x in s
    ensures Distinct(s) ==> Distinct(Swap(s, i))
  {
    var t := Swap(s, i);
    forall x | x in s ensures x in t {
      var k :| 0 <= k < |s| && s[k] == x;
      assert t[if k == i then i + 1 else if k == i + 1 then i else k] == x;
    }
  }

  // ---- Undo ----

  lemma IndexIs(s: seq<nat>, i: nat)
    requires Distinct(s) && i < |s|
    ensures IndexOf(s, s[i]) == i
  {
  }

  lemma SwapBack(s: seq<nat>, i: nat)
    requires Distinct(s) && i + 1 < |s|
    ensures Moved(s, s[i], Down) == Swap(s, i) == Moved(s, s[i + 1], Up)
    ensures s[i] in Swap(s, i) && Moved(Swap(s, i), s[i], Up) == s
    ensures s[i + 1] in Swap(s, i) && Moved(Swap(s, i), s[i + 1], Down) == s
    ensures Swap(s, i) != s
  {
    var t := Swap(s, i);
    SwapMembers(s, i);
    IndexIs(s, i);
    IndexIs(s, i + 1);
    IndexIs(t, i);
    IndexIs(t, i + 1);
    assert t[i] == s[i + 1] && t[i + 1] == s[i];
    assert Swap(t, i) == s;
  }

  // Up then down puts the list back exactly unless the item was first of several.
  lemma UpThenDown(s: seq<nat>, x: nat)
    requires Distinct(s) && x in s
    ensures x in Moved(s, x, Up)
    ensures Moved(Moved(s, x, Up), x, Down) == s <==> s[0] != x || |s| == 1
  {
    var i := IndexOf(s, x);
    if i > 0 {
      SwapBack(s, i - 1);
    } else if |s| > 1 {
      SwapBack(s, 0);
    }
  }

  lemma DownThenUp(s: seq<nat>, x: nat)
    requires Distinct(s) && x in s
    ensures x in Moved(s, x, Down)
    ensures Moved(Moved(s, x, Down), x, Up) == s <==> s[|s| - 1] != x || |s| == 1
  {
    var i := IndexOf(s, x);
    if i + 1 < |s| {
      SwapBack(s, i);
    } else if |s| > 1 {
      SwapBack(s, i - 1);
    }
  }

  // ---- Reachability ----

  datatype Call = Call(id: nat, direction: Direction)

  ghost predicate CanApply(s: seq<nat>, calls: seq<Call>)
    decreases calls
  {
    calls == [] || (calls[0].id in s && CanApply(Moved(s, calls[0].id, calls[0].direction), calls[1..]))
  }

  ghost function Apply(s: seq<nat>, calls: seq<Call>): seq<nat>
    requires CanApply(s, calls)
    decreases calls
  {
    if calls == [] then s else Apply(Moved(s, calls[0].id, calls[0].direction), calls[1..])
  }

  ghost predicate Permutes(s: seq<nat>, t: seq<nat>) {
    Distinct(s) && Distinct(t) && |s| == |t| && forall x :: x in s <==> x in t
  }

  // Where each item of s stands in t.
  function Positions(s: seq<nat>, t: seq<nat>): (p: seq<nat>)
    requires forall x :: x in s ==> x in t
  {
    seq(|s|, i requires 0 <= i < |s| => IndexOf(t, s[i]))
  }

  function CountLess(s: seq<nat>, x: nat): nat {
    if s == [] then 0 else (if s[0] < x then 1 else 0) + CountLess(s[1..], x)
  }

  // Pairs out of order.
  function Inversions(s: seq<nat>): nat {
    if s == [] then 0 else CountLess(s[1..], s[0]) + Inversions(s[1..])
  }

  lemma {:induction false} CountLessSwap(s: seq<nat>, i: nat, x: nat)
    requires i + 1 < |s|
    ensures CountLess(Swap(s, i), x) == CountLess(s, x)
  {
    var t := Swap(s, i);
    if i == 0 {
      assert t[1..][1..] == s[1..][1..];
    } else {
      assert t[1..] == Swap(s[1..], i - 1);
      CountLessSwap(s[1..], i - 1, x);
    }
  }

  lemma {:induction false} SwapInversions(s: seq<nat>, i: nat)
    requires i + 1 < |s|
    ensures Inversions(Swap(s, i)) == Inversions(s) +
            (if s[i] < s[i + 1] then 1 else 0) - (if s[i + 1] < s[i] then 1 else 0)
  {
    var t := Swap(s, i);
    if i == 0 {
      var rest := s[2..];
      assert s[1..][1..] == rest && t[1..][1..] == rest;
      assert s[1..][0] == s[1] && t[1..][0] == s[0];
    } else {
      assert t[1..] == Swap(s[1..], i - 1);
      CountLessSwap(s[1..], i - 1, s[0]);
      SwapInversions(s[1..], i - 1);
    }
  }

  lemma {:induction false} DescentOrZero(s: seq<nat>)
    ensures (forall i :: 0 <= i < |s| - 1 ==> s[i] <= s[i + 1]) ==> Inversions(s) == 0
  {
    if s != [] && forall i :: 0 <= i < |s| - 1 ==> s[i] <= s[i + 1] {
      forall i | 0 <= i < |s[1..]| - 1 ensures s[1..][i] <= s[1..][i + 1] {
        assert s[i + 1] <= s[i + 1 + 1];
      }
      DescentOrZero(s[1..]);
      NoneLess(s[1..], s[0]);
    }
  }

  lemma {:induction false} NoneLess(s: seq<nat>, x: nat)
    requires s != [] ==> x <= s[0]
    requires forall i :: 0 <= i < |s| - 1 ==> s[i] <= s[i + 1]
    ensures CountLess(s, x) == 0
  {
    if s != [] {
      forall i | 0 <= i < |s[1..]| - 1 ensures s[1..][i] <= s[1..][i + 1] {
        assert s[i + 1] <= s[i + 1 + 1];
      }
      NoneLess(s[1..], x);
    }
  }

  // Without inversions an arrangement is the target.
  lemma {:induction false} ZeroIsSorted(s: seq<nat>, i: nat, j: nat)
    requires Inversions(s) == 0 && i < j < |s|
    ensures s[i] <= s[j]
  {
    if i == 0 {
      CountLessZero(s[1..], s[0], j - 1);
    } else {
      ZeroIsSorted(s[1..], i - 1, j - 1);
    }
  }

  lemma {:induction false} CountLessZero(s: seq<nat>, x: nat, i: nat)
    requires CountLess(s, x) == 0 && i < |s|
    ensures x <= s[i]
  {
    if i > 0 {
      CountLessZero(s[1..], x, i - 1);
    }
  }

  // Ascending distinct positions below n, n of them, are 0..n-1.
  lemma {:induction false} FillsUp(p: seq<nat>, i: nat)
    requires Inversions(p) == 0 && Distinct(p) && i < |p|
    ensures p[i] >= i
  {
    if i > 0 {
      FillsUp(p, i - 1);
      ZeroIsSorted(p, i - 1, i);
    }
  }

  lemma {:induction false} FillsDown(p: seq<nat>, i: nat)
    requires Inversions(p) == 0 && Distinct(p) && i < |p| && forall k :: 0 <= k < |p| ==> p[k] < |p|
    ensures p[i] <= i
    decreases |p| - i
  {
    if i + 1 < |p| {
      FillsDown(p, i + 1);
      ZeroIsSorted(p, i, i + 1);
    }
  }

  lemma PositionsFacts(s: seq<nat>, t: seq<nat>)
    requires Permutes(s, t)
    ensures Distinct(Positions(s, t)) && forall i :: 0 <= i < |s| ==> Positions(s, t)[i] < |t|
    ensures forall i :: 0 <= i < |s| ==> t[Positions(s, t)[i]] == s[i]
  {
  }

  lemma NoInversionsLeft(s: seq<nat>, t: seq<nat>)
    requires Permutes(s, t) && Inversions(Positions(s, t)) == 0
    ensures s == t
  {
    var p := Positions(s, t);
    PositionsFacts(s, t);
    forall i | 0 <= i < |s| ensures s[i] == t[i] {
      FillsUp(p, i);
      FillsDown(p, i);
    }
  }

  // One call changes the number of inversions by at most one, whatever it moves.
  lemma CallInversions(s: seq<nat>, t: seq<nat>, c: Call)
    requires Permutes(s, t) && c.id in s
    ensures Permutes(Moved(s, c.id, c.direction), t)
    ensures Inversions(Positions(s, t)) <= Inversions(Positions(Moved(s, c.id, c.direction), t)) + 1
  {
    var i := IndexOf(s, c.id);
    if c.direction == Up && i > 0 {
      SwapPositions(s, t, i - 1);
    } else if c.direction == Down && i + 1 < |s| {
      SwapPositions(s, t, i);
    }
  }

  lemma SwapPositions(s: seq<nat>, t: seq<nat>, i: nat)
    requires Permutes(s, t) && i + 1 < |s|
    ensures Permutes(Swap(s, i), t) && Positions(Swap(s, i), t) == Swap(Positions(s, t), i)
    ensures Inversions(Positions(Swap(s, i), t)) == Inversions(Positions(s, t)) +
            (if Positions(s, t)[i] < Positions(s, t)[i + 1] then 1 else -1)
  {
    SwapMembers(s, i);
    PositionsFacts(s, t);
    SwapInversions(Positions(s, t), i);
    assert Positions(Swap(s, i), t) == Swap(Positions(s, t), i);
  }

  // Every arrangement is reachable with one reorder call per inversion.
  lemma {:induction false} Reachable(s: seq<nat>, t: seq<nat>) returns (calls: seq<Call>)
    requires Permutes(s, t)
    ensures CanApply(s, calls) && Apply(s, calls) == t && |calls| == Inversions(Positions(s, t))
    decreases Inversions(Positions(s, t))
  {
    var p := Positions(s, t);
    if Inversions(p) == 0 {
      NoInversionsLeft(s, t);
      return [];
    }
    DescentOrZero(p);
    var i :| 0 <= i < |p| - 1 && p[i] > p[i + 1];
    SwapPositions(s, t, i);
    IndexIs(s, i);
    var rest := Reachable(Swap(s, i), t);
    calls := [Call(s[i], Down)] + rest;
    assert Moved(s, s[i], Down) == Swap(s, i) && calls[1..] == rest;
  }

  // And with no fewer.
  lemma {:induction false} NoFewerCalls(s: seq<nat>, t: seq<nat>, calls: seq<Call>)
    requires Permutes(s, t) && CanApply(s, calls) && Apply(s, calls) == t
    ensures |calls| >= Inversions(Positions(s, t))
    decreases calls
  {
    if calls == [] {
      var p := Positions(t, t);
      forall i | 0 <= i < |t| ensures p[i] == i {
        IndexIs(t, i);
      }
      DescentOrZero(p);
    } else {
      CallInversions(s, t, calls[0]);
      NoFewerCalls(Moved(s, calls[0].id, calls[0].direction), t, calls[1..]);
    }
  }
}
