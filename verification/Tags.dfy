// Tags and their names: public.tags and public.tag_lookup, changed together.
module Tags {
  import opened Wrappers
  import opened Text

  datatype Tag = Tag(name: string, content: string, owner: nat, uses: nat, guild: nat)
  datatype Lookup = Lookup(name: string, owner: nat, guild: nat, tag: nat)
  datatype Tables = Tables(tags: map<nat, Tag>, lookups: map<nat, Lookup>, nextTag: nat, nextLookup: nat)

  const EMPTY := Tables(map[], map[], 0, 0)

  datatype Op =
    | Create(guild: nat, name: string, content: string, owner: nat)
    | Alias(guild: nat, newName: string, name: string, owner: nat)
    | Edit(guild: nat, name: string, content: string, owner: nat)
    | Remove(guild: nat, name: string)
    | RemoveById(guild: nat, id: nat)
    | IncrementUsage(guild: nat, name: string)
    | Transfer(guild: nat, name: string, newOwner: nat, requester: nat)
    | Purge(guild: nat, owner: nat)
    | Claim(guild: nat, name: string, requester: nat)

  // ---- Resolution ----

  predicate Named(t: Tables, l: nat, guild: nat, name: string) {
    l in t.lookups && Lower(t.lookups[l].name) == Lower(name) && t.lookups[l].guild == guild
  }

  ghost predicate Resolves(t: Tables, guild: nat, name: string, id: nat) {
    exists l :: Named(t, l, guild, name) && t.lookups[l].tag == id
  }

  ghost predicate NameTaken(t: Tables, guild: nat, name: string) {
    || (exists l :: Named(t, l, guild, name))
    || exists id :: id in t.tags && Lower(t.tags[id].name) == Lower(name) && t.tags[id].guild == guild
  }

  // The tag a name or alias stands for; the unique index on names leaves no choice.
  ghost function Resolve(t: Tables, guild: nat, name: string): Option<nat> {
    if l :| Named(t, l, guild, name) then Some(t.lookups[l].tag) else None
  }

  // ---- The statements ----

  function SetTagOwner(t: Tables, id: nat, owner: nat): Tables {
    if id in t.tags then t.(tags := t.tags[id := t.tags[id].(owner := owner)]) else t
  }

  function SetLookupOwners(t: Tables, id: nat, guild: nat, owner: nat): Tables {
    t.(lookups := map l | l in t.lookups ::
                    if t.lookups[l].tag == id && t.lookups[l].guild == guild then t.lookups[l].(owner := owner)
                    else t.lookups[l])
  }

  function DeleteLookups(t: Tables, id: nat, guild: nat): Tables {
    t.(lookups := map l | l in t.lookups && !(t.lookups[l].tag == id && t.lookups[l].guild == guild) :: t.lookups[l])
  }

  // DELETE FROM tags ...: the foreign key cascades to the lookups of every deleted row.
  function DeleteTags(t: Tables, gone: set<nat>): Tables {
    t.(tags := t.tags - gone, lookups := map l | l in t.lookups && t.lookups[l].tag !in gone :: t.lookups[l])
  }

  function DeleteOne(t: Tables, id: nat, guild: nat): Tables {
    var t1 := DeleteLookups(t, id, guild);
    if id in t1.tags && t1.tags[id].guild == guild then DeleteTags(t1, {id}) else t1
  }

  function OwnedBy(t: Tables, guild: nat, owner: nat): set<nat> {
    set id | id in t.tags && t.tags[id].guild == guild && t.tags[id].owner == owner
  }

  function InsertTag(t: Tables, guild: nat, name: string, content: string, owner: nat): Tables {
    Tables(t.tags[t.nextTag := Tag(name, content, owner, 0, guild)],
           t.lookups[t.nextLookup := Lookup(name, owner, guild, t.nextTag)], t.nextTag + 1, t.nextLookup + 1)
  }

  function InsertLookup(t: Tables, guild: nat, name: string, owner: nat, id: nat): Tables {
    t.(lookups := t.lookups[t.nextLookup := Lookup(name, owner, guild, id)], nextLookup := t.nextLookup + 1)
  }

  // ---- The operations: new tables, and the ok flag the service reports ----

  // INSERT into both tables; a unique index on (lower(name), guild) of either one refuses it.
  ghost function CreateTag(t: Tables, guild: nat, name: string, content: string, owner: nat): (Tables, bool) {
    if NameTaken(t, guild, name) then (t, false) else (InsertTag(t, guild, name, content, owner), true)
  }

  // INSERT ... SELECT: an unknown old name inserts no row and is still reported ok.
  ghost function CreateAlias(t: Tables, guild: nat, newName: string, name: string, owner: nat): (Tables, bool) {
    match Resolve(t, guild, name)
    case None => (t, true)
    case Some(id) =>
      if exists l :: Named(t, l, guild, newName) then (t, false) else (InsertLookup(t, guild, newName, owner, id), true)
  }

  ghost function EditTag(t: Tables, guild: nat, name: string, content: string, owner: nat): (Tables, bool) {
    match Resolve(t, guild, name)
    case None => (t, true)
    case Some(id) =>
      if id in t.tags && t.tags[id].owner == owner
      then (t.(tags := t.tags[id := t.tags[id].(content := content)]), true) else (t, true)
  }

  ghost function RemoveByName(t: Tables, guild: nat, name: string): (Tables, bool) {
    match Resolve(t, guild, name)
    case None => (t, false)
    case Some(id) => (DeleteOne(t, id, guild), id in t.tags && t.tags[id].guild == guild)
  }

  ghost function Increment(t: Tables, guild: nat, name: string): (Tables, bool) {
    match Resolve(t, guild, name)
    case None => (t, true)
    case Some(id) =>
      if id in t.tags then (t.(tags := t.tags[id := t.tags[id].(uses := t.tags[id].uses + 1)]), true) else (t, true)
  }

  function Reown(t: Tables, id: nat, guild: nat, owner: nat): Tables {
    SetLookupOwners(SetTagOwner(t, id, owner), id, guild, owner)
  }

  ghost function TransferTag(t: Tables, guild: nat, name: string, newOwner: nat, requester: nat): (Tables, bool) {
    match Resolve(t, guild, name)
    case None => (t, false)
    case Some(id) =>
      if id in t.tags && t.tags[id].owner == requester then (Reown(t, id, guild, newOwner), true) else (t, false)
  }

  ghost function ClaimTag(t: Tables, guild: nat, name: string, requester: nat): (Tables, bool) {
    match Resolve(t, guild, name)
    case None => (t, false)
    case Some(id) => (Reown(t, id, guild, requester), true)
  }

  ghost function Execute(t: Tables, op: Op): (Tables, bool) {
    match op
    case Create(guild, name, content, owner) => CreateTag(t, guild, name, content, owner)
    case Alias(guild, newName, name, owner) => CreateAlias(t, guild, newName, name, owner)
    case Edit(guild, name, content, owner) => EditTag(t, guild, name, content, owner)
    case Remove(guild, name) => RemoveByName(t, guild, name)
    case RemoveById(guild, id) => (DeleteOne(t, id, guild), true)
    case IncrementUsage(guild, name) => Increment(t, guild, name)
    case Transfer(guild, name, newOwner, requester) => TransferTag(t, guild, name, newOwner, requester)
    case Purge(guild, owner) => (DeleteTags(t, OwnedBy(t, guild, owner)), true)
    case Claim(guild, name, requester) => ClaimTag(t, guild, name, requester)
  }

  // ---- The invariant ----

  ghost predicate LookupsPoint(t: Tables) {
    forall l :: l in t.lookups ==> t.lookups[l].tag in t.tags && t.tags[t.lookups[l].tag].guild == t.lookups[l].guild
  }

  predicate SameName(k: Lookup, l: Lookup) {
    k.guild == l.guild && Lower(k.name) == Lower(l.name)
  }

  ghost predicate NamesUnique(t: Tables) {
    forall k, l :: k in t.lookups && l in t.lookups && SameName(t.lookups[k], t.lookups[l]) ==> k == l
  }

  // Every tag can still be found under its own name.
  ghost predicate OwnNameKept(t: Tables) {
    forall id :: id in t.tags ==> Resolves(t, t.tags[id].guild, t.tags[id].name, id)
  }

  ghost predicate IdsFresh(t: Tables) {
    (forall id :: id in t.tags ==> id < t.nextTag) && forall l :: l in t.lookups ==> l < t.nextLookup
  }

  ghost predicate Inv(t: Tables) {
    LookupsPoint(t) && NamesUnique(t) && OwnNameKept(t) && IdsFresh(t)
  }

  lemma ResolveIsUnique(t: Tables, guild: nat, name: string)
    requires LookupsPoint(t) && NamesUnique(t)
    ensures forall id: nat :: Resolves(t, guild, name, id) <==> Resolve(t, guild, name) == Some(id)
    ensures match Resolve(t, guild, name) case None => true case Some(id) => id in t.tags && t.tags[id].guild == guild
  {
  }

  // Same names in the same places: owners, contents and counters do not matter to Inv.
  ghost predicate SameShape(t: Tables, t': Tables) {
    && t'.tags.Keys == t.tags.Keys && t'.lookups.Keys == t.lookups.Keys
    && t'.nextTag == t.nextTag && t'.nextLookup == t.nextLookup
    && (forall id :: id in t.tags ==> t'.tags[id].name == t.tags[id].name && t'.tags[id].guild == t.tags[id].guild)
    && forall l :: l in t.lookups ==> t'.lookups[l] == t.lookups[l].(owner := t'.lookups[l].owner)
  }

  lemma ShapeKeeps(t: Tables, t': Tables)
    requires Inv(t) && SameShape(t, t')
    ensures Inv(t')
  {
    forall id | id in t'.tags ensures Resolves(t', t'.tags[id].guild, t'.tags[id].name, id) {
      var l :| Named(t, l, t.tags[id].guild, t.tags[id].name) && t.lookups[l].tag == id;
      assert Named(t', l, t'.tags[id].guild, t'.tags[id].name);
    }
  }

  // New rows do not take a tag's own name away from it.
  lemma OwnNamesStay(t: Tables, t': Tables)
    requires OwnNameKept(t)
    requires forall l :: l in t.lookups ==> l in t'.lookups && t'.lookups[l] == t.lookups[l]
    requires forall id :: id in t'.tags ==>
               (id in t.tags && t'.tags[id] == t.tags[id]) || Resolves(t', t'.tags[id].guild, t'.tags[id].name, id)
    ensures OwnNameKept(t')
  {
    forall id | id in t'.tags ensures Resolves(t', t'.tags[id].guild, t'.tags[id].name, id) {
      if id in t.tags && t'.tags[id] == t.tags[id] {
        var l :| Named(t, l, t.tags[id].guild, t.tags[id].name) && t.lookups[l].tag == id;
        assert Named(t', l, t.tags[id].guild, t.tags[id].name);
      }
    }
  }

  lemma InsertTagPoints(t: Tables, guild: nat, name: string, content: string, owner: nat)
    requires LookupsPoint(t) && IdsFresh(t)
    ensures LookupsPoint(InsertTag(t, guild, name, content, owner)) && IdsFresh(InsertTag(t, guild, name, content, owner))
  {
  }

  lemma InsertTagNames(t: Tables, guild: nat, name: string, content: string, owner: nat)
    requires OwnNameKept(t) && IdsFresh(t)
    ensures OwnNameKept(InsertTag(t, guild, name, content, owner))
  {
    var t' := InsertTag(t, guild, name, content, owner);
    assert Named(t', t.nextLookup, guild, name);
    assert Resolves(t', guild, name, t.nextTag);
    OwnNamesStay(t, t');
  }

  lemma InsertTagKeeps(t: Tables, guild: nat, name: string, content: string, owner: nat)
    requires Inv(t) && !NameTaken(t, guild, name)
    ensures Inv(InsertTag(t, guild, name, content, owner))
  {
    InsertTagPoints(t, guild, name, content, owner);
    InsertTagNames(t, guild, name, content, owner);
    InsertKeepsUnique(t, InsertTag(t, guild, name, content, owner), guild, name);
  }

  lemma InsertKeepsUnique(t: Tables, t': Tables, guild: nat, name: string)
    requires NamesUnique(t) && IdsFresh(t) && !exists l :: Named(t, l, guild, name)
    requires t.nextLookup in t'.lookups && t'.lookups == t.lookups[t.nextLookup := t'.lookups[t.nextLookup]]
    requires t'.lookups[t.nextLookup].name == name && t'.lookups[t.nextLookup].guild == guild
    ensures NamesUnique(t')
  {
    forall k, l | k in t'.lookups && l in t'.lookups && SameName(t'.lookups[k], t'.lookups[l])
      ensures k == l
    {
      assert k != t.nextLookup && l == t.nextLookup ==> Named(t, k, guild, name);
      assert l != t.nextLookup && k == t.nextLookup ==> Named(t, l, guild, name);
    }
  }

  lemma InsertLookupKeeps(t: Tables, guild: nat, name: string, owner: nat, id: nat)
    requires Inv(t) && !(exists l :: Named(t, l, guild, name)) && id in t.tags && t.tags[id].guild == guild
    ensures Inv(InsertLookup(t, guild, name, owner, id))
  {
    var t' := InsertLookup(t, guild, name, owner, id);
    OwnNamesStay(t, t');
    InsertKeepsUnique(t, t', guild, name);
  }

  lemma DeleteTagsKeeps(t: Tables, gone: set<nat>)
    requires Inv(t)
    ensures Inv(DeleteTags(t, gone))
  {
    var t' := DeleteTags(t, gone);
    forall id | id in t'.tags ensures Resolves(t', t'.tags[id].guild, t'.tags[id].name, id) {
      var l :| Named(t, l, t.tags[id].guild, t.tags[id].name) && t.lookups[l].tag == id;
      assert Named(t', l, t.tags[id].guild, t.tags[id].name);
    }
  }

  // Deleting by id touches nothing outside the tag's own guild, and there removes it whole.
  lemma DeleteOneIs(t: Tables, id: nat, guild: nat)
    requires LookupsPoint(t)
    ensures DeleteOne(t, id, guild) == if id in t.tags && t.tags[id].guild == guild then DeleteTags(t, {id}) else t
  {
    var t' := DeleteOne(t, id, guild);
    if id in t.tags && t.tags[id].guild == guild {
      assert t'.lookups == DeleteTags(t, {id}).lookups;
    } else {
      assert t'.lookups == t.lookups;
    }
  }

  lemma EditKeepsShape(t: Tables, guild: nat, name: string, content: string, owner: nat)
    ensures SameShape(t, EditTag(t, guild, name, content, owner).0)
  {
  }

  lemma IncrementKeepsShape(t: Tables, guild: nat, name: string)
    ensures SameShape(t, Increment(t, guild, name).0)
  {
  }

  lemma ReownKeepsShape(t: Tables, id: nat, guild: nat, owner: nat)
    ensures SameShape(t, Reown(t, id, guild, owner))
  {
  }

  lemma CreateAliasKeeps(t: Tables, guild: nat, newName: string, name: string, owner: nat)
    requires Inv(t)
    ensures Inv(CreateAlias(t, guild, newName, name, owner).0)
  {
    ResolveIsUnique(t, guild, name);
    var id := Resolve(t, guild, name);
    if id.Some? && !exists l :: Named(t, l, guild, newName) {
      InsertLookupKeeps(t, guild, newName, owner, id.value);
    }
  }

  lemma DeleteOneKeeps(t: Tables, id: nat, guild: nat)
    requires Inv(t)
    ensures Inv(DeleteOne(t, id, guild))
  {
    DeleteOneIs(t, id, guild);
    DeleteTagsKeeps(t, {id});
  }

  lemma ShapeOpKeeps(t: Tables, op: Op)
    requires op.Edit? || op.IncrementUsage? || op.Transfer? || op.Claim?
    ensures SameShape(t, Execute(t, op).0)
  {
    match op
    case Edit(guild, name, content, owner) => EditKeepsShape(t, guild, name, content, owner);
    case IncrementUsage(guild, name) => IncrementKeepsShape(t, guild, name);
    case Transfer(guild, name, newOwner, requester) =>
      var id := Resolve(t, guild, name);
      if id.Some? {
        ReownKeepsShape(t, id.value, guild, newOwner);
      }
    case Claim(guild, name, requester) =>
      var id := Resolve(t, guild, name);
      if id.Some? {
        ReownKeepsShape(t, id.value, guild, requester);
      }
  }

  // Every operation keeps the tables sound: each name points to a tag of its own guild, no name
  // is taken twice there, and every tag can be found under its own name.
  lemma ExecuteKeeps(t: Tables, op: Op)
    requires Inv(t)
    ensures Inv(Execute(t, op).0)
  {
    match op
    case Create(guild, name, content, owner) =>
      if !NameTaken(t, guild, name) {
        InsertTagKeeps(t, guild, name, content, owner);
      }
    case Alias(guild, newName, name, owner) => CreateAliasKeeps(t, guild, newName, name, owner);
    case Remove(guild, name) =>
      var id := Resolve(t, guild, name);
      if id.Some? {
        DeleteOneKeeps(t, id.value, guild);
      }
    case RemoveById(guild, id) => DeleteOneKeeps(t, id, guild);
    case Purge(guild, owner) => DeleteTagsKeeps(t, OwnedBy(t, guild, owner));
    case _ =>
      ShapeOpKeeps(t, op);
      ShapeKeeps(t, Execute(t, op).0);
  }

  // ---- What each operation guarantees ----

  // A failed operation leaves both tables as they were.
  lemma FailureChangesNothing(t: Tables, op: Op)
    requires Inv(t) && !Execute(t, op).1
    ensures Execute(t, op).0 == t
  {
    if op.Remove? {
      ResolveIsUnique(t, op.guild, op.name);
    }
  }

  ghost predicate WithoutTag(t: Tables, t': Tables, id: nat) {
    t'.tags == t.tags - {id} && t'.lookups == map l | l in t.lookups && t.lookups[l].tag != id :: t.lookups[l]
  }

  lemma DeletedWhole(t: Tables, id: nat)
    ensures WithoutTag(t, DeleteTags(t, {id}), id)
  {
  }

  // Removal succeeds exactly for a known name, by any alias, and takes the tag and all its
  // names and nothing else.
  lemma RemovalIsComplete(t: Tables, guild: nat, name: string)
    requires Inv(t)
    ensures Execute(t, Remove(guild, name)).1 <==> Resolve(t, guild, name).Some?
    ensures forall id: nat :: Resolves(t, guild, name, id) ==> WithoutTag(t, Execute(t, Remove(guild, name)).0, id)
  {
    ResolveIsUnique(t, guild, name);
    var id := Resolve(t, guild, name);
    if id.Some? {
      DeleteOneIs(t, id.value, guild);
      DeletedWhole(t, id.value);
    }
  }

  // A purge takes exactly the tags that owner holds in that guild, with exactly their names.
  lemma PurgeIsComplete(t: Tables, guild: nat, owner: nat)
    requires Inv(t)
    ensures var t' := Execute(t, Purge(guild, owner)).0;
            && (forall id :: id in t'.tags <==> id in t.tags && !(t.tags[id].guild == guild && t.tags[id].owner == owner))
            && (forall id :: id in t'.tags ==> t'.tags[id] == t.tags[id])
            && (forall l :: l in t'.lookups <==> l in t.lookups && t.lookups[l].tag in t'.tags)
            && (forall l :: l in t'.lookups ==> t'.lookups[l] == t.lookups[l])
  {
    assert forall l :: l in t.lookups ==> t.lookups[l].tag in t.tags;
  }

  ghost predicate OwnedThroughout(t: Tables, id: nat, owner: nat) {
    id in t.tags && t.tags[id].owner == owner
    && forall l :: l in t.lookups && t.lookups[l].tag == id ==> t.lookups[l].owner == owner
  }

  // A successful claim or transfer gives the tag and every one of its names one owner, and
  // leaves other tags' owners alone.
  lemma OwnershipMovesWhole(t: Tables, op: Op, id: nat)
    requires Inv(t) && (op.Claim? || op.Transfer?) && Execute(t, op).1 && Resolves(t, op.guild, op.name, id)
    ensures OwnedThroughout(Execute(t, op).0, id, if op.Claim? then op.requester else op.newOwner)
    ensures op.Transfer? ==> t.tags[id].owner == op.requester
    ensures forall x :: x in t.tags && x != id ==> x in Execute(t, op).0.tags && Execute(t, op).0.tags[x] == t.tags[x]
    ensures forall l :: l in t.lookups && t.lookups[l].tag != id ==>
              l in Execute(t, op).0.lookups && Execute(t, op).0.lookups[l] == t.lookups[l]
  {
    ResolveIsUnique(t, op.guild, op.name);
  }

  // Some lookup of the guild carries the name, in any case.
  ghost predicate NameKnown(t: Tables, guild: nat, name: string) {
    exists l :: l in t.lookups && t.lookups[l].guild == guild && Lower(t.lookups[l].name) == Lower(name)
  }

  lemma KnownIff(t: Tables, guild: nat, name: string)
    requires Inv(t)
    ensures NameKnown(t, guild, name) <==> Resolve(t, guild, name).Some?
    ensures NameTaken(t, guild, name) <==> NameKnown(t, guild, name)
  {
    if l :| l in t.lookups && t.lookups[l].guild == guild && Lower(t.lookups[l].name) == Lower(name) {
      assert Named(t, l, guild, name);
    }
    if id :| id in t.tags && Lower(t.tags[id].name) == Lower(name) && t.tags[id].guild == guild {
      var l :| Named(t, l, guild, t.tags[id].name) && t.lookups[l].tag == id;
      assert Named(t, l, guild, name);
    }
  }

  ghost predicate OwnsNamed(t: Tables, guild: nat, name: string, owner: nat) {
    exists id :: id in t.tags && Resolves(t, guild, name, id) && t.tags[id].owner == owner
  }

  // When each operation is reported ok.
  lemma SuccessIff(t: Tables, op: Op)
    requires Inv(t)
    ensures Execute(t, op).1 <==>
              match op
              case Create(guild, name, _, _) => !NameKnown(t, guild, name)
              case Alias(guild, newName, name, _) => !NameKnown(t, guild, name) || !NameKnown(t, guild, newName)
              case Remove(guild, name) => NameKnown(t, guild, name)
              case Claim(guild, name, _) => NameKnown(t, guild, name)
              case Transfer(guild, name, _, requester) => OwnsNamed(t, guild, name, requester)
              case _ => true
  {
    match op
    case Create(guild, name, _, _) => KnownIff(t, guild, name);
    case Alias(guild, newName, name, owner) => AliasIff(t, guild, newName, name, owner);
    case Remove(guild, name) => RemoveIff(t, guild, name);
    case Claim(guild, name, _) => KnownIff(t, guild, name);
    case Transfer(guild, name, _, requester) => TransferIff(t, guild, name, requester);
    case _ =>
  }

  lemma AliasIff(t: Tables, guild: nat, newName: string, name: string, owner: nat)
    requires Inv(t)
    ensures CreateAlias(t, guild, newName, name, owner).1 <==> !NameKnown(t, guild, name) || !NameKnown(t, guild, newName)
  {
    KnownIff(t, guild, name);
    KnownIsNamed(t, guild, newName);
  }

  lemma RemoveIff(t: Tables, guild: nat, name: string)
    requires Inv(t)
    ensures RemoveByName(t, guild, name).1 <==> NameKnown(t, guild, name)
  {
    KnownIff(t, guild, name);
    ResolveIsUnique(t, guild, name);
  }

  lemma KnownIsNamed(t: Tables, guild: nat, name: string)
    ensures NameKnown(t, guild, name) <==> exists l :: Named(t, l, guild, name)
  {
    if l :| l in t.lookups && t.lookups[l].guild == guild && Lower(t.lookups[l].name) == Lower(name) {
      assert Named(t, l, guild, name);
    }
  }

  lemma TransferIff(t: Tables, guild: nat, name: string, requester: nat)
    requires Inv(t)
    ensures OwnsNamed(t, guild, name, requester)
            <==> var found := Resolve(t, guild, name); found.Some? && found.value in t.tags && t.tags[found.value].owner == requester
  {
    ResolveIsUnique(t, guild, name);
    var found := Resolve(t, guild, name);
    if found.Some? {
      assert Resolves(t, guild, name, found.value);
    }
  }

  // An edit changes the content of the tag the name stands for, if its owner asks, and nothing
  // else; an increment changes its counter by one and nothing else.
  lemma UpdatesTouchOneColumn(t: Tables, op: Op)
    requires Inv(t) && (op.Edit? || op.IncrementUsage?)
    ensures var t' := Execute(t, op).0;
            && t' == t.(tags := t'.tags) && t'.tags.Keys == t.tags.Keys
            && forall id: nat :: id in t.tags ==>
                 t'.tags[id] == if !Resolves(t, op.guild, op.name, id) then t.tags[id]
                                else if op.IncrementUsage? then t.tags[id].(uses := t.tags[id].uses + 1)
                                else if t.tags[id].owner == op.owner then t.tags[id].(content := op.content)
                                else t.tags[id]
  {
    ResolveIsUnique(t, op.guild, op.name);
  }

  // Removal by id takes the tag with all its names if it belongs to the guild, and nothing otherwise.
  lemma RemovalByIdIs(t: Tables, guild: nat, id: nat)
    requires Inv(t)
    ensures var t' := Execute(t, RemoveById(guild, id)).0;
            if id in t.tags && t.tags[id].guild == guild then WithoutTag(t, t', id) && t' == t.(tags := t'.tags, lookups := t'.lookups)
            else t' == t
  {
    DeleteOneIs(t, id, guild);
    DeletedWhole(t, id);
  }

  // Create and alias make the new name stand for exactly the tag they promise.
  lemma NewNamesResolve(t: Tables, op: Op)
    requires Inv(t) && (op.Create? || op.Alias?) && Execute(t, op).1
    ensures op.Create? ==> Resolve(Execute(t, op).0, op.guild, op.name) == Some(t.nextTag)
                           && Execute(t, op).0.tags[t.nextTag] == Tag(op.name, op.content, op.owner, 0, op.guild)
    ensures op.Create? ==> Execute(t, op).0.lookups == t.lookups[t.nextLookup := Lookup(op.name, op.owner, op.guild, t.nextTag)]
    ensures op.Alias? && Resolve(t, op.guild, op.name).Some? ==>
              Resolve(Execute(t, op).0, op.guild, op.newName) == Resolve(t, op.guild, op.name)
              && Execute(t, op).0.lookups
                 == t.lookups[t.nextLookup := Lookup(op.newName, op.owner, op.guild, Resolve(t, op.guild, op.name).value)]
    ensures op.Alias? ==> Execute(t, op).0.tags == t.tags
  {
    var t' := Execute(t, op).0;
    ExecuteKeeps(t, op);
    if op.Create? {
      assert Named(t', t.nextLookup, op.guild, op.name);
      ResolveIsUnique(t', op.guild, op.name);
      assert Resolves(t', op.guild, op.name, t.nextTag);
    } else {
      var id := Resolve(t, op.guild, op.name);
      if id.Some? {
        assert Named(t', t.nextLookup, op.guild, op.newName);
        ResolveIsUnique(t', op.guild, op.newName);
        assert Resolves(t', op.guild, op.newName, id.value);
      }
    }
  }

  // What a guild other than g sees of the tables.
  ghost predicate SameOutside(t: Tables, t': Tables, g: nat) {
    && (forall id :: id in t.tags && t.tags[id].guild != g ==> id in t'.tags && t'.tags[id] == t.tags[id])
    && (forall id :: id in t'.tags && t'.tags[id].guild != g ==> id in t.tags)
    && (forall l :: l in t.lookups && t.lookups[l].guild != g ==> l in t'.lookups && t'.lookups[l] == t.lookups[l])
    && forall l :: l in t'.lookups && t'.lookups[l].guild != g ==> l in t.lookups
  }

  lemma ReownStaysInGuild(t: Tables, id: nat, guild: nat, owner: nat)
    requires LookupsPoint(t) && id in t.tags && t.tags[id].guild == guild
    ensures SameOutside(t, Reown(t, id, guild, owner), guild)
  {
  }

  lemma DeleteStaysInGuild(t: Tables, guild: nat, gone: set<nat>)
    requires LookupsPoint(t) && forall id :: id in gone && id in t.tags ==> t.tags[id].guild == guild
    ensures SameOutside(t, DeleteTags(t, gone), guild)
  {
  }

  lemma InsertStaysInGuild(t: Tables, guild: nat, name: string, content: string, owner: nat, id: nat)
    requires IdsFresh(t)
    ensures SameOutside(t, InsertTag(t, guild, name, content, owner), guild)
    ensures SameOutside(t, InsertLookup(t, guild, name, owner, id), guild)
  {
  }

  lemma UpdateStaysInGuild(t: Tables, op: Op)
    requires LookupsPoint(t) && NamesUnique(t) && (op.Edit? || op.IncrementUsage?)
    ensures SameOutside(t, Execute(t, op).0, op.guild)
  {
    ResolveIsUnique(t, op.guild, op.name);
  }

  lemma RemoveStaysInGuild(t: Tables, guild: nat, name: string)
    requires LookupsPoint(t) && NamesUnique(t)
    ensures SameOutside(t, RemoveByName(t, guild, name).0, guild)
  {
    ResolveIsUnique(t, guild, name);
    var id := Resolve(t, guild, name);
    if id.Some? {
      DeleteOneIs(t, id.value, guild);
      DeleteStaysInGuild(t, guild, {id.value});
    }
  }

  lemma NamedReownStaysInGuild(t: Tables, guild: nat, name: string, owner: nat)
    requires LookupsPoint(t) && NamesUnique(t) && Resolve(t, guild, name).Some?
    ensures SameOutside(t, Reown(t, Resolve(t, guild, name).value, guild, owner), guild)
  {
    ResolveIsUnique(t, guild, name);
    ReownStaysInGuild(t, Resolve(t, guild, name).value, guild, owner);
  }

  lemma CreateStaysInGuild(t: Tables, op: Op)
    requires IdsFresh(t) && (op.Create? || op.Alias?)
    ensures SameOutside(t, Execute(t, op).0, op.guild)
  {
    if op.Create? {
      InsertStaysInGuild(t, op.guild, op.name, op.content, op.owner, 0);
    } else if Resolve(t, op.guild, op.name).Some? {
      InsertStaysInGuild(t, op.guild, op.newName, "", op.owner, Resolve(t, op.guild, op.name).value);
    }
  }

  lemma DeleteOneStaysInGuild(t: Tables, id: nat, guild: nat)
    requires LookupsPoint(t)
    ensures SameOutside(t, DeleteOne(t, id, guild), guild)
  {
    DeleteOneIs(t, id, guild);
    if id in t.tags && t.tags[id].guild == guild {
      DeleteStaysInGuild(t, guild, {id});
    }
  }

  // No operation of one guild can touch another guild's tags or names, although the UPDATEs of
  // claim and transfer, the cascade and the usage counter select by tag id alone.
  lemma GuildsAreSeparate(t: Tables, op: Op)
    requires Inv(t)
    ensures SameOutside(t, Execute(t, op).0, op.guild)
  {
    var t' := Execute(t, op).0;
    assert SameOutside(t, t', op.guild) by {
      match op
      case Create(_, _, _, _) => CreateStaysInGuild(t, op);
      case Alias(_, _, _, _) => CreateStaysInGuild(t, op);
      case RemoveById(guild, id) => DeleteOneStaysInGuild(t, id, guild);
      case Purge(guild, owner) => DeleteStaysInGuild(t, guild, OwnedBy(t, guild, owner));
      case Edit(_, _, _, _) => UpdateStaysInGuild(t, op);
      case IncrementUsage(_, _) => UpdateStaysInGuild(t, op);
      case Remove(guild, name) => RemoveStaysInGuild(t, guild, name);
      case Transfer(guild, name, newOwner, _) =>
        if Resolve(t, guild, name).Some? {
          NamedReownStaysInGuild(t, guild, name, newOwner);
        }
      case Claim(guild, name, requester) =>
        if Resolve(t, guild, name).Some? {
          NamedReownStaysInGuild(t, guild, name, requester);
        }
    }
  }

  // ---- Batches ----

  ghost function MutateAll(t: Tables, ops: seq<Op>): Tables
    decreases ops
  {
    if ops == [] then t else MutateAll(Execute(t, ops[0]).0, ops[1..])
  }

  lemma {:induction false} BatchesKeep(t: Tables, ops: seq<Op>)
    requires Inv(t)
    ensures Inv(MutateAll(t, ops))
    decreases ops
  {
    if ops != [] {
      ExecuteKeeps(t, ops[0]);
      BatchesKeep(Execute(t, ops[0]).0, ops[1..]);
    }
  }

  // Increments that found the tag through any of its names.
  ghost predicate Hits(t: Tables, op: Op, id: nat) {
    op.IncrementUsage? && Resolves(t, op.guild, op.name, id)
  }

  ghost function HitCount(t: Tables, ops: seq<Op>, id: nat): nat
    decreases ops
  {
    if ops == [] then 0
    else (if Hits(t, ops[0], id) then 1 else 0) + HitCount(Execute(t, ops[0]).0, ops[1..], id)
  }

  ghost function UsesOf(t: Tables, id: nat): nat { if id in t.tags then t.tags[id].uses else 0 }

  // What an operation may do to the counters: only an increment that finds the tag moves one.
  ghost predicate UsesMoved(t: Tables, t': Tables, hit: Option<nat>) {
    && t.nextTag <= t'.nextTag
    && (forall id :: id in t'.tags ==>
          t'.tags[id].uses == UsesOf(t, id) + if hit == Some(id) then 1 else 0)
    && forall id :: id in t'.tags ==> id in t.tags || id >= t.nextTag
  }

  ghost function Hit(t: Tables, op: Op): Option<nat> {
    if op.IncrementUsage? then Resolve(t, op.guild, op.name) else None
  }

  lemma IncrementMoves(t: Tables, guild: nat, name: string)
    requires Inv(t)
    ensures UsesMoved(t, Increment(t, guild, name).0, Resolve(t, guild, name))
  {
    ResolveIsUnique(t, guild, name);
  }

  lemma EditMovesNoUses(t: Tables, guild: nat, name: string, content: string, owner: nat)
    ensures UsesMoved(t, EditTag(t, guild, name, content, owner).0, None)
  {
  }

  lemma ReownMovesNoUses(t: Tables, id: nat, guild: nat, owner: nat)
    ensures UsesMoved(t, Reown(t, id, guild, owner), None)
  {
  }

  lemma CreateMovesNoUses(t: Tables, guild: nat, name: string, content: string, owner: nat)
    requires IdsFresh(t)
    ensures UsesMoved(t, CreateTag(t, guild, name, content, owner).0, None)
  {
  }

  lemma DeleteMovesNoUses(t: Tables, id: nat, guild: nat, gone: set<nat>)
    ensures UsesMoved(t, DeleteOne(t, id, guild), None)
    ensures UsesMoved(t, DeleteTags(t, gone), None)
  {
  }

  lemma AliasMovesNoUses(t: Tables, guild: nat, newName: string, name: string, owner: nat)
    ensures UsesMoved(t, CreateAlias(t, guild, newName, name, owner).0, None)
  {
  }

  lemma RemoveMovesNoUses(t: Tables, guild: nat, name: string)
    ensures UsesMoved(t, RemoveByName(t, guild, name).0, None)
  {
    var id := Resolve(t, guild, name);
    if id.Some? {
      DeleteMovesNoUses(t, id.value, guild, {});
    }
  }

  lemma TransferMovesNoUses(t: Tables, guild: nat, name: string, newOwner: nat, requester: nat)
    ensures UsesMoved(t, TransferTag(t, guild, name, newOwner, requester).0, None)
  {
    var id := Resolve(t, guild, name);
    if id.Some? {
      ReownMovesNoUses(t, id.value, guild, newOwner);
    }
  }

  lemma ClaimMovesNoUses(t: Tables, guild: nat, name: string, requester: nat)
    ensures UsesMoved(t, ClaimTag(t, guild, name, requester).0, None)
  {
    var id := Resolve(t, guild, name);
    if id.Some? {
      ReownMovesNoUses(t, id.value, guild, requester);
    }
  }

  lemma UsesStep(t: Tables, op: Op)
    requires Inv(t)
    ensures UsesMoved(t, Execute(t, op).0, Hit(t, op))
  {
    var t' := Execute(t, op).0;
    assert UsesMoved(t, t', Hit(t, op)) by {
      match op
      case Create(guild, name, content, owner) => CreateMovesNoUses(t, guild, name, content, owner);
      case Alias(guild, newName, name, owner) => AliasMovesNoUses(t, guild, newName, name, owner);
      case Edit(guild, name, content, owner) => EditMovesNoUses(t, guild, name, content, owner);
      case Remove(guild, name) => RemoveMovesNoUses(t, guild, name);
      case RemoveById(guild, id) => DeleteMovesNoUses(t, id, guild, {});
      case IncrementUsage(guild, name) => IncrementMoves(t, guild, name);
      case Transfer(guild, name, newOwner, requester) => TransferMovesNoUses(t, guild, name, newOwner, requester);
      case Purge(guild, owner) => DeleteMovesNoUses(t, 0, guild, OwnedBy(t, guild, owner));
      case Claim(guild, name, requester) => ClaimMovesNoUses(t, guild, name, requester);
    }
  }

  // Over any batch, a tag's uses are exactly the increments that resolved to it since it was
  // created.
  lemma {:induction false} UsesCountHits(t: Tables, ops: seq<Op>, id: nat)
    requires Inv(t) && id in MutateAll(t, ops).tags
    ensures id in t.tags || id >= t.nextTag
    ensures MutateAll(t, ops).tags[id].uses == UsesOf(t, id) + HitCount(t, ops, id)
    decreases ops
  {
    if ops != [] {
      var t' := Execute(t, ops[0]).0;
      ExecuteKeeps(t, ops[0]);
      UsesCountHits(t', ops[1..], id);
      UsesStep(t, ops[0]);
      if ops[0].IncrementUsage? {
        ResolveIsUnique(t, ops[0].guild, ops[0].name);
      }
      if id !in t'.tags {
        assert UsesOf(t', id) == 0;
      }
    }
  }

  // From empty tables: the invariant and the exact usage counts, for every run of batches.
  lemma RunFromEmpty(ops: seq<Op>)
    ensures Inv(MutateAll(EMPTY, ops))
    ensures forall id :: id in MutateAll(EMPTY, ops).tags ==> MutateAll(EMPTY, ops).tags[id].uses == HitCount(EMPTY, ops, id)
  {
    BatchesKeep(EMPTY, ops);
    forall id | id in MutateAll(EMPTY, ops).tags
      ensures MutateAll(EMPTY, ops).tags[id].uses == HitCount(EMPTY, ops, id)
    {
      UsesCountHits(EMPTY, ops, id);
    }
  }

  // ---- The repository and the batch loop of the service ----

  ghost function Outcomes(t: Tables, ops: seq<Op>): seq<bool>
    decreases ops
  {
    if ops == [] then [] else [Execute(t, ops[0]).1] + Outcomes(Execute(t, ops[0]).0, ops[1..])
  }

  class TagsRepository {
    var tags: map<nat, Tag>
    var lookups: map<nat, Lookup>
    var nextTag: nat
    var nextLookup: nat

    ghost function Contents(): Tables
      reads this
    {
      Tables(tags, lookups, nextTag, nextLookup)
    }

    constructor ()
      ensures Contents() == EMPTY
    {
      tags, lookups, nextTag, nextLookup := map[], map[], 0, 0;
    }

    method FindTagId(guild: nat, name: string) returns (id: Option<nat>)
      requires LookupsPoint(Contents()) && NamesUnique(Contents())
      ensures id == Resolve(Contents(), guild, name)
    {
      ResolveIsUnique(Contents(), guild, name);
      var todo := lookups.Keys;
      while todo != {}
        invariant todo <= lookups.Keys
        invariant forall l :: l in lookups && Named(Contents(), l, guild, name) ==> l in todo
        decreases |todo|
      {
        var l :| l in todo;
        if lookups[l].guild == guild && Lower(lookups[l].name) == Lower(name) {
          assert Named(Contents(), l, guild, name);
          assert Resolves(Contents(), guild, name, lookups[l].tag);
          return Some(lookups[l].tag);
        }
        todo := todo - {l};
      }
      id := None;
    }

    method TagNameExists(guild: nat, name: string) returns (taken: bool)
      ensures taken <==> exists id :: id in tags && Lower(tags[id].name) == Lower(name) && tags[id].guild == guild
    {
      var todo := tags.Keys;
      while todo != {}
        invariant todo <= tags.Keys
        invariant forall id :: id in tags && Lower(tags[id].name) == Lower(name) && tags[id].guild == guild ==> id in todo
        decreases |todo|
      {
        var id :| id in todo;
        if tags[id].guild == guild && Lower(tags[id].name) == Lower(name) {
          return true;
        }
        todo := todo - {id};
      }
      taken := false;
    }

    method InsertRows(guild: nat, name: string, content: string, owner: nat)
      modifies this
      ensures Contents() == InsertTag(old(Contents()), guild, name, content, owner)
    {
      lookups := lookups[nextLookup := Lookup(name, owner, guild, nextTag)];
      tags := tags[nextTag := Tag(name, content, owner, 0, guild)];
      nextTag, nextLookup := nextTag + 1, nextLookup + 1;
    }

    method Create(guild: nat, name: string, content: string, owner: nat) returns (ok: bool)
      requires LookupsPoint(Contents()) && NamesUnique(Contents())
      modifies this
      ensures (Contents(), ok) == CreateTag(old(Contents()), guild, name, content, owner)
    {
      ResolveIsUnique(Contents(), guild, name);
      var known := FindTagId(guild, name);
      var taken := TagNameExists(guild, name);
      if known.Some? || taken {
        return false;
      }
      InsertRows(guild, name, content, owner);
      ok := true;
    }

    method Alias(guild: nat, newName: string, name: string, owner: nat) returns (ok: bool)
      requires LookupsPoint(Contents()) && NamesUnique(Contents())
      modifies this`lookups, this`nextLookup
      ensures (Contents(), ok) == CreateAlias(old(Contents()), guild, newName, name, owner)
    {
      var id := FindTagId(guild, name);
      if id.None? {
        return true;
      }
      ResolveIsUnique(Contents(), guild, newName);
      var clash := FindTagId(guild, newName);
      if clash.Some? {
        return false;
      }
      lookups := lookups[nextLookup := Lookup(newName, owner, guild, id.value)];
      nextLookup := nextLookup + 1;
      ok := true;
    }

    method Edit(guild: nat, name: string, content: string, owner: nat) returns (ok: bool)
      requires LookupsPoint(Contents()) && NamesUnique(Contents())
      modifies this`tags
      ensures (Contents(), ok) == EditTag(old(Contents()), guild, name, content, owner)
    {
      var id := FindTagId(guild, name);
      if id.Some? && id.value in tags && tags[id.value].owner == owner {
        tags := tags[id.value := tags[id.value].(content := content)];
      }
      ok := true;
    }

    method RemoveById(guild: nat, id: nat) returns (deleted: bool)
      modifies this`tags, this`lookups
      ensures Contents() == DeleteOne(old(Contents()), id, guild)
      ensures deleted == (id in old(tags) && old(tags)[id].guild == guild)
    {
      lookups := map l | l in lookups && !(lookups[l].tag == id && lookups[l].guild == guild) :: lookups[l];
      deleted := id in tags && tags[id].guild == guild;
      if deleted {
        tags := tags - {id};
        lookups := map l | l in lookups && lookups[l].tag !in {id} :: lookups[l];
      }
    }

    method Remove(guild: nat, name: string) returns (ok: bool)
      requires LookupsPoint(Contents()) && NamesUnique(Contents())
      modifies this`tags, this`lookups
      ensures (Contents(), ok) == RemoveByName(old(Contents()), guild, name)
    {
      var id := FindTagId(guild, name);
      if id.None? {
        return false;
      }
      ok := RemoveById(guild, id.value);
    }

    method IncrementUsage(guild: nat, name: string)
      requires LookupsPoint(Contents()) && NamesUnique(Contents())
      modifies this`tags
      ensures Contents() == Increment(old(Contents()), guild, name).0
    {
      var id := FindTagId(guild, name);
      if id.Some? && id.value in tags {
        tags := tags[id.value := tags[id.value].(uses := tags[id.value].uses + 1)];
      }
    }

    method SetOwner(id: nat, guild: nat, owner: nat)
      modifies this`tags, this`lookups
      ensures Contents() == Reown(old(Contents()), id, guild, owner)
    {
      if id in tags {
        tags := tags[id := tags[id].(owner := owner)];
      }
      lookups := map l | l in lookups ::
                   if lookups[l].tag == id && lookups[l].guild == guild then lookups[l].(owner := owner) else lookups[l];
    }

    method Transfer(guild: nat, name: string, newOwner: nat, requester: nat) returns (ok: bool)
      requires LookupsPoint(Contents()) && NamesUnique(Contents())
      modifies this`tags, this`lookups
      ensures (Contents(), ok) == TransferTag(old(Contents()), guild, name, newOwner, requester)
    {
      var id := FindTagId(guild, name);
      if id.None? || id.value !in tags || tags[id.value].owner != requester {
        return false;
      }
      SetOwner(id.value, guild, newOwner);
      ok := true;
    }

    method Claim(guild: nat, name: string, requester: nat) returns (ok: bool)
      requires LookupsPoint(Contents()) && NamesUnique(Contents())
      modifies this`tags, this`lookups
      ensures (Contents(), ok) == ClaimTag(old(Contents()), guild, name, requester)
    {
      var id := FindTagId(guild, name);
      if id.None? {
        return false;
      }
      SetOwner(id.value, guild, requester);
      ok := true;
    }

    method Purge(guild: nat, owner: nat)
      modifies this`tags, this`lookups
      ensures Contents() == DeleteTags(old(Contents()), OwnedBy(old(Contents()), guild, owner))
    {
      var gone := set id | id in tags && tags[id].guild == guild && tags[id].owner == owner;
      tags := tags - gone;
      lookups := map l | l in lookups && lookups[l].tag !in gone :: lookups[l];
    }

    method ExecuteOp(op: Op) returns (ok: bool)
      requires LookupsPoint(Contents()) && NamesUnique(Contents())
      modifies this
      ensures (Contents(), ok) == Execute(old(Contents()), op)
    {
      ok := true;
      match op
      case Create(guild, name, content, owner) => ok := this.Create(guild, name, content, owner);
      case Alias(guild, newName, name, owner) => ok := this.Alias(guild, newName, name, owner);
      case Edit(guild, name, content, owner) => ok := this.Edit(guild, name, content, owner);
      case Remove(guild, name) => ok := this.Remove(guild, name);
      case RemoveById(guild, id) => var _ := this.RemoveById(guild, id);
      case IncrementUsage(guild, name) => this.IncrementUsage(guild, name);
      case Transfer(guild, name, newOwner, requester) => ok := this.Transfer(guild, name, newOwner, requester);
      case Purge(guild, owner) => this.Purge(guild, owner);
      case Claim(guild, name, requester) => ok := this.Claim(guild, name, requester);
    }

    // One result per operation, in order; a failed one does not stop the rest.
    method MutateTags(ops: seq<Op>) returns (results: seq<bool>)
      requires Inv(Contents())
      modifies this
      ensures Inv(Contents())
      ensures Contents() == MutateAll(old(Contents()), ops)
      ensures results == Outcomes(old(Contents()), ops)
    {
      results := [];
      for i := 0 to |ops|
        invariant Inv(Contents())
        invariant MutateAll(Contents(), ops[i..]) == MutateAll(old(Contents()), ops)
        invariant results + Outcomes(Contents(), ops[i..]) == Outcomes(old(Contents()), ops)
      {
        assert ops[i..][1..] == ops[i + 1..];
        ExecuteKeeps(Contents(), ops[i]);
        var ok := ExecuteOp(ops[i]);
        results := results + [ok];
      }
    }
  }
}
