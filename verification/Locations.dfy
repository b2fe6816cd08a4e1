/** The four-level location hierarchy: creating, renaming, moving and deleting places, and
    resolving a chain of column values to it. */
module Locations {
  import opened Results
  import opened Text
  import opened Slug

  datatype Level = County | SubCounty | Ward | Village

  /** `parent` is the id of the place one level up; a county has none and carries 0. */
  datatype Place = Place(name: string, slug: string, parent: nat)

  type Table = map<nat, Place>

  datatype Tree = Tree(counties: Table, subCounties: Table, wards: Table, villages: Table, nextId: nat)

  const EMPTY := Tree(map[], map[], map[], map[], 1)

  function At(tree: Tree, level: Level): Table {
    match level
    case County => tree.counties
    case SubCounty => tree.subCounties
    case Ward => tree.wards
    case Village => tree.villages
  }

  function WithTable(tree: Tree, level: Level, t: Table): Tree {
    match level
    case County => tree.(counties := t)
    case SubCounty => tree.(subCounties := t)
    case Ward => tree.(wards := t)
    case Village => tree.(villages := t)
  }

  function Above(level: Level): Level {
    match level
    case County => County
    case SubCounty => County
    case Ward => SubCounty
    case Village => Ward
  }

  /** The ids a place of this level may have as its parent. */
  function Parents(tree: Tree, level: Level): set<nat> {
    if level == County then {0} else At(tree, Above(level)).Keys
  }

  /** Another place than `self` has this name under this parent. */
  predicate NameTaken(t: Table, parent: nat, name: string, self: nat) {
    exists id :: id in t && id != self && t[id].parent == parent && t[id].name == name
  }

  predicate SlugTaken(t: Table, parent: nat, slug: string, self: nat) {
    exists id :: id in t && id != self && t[id].parent == parent && t[id].slug == slug
  }

  /** The row write: the foreign key to the parent and the unique indexes (parent, name)
      and (parent, slug) must hold of the new row. Counties have the slug index only. */
  function WriteStep(tree: Tree, level: Level, id: nat, row: Place): (Tree, Outcome) {
    var t := At(tree, level);
    if row.parent !in Parents(tree, level) || SlugTaken(t, row.parent, row.slug, id)
       || (level != County && NameTaken(t, row.parent, row.name, id)) then
      (tree, Refused(ConstraintViolated))
    else
      (WithTable(tree, level, t[id := row]), Done)
  }

  function CreateStep(tree: Tree, level: Level, dtoName: string, dtoParent: nat): (Tree, Outcome) {
    var parent := if level == County then 0 else dtoParent;
    var name := NormalizeLocationName(dtoName);
    var slug := Slugify(name);
    var t := At(tree, level);
    if parent !in Parents(tree, level) then (tree, Refused(NotFound))
    else if level != County && NameTaken(t, parent, name, tree.nextId) then (tree, Refused(Conflict))
    else if SlugTaken(t, parent, slug, tree.nextId) then (tree, Refused(Conflict))
    else WriteStep(tree.(nextId := tree.nextId + 1), level, tree.nextId, Place(name, slug, parent))
  }

  function UpdateStep(tree: Tree, level: Level, id: nat, dtoName: Option<string>, dtoParent: Option<nat>): (Tree, Outcome) {
    var t := At(tree, level);
    if id !in t then (tree, Refused(NotFound))
    else
      var current := t[id];
      var parent := if level == County then current.parent else dtoParent.GetOr(current.parent);
      var name := if dtoName.Some? then NormalizeLocationName(dtoName.value) else current.name;
      if level != County && (dtoParent.Some? || dtoName.Some?) && NameTaken(t, parent, name, id) then
        (tree, Refused(Conflict))
      else if dtoName.Some? && SlugTaken(t, parent, Slugify(name), id) then
        (tree, Refused(Conflict))
      else
        WriteStep(tree, level, id, Place(name, if dtoName.Some? then Slugify(name) else current.slug, parent))
  }

  /** The rows that deleting `gone` here and other rows among the parents leaves. */
  function Surviving(t: Table, gone: set<nat>, parents: set<nat>): Table {
    map id | id in t && id !in gone && t[id].parent in parents :: t[id]
  }

  lemma RowsLeft(t: Table, gone: set<nat>, all: set<nat>)
    ensures t - {} == t
    ensures forall parents: set<nat> :: Surviving(t - gone, {}, parents) == Surviving(t, gone, parents)
    ensures (forall id :: id in t ==> t[id].parent in all) ==> Surviving(t, gone, all) == t - gone
  {
  }

  lemma CountiesStay(tree: Tree)
    requires Valid(tree)
    ensures forall id :: id in tree.counties ==> tree.counties[id].parent in {0}
  {
    hide Slugify;
  }

  /** Deleting a place deletes everything below it. */
  function DeleteStep(tree: Tree, level: Level, id: nat): (Tree, Outcome) {
    if id !in At(tree, level) then (tree, Refused(NotFound))
    else
      var counties := Surviving(tree.counties, if level == County then {id} else {}, {0});
      var subCounties := Surviving(tree.subCounties, if level == SubCounty then {id} else {}, counties.Keys);
      var wards := Surviving(tree.wards, if level == Ward then {id} else {}, subCounties.Keys);
      var villages := Surviving(tree.villages, if level == Village then {id} else {}, wards.Keys);
      (Tree(counties, subCounties, wards, villages, tree.nextId), Done)
  }

  // ---------- the invariant of every run ----------

  datatype Event =
    | Create(level: Level, name: string, parent: nat)
    | Update(level: Level, id: nat, newName: Option<string>, newParent: Option<nat>)
    | Delete(level: Level, id: nat)

  function Step(tree: Tree, e: Event): Tree {
    match e
    case Create(level, name, parent) => CreateStep(tree, level, name, parent).0
    case Update(level, id, name, parent) => UpdateStep(tree, level, id, name, parent).0
    case Delete(level, id) => DeleteStep(tree, level, id).0
  }

  function Run(tree: Tree, events: seq<Event>): Tree
    decreases |events|
  {
    if events == [] then tree else Run(Step(tree, events[0]), events[1..])
  }

  predicate Slugged(t: Table) {
    forall id :: id in t ==> t[id].slug == Slugify(t[id].name)
  }

  predicate SlugsUnique(t: Table) {
    forall i, j :: i in t && j in t && i != j && t[i].parent == t[j].parent ==> t[i].slug != t[j].slug
  }

  predicate NamesUnique(t: Table) {
    forall i, j :: i in t && j in t && i != j && t[i].parent == t[j].parent ==> t[i].name != t[j].name
  }

  predicate Attached(t: Table, parents: set<nat>, nextId: nat) {
    forall id :: id in t ==> id < nextId && t[id].parent in parents
  }

  predicate TableOk(t: Table, parents: set<nat>, nextId: nat) {
    Slugged(t) && SlugsUnique(t) && NamesUnique(t) && Attached(t, parents, nextId)
  }

  predicate Valid(tree: Tree) {
    && TableOk(tree.counties, {0}, tree.nextId)
    && TableOk(tree.subCounties, tree.counties.Keys, tree.nextId)
    && TableOk(tree.wards, tree.subCounties.Keys, tree.nextId)
    && TableOk(tree.villages, tree.wards.Keys, tree.nextId)
  }

  lemma PutKeepsOk(t: Table, id: nat, row: Place, parents: set<nat>, nextId: nat)
    requires TableOk(t, parents, nextId)
    requires row.slug == Slugify(row.name) && !SlugTaken(t, row.parent, row.slug, id)
    requires row.parent in parents && id < nextId
    ensures TableOk(t[id := row], parents, nextId)
  {
    hide Slugify;
    var u := t[id := row];
    forall i, j | i in u && j in u && i != j && u[i].parent == u[j].parent
      ensures u[i].slug != u[j].slug && u[i].name != u[j].name
    {
      assert u[i].slug == Slugify(u[i].name) && u[j].slug == Slugify(u[j].name);
    }
  }

  lemma MoreParentsKeepOk(t: Table, parents: set<nat>, more: set<nat>, nextId: nat)
    requires TableOk(t, parents, nextId) && parents <= more
    ensures TableOk(t, more, nextId)
    ensures TableOk(t, parents, nextId + 1)
  {
    hide Slugify;
  }

  lemma SurvivingKeepsOk(t: Table, gone: set<nat>, parents: set<nat>, left: set<nat>, nextId: nat)
    requires TableOk(t, parents, nextId)
    ensures TableOk(Surviving(t, gone, left), left, nextId)
  {
    hide Slugify;
  }

  lemma WriteKeepsValid(tree: Tree, level: Level, id: nat, row: Place)
    requires Valid(tree) && id < tree.nextId && row.slug == Slugify(row.name)
    ensures Valid(WriteStep(tree, level, id, row).0)
  {
    hide Slugify, TableOk, NameTaken, SlugTaken;
    if WriteStep(tree, level, id, row).1.Done? {
      PutKeepsOk(At(tree, level), id, row, Parents(tree, level), tree.nextId);
      var keys := At(tree, level)[id := row].Keys;
      match level
      case County => MoreParentsKeepOk(tree.subCounties, tree.counties.Keys, keys, tree.nextId);
      case SubCounty => MoreParentsKeepOk(tree.wards, tree.subCounties.Keys, keys, tree.nextId);
      case Ward => MoreParentsKeepOk(tree.villages, tree.wards.Keys, keys, tree.nextId);
      case Village =>
    }
  }

  lemma DeleteKeepsValid(tree: Tree, level: Level, id: nat)
    requires Valid(tree)
    ensures Valid(DeleteStep(tree, level, id).0)
  {
    hide TableOk;
    var after := DeleteStep(tree, level, id).0;
    SurvivingKeepsOk(tree.counties, if level == County then {id} else {}, {0}, {0}, tree.nextId);
    SurvivingKeepsOk(tree.subCounties, if level == SubCounty then {id} else {}, tree.counties.Keys, after.counties.Keys, tree.nextId);
    SurvivingKeepsOk(tree.wards, if level == Ward then {id} else {}, tree.subCounties.Keys, after.subCounties.Keys, tree.nextId);
    SurvivingKeepsOk(tree.villages, if level == Village then {id} else {}, tree.wards.Keys, after.wards.Keys, tree.nextId);
  }

  lemma CreateKeepsValid(tree: Tree, level: Level, dtoName: string, dtoParent: nat)
    requires Valid(tree)
    ensures Valid(CreateStep(tree, level, dtoName, dtoParent).0)
  {
    hide Slugify, NormalizeLocationName, TableOk, WriteStep;
    var name := NormalizeLocationName(dtoName);
    MoreParentsKeepOk(tree.counties, {0}, {0}, tree.nextId);
    MoreParentsKeepOk(tree.subCounties, tree.counties.Keys, tree.counties.Keys, tree.nextId);
    MoreParentsKeepOk(tree.wards, tree.subCounties.Keys, tree.subCounties.Keys, tree.nextId);
    MoreParentsKeepOk(tree.villages, tree.wards.Keys, tree.wards.Keys, tree.nextId);
    WriteKeepsValid(tree.(nextId := tree.nextId + 1), level, tree.nextId,
                    Place(name, Slugify(name), if level == County then 0 else dtoParent));
  }

  lemma RowOk(tree: Tree, level: Level, id: nat)
    requires Valid(tree) && id in At(tree, level)
    ensures At(tree, level)[id].slug == Slugify(At(tree, level)[id].name)
    ensures id < tree.nextId && At(tree, level)[id].parent in Parents(tree, level)
  {
    hide Slugify, SlugsUnique, NamesUnique;
  }

  lemma UpdateKeepsValid(tree: Tree, level: Level, id: nat, dtoName: Option<string>, dtoParent: Option<nat>)
    requires Valid(tree)
    ensures Valid(UpdateStep(tree, level, id, dtoName, dtoParent).0)
  {
    hide Slugify, NormalizeLocationName, Valid, WriteStep, NameTaken, SlugTaken;
    if id in At(tree, level) {
      var current := At(tree, level)[id];
      var name := if dtoName.Some? then NormalizeLocationName(dtoName.value) else current.name;
      RowOk(tree, level, id);
      WriteKeepsValid(tree, level, id,
                      Place(name, if dtoName.Some? then Slugify(name) else current.slug,
                            if level == County then current.parent else dtoParent.GetOr(current.parent)));
    }
  }

  lemma StepKeepsValid(tree: Tree, e: Event)
    requires Valid(tree)
    ensures Valid(Step(tree, e))
  {
    hide Valid, CreateStep, UpdateStep, DeleteStep;
    match e
    case Create(level, dtoName, dtoParent) => CreateKeepsValid(tree, level, dtoName, dtoParent);
    case Update(level, id, dtoName, dtoParent) => UpdateKeepsValid(tree, level, id, dtoName, dtoParent);
    case Delete(level, id) => DeleteKeepsValid(tree, level, id);
  }

  /** Over every run: every slug is the slug of its name, names and slugs are unique under each
      parent, and every parent exists. */
  lemma {:induction false} RunKeepsValid(tree: Tree, events: seq<Event>)
    requires Valid(tree)
    ensures Valid(Run(tree, events))
    decreases |events|
  {
    if events != [] {
      StepKeepsValid(tree, events[0]);
      RunKeepsValid(Step(tree, events[0]), events[1..]);
    }
  }

  lemma RowUnique(tree: Tree, level: Level, id: nat)
    requires Valid(tree) && id in At(tree, level)
    ensures var row := At(tree, level)[id];
            !SlugTaken(At(tree, level), row.parent, row.slug, id) && !NameTaken(At(tree, level), row.parent, row.name, id)
  {
    hide Slugify, Slugged, Attached;
  }

  /** The service's own checks leave exactly two writes for the database to refuse: a move under a
      parent that does not exist, and a move without renaming under a parent that already has
      another place of the same slug but not of the same name. */
  lemma IndexRefusesIff(tree: Tree, level: Level, id: nat, dtoName: Option<string>, dtoParent: Option<nat>)
    requires Valid(tree)
    ensures UpdateStep(tree, level, id, dtoName, dtoParent).1 == Refused(ConstraintViolated)
            <==> && id in At(tree, level)
                 && level != County
                 && dtoParent.Some?
                 && var t := At(tree, level);
                    var name := if dtoName.Some? then NormalizeLocationName(dtoName.value) else t[id].name;
                    && !NameTaken(t, dtoParent.value, name, id)
                    && !(dtoName.Some? && SlugTaken(t, dtoParent.value, Slugify(name), id))
                    && (|| dtoParent.value !in At(tree, Above(level))
                        || (dtoName.None? && SlugTaken(t, dtoParent.value, t[id].slug, id)))
  {
    hide Slugify, NormalizeLocationName, Valid;
    var t := At(tree, level);
    if id in t {
      RowOk(tree, level, id);
      RowUnique(tree, level, id);
    }
  }

  /** A new place is never refused by the database once the service's checks pass. */
  lemma CreateNeverReachesIndex(tree: Tree, level: Level, dtoName: string, dtoParent: nat)
    requires Valid(tree)
    ensures CreateStep(tree, level, dtoName, dtoParent).1 != Refused(ConstraintViolated)
  {
    hide Slugify, NormalizeLocationName, Valid;
  }

  lemma ReadThree(s: string, sep: char)
    requires s == ['A', sep, 'B'] || s == ['A', sep, 'b']
    requires sep == ' ' || sep == '-'
    ensures Slugify(s) == "a-b"
  {
    SlugifyIsRead(s);
    hide Slugify;
    assert s[1..] == [sep, s[2]] && s[1..][1..] == [s[2]] && s[1..][1..][1..] == [];
    assert Read(s[1..][1..], true, true) == "-b";
    assert Read(s[1..], true, false) == Read(s[1..][1..], true, true);
  }

  /** The second letter of a three-letter name without spaces at its ends. */
  lemma NormalizedSecond(s: string)
    requires |s| == 3 && !IsSpace(s[0]) && !IsSpace(s[2])
    ensures |NormalizeLocationName(s)| == 3
    ensures LowerChar(NormalizeLocationName(s)[1]) == if IsSpace(s[1]) then ' ' else LowerChar(s[1])
  {
    TrimFixedIff(s);
    NormalizeOnlyChangesCase(s);
    hide NormalizeLocationName, Trim;
    assert s[1..] == [s[1], s[2]] && s[1..][1..] == [s[2]] && s[1..][1..][1..] == [];
    assert Collapse(s[1..][1..], IsSpace, ' ', IsSpace(s[1])) == [s[2]];
    assert Collapse(s[1..], IsSpace, ' ', false) == [if IsSpace(s[1]) then ' ' else s[1]] + [s[2]];
    assert CollapseSpaces(s, ' ') == [s[0]] + Collapse(s[1..], IsSpace, ' ', false);
  }

  /** "A B" and "A-b" are different names with the same slug. */
  lemma DifferentNamesSameSlug()
    ensures NormalizeLocationName("A B") != NormalizeLocationName("A-b")
    ensures Slugify(NormalizeLocationName("A B")) == Slugify(NormalizeLocationName("A-b")) == "a-b"
  {
    hide Slugify, NormalizeLocationName;
    NormalizedSecond("A B");
    NormalizedSecond("A-b");
    NormalizePreservesSlug("A B");
    NormalizePreservesSlug("A-b");
    ReadThree("A B", ' ');
    ReadThree("A-b", '-');
  }

  /** A creation that nothing stands in the way of. */
  lemma Created(tree: Tree, level: Level, dtoName: string, dtoParent: nat)
    requires (if level == County then 0 else dtoParent) in Parents(tree, level)
    requires forall id :: id in At(tree, level) ==>
               id != tree.nextId && (At(tree, level)[id].parent == (if level == County then 0 else dtoParent) ==>
                                       && At(tree, level)[id].slug != Slugify(NormalizeLocationName(dtoName))
                                       && (level != County ==> At(tree, level)[id].name != NormalizeLocationName(dtoName)))
    ensures var name := NormalizeLocationName(dtoName);
            CreateStep(tree, level, dtoName, dtoParent).0
            == WithTable(tree.(nextId := tree.nextId + 1), level,
                         At(tree, level)[tree.nextId := Place(name, Slugify(name), if level == County then 0 else dtoParent)])
  {
    hide Slugify, NormalizeLocationName;
  }

  lemma RunOfFour(tree: Tree, a: Event, b: Event, c: Event, d: Event)
    ensures Run(tree, [a, b, c, d]) == Step(Step(Step(Step(tree, a), b), c), d)
  {
    hide Step;
    assert [a, b, c, d][1..] == [b, c, d] && [b, c, d][1..] == [c, d] && [c, d][1..] == [d] && [d][1..] == [];
    assert Run(Step(Step(tree, a), b), [c, d]) == Run(Step(Step(Step(tree, a), b), c), [d]);
    assert Run(Step(tree, a), [b, c, d]) == Run(Step(Step(tree, a), b), [c, d]);
    assert Run(Step(Step(Step(tree, a), b), c), [d]) == Run(Step(Step(Step(Step(tree, a), b), c), d), []);
  }

  /** Two places of different names and one slug, under two counties: moving one to the other's county passes the
      service's checks and is refused by the unique index. */
  lemma MoveReachesIndex(c: string, d: string, a: string, b: string)
    requires Slugify(NormalizeLocationName(c)) != Slugify(NormalizeLocationName(d))
    requires NormalizeLocationName(a) != NormalizeLocationName(b)
    requires Slugify(NormalizeLocationName(a)) == Slugify(NormalizeLocationName(b))
    ensures var tree := Run(EMPTY, [Create(County, c, 0), Create(County, d, 0), Create(SubCounty, a, 1), Create(SubCounty, b, 2)]);
            UpdateStep(tree, SubCounty, 4, None, Some(1)).1 == Refused(ConstraintViolated)
  {
    hide Slugify, NormalizeLocationName, Run, CreateStep;
    RunOfFour(EMPTY, Create(County, c, 0), Create(County, d, 0), Create(SubCounty, a, 1), Create(SubCounty, b, 2));
    var nc, nd, na, nb := NormalizeLocationName(c), NormalizeLocationName(d), NormalizeLocationName(a), NormalizeLocationName(b);
    Created(EMPTY, County, c, 0);
    var t1 := Tree(map[1 := Place(nc, Slugify(nc), 0)], map[], map[], map[], 2);
    Created(t1, County, d, 0);
    var t2 := Tree(t1.counties[2 := Place(nd, Slugify(nd), 0)], map[], map[], map[], 3);
    Created(t2, SubCounty, a, 1);
    var t3 := t2.(subCounties := map[3 := Place(na, Slugify(na), 1)], nextId := 4);
    Created(t3, SubCounty, b, 2);
    var t4 := t3.(subCounties := t3.subCounties[4 := Place(nb, Slugify(nb), 2)], nextId := 5);
    MoveRefused(t4);
  }

  lemma MoveRefused(tree: Tree)
    requires 1 in tree.counties && tree.subCounties.Keys == {3, 4}
    requires tree.subCounties[3].parent == 1 && tree.subCounties[3].slug == tree.subCounties[4].slug
    requires tree.subCounties[3].name != tree.subCounties[4].name
    ensures UpdateStep(tree, SubCounty, 4, None, Some(1)).1 == Refused(ConstraintViolated)
  {
    hide Slugify, NormalizeLocationName;
  }

  // ---------- resolving a chain ----------

  /** Absent levels are None. */
  datatype Chain = Chain(county: Option<nat>, subCounty: Option<nat>, ward: Option<nat>, village: Option<nat>)

  predicate Matches(t: Table, id: nat, parent: nat, slug: string) {
    id in t && t[id].parent == parent && t[id].slug == slug
  }

  ghost function FirstMatch(t: Table, parent: nat, slug: string): Option<nat> {
    if exists id :: Matches(t, id, parent, slug) then
      var id :| Matches(t, id, parent, slug); Some(id)
    else None
  }

  method FindFirst(t: Table, parent: nat, slug: string) returns (r: Option<nat>)
    requires SlugsUnique(t)
    ensures r == FirstMatch(t, parent, slug)
  {
    if id :| id in t && t[id].parent == parent && t[id].slug == slug {
      assert Matches(t, id, parent, slug);
      r := Some(id);
    } else {
      r := None;
    }
  }

  /** One level: no column, no id; a column needs the level above and a match under it. */
  ghost function ResolveLevel(t: Table, above: Option<nat>, column: string): Result<Option<nat>> {
    if column == "" then Ok(None)
    else if above.None? then Err(BadRequest)
    else
      var found := FirstMatch(t, above.value, LookupSlug(column));
      if found.None? then Err(BadRequest) else Ok(found)
  }

  ghost function Resolution(tree: Tree, county: string, subCounty: string, ward: string, village: string): Result<Chain> {
    var c := ResolveLevel(tree.counties, Some(0), county);
    if c.Err? then Err(c.error) else
    var s := ResolveLevel(tree.subCounties, c.value, subCounty);
    if s.Err? then Err(s.error) else
    var w := ResolveLevel(tree.wards, s.value, ward);
    if w.Err? then Err(w.error) else
    var v := ResolveLevel(tree.villages, w.value, village);
    if v.Err? then Err(v.error) else
    Ok(Chain(c.value, s.value, w.value, v.value))
  }

  method ResolveLocationFromSlugs(tree: Tree, county: string, subCounty: string, ward: string, village: string)
    returns (r: Result<Chain>)
    requires Valid(tree)
    ensures r == Resolution(tree, county, subCounty, ward, village)
  {
    hide Slugify, NormalizeLocationName, LookupSlug, FirstMatch, Slugged, SlugsUnique, NamesUnique, Attached;
    assert SlugsUnique(tree.counties) && SlugsUnique(tree.subCounties) && SlugsUnique(tree.wards) && SlugsUnique(tree.villages);
    hide TableOk;
    var chain := Chain(None, None, None, None);
    if county == "" && subCounty == "" && ward == "" && village == "" {
      return Ok(chain);
    }
    if county != "" {
      var found := FindFirst(tree.counties, 0, LookupSlug(county));
      if found.None? { return Err(BadRequest); }
      chain := chain.(county := found);
    }
    if subCounty != "" {
      if chain.county.None? { return Err(BadRequest); }
      var found := FindFirst(tree.subCounties, chain.county.value, LookupSlug(subCounty));
      if found.None? { return Err(BadRequest); }
      chain := chain.(subCounty := found);
    }
    if ward != "" {
      if chain.subCounty.None? { return Err(BadRequest); }
      var found := FindFirst(tree.wards, chain.subCounty.value, LookupSlug(ward));
      if found.None? { return Err(BadRequest); }
      chain := chain.(ward := found);
    }
    if village != "" {
      if chain.ward.None? { return Err(BadRequest); }
      var found := FindFirst(tree.villages, chain.ward.value, LookupSlug(village));
      if found.None? { return Err(BadRequest); }
      chain := chain.(village := found);
    }
    r := Ok(chain);
  }

  /** `id` is what a column names under `above`: nothing for an empty column, and otherwise the
      one place there whose stored name has the column's slug. */
  predicate Named(t: Table, above: Option<nat>, column: string, id: Option<nat>) {
    (id.None? <==> column == "") &&
    (id.Some? ==>
       && above.Some?
       && id.value in t && t[id.value].parent == above.value && Slugify(t[id.value].name) == Slugify(column)
       && (forall other :: other in t && t[other].parent == above.value && Slugify(t[other].name) == Slugify(column)
             ==> other == id.value))
  }

  predicate ChainNamed(tree: Tree, county: string, subCounty: string, ward: string, village: string, chain: Chain) {
    && Named(tree.counties, Some(0), county, chain.county)
    && Named(tree.subCounties, chain.county, subCounty, chain.subCounty)
    && Named(tree.wards, chain.subCounty, ward, chain.ward)
    && Named(tree.villages, chain.ward, village, chain.village)
  }

  lemma LevelNamedIff(t: Table, above: Option<nat>, column: string, id: Option<nat>)
    requires Slugged(t) && SlugsUnique(t)
    ensures ResolveLevel(t, above, column) == Ok(id) <==> Named(t, above, column, id)
    ensures Named(t, above, column, id) && id.Some? ==> above.Some?
  {
    hide Slugify, NormalizeLocationName, LookupSlug;
    LookupFindsStored(column, column);
    if column != "" && above.Some? {
      var slug := LookupSlug(column);
      assert slug == Slugify(column) by { NormalizePreservesSlug(column); }
      forall i, j | Matches(t, i, above.value, slug) && Matches(t, j, above.value, slug) ensures i == j {}
      if id.Some? && Named(t, above, column, id) {
        assert Matches(t, id.value, above.value, slug);
      }
    }
  }

  /** The columns resolve to a chain exactly when every non-empty column has a non-empty one before
      it and names, in whatever spelling, exactly one place below the place before it; and
      then to that chain. Otherwise the resolution is refused. */
  lemma ResolutionIff(tree: Tree, county: string, subCounty: string, ward: string, village: string, chain: Chain)
    requires Valid(tree)
    ensures Resolution(tree, county, subCounty, ward, village) == Ok(chain)
            <==> ChainNamed(tree, county, subCounty, ward, village, chain)
    ensures ChainNamed(tree, county, subCounty, ward, village, chain) ==>
              && (chain.village.Some? ==> chain.ward.Some?)
              && (chain.ward.Some? ==> chain.subCounty.Some?)
              && (chain.subCounty.Some? ==> chain.county.Some?)
  {
    hide Named, ResolveLevel, Slugify, SlugsUnique, Slugged;
    LevelNamedIff(tree.counties, Some(0), county, chain.county);
    LevelNamedIff(tree.subCounties, chain.county, subCounty, chain.subCounty);
    LevelNamedIff(tree.wards, chain.subCounty, ward, chain.ward);
    LevelNamedIff(tree.villages, chain.ward, village, chain.village);
  }

  /** The service over its tables. */
  class LocationsService {
    var tree: Tree

    constructor ()
      ensures tree == EMPTY && Valid(tree)
    {
      tree := EMPTY;
    }

    method WriteRow(level: Level, id: nat, row: Place) returns (r: Outcome)
      modifies this
      ensures (tree, r) == WriteStep(old(tree), level, id, row)
    {
      var t := At(tree, level);
      if row.parent !in Parents(tree, level) || SlugTaken(t, row.parent, row.slug, id)
         || (level != County && NameTaken(t, row.parent, row.name, id)) {
        return Refused(ConstraintViolated);
      }
      tree := WithTable(tree, level, t[id := row]);
      r := Done;
    }

    method Create(level: Level, dtoName: string, dtoParent: nat) returns (r: Outcome)
      requires Valid(tree)
      modifies this
      ensures (tree, r) == CreateStep(old(tree), level, dtoName, dtoParent)
      ensures Valid(tree)
    {
      hide Slugify, NormalizeLocationName, Valid, NameTaken, SlugTaken;
      StepKeepsValid(tree, Event.Create(level, dtoName, dtoParent));
      var parent := if level == County then 0 else dtoParent;
      if level != County && parent !in At(tree, Above(level)) {
        return Refused(NotFound);
      }
      var name := NormalizeLocationName(dtoName);
      var slug := Slugify(name);
      if level != County {
        if NameTaken(At(tree, level), parent, name, tree.nextId) {
          return Refused(Conflict);
        }
      }
      if SlugTaken(At(tree, level), parent, slug, tree.nextId) {
        return Refused(Conflict);
      }
      var id := tree.nextId;
      tree := tree.(nextId := id + 1);
      r := WriteRow(level, id, Place(name, slug, parent));
    }

    method Update(level: Level, id: nat, dtoName: Option<string>, dtoParent: Option<nat>) returns (r: Outcome)
      requires Valid(tree)
      modifies this
      ensures (tree, r) == UpdateStep(old(tree), level, id, dtoName, dtoParent)
      ensures Valid(tree)
    {
      hide Slugify, NormalizeLocationName, Valid, NameTaken, SlugTaken;
      StepKeepsValid(tree, Event.Update(level, id, dtoName, dtoParent));
      var t := At(tree, level);
      if id !in t {
        return Refused(NotFound);
      }
      var row := t[id];
      if level != County && dtoParent.Some? {
        row := row.(parent := dtoParent.value);
      }
      if dtoName.Some? {
        row := row.(name := NormalizeLocationName(dtoName.value));
      }
      if level != County && (dtoParent.Some? || dtoName.Some?) {
        if NameTaken(t, row.parent, row.name, id) {
          return Refused(Conflict);
        }
      }
      if dtoName.Some? {
        var slug := Slugify(row.name);
        if SlugTaken(t, row.parent, slug, id) {
          return Refused(Conflict);
        }
        row := row.(slug := slug);
      }
      r := WriteRow(level, id, row);
    }

    /** The rows of a level whose parents are left, one after the other. */
    method Orphaned(t: Table, parents: set<nat>) returns (kept: Table)
      ensures kept == Surviving(t, {}, parents)
    {
      kept := map[];
      var ids := t.Keys;
      while ids != {}
        invariant ids <= t.Keys
        invariant kept == Surviving(t, ids, parents)
        decreases |ids|
      {
        var id :| id in ids;
        ids := ids - {id};
        if t[id].parent in parents { kept := kept[id := t[id]]; }
      }
    }

    method Delete(level: Level, id: nat) returns (r: Outcome)
      requires Valid(tree)
      modifies this
      ensures (tree, r) == DeleteStep(old(tree), level, id)
      ensures Valid(tree)
    {
      hide Slugify, NormalizeLocationName, Valid, NameTaken, SlugTaken;
      StepKeepsValid(tree, Event.Delete(level, id));
      if id !in At(tree, level) {
        return Refused(NotFound);
      }
      RowsLeft(tree.counties, if level == County then {id} else {}, {0});
      RowsLeft(tree.subCounties, if level == SubCounty then {id} else {}, {});
      RowsLeft(tree.wards, if level == Ward then {id} else {}, {});
      RowsLeft(tree.villages, if level == Village then {id} else {}, {});
      CountiesStay(tree);
      hide Surviving;
      if level == County {
        tree := tree.(counties := tree.counties - {id});
      } else if level == SubCounty {
        tree := tree.(subCounties := tree.subCounties - {id});
      } else if level == Ward {
        tree := tree.(wards := tree.wards - {id});
      } else {
        tree := tree.(villages := tree.villages - {id});
      }
      // What the cascade deletes: rows whose parent has gone, level by level.
      var subCounties := Orphaned(tree.subCounties, tree.counties.Keys);
      var wards := Orphaned(tree.wards, subCounties.Keys);
      var villages := Orphaned(tree.villages, wards.Keys);
      tree := tree.(subCounties := subCounties, wards := wards, villages := villages);
      r := Done;
    }
  }
}
