/** What the location calls answer and write: which place is made or changed and how, and which rows a deletion leaves. */
module LocationLaws {
  import opened Results
  import opened Text
  import opened Slug
  import opened Locations

  /** The tables but the one of this level are as they were, and so are this level's rows but `id`. */
  predicate OthersKept(tree: Tree, tree': Tree, level: Level, id: nat) {
    && (level != County ==> tree'.counties == tree.counties) && (level != SubCounty ==> tree'.subCounties == tree.subCounties)
    && (level != Ward ==> tree'.wards == tree.wards) && (level != Village ==> tree'.villages == tree.villages)
    && At(tree', level) - {id} == At(tree, level) - {id}
  }

  /** A sibling has this slug. */
  predicate SlugBelow(tree: Tree, level: Level, parent: nat, slug: string, self: nat) {
    exists i :: i in At(tree, level) && i != self && At(tree, level)[i].parent == parent && At(tree, level)[i].slug == slug
  }

  predicate HasParent(tree: Tree, level: Level, parent: nat) {
    match level
    case County => parent == 0
    case SubCounty => parent in tree.counties
    case Ward => parent in tree.subCounties
    case Village => parent in tree.wards
  }

  /** Where names are unique because slugs are, the name check refuses nothing that the slug check would not. */
  lemma SameNameSameSlug(tree: Tree, level: Level, parent: nat, name: string, self: nat)
    requires Valid(tree) && NameTaken(At(tree, level), parent, name, self)
    ensures SlugBelow(tree, level, parent, Slugify(name), self)
  {
    hide Slugify;
    var i :| i in At(tree, level) && i != self && At(tree, level)[i].parent == parent && At(tree, level)[i].name == name;
    RowOk(tree, level, i);
    hide Valid;
    assert At(tree, level)[i].slug == Slugify(name);
  }

  /** A write goes through exactly when parent and indexes allow it, and puts the one row. */
  lemma WriteIff(tree: Tree, level: Level, id: nat, row: Place)
    ensures var (tree', r) := WriteStep(tree, level, id, row);
            && (r.Done? <==> HasParent(tree, level, row.parent) && !SlugBelow(tree, level, row.parent, row.slug, id)
                             && (level == County || !NameTaken(At(tree, level), row.parent, row.name, id)))
            && (r.Refused? ==> tree' == tree)
            && (r.Done? ==> OthersKept(tree, tree', level, id) && tree'.nextId == tree.nextId
                            && id in At(tree', level) && At(tree', level)[id] == row)
  {
    hide NameTaken;
    var t := At(tree, level);
    assert t[id := row] - {id} == t - {id};
    ParentIs(tree, level, row.parent);
    SlugIs(tree, level, row.parent, row.slug, id);
    hide SlugTaken, SlugBelow, Parents, HasParent;
  }

  lemma ParentIs(tree: Tree, level: Level, parent: nat)
    ensures parent in Parents(tree, level) <==> HasParent(tree, level, parent)
  {
  }

  lemma SlugIs(tree: Tree, level: Level, parent: nat, slug: string, self: nat)
    ensures SlugTaken(At(tree, level), parent, slug, self) <==> SlugBelow(tree, level, parent, slug, self)
  {
  }

  /** The write of a new row. */
  lemma NewRowIff(tree: Tree, level: Level, row: Place)
    ensures var (tree', r) := WriteStep(tree.(nextId := tree.nextId + 1), level, tree.nextId, row);
            && (r.Done? <==> HasParent(tree, level, row.parent) && !SlugBelow(tree, level, row.parent, row.slug, tree.nextId)
                             && (level == County || !NameTaken(At(tree, level), row.parent, row.name, tree.nextId)))
            && (r.Done? ==> OthersKept(tree, tree', level, tree.nextId) && tree'.nextId == tree.nextId + 1
                            && tree.nextId in At(tree', level) && At(tree', level)[tree.nextId] == row)
  {
    var later := tree.(nextId := tree.nextId + 1);
    WriteIff(later, level, tree.nextId, row);
    assert At(later, level) == At(tree, level) && HasParent(later, level, row.parent) == HasParent(tree, level, row.parent);
    hide WriteStep, NameTaken;
  }

  /** The service's checks, said by the parent and the slug alone. */
  lemma CreateIsWrite(tree: Tree, level: Level, dtoName: string, dtoParent: nat)
    requires Valid(tree)
    ensures var parent := if level == County then 0 else dtoParent;
            var name := NormalizeLocationName(dtoName);
            CreateStep(tree, level, dtoName, dtoParent)
            == if !HasParent(tree, level, parent) then (tree, Refused(NotFound))
               else if SlugBelow(tree, level, parent, Slugify(name), tree.nextId) then (tree, Refused(Conflict))
               else WriteStep(tree.(nextId := tree.nextId + 1), level, tree.nextId, Place(name, Slugify(name), parent))
  {
    hide Slugify, NormalizeLocationName, WriteStep;
    var parent, name := if level == County then 0 else dtoParent, NormalizeLocationName(dtoName);
    ParentIs(tree, level, parent);
    SlugIs(tree, level, parent, Slugify(name), tree.nextId);
    if NameTaken(At(tree, level), parent, name, tree.nextId) { SameNameSameSlug(tree, level, parent, name, tree.nextId); }
    hide Valid, Parents, HasParent, SlugTaken, SlugBelow, NameTaken;
  }

  lemma NewId(tree: Tree, level: Level, name: string, parent: nat)
    requires Valid(tree) && !SlugBelow(tree, level, parent, Slugify(name), tree.nextId)
    ensures tree.nextId !in At(tree, level) && !NameTaken(At(tree, level), parent, name, tree.nextId)
  {
    hide Slugify;
    if NameTaken(At(tree, level), parent, name, tree.nextId) { SameNameSameSlug(tree, level, parent, name, tree.nextId); }
    if tree.nextId in At(tree, level) { RowOk(tree, level, tree.nextId); }
    hide Valid, SlugBelow, NameTaken;
  }

  /** A place is made exactly when its parent exists and no sibling has its slug. It gets a new id, the normalised name and the slug of
      that name. */
  lemma CreatedIff(tree: Tree, level: Level, dtoName: string, dtoParent: nat)
    requires Valid(tree)
    ensures var (tree', r) := CreateStep(tree, level, dtoName, dtoParent);
            var parent := if level == County then 0 else dtoParent;
            var name := NormalizeLocationName(dtoName);
            && (r.Done? <==> HasParent(tree, level, parent) && !SlugBelow(tree, level, parent, Slugify(name), tree.nextId))
            && (r == Refused(NotFound) <==> !HasParent(tree, level, parent))
            && (r.Refused? ==> tree' == tree)
            && (r.Done? ==>
                  && tree.nextId !in At(tree, level) && OthersKept(tree, tree', level, tree.nextId) && tree'.nextId == tree.nextId + 1
                  && tree.nextId in At(tree', level) && At(tree', level)[tree.nextId] == Place(name, Slugify(name), parent))
  {
    var id, parent, name := tree.nextId, if level == County then 0 else dtoParent, NormalizeLocationName(dtoName);
    CreateIsWrite(tree, level, dtoName, dtoParent);
    hide Slugify, NormalizeLocationName, CreateStep, Valid, WriteStep, HasParent, SlugBelow, NameTaken, OthersKept, At;
    if !SlugBelow(tree, level, parent, Slugify(name), id) {
      NewId(tree, level, name, parent);
      NewRowIff(tree, level, Place(name, Slugify(name), parent));
    }
  }

  /** The row that an update asks for. */
  function Target(was: Place, level: Level, dtoName: Option<string>, dtoParent: Option<nat>): Place {
    var name := if dtoName.None? then was.name else NormalizeLocationName(dtoName.value);
    Place(name, Slugify(name), if level == County || dtoParent.None? then was.parent else dtoParent.value)
  }

  lemma UpdateIsWrite(tree: Tree, level: Level, id: nat, dtoName: Option<string>, dtoParent: Option<nat>)
    requires Valid(tree) && id in At(tree, level)
    ensures var row := Target(At(tree, level)[id], level, dtoName, dtoParent);
            var (tree', r) := UpdateStep(tree, level, id, dtoName, dtoParent);
            || (tree', r) == WriteStep(tree, level, id, row)
            || (tree' == tree && r == Refused(Conflict) && SlugBelow(tree, level, row.parent, row.slug, id))
  {
    hide Slugify, NormalizeLocationName, Valid, SlugTaken, SlugBelow, NameTaken, WriteStep, At;
    var row := Target(At(tree, level)[id], level, dtoName, dtoParent);
    SlugOfName(tree, level, id);
    TakenIsBelow(tree, level, row, id);
  }

  lemma SlugOfName(tree: Tree, level: Level, id: nat)
    requires Valid(tree) && id in At(tree, level)
    ensures At(tree, level)[id].slug == Slugify(At(tree, level)[id].name)
  {
    RowOk(tree, level, id);
    hide Slugify, Valid;
  }

  lemma TakenIsBelow(tree: Tree, level: Level, row: Place, id: nat)
    requires Valid(tree) && row.slug == Slugify(row.name)
    ensures SlugTaken(At(tree, level), row.parent, row.slug, id) || NameTaken(At(tree, level), row.parent, row.name, id) ==>
              SlugBelow(tree, level, row.parent, row.slug, id)
  {
    hide Slugify, Valid;
    SlugIs(tree, level, row.parent, row.slug, id);
    if NameTaken(At(tree, level), row.parent, row.name, id) { SameNameSameSlug(tree, level, row.parent, row.name, id); }
    hide SlugTaken, SlugBelow, NameTaken;
  }

  lemma NameFree(tree: Tree, level: Level, parent: nat, name: string, id: nat)
    requires Valid(tree) && !SlugBelow(tree, level, parent, Slugify(name), id)
    ensures !NameTaken(At(tree, level), parent, name, id)
  {
    hide Slugify, Valid;
    if NameTaken(At(tree, level), parent, name, id) { SameNameSameSlug(tree, level, parent, name, id); }
    hide SlugBelow, NameTaken;
  }

  /** A place is renamed, moved or both exactly when it and the parent exist and no other place there has its slug. The new name is
      stored normalised with its slug, the new parent as given; what is not given stays. */
  lemma UpdatedIff(tree: Tree, level: Level, id: nat, dtoName: Option<string>, dtoParent: Option<nat>)
    requires Valid(tree)
    ensures var (tree', r) := UpdateStep(tree, level, id, dtoName, dtoParent);
            && (r == Refused(NotFound) <==> id !in At(tree, level))
            && (r.Refused? ==> tree' == tree)
            && (id in At(tree, level) ==>
                  var row := Target(At(tree, level)[id], level, dtoName, dtoParent);
                  && (r.Done? <==> HasParent(tree, level, row.parent) && !SlugBelow(tree, level, row.parent, row.slug, id))
                  && (r.Done? ==>
                        && OthersKept(tree, tree', level, id) && tree'.nextId == tree.nextId
                        && id in At(tree', level) && At(tree', level)[id] == row))
  {
    hide Slugify, NormalizeLocationName, Valid, WriteStep, HasParent, SlugBelow, NameTaken, SlugTaken, OthersKept, At;
    if id in At(tree, level) {
      NotFoundNot(tree, level, id, dtoName, dtoParent);
      hide UpdateStep;
      var row := Target(At(tree, level)[id], level, dtoName, dtoParent);
      UpdateIsWrite(tree, level, id, dtoName, dtoParent);
      WriteIff(tree, level, id, row);
      if !SlugBelow(tree, level, row.parent, row.slug, id) { NameFree(tree, level, row.parent, row.name, id); }
    }
  }

  lemma NotFoundNot(tree: Tree, level: Level, id: nat, dtoName: Option<string>, dtoParent: Option<nat>)
    requires id in At(tree, level)
    ensures UpdateStep(tree, level, id, dtoName, dtoParent).1 != Refused(NotFound)
  {
    hide Slugify, NormalizeLocationName, NameTaken, SlugTaken;
  }

  // ---------- deletion ----------

  function Depth(level: Level): nat {
    match level
    case County => 0
    case SubCounty => 1
    case Ward => 2
    case Village => 3
  }

  /** The place `low` at level `l` is the place `id` or lies below it. */
  predicate Under(tree: Tree, level: Level, id: nat, l: Level, low: nat)
    decreases Depth(l)
  {
    low in At(tree, l)
    && ((l == level && low == id) || (l != County && Under(tree, level, id, Above(l), At(tree, l)[low].parent)))
  }

  /** A place is deleted exactly when it exists. What goes are that place and everything below it; every other row stays as it is. */
  lemma DeletedIff(tree: Tree, level: Level, id: nat, l: Level, low: nat)
    requires Valid(tree)
    ensures var (tree', r) := DeleteStep(tree, level, id);
            && (r.Done? <==> id in At(tree, level))
            && (low in At(tree', l) <==> low in At(tree, l) && !Under(tree, level, id, l, low))
            && (low in At(tree', l) ==> At(tree', l)[low] == At(tree, l)[low])
  {
    hide Slugify, SlugsUnique, NamesUnique, Slugged;
    if id !in At(tree, level) {
      NothingUnder(tree, level, id, l, low);
    } else if low in At(tree, l) {
      if l == Village { LevelLeft(tree, level, id, Ward, tree.villages[low].parent); }
      LevelLeft(tree, level, id, l, low);
    }
  }

  lemma {:induction false} NothingUnder(tree: Tree, level: Level, id: nat, l: Level, low: nat)
    requires id !in At(tree, level)
    ensures !Under(tree, level, id, l, low)
    decreases Depth(l)
  {
    if l != County && low in At(tree, l) { NothingUnder(tree, level, id, Above(l), At(tree, l)[low].parent); }
  }

  /** What the cascade asks of one row. */
  lemma RowLeft(tree: Tree, level: Level, id: nat, l: Level, low: nat)
    requires Valid(tree) && id in At(tree, level) && low in At(tree, l)
    ensures var after := DeleteStep(tree, level, id).0;
            low in At(after, l) <==> !(l == level && low == id) && (l == County || At(tree, l)[low].parent in At(after, Above(l)))
  {
    hide Valid, Slugify;
    RowOk(tree, l, low);
  }

  /** One level of the cascade after the other. */
  lemma {:induction false} LevelLeft(tree: Tree, level: Level, id: nat, l: Level, low: nat)
    requires Valid(tree) && id in At(tree, level) && low in At(tree, l)
    ensures low in At(DeleteStep(tree, level, id).0, l) <==> !Under(tree, level, id, l, low)
    decreases Depth(l)
  {
    hide Valid, DeleteStep, At, Slugify;
    RowLeft(tree, level, id, l, low);
    if l != County {
      RowOk(tree, l, low);
      AboveIs(tree, l);
      LevelLeft(tree, level, id, Above(l), At(tree, l)[low].parent);
    }
  }

  lemma AboveIs(tree: Tree, l: Level)
    requires l != County
    ensures Parents(tree, l) == At(tree, Above(l)).Keys && Depth(Above(l)) < Depth(l)
  {
  }
}
