/** What the user calls answer and write, which users and counts they leave alone, and what an import makes of each row of
    its file. */
module UserLaws {
  import opened Results
  import opened Roles
  import opened Text
  import opened Users
  import Csv
  import CsvKeys
  import Slug
  import L = Locations

  // ---------- the calls ----------

  /** Another user than `self` has the phone, or the email if one is given. */
  ghost predicate InUse(users: map<nat, User>, email: Option<string>, phone: Option<string>, self: set<nat>) {
    exists u :: u in users && u !in self && (phone == Some(users[u].phone) || (email.Some? && users[u].email == email))
  }

  /** The counts of the groups in `groups` are the numbers of their members; the others are as they were. */
  ghost predicate CountsAfter(d: Directory, d': Directory, groups: set<nat>) {
    && (forall g :: g in d'.memberCounts <==> g in d.memberCounts || g in groups)
    && (forall g :: g in groups ==> d'.memberCounts[g] == |Members(d'.users, g)|)
    && (forall g :: g in d.memberCounts && g !in groups ==> d'.memberCounts[g] == d.memberCounts[g])
  }

  predicate SameFrame(d: Directory, d': Directory) {
    d'.codes == d.codes && d'.centers == d.centers
  }

  /** A user is created exactly when nobody has the phone or the email, a manager has a center, and group and center exist. The
      user has a new id and all that was asked for, a blank email becoming none; the group of the user is recounted. */
  lemma CreatedIff(d: Directory, dto: User)
    requires Valid(d)
    ensures var (d', r) := CreateUserStep(d, dto);
            var email := if dto.email.None? || Trim(dto.email.value) == "" then None else Some(Trim(dto.email.value));
            && (r.Done? <==> && !InUse(d.users, email, Some(dto.phone), {})
                             && (dto.role == AGGREGATION_MANAGER ==> dto.center.Some?)
                             && (dto.group.Some? ==> dto.group.value in d.memberCounts)
                             && (dto.center.Some? ==> dto.center.value in d.centers))
            && (r.Refused? ==> d' == d)
            && (r.Done? ==>
                  && d.nextId !in d.users && d'.users == d.users[d.nextId := dto.(email := email)] && d'.nextId == d.nextId + 1
                  && SameFrame(d, d') && CountsAfter(d, d', if dto.group.Some? then {dto.group.value} else {}))
  {
    hide Trim, Members, Distinct, CountsExplained;
  }

  /** Each field that is given is stored, each that is not stays. */
  predicate Stores(was: User, user: User, data: UserUpdate) {
    && (data.email.Some? ==> user.email == data.email) && (data.email.None? ==> user.email == was.email)
    && (data.phone.Some? ==> Some(user.phone) == data.phone) && (data.phone.None? ==> user.phone == was.phone)
    && (data.role.Some? ==> Some(user.role) == data.role) && (data.role.None? ==> user.role == was.role)
    && (data.center.Some? ==> user.center == data.center) && (data.center.None? ==> user.center == was.center)
    && (data.group.MoveTo? ==> user.group == Some(data.group.group)) && (data.group.ClearGroup? ==> user.group == None)
    && (data.group.KeepGroup? ==> user.group == was.group)
    && (user.firstName, user.lastName, user.place) == (was.firstName, was.lastName, was.place)
  }

  lemma UpdatedStores(was: User, data: UserUpdate)
    ensures Stores(was, Updated(was, data), data)
  {
  }

  lemma UpdateAnswer(d: Directory, id: nat, data: UserUpdate)
    ensures UpdateUserStep(d, id, data).1.Done?
            <==> && id in d.users && data.localityValid
                 && !InUse(d.users, data.email, data.phone, {id})
                 && (data.group.MoveTo? ==> data.group.group in d.memberCounts)
                 && (data.center.Some? ==> data.center.value in d.centers)
  {
    hide Members, Updated, Recount;
  }

  /** A user is updated exactly when the user exists, nobody else has the new phone or email, and group, center and locality are
      right. What is given is stored, and all other users stay; the groups left and joined are recounted. */
  lemma UpdatedIff(d: Directory, id: nat, data: UserUpdate)
    ensures var (d', r) := UpdateUserStep(d, id, data);
            && (r.Done? <==> && id in d.users && data.localityValid
                             && !InUse(d.users, data.email, data.phone, {id})
                             && (data.group.MoveTo? ==> data.group.group in d.memberCounts)
                             && (data.center.Some? ==> data.center.value in d.centers))
            && (r.Refused? ==> d' == d)
            && (r.Done? ==>
                  && id in d'.users && d'.users == d.users[id := d'.users[id]] && d'.nextId == d.nextId && SameFrame(d, d')
                  && Stores(d.users[id], d'.users[id], data)
                  && CountsAfter(d, d', (if data.group.MoveTo? then {data.group.group} else {})
                                        + (if !data.group.KeepGroup? && d.users[id].group.Some? then {d.users[id].group.value} else {})))
  {
    UpdateAnswer(d, id, data);
    hide InUse, CountsAfter;
    if UpdateUserStep(d, id, data).1.Done? {
      UpdatedStores(d.users[id], data);
      UpdateCounts(d, id, data);
    }
    hide Members, Updated, Stores, Taken;
  }

  lemma UpdateCounts(d: Directory, id: nat, data: UserUpdate)
    requires UpdateUserStep(d, id, data).1.Done?
    ensures id in d.users
    ensures CountsAfter(d, UpdateUserStep(d, id, data).0,
                        (if data.group.MoveTo? then {data.group.group} else {})
                        + (if !data.group.KeepGroup? && d.users[id].group.Some? then {d.users[id].group.value} else {}))
  {
    var was := d.users[id].group;
    var d1 := d.(users := d.users[id := Updated(d.users[id], data)]);
    assert CountsAfter(d, d1, {});
    hide CountsAfter, Members, Updated, Taken, Recount;
    var left := if !data.group.KeepGroup? && was.Some? then {was.value} else {};
    if was.Some? { RecountAfter(d, d1, {}, was.value); }
    var d2 := if !data.group.KeepGroup? && was.Some? then Recount(d1, was.value) else d1;
    assert CountsAfter(d, d2, left) by { assert was.Some? ==> {} + {was.value} == {was.value}; }
    if data.group.MoveTo? { RecountAfter(d, d2, left, data.group.group); }
    assert {} + left == left && (data.group.MoveTo? ==> {data.group.group} + left == left + {data.group.group});
  }

  lemma RecountAfter(d: Directory, d': Directory, groups: set<nat>, g: nat)
    requires CountsAfter(d, d', groups)
    ensures CountsAfter(d, Recount(d', g), groups + {g})
  {
    hide Members;
  }

  /** A user is deleted exactly when the user exists and nothing refers to the row. No other user and no count changes. */
  lemma DeletedIff(d: Directory, id: nat, related: bool)
    ensures var (d', r) := DeleteUserStep(d, id, related);
            && (r.Done? <==> id in d.users && !related)
            && d'.users == (if r.Done? then d.users - {id} else d.users) && d'.memberCounts == d.memberCounts
            && d'.nextId == d.nextId && SameFrame(d, d')
  {
  }

  /** A profile edit is made exactly of an existing user and with an existing group. It changes the group of that user only, and
      no count. */
  lemma ProfileEditIff(d: Directory, id: nat, change: GroupChange)
    ensures var (d', r) := UpdateProfileStep(d, id, change);
            && (r.Done? <==> id in d.users && (change.MoveTo? ==> change.group in d.memberCounts))
            && (r.Refused? ==> d' == d)
            && (r.Done? ==>
                  && d'.users == d.users[id := d.users[id].(group := match change
                                                                      case KeepGroup => d.users[id].group
                                                                      case ClearGroup => None
                                                                      case MoveTo(g) => Some(g))]
                  && d'.memberCounts == d.memberCounts && d'.nextId == d.nextId && SameFrame(d, d'))
  {
  }

  // ---------- the columns of a row ----------

  /** The value of the first of the columns that the row has, trimmed; nothing when it has none. */
  lemma {:induction false} ColumnIs(row: Csv.Row, names: seq<string>, i: nat)
    requires i <= |names| && forall j :: 0 <= j < i ==> names[j] !in row
    ensures i == |names| ==> Column(row, names) == ""
    ensures i < |names| && names[i] in row ==> Column(row, names) == Trim(row[names[i]])
  {
    hide Trim;
    if i > 0 { ColumnIs(row, names[1..], i - 1); }
  }

  /** Taking the white space out of a phone number, piece by piece. */
  lemma {:induction false} PhonePieces(a: string, b: string)
    ensures NormalizePhone(a + b) == NormalizePhone(a) + NormalizePhone(b)
    ensures forall c :: c in NormalizePhone(a) ==> !IsSpace(c)
  {
    hide IsSpace;
    if a == "" {
      assert a + b == b;
    } else {
      assert (a + b)[1..] == a[1..] + b;
      PhonePieces(a[1..], b);
    }
  }

  /** The phone is that of its column, or of the other one when the row lacks the first. */
  lemma PhoneIs(row: Csv.Row)
    ensures "phone" in row ==> Phone(row) == NormalizePhone(row["phone"])
    ensures "phone" !in row && "phone_number" in row ==> Phone(row) == NormalizePhone(row["phone_number"])
    ensures "phone" !in row && "phone_number" !in row ==> Phone(row) == ""
  {
  }

  lemma PhoneOfOne(c: char)
    ensures NormalizePhone([c]) == if IsSpace(c) then "" else [c]
  {
    assert [c][1..] == "";
    assert Filter(NotSpace, [c][1..]) == "";
  }

  // ---------- names ----------

  /** The first word and the rest, which joined again give the name with single spaces. */
  predicate NameSplit(name: string, first: string, last: string) {
    && first != "" && (forall c :: c in first ==> !IsSpace(c))
    && CollapseSpaces(name, ' ') == if last == "" then first else first + " " + last
  }

  predicate Single(s: string, sep: char) {
    forall i :: 0 <= i < |s| - 1 ==> s[i] != sep || s[i + 1] != sep
  }

  lemma SingleCons(c: char, t: string, sep: char)
    requires Single(t, sep) && (c == sep && t != "" ==> t[0] != sep)
    ensures Single([c] + t, sep)
  {
    var r := [c] + t;
    forall i | 0 <= i < |r| - 1 ensures r[i] != sep || r[i + 1] != sep {
      if i > 0 {
        var j := i - 1;
        assert t[j] != sep || t[j + 1] != sep;
      }
    }
  }

  lemma {:induction false} CollapseSingle(s: string, inside: bool)
    ensures var r := Collapse(s, IsSpace, ' ', inside); Single(r, ' ') && (inside && r != "" ==> r[0] != ' ')
  {
    if s != "" {
      hide Single;
      CollapseSingle(s[1..], IsSpace(s[0]));
      var t := Collapse(s[1..], IsSpace, ' ', IsSpace(s[0]));
      SingleCons(if IsSpace(s[0]) then ' ' else s[0], t, ' ');
      assert "" + t == t && IsSpace(' ');
    }
  }

  /** Without adjacent separators, only the first part can be empty, and the last when the text ends with one. */
  lemma {:induction false} SplitNonEmpty(s: string, sep: char)
    requires s != "" && s[|s| - 1] != sep && Single(s, sep)
    ensures forall k :: 0 < k < |Split(s, sep)| ==> Split(s, sep)[k] != ""
    ensures Split(s, sep)[0] == "" <==> s[0] == sep
  {
    if |s| == 1 {
      SplitLast(s, sep);
    } else {
      var rest := s[1..];
      forall i | 0 <= i < |rest| - 1 ensures rest[i] != sep || rest[i + 1] != sep {
        var j := i + 1;
        assert s[j] != sep || s[j + 1] != sep;
      }
      SplitNonEmpty(rest, sep);
    }
  }

  lemma WordsAre(name: string)
    requires name != "" && Trimmed(name)
    ensures var words := Words(name);
            words == Split(CollapseSpaces(name, ' '), ' ') && |words| > 0 && forall k :: 0 <= k < |words| ==> words[k] != ""
  {
    var t := CollapseSpaces(name, ' ');
    CollapseSingle(name, false);
    var n := |name| - 1;
    CsvKeys.CollapseSnoc(name[..n], name[n], ' ', false);
    assert name[..n] + [name[n]] == name;
    assert t[0] == name[0];
    assert IsSpace(' ');
    hide IsSpace, Collapse;
    SplitNonEmpty(t, ' ');
    var parts := Split(t, ' ');
    assert forall p :: p in parts ==> p != "";
    FilterAll(Csv.NonEmpty, parts);
  }

  lemma NameIsSplit(name: string)
    requires name != "" && Trimmed(name)
    ensures var words := Words(name); words != [] && NameSplit(name, words[0], Join(words[1..], ' '))
  {
    WordsAre(name);
    var t, words := CollapseSpaces(name, ' '), Words(name);
    JoinSplit(t, ' ');
    Slug.CollapseChars(name, IsSpace, ' ', false);
    hide IsSpace, Collapse, Split, Words;
    forall c | c in words[0] ensures !IsSpace(c) {
      assert words[0] in words && c in t;
    }
    if |words| > 1 {
      assert words[1] != "";
      JoinNonEmpty(words[1..], ' ');
    }
  }

  lemma JoinNonEmpty(parts: seq<string>, sep: char)
    requires parts != [] && parts[0] != ""
    ensures Join(parts, sep) != ""
  {
  }

  // ---------- one row of an import ----------

  function CodeOf(row: Csv.Row): string {
    Column(row, ["farmer_group_code", "farmer_group", "group_code"])
  }

  /** The row's location columns name these places. */
  predicate PlacedAt(tree: L.Tree, row: Csv.Row, place: L.Chain) {
    L.ChainNamed(tree, Column(row, ["county"]), Column(row, ["subcounty", "sub_county"]), Column(row, ["ward"]), Column(row, ["village"]), place)
  }

  /** The user that a row adds: a farmer with the row's phone, email and name, in the group of the row's code, at the place of the row's
      location columns. */
  ghost predicate FarmerOf(d: Directory, tree: L.Tree, row: Csv.Row, user: User) {
    && user.role == FARMER && user.center.None?
    && user.phone == Phone(row) != ""
    && (if Column(row, ["email"]) == "" then user.email.None? else user.email == Some(Column(row, ["email"])))
    && (if CodeOf(row) == "" then user.group.None? else CodeOf(row) in d.codes && user.group == Some(d.codes[CodeOf(row)]))
    && PlacedAt(tree, row, user.place)
    && (var first, last := Column(row, ["first_name", "firstname"]), Column(row, ["last_name", "lastname"]);
        if first != "" || last != "" then user.firstName == first && user.lastName == last
        else NameSplit(Column(row, ["name", "full_name"]), user.firstName, user.lastName))
  }

  /** One user more, under a new id; the group of that user gains this member and is counted again, and no other group changes. */
  ghost predicate UserAdded(d: Directory, d': Directory, user: User) {
    var id := d.nextId;
    && id !in d.users && d'.users == d.users[id := user] && d'.nextId == id + 1 && SameFrame(d, d')
    && (forall g: nat :: Members(d'.users, g) == Members(d.users, g) + if user.group == Some(g) then {id} else {})
    && CountsAfter(d, d', if user.group.Some? then {user.group.value} else {})
  }

  /** The user added is the row's. */
  ghost predicate RowAdds(d: Directory, d': Directory, tree: L.Tree, row: Csv.Row) {
    d.nextId in d'.users && UserAdded(d, d', d'.users[d.nextId]) && FarmerOf(d, tree, row, d'.users[d.nextId])
  }

  /** What can be wrong with a row in itself and for want of a group or a place: no name, no phone, a short password, an unknown group,
      columns that name no place. */
  ghost predicate Flawed(d: Directory, tree: L.Tree, row: Csv.Row) {
    || (Column(row, ["name", "full_name"]) == "" && Column(row, ["first_name", "firstname"]) == "" && Column(row, ["last_name", "lastname"]) == "")
    || Phone(row) == ""
    || 0 < |Column(row, ["password", "pwd"])| < 8
    || (CodeOf(row) != "" && CodeOf(row) !in d.codes)
    || (forall chain :: !PlacedAt(tree, row, chain))
  }

  /** And for the users there are: a phone or an email in use. */
  ghost predicate RowFails(d: Directory, tree: L.Tree, row: Csv.Row) {
    var email := Column(row, ["email"]);
    Flawed(d, tree, row) || InUse(d.users, if email == "" then None else Some(email), Some(Phone(row)), {})
  }

  ghost function PlaceOf(tree: L.Tree, row: Csv.Row): Result<L.Chain> {
    L.Resolution(tree, Column(row, ["county"]), Column(row, ["subcounty", "sub_county"]), Column(row, ["ward"]), Column(row, ["village"]))
  }

  lemma PlaceIff(tree: L.Tree, row: Csv.Row)
    requires L.Valid(tree)
    ensures PlaceOf(tree, row).Err? <==> forall chain :: !PlacedAt(tree, row, chain)
    ensures PlaceOf(tree, row).Ok? ==> PlacedAt(tree, row, PlaceOf(tree, row).value)
  {
    hide Column, L.Valid, L.ChainNamed, L.Resolution;
    forall chain ensures PlaceOf(tree, row) == Ok(chain) <==> PlacedAt(tree, row, chain) {
      L.ResolutionIff(tree, Column(row, ["county"]), Column(row, ["subcounty", "sub_county"]), Column(row, ["ward"]),
                      Column(row, ["village"]), chain);
    }
    var r := PlaceOf(tree, row);
    if r.Ok? { assert r == Ok(r.value); }
  }

  /** The row's user as the loop body makes it. */
  lemma FarmerIs(d: Directory, tree: L.Tree, row: Csv.Row, group: Option<nat>, place: L.Chain)
    requires !Flawed(d, tree, row)
    requires if CodeOf(row) == "" then group.None? else CodeOf(row) in d.codes && group == Some(d.codes[CodeOf(row)])
    requires PlacedAt(tree, row, place)
    ensures FarmerOf(d, tree, row, Farmer(row, group, place))
  {
    var name := Column(row, ["name", "full_name"]);
    if name != "" {
      ColumnTrimmed(row, ["name", "full_name"]);
      TrimFixedIff(name);
      hide Words, Trimmed, Trim, Column;
      NameIsSplit(name);
    }
    hide Column, Phone, Words, PlacedAt, NameSplit;
  }

  /** The creation of the row's user, which has an existing group or none and a trimmed email or none. */
  lemma UserIsCreated(d: Directory, user: User)
    requires Valid(d) && user.role == FARMER && user.center.None? && (user.group.Some? ==> user.group.value in d.memberCounts)
    requires user.email.Some? ==> user.email.value != "" && Trim(user.email.value) == user.email.value
    ensures var (d', r) := CreateUserStep(d, user);
            && (r.Refused? <==> InUse(d.users, user.email, Some(user.phone), {}))
            && (r.Refused? ==> d' == d)
            && (r.Done? ==> d'.users == d.users[d.nextId := user] && UserAdded(d, d', user))
  {
    CreatedIff(d, user);
    hide CreateUserStep, InUse, CountsAfter, Valid, Trim, Members, UserAdded, SameFrame;
    assert user.(email := user.email) == user;
    var (d', r) := CreateUserStep(d, user);
    if r.Done? { IsAdded(d, d', user); }
  }

  lemma IsAdded(d: Directory, d': Directory, user: User)
    requires d.nextId !in d.users && d'.users == d.users[d.nextId := user] && d'.nextId == d.nextId + 1 && SameFrame(d, d')
    requires CountsAfter(d, d', if user.group.Some? then {user.group.value} else {})
    ensures UserAdded(d, d', user)
  {
    hide CountsAfter, Members, SameFrame;
    NewMember(d.users, d.nextId, user);
  }

  lemma NewMember(users: map<nat, User>, id: nat, user: User)
    requires id !in users
    ensures forall g: nat :: Members(users[id := user], g) == Members(users, g) + if user.group == Some(g) then {id} else {}
  {
  }

  function GroupOf(d: Directory, row: Csv.Row): Option<nat> {
    if CodeOf(row) in d.codes && CodeOf(row) != "" then Some(d.codes[CodeOf(row)]) else None
  }

  /** The loop body stops at a flaw, and otherwise asks for the row's user. */
  lemma RowAsks(d: Directory, tree: L.Tree, row: Csv.Row)
    requires L.Valid(tree)
    ensures var (d', failure) := ImportRow(d, tree, row);
            if Flawed(d, tree, row) then failure.Some? && d' == d
            else
              && PlaceOf(tree, row).Ok?
              && var (e, r) := CreateUserStep(d, Farmer(row, GroupOf(d, row), PlaceOf(tree, row).value));
                 d' == e && (failure.None? <==> r.Done?)
  {
    PlaceIff(tree, row);
    hide Column, Phone, PlacedAt, CreateUserStep, L.Valid, L.Resolution, Farmer;
  }

  /** A row fails exactly when something is wrong with it, and then changes nothing; any other adds its user. */
  lemma RowIff(d: Directory, tree: L.Tree, row: Csv.Row)
    requires Valid(d) && L.Valid(tree)
    ensures var (d', failure) := ImportRow(d, tree, row);
            && (failure.Some? <==> RowFails(d, tree, row))
            && if failure.Some? then d' == d else RowAdds(d, d', tree, row)
  {
    RowAsks(d, tree, row);
    if !Flawed(d, tree, row) {
      PlaceIff(tree, row);
      ColumnTrimmed(row, ["email"]);
      hide ImportRow, CodeOf, Column, Phone, PlacedAt, Valid, CreateUserStep, InUse, CountsAfter, Words, FarmerOf, L.Valid;
      var user := Farmer(row, GroupOf(d, row), PlaceOf(tree, row).value);
      hide PlaceOf, RowAdds;
      FarmerIs(d, tree, row, user.group, user.place);
      FarmerAdds(d, tree, row, user);
      hide Farmer, GroupOf, Flawed;
    }
    hide Flawed, ImportRow, RowAdds, InUse;
  }

  lemma FarmerAdds(d: Directory, tree: L.Tree, row: Csv.Row, user: User)
    requires Valid(d) && FarmerOf(d, tree, row, user) && Trim(Column(row, ["email"])) == Column(row, ["email"])
    ensures var (d', r) := CreateUserStep(d, user);
            && (r.Refused? <==> InUse(d.users, if Column(row, ["email"]) == "" then None else Some(Column(row, ["email"])), Some(Phone(row)), {}))
            && (r.Refused? ==> d' == d)
            && (r.Done? ==> RowAdds(d, d', tree, row))
  {
    CodeKnown(d, CodeOf(row));
    hide CodeOf, Column, Phone, PlacedAt, NameSplit, Valid, CreateUserStep, InUse, UserAdded, Trim;
    UserIsCreated(d, user);
  }

  lemma CodeKnown(d: Directory, code: string)
    requires Valid(d)
    ensures code in d.codes ==> d.codes[code] in d.memberCounts
  {
  }

  /** The reason given is the first thing that is wrong. */
  lemma ReasonIs(d: Directory, tree: L.Tree, row: Csv.Row)
    requires Valid(d) && L.Valid(tree)
    ensures var failure := ImportRow(d, tree, row).1;
            var nameless := Column(row, ["name", "full_name"]) == "" && Column(row, ["first_name", "firstname"]) == ""
                            && Column(row, ["last_name", "lastname"]) == "";
            var short := 0 < |Column(row, ["password", "pwd"])| < 8;
            var unknown := CodeOf(row) != "" && CodeOf(row) !in d.codes;
            var nowhere := forall chain :: !PlacedAt(tree, row, chain);
            && (failure == Some(NameRequired) <==> nameless)
            && (failure == Some(PhoneRequired) <==> !nameless && Phone(row) == "")
            && (failure == Some(PasswordTooShort) <==> !nameless && Phone(row) != "" && short)
            && (failure == Some(GroupNotFound) <==> !nameless && Phone(row) != "" && !short && unknown)
            && (failure == Some(LocationRefused) <==> !nameless && Phone(row) != "" && !short && !unknown && nowhere)
            && (failure == Some(CreateRefused) <==> !Flawed(d, tree, row) && RowFails(d, tree, row))
  {
    RowIff(d, tree, row);
    PlaceIff(tree, row);
    hide Column, Phone, PlacedAt, CreateUserStep, L.Valid, L.Resolution, Farmer, Valid, InUse, RowAdds;
  }

  lemma NextImported(d: Directory, tree: L.Tree, rows: seq<Csv.Row>, i: nat)
    requires i < |rows|
    ensures Imported(d, tree, rows, i + 1).directory == ImportRow(Imported(d, tree, rows, i).directory, tree, rows[i]).0
  {
    hide ImportRow;
  }

  /** Of the rows of a file, exactly those are reported that something is wrong with, given the users before them; they change nothing
      and are reported with the reason of their failure, and every other row adds exactly the user that it describes. */
  lemma ImportedRows(d: Directory, tree: L.Tree, rows: seq<Csv.Row>, k: nat, i: nat)
    requires Valid(d) && L.Valid(tree) && i < k <= |rows|
    ensures var before, after := Imported(d, tree, rows, i).directory, Imported(d, tree, rows, i + 1).directory;
            && (Reported(Imported(d, tree, rows, k).errors, i) <==> RowFails(before, tree, rows[i]))
            && (if RowFails(before, tree, rows[i]) then after == before else RowAdds(before, after, tree, rows[i]))
            && forall e: nat :: e < |Imported(d, tree, rows, k).errors| && Imported(d, tree, rows, k).errors[e].row == i + 2 ==>
                 ImportRow(before, tree, rows[i]).1 == Some(Imported(d, tree, rows, k).errors[e].reason)
  {
    hide RowFails, RowAdds, ImportRow, Valid, L.Valid, Reported, Imported;
    ReportedIff(d, tree, rows, k, i);
    forall e: nat | e < |Imported(d, tree, rows, k).errors| && Imported(d, tree, rows, k).errors[e].row == i + 2
      ensures ImportRow(Imported(d, tree, rows, i).directory, tree, rows[i]).1 == Some(Imported(d, tree, rows, k).errors[e].reason)
    {
      ReportedReason(d, tree, rows, k, i, e);
    }
    assert Imported(d, tree, rows, i + 1).directory == ImportRow(Imported(d, tree, rows, i).directory, tree, rows[i]).0 by {
      NextImported(d, tree, rows, i);
    }
    ImportKeepsValid(d, tree, rows, i);
    RowIff(Imported(d, tree, rows, i).directory, tree, rows[i]);
  }
}
