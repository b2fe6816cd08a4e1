/** Users and farmer groups: creating, updating and deleting users, the stored member counts,
    and the bulk import of farmers from a CSV file. */
module Users {
  import opened Results
  import opened Roles
  import opened Text
  import Csv
  import L = Locations

  datatype User = User(email: Option<string>, phone: string, role: Role, firstName: string, lastName: string,
                       group: Option<nat>, center: Option<nat>, place: L.Chain)

  /** `codes` is the unique index of group codes; `memberCounts` holds every group's stored count. `drift` is
      specification only: since a group's last recount, how many more members left it than joined it without one. */
  datatype Directory = Directory(users: map<nat, User>, codes: map<string, nat>, memberCounts: map<nat, nat>,
                                 centers: set<nat>, nextId: nat, drift: map<nat, int>)

  function Drift(d: Directory, group: nat): int {
    if group in d.drift then d.drift[group] else 0
  }

  /** A member leaves (1) or joins (-1) without a recount. */
  function Shifted(d: Directory, group: Option<nat>, shift: int): Directory {
    if group.Some? then d.(drift := d.drift[group.value := Drift(d, group.value) + shift]) else d
  }

  function Members(users: map<nat, User>, group: nat): set<nat> {
    set u | u in users && users[u].group == Some(group)
  }

  /** Another user than `self` has this email or this phone. */
  predicate Taken(users: map<nat, User>, email: Option<string>, phone: Option<string>, self: Option<nat>) {
    exists u :: u in users && self != Some(u)
                && ((email.Some? && users[u].email == email) || phone == Some(users[u].phone))
  }

  function Recount(d: Directory, group: nat): Directory {
    d.(memberCounts := d.memberCounts[group := |Members(d.users, group)|], drift := d.drift[group := 0])
  }

  function TrimmedEmail(email: Option<string>): Option<string> {
    if email.Some? && Trim(email.value) != "" then Some(Trim(email.value)) else None
  }

  function CreateUserStep(d: Directory, dto: User): (Directory, Outcome) {
    var user := dto.(email := TrimmedEmail(dto.email));
    if Taken(d.users, user.email, Some(user.phone), None) then (d, Refused(BadRequest))
    else if user.role.AGGREGATION_MANAGER? && user.center.None? then (d, Refused(BadRequest))
    else if user.group.Some? && user.group.value !in d.memberCounts then (d, Refused(BadRequest))
    else if user.center.Some? && user.center.value !in d.centers then (d, Refused(BadRequest))
    else
      var d' := d.(users := d.users[d.nextId := user], nextId := d.nextId + 1);
      (if user.group.Some? then Recount(d', user.group.value) else d', Done)
  }

  datatype GroupChange = KeepGroup | ClearGroup | MoveTo(group: nat)

  function GroupAfter(group: Option<nat>, change: GroupChange): Option<nat> {
    match change
    case KeepGroup => group
    case ClearGroup => None
    case MoveTo(g) => Some(g)
  }

  /** The fields of an update that the model follows; `localityValid` is the sub-county list check. */
  datatype UserUpdate = UserUpdate(email: Option<string>, phone: Option<string>, role: Option<Role>,
                                   group: GroupChange, center: Option<nat>, localityValid: bool)

  function Updated(user: User, data: UserUpdate): User {
    user.(email := if data.email.Some? then data.email else user.email,
          phone := data.phone.GetOr(user.phone),
          role := data.role.GetOr(user.role),
          group := GroupAfter(user.group, data.group),
          center := if data.center.Some? then data.center else user.center)
  }

  function UpdateUserStep(d: Directory, id: nat, data: UserUpdate): (Directory, Outcome) {
    if id !in d.users then (d, Refused(NotFound))
    else if (data.email.Some? || data.phone.Some?) && Taken(d.users, data.email, data.phone, Some(id)) then (d, Refused(BadRequest))
    else if data.group.MoveTo? && data.group.group !in d.memberCounts then (d, Refused(BadRequest))
    else if data.center.Some? && data.center.value !in d.centers then (d, Refused(BadRequest))
    else if !data.localityValid then (d, Refused(BadRequest))
    else
      var user := d.users[id];
      var d1 := d.(users := d.users[id := Updated(user, data)]);
      var d2 := if !data.group.KeepGroup? && user.group.Some? then Recount(d1, user.group.value) else d1;
      (if data.group.MoveTo? then Recount(d2, data.group.group) else d2, Done)
  }

  /** `related` says that orders, listings or the like keep the row from being deleted. */
  function DeleteUserStep(d: Directory, id: nat, related: bool): (Directory, Outcome) {
    if id !in d.users then (d, Refused(NotFound))
    else if related then (d, Refused(BadRequest))
    else (Shifted(d.(users := d.users - {id}), d.users[id].group, 1), Done)
  }

  /** An edit of a profile, the user's own or anyone's by staff: it writes the group like any other column, and
      only the foreign key stands in the way. */
  function UpdateProfileStep(d: Directory, id: nat, change: GroupChange): (Directory, Outcome) {
    if id !in d.users then (d, Refused(NotFound))
    else if change.MoveTo? && change.group !in d.memberCounts then (d, Refused(ConstraintViolated))
    else
      var user := d.users[id];
      var group := GroupAfter(user.group, change);
      (Shifted(Shifted(d.(users := d.users[id := user.(group := group)]), user.group, 1), group, -1), Done)
  }

  // ---------- the bulk import ----------

  datatype Reason = NameRequired | PhoneRequired | PasswordTooShort | GroupNotFound | LocationRefused
                  | CreateRefused | NoRows

  datatype RowError = RowError(row: nat, reason: Reason)

  /** The first of the columns that the row has, or the empty string; trimmed. */
  function Column(row: Csv.Row, names: seq<string>): string {
    if names == [] then ""
    else if names[0] in row then Trim(row[names[0]])
    else Column(row, names[1..])
  }

  predicate NotSpace(c: char) {
    !IsSpace(c)
  }

  /** A phone number without its white space. */
  function NormalizePhone(p: string): string {
    Filter(NotSpace, p)
  }

  function Phone(row: Csv.Row): string {
    NormalizePhone(if "phone" in row then row["phone"] else if "phone_number" in row then row["phone_number"] else "")
  }

  function Words(name: string): seq<string> {
    Filter(Csv.NonEmpty, Split(CollapseSpaces(name, ' '), ' '))
  }

  /** The user a row asks for, once its group and place are known. */
  function Farmer(row: Csv.Row, group: Option<nat>, place: L.Chain): User {
    var firstCol := Column(row, ["first_name", "firstname"]);
    var lastCol := Column(row, ["last_name", "lastname"]);
    var words := Words(Column(row, ["name", "full_name"]));
    var email := Column(row, ["email"]);
    var split := firstCol == "" && lastCol == "";
    User(if email == "" then None else Some(email), Phone(row), FARMER,
         if !split then firstCol else if words == [] then "" else words[0],
         if !split then lastCol else if words == [] then "" else Join(words[1..], ' '),
         group, None, place)
  }

  /** One pass of the loop: the directory after the row, and the error pushed for it, if any. */
  ghost function ImportRow(d: Directory, tree: L.Tree, row: Csv.Row): (Directory, Option<Reason>) {
    var password := Column(row, ["password", "pwd"]);
    var code := Column(row, ["farmer_group_code", "farmer_group", "group_code"]);
    var place := L.Resolution(tree, Column(row, ["county"]), Column(row, ["subcounty", "sub_county"]),
                              Column(row, ["ward"]), Column(row, ["village"]));
    if Column(row, ["name", "full_name"]) == "" && Column(row, ["first_name", "firstname"]) == ""
       && Column(row, ["last_name", "lastname"]) == "" then (d, Some(NameRequired))
    else if Phone(row) == "" then (d, Some(PhoneRequired))
    else if 0 < |password| < 8 then (d, Some(PasswordTooShort))
    else if code != "" && code !in d.codes then (d, Some(GroupNotFound))
    else if place.Err? then (d, Some(LocationRefused))
    else
      var (d', r) := CreateUserStep(d, Farmer(row, if code == "" then None else Some(d.codes[code]), place.value));
      (d', if r.Done? then None else Some(CreateRefused))
  }

  datatype Import = Import(directory: Directory, created: nat, errors: seq<RowError>)

  /** What the loop has done once the first `k` rows are through. */
  ghost function Imported(d: Directory, tree: L.Tree, rows: seq<Csv.Row>, k: nat): Import
    requires k <= |rows|
  {
    if k == 0 then Import(d, 0, [])
    else
      var before := Imported(d, tree, rows, k - 1);
      var (d', failure) := ImportRow(before.directory, tree, rows[k - 1]);
      if failure.None? then Import(d', before.created + 1, before.errors)
      else Import(d', before.created, before.errors + [RowError(k + 1, failure.value)])
  }

  // ---------- the invariant of every run ----------

  predicate Distinct(users: map<nat, User>) {
    forall u, v :: u in users && v in users && u != v ==>
      users[u].phone != users[v].phone && (users[u].email.Some? ==> users[u].email != users[v].email)
  }

  predicate CountsAccurate(d: Directory) {
    forall g :: g in d.memberCounts ==> d.memberCounts[g] == |Members(d.users, g)|
  }

  /** A stored count is the number of members and the drift since the last recount. */
  predicate CountsExplained(d: Directory) {
    && (forall g :: g in d.memberCounts ==> d.memberCounts[g] == |Members(d.users, g)| + Drift(d, g))
    && (forall u :: u in d.users && d.users[u].group.Some? ==> d.users[u].group.value in d.memberCounts)
  }

  predicate Valid(d: Directory) {
    && (forall u :: u in d.users ==> u < d.nextId)
    && (forall c :: c in d.codes ==> d.codes[c] in d.memberCounts)
    && Distinct(d.users)
    && CountsExplained(d)
  }

  lemma PutMembers(users: map<nat, User>, id: nat, user: User, g: nat)
    requires user.group != Some(g) && (id in users ==> users[id].group != Some(g))
    ensures Members(users[id := user], g) == Members(users, g)
  {
  }

  lemma PutDistinct(users: map<nat, User>, id: nat, user: User)
    requires Distinct(users) && !Taken(users, user.email, Some(user.phone), Some(id))
    ensures Distinct(users[id := user])
  {
  }

  lemma CreateKeepsValid(d: Directory, dto: User)
    requires Valid(d)
    ensures Valid(CreateUserStep(d, dto).0)
  {
    hide TrimmedEmail, Members, Distinct, Taken;
    var (d', r) := CreateUserStep(d, dto);
    if r.Done? {
      var user := dto.(email := TrimmedEmail(dto.email));
      assert !Taken(d.users, user.email, Some(user.phone), Some(d.nextId)) by { TakenByNone(d.users, user.email, Some(user.phone), d.nextId); }
      PutDistinct(d.users, d.nextId, user);
      CreateKeepsCounts(d, dto);
      hide CountsExplained;
    }
  }

  lemma CreateKeepsCounts(d: Directory, dto: User)
    requires Valid(d) && CreateUserStep(d, dto).1.Done?
    ensures CountsExplained(CreateUserStep(d, dto).0)
  {
    hide TrimmedEmail, Members, Distinct, Taken;
    var d' := CreateUserStep(d, dto).0;
    var user := dto.(email := TrimmedEmail(dto.email));
    forall g | g in d'.memberCounts ensures d'.memberCounts[g] == |Members(d'.users, g)| + Drift(d', g) {
      if user.group != Some(g) { PutMembers(d.users, d.nextId, user, g); }
    }
  }

  lemma TakenByNone(users: map<nat, User>, email: Option<string>, phone: Option<string>, self: nat)
    requires !Taken(users, email, phone, None)
    ensures !Taken(users, email, phone, Some(self))
  {
  }

  lemma UpdateDistinct(users: map<nat, User>, id: nat, data: UserUpdate)
    requires Distinct(users) && id in users
    requires data.email.Some? || data.phone.Some? ==> !Taken(users, data.email, data.phone, Some(id))
    ensures Distinct(users[id := Updated(users[id], data)])
  {
  }

  predicate CountOk(d: Directory, g: nat) {
    g in d.memberCounts ==> d.memberCounts[g] == |Members(d.users, g)| + Drift(d, g)
  }

  lemma RecountOk(d: Directory, group: nat, g: nat)
    requires group == g || CountOk(d, g)
    ensures CountOk(Recount(d, group), g)
  {
  }

  lemma UpdateKeepsCount(d: Directory, id: nat, data: UserUpdate, g: nat)
    requires Valid(d) && id in d.users
    ensures CountOk(UpdateUserStep(d, id, data).0, g)
  {
    var previous, user := d.users[id].group, Updated(d.users[id], data);
    assert CountOk(d, g);
    hide Members, Taken, Valid;
    var d1 := d.(users := d.users[id := user]);
    if user.group == previous {
      SameGroupMembers(d.users, id, user, g);
    } else if user.group != Some(g) && previous != Some(g) {
      PutMembers(d.users, id, user, g);
    }
    assert (user.group == previous || (user.group != Some(g) && previous != Some(g))) ==> CountOk(d1, g);
    hide CountOk, Recount, Updated;
    var d2 := if !data.group.KeepGroup? && previous.Some? then Recount(d1, previous.value) else d1;
    if previous == Some(g) || CountOk(d1, g) { RecountOk(d1, previous.GetOr(0), g); }
    if data.group.MoveTo? && (data.group.group == g || CountOk(d2, g)) { RecountOk(d2, data.group.group, g); }
  }

  lemma UpdateKeepsGroups(d: Directory, id: nat, data: UserUpdate)
    requires Valid(d) && UpdateUserStep(d, id, data).1.Done?
    ensures var d' := UpdateUserStep(d, id, data).0;
            && d'.users == d.users[id := Updated(d.users[id], data)] && d'.codes == d.codes && d'.nextId == d.nextId
            && d'.memberCounts.Keys == d.memberCounts.Keys
            && (forall u :: u in d'.users && d'.users[u].group.Some? ==> d'.users[u].group.value in d'.memberCounts)
            && !((data.email.Some? || data.phone.Some?) && Taken(d.users, data.email, data.phone, Some(id)))
  {
    hide Members, Distinct, Taken;
  }

  lemma UpdateKeepsValid(d: Directory, id: nat, data: UserUpdate)
    requires Valid(d)
    ensures Valid(UpdateUserStep(d, id, data).0)
  {
    var (d', r) := UpdateUserStep(d, id, data);
    if r.Done? {
      UpdateKeepsGroups(d, id, data);
      hide Members, Distinct, Taken, UpdateUserStep, Drift, Updated;
      UpdateDistinct(d.users, id, data);
      forall g | g in d'.memberCounts ensures d'.memberCounts[g] == |Members(d'.users, g)| + Drift(d', g) {
        UpdateKeepsCount(d, id, data, g);
      }
    }
  }

  lemma SameGroupMembers(users: map<nat, User>, id: nat, user: User, g: nat)
    requires id in users && user.group == users[id].group
    ensures Members(users[id := user], g) == Members(users, g)
  {
  }

  lemma ImportRowKeepsValid(d: Directory, tree: L.Tree, row: Csv.Row)
    requires Valid(d)
    ensures Valid(ImportRow(d, tree, row).0)
  {
    hide Valid, CreateUserStep, Farmer, Column, Phone, L.Resolution;
    var code := Column(row, ["farmer_group_code", "farmer_group", "group_code"]);
    var place := L.Resolution(tree, Column(row, ["county"]), Column(row, ["subcounty", "sub_county"]),
                              Column(row, ["ward"]), Column(row, ["village"]));
    if (code == "" || code in d.codes) && place.Ok? {
      CreateKeepsValid(d, Farmer(row, if code == "" then None else Some(d.codes[code]), place.value));
    }
  }

  lemma {:induction false} ImportKeepsValid(d: Directory, tree: L.Tree, rows: seq<Csv.Row>, k: nat)
    requires Valid(d) && k <= |rows|
    ensures Valid(Imported(d, tree, rows, k).directory)
  {
    hide Valid, ImportRow;
    if k > 0 {
      ImportKeepsValid(d, tree, rows, k - 1);
      ImportRowKeepsValid(Imported(d, tree, rows, k - 1).directory, tree, rows[k - 1]);
    }
  }

  datatype Event =
    | CreateUser(dto: User)
    | UpdateUser(id: nat, data: UserUpdate)
    | DeleteUser(id: nat, related: bool)
    | UpdateProfile(id: nat, change: GroupChange)
    | BulkCreate(tree: L.Tree, rows: seq<Csv.Row>)

  ghost function Step(d: Directory, e: Event): Directory {
    match e
    case CreateUser(dto) => CreateUserStep(d, dto).0
    case UpdateUser(id, data) => UpdateUserStep(d, id, data).0
    case DeleteUser(id, related) => DeleteUserStep(d, id, related).0
    case UpdateProfile(id, change) => UpdateProfileStep(d, id, change).0
    case BulkCreate(tree, rows) => Imported(d, tree, rows, |rows|).directory
  }

  ghost function Run(d: Directory, events: seq<Event>): Directory
    decreases |events|
  {
    if events == [] then d else Run(Step(d, events[0]), events[1..])
  }

  lemma DeleteKeepsValid(d: Directory, id: nat, related: bool)
    requires Valid(d)
    ensures Valid(DeleteUserStep(d, id, related).0)
  {
    hide Members;
    var d' := DeleteUserStep(d, id, related).0;
    if id in d.users {
      forall g | g in d.memberCounts
        ensures |Members(d.users - {id}, g)| == |Members(d.users, g)| - if d.users[id].group == Some(g) then 1 else 0
      {
        RemoveMember(d.users, id, g);
      }
    }
  }

  /** A user's change of group, in the numbers of members. */
  lemma MovedMember(users: map<nat, User>, id: nat, user: User, g: nat)
    requires id in users
    ensures |Members(users[id := user], g)|
            == |Members(users, g)| - (if users[id].group == Some(g) then 1 else 0) + (if user.group == Some(g) then 1 else 0)
  {
    RemoveMember(users, id, g);
    RemoveMember(users[id := user], id, g);
    assert users[id := user] - {id} == users - {id};
  }

  lemma ProfileKeepsValid(d: Directory, id: nat, change: GroupChange)
    requires Valid(d)
    ensures Valid(UpdateProfileStep(d, id, change).0)
  {
    var (d', r) := UpdateProfileStep(d, id, change);
    if r.Done? {
      ProfileWrites(d, id, change, 0);
      SamePhones(d.users, id, d'.users[id]);
      ProfileKeepsCounts(d, id, change);
      hide UpdateProfileStep, Distinct, CountsExplained;
    }
  }

  lemma ProfileKeepsCounts(d: Directory, id: nat, change: GroupChange)
    requires CountsExplained(d) && UpdateProfileStep(d, id, change).1.Done?
    ensures CountsExplained(UpdateProfileStep(d, id, change).0)
  {
    hide Members, Drift, UpdateProfileStep;
    var d' := UpdateProfileStep(d, id, change).0;
    ProfileWrites(d, id, change, 0);
    forall g | g in d'.memberCounts ensures d'.memberCounts[g] == |Members(d'.users, g)| + Drift(d', g) {
      ProfileWrites(d, id, change, g);
      MovedMember(d.users, id, d'.users[id], g);
    }
  }

  /** A profile edit that is not refused writes the user's group and the drift of the groups left and joined. */
  lemma ProfileWrites(d: Directory, id: nat, change: GroupChange, g: nat)
    requires UpdateProfileStep(d, id, change).1.Done?
    ensures var d' := UpdateProfileStep(d, id, change).0;
            && id in d.users && id in d'.users
            && d'.users == d.users[id := d'.users[id]] && d'.users[id] == d.users[id].(group := d'.users[id].group)
            && d'.memberCounts == d.memberCounts && d'.codes == d.codes && d'.nextId == d.nextId
            && d'.users[id].group == GroupAfter(d.users[id].group, change)
            && (change.MoveTo? ==> change.group in d.memberCounts)
            && Drift(d', g) == Drift(d, g) + (if d.users[id].group == Some(g) then 1 else 0)
                               - (if d'.users[id].group == Some(g) then 1 else 0)
  {
  }

  lemma SamePhones(users: map<nat, User>, id: nat, user: User)
    requires Distinct(users) && id in users && user.phone == users[id].phone && user.email == users[id].email
    ensures Distinct(users[id := user])
  {
  }

  /** Over any run of creations, updates (moves between groups included), deletions, profile edits and imports, every
      group's stored count is the number of users in it plus its drift since its last recount, and phones and
      non-null emails stay distinct. */
  lemma {:induction false} RunKeepsValid(d: Directory, events: seq<Event>)
    requires Valid(d)
    ensures Valid(Run(d, events))
    decreases |events|
  {
    if events != [] {
      hide Valid, CreateUserStep, UpdateUserStep, DeleteUserStep, UpdateProfileStep, Imported;
      match events[0] {
        case CreateUser(dto) => CreateKeepsValid(d, dto);
        case UpdateUser(id, data) => UpdateKeepsValid(d, id, data);
        case DeleteUser(id, related) => DeleteKeepsValid(d, id, related);
        case UpdateProfile(id, change) => ProfileKeepsValid(d, id, change);
        case BulkCreate(tree, rows) => ImportKeepsValid(d, tree, rows, |rows|);
      }
      RunKeepsValid(Step(d, events[0]), events[1..]);
    }
  }

  /** The exact condition: counts are accurate when no group has drifted. */
  lemma AccurateIff(d: Directory)
    requires Valid(d)
    ensures CountsAccurate(d) <==> forall g :: g in d.memberCounts ==> Drift(d, g) == 0
  {
    hide Members, Drift, Distinct;
    forall g | g in d.memberCounts ensures d.memberCounts[g] == |Members(d.users, g)| <==> Drift(d, g) == 0 {}
  }

  predicate NoDrift(d: Directory) {
    forall g :: g in d.drift ==> d.drift[g] == 0
  }

  /** The calls that recount what they change. */
  predicate Recounts(e: Event) {
    !e.DeleteUser? && !e.UpdateProfile?
  }

  lemma CreateKeepsNoDrift(d: Directory, dto: User)
    requires NoDrift(d)
    ensures NoDrift(CreateUserStep(d, dto).0)
  {
    hide Members, Taken, TrimmedEmail;
  }

  lemma ImportRowKeepsNoDrift(d: Directory, tree: L.Tree, row: Csv.Row)
    requires NoDrift(d)
    ensures NoDrift(ImportRow(d, tree, row).0)
  {
    hide NoDrift, CreateUserStep, Farmer, Column, Phone, L.Resolution;
    var code := Column(row, ["farmer_group_code", "farmer_group", "group_code"]);
    var place := L.Resolution(tree, Column(row, ["county"]), Column(row, ["subcounty", "sub_county"]),
                              Column(row, ["ward"]), Column(row, ["village"]));
    if (code == "" || code in d.codes) && place.Ok? {
      CreateKeepsNoDrift(d, Farmer(row, if code == "" then None else Some(d.codes[code]), place.value));
    }
  }

  lemma {:induction false} ImportKeepsNoDrift(d: Directory, tree: L.Tree, rows: seq<Csv.Row>, k: nat)
    requires NoDrift(d) && k <= |rows|
    ensures NoDrift(Imported(d, tree, rows, k).directory)
  {
    hide NoDrift, ImportRow;
    if k > 0 {
      ImportKeepsNoDrift(d, tree, rows, k - 1);
      ImportRowKeepsNoDrift(Imported(d, tree, rows, k - 1).directory, tree, rows[k - 1]);
    }
  }

  lemma StepKeepsNoDrift(d: Directory, e: Event)
    requires NoDrift(d) && Recounts(e)
    ensures NoDrift(Step(d, e))
  {
    hide CreateUserStep, Imported, Members, Taken, Updated;
    match e
    case CreateUser(dto) => CreateKeepsNoDrift(d, dto);
    case UpdateUser(_, _) =>
    case BulkCreate(tree, rows) => ImportKeepsNoDrift(d, tree, rows, |rows|);
  }

  lemma {:induction false} RunKeepsNoDrift(d: Directory, events: seq<Event>)
    requires NoDrift(d) && forall e :: e in events ==> Recounts(e)
    ensures NoDrift(Run(d, events))
    decreases |events|
  {
    if events != [] {
      hide Step, NoDrift;
      assert events[0] in events;
      StepKeepsNoDrift(d, events[0]);
      RunKeepsNoDrift(Step(d, events[0]), events[1..]);
    }
  }

  /** Without deletions and profile edits the counts are simply the numbers of members. */
  lemma RecountedRunsAreAccurate(d: Directory, events: seq<Event>)
    requires Valid(d) && NoDrift(d) && forall e :: e in events ==> Recounts(e)
    ensures CountsAccurate(Run(d, events))
  {
    RunKeepsValid(d, events);
    RunKeepsNoDrift(d, events);
    AccurateIff(Run(d, events));
    hide Run, CountsAccurate, Valid;
  }

  /** Deleting a user recounts nothing: accurate counts stay so exactly when the user was in no group. */
  lemma DeleteKeepsCountsIff(d: Directory, id: nat, related: bool)
    requires Valid(d) && CountsAccurate(d) && id in d.users && !related
    ensures CountsAccurate(DeleteUserStep(d, id, related).0) <==> d.users[id].group.None?
  {
    hide Members;
    var d' := DeleteUserStep(d, id, related).0;
    forall g | g in d.memberCounts
      ensures |Members(d'.users, g)| == |Members(d.users, g)| - if d.users[id].group == Some(g) then 1 else 0
    {
      RemoveMember(d.users, id, g);
    }
  }

  /** A group without members, joined by one user who is then deleted: its stored count stays one. */
  lemma DeletionMiscounts(d: Directory, dto: User)
    requires Valid(d) && d.users == map[] && d.memberCounts == map[7 := 0] && d.nextId == 0
    requires dto.email == None && dto.group == Some(7) && dto.center == None && !dto.role.AGGREGATION_MANAGER?
    ensures var after := Run(d, [CreateUser(dto), DeleteUser(0, false)]);
            after.users == map[] && after.memberCounts == map[7 := 1]
  {
    var create, delete := CreateUser(dto), DeleteUser(0, false);
    RunOfTwo(d, create, delete);
    hide Run, Valid, Step;
    var joined := Step(d, create);
    FirstUser(d, dto);
    assert Members(joined.users, 7) == {0};
    assert Step(joined, delete).users == map[] && Step(joined, delete).memberCounts == joined.memberCounts by { OnlyUser(joined); }
  }

  lemma FirstUser(d: Directory, dto: User)
    requires d.users == map[] && d.memberCounts == map[7 := 0] && d.nextId == 0
    requires dto.email == None && dto.group == Some(7) && dto.center == None && !dto.role.AGGREGATION_MANAGER?
    ensures var joined := Step(d, CreateUser(dto));
            joined.users == map[0 := dto] && joined.memberCounts == map[7 := |Members(joined.users, 7)|]
  {
    hide Members;
  }

  /** Editing a profile recounts nothing either: accurate counts stay so exactly when the edit keeps the group. */
  lemma ProfileKeepsCountsIff(d: Directory, id: nat, change: GroupChange)
    requires Valid(d) && CountsAccurate(d) && UpdateProfileStep(d, id, change).1.Done?
    ensures CountsAccurate(UpdateProfileStep(d, id, change).0) <==> GroupAfter(d.users[id].group, change) == d.users[id].group
  {
    hide Members, Distinct;
    var d' := UpdateProfileStep(d, id, change).0;
    var before, after := d.users[id].group, GroupAfter(d.users[id].group, change);
    forall g | g in d.memberCounts
      ensures |Members(d'.users, g)|
              == |Members(d.users, g)| - (if before == Some(g) then 1 else 0) + (if after == Some(g) then 1 else 0)
    {
      MovedMember(d.users, id, d.users[id].(group := after), g);
    }
    if before != after {
      var g := if before.Some? then before.value else after.value;
      assert g in d.memberCounts && d'.memberCounts[g] != |Members(d'.users, g)|;
    }
  }

  /** A user without a group who sets one in a profile edit: the group has a member and counts none. */
  lemma ProfileEditMiscounts(d: Directory, dto: User)
    requires Valid(d) && d.users == map[] && d.memberCounts == map[7 := 0] && d.nextId == 0
    requires dto.email == None && dto.group == None && dto.center == None && !dto.role.AGGREGATION_MANAGER?
    ensures var after := Run(d, [CreateUser(dto), UpdateProfile(0, MoveTo(7))]);
            Members(after.users, 7) == {0} && after.memberCounts == map[7 := 0]
  {
    var create, edit := CreateUser(dto), UpdateProfile(0, MoveTo(7));
    RunOfTwo(d, create, edit);
    hide Run, Valid;
    assert Step(d, create) == d.(users := map[0 := dto], nextId := 1);
  }

  lemma RunOfTwo(d: Directory, a: Event, b: Event)
    ensures Run(d, [a, b]) == Step(Step(d, a), b)
  {
    hide Step;
    assert [a, b][1..] == [b] && [b][1..] == [];
    assert Run(Step(d, a), [b]) == Run(Step(Step(d, a), b), []);
  }

  lemma OnlyUser(d: Directory)
    requires d.users.Keys == {0}
    ensures Step(d, DeleteUser(0, false)).users == map[] && Step(d, DeleteUser(0, false)).memberCounts == d.memberCounts
  {
  }

  lemma RemoveMember(users: map<nat, User>, id: nat, g: nat)
    requires id in users
    ensures |Members(users - {id}, g)| == |Members(users, g)| - if users[id].group == Some(g) then 1 else 0
  {
    if users[id].group == Some(g) {
      assert Members(users, g) == Members(users - {id}, g) + {id};
    } else {
      assert Members(users, g) == Members(users - {id}, g);
    }
  }

  // ---------- what an import reports ----------

  /** The row at `i` (counted from 0) is reported with its number in the file. */
  predicate Reported(errors: seq<RowError>, i: nat) {
    exists e :: 0 <= e < |errors| && errors[e].row == i + 2
  }

  /** Exactly one user was added, with a new id, the row's phone and, if it has one, the row's email. */
  predicate AddedFor(before: Directory, after: Directory, row: Csv.Row) {
    && before.nextId !in before.users
    && before.nextId in after.users
    && after.users == before.users[before.nextId := after.users[before.nextId]]
    && after.users[before.nextId].phone == Phone(row) != ""
    && after.users[before.nextId].email == (var e := Column(row, ["email"]); if e == "" then None else Some(e))
  }

  lemma TrimOnce(s: string)
    ensures Trim(Trim(s)) == Trim(s)
  {
    var _, _ := TrimShape(s);
    TrimFixedIff(Trim(s));
  }

  lemma {:induction false} ColumnTrimmed(row: Csv.Row, names: seq<string>)
    ensures Trim(Column(row, names)) == Column(row, names)
  {
    hide Trim;
    if names == [] {
      TrimFixedIff("");
    } else if names[0] in row {
      TrimOnce(row[names[0]]);
    } else {
      ColumnTrimmed(row, names[1..]);
    }
  }

  lemma ImportRowAddsOrKeeps(d: Directory, tree: L.Tree, row: Csv.Row)
    requires Valid(d)
    ensures var (d', failure) := ImportRow(d, tree, row);
            if failure.Some? then d' == d else AddedFor(d, d', row)
  {
    ColumnTrimmed(row, ["email"]);
    hide Column, Words, Trim, NormalizePhone, CountsAccurate, Distinct, L.Resolution, Members;
    assert d.nextId !in d.users;
  }

  lemma {:induction false} ImportCounts(d: Directory, tree: L.Tree, rows: seq<Csv.Row>, k: nat)
    requires Valid(d) && k <= |rows|
    ensures var r := Imported(d, tree, rows, k);
            && r.created + |r.errors| == k
            && |r.directory.users| == |d.users| + r.created
            && (forall e :: 0 <= e < |r.errors| ==> 2 <= r.errors[e].row <= k + 1)
            && (forall e, f :: 0 <= e < f < |r.errors| ==> r.errors[e].row < r.errors[f].row)
  {
    hide ImportRow, AddedFor, Valid;
    if k > 0 {
      ImportCounts(d, tree, rows, k - 1);
      var before := Imported(d, tree, rows, k - 1).directory;
      ImportKeepsValid(d, tree, rows, k - 1);
      ImportRowAddsOrKeeps(before, tree, rows[k - 1]);
      var (after, failure) := ImportRow(before, tree, rows[k - 1]);
      AddedGrows(before, after, rows[k - 1]);
      assert Imported(d, tree, rows, k).directory == after;
    }
  }

  /** Row `i` is reported exactly when the loop body fails on it. */
  lemma {:induction false} ReportedIff(d: Directory, tree: L.Tree, rows: seq<Csv.Row>, k: nat, i: nat)
    requires Valid(d) && i < k <= |rows|
    ensures Reported(Imported(d, tree, rows, k).errors, i)
            <==> ImportRow(Imported(d, tree, rows, i).directory, tree, rows[i]).1.Some?
  {
    hide ImportRow, Valid;
    var p, r := Imported(d, tree, rows, k - 1), Imported(d, tree, rows, k);
    ImportCounts(d, tree, rows, k - 1);
    var failure := ImportRow(p.directory, tree, rows[k - 1]).1;
    assert r.errors == if failure.Some? then p.errors + [RowError(k + 1, failure.value)] else p.errors;
    if Reported(p.errors, i) {
      var e :| 0 <= e < |p.errors| && p.errors[e].row == i + 2;
      assert r.errors[e].row == i + 2;
    }
    if failure.Some? { assert r.errors[|p.errors|].row == k + 1; }
    assert Reported(r.errors, i) <==> Reported(p.errors, i) || (failure.Some? && i == k - 1);
    if i < k - 1 {
      ReportedIff(d, tree, rows, k - 1, i);
    }
  }

  /** A reported row is reported with the reason for which the loop body failed on it. */
  lemma {:induction false} ReportedReason(d: Directory, tree: L.Tree, rows: seq<Csv.Row>, k: nat, i: nat, e: nat)
    requires Valid(d) && i < k <= |rows|
    requires e < |Imported(d, tree, rows, k).errors| && Imported(d, tree, rows, k).errors[e].row == i + 2
    ensures ImportRow(Imported(d, tree, rows, i).directory, tree, rows[i]).1 == Some(Imported(d, tree, rows, k).errors[e].reason)
  {
    hide ImportRow, Valid;
    var p, r := Imported(d, tree, rows, k - 1), Imported(d, tree, rows, k);
    ImportCounts(d, tree, rows, k - 1);
    var failure := ImportRow(p.directory, tree, rows[k - 1]).1;
    assert r.errors == if failure.Some? then p.errors + [RowError(k + 1, failure.value)] else p.errors;
    if e < |p.errors| {
      assert i < k - 1;
      ReportedReason(d, tree, rows, k - 1, i, e);
    }
  }

  /** After every prefix of the rows: created plus failed is the number of rows read, error rows are
      strictly increasing within 2 and the last row read, and the rows that are not
      reported are exactly those that added a user. */
  lemma ImportPartition(d: Directory, tree: L.Tree, rows: seq<Csv.Row>, k: nat)
    requires Valid(d) && k <= |rows|
    ensures var r := Imported(d, tree, rows, k);
            && r.created + |r.errors| == k
            && |r.directory.users| == |d.users| + r.created
            && (forall e :: 0 <= e < |r.errors| ==> 2 <= r.errors[e].row <= k + 1)
            && (forall e, f :: 0 <= e < f < |r.errors| ==> r.errors[e].row < r.errors[f].row)
            && (forall i: nat :: i < k ==>
                  var before, after := Imported(d, tree, rows, i).directory, Imported(d, tree, rows, i + 1).directory;
                  if Reported(r.errors, i) then after == before else AddedFor(before, after, rows[i]))
  {
    hide Imported, AddedFor, Valid, Reported;
    ImportCounts(d, tree, rows, k);
    forall i: nat | i < k
      ensures var before, after := Imported(d, tree, rows, i).directory, Imported(d, tree, rows, i + 1).directory;
              if Reported(Imported(d, tree, rows, k).errors, i) then after == before else AddedFor(before, after, rows[i])
    {
      OneRow(d, tree, rows, k, i);
    }
  }

  lemma OneRow(d: Directory, tree: L.Tree, rows: seq<Csv.Row>, k: nat, i: nat)
    requires Valid(d) && i < k <= |rows|
    ensures var before, after := Imported(d, tree, rows, i).directory, Imported(d, tree, rows, i + 1).directory;
            if Reported(Imported(d, tree, rows, k).errors, i) then after == before else AddedFor(before, after, rows[i])
  {
    ReportedIff(d, tree, rows, k, i);
    ImportKeepsValid(d, tree, rows, i);
    hide ImportRow, AddedFor, Valid, Reported;
    ImportRowAddsOrKeeps(Imported(d, tree, rows, i).directory, tree, rows[i]);
  }

  lemma AddedGrows(before: Directory, after: Directory, row: Csv.Row)
    ensures AddedFor(before, after, row) ==> |after.users| == |before.users| + 1
  {
    if AddedFor(before, after, row) {
      assert after.users.Keys == before.users.Keys + {before.nextId};
      assert |after.users| == |after.users.Keys| && |before.users| == |before.users.Keys|;
    }
  }

  // ---------- the service ----------

  datatype Report = Report(created: nat, failed: nat, errors: seq<RowError>)

  class UsersService {
    var users: map<nat, User>
    var codes: map<string, nat>
    var memberCounts: map<nat, nat>
    var centers: set<nat>
    var nextId: nat
    ghost var drift: map<nat, int>

    ghost function State(): Directory
      reads this
    {
      Directory(users, codes, memberCounts, centers, nextId, drift)
    }

    method UpdateFarmerGroupMemberCount(group: nat)
      modifies this
      ensures State() == Recount(old(State()), group)
    {
      var count := |Members(users, group)|;
      memberCounts := memberCounts[group := count];
      drift := drift[group := 0];
    }

    method CreateUser(dto: User) returns (r: Outcome)
      modifies this
      ensures (State(), r) == CreateUserStep(old(State()), dto)
    {
      hide TrimmedEmail, Members;
      var email := TrimmedEmail(dto.email);
      if Taken(users, email, Some(dto.phone), None) {
        return Refused(BadRequest);
      }
      if dto.role.AGGREGATION_MANAGER? && dto.center.None? {
        return Refused(BadRequest);
      }
      if dto.group.Some? {
        if dto.group.value !in memberCounts { return Refused(BadRequest); }
      }
      if dto.center.Some? {
        if dto.center.value !in centers { return Refused(BadRequest); }
      }
      users := users[nextId := dto.(email := email)];
      nextId := nextId + 1;
      if dto.group.Some? {
        UpdateFarmerGroupMemberCount(dto.group.value);
      }
      r := Done;
    }

    method UpdateUser(id: nat, data: UserUpdate) returns (r: Outcome)
      modifies this
      ensures (State(), r) == UpdateUserStep(old(State()), id, data)
    {
      hide Members;
      if id !in users { return Refused(NotFound); }
      var user := users[id];
      if data.email.Some? || data.phone.Some? {
        if Taken(users, data.email, data.phone, Some(id)) { return Refused(BadRequest); }
      }
      if data.group.MoveTo? {
        if data.group.group !in memberCounts { return Refused(BadRequest); }
      }
      if data.center.Some? {
        if data.center.value !in centers { return Refused(BadRequest); }
      }
      if !data.localityValid { return Refused(BadRequest); }
      users := users[id := Updated(user, data)];
      if !data.group.KeepGroup? && user.group.Some? {
        UpdateFarmerGroupMemberCount(user.group.value);
      }
      if data.group.MoveTo? {
        UpdateFarmerGroupMemberCount(data.group.group);
      }
      r := Done;
    }

    method DeleteUser(id: nat, related: bool) returns (r: Outcome)
      modifies this
      ensures (State(), r) == DeleteUserStep(old(State()), id, related)
    {
      if id !in users { return Refused(NotFound); }
      if related { return Refused(BadRequest); }
      drift := Shifted(State(), users[id].group, 1).drift;
      users := users - {id};
      r := Done;
    }

    /** The profile update of users and of profiles: a column write. */
    method UpdateProfile(id: nat, change: GroupChange) returns (r: Outcome)
      modifies this
      ensures (State(), r) == UpdateProfileStep(old(State()), id, change)
    {
      if id !in users { return Refused(NotFound); }
      if change.MoveTo? && change.group !in memberCounts { return Refused(ConstraintViolated); }
      var user := users[id];
      var group := GroupAfter(user.group, change);
      drift := Shifted(Shifted(State(), user.group, 1), group, -1).drift;
      users := users[id := user.(group := group)];
      r := Done;
    }

    /** One row of the import, with the exits of the loop body in their order. */
    method CreateFromRow(tree: L.Tree, row: Csv.Row) returns (failure: Option<Reason>)
      requires L.Valid(tree)
      modifies this
      ensures (State(), failure) == ImportRow(old(State()), tree, row)
    {
      hide Column, NormalizePhone, Words, CreateUserStep, L.Resolution, L.Valid;
      var firstCol := Column(row, ["first_name", "firstname"]);
      var lastCol := Column(row, ["last_name", "lastname"]);
      if Column(row, ["name", "full_name"]) == "" && firstCol == "" && lastCol == "" {
        return Some(NameRequired);
      }
      if Phone(row) == "" {
        return Some(PhoneRequired);
      }
      var password := Column(row, ["password", "pwd"]);
      if password != "" && |password| < 8 {
        return Some(PasswordTooShort);
      }
      var code := Column(row, ["farmer_group_code", "farmer_group", "group_code"]);
      var group: Option<nat> := None;
      if code != "" {
        if code !in codes { return Some(GroupNotFound); }
        group := Some(codes[code]);
      }
      var place := L.ResolveLocationFromSlugs(tree, Column(row, ["county"]), Column(row, ["subcounty", "sub_county"]),
                                              Column(row, ["ward"]), Column(row, ["village"]));
      if place.Err? {
        return Some(LocationRefused);
      }
      var r := CreateUser(Farmer(row, group, place.value));
      failure := if r.Done? then None else Some(CreateRefused);
    }

    method BulkCreateFarmers(tree: L.Tree, csvBuffer: string) returns (report: Report)
      requires L.Valid(tree) && Valid(State())
      modifies this
      ensures var rows := Csv.Rows(csvBuffer);
              if rows == [] then
                State() == old(State()) && report == Report(0, 1, [RowError(0, NoRows)])
              else
                var i := Imported(old(State()), tree, rows, |rows|);
                && State() == i.directory
                && report == Report(i.created, |i.errors|, i.errors)
                && report.created + report.failed == |rows|
      ensures Valid(State())
    {
      hide Csv.Rows, ImportRow, Valid, L.Valid;
      var rows := Csv.ParseCsvToRows(csvBuffer);
      var errors: seq<RowError> := [];
      var created := 0;
      if |rows| == 0 {
        return Report(0, 1, [RowError(0, NoRows)]);
      }
      var i := 0;
      while i < |rows|
        invariant 0 <= i <= |rows|
        invariant Import(State(), created, errors) == Imported(old(State()), tree, rows, i)
      {
        var failure := CreateFromRow(tree, rows[i]);
        if failure.Some? {
          errors := errors + [RowError(i + 2, failure.value)];
        } else {
          created := created + 1;
        }
        i := i + 1;
      }
      ImportPartition(old(State()), tree, rows, |rows|);
      ImportKeepsValid(old(State()), tree, rows, |rows|);
      report := Report(created, |errors|, errors);
    }
  }
}
