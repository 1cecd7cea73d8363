/**
 * The project handlers' decision logic: the create and update schemas,
 * manager defaulting, pagination and filtering of the list, and the order in
 * which 400 and 404 answers win. The `projects` table is a value ordered
 * newest first, which is the order `orderBy: { createdAt: "desc" }` lists it in.
 */
module ProjectController {
  import opened Wrappers
  import opened Api
  import opened Schema
  import opened Seqs
  import opened AuthMiddleware
  import opened ParseInt
  import AuthController

  const ProjectTypes: seq<string> := ["SOLAR", "WIND", "HYDRO", "BATTERY_STORAGE", "HYBRID"]
  const ProjectStatuses: seq<string> := ["PLANNING", "IN_PROGRESS", "ON_HOLD", "COMPLETED", "CANCELLED"]

  datatype Project = Project(
    id: string, name: string, description: Option<string>, projectType: string, status: string,
    location: string, capacity: Option<real>, budget: Option<real>,
    startDate: string, endDate: Option<string>, managerId: string)

  type ProjectTable = seq<Project>

  predicate HasId(table: ProjectTable, id: string)
  {
    exists i :: 0 <= i < |table| && table[i].id == id
  }

  predicate UniqueIds(table: ProjectTable)
  {
    forall i, j :: 0 <= i < j < |table| ==> table[i].id != table[j].id
  }

  /** `prisma.project.findUnique({ where: { id } })`. */
  function Find(table: ProjectTable, id: string): (r: Option<Project>)
    ensures r.Some? <==> HasId(table, id)
    ensures r.Some? ==> r.value in table && r.value.id == id
    decreases |table|
  {
    if |table| == 0 then None
    else if table[0].id == id then Some(table[0])
    else
      var r := Find(table[1..], id);
      assert forall i :: 1 <= i < |table| ==> table[i] == table[1..][i - 1];
      assert HasId(table[1..], id) ==> HasId(table, id);
      r
  }

  /** A user with this id exists, whatever its role. */
  predicate UserExists(users: AuthController.UserTable, id: string)
  {
    exists e | e in users :: users[e].id == id
  }

  const ProjectNotFound := "Project not found"

  // ---------------------------------------------------------------- create

  datatype CreateBody = CreateBody(
    name: Option<string>, description: Option<string>, projectType: Option<string>, location: Option<string>,
    capacity: Option<real>, budget: Option<real>, startDate: Option<string>, endDate: Option<string>,
    managerId: Option<string>)

  const NameTooShort := "Project name must be at least 2 characters"
  const LocationTooShort := "Location must be at least 2 characters"
  const NotPositive := "Number must be greater than 0"

  /** The message of the first key of `createProjectSchema` that fails, in key order. */
  function FirstCreateIssue(b: CreateBody, isDatetime: string -> bool): string
  {
    if !(b.name.Some? && |b.name.value| >= 2) then KeyIssue(b.name, NameTooShort)
    else if b.projectType.None? then Required
    else if b.projectType.value !in ProjectTypes then EnumMessage(ProjectTypes, b.projectType.value)
    else if !(b.location.Some? && |b.location.value| >= 2) then KeyIssue(b.location, LocationTooShort)
    else if b.capacity.Some? && b.capacity.value <= 0.0 then NotPositive
    else if b.budget.Some? && b.budget.value <= 0.0 then NotPositive
    else if !(b.startDate.Some? && isDatetime(b.startDate.value)) then KeyIssue(b.startDate, "Invalid start date format")
    else "Invalid end date format"
  }

  /** The issues of `createProjectSchema`, in key order; `isDatetime` is Zod's ISO datetime check. */
  function CreateIssues(b: CreateBody, isDatetime: string -> bool): (issues: seq<string>)
    ensures |issues| <= 7
    ensures issues != [] ==> issues[0] == FirstCreateIssue(b, isDatetime)
  {
    CreateTextIssues(b, isDatetime) + CreateValueIssues(b, isDatetime)
  }

  /** The issues of the first three keys: name, type, location. */
  function CreateTextIssues(b: CreateBody, isDatetime: string -> bool): (issues: seq<string>)
    ensures |issues| <= 3
    ensures issues == [] <==> && b.name.Some? && |b.name.value| >= 2
                              && b.projectType.Some? && b.projectType.value in ProjectTypes
                              && b.location.Some? && |b.location.value| >= 2
    ensures issues != [] ==> issues[0] == FirstCreateIssue(b, isDatetime)
  {
    RequiredString(b.name, s => AtLeast(s, 2), NameTooShort)
      + EnumIssue(b.projectType, ProjectTypes, false)
      + RequiredString(b.location, s => AtLeast(s, 2), LocationTooShort)
  }

  /** The issues of the last four keys: capacity, budget and the two dates. */
  function CreateValueIssues(b: CreateBody, isDatetime: string -> bool): (issues: seq<string>)
    ensures |issues| <= 4
    ensures issues == [] <==> && (b.capacity.None? || b.capacity.value > 0.0)
                              && (b.budget.None? || b.budget.value > 0.0)
                              && b.startDate.Some? && isDatetime(b.startDate.value)
                              && (b.endDate.None? || isDatetime(b.endDate.value))
    ensures issues != [] && CreateTextIssues(b, isDatetime) == [] ==> issues[0] == FirstCreateIssue(b, isDatetime)
  {
    OptionalPositive(b.capacity)
      + OptionalPositive(b.budget)
      + RequiredString(b.startDate, isDatetime, "Invalid start date format")
      + OptionalString(b.endDate, isDatetime, "Invalid end date format")
  }

  predicate ValidCreate(b: CreateBody, isDatetime: string -> bool)
  {
    && b.name.Some? && |b.name.value| >= 2
    && b.projectType.Some? && b.projectType.value in ProjectTypes
    && b.location.Some? && |b.location.value| >= 2
    && (b.capacity.None? || b.capacity.value > 0.0)
    && (b.budget.None? || b.budget.value > 0.0)
    && b.startDate.Some? && isDatetime(b.startDate.value)
    && (b.endDate.None? || isDatetime(b.endDate.value))
  }

  lemma CreateIssuesEmptyIff(b: CreateBody, isDatetime: string -> bool)
    ensures CreateIssues(b, isDatetime) == [] <==> ValidCreate(b, isDatetime)
  {
  }

  /** `validatedData.managerId || userId`: an absent or empty manager id means the caller. */
  function ManagerFor(b: CreateBody, caller: Claims): (m: string)
    ensures m == caller.userId || b.managerId == Some(m)
    ensures b.managerId.Some? && b.managerId.value != "" ==> m == b.managerId.value
    ensures m == "" ==> caller.userId == ""
  {
    if b.managerId.Some? && b.managerId.value != "" then b.managerId.value else caller.userId
  }

  /**
   * `createProject`: validate, default the manager, check that the manager
   * exists, insert. `newId` and `initialStatus` are what the database assigns.
   */
  function CreateProject(
    b: CreateBody, caller: Claims, users: AuthController.UserTable, table: ProjectTable,
    newId: string, initialStatus: string, isDatetime: string -> bool): (out: (Reply<Project>, ProjectTable))
    ensures out.0.Success? <==> ValidCreate(b, isDatetime) && UserExists(users, ManagerFor(b, caller))
    ensures out.0.Failure? ==> out.0.status == 400 && out.1 == table
    ensures !ValidCreate(b, isDatetime) ==> out.0.error == CreateIssues(b, isDatetime)[0]
    ensures ValidCreate(b, isDatetime) && !UserExists(users, ManagerFor(b, caller)) ==>
              out.0.error == "Invalid manager ID"
    ensures out.0.Success? ==>
              var p := out.0.data;
              && out.0.status == 201
              && out.1 == [p] + table
              && p.id == newId && p.status == initialStatus
              && p.name == b.name.value && p.projectType == b.projectType.value
              && p.location == b.location.value && p.description == b.description
              && p.capacity == b.capacity && p.budget == b.budget
              && p.startDate == b.startDate.value && p.endDate == b.endDate
              && p.managerId == ManagerFor(b, caller)
  {
    var issues := CreateIssues(b, isDatetime);
    CreateIssuesEmptyIff(b, isDatetime);
    if |issues| > 0 then (Failure(400, issues[0]), table)
    else
      var managerId := ManagerFor(b, caller);
      if !UserExists(users, managerId) then (Failure(400, "Invalid manager ID"), table)
      else
        var p := Project(newId, b.name.value, b.description, b.projectType.value, initialStatus,
                         b.location.value, b.capacity, b.budget, b.startDate.value, b.endDate, managerId);
        (Success(201, p), [p] + table)
  }

  /** Without a manager id (or with an empty one) the caller becomes the manager, if the caller's account still exists. */
  lemma CreateDefaultsManagerToCaller(
    b: CreateBody, caller: Claims, users: AuthController.UserTable, table: ProjectTable,
    newId: string, initialStatus: string, isDatetime: string -> bool)
    requires b.managerId in {None, Some("")}
    requires ValidCreate(b, isDatetime) && UserExists(users, caller.userId)
    ensures CreateProject(b, caller, users, table, newId, initialStatus, isDatetime).0.Success?
    ensures CreateProject(b, caller, users, table, newId, initialStatus, isDatetime).0.data.managerId == caller.userId
  {
  }

  /** The manager check is existence only: any user, a viewer included, may be named manager. */
  lemma CreateAcceptsAnyRoleAsManager(
    b: CreateBody, caller: Claims, users: AuthController.UserTable, table: ProjectTable,
    newId: string, initialStatus: string, isDatetime: string -> bool, e: string)
    requires ValidCreate(b, isDatetime)
    requires e in users && b.managerId == Some(users[e].id) && users[e].id != ""
    ensures CreateProject(b, caller, users, table, newId, initialStatus, isDatetime).0.Success?
  {
  }

  /** A fresh id keeps the table's ids unique. */
  lemma CreateKeepsIdsUnique(
    b: CreateBody, caller: Claims, users: AuthController.UserTable, table: ProjectTable,
    newId: string, initialStatus: string, isDatetime: string -> bool)
    requires UniqueIds(table) && !HasId(table, newId)
    ensures UniqueIds(CreateProject(b, caller, users, table, newId, initialStatus, isDatetime).1)
  {
    var out := CreateProject(b, caller, users, table, newId, initialStatus, isDatetime);
    if out.0.Success? {
      PrependKeepsUnique(out.0.data, table);
    }
  }

  /** A row whose id the table lacks can go in front without repeating an id. */
  lemma PrependKeepsUnique(p: Project, table: ProjectTable)
    requires UniqueIds(table) && !HasId(table, p.id)
    ensures UniqueIds([p] + table)
  {
    var t := [p] + table;
    forall i, j | 0 <= i < j < |t| ensures t[i].id != t[j].id {
      assert t[j] == table[j - 1];
      if i > 0 {
        assert t[i] == table[i - 1];
      }
    }
  }

  // ---------------------------------------------------------------- list

  datatype ListQuery = ListQuery(
    page: Option<string>, limit: Option<string>, status: Option<string>, projectType: Option<string>)

  /** The `where` object: a key is present only when its query value is a non-empty string. */
  datatype Where = Where(status: Option<string>, projectType: Option<string>)

  datatype ProjectList = ProjectList(projects: seq<Project>, total: int, page: int, limit: int)

  function WhereOf(q: ListQuery): (w: Where)
    ensures w.status.Some? <==> q.status.Some? && q.status.value != ""
    ensures w.status.Some? ==> w.status == q.status
    ensures w.projectType.Some? <==> q.projectType.Some? && q.projectType.value != ""
    ensures w.projectType.Some? ==> w.projectType == q.projectType
  {
    Where(if q.status == Some("") then None else q.status,
          if q.projectType == Some("") then None else q.projectType)
  }

  predicate Selects(w: Where, p: Project)
  {
    && (w.status.None? || p.status == w.status.value)
    && (w.projectType.None? || p.projectType == w.projectType.value)
  }

  /** The rows the filter selects, in table order. */
  function Matching(table: ProjectTable, w: Where): (rows: seq<Project>)
    ensures IsSubsequence(rows, table)
    ensures forall x :: x in rows <==> x in table && Selects(w, x)
  {
    Filter(table, p => Selects(w, p))
  }

  /** The store refuses a filter value outside the column's enum. */
  predicate WhereAccepted(w: Where)
  {
    && (w.status.None? || w.status.value in ProjectStatuses)
    && (w.projectType.None? || w.projectType.value in ProjectTypes)
  }

  function Min(a: int, b: int): int { if a <= b then a else b }
  function Max(a: int, b: int): int { if a <= b then b else a }

  /** `page` is what skipping `skip` rows and taking up to `take` of `rows` leaves, for a `take` that is not negative. */
  predicate IsWindow(rows: seq<Project>, skip: nat, take: int, page: seq<Project>)
  {
    take >= 0 ==> page == rows[Min(skip, |rows|)..Min(skip + take, |rows|)]
  }

  /**
   * `findMany({ skip, take })` over rows already filtered and ordered:
   * skip the first `skip` rows and return up to `take`. A negative `take`
   * reads backwards from the end, skipping `skip` rows there.
   */
  function Window(rows: seq<Project>, skip: nat, take: int): (r: seq<Project>)
    ensures IsWindow(rows, skip, take, r)
    ensures |r| <= |rows|
  {
    if take >= 0 then rows[Min(skip, |rows|)..Min(skip + take, |rows|)]
    else
      var hi := Max(|rows| - skip, 0);
      rows[Max(hi + take, 0)..hi]
  }

  const FetchFailed := "An error occurred while fetching projects"

  /** The row offset of a page: `(page - 1) * limit`. */
  function Offset(page: int, limit: int): int
  {
    (page - 1) * limit
  }

  /** `getProjects`: defaults, offset arithmetic, optional filters, one page and the filtered count. */
  function ListProjects(q: ListQuery, table: ProjectTable): (r: Reply<ProjectList>)
    ensures r.Success? ==>
              && r.status == 200
              && r.data.page == NumberOr(q.page, 1)
              && r.data.limit == NumberOr(q.limit, 10)
              && Offset(r.data.page, r.data.limit) >= 0
              && r.data.total == |Matching(table, WhereOf(q))|
              && IsSubsequence(r.data.projects, table)
              && (forall p :: p in r.data.projects ==> Selects(WhereOf(q), p))
    ensures r.Success? ==>
              IsWindow(Matching(table, WhereOf(q)), Offset(r.data.page, r.data.limit), r.data.limit, r.data.projects)
    ensures r.Failure? <==> !WhereAccepted(WhereOf(q)) || Offset(NumberOr(q.page, 1), NumberOr(q.limit, 10)) < 0
    ensures r.Failure? ==> r == Failure(500, FetchFailed)
  {
    var page := NumberOr(q.page, 1);
    var limit := NumberOr(q.limit, 10);
    var skip := Offset(page, limit);
    if !WhereAccepted(WhereOf(q)) || skip < 0 then Failure(500, FetchFailed)
    else Success(200, PageOf(table, WhereOf(q), skip, page, limit))
  }

  /** One page of the rows `w` selects, with the count of all of them. */
  function PageOf(table: ProjectTable, w: Where, skip: nat, page: int, limit: int): (l: ProjectList)
    ensures l.page == page && l.limit == limit
    ensures l.total == |Matching(table, w)|
    ensures IsSubsequence(l.projects, table)
    ensures forall p :: p in l.projects ==> Selects(w, p)
    ensures IsWindow(Matching(table, w), skip, limit, l.projects)
  {
    var rows := Matching(table, w);
    var pageRows := Window(rows, skip, limit);
    WindowIsSubsequence(rows, skip, limit);
    SubsequenceTransitive(pageRows, rows, table);
    SubsequenceMembers(pageRows, rows);
    ProjectList(pageRows, |rows|, page, limit)
  }

  lemma WindowIsSubsequence(rows: seq<Project>, skip: nat, take: int)
    ensures IsSubsequence(Window(rows, skip, take), rows)
  {
    var w := Window(rows, skip, take);
    var lo, hi :| 0 <= lo <= hi <= |rows| && w == rows[lo..hi];
    SliceIsSubsequence(rows, lo, hi);
  }

  /** With no paging parameters the first ten matching projects are returned. */
  lemma ListDefaults(table: ProjectTable)
    ensures var r := ListProjects(ListQuery(None, None, None, None), table);
            && r.Success? && r.data.page == 1 && r.data.limit == 10
            && r.data.projects == table[..Min(10, |table|)]
            && r.data.total == |table|
  {
    FilterAll(table, p => Selects(Where(None, None), p));
    assert Matching(table, Where(None, None)) == table;
  }

  /** Page `p` of size `l` is rows `(p-1)*l` up to `p*l` of the filtered table. */
  lemma ListWindow(table: ProjectTable, q: ListQuery, p: nat, l: nat)
    requires p >= 1 && l >= 1
    requires NumberOr(q.page, 1) == p && NumberOr(q.limit, 10) == l
    requires WhereAccepted(WhereOf(q))
    ensures var rows := Matching(table, WhereOf(q));
            var r := ListProjects(q, table);
            && r.Success?
            && r.data.page == p && r.data.limit == l
            && r.data.projects == rows[Min((p - 1) * l, |rows|)..Min(p * l, |rows|)]
  {
    OffsetOfPage(p, l);
    var w := WhereOf(q);
    var rows := Matching(table, w);
    var skip: nat := (p - 1) * l;
    assert ListProjects(q, table) == Success(200, PageOf(table, w, skip, p, l));
    PageWindow(rows, skip, p, l);
  }

  /** With `skip` the offset of page `p`, the window is rows `(p-1)*l` up to `p*l`. */
  lemma PageWindow(rows: seq<Project>, skip: nat, p: nat, l: nat)
    requires p >= 1 && skip == (p - 1) * l
    ensures Window(rows, skip, l) == rows[Min((p - 1) * l, |rows|)..Min(p * l, |rows|)]
  {
    OffsetOfPage(p, l);
  }

  /** The same, for page and limit sent as decimal strings. */
  lemma ListPage(table: ProjectTable, p: nat, l: nat, status: Option<string>, projectType: Option<string>)
    requires p >= 1 && l >= 1
    requires WhereAccepted(WhereOf(ListQuery(None, None, status, projectType)))
    ensures var q := ListQuery(Some(Decimal(p)), Some(Decimal(l)), status, projectType);
            var rows := Matching(table, WhereOf(q));
            var r := ListProjects(q, table);
            && r.Success?
            && r.data.page == p && r.data.limit == l
            && r.data.projects == rows[Min((p - 1) * l, |rows|)..Min(p * l, |rows|)]
  {
    var q := ListQuery(Some(Decimal(p)), Some(Decimal(l)), status, projectType);
    NumberOrDecimal(p, 1);
    NumberOrDecimal(l, 10);
    assert WhereOf(q) == WhereOf(ListQuery(None, None, status, projectType));
    ListWindow(table, q, p, l);
  }

  lemma OffsetOfPage(p: nat, l: nat)
    requires p >= 1
    ensures 0 <= Offset(p, l) == (p - 1) * l && Offset(p, l) + l == p * l
  {
  }

  // ---------------------------------------------------------------- get

  /** `getProject`: 404 for an unknown id, the record otherwise. */
  function GetProject(id: string, table: ProjectTable): (r: Reply<Project>)
    ensures r.Success? <==> HasId(table, id)
    ensures r.Success? ==> r.status == 200 && r.data in table && r.data.id == id
    ensures r.Failure? ==> r == Failure(404, ProjectNotFound)
  {
    match Find(table, id)
    case None => Failure(404, ProjectNotFound)
    case Some(p) => Success(200, p)
  }

  // ---------------------------------------------------------------- update

  datatype UpdateBody = UpdateBody(
    name: Option<string>, description: Option<string>, projectType: Option<string>, status: Option<string>,
    location: Option<string>, capacity: Option<real>, budget: Option<real>,
    startDate: Option<string>, endDate: Option<string>, managerId: Option<string>)

  const TooShort := "String must contain at least 2 character(s)"

  /** What `updateProjectSchema` accepts: each key may be absent, and a present one must pass its check. */
  predicate ValidUpdate(b: UpdateBody, isDatetime: string -> bool)
  {
    && (b.name.None? || |b.name.value| >= 2)
    && (b.projectType.None? || b.projectType.value in ProjectTypes)
    && (b.status.None? || b.status.value in ProjectStatuses)
    && (b.location.None? || |b.location.value| >= 2)
    && (b.capacity.None? || b.capacity.value > 0.0)
    && (b.budget.None? || b.budget.value > 0.0)
    && (b.startDate.None? || isDatetime(b.startDate.value))
    && (b.endDate.None? || isDatetime(b.endDate.value))
  }

  /** The message of the first present key of `updateProjectSchema` that fails, in key order. */
  function FirstUpdateIssue(b: UpdateBody, isDatetime: string -> bool): string
  {
    if b.name.Some? && |b.name.value| < 2 then TooShort
    else if b.projectType.Some? && b.projectType.value !in ProjectTypes then EnumMessage(ProjectTypes, b.projectType.value)
    else if b.status.Some? && b.status.value !in ProjectStatuses then EnumMessage(ProjectStatuses, b.status.value)
    else if b.location.Some? && |b.location.value| < 2 then TooShort
    else if b.capacity.Some? && b.capacity.value <= 0.0 then NotPositive
    else if b.budget.Some? && b.budget.value <= 0.0 then NotPositive
    else "Invalid datetime"
  }

  /** The issues of `updateProjectSchema`: every key optional, Zod's default messages. */
  function UpdateIssues(b: UpdateBody, isDatetime: string -> bool): (issues: seq<string>)
    ensures |issues| <= 8
    ensures issues != [] ==> issues[0] == FirstUpdateIssue(b, isDatetime)
  {
    UpdateTextIssues(b, isDatetime) + UpdateValueIssues(b, isDatetime)
  }

  /** The issues of the first four keys: name, type, status, location. */
  function UpdateTextIssues(b: UpdateBody, isDatetime: string -> bool): (issues: seq<string>)
    ensures |issues| <= 4
    ensures issues == [] <==> && (b.name.None? || |b.name.value| >= 2)
                              && (b.projectType.None? || b.projectType.value in ProjectTypes)
                              && (b.status.None? || b.status.value in ProjectStatuses)
                              && (b.location.None? || |b.location.value| >= 2)
    ensures issues != [] ==> issues[0] == FirstUpdateIssue(b, isDatetime)
  {
    OptionalString(b.name, s => AtLeast(s, 2), TooShort)
      + EnumIssue(b.projectType, ProjectTypes, true)
      + EnumIssue(b.status, ProjectStatuses, true)
      + OptionalString(b.location, s => AtLeast(s, 2), TooShort)
  }

  /** The issues of the last four keys: capacity, budget and the two dates. */
  function UpdateValueIssues(b: UpdateBody, isDatetime: string -> bool): (issues: seq<string>)
    ensures |issues| <= 4
    ensures issues == [] <==> && (b.capacity.None? || b.capacity.value > 0.0)
                              && (b.budget.None? || b.budget.value > 0.0)
                              && (b.startDate.None? || isDatetime(b.startDate.value))
                              && (b.endDate.None? || isDatetime(b.endDate.value))
    ensures issues != [] && UpdateTextIssues(b, isDatetime) == [] ==> issues[0] == FirstUpdateIssue(b, isDatetime)
  {
    OptionalPositive(b.capacity)
      + OptionalPositive(b.budget)
      + OptionalString(b.startDate, isDatetime, "Invalid datetime")
      + OptionalString(b.endDate, isDatetime, "Invalid datetime")
  }

  lemma UpdateIssuesEmptyIff(b: UpdateBody, isDatetime: string -> bool)
    ensures UpdateIssues(b, isDatetime) == [] <==> ValidUpdate(b, isDatetime)
  {
  }

  /** A key of an update body: absent keeps the stored value, present replaces it. */
  function Pick<T>(key: Option<T>, stored: T): (v: T)
    ensures key.None? ==> v == stored
    ensures key.Some? ==> v == key.value
  {
    if key.Some? then key.value else stored
  }

  /** A nullable column written from an optional key: absent keeps the stored value. */
  function PickNullable<T>(key: Option<T>, stored: Option<T>): (v: Option<T>)
    ensures key.None? ==> v == stored
    ensures key.Some? ==> v == key
  {
    if key.Some? then key else stored
  }

  /** The record with every supplied key of the body written over it; the id never changes. */
  function ApplyUpdate(p: Project, b: UpdateBody): (q: Project)
    ensures q.id == p.id
    ensures q.name == Pick(b.name, p.name) && q.description == PickNullable(b.description, p.description)
    ensures q.projectType == Pick(b.projectType, p.projectType) && q.status == Pick(b.status, p.status)
    ensures q.location == Pick(b.location, p.location)
    ensures q.capacity == PickNullable(b.capacity, p.capacity) && q.budget == PickNullable(b.budget, p.budget)
    ensures q.startDate == Pick(b.startDate, p.startDate) && q.endDate == PickNullable(b.endDate, p.endDate)
    ensures q.managerId == Pick(b.managerId, p.managerId)
  {
    p.(name := Pick(b.name, p.name),
       description := PickNullable(b.description, p.description),
       projectType := Pick(b.projectType, p.projectType),
       status := Pick(b.status, p.status),
       location := Pick(b.location, p.location),
       capacity := PickNullable(b.capacity, p.capacity),
       budget := PickNullable(b.budget, p.budget),
       startDate := Pick(b.startDate, p.startDate),
       endDate := PickNullable(b.endDate, p.endDate),
       managerId := Pick(b.managerId, p.managerId))
  }

  /** An empty update body leaves the record as it was. */
  lemma EmptyUpdateIsIdentity(p: Project)
    ensures ApplyUpdate(p, UpdateBody(None, None, None, None, None, None, None, None, None, None)) == p
  {
  }

  /** Applying the same body twice is the same as applying it once. */
  lemma UpdateIdempotent(p: Project, b: UpdateBody)
    ensures ApplyUpdate(ApplyUpdate(p, b), b) == ApplyUpdate(p, b)
  {
  }

  /** Every row with the id gets the update; the others stay as they are, in place. */
  function ReplaceById(table: ProjectTable, id: string, b: UpdateBody): (t: ProjectTable)
    ensures |t| == |table|
    ensures forall i :: 0 <= i < |table| ==>
              t[i] == if table[i].id == id then ApplyUpdate(table[i], b) else table[i]
    ensures forall i :: 0 <= i < |table| ==> t[i].id == table[i].id
  {
    seq(|table|, i requires 0 <= i < |table| => if table[i].id == id then ApplyUpdate(table[i], b) else table[i])
  }

  /** `updateProject`: validate the body, then look the id up, then write only the supplied keys. */
  function UpdateProject(id: string, b: UpdateBody, table: ProjectTable, isDatetime: string -> bool)
    : (out: (Reply<Project>, ProjectTable))
    requires UniqueIds(table)
    ensures out.0.Success? <==> |UpdateIssues(b, isDatetime)| == 0 && HasId(table, id)
    ensures |UpdateIssues(b, isDatetime)| > 0 ==> out == (Failure(400, UpdateIssues(b, isDatetime)[0]), table)
    ensures |UpdateIssues(b, isDatetime)| == 0 && !HasId(table, id) ==> out == (Failure(404, ProjectNotFound), table)
    ensures out.0.Success? ==>
              && out.0.status == 200
              && out.0.data == ApplyUpdate(Find(table, id).value, b)
              && out.1 == ReplaceById(table, id, b)
              && UniqueIds(out.1)
  {
    var issues := UpdateIssues(b, isDatetime);
    if |issues| > 0 then (Failure(400, issues[0]), table)
    else
      match Find(table, id)
      case None => (Failure(404, ProjectNotFound), table)
      case Some(p) =>
        (Success(200, ApplyUpdate(p, b)), ReplaceById(table, id, b))
  }

  /** After a successful update, reading the id gives back exactly the record the update answered with. */
  lemma UpdateThenGet(id: string, b: UpdateBody, table: ProjectTable, isDatetime: string -> bool)
    requires UniqueIds(table)
    requires UpdateProject(id, b, table, isDatetime).0.Success?
    ensures var (reply, after) := UpdateProject(id, b, table, isDatetime);
            GetProject(id, after) == Success(200, reply.data)
  {
    var (reply, after) := UpdateProject(id, b, table, isDatetime);
    var stored := Find(table, id).value;
    var k :| 0 <= k < |table| && table[k] == stored;
    assert after[k] == ApplyUpdate(stored, b);
    var got := Find(after, id).value;
    var j :| 0 <= j < |after| && after[j] == got;
    assert table[j].id == id;
    assert j == k;
  }

  /** An update touches its own row only: every other id reads back as before. */
  lemma UpdateLeavesOthers(id: string, other: string, b: UpdateBody, table: ProjectTable, isDatetime: string -> bool)
    requires UniqueIds(table)
    requires other != id
    ensures GetProject(other, UpdateProject(id, b, table, isDatetime).1) == GetProject(other, table)
  {
    var after := UpdateProject(id, b, table, isDatetime).1;
    if after != table {
      FindUnchanged(table, after, id, b, other);
    }
  }

  /** Away from the updated id, `ReplaceById` leaves every lookup alone. */
  lemma FindUnchanged(table: ProjectTable, after: ProjectTable, id: string, b: UpdateBody, other: string)
    requires after == ReplaceById(table, id, b)
    requires other != id
    ensures Find(after, other) == Find(table, other)
  {
    FindAgrees(table, after, other);
  }

  /** Two tables with the same ids, row by row, that agree on every row with id `other`, find the same row for it. */
  lemma {:induction false} FindAgrees(table: ProjectTable, after: ProjectTable, other: string)
    requires |after| == |table|
    requires forall i :: 0 <= i < |table| ==> after[i].id == table[i].id
    requires forall i :: 0 <= i < |table| && table[i].id == other ==> after[i] == table[i]
    ensures Find(after, other) == Find(table, other)
    decreases |table|
  {
    if |table| > 0 && table[0].id != other {
      assert after[0].id == table[0].id;
      var t, a := table[1..], after[1..];
      forall i | 0 <= i < |t|
        ensures a[i].id == t[i].id
        ensures t[i].id == other ==> a[i] == t[i]
      {
        assert t[i] == table[i + 1] && a[i] == after[i + 1];
      }
      FindAgrees(t, a, other);
    }
  }

  // ---------------------------------------------------------------- delete

  /** `deleteProject`: 404 for an unknown id; otherwise the row goes and the rest keep their order. */
  function DeleteProject(id: string, table: ProjectTable): (out: (Reply<string>, ProjectTable))
    ensures out.0.Success? <==> HasId(table, id)
    ensures out.0.Failure? ==> out == (Failure(404, ProjectNotFound), table)
    ensures out.0.Success? ==>
              && out.0 == Success(200, "Project deleted successfully")
              && !HasId(out.1, id)
              && |out.1| < |table|
              && IsSubsequence(out.1, table)
              && forall p :: p in table && p.id != id ==> p in out.1
  {
    match Find(table, id)
    case None => (Failure(404, ProjectNotFound), table)
    case Some(p) =>
      var rest := Filter(table, (x: Project) => x.id != id);
      assert forall i :: 0 <= i < |rest| ==> rest[i] in rest;
      FilterShrinks(table, (x: Project) => x.id != id, p);
      (Success(200, "Project deleted successfully"), rest)
  }

  /** Once deleted, the id reads as not found. */
  lemma DeleteThenGet(id: string, table: ProjectTable)
    requires HasId(table, id)
    ensures GetProject(id, DeleteProject(id, table).1) == Failure(404, ProjectNotFound)
  {
  }

  /** A created project is read back by its new id: the newest row is found first. */
  lemma CreateThenGet(
    b: CreateBody, caller: Claims, users: AuthController.UserTable, table: ProjectTable,
    newId: string, initialStatus: string, isDatetime: string -> bool)
    requires CreateProject(b, caller, users, table, newId, initialStatus, isDatetime).0.Success?
    ensures var (reply, after) := CreateProject(b, caller, users, table, newId, initialStatus, isDatetime);
            GetProject(newId, after) == Success(200, reply.data)
  {
  }
}
