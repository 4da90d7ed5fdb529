/** The records of the application's relational schema and an in-memory table
    per model the code reads and writes. Each table keeps its rows in the order
    an unordered query returns them and hands out fresh numeric ids. */
module Store {
  import opened Wrappers

  newtype byte = x: int | 0 <= x < 256

  /** Milliseconds in one day; timestamps are milliseconds since the epoch. */
  const DayMs: int := 86_400_000

  /** The UTC calendar day of a timestamp, which is what
      `date.toISOString().split("T")[0]` names. */
  function Day(ms: int): int {
    ms / DayMs
  }

  datatype Navigation = Navigation(
    id: nat,
    title: string,
    url: string,
    shortDescription: Option<string>,
    description: Option<string>,
    icon: Option<string>,
    iconId: Option<nat>,
    visits: int,
    createdAt: int,
    status: string,
    tagIds: seq<nat>)

  /** The fields of a navigation the client supplies when it creates one. */
  datatype NavigationInput = NavigationInput(
    title: string,
    url: string,
    shortDescription: Option<string>,
    description: Option<string>,
    icon: Option<string>,
    visits: int,
    createdAt: int,
    status: string)

  function NewNavigation(id: nat, input: NavigationInput, tagIds: seq<nat>): Navigation {
    Navigation(id, input.title, input.url, input.shortDescription, input.description,
               input.icon, None, input.visits, input.createdAt, input.status, tagIds)
  }

  datatype Tag = Tag(id: nat, name: string)

  datatype Submission = Submission(
    id: nat,
    title: string,
    url: string,
    description: Option<string>,
    status: string,
    createdAt: int)

  datatype User = User(id: nat, email: string, password: string, name: string)

  datatype IconBlob = IconBlob(data: seq<byte>, mimeType: string)

  predicate DistinctIds(rows: seq<Navigation>) {
    forall i, j | 0 <= i < j < |rows| :: rows[i].id != rows[j].id
  }

  /** The ids of the given navigations. */
  function Ids(navs: seq<Navigation>): (r: set<nat>)
    ensures forall i | 0 <= i < |navs| :: navs[i].id in r
    decreases |navs|
  {
    if navs == [] then {} else Ids(navs[..|navs| - 1]) + {navs[|navs| - 1].id}
  }

  /** The position of the navigation with the given id. */
  function FindNavigation(rows: seq<Navigation>, id: nat): (r: Option<nat>)
    ensures r.Some? ==> r.value < |rows| && rows[r.value].id == id
    ensures r.None? ==> forall i | 0 <= i < |rows| :: rows[i].id != id
    decreases |rows|
  {
    if rows == [] then None
    else if rows[|rows| - 1].id == id then Some(|rows| - 1)
    else FindNavigation(rows[..|rows| - 1], id)
  }

  /** The rows satisfying `where`, in table order. */
  function Filter(rows: seq<Navigation>, where: Navigation -> bool): (r: seq<Navigation>)
    ensures |r| <= |rows|
    ensures forall i | 0 <= i < |r| :: where(r[i]) && r[i] in rows
    decreases |rows|
  {
    if rows == [] then []
    else Filter(rows[..|rows| - 1], where) + (if where(rows[|rows| - 1]) then [rows[|rows| - 1]] else [])
  }

  /** `findMany({ where, take })` over an unordered table. */
  function FindMany(rows: seq<Navigation>, where: Navigation -> bool, take: nat): seq<Navigation> {
    var matching := Filter(rows, where);
    if |matching| <= take then matching else matching[..take]
  }

  /** Every row that satisfies the filter is kept. */
  lemma {:induction false} FilterKeepsMatches(rows: seq<Navigation>, where: Navigation -> bool, i: nat)
    requires i < |rows| && where(rows[i])
    ensures rows[i] in Filter(rows, where)
    decreases |rows|
  {
    if i < |rows| - 1 {
      assert rows[..|rows| - 1][i] == rows[i];
      FilterKeepsMatches(rows[..|rows| - 1], where, i);
    }
  }

  /** At most `take` rows are selected, all of them satisfy the filter, and when
      no more than `take` rows qualify every one of them is selected. */
  lemma FindManySelects(rows: seq<Navigation>, where: Navigation -> bool, take: nat)
    ensures |FindMany(rows, where, take)| <= take
    ensures forall i | 0 <= i < |FindMany(rows, where, take)| ::
      where(FindMany(rows, where, take)[i]) && FindMany(rows, where, take)[i] in rows
    ensures |Filter(rows, where)| <= take ==>
      forall i | 0 <= i < |rows| && where(rows[i]) :: rows[i] in FindMany(rows, where, take)
  {
    forall i | 0 <= i < |rows| && where(rows[i]) ensures rows[i] in Filter(rows, where) {
      FilterKeepsMatches(rows, where, i);
    }
  }

  /** The `navigation` table. */
  class NavigationTable {
    var rows: seq<Navigation>
    var nextId: nat

    ghost predicate Valid()
      reads this
    {
      DistinctIds(rows) && forall i | 0 <= i < |rows| :: rows[i].id < nextId
    }

    constructor (initial: seq<Navigation>, next: nat)
      requires DistinctIds(initial) && forall i | 0 <= i < |initial| :: initial[i].id < next
      ensures Valid() && rows == initial && nextId == next
    {
      rows := initial;
      nextId := next;
    }

    /** `prisma.navigation.create`: a new row with a fresh id, one tag link per
        entry of `tagIds`. */
    method Create(input: NavigationInput, tagIds: seq<nat>) returns (nav: Navigation)
      requires Valid()
      modifies this
      ensures Valid()
      ensures nav == NewNavigation(old(nextId), input, tagIds)
      ensures rows == old(rows) + [nav] && nextId == old(nextId) + 1
    {
      nav := NewNavigation(nextId, input, tagIds);
      rows := rows + [nav];
      nextId := nextId + 1;
    }
  }

  /** The `icon` table; an icon's id is its position. Rows are only ever added. */
  class IconStore {
    var blobs: seq<IconBlob>

    constructor ()
      ensures blobs == []
    {
      blobs := [];
    }

    /** `saveIconToDatabase`: creates one icon row and returns its id. */
    method Save(blob: IconBlob) returns (id: nat)
      modifies this
      ensures id == |old(blobs)| && blobs == old(blobs) + [blob]
    {
      id := |blobs|;
      blobs := blobs + [blob];
    }
  }

  predicate UniqueUsers(users: seq<User>) {
    forall i, j | 0 <= i < j < |users| :: users[i].id != users[j].id && users[i].email != users[j].email
  }

  /** `prisma.user.findUnique({ where: { email } })`. */
  function FindUserByEmail(users: seq<User>, email: string): (r: Option<nat>)
    ensures r.Some? ==> r.value < |users| && users[r.value].email == email
    ensures r.None? ==> forall i | 0 <= i < |users| :: users[i].email != email
    decreases |users|
  {
    if users == [] then None
    else if users[|users| - 1].email == email then Some(|users| - 1)
    else FindUserByEmail(users[..|users| - 1], email)
  }

  /** The `user` table; `email` is a unique column. */
  class UserStore {
    var users: seq<User>
    var nextId: nat

    ghost predicate Valid()
      reads this
    {
      UniqueUsers(users) && forall i | 0 <= i < |users| :: users[i].id < nextId
    }

    constructor ()
      ensures Valid() && users == []
    {
      users := [];
      nextId := 0;
    }

    /** `prisma.user.create`; the email must not be taken. */
    method Create(email: string, password: string, name: string) returns (user: User)
      requires Valid() && FindUserByEmail(users, email).None?
      modifies this
      ensures Valid()
      ensures user == User(old(nextId), email, password, name)
      ensures users == old(users) + [user] && nextId == old(nextId) + 1
    {
      user := User(nextId, email, password, name);
      users := users + [user];
      nextId := nextId + 1;
    }

    /** `prisma.user.update` of name and email; no other user may own the
        email. */
    method UpdateProfile(i: nat, name: string, email: string)
      requires Valid() && i < |users|
      requires forall j | 0 <= j < |users| && j != i :: users[j].email != email
      modifies this
      ensures Valid() && nextId == old(nextId)
      ensures users == old(users)[i := old(users)[i].(name := name, email := email)]
    {
      users := users[i := users[i].(name := name, email := email)];
    }

    /** `prisma.user.update` of the password column. */
    method UpdatePassword(i: nat, password: string)
      requires Valid() && i < |users|
      modifies this
      ensures Valid() && nextId == old(nextId)
      ensures users == old(users)[i := old(users)[i].(password := password)]
    {
      users := users[i := users[i].(password := password)];
    }
  }

  /** The `submission` table. */
  class SubmissionTable {
    var rows: seq<Submission>
    var nextId: nat

    constructor ()
      ensures rows == [] && nextId == 0
    {
      rows := [];
      nextId := 0;
    }

    /** `prisma.submission.create`: a new row with a fresh id. */
    method Create(title: string, url: string, description: Option<string>, status: string, createdAt: int)
      returns (submission: Submission)
      modifies this
      ensures submission == Submission(old(nextId), title, url, description, status, createdAt)
      ensures rows == old(rows) + [submission] && nextId == old(nextId) + 1
    {
      submission := Submission(nextId, title, url, description, status, createdAt);
      rows := rows + [submission];
      nextId := nextId + 1;
    }
  }

  predicate UniqueTagNames(tags: seq<Tag>) {
    forall i, j | 0 <= i < j < |tags| :: tags[i].name != tags[j].name && tags[i].id != tags[j].id
  }

  function FindTagByName(tags: seq<Tag>, name: string): (r: Option<nat>)
    ensures r.Some? ==> r.value < |tags| && tags[r.value].name == name
    ensures r.None? ==> forall i | 0 <= i < |tags| :: tags[i].name != name
    decreases |tags|
  {
    if tags == [] then None
    else if tags[|tags| - 1].name == name then Some(|tags| - 1)
    else FindTagByName(tags[..|tags| - 1], name)
  }

  /** The `tag` table; `name` is a unique column. */
  class TagTable {
    var tags: seq<Tag>
    var nextId: nat

    ghost predicate Valid()
      reads this
    {
      UniqueTagNames(tags) && forall i | 0 <= i < |tags| :: tags[i].id < nextId
    }

    constructor (initial: seq<Tag>, next: nat)
      requires UniqueTagNames(initial) && forall i | 0 <= i < |initial| :: initial[i].id < next
      ensures Valid() && tags == initial && nextId == next
    {
      tags := initial;
      nextId := next;
    }

    /** `prisma.tag.upsert({ where: { name }, update: {}, create: { name } })`:
        the existing tag of that name, or a new one. */
    method Upsert(name: string) returns (tag: Tag)
      requires Valid()
      modifies this
      ensures Valid() && tag.name == name
      ensures FindTagByName(old(tags), name).Some? ==>
        tags == old(tags) && nextId == old(nextId) && tag == old(tags)[FindTagByName(old(tags), name).value]
      ensures FindTagByName(old(tags), name).None? ==>
        tag == Tag(old(nextId), name) && tags == old(tags) + [tag] && nextId == old(nextId) + 1
    {
      var found := FindTagByName(tags, name);
      if found.Some? {
        tag := tags[found.value];
      } else {
        tag := Tag(nextId, name);
        tags := tags + [tag];
        nextId := nextId + 1;
      }
    }
  }
}
