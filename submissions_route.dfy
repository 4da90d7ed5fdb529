/** `POST /api/submissions` (a visitor proposes a site) and
    `GET /api/submissions` (the administrator lists proposals). `now` is the
    creation time the database assigns. */
module SubmissionsRoute {
  import opened Wrappers
  import opened Strings
  import opened Store
  import opened Sorting

  const Pending := "pending"

  datatype CreateReply = CreateBadRequest(error: string) | SubmissionCreated(submission: Submission)

  datatype ListReply = ListUnauthorized | SubmissionList(submissions: seq<Submission>)

  /** `description || null`. */
  function DescriptionOrNull(description: Option<string>): (r: Option<string>)
    ensures r.Some? <==> Truthy(description)
    ensures r.Some? ==> r == description
  {
    if Truthy(description) then description else None
  }

  method Post(table: SubmissionTable, title: Option<string>, url: Option<string>, description: Option<string>, now: int)
    returns (reply: CreateReply)
    modifies table
    ensures (!Truthy(title) || !Truthy(url)) ==>
      reply == CreateBadRequest("标题和URL是必填项") && table.rows == old(table.rows) && table.nextId == old(table.nextId)
    ensures Truthy(title) && Truthy(url) ==>
      reply.SubmissionCreated? &&
      reply.submission == Submission(old(table.nextId), title.value, url.value, DescriptionOrNull(description), Pending, now) &&
      table.rows == old(table.rows) + [reply.submission]
  {
    if !Truthy(title) || !Truthy(url) {
      return CreateBadRequest("标题和URL是必填项");
    }
    var submission := table.Create(title.value, url.value, DescriptionOrNull(description), Pending, now);
    return SubmissionCreated(submission);
  }

  /** The submissions whose status is exactly `status`, in table order. */
  function WithStatus(rows: seq<Submission>, status: string): (r: seq<Submission>)
    ensures |r| <= |rows|
    ensures forall i | 0 <= i < |r| :: r[i].status == status && r[i] in rows
    decreases |rows|
  {
    if rows == [] then []
    else WithStatus(rows[..|rows| - 1], status) + (if rows[|rows| - 1].status == status then [rows[|rows| - 1]] else [])
  }

  lemma {:induction false} WithStatusComplete(rows: seq<Submission>, status: string, i: nat)
    requires i < |rows| && rows[i].status == status
    ensures rows[i] in WithStatus(rows, status)
    decreases |rows|
  {
    if i < |rows| - 1 {
      WithStatusComplete(rows[..|rows| - 1], status, i);
    }
  }

  function CreatedAtKey(s: Submission): int {
    s.createdAt
  }

  /** `where.status` is set only when the parameter is truthy. */
  method BuildWhere(status: Option<string>) returns (where: Option<string>)
    ensures where.Some? <==> Truthy(status)
    ensures where.Some? ==> where == status
  {
    where := None;
    if Truthy(status) {
      where := status;
    }
  }

  function Selected(rows: seq<Submission>, where: Option<string>): seq<Submission> {
    if where.Some? then WithStatus(rows, where.value) else rows
  }

  method Get(session: bool, rows: seq<Submission>, status: Option<string>) returns (reply: ListReply)
    ensures !session ==> reply == ListUnauthorized
    ensures session ==>
      reply.SubmissionList? &&
      SortedDesc(reply.submissions, CreatedAtKey) &&
      multiset(reply.submissions) == multiset(Selected(rows, if Truthy(status) then status else None))
  {
    if !session {
      return ListUnauthorized;
    }
    var where := BuildWhere(status);
    var submissions := SortDesc(Selected(rows, where), CreatedAtKey);
    SortDescSorted(Selected(rows, where), CreatedAtKey);
    SortDescPermutes(Selected(rows, where), CreatedAtKey);
    return SubmissionList(submissions);
  }

  /** A status parameter lists exactly the submissions with that status; no
      parameter lists them all. */
  lemma ListMeaning(rows: seq<Submission>, status: Option<string>, s: Submission)
    ensures var listed := SortDesc(Selected(rows, if Truthy(status) then status else None), CreatedAtKey);
      (Truthy(status) ==> (s in listed <==> s in rows && s.status == status.value)) &&
      (!Truthy(status) ==> (s in listed <==> s in rows))
  {
    var selected := Selected(rows, if Truthy(status) then status else None);
    SortDescPermutes(selected, CreatedAtKey);
    assert s in SortDesc(selected, CreatedAtKey) <==> s in multiset(SortDesc(selected, CreatedAtKey));
    if Truthy(status) && s in rows && s.status == status.value {
      var i :| 0 <= i < |rows| && rows[i] == s;
      WithStatusComplete(rows, status.value, i);
    }
  }
}
