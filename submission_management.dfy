/** The administrator's review screen for submissions: the status tab, the
    list request it sends, the approve/reject dialog and what a reply does.
    Replies to requests are parameters. */
module SubmissionManagement {
  import opened Wrappers
  import opened Strings
  import opened Store

  datatype ReviewAction = Approve | Reject

  datatype Toast = NoToast | ToastError(title: string, description: string)

  /** The reply to the list request: its rows when ok, nothing otherwise. */
  datatype ListAnswer = ListOk(data: seq<Submission>) | ListNotOk | ListThrew

  datatype PatchAnswer = PatchOk | PatchNotOk(error: Option<string>) | PatchThrew

  /** The status the list request filters by: none for the `all` tab. */
  function StatusFilter(selectedStatus: string): (r: Option<string>)
    ensures r.None? <==> selectedStatus == "all"
    ensures r.Some? ==> r.value == selectedStatus
  {
    if selectedStatus == "all" then None else Some(selectedStatus)
  }

  /** `status ? "?status=" + status : ""`. */
  function StatusQuery(status: Option<string>): (q: string)
    ensures Truthy(status) ==> q == "?status=" + status.value
    ensures !Truthy(status) ==> q == ""
  {
    if Truthy(status) then "?status=" + status.value else ""
  }

  function ListUrl(selectedStatus: string): string {
    "/api/submissions" + StatusQuery(StatusFilter(selectedStatus))
  }

  /** The `all` tab (and an empty one) requests the whole list; every other
      tab requests its own status. */
  lemma ListUrlMeaning(selectedStatus: string)
    ensures selectedStatus == "all" || selectedStatus == "" ==> ListUrl(selectedStatus) == "/api/submissions"
    ensures selectedStatus != "all" && selectedStatus != "" ==>
      ListUrl(selectedStatus) == "/api/submissions?status=" + selectedStatus
  {
  }

  /** The status a review action writes. */
  function ActionStatus(action: ReviewAction): (s: string)
    ensures s == "approved" <==> action == Approve
    ensures s == "rejected" <==> action == Reject
  {
    match action
    case Approve => assert "approved"[0] != "rejected"[0]; "approved"
    case Reject => assert "rejected"[0] != "approved"[0]; "rejected"
  }

  /** The approve and reject buttons are shown for pending submissions only. */
  predicate ShowsReviewControls(submission: Submission) {
    submission.status == "pending"
  }

  class SubmissionManagement {
    var submissions: seq<Submission>
    var loading: bool
    var selectedStatus: string
    var reviewDialogOpen: bool
    var selectedSubmission: Option<Submission>
    var reviewAction: Option<ReviewAction>
    var toast: Toast
    /** The list URLs requested so far. */
    var requested: seq<string>
    /** The `(id, status)` reviews sent so far. */
    var reviews: seq<(nat, string)>

    constructor ()
      ensures submissions == [] && loading && selectedStatus == "pending"
      ensures !reviewDialogOpen && selectedSubmission.None? && reviewAction.None?
      ensures toast == NoToast && requested == [] && reviews == []
    {
      submissions := [];
      loading := true;
      selectedStatus := "pending";
      reviewDialogOpen := false;
      selectedSubmission := None;
      reviewAction := None;
      toast := NoToast;
      requested := [];
      reviews := [];
    }

    /** `fetchSubmissions`: the list is replaced only by an ok reply; loading
        ends whatever happens. */
    method FetchSubmissions(status: Option<string>, answer: ListAnswer)
      modifies this
      ensures requested == old(requested) + ["/api/submissions" + StatusQuery(status)]
      ensures answer.ListOk? ==> submissions == answer.data
      ensures !answer.ListOk? ==> submissions == old(submissions)
      ensures !loading
      ensures selectedStatus == old(selectedStatus) && reviewDialogOpen == old(reviewDialogOpen)
      ensures selectedSubmission == old(selectedSubmission) && reviewAction == old(reviewAction)
      ensures toast == old(toast) && reviews == old(reviews)
    {
      loading := true;
      requested := requested + ["/api/submissions" + StatusQuery(status)];
      if answer.ListOk? {
        submissions := answer.data;
      }
      loading := false;
    }

    /** A tab change, followed by the effect that reloads the list. */
    method SelectStatus(status: string, answer: ListAnswer)
      modifies this
      ensures selectedStatus == status
      ensures requested == old(requested) + [ListUrl(status)]
      ensures answer.ListOk? ==> submissions == answer.data
      ensures !answer.ListOk? ==> submissions == old(submissions)
      ensures !loading && reviewDialogOpen == old(reviewDialogOpen)
      ensures selectedSubmission == old(selectedSubmission) && reviewAction == old(reviewAction)
      ensures toast == old(toast) && reviews == old(reviews)
    {
      selectedStatus := status;
      FetchSubmissions(StatusFilter(selectedStatus), answer);
    }

    method HandleReview(submission: Submission, action: ReviewAction)
      modifies this
      ensures selectedSubmission == Some(submission) && reviewAction == Some(action) && reviewDialogOpen
      ensures submissions == old(submissions) && loading == old(loading) && selectedStatus == old(selectedStatus)
      ensures toast == old(toast) && requested == old(requested) && reviews == old(reviews)
    {
      selectedSubmission := Some(submission);
      reviewAction := Some(action);
      reviewDialogOpen := true;
    }

    /** `confirmReview`: nothing without a selection and an action; otherwise
        the review is sent, and an ok reply clears the dialog state and reloads
        the list while a failure keeps it and shows an error. */
    method ConfirmReview(answer: PatchAnswer, reload: ListAnswer)
      modifies this
      ensures selectedStatus == old(selectedStatus)
      ensures old(selectedSubmission).None? || old(reviewAction).None? ==>
        reviews == old(reviews) && requested == old(requested) && submissions == old(submissions) &&
        loading == old(loading) && reviewDialogOpen == old(reviewDialogOpen) &&
        selectedSubmission == old(selectedSubmission) && reviewAction == old(reviewAction) && toast == old(toast)
      ensures old(selectedSubmission).Some? && old(reviewAction).Some? ==>
        reviews == old(reviews) + [(old(selectedSubmission).value.id, ActionStatus(old(reviewAction).value))]
      ensures old(selectedSubmission).Some? && old(reviewAction).Some? && answer == PatchOk ==>
        !reviewDialogOpen && selectedSubmission.None? && reviewAction.None? && toast == old(toast) &&
        requested == old(requested) + [ListUrl(old(selectedStatus))] && !loading &&
        (reload.ListOk? ==> submissions == reload.data) && (!reload.ListOk? ==> submissions == old(submissions))
      ensures old(selectedSubmission).Some? && old(reviewAction).Some? && answer != PatchOk ==>
        reviewDialogOpen == old(reviewDialogOpen) && selectedSubmission == old(selectedSubmission) &&
        reviewAction == old(reviewAction) && requested == old(requested) && submissions == old(submissions) &&
        loading == old(loading) &&
        toast == ToastError("操作失败", if answer.PatchThrew? then "操作失败，请稍后重试"
                                        else if Truthy(answer.error) then answer.error.value else "操作失败")
    {
      if selectedSubmission.None? || reviewAction.None? {
        return;
      }
      reviews := reviews + [(selectedSubmission.value.id, ActionStatus(reviewAction.value))];
      match answer {
        case PatchOk =>
          reviewDialogOpen := false;
          selectedSubmission := None;
          reviewAction := None;
          FetchSubmissions(StatusFilter(selectedStatus), reload);
        case PatchNotOk(error) =>
          toast := ToastError("操作失败", if Truthy(error) then error.value else "操作失败");
        case PatchThrew =>
          toast := ToastError("操作失败", "操作失败，请稍后重试");
      }
    }
  }
}
