/** The approvals page: the list of admin requests with its search and status
    filter, the pending counter, and the approve and reject handlers. Approval is
    two separate writes (grant the role, then mark the request), rejection is one;
    whether each write succeeds is a parameter. */
module Approvals {
  import opened Common
  import opened Strings
  import opened Schema
  import Auth

  datatype DialogType = ApproveDialog | RejectDialog

  /** How a review handler ended: it returned at once (nothing selected or nobody signed in),
      a write failed, or every write succeeded. */
  datatype ReviewOutcome = NotStarted | Failed | Done

  /** The list filter: the query occurs in the name or the e-mail (ignoring case), and the
      status filter is "all" or the request's status. */
  predicate MatchesRequest(r: AdminRequest, query: string, statusFilter: string) {
    (ContainsIgnoreCase(r.fullName, query) || ContainsIgnoreCase(r.email, query)) &&
    (statusFilter == "all" || RequestStatusName(r.status) == statusFilter)
  }

  /** `filteredRequests`. */
  function FilteredRequests(requests: seq<AdminRequest>, query: string, statusFilter: string)
    : (r: seq<AdminRequest>)
    ensures forall x :: x in r <==> x in requests && MatchesRequest(x, query, statusFilter)
  {
    Filter(requests, (x: AdminRequest) => MatchesRequest(x, query, statusFilter))
  }

  /** The filtered list keeps the order of the fetched list. */
  lemma FilteredRequestsKeepOrder(requests: seq<AdminRequest>, query: string, statusFilter: string)
    ensures Subsequence(FilteredRequests(requests, query, statusFilter), requests)
  {
    FilterIsSubsequence(requests, (x: AdminRequest) => MatchesRequest(x, query, statusFilter));
  }

  /** An empty query with the "all" filter shows every request. */
  lemma UnfilteredShowsAll(requests: seq<AdminRequest>)
    ensures FilteredRequests(requests, "", "all") == requests
  {
    forall i | 0 <= i < |requests| ensures MatchesRequest(requests[i], "", "all") {
      EmptyQueryMatches(requests[i].fullName);
    }
    FilterKeepsAll(requests, (x: AdminRequest) => MatchesRequest(x, "", "all"));
  }

  /** The number of requests in a given state. */
  function StatusCount(requests: seq<AdminRequest>, st: RequestStatus): nat {
    Count(requests, (x: AdminRequest) => x.status == st)
  }

  /** `pendingCount`. */
  function PendingCount(requests: seq<AdminRequest>): nat {
    StatusCount(requests, Pending)
  }

  /** Every request is counted under exactly one of the three states. */
  lemma {:induction false} StatusCountsAddUp(requests: seq<AdminRequest>)
    ensures PendingCount(requests) + StatusCount(requests, Approved) + StatusCount(requests, Rejected)
            == |requests|
    decreases |requests|
  {
    if requests != [] {
      StatusCountsAddUp(requests[1..]);
    }
  }

  /** The Approve and Reject buttons are shown on pending rows only. */
  predicate ActionsOffered(r: AdminRequest) {
    r.status == Pending
  }

  /** The update written by a successful approval. */
  function ApprovedRow(r: AdminRequest, reviewer: string, at: string): AdminRequest {
    r.(status := Approved, reviewedBy := Some(reviewer), reviewedAt := Some(at))
  }

  /** The update written by a successful rejection. */
  function RejectedRow(r: AdminRequest, reviewer: string, at: string, reason: string): AdminRequest {
    r.(status := Rejected, reviewedBy := Some(reviewer), reviewedAt := Some(at),
       rejectionReason := TextOrNull(reason))
  }

  /** `update(approval).eq("id", id)` on the table: the rows with that id are marked approved
      by the reviewer, every other row is left as it was. */
  function ApprovedIn(table: seq<AdminRequest>, id: string, reviewer: string, at: string)
    : (r: seq<AdminRequest>)
    ensures |r| == |table|
    ensures forall i :: 0 <= i < |table| && table[i].id != id ==> r[i] == table[i]
    ensures forall i :: 0 <= i < |table| && table[i].id == id ==>
              r[i] == table[i].(status := Approved, reviewedBy := Some(reviewer), reviewedAt := Some(at))
  {
    MapWhere(table, (x: AdminRequest) => x.id == id, (x: AdminRequest) => ApprovedRow(x, reviewer, at))
  }

  /** `update(rejection).eq("id", id)` on the table: the rows with that id are marked rejected
      by the reviewer with the reason (or null), every other row is left as it was. */
  function RejectedIn(table: seq<AdminRequest>, id: string, reviewer: string, at: string, reason: string)
    : (r: seq<AdminRequest>)
    ensures |r| == |table|
    ensures forall i :: 0 <= i < |table| && table[i].id != id ==> r[i] == table[i]
    ensures forall i :: 0 <= i < |table| && table[i].id == id ==>
              r[i] == table[i].(status := Rejected, reviewedBy := Some(reviewer), reviewedAt := Some(at),
                                rejectionReason := TextOrNull(reason))
  {
    MapWhere(table, (x: AdminRequest) => x.id == id,
             (x: AdminRequest) => RejectedRow(x, reviewer, at, reason))
  }

  /** Approving the one pending request with a given id lowers the pending count by exactly one. */
  lemma {:induction false} ApprovalLowersPendingCount(table: seq<AdminRequest>, id: string,
                                                      reviewer: string, at: string, k: nat)
    requires k < |table| && table[k].id == id && table[k].status == Pending
    requires forall i :: 0 <= i < |table| && i != k ==> table[i].id != id
    ensures PendingCount(ApprovedIn(table, id, reviewer, at)) == PendingCount(table) - 1
    decreases |table|
  {
    var r := ApprovedIn(table, id, reviewer, at);
    if k == 0 {
      assert r[1..] == table[1..];
    } else {
      assert r[1..] == ApprovedIn(table[1..], id, reviewer, at);
      ApprovalLowersPendingCount(table[1..], id, reviewer, at, k - 1);
    }
  }

  /** The role row written by an approval. */
  function AdminGrant(uid: string): UserRole {
    UserRole(uid, "admin")
  }

  /** A user with no "admin" row who is approved is reported as an admin afterwards. */
  lemma ApprovalGrantsAdmin(roles: seq<UserRole>, uid: string)
    requires AdminGrant(uid) !in roles
    ensures Auth.FetchIsAdmin(roles + [AdminGrant(uid)], uid, false)
  {
    FilterAppend(roles, [AdminGrant(uid)], Auth.IsAdminGrantOf(uid));
    assert forall i :: 0 <= i < |roles| ==> roles[i] != AdminGrant(uid);
    FilterKeepsNone(roles, Auth.IsAdminGrantOf(uid));
  }

  /** Approval does not check for an existing grant: approving an admin's request a second time
      adds a second "admin" row, after which the single-row lookup fails and the user is
      reported as not admin. */
  lemma RepeatedApprovalRevokesAdmin(roles: seq<UserRole>, uid: string)
    requires Auth.FetchIsAdmin(roles, uid, false)
    ensures !Auth.FetchIsAdmin(roles + [AdminGrant(uid)], uid, false)
  {
    FilterAppend(roles, [AdminGrant(uid)], Auth.IsAdminGrantOf(uid));
  }

  class ApprovalsPage {
    /** The fetched list, newest first. */
    var requests: seq<AdminRequest>
    var isLoading: bool
    var searchQuery: string
    var statusFilter: string
    var selected: Option<AdminRequest>
    var rejectReason: string
    var isProcessing: bool
    var dialog: Option<DialogType>
    /** The backend's `admin_requests` table, in `created_at` descending order. */
    var requestTable: seq<AdminRequest>
    /** The backend's `user_roles` table. */
    var roleTable: seq<UserRole>

    constructor (requestTable: seq<AdminRequest>, roleTable: seq<UserRole>)
      ensures this.requestTable == requestTable && this.roleTable == roleTable
      ensures requests == [] && isLoading && searchQuery == "" && statusFilter == "all"
      ensures selected.None? && rejectReason == "" && !isProcessing && dialog.None?
    {
      this.requestTable, this.roleTable := requestTable, roleTable;
      requests, isLoading, searchQuery, statusFilter := [], true, "", "all";
      selected, rejectReason, isProcessing, dialog := None, "", false, None;
    }

    /** `fetchRequests`: on success the list becomes the table; loading ends either way. */
    method FetchRequests(ok: bool)
      modifies this
      ensures requests == if ok then requestTable else old(requests)
      ensures !isLoading
      ensures requestTable == old(requestTable) && roleTable == old(roleTable)
      ensures selected == old(selected) && dialog == old(dialog) && rejectReason == old(rejectReason)
      ensures isProcessing == old(isProcessing)
      ensures searchQuery == old(searchQuery) && statusFilter == old(statusFilter)
    {
      if ok {
        requests := requestTable;
      }
      isLoading := false;
    }

    /** Clicking Approve or Reject on a row, which only pending rows offer. */
    method OpenDialog(r: AdminRequest, kind: DialogType)
      requires ActionsOffered(r)
      modifies this`selected, this`dialog
      ensures selected == Some(r) && dialog == Some(kind)
    {
      selected := Some(r);
      dialog := Some(kind);
    }

    /** The dialog's Cancel button: it closes the dialog and leaves the selection in place. */
    method CancelDialog()
      modifies this`dialog
      ensures dialog.None?
    {
      dialog := None;
    }

    /** `handleApprove` for the signed-in `reviewer`: first the role row, then, only if that
        write succeeded, the request update. Nothing checks the request's status or existing roles. */
    method Approve(reviewer: Option<Auth.User>, roleInsertOk: bool, updateOk: bool, now: string)
      returns (outcome: ReviewOutcome)
      modifies this
      ensures old(selected).None? || reviewer.None? ==>
        outcome == NotStarted && roleTable == old(roleTable) && requestTable == old(requestTable) &&
        selected == old(selected) && dialog == old(dialog) && isProcessing == old(isProcessing)
      ensures old(selected).Some? && reviewer.Some? ==>
        var sel := old(selected).value;
        && roleTable == (if roleInsertOk then old(roleTable) + [AdminGrant(sel.userId)] else old(roleTable))
        && requestTable == (if roleInsertOk && updateOk
                            then ApprovedIn(old(requestTable), sel.id, reviewer.value.id, now)
                            else old(requestTable))
        && outcome == (if roleInsertOk && updateOk then Done else Failed)
        && (outcome == Done ==> selected.None? && dialog.None?)
        && (outcome == Failed ==> selected == old(selected) && dialog == old(dialog))
        && !isProcessing
      ensures requests == old(requests) && rejectReason == old(rejectReason) && isLoading == old(isLoading)
      ensures searchQuery == old(searchQuery) && statusFilter == old(statusFilter)
    {
      if selected.None? || reviewer.None? {
        return NotStarted;
      }
      var sel := selected.value;
      isProcessing := true;
      outcome := Failed;
      if roleInsertOk {
        roleTable := roleTable + [AdminGrant(sel.userId)];
        if updateOk {
          requestTable := ApprovedIn(requestTable, sel.id, reviewer.value.id, now);
          dialog := None;
          selected := None;
          outcome := Done;
        }
      }
      isProcessing := false;
    }

    /** `handleReject` for the signed-in `reviewer`: one update carrying the reason, or null
        for an empty reason. The reason field is cleared only after a successful write. */
    method Reject(reviewer: Option<Auth.User>, updateOk: bool, now: string)
      returns (outcome: ReviewOutcome)
      modifies this
      ensures roleTable == old(roleTable)
      ensures old(selected).None? || reviewer.None? ==>
        outcome == NotStarted && requestTable == old(requestTable) &&
        selected == old(selected) && dialog == old(dialog) && rejectReason == old(rejectReason) &&
        isProcessing == old(isProcessing)
      ensures old(selected).Some? && reviewer.Some? ==>
        var sel := old(selected).value;
        && requestTable == (if updateOk
                            then RejectedIn(old(requestTable), sel.id, reviewer.value.id, now, old(rejectReason))
                            else old(requestTable))
        && outcome == (if updateOk then Done else Failed)
        && (outcome == Done ==> selected.None? && dialog.None? && rejectReason == "")
        && (outcome == Failed ==> selected == old(selected) && dialog == old(dialog) &&
                                  rejectReason == old(rejectReason))
        && !isProcessing
      ensures requests == old(requests) && isLoading == old(isLoading)
      ensures searchQuery == old(searchQuery) && statusFilter == old(statusFilter)
    {
      if selected.None? || reviewer.None? {
        return NotStarted;
      }
      var sel := selected.value;
      isProcessing := true;
      if updateOk {
        requestTable := RejectedIn(requestTable, sel.id, reviewer.value.id, now, rejectReason);
        dialog := None;
        selected := None;
        rejectReason := "";
        outcome := Done;
      } else {
        outcome := Failed;
      }
      isProcessing := false;
    }
  }

  /** The approval scenario end to end: a pending request of user `uid` selected from the list and
      approved by a signed-in reviewer with both writes succeeding leaves an "admin" row for `uid`
      and the request approved by that reviewer; a failed role write leaves both tables as they were. */
  method ApproveScenario(table: seq<AdminRequest>, roles: seq<UserRole>, k: nat,
                         reviewer: Auth.User, roleInsertOk: bool, updateOk: bool, now: string)
    returns (page: ApprovalsPage, outcome: ReviewOutcome)
    requires k < |table| && ActionsOffered(table[k])
    ensures |page.requestTable| == |table|
    ensures roleInsertOk && updateOk ==>
      outcome == Done && AdminGrant(table[k].userId) in page.roleTable &&
      page.requestTable[k].status == Approved && page.requestTable[k].reviewedBy == Some(reviewer.id)
    ensures !roleInsertOk ==>
      outcome == Failed && page.roleTable == roles && page.requestTable == table
    ensures roleInsertOk && !updateOk ==>
      outcome == Failed && page.requestTable == table && page.requestTable[k].status == Pending
  {
    page := new ApprovalsPage(table, roles);
    page.FetchRequests(true);
    page.OpenDialog(table[k], ApproveDialog);
    outcome := page.Approve(Some(reviewer), roleInsertOk, updateOk, now);
  }
}
