/**
  The approval_requests table as the engines use it: rows are appended in order of creation, each
  for one subject (a workflow step or a tool call), and the newest row of a subject is the one that
  counts.
 */
module Approvals {
  import opened Base
  import Rows

  datatype ApprovalRow<+K> = ApprovalRow(key: K, status: Rows.ApprovalStatus)

  /** `order_by("-created_at").first()` of the rows of one subject. */
  function LatestApproval<K(==)>(rows: seq<ApprovalRow<K>>, key: K): Option<Rows.ApprovalStatus> {
    if rows == [] then None
    else if rows[|rows| - 1].key == key then Some(rows[|rows| - 1].status)
    else LatestApproval(rows[..|rows| - 1], key)
  }

  /** No approval row stands in the way: there is none, or it is approved. */
  predicate Clear(approval: Option<Rows.ApprovalStatus>) {
    approval.None? || approval.value == Rows.Approved
  }

  predicate TurnedDown(approval: Option<Rows.ApprovalStatus>) {
    approval.Some? && (approval.value == Rows.Denied || approval.value == Rows.Expired)
  }

  ghost predicate OneRowEach<K>(rows: seq<ApprovalRow<K>>) {
    forall q, r :: 0 <= q < r < |rows| ==> rows[q].key != rows[r].key
  }

  lemma {:induction false} LatestApprovalOf<K>(rows: seq<ApprovalRow<K>>, r: nat)
    requires r < |rows| && OneRowEach(rows)
    ensures LatestApproval(rows, rows[r].key) == Some(rows[r].status)
  {
    if r < |rows| - 1 {
      LatestApprovalOf(rows[..|rows| - 1], r);
    }
  }

  lemma {:induction false} LatestApprovalNone<K>(rows: seq<ApprovalRow<K>>, key: K)
    ensures LatestApproval(rows, key).None? <==> forall r :: 0 <= r < |rows| ==> rows[r].key != key
  {
    if rows != [] {
      LatestApprovalNone(rows[..|rows| - 1], key);
      assert forall r :: 0 <= r < |rows| - 1 ==> rows[..|rows| - 1][r] == rows[r];
    }
  }

  lemma LatestApprovalAppend<K>(rows: seq<ApprovalRow<K>>, row: ApprovalRow<K>, key: K)
    ensures LatestApproval(rows + [row], key) == if row.key == key then Some(row.status) else LatestApproval(rows, key)
  {
    assert (rows + [row])[..|rows|] == rows;
  }

  lemma {:induction false} LatestApprovalUpdate<K>(rows: seq<ApprovalRow<K>>, r: nat,
                                                  status: Rows.ApprovalStatus, key: K)
    requires r < |rows| && OneRowEach(rows)
    ensures LatestApproval(rows[r := rows[r].(status := status)], key) ==
            if rows[r].key == key then Some(status) else LatestApproval(rows, key)
  {
    var rows' := rows[r := rows[r].(status := status)];
    if r == |rows| - 1 {
      assert rows'[..|rows| - 1] == rows[..|rows| - 1];
    } else {
      LatestApprovalUpdate(rows[..|rows| - 1], r, status, key);
      assert rows'[..|rows| - 1] == rows[..|rows| - 1][r := rows[r].(status := status)];
    }
  }

  /** The row that counts. */
  lemma {:induction false} LatestApprovalRow<K>(rows: seq<ApprovalRow<K>>, key: K, status: Rows.ApprovalStatus)
      returns (r: nat)
    requires LatestApproval(rows, key) == Some(status)
    ensures r < |rows| && rows[r] == ApprovalRow(key, status)
  {
    if rows[|rows| - 1].key == key {
      r := |rows| - 1;
    } else {
      r := LatestApprovalRow(rows[..|rows| - 1], key, status);
    }
  }
}
