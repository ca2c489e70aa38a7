/** The admin's table of equipment requests (src/admin/Equipment.jsx): the
    three-way status taken from the server's decision flag, accept and reject
    as local updates, the search and status filter, and the counters. */
module AdminEquipment {
  import opened Common

  /** `isAcceptedByAdmin`: absent, or present with its truth value (a `null`
      counts as present and false, as the code's `=== undefined` test does). */
  datatype Decision = Undecided | Decided(accepted: bool)

  /** A request as the server sends it, reduced to the fields the table uses. */
  datatype RawRequest = RawRequest(id: string, fullname: string, mobileNumber: string,
                                   equipmentname: string, isAcceptedByAdmin: Decision)

  /** A table row. */
  datatype Row = Row(id: string, student: string, mobileNo: string, item: string,
                     status: string, action: string)

  const Accepted: string := "Accepted"
  const Rejected: string := "Rejected"
  const ActionPending: string := "Action Pending"

  function StatusOf(d: Decision): (s: string)
    ensures s == "" <==> d == Undecided
    ensures s == Accepted <==> d == Decided(true)
    ensures s == Rejected <==> d == Decided(false)
  {
    match d
    case Undecided => ""
    case Decided(a) => if a then Accepted else Rejected
  }

  function ActionOf(d: Decision): (a: string)
    ensures a == ActionPending <==> d == Undecided
    ensures a == "" <==> d.Decided?
  {
    if d == Undecided then ActionPending else ""
  }

  /** A row the table can hold: pending with its actions offered, or decided
      with none. */
  predicate WellFormed(row: Row)
  {
    || (row.status == "" && row.action == ActionPending)
    || (row.status == Accepted && row.action == "")
    || (row.status == Rejected && row.action == "")
  }

  predicate AllWellFormed(rows: seq<Row>)
  {
    forall i :: 0 <= i < |rows| ==> WellFormed(rows[i])
  }

  function ToRow(r: RawRequest): (row: Row)
    ensures WellFormed(row)
    ensures row.id == r.id && row.student == r.fullname && row.mobileNo == r.mobileNumber && row.item == r.equipmentname
    ensures row.status == "" <==> r.isAcceptedByAdmin == Undecided
    ensures row.action != "" <==> r.isAcceptedByAdmin == Undecided
  {
    Row(r.id, r.fullname, r.mobileNumber, r.equipmentname, StatusOf(r.isAcceptedByAdmin), ActionOf(r.isAcceptedByAdmin))
  }

  /** The mapping done after each fetch: one row per request, in order. */
  function ToRows(raws: seq<RawRequest>): (rows: seq<Row>)
    ensures |rows| == |raws| && AllWellFormed(rows)
    ensures forall i :: 0 <= i < |raws| ==> rows[i].id == raws[i].id && rows[i].status == StatusOf(raws[i].isAcceptedByAdmin)
  {
    seq(|raws|, i requires 0 <= i < |raws| => ToRow(raws[i]))
  }

  /** The local update after the server confirmed a decision: the row(s) with
      that id get the new status and lose their actions. */
  function Decide(rows: seq<Row>, id: string, status: string): (r: seq<Row>)
    ensures |r| == |rows|
    ensures forall i :: 0 <= i < |rows| && rows[i].id != id ==> r[i] == rows[i]
    ensures forall i :: 0 <= i < |rows| && rows[i].id == id ==> r[i] == rows[i].(status := status, action := "")
  {
    seq(|rows|, i requires 0 <= i < |rows| =>
      if rows[i].id == id then rows[i].(status := status, action := "") else rows[i])
  }

  lemma DecidePreservesWellFormed(rows: seq<Row>, id: string, accept: bool)
    requires AllWellFormed(rows)
    ensures AllWellFormed(Decide(rows, id, if accept then Accepted else Rejected))
  {
  }

  // ---------------------------------------------------------------------------
  // Filter and counters
  // ---------------------------------------------------------------------------

  predicate MatchesSearch(row: Row, term: string)
  {
    ContainsIgnoreCase(row.student, term) || ContainsIgnoreCase(row.item, term) || Contains(row.mobileNo, term)
  }

  predicate MatchesStatus(row: Row, filterStatus: string)
  {
    filterStatus == "all" || (filterStatus == "pending" && row.status == "") || EqualsIgnoreCase(row.status, filterStatus)
  }

  /** The four options of the status menu each pass exactly their rows. */
  lemma StatusOptions(row: Row)
    requires WellFormed(row)
    ensures MatchesStatus(row, "all")
    ensures MatchesStatus(row, "pending") <==> row.status == ""
    ensures MatchesStatus(row, "accepted") <==> row.status == Accepted
    ensures MatchesStatus(row, "rejected") <==> row.status == Rejected
  {
    assert Lower(Accepted) == "accepted";
    assert Lower(Rejected) == "rejected";
  }

  function FilteredRequests(rows: seq<Row>, term: string, filterStatus: string): (r: seq<Row>)
    ensures forall x :: x in r <==> x in rows && MatchesSearch(x, term) && MatchesStatus(x, filterStatus)
    ensures |r| <= |rows|
  {
    var r := Filter(rows, (row: Row) => MatchesSearch(row, term) && MatchesStatus(row, filterStatus));
    assert forall x :: x in rows && MatchesSearch(x, term) && MatchesStatus(x, filterStatus) ==> x in r by {
      forall x | x in rows && MatchesSearch(x, term) && MatchesStatus(x, filterStatus) ensures x in r {
        var i :| 0 <= i < |rows| && rows[i] == x;
      }
    }
    r
  }

  /** With no search term and "all", the table shows every request in order. */
  lemma NoFilterShowsAll(rows: seq<Row>)
    ensures FilteredRequests(rows, "", "all") == rows
  {
    forall i | 0 <= i < |rows| ensures MatchesSearch(rows[i], "") {
      EmptyContained(Lower(rows[i].student));
    }
    FilterKeepsAll(rows, (row: Row) => MatchesSearch(row, "") && MatchesStatus(row, "all"));
  }

  function HasId(id: string): Row -> bool { (row: Row) => row.id == id }
  function IsPending(): Row -> bool { (row: Row) => row.status == "" }
  function IsAccepted(): Row -> bool { (row: Row) => row.status == Accepted }
  function IsRejected(): Row -> bool { (row: Row) => row.status == Rejected }

  /** The pending, accepted and rejected counters add up to all requests. */
  lemma {:induction false} CountsSumToTotal(rows: seq<Row>)
    requires AllWellFormed(rows)
    ensures Count(rows, IsPending()) + Count(rows, IsAccepted()) + Count(rows, IsRejected()) == |rows|
  {
    if rows != [] {
      assert WellFormed(rows[0]);
      CountsSumToTotal(rows[1..]);
    }
  }

  /** Deciding one pending request moves it from the pending counter to the
      accepted or rejected one. */
  lemma {:induction false} DecideMovesCount(rows: seq<Row>, id: string, accept: bool)
    requires AllWellFormed(rows)
    requires Count(rows, HasId(id)) == 1
    requires forall i :: 0 <= i < |rows| && rows[i].id == id ==> rows[i].status == ""
    ensures var r := Decide(rows, id, if accept then Accepted else Rejected);
      && Count(r, IsPending()) == Count(rows, IsPending()) - 1
      && Count(r, IsAccepted()) == Count(rows, IsAccepted()) + (if accept then 1 else 0)
      && Count(r, IsRejected()) == Count(rows, IsRejected()) + (if accept then 0 else 1)
  {
    if rows != [] {
      var status := if accept then Accepted else Rejected;
      var r := Decide(rows, id, status);
      assert r[1..] == Decide(rows[1..], id, status);
      if rows[0].id == id {
        DecideAbsentIdChangesNothing(rows[1..], id, status);
      } else {
        DecideMovesCount(rows[1..], id, accept);
      }
    }
  }

  lemma {:induction false} DecideAbsentIdChangesNothing(rows: seq<Row>, id: string, status: string)
    requires Count(rows, HasId(id)) == 0
    ensures Decide(rows, id, status) == rows
  {
    if rows != [] {
      DecideAbsentIdChangesNothing(rows[1..], id, status);
      assert Decide(rows, id, status)[1..] == Decide(rows[1..], id, status);
    }
  }

  // ---------------------------------------------------------------------------
  // The component
  // ---------------------------------------------------------------------------

  /** How the accept or reject endpoint answered: `response.ok`, an error
      status with the body's `message` ("" when absent), or a thrown error. */
  datatype Reply = Ok | NotOk(message: string) | Thrown

  class RequestTable {
    var requests: seq<Row>
    var requestError: Option<string>
    var searchTerm: string
    var filterStatus: string

    ghost predicate Valid()
      reads this
    {
      AllWellFormed(requests)
    }

    constructor ()
      ensures Valid() && requests == [] && requestError == None && searchTerm == "" && filterStatus == "all"
    {
      requests, requestError, searchTerm, filterStatus := [], None, "", "all";
    }

    /** `fetchRequests` / `refreshRequests` when the server answered. */
    method Loaded(raws: seq<RawRequest>)
      modifies this
      ensures Valid() && requests == ToRows(raws) && requestError == None
      ensures unchanged(this`searchTerm, this`filterStatus)
    {
      requests := ToRows(raws);
      requestError := None;
    }

    /** A fetch that failed keeps the rows already shown. */
    method LoadFailed(message: string)
      modifies this
      requires Valid()
      ensures Valid() && requestError == Some(message)
      ensures unchanged(this`requests, this`searchTerm, this`filterStatus)
    {
      requestError := Some(message);
    }

    function Shown(): (r: seq<Row>)
      reads this
      ensures forall x :: x in r ==> x in requests
    {
      FilteredRequests(requests, searchTerm, filterStatus)
    }

    /** `handleAccept(id)`: nothing happens unless confirmed; the row changes
        only when the server says ok, otherwise an alert is shown. */
    method HandleAccept(id: string, confirmed: bool, reply: Reply) returns (alert: Option<string>)
      modifies this
      requires Valid()
      ensures Valid()
      ensures confirmed && reply == Ok ==> requests == Decide(old(requests), id, Accepted) && alert == None
      ensures !confirmed || reply != Ok ==> requests == old(requests)
      ensures !confirmed ==> alert == None
      ensures confirmed && reply.NotOk? ==>
        alert == Some(if reply.message != "" then reply.message else "Error accepting request")
      ensures confirmed && reply == Thrown ==> alert == Some("Error accepting request")
      ensures unchanged(this`requestError, this`searchTerm, this`filterStatus)
    {
      alert := None;
      if !confirmed {
        return;
      }
      match reply {
        case Ok =>
          DecidePreservesWellFormed(requests, id, true);
          requests := Decide(requests, id, Accepted);
        case NotOk(message) =>
          alert := Some(if message != "" then message else "Error accepting request");
        case Thrown =>
          alert := Some("Error accepting request");
      }
    }

    /** `handleReject(id)`, the same with the rejected status. */
    method HandleReject(id: string, confirmed: bool, reply: Reply) returns (alert: Option<string>)
      modifies this
      requires Valid()
      ensures Valid()
      ensures confirmed && reply == Ok ==> requests == Decide(old(requests), id, Rejected) && alert == None
      ensures !confirmed || reply != Ok ==> requests == old(requests)
      ensures !confirmed ==> alert == None
      ensures confirmed && reply.NotOk? ==>
        alert == Some(if reply.message != "" then reply.message else "Error rejecting request")
      ensures confirmed && reply == Thrown ==> alert == Some("Error rejecting request")
      ensures unchanged(this`requestError, this`searchTerm, this`filterStatus)
    {
      alert := None;
      if !confirmed {
        return;
      }
      match reply {
        case Ok =>
          DecidePreservesWellFormed(requests, id, false);
          requests := Decide(requests, id, Rejected);
        case NotOk(message) =>
          alert := Some(if message != "" then message else "Error rejecting request");
        case Thrown =>
          alert := Some("Error rejecting request");
      }
    }

    method SetSearchTerm(term: string)
      modifies this
      requires Valid()
      ensures Valid() && searchTerm == term
      ensures unchanged(this`requests, this`requestError, this`filterStatus)
    {
      searchTerm := term;
    }

    method SetFilterStatus(status: string)
      modifies this
      requires Valid()
      ensures Valid() && filterStatus == status
      ensures unchanged(this`requests, this`requestError, this`searchTerm)
    {
      filterStatus := status;
    }
  }
}
