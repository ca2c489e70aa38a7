/** The admin's user list (src/admin/Users.jsx): unverified users first, the
    name search, the server-side filters and the pagination controls. */
module AdminUsers {
  import opened Common

  datatype User = User(id: string, fullname: string, isVerifiedByAdmin: bool)

  // ---------------------------------------------------------------------------
  // Unverified first
  // ---------------------------------------------------------------------------

  /** The number a boolean becomes under subtraction. */
  function VerifiedRank(u: User): int
  {
    if u.isVerifiedByAdmin then 1 else 0
  }

  /** The comparator `a.isVerifiedByAdmin - b.isVerifiedByAdmin`. */
  function ByVerified(): (User, User) -> bool
  {
    (a: User, b: User) => VerifiedRank(a) <= VerifiedRank(b)
  }

  function IsVerified(): User -> bool { (u: User) => u.isVerifiedByAdmin }
  function IsUnverified(): User -> bool { (u: User) => !u.isVerifiedByAdmin }

  /** The order the fetched page is shown in. The code sorts with the
      comparator above; the sort is stable, so the result is the unverified
      users in fetched order followed by the verified users in fetched order. */
  function UnverifiedFirst(users: seq<User>): (r: seq<User>)
    ensures multiset(r) == multiset(users)
    ensures Sorted(r, ByVerified())
    ensures forall i, j :: 0 <= i < j < |r| && r[i].isVerifiedByAdmin ==> r[j].isVerifiedByAdmin
  {
    var u, v := Filter(users, IsUnverified()), Filter(users, IsVerified());
    FilterSplit(users, IsUnverified(), IsVerified());
    assert forall i :: 0 <= i < |u| ==> IsUnverified()(u[i]);
    assert forall i :: 0 <= i < |v| ==> IsVerified()(v[i]);
    UnverifiedThenVerified(u, v);
    u + v
  }

  /** Unverified users followed by verified users are in the comparator's order. */
  lemma UnverifiedThenVerified(u: seq<User>, v: seq<User>)
    requires forall i :: 0 <= i < |u| ==> !u[i].isVerifiedByAdmin
    requires forall i :: 0 <= i < |v| ==> v[i].isVerifiedByAdmin
    ensures Sorted(u + v, ByVerified())
    ensures forall i, j :: 0 <= i < j < |u + v| && (u + v)[i].isVerifiedByAdmin ==> (u + v)[j].isVerifiedByAdmin
  {
    var r := u + v;
    forall i, j | 0 <= i < j < |r|
      ensures ByVerified()(r[i], r[j]) && (r[i].isVerifiedByAdmin ==> r[j].isVerifiedByAdmin)
    {
      if i < |u| {
        assert r[i] == u[i];
      } else {
        assert r[i] == v[i - |u|] && r[j] == v[j - |u|];
      }
    }
  }

  /** The comparator is a consistent one, so `UnverifiedFirst` is what a
      stable sort with it produces. */
  lemma ByVerifiedTotalPreorder()
    ensures TotalPreorder(ByVerified())
  {
  }

  /** The approve action is offered exactly to unverified users. */
  predicate ApproveOffered(u: User)
  {
    !u.isVerifiedByAdmin
  }

  /** The first `k` rows offer the approve action and the others do not. */
  ghost predicate ApproveUpTo(r: seq<User>, k: int)
    requires 0 <= k <= |r|
  {
    (forall i :: 0 <= i < k ==> ApproveOffered(r[i])) && (forall i :: k <= i < |r| ==> !ApproveOffered(r[i]))
  }

  /** So on the sorted page the rows with an approve button come first. */
  lemma ApproveRowsFirst(users: seq<User>)
    ensures var r := UnverifiedFirst(users);
      exists k :: 0 <= k <= |r| && ApproveUpTo(r, k)
  {
    var r := UnverifiedFirst(users);
    var u, v := Filter(users, IsUnverified()), Filter(users, IsVerified());
    var k := |u|;
    forall i | 0 <= i < k ensures ApproveOffered(r[i]) {
      assert r[i] == u[i];
    }
    forall i | k <= i < |r| ensures !ApproveOffered(r[i]) {
      assert r[i] == v[i - k];
    }
    assert ApproveUpTo(r, k);
  }

  // ---------------------------------------------------------------------------
  // filteredUsers
  // ---------------------------------------------------------------------------

  /** The users of the current page whose name contains the search term,
      ignoring case, in displayed order. */
  function FilteredUsers(users: seq<User>, searchTerm: string): (r: seq<User>)
    ensures forall x :: x in r <==> x in users && ContainsIgnoreCase(x.fullname, searchTerm)
    ensures |r| <= |users|
  {
    var r := Filter(users, (u: User) => ContainsIgnoreCase(u.fullname, searchTerm));
    assert forall x :: x in users && ContainsIgnoreCase(x.fullname, searchTerm) ==> x in r by {
      forall x | x in users && ContainsIgnoreCase(x.fullname, searchTerm) ensures x in r {
        var i :| 0 <= i < |users| && users[i] == x;
      }
    }
    r
  }

  // ---------------------------------------------------------------------------
  // Pagination
  // ---------------------------------------------------------------------------

  /** The "Previous" button: one page back, never below page one. */
  function PrevPage(page: int): (r: int)
    ensures r >= 1
    ensures page > 1 ==> r == page - 1
    ensures page <= 1 ==> r == 1
  {
    if page - 1 > 1 then page - 1 else 1
  }

  function PrevDisabled(page: int): bool
  {
    page == 1
  }

  /** The "Next" button's guard as written: disabled only on the last page. */
  function NextDisabledAsWritten(page: int, totalPages: int): bool
  {
    page == totalPages
  }

  /** Once the page is beyond the page count (page one of a result reported
      as zero pages, or a refetch that lowered the count) the guard as
      written leaves "Next" enabled, and a click moves one page further past
      the end, where "Next" is still enabled. */
  lemma NextPastLastPageAsWritten(page: int, totalPages: int)
    requires 1 <= page && totalPages < page
    ensures !NextDisabledAsWritten(page, totalPages)
    ensures page + 1 > totalPages && !NextDisabledAsWritten(page + 1, totalPages)
  {
  }

  /** The smallest instance: page one with no pages. */
  lemma NextFromEmptyResultAsWritten()
    ensures !NextDisabledAsWritten(1, 0) && !NextDisabledAsWritten(1 + 1, 0)
  {
    NextPastLastPageAsWritten(1, 0);
  }

  /** The guard as intended: disabled on the last page and beyond it. */
  function NextDisabled(page: int, totalPages: int): (b: bool)
    ensures page == totalPages ==> b
    ensures !b <==> page + 1 <= totalPages
  {
    page >= totalPages
  }

  /** Under the intended guard a "Next" click never leaves the page range. */
  lemma NextStaysInRange(page: int, totalPages: int)
    requires 1 <= page && !NextDisabled(page, totalPages)
    ensures 1 <= page + 1 <= totalPages
  {
  }

  /** The previous button is disabled exactly where clicking it would do
      nothing, for any page at or above one. */
  lemma PrevDisabledIffNoEffect(page: int)
    requires page >= 1
    ensures PrevDisabled(page) <==> PrevPage(page) == page
  {
  }

  // ---------------------------------------------------------------------------
  // The component
  // ---------------------------------------------------------------------------

  const FilterKeys: seq<string> := ["user_type", "department", "year"]

  /** How a delete or approve call ended: `response.ok`, an error status, or
      a thrown error with its message. */
  datatype Reply = Ok | NotOk | Thrown(message: string)

  datatype Toast = SuccessToast(text: string) | ErrorToast(text: string)

  class UserList {
    var users: seq<User>
    var searchTerm: string
    var page: int
    var limit: int
    var totalPages: int
    var filters: map<string, string>
    var error: Option<string>

    ghost predicate Valid()
      reads this
    {
      page >= 1
    }

    constructor ()
      ensures Valid() && users == [] && searchTerm == "" && page == 1 && limit == 10 && totalPages == 1
      ensures filters == (map k | k in FilterKeys :: "") && error == None
    {
      users, searchTerm, page, limit, totalPages := [], "", 1, 10, 1;
      filters := map k | k in FilterKeys :: "";
      error := None;
    }

    /** `fetchUsers` after the server answered with one page of users and the
        page count. */
    method Loaded(fetched: seq<User>, pages: int)
      modifies this
      requires Valid()
      ensures Valid() && users == UnverifiedFirst(fetched) && totalPages == pages && error == None
      ensures unchanged(this`searchTerm, this`page, this`limit, this`filters)
    {
      users := UnverifiedFirst(fetched);
      totalPages := pages;
      error := None;
    }

    /** `fetchUsers` when the request failed ("No User Found!!" for an error
        status): the error is shown and the rows already loaded stay. */
    method LoadFailed(message: string)
      modifies this
      requires Valid()
      ensures Valid() && error == Some(message)
      ensures unchanged(this`users, this`searchTerm, this`page, this`limit, this`totalPages, this`filters)
    {
      error := Some(message);
    }

    function Shown(): (r: seq<User>)
      reads this
      ensures forall x :: x in r ==> x in users
    {
      FilteredUsers(users, searchTerm)
    }

    /** Typing in the search box filters the page already loaded; the page
        number stays. */
    method SetSearchTerm(term: string)
      modifies this
      requires Valid()
      ensures Valid() && searchTerm == term
      ensures unchanged(this`error, this`users, this`page, this`limit, this`totalPages, this`filters)
    {
      searchTerm := term;
    }

    method Prev()
      modifies this
      requires Valid() && !PrevDisabled(page)
      ensures Valid() && page == PrevPage(old(page)) && page == old(page) - 1
      ensures unchanged(this`error, this`users, this`searchTerm, this`limit, this`totalPages, this`filters)
    {
      page := PrevPage(page);
    }

    method Next()
      modifies this
      requires Valid() && !NextDisabledAsWritten(page, totalPages)
      ensures Valid() && page == old(page) + 1
      ensures unchanged(this`error, this`users, this`searchTerm, this`limit, this`totalPages, this`filters)
    {
      page := page + 1;
    }

    /** The page-size menu: a new size starts again at page one. */
    method LimitChange(n: int)
      modifies this
      requires Valid()
      ensures Valid() && limit == n && page == 1
      ensures unchanged(this`error, this`users, this`searchTerm, this`totalPages, this`filters)
    {
      limit := n;
      page := 1;
    }

    /** `handleFilterChange`: one filter takes the chosen value, the others
        keep theirs, and the list starts again at page one. */
    method FilterChange(name: string, value: string)
      modifies this
      requires Valid()
      ensures Valid() && page == 1 && filters == old(filters)[name := value]
      ensures name in filters && filters[name] == value
      ensures forall k :: k in old(filters) && k != name ==> k in filters && filters[k] == old(filters)[k]
      ensures unchanged(this`error, this`users, this`searchTerm, this`limit, this`totalPages)
    {
      filters := filters[name := value];
      page := 1;
    }

    /** `handleDelete(userId)`: nothing without confirmation; a successful
        DELETE is followed by a fresh fetch, a failed one shows the error. */
    method Delete(confirmed: bool, reply: Reply) returns (refetch: bool)
      modifies this
      requires Valid()
      ensures Valid()
      ensures refetch <==> confirmed && reply == Ok
      ensures !confirmed || reply == Ok ==> error == old(error)
      ensures confirmed && reply == NotOk ==> error == Some("Failed to delete user")
      ensures confirmed && reply.Thrown? ==> error == Some(reply.message)
      ensures unchanged(this`users, this`searchTerm, this`page, this`limit, this`totalPages, this`filters)
    {
      refetch := false;
      if confirmed {
        match reply {
          case Ok => refetch := true;
          case NotOk => error := Some("Failed to delete user");
          case Thrown(message) => error := Some(message);
        }
      }
    }

    /** `handleApprove(userId)`: as delete, with a toast either way. */
    method Approve(confirmed: bool, reply: Reply) returns (refetch: bool, toast: Option<Toast>)
      modifies this
      requires Valid()
      ensures Valid()
      ensures refetch <==> confirmed && reply == Ok
      ensures !confirmed ==> toast == None && error == old(error)
      ensures confirmed && reply == Ok ==> toast == Some(SuccessToast("User approved successfully!")) && error == old(error)
      ensures confirmed && reply == NotOk ==>
        toast == Some(ErrorToast("Failed to approve user")) && error == Some("Failed to approve user")
      ensures confirmed && reply.Thrown? ==>
        toast == Some(ErrorToast("Failed to approve user")) && error == Some(reply.message)
      ensures unchanged(this`users, this`searchTerm, this`page, this`limit, this`totalPages, this`filters)
    {
      refetch, toast := false, None;
      if confirmed {
        match reply {
          case Ok =>
            refetch, toast := true, Some(SuccessToast("User approved successfully!"));
          case NotOk =>
            error, toast := Some("Failed to approve user"), Some(ErrorToast("Failed to approve user"));
          case Thrown(message) =>
            error, toast := Some(message), Some(ErrorToast("Failed to approve user"));
        }
      }
    }
  }
}
