/** The admin's event list (src/admin/Events.jsx): the search, category and
    tab filters with the sort, the status badge of each card, the category
    menu, deleting an event and the create form. */
module AdminEvents {
  import opened Common

  /** An event as the list uses it; dates are milliseconds since the epoch. */
  datatype Event = Event(id: string, title: string, description: string, sportsCategory: string,
                         location: string, startDate: int, endDate: int, applyLastDate: int)

  // ---------------------------------------------------------------------------
  // filterEvents
  // ---------------------------------------------------------------------------

  /** The search and category filters: the title or the description contains
      the term ignoring case, and the category filter is empty or names the
      event's category ignoring case. */
  predicate MatchesSearchAndCategory(e: Event, searchTerm: string, categoryFilter: string)
  {
    && (ContainsIgnoreCase(e.title, searchTerm) || ContainsIgnoreCase(e.description, searchTerm))
    && (categoryFilter == "" || EqualsIgnoreCase(e.sportsCategory, categoryFilter))
  }

  /** The tab filter, with `now` the time of the render. */
  predicate OnTab(e: Event, activeTab: string, now: int)
  {
    if activeTab == "upcoming" then e.startDate >= now
    else if activeTab == "past" then e.startDate < now
    else true
  }

  /** The four entries of the sort menu. */
  datatype SortField = StartDate | Title | Location | SportsCategory

  function TextKey(field: SortField): Event -> string
  {
    (e: Event) =>
      match field
      case Title => e.title
      case Location => e.location
      case SportsCategory => e.sportsCategory
      case StartDate => ""
  }

  function StartKey(e: Event): int { e.startDate }

  /** "a before b" under the comparator: ascending returns 1 exactly when
      a's value is greater, descending exactly when it is smaller. Dates
      compare as numbers, the other fields as strings. */
  function EventOrder(field: SortField, ascending: bool): (Event, Event) -> bool
  {
    var up := if field == StartDate then OnKey(StartKey, IntLe) else OnKey(TextKey(field), StrLe);
    if ascending then up else Flip(up)
  }

  lemma EventOrderTotalPreorder(field: SortField, ascending: bool)
    ensures TotalPreorder(EventOrder(field, ascending))
  {
    IntLeTotalPreorder();
    StrLeTotalPreorder();
    OnKeyTotalPreorder(StartKey, IntLe);
    OnKeyTotalPreorder(TextKey(field), StrLe);
    var up := if field == StartDate then OnKey(StartKey, IntLe) else OnKey(TextKey(field), StrLe);
    FlipTotalPreorder(up);
  }

  function Searched(events: seq<Event>, searchTerm: string, categoryFilter: string): (r: seq<Event>)
    ensures forall x :: x in r <==> x in events && MatchesSearchAndCategory(x, searchTerm, categoryFilter)
  {
    var r := Filter(events, (e: Event) => MatchesSearchAndCategory(e, searchTerm, categoryFilter));
    assert forall x :: x in events && MatchesSearchAndCategory(x, searchTerm, categoryFilter) ==> x in r by {
      forall x | x in events && MatchesSearchAndCategory(x, searchTerm, categoryFilter) ensures x in r {
        var i :| 0 <= i < |events| && events[i] == x;
      }
    }
    r
  }

  function TabFilter(activeTab: string, now: int): Event -> bool
  {
    (e: Event) => OnTab(e, activeTab, now)
  }

  function OnTabs(s: seq<Event>, activeTab: string, now: int): (r: seq<Event>)
    ensures forall x :: x in r <==> x in s && OnTab(x, activeTab, now)
  {
    var r := Filter(s, TabFilter(activeTab, now));
    assert forall x :: x in s && OnTab(x, activeTab, now) ==> x in r by {
      forall x | x in s && OnTab(x, activeTab, now) ensures x in r {
        var i :| 0 <= i < |s| && s[i] == x;
      }
    }
    r
  }

  /** `filterEvents()`: exactly the events passing all three filters, sorted
      by the chosen field in the chosen direction. */
  function FilterEvents(events: seq<Event>, searchTerm: string, categoryFilter: string,
                        activeTab: string, field: SortField, ascending: bool, now: int): (r: seq<Event>)
    ensures multiset(r) == multiset(OnTabs(Searched(events, searchTerm, categoryFilter), activeTab, now))
    ensures forall x :: x in r <==>
      x in events && MatchesSearchAndCategory(x, searchTerm, categoryFilter) && OnTab(x, activeTab, now)
    ensures Sorted(r, EventOrder(field, ascending))
  {
    var t := OnTabs(Searched(events, searchTerm, categoryFilter), activeTab, now);
    EventOrderTotalPreorder(field, ascending);
    SortByCorrect(t, EventOrder(field, ascending));
    var r := SortBy(t, EventOrder(field, ascending));
    assert forall x :: x in r <==> x in t by {
      forall x ensures x in r <==> x in t {
        assert x in r <==> x in multiset(r);
      }
    }
    r
  }

  /** The "upcoming" and "past" tabs split what the "all" tab shows: each
      event is on exactly one of them. */
  lemma TabsPartition(events: seq<Event>, searchTerm: string, categoryFilter: string,
                      field: SortField, ascending: bool, now: int)
    ensures multiset(FilterEvents(events, searchTerm, categoryFilter, "upcoming", field, ascending, now))
          + multiset(FilterEvents(events, searchTerm, categoryFilter, "past", field, ascending, now))
         == multiset(FilterEvents(events, searchTerm, categoryFilter, "all", field, ascending, now))
  {
    var m := Searched(events, searchTerm, categoryFilter);
    FilterSplit(m, TabFilter("upcoming", now), TabFilter("past", now));
    FilterKeepsAll(m, TabFilter("all", now));
  }

  // ---------------------------------------------------------------------------
  // The status badge (the card of each listed event)
  // ---------------------------------------------------------------------------

  datatype EventStatus = Completed | Ongoing | RegistrationClosed | Upcoming

  function StatusText(s: EventStatus): string
  {
    match s
    case Completed => "completed"
    case Ongoing => "ongoing"
    case RegistrationClosed => "registration closed"
    case Upcoming => "upcoming"
  }

  /** The first test that holds decides: finished, running, past the
      application deadline, else upcoming. */
  function StatusAt(e: Event, now: int): (s: EventStatus)
    ensures s == Completed <==> now > e.endDate
    ensures s == Ongoing <==> e.startDate <= now <= e.endDate
    ensures s == RegistrationClosed <==> now < e.startDate && now <= e.endDate && now > e.applyLastDate
    ensures s == Upcoming <==> now < e.startDate && now <= e.endDate && now <= e.applyLastDate
  {
    if now > e.endDate then Completed
    else if now >= e.startDate && now <= e.endDate then Ongoing
    else if now > e.applyLastDate then RegistrationClosed
    else Upcoming
  }

  /** For an event whose deadline, start and end come in that order, the
      badge follows the calendar: upcoming until the deadline, then closed
      until the start, ongoing until the end, completed after. */
  lemma StatusTimeline(e: Event, now: int)
    requires e.applyLastDate < e.startDate <= e.endDate
    ensures StatusAt(e, now) == Upcoming <==> now <= e.applyLastDate
    ensures StatusAt(e, now) == RegistrationClosed <==> e.applyLastDate < now < e.startDate
    ensures StatusAt(e, now) == Ongoing <==> e.startDate <= now <= e.endDate
    ensures StatusAt(e, now) == Completed <==> e.endDate < now
  {
  }

  // ---------------------------------------------------------------------------
  // getCategories
  // ---------------------------------------------------------------------------

  /** The position of the first occurrence of `x` in `s`. */
  function FirstIndex<T(==)>(s: seq<T>, x: T): (i: nat)
    requires x in s
    ensures i < |s| && s[i] == x && x !in s[..i]
  {
    if s[0] == x then 0 else FirstIndex(s[1..], x) + 1
  }

  lemma {:induction false} FirstIndexPrefix<T>(s: seq<T>, t: seq<T>, x: T)
    requires x in s
    ensures FirstIndex(s + t, x) == FirstIndex(s, x)
  {
    if s[0] != x {
      assert (s + t)[1..] == s[1..] + t;
      FirstIndexPrefix(s[1..], t, x);
    }
  }

  predicate NoDuplicates<T(==)>(s: seq<T>)
  {
    forall i, j :: 0 <= i < j < |s| ==> s[i] != s[j]
  }

  /** `[...new Set(s)]`: each value once, in order of first occurrence. */
  function Distinct(s: seq<string>): (r: seq<string>)
    ensures NoDuplicates(r)
    ensures forall x :: x in r <==> x in s
    ensures forall i, j :: 0 <= i < j < |r| ==> FirstIndex(s, r[i]) < FirstIndex(s, r[j])
  {
    if s == [] then []
    else
      var p := s[..|s| - 1];
      var x := s[|s| - 1];
      assert s == p + [x];
      var d := Distinct(p);
      forall y | y in d ensures FirstIndex(s, y) == FirstIndex(p, y) {
        FirstIndexPrefix(p, [x], y);
      }
      if x in d then d
      else
        assert FirstIndex(s, x) == |s| - 1;
        d + [x]
  }

  /** `getCategories()`: the "all categories" entry, then every category of
      the list once, in order of first appearance. */
  function Categories(events: seq<Event>): (r: seq<string>)
    ensures |r| >= 1 && r[0] == ""
    ensures forall c :: c in r[1..] <==> exists i :: 0 <= i < |events| && events[i].sportsCategory == c
    ensures NoDuplicates(r[1..])
  {
    var cats := seq(|events|, i requires 0 <= i < |events| => events[i].sportsCategory);
    forall c | c in cats ensures exists i :: 0 <= i < |events| && events[i].sportsCategory == c {
      var i :| 0 <= i < |cats| && cats[i] == c;
    }
    forall c | exists i :: 0 <= i < |events| && events[i].sportsCategory == c ensures c in cats {
      var i :| 0 <= i < |events| && events[i].sportsCategory == c;
      assert cats[i] == c;
    }
    var r := [""] + Distinct(cats);
    assert r[1..] == Distinct(cats);
    r
  }

  // ---------------------------------------------------------------------------
  // handleDelete
  // ---------------------------------------------------------------------------

  function NotId(eventId: string): Event -> bool
  {
    (e: Event) => e.id != eventId
  }

  /** The local removal after the server confirmed a delete. */
  function WithoutEvent(events: seq<Event>, eventId: string): (r: seq<Event>)
    ensures forall x :: x in r <==> x in events && x.id != eventId
    ensures |r| == |events| - Count(events, (e: Event) => e.id == eventId)
  {
    var r := Filter(events, NotId(eventId));
    assert forall x :: x in events && x.id != eventId ==> x in r by {
      forall x | x in events && x.id != eventId ensures x in r {
        var i :| 0 <= i < |events| && events[i] == x;
      }
    }
    FilterSplit(events, (e: Event) => e.id == eventId, NotId(eventId));
    CountIsFilterLength(events, (e: Event) => e.id == eventId);
    r
  }

  /** Removing an id no event has leaves the list as it was. */
  lemma WithoutAbsentEvent(events: seq<Event>, eventId: string)
    requires forall i :: 0 <= i < |events| ==> events[i].id != eventId
    ensures WithoutEvent(events, eventId) == events
  {
    FilterKeepsAll(events, NotId(eventId));
  }

  // ---------------------------------------------------------------------------
  // The component
  // ---------------------------------------------------------------------------

  /** The thirteen fields of the create form. */
  const FormFields: seq<string> := [
    "title", "startDate", "endDate", "applyLastDate", "location", "organizer", "contact",
    "coordinator_name", "coordinator_no", "description", "rules", "prizes", "sportsCategory"
  ]

  function EmptyForm(): (f: map<string, string>)
    ensures forall k :: k in f <==> k in FormFields
    ensures forall k :: k in f ==> f[k] == ""
  {
    map k | k in FormFields :: ""
  }

  /** How the server answered a create or delete: `response.ok && data.success`,
      a refusal with its message ("" when absent), or a thrown error. */
  datatype Reply = Ok | Refused(message: string) | Thrown

  function FailureToast(what: string, reply: Reply): string
    requires !reply.Ok?
  {
    match reply
    case Refused(m) => "Failed to " + what + " event: " + (if m != "" then m else "Unknown error")
    case Thrown => "Network error while " + (if what == "create" then "creating" else "deleting") + " event"
  }

  class EventsPanel {
    var events: seq<Event>
    var searchTerm: string
    var categoryFilter: string
    var sortField: SortField
    var ascending: bool
    var activeTab: string
    var showForm: bool
    var formData: map<string, string>

    constructor ()
      ensures events == [] && searchTerm == "" && categoryFilter == ""
      ensures sortField == StartDate && ascending && activeTab == "upcoming"
      ensures !showForm && formData == EmptyForm()
    {
      events, searchTerm, categoryFilter := [], "", "";
      sortField, ascending, activeTab := StartDate, true, "upcoming";
      showForm, formData := false, EmptyForm();
    }

    function Shown(now: int): (r: seq<Event>)
      reads this
      ensures forall x :: x in r ==> x in events
    {
      FilterEvents(events, searchTerm, categoryFilter, activeTab, sortField, ascending, now)
    }

    /** The list after a successful fetch. */
    method Loaded(list: seq<Event>)
      modifies this
      ensures events == list
      ensures unchanged(this`searchTerm, this`categoryFilter, this`sortField, this`ascending, this`activeTab, this`showForm, this`formData)
    {
      events := list;
    }

    /** The "Create Event" button opens the form; its fields stay as they were. */
    method OpenForm()
      modifies this
      ensures showForm
      ensures unchanged(this`events, this`searchTerm, this`categoryFilter, this`sortField, this`ascending, this`activeTab, this`formData)
    {
      showForm := true;
    }

    /** The form's close and cancel buttons hide it; its fields stay. */
    method CloseForm()
      modifies this
      ensures !showForm
      ensures unchanged(this`events, this`searchTerm, this`categoryFilter, this`sortField, this`ascending, this`activeTab, this`formData)
    {
      showForm := false;
    }

    /** The search box. */
    method SetSearchTerm(term: string)
      modifies this
      ensures searchTerm == term
      ensures unchanged(this`events, this`categoryFilter, this`sortField, this`ascending, this`activeTab, this`showForm, this`formData)
    {
      searchTerm := term;
    }

    /** The category menu ("" for all categories). */
    method SetCategoryFilter(category: string)
      modifies this
      ensures categoryFilter == category
      ensures unchanged(this`events, this`searchTerm, this`sortField, this`ascending, this`activeTab, this`showForm, this`formData)
    {
      categoryFilter := category;
    }

    /** The sort menu. */
    method SetSortField(field: SortField)
      modifies this
      ensures sortField == field
      ensures unchanged(this`events, this`searchTerm, this`categoryFilter, this`ascending, this`activeTab, this`showForm, this`formData)
    {
      sortField := field;
    }

    /** The "all", "upcoming" and "past" tabs. */
    method SetActiveTab(tab: string)
      modifies this
      ensures activeTab == tab
      ensures unchanged(this`events, this`searchTerm, this`categoryFilter, this`sortField, this`ascending, this`showForm, this`formData)
    {
      activeTab := tab;
    }

    /** The arrow button next to the sort menu. */
    method ToggleSortOrder()
      modifies this
      ensures ascending == !old(ascending)
      ensures unchanged(this`events, this`searchTerm, this`categoryFilter, this`sortField, this`activeTab, this`showForm, this`formData)
    {
      ascending := !ascending;
    }

    /** `handleInputChange`: one field of the form takes the typed value. */
    method InputChange(name: string, value: string)
      modifies this
      ensures formData == old(formData)[name := value]
      ensures unchanged(this`events, this`searchTerm, this`categoryFilter, this`sortField, this`ascending, this`activeTab, this`showForm)
    {
      formData := formData[name := value];
    }

    /** `handleSubmit`: the form is posted; on success the form closes, every
        field is emptied and the list is fetched again (`refetch`). */
    method Submit(reply: Reply) returns (toast: string, refetch: bool)
      modifies this
      ensures reply == Ok ==> && toast == "Event created successfully!" && refetch
                              && !showForm && formData == EmptyForm()
      ensures reply != Ok ==> && toast == FailureToast("create", reply) && !refetch
                              && showForm == old(showForm) && formData == old(formData)
      ensures unchanged(this`events, this`searchTerm, this`categoryFilter, this`sortField, this`ascending, this`activeTab)
    {
      if reply == Ok {
        showForm := false;
        formData := EmptyForm();
        return "Event created successfully!", true;
      }
      return FailureToast("create", reply), false;
    }

    /** `handleDelete(eventId)`: a cancelled confirmation changes nothing and
        sends nothing; a confirmed delete the server accepted removes exactly
        the events with that id. */
    method Delete(eventId: string, confirmed: bool, reply: Reply) returns (toast: Option<string>)
      modifies this
      ensures !confirmed ==> toast == None && events == old(events)
      ensures confirmed && reply == Ok ==>
        toast == Some("Event deleted successfully") && events == WithoutEvent(old(events), eventId)
      ensures confirmed && reply != Ok ==> toast == Some(FailureToast("delete", reply)) && events == old(events)
      ensures unchanged(this`searchTerm, this`categoryFilter, this`sortField, this`ascending, this`activeTab, this`showForm, this`formData)
    {
      if !confirmed {
        return None;
      }
      if reply == Ok {
        events := WithoutEvent(events, eventId);
        return Some("Event deleted successfully");
      }
      return Some(FailureToast("delete", reply));
    }
  }
}
