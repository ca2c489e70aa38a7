/** The public events page (src/pages/EventsPage.jsx): each fetched event gets
    an open/closed status and a featured flag, the list is filtered and
    sorted, and one event is chosen for the hero banner. */
module EventsPage {
  import opened Common

  const SportCategories: seq<string> :=
    ["All Sports", "Cricket", "Football", "Basketball", "Swimming", "Athletics", "Badminton"]

  /** An event as the server sends it; dates are milliseconds since the epoch. */
  datatype RawEvent = RawEvent(id: string, title: string, description: string, location: string,
                               startDate: int, endDate: int, applyLastDate: int)

  /** An event as the page lists it. */
  datatype ListedEvent = ListedEvent(id: string, title: string, description: string, location: string,
                                     startDate: int, deadlineDate: int, status: string,
                                     category: string, popularity: int, featured: bool)

  const Available: string := "Available"
  const Closed: string := "Closed"

  /** The mapping done on load. `todayMidnight` is the start of the current
      day; `category` and `popularity` are the values the page draws at
      random for each event. */
  function Derive(e: RawEvent, todayMidnight: int, category: string, popularity: int): (r: ListedEvent)
    ensures r.status == Available <==> e.applyLastDate >= todayMidnight
    ensures r.status == Closed <==> e.applyLastDate < todayMidnight
    ensures r.featured <==> r.popularity > 80
    ensures r.id == e.id && r.title == e.title && r.description == e.description && r.location == e.location
    ensures r.startDate == e.startDate && r.deadlineDate == e.applyLastDate
    ensures r.category == category && r.popularity == popularity
  {
    ListedEvent(e.id, e.title, e.description, e.location, e.startDate, e.applyLastDate,
                if e.applyLastDate >= todayMidnight then Available else Closed,
                category, popularity, popularity > 80)
  }

  function DeriveAll(raws: seq<RawEvent>, todayMidnight: int, categories: seq<string>, popularity: seq<int>): (r: seq<ListedEvent>)
    requires |categories| == |raws| && |popularity| == |raws|
    ensures |r| == |raws|
    ensures forall i :: 0 <= i < |raws| ==> r[i] == Derive(raws[i], todayMidnight, categories[i], popularity[i])
  {
    seq(|raws|, i requires 0 <= i < |raws| => Derive(raws[i], todayMidnight, categories[i], popularity[i]))
  }

  // ---------------------------------------------------------------------------
  // getFilteredAndSortedEvents
  // ---------------------------------------------------------------------------

  predicate Shows(e: ListedEvent, searchTerm: string, selectedStatus: string, selectedCategory: string)
  {
    && (selectedStatus == "All" || e.status == selectedStatus)
    && (selectedCategory == "All Sports" || e.category == selectedCategory)
    && (ContainsIgnoreCase(e.title, searchTerm) || ContainsIgnoreCase(e.description, searchTerm)
        || ContainsIgnoreCase(e.location, searchTerm))
  }

  function Filtered(events: seq<ListedEvent>, searchTerm: string, selectedStatus: string, selectedCategory: string): (r: seq<ListedEvent>)
    ensures forall x :: x in r <==> x in events && Shows(x, searchTerm, selectedStatus, selectedCategory)
  {
    var r := Filter(events, (e: ListedEvent) => Shows(e, searchTerm, selectedStatus, selectedCategory));
    assert forall x :: x in events && Shows(x, searchTerm, selectedStatus, selectedCategory) ==> x in r by {
      forall x | x in events && Shows(x, searchTerm, selectedStatus, selectedCategory) ensures x in r {
        var i :| 0 <= i < |events| && events[i] == x;
      }
    }
    r
  }

  function StartOf(e: ListedEvent): int { e.startDate }
  function DeadlineOf(e: ListedEvent): int { e.deadlineDate }
  function PopularityOf(e: ListedEvent): int { e.popularity }
  function TitleOf(e: ListedEvent): string { e.title }

  /** The order of each sort option: earliest start, earliest deadline, most
      popular, or the locale's order of titles (`collate`). */
  function OrderFor(sortBy: string, collate: (string, string) -> bool): (ListedEvent, ListedEvent) -> bool
  {
    if sortBy == "date" then OnKey(StartOf, IntLe)
    else if sortBy == "deadline" then OnKey(DeadlineOf, IntLe)
    else if sortBy == "popularity" then Flip(OnKey(PopularityOf, IntLe))
    else OnKey(TitleOf, collate)
  }

  predicate IsSortOption(sortBy: string)
  {
    sortBy == "date" || sortBy == "deadline" || sortBy == "popularity" || sortBy == "title"
  }

  lemma OrderForTotalPreorder(sortBy: string, collate: (string, string) -> bool)
    requires TotalPreorder(collate)
    ensures TotalPreorder(OrderFor(sortBy, collate))
  {
    IntLeTotalPreorder();
    OnKeyTotalPreorder(StartOf, IntLe);
    OnKeyTotalPreorder(DeadlineOf, IntLe);
    OnKeyTotalPreorder(PopularityOf, IntLe);
    FlipTotalPreorder(OnKey(PopularityOf, IntLe));
    OnKeyTotalPreorder(TitleOf, collate);
  }

  /** The list on screen: exactly the events passing the three filters,
      sorted by the chosen option, or in fetched order for any other value. */
  function FilteredAndSorted(events: seq<ListedEvent>, searchTerm: string, selectedStatus: string,
                             selectedCategory: string, sortBy: string, collate: (string, string) -> bool): (r: seq<ListedEvent>)
    requires TotalPreorder(collate)
    ensures multiset(r) == multiset(Filtered(events, searchTerm, selectedStatus, selectedCategory))
    ensures forall x :: x in r <==> x in events && Shows(x, searchTerm, selectedStatus, selectedCategory)
    ensures IsSortOption(sortBy) ==> Sorted(r, OrderFor(sortBy, collate))
    ensures !IsSortOption(sortBy) ==> r == Filtered(events, searchTerm, selectedStatus, selectedCategory)
  {
    var f := Filtered(events, searchTerm, selectedStatus, selectedCategory);
    if !IsSortOption(sortBy) then f
    else
      OrderForTotalPreorder(sortBy, collate);
      SortByCorrect(f, OrderFor(sortBy, collate));
      var r := SortBy(f, OrderFor(sortBy, collate));
      assert forall x :: x in r <==> x in f by {
        forall x ensures x in r <==> x in f {
          assert x in r <==> x in multiset(r);
        }
      }
      r
  }

  // ---------------------------------------------------------------------------
  // The hero banner
  // ---------------------------------------------------------------------------

  predicate Eligible(e: ListedEvent)
  {
    e.featured && e.status == Available
  }

  /** `featuredEvent`: the first featured event still open for registration,
      else the first event, else none. */
  function FeaturedEvent(events: seq<ListedEvent>): (r: Option<ListedEvent>)
    ensures r.None? <==> events == []
    ensures (exists i :: 0 <= i < |events| && Eligible(events[i])) ==>
      exists i :: 0 <= i < |events| && r == Some(events[i]) && Eligible(events[i])
                  && forall j :: 0 <= j < i ==> !Eligible(events[j])
    ensures events != [] && (forall i :: 0 <= i < |events| ==> !Eligible(events[i])) ==> r == Some(events[0])
  {
    match FindFirst(events, Eligible)
    case Some(i) => Some(events[i])
    case None => if |events| > 0 then Some(events[0]) else None
  }

  // ---------------------------------------------------------------------------
  // The page
  // ---------------------------------------------------------------------------

  class Page {
    var events: seq<ListedEvent>
    var searchTerm: string
    var selectedStatus: string
    var selectedCategory: string
    var sortBy: string

    constructor ()
      ensures events == [] && searchTerm == "" && selectedStatus == "All"
      ensures selectedCategory == "All Sports" && sortBy == "date"
    {
      events, searchTerm, selectedStatus, selectedCategory, sortBy := [], "", "All", "All Sports", "date";
    }

    /** The fetched events, with the drawn categories and popularity. */
    method Loaded(raws: seq<RawEvent>, todayMidnight: int, categories: seq<string>, popularity: seq<int>)
      modifies this
      requires |categories| == |raws| && |popularity| == |raws|
      ensures events == DeriveAll(raws, todayMidnight, categories, popularity)
      ensures unchanged(this`searchTerm, this`selectedStatus, this`selectedCategory, this`sortBy)
    {
      events := DeriveAll(raws, todayMidnight, categories, popularity);
    }

    function Shown(collate: (string, string) -> bool): (r: seq<ListedEvent>)
      reads this
      requires TotalPreorder(collate)
      ensures forall x :: x in r <==> x in events && Shows(x, searchTerm, selectedStatus, selectedCategory)
    {
      FilteredAndSorted(events, searchTerm, selectedStatus, selectedCategory, sortBy, collate)
    }

    function Featured(): (r: Option<ListedEvent>)
      reads this
      ensures r.Some? ==> r.value in events
    {
      FeaturedEvent(events)
    }

    method SetSearchTerm(term: string)
      modifies this
      ensures searchTerm == term
      ensures unchanged(this`events, this`selectedStatus, this`selectedCategory, this`sortBy)
    {
      searchTerm := term;
    }

    method SetStatus(status: string)
      modifies this
      ensures selectedStatus == status
      ensures unchanged(this`events, this`searchTerm, this`selectedCategory, this`sortBy)
    {
      selectedStatus := status;
    }

    method SetCategory(category: string)
      modifies this
      ensures selectedCategory == category
      ensures unchanged(this`events, this`searchTerm, this`selectedStatus, this`sortBy)
    {
      selectedCategory := category;
    }

    method SetSortBy(option: string)
      modifies this
      ensures sortBy == option
      ensures unchanged(this`events, this`searchTerm, this`selectedStatus, this`selectedCategory)
    {
      sortBy := option;
    }

    /** `clearFilters`: back to the initial filters; the events stay. */
    method ClearFilters()
      modifies this
      ensures searchTerm == "" && selectedStatus == "All" && selectedCategory == "All Sports" && sortBy == "date"
      ensures unchanged(this`events)
    {
      searchTerm, selectedStatus, selectedCategory, sortBy := "", "All", "All Sports", "date";
    }
  }

  /** After clearing the filters every event is listed, by start date. */
  lemma ClearedFiltersShowAll(events: seq<ListedEvent>, collate: (string, string) -> bool)
    requires TotalPreorder(collate)
    ensures var r := FilteredAndSorted(events, "", "All", "All Sports", "date", collate);
      multiset(r) == multiset(events) && Sorted(r, OnKey(StartOf, IntLe))
  {
    forall i | 0 <= i < |events| ensures Shows(events[i], "", "All", "All Sports") {
      EmptyContained(Lower(events[i].title));
    }
    FilterKeepsAll(events, (e: ListedEvent) => Shows(e, "", "All", "All Sports"));
  }
}
