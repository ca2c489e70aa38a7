/** The user-facing equipment page (src/pages/EquipmentPage.jsx): the
    searchable, sortable catalog, the request form with its steppers, and the
    local stock update after a request goes through. */
module EquipmentPage {
  import opened Common

  /** One catalog entry as the page keeps it after loading. */
  datatype Item = Item(id: string, name: string, total: int, available: int, category: string)

  const AllCategories: string := "All"
  const SportsEquipment: string := "Sports Equipment"

  /** The options of the category menu. */
  const Categories: seq<string> := [AllCategories, SportsEquipment]

  /** What `fetchEquipment` keeps of the delivered entries: each one, in
      order, filed under "Sports Equipment" whatever it carried. */
  function Stamped(items: seq<Item>): (r: seq<Item>)
    ensures |r| == |items|
    ensures forall i :: 0 <= i < |r| ==> r[i] == items[i].(category := SportsEquipment)
  {
    seq(|items|, i requires 0 <= i < |items| => items[i].(category := SportsEquipment))
  }

  /** The search and category filter of `sortedAndFilteredEquipment`. */
  predicate Matches(item: Item, searchTerm: string, category: string)
  {
    ContainsIgnoreCase(item.name, searchTerm) && (category == AllCategories || item.category == category)
  }

  function Matching(list: seq<Item>, searchTerm: string, category: string): (r: seq<Item>)
    ensures forall x :: x in r <==> x in list && Matches(x, searchTerm, category)
    ensures |r| <= |list|
  {
    var r := Filter(list, (item: Item) => Matches(item, searchTerm, category));
    assert forall x :: x in list && Matches(x, searchTerm, category) ==> x in r by {
      forall x | x in list && Matches(x, searchTerm, category) ensures x in r {
        var i :| 0 <= i < |list| && list[i] == x;
      }
    }
    r
  }

  /** Since every loaded item is filed under "Sports Equipment", no option of
      the category menu hides anything: each shows what "All" shows. */
  lemma CategoryMenuHidesNothing(items: seq<Item>, searchTerm: string, category: string)
    requires category in Categories
    ensures Matching(Stamped(items), searchTerm, category) == Matching(Stamped(items), searchTerm, AllCategories)
  {
    var list := Stamped(items);
    FilterCongruent(list, (item: Item) => Matches(item, searchTerm, category),
                    (item: Item) => Matches(item, searchTerm, AllCategories));
  }

  function NameOf(item: Item): string { item.name }
  function AvailableOf(item: Item): int { item.available }

  /** "a before b" for `a.name.localeCompare(b.name)`, with the locale's
      collation given as the order `collate`. */
  function ByName(collate: (string, string) -> bool): (Item, Item) -> bool
  {
    OnKey(NameOf, collate)
  }

  /** "a before b" for `b.available - a.available`: most stock first. */
  function ByAvailability(): (Item, Item) -> bool
  {
    Flip(OnKey(AvailableOf, IntLe))
  }

  lemma ByNameTotalPreorder(collate: (string, string) -> bool)
    requires TotalPreorder(collate)
    ensures TotalPreorder(ByName(collate))
  {
    OnKeyTotalPreorder(NameOf, collate);
  }

  lemma ByAvailabilityTotalPreorder()
    ensures TotalPreorder(ByAvailability())
  {
    IntLeTotalPreorder();
    OnKeyTotalPreorder(AvailableOf, IntLe);
    FlipTotalPreorder(OnKey(AvailableOf, IntLe));
  }

  /** `sortedAndFilteredEquipment`: exactly the matching items, by name for
      "name", by descending stock for "availability", and otherwise in
      catalog order. */
  function SortedAndFiltered(list: seq<Item>, searchTerm: string, category: string,
                             sortBy: string, collate: (string, string) -> bool): (r: seq<Item>)
    requires TotalPreorder(collate)
    ensures multiset(r) == multiset(Matching(list, searchTerm, category))
    ensures forall x :: x in r <==> x in list && Matches(x, searchTerm, category)
    ensures sortBy == "name" ==> Sorted(r, ByName(collate))
    ensures sortBy == "availability" ==> Sorted(r, ByAvailability())
    ensures sortBy != "name" && sortBy != "availability" ==> r == Matching(list, searchTerm, category)
  {
    var m := Matching(list, searchTerm, category);
    var r := SortedAs(m, sortBy, collate);
    assert forall x :: x in r <==> x in m by {
      forall x ensures x in r <==> x in m {
        assert x in r <==> x in multiset(r);
      }
    }
    r
  }

  function SortedAs(m: seq<Item>, sortBy: string, collate: (string, string) -> bool): (r: seq<Item>)
    requires TotalPreorder(collate)
    ensures multiset(r) == multiset(m)
    ensures sortBy == "name" ==> Sorted(r, ByName(collate))
    ensures sortBy == "availability" ==> Sorted(r, ByAvailability())
    ensures sortBy != "name" && sortBy != "availability" ==> r == m
  {
    if sortBy == "name" then
      ByNameTotalPreorder(collate);
      SortByCorrect(m, ByName(collate));
      SortBy(m, ByName(collate))
    else if sortBy == "availability" then
      ByAvailabilityTotalPreorder();
      SortByCorrect(m, ByAvailability());
      SortBy(m, ByAvailability())
    else m
  }

  // ---------------------------------------------------------------------------
  // The request form's duration and quantity controls
  // ---------------------------------------------------------------------------

  /** The duration "-" button: never below one day. */
  function DurationDown(d: int): (r: int)
    ensures r >= 1
    ensures d > 1 ==> r == d - 1
    ensures 1 <= d <= 30 ==> 1 <= r <= 30
  {
    if d - 1 < 1 then 1 else d - 1
  }

  /** The duration "+" button: never above thirty days. */
  function DurationUp(d: int): (r: int)
    ensures r <= 30
    ensures d < 30 ==> r == d + 1
    ensures 1 <= d <= 30 ==> 1 <= r <= 30
  {
    if d + 1 > 30 then 30 else d + 1
  }

  /** The typed duration, `parseInt(value) || 1`, with `parsed` the result of
      `parseInt` (None for NaN): only NaN and zero become one. */
  function TypedDuration(parsed: Option<int>): (r: int)
    ensures r != 0
    ensures parsed.Some? && parsed.value != 0 ==> r == parsed.value
    ensures parsed.None? || parsed.value == 0 ==> r == 1
  {
    match parsed
    case Some(n) => if n != 0 then n else 1
    case None => 1
  }

  /** The quantity "-" button. */
  function QuantityDown(q: int): (r: int)
    ensures r >= 1
    ensures q > 1 ==> r == q - 1
    ensures 1 <= q ==> r <= q
  {
    if q - 1 < 1 then 1 else q - 1
  }

  /** The quantity "+" button, capped by the selected item's stock. */
  function QuantityUp(q: int, available: int): (r: int)
    ensures r <= available
    ensures q < available ==> r == q + 1
    ensures 1 <= q <= available ==> 1 <= r <= available
  {
    if q + 1 < available then q + 1 else available
  }

  /** The typed quantity, `min(available, max(1, parseInt(value) || 1))`. */
  function TypedQuantity(parsed: Option<int>, available: int): (r: int)
    ensures r <= available
    ensures available >= 1 ==> 1 <= r
    ensures parsed.Some? && 1 <= parsed.value <= available ==> r == parsed.value
  {
    var v := TypedDuration(parsed);
    var atLeastOne := if 1 < v then v else 1;
    if available < atLeastOne then available else atLeastOne
  }

  // ---------------------------------------------------------------------------
  // The local stock update after a successful request
  // ---------------------------------------------------------------------------

  /** Every item with the given id loses `q` units of stock; nothing else
      changes, and the list keeps its order. */
  function DecrementStock(list: seq<Item>, id: string, q: int): (r: seq<Item>)
    ensures |r| == |list|
    ensures forall i :: 0 <= i < |list| && list[i].id != id ==> r[i] == list[i]
    ensures forall i :: 0 <= i < |list| && list[i].id == id ==>
      r[i].available == list[i].available - q && r[i] == list[i].(available := r[i].available)
  {
    seq(|list|, i requires 0 <= i < |list| =>
      if list[i].id == id then list[i].(available := list[i].available - q) else list[i])
  }

  function TotalAvailable(list: seq<Item>): int
  {
    if list == [] then 0 else list[0].available + TotalAvailable(list[1..])
  }

  function HasId(id: string): Item -> bool
  {
    (item: Item) => item.id == id
  }

  /** The stock on the page drops by `q` for each item carrying the id: by
      exactly `q` when ids are unique. */
  lemma {:induction false} DecrementStockTotal(list: seq<Item>, id: string, q: int)
    ensures TotalAvailable(DecrementStock(list, id, q)) == TotalAvailable(list) - q * Count(list, HasId(id))
  {
    if list != [] {
      var r := DecrementStock(list, id, q);
      assert r[1..] == DecrementStock(list[1..], id, q);
      DecrementStockTotal(list[1..], id, q);
    }
  }

  /** No stock goes negative when the quantity is at most the stock of each
      item carrying the id. */
  lemma DecrementStockNonNegative(list: seq<Item>, id: string, q: int)
    requires forall i :: 0 <= i < |list| ==> list[i].available >= 0
    requires forall i :: 0 <= i < |list| && list[i].id == id ==> q <= list[i].available
    ensures forall i :: 0 <= i < |list| ==> DecrementStock(list, id, q)[i].available >= 0
  {
  }

  // ---------------------------------------------------------------------------
  // The page
  // ---------------------------------------------------------------------------

  /** What the POST to the request endpoint carries. */
  datatype RequestBody = RequestBody(userId: string, reason: string, duration: int, quantity: int, equipmentId: string)

  /** How the request endpoint answered: `data.success`, a failure with its
      message, or a thrown error. */
  datatype ServerReply = Success | Failure(message: string) | NetworkError

  /** The toast the submit handler shows. */
  datatype SubmitResult = MissingReason | RequestSubmitted | RequestFailed(message: string) | ServerError

  class Page {
    var equipmentList: seq<Item>
    var searchTerm: string
    var selectedCategory: string
    var sortBy: string
    var showRequestForm: bool
    var selectedEquipment: Option<Item>
    const userId: string
    var reason: string
    var duration: int
    var quantity: int
    var equipmentId: string

    /** The form is only on screen for a chosen item, and the form's
        `equipment_id` is that item's. */
    ghost predicate Valid()
      reads this
    {
      && (showRequestForm ==> selectedEquipment.Some?)
      && (selectedEquipment.Some? ==> equipmentId == selectedEquipment.value.id)
    }

    constructor (userId: string)
      ensures Valid() && this.userId == userId
      ensures equipmentList == [] && searchTerm == "" && selectedCategory == AllCategories && sortBy == "name"
      ensures !showRequestForm && selectedEquipment == None
      ensures reason == "" && duration == 1 && quantity == 1 && equipmentId == ""
    {
      this.userId := userId;
      equipmentList, searchTerm, selectedCategory, sortBy := [], "", AllCategories, "name";
      showRequestForm, selectedEquipment := false, None;
      reason, duration, quantity, equipmentId := "", 1, 1, "";
    }

    /** The catalog as the endpoint delivered it, every entry filed under
        "Sports Equipment". */
    method Load(items: seq<Item>)
      modifies this
      requires Valid()
      ensures Valid() && equipmentList == Stamped(items)
      ensures unchanged(this`searchTerm, this`selectedCategory, this`sortBy, this`showRequestForm, this`selectedEquipment)
      ensures unchanged(this`reason, this`duration, this`quantity, this`equipmentId)
    {
      equipmentList := Stamped(items);
    }

    /** The list on screen. */
    function Shown(collate: (string, string) -> bool): (r: seq<Item>)
      reads this
      requires TotalPreorder(collate)
      ensures multiset(r) == multiset(Matching(equipmentList, searchTerm, selectedCategory))
    {
      SortedAndFiltered(equipmentList, searchTerm, selectedCategory, sortBy, collate)
    }

    /** The "Reset Filters" button. */
    method ResetFilters()
      modifies this
      requires Valid()
      ensures Valid() && searchTerm == "" && selectedCategory == AllCategories && sortBy == "name"
      ensures unchanged(this`equipmentList, this`showRequestForm, this`selectedEquipment)
      ensures unchanged(this`reason, this`duration, this`quantity, this`equipmentId)
    {
      searchTerm, selectedCategory, sortBy := "", AllCategories, "name";
    }

    /** `handleRequest(equipment)`: open the form for this item with quantity
        one, keeping the reason and duration already typed. */
    method HandleRequest(equipment: Item)
      modifies this
      ensures Valid() && showRequestForm && selectedEquipment == Some(equipment)
      ensures equipmentId == equipment.id && quantity == 1
      ensures reason == old(reason) && duration == old(duration)
      ensures unchanged(this`equipmentList, this`searchTerm, this`selectedCategory, this`sortBy)
    {
      selectedEquipment := Some(equipment);
      equipmentId := equipment.id;
      quantity := 1;
      showRequestForm := true;
    }

    /** The close button, the cancel button and a click outside the form. */
    method CloseForm()
      modifies this
      requires Valid()
      ensures Valid() && !showRequestForm
      ensures unchanged(this`equipmentList, this`selectedEquipment, this`reason, this`duration, this`quantity, this`equipmentId)
    {
      showRequestForm := false;
    }

    method SetReason(text: string)
      modifies this
      requires Valid()
      ensures Valid() && reason == text
      ensures unchanged(this`equipmentList, this`showRequestForm, this`selectedEquipment, this`duration, this`quantity, this`equipmentId)
    {
      reason := text;
    }

    method DecreaseDuration()
      modifies this
      requires Valid()
      ensures Valid() && duration == DurationDown(old(duration))
      ensures unchanged(this`equipmentList, this`showRequestForm, this`selectedEquipment, this`reason, this`quantity, this`equipmentId)
    {
      duration := DurationDown(duration);
    }

    method IncreaseDuration()
      modifies this
      requires Valid()
      ensures Valid() && duration == DurationUp(old(duration))
      ensures unchanged(this`equipmentList, this`showRequestForm, this`selectedEquipment, this`reason, this`quantity, this`equipmentId)
    {
      duration := DurationUp(duration);
    }

    method TypeDuration(parsed: Option<int>)
      modifies this
      requires Valid()
      ensures Valid() && duration == TypedDuration(parsed)
      ensures unchanged(this`equipmentList, this`showRequestForm, this`selectedEquipment, this`reason, this`quantity, this`equipmentId)
    {
      duration := TypedDuration(parsed);
    }

    method DecreaseQuantity()
      modifies this
      requires Valid()
      ensures Valid() && quantity == QuantityDown(old(quantity))
      ensures unchanged(this`equipmentList, this`showRequestForm, this`selectedEquipment, this`reason, this`duration, this`equipmentId)
    {
      quantity := QuantityDown(quantity);
    }

    method IncreaseQuantity()
      modifies this
      requires Valid() && showRequestForm
      ensures unchanged(this`equipmentList, this`showRequestForm, this`selectedEquipment, this`reason, this`duration, this`equipmentId)
      ensures Valid() && quantity == QuantityUp(old(quantity), old(selectedEquipment).value.available)
    {
      quantity := QuantityUp(quantity, selectedEquipment.value.available);
    }

    method TypeQuantity(parsed: Option<int>)
      modifies this
      requires Valid() && showRequestForm
      ensures unchanged(this`equipmentList, this`showRequestForm, this`selectedEquipment, this`reason, this`duration, this`equipmentId)
      ensures Valid() && quantity == TypedQuantity(parsed, old(selectedEquipment).value.available)
    {
      quantity := TypedQuantity(parsed, selectedEquipment.value.available);
    }

    /** What follows the POST in `handleSubmit`: on success the form closes
        and the chosen item's stock drops by the quantity; a failure or a
        thrown error changes nothing. */
    method HandleReply(reply: ServerReply) returns (result: SubmitResult)
      modifies this
      requires Valid() && showRequestForm
      ensures Valid()
      ensures reply == Success ==>
        && result == RequestSubmitted && !showRequestForm
        && equipmentList == DecrementStock(old(equipmentList), old(selectedEquipment).value.id, quantity)
      ensures reply.Failure? ==> result == RequestFailed(reply.message) && unchanged(this)
      ensures reply == NetworkError ==> result == ServerError && unchanged(this)
      ensures unchanged(this`selectedEquipment, this`reason, this`duration, this`quantity, this`equipmentId,
                        this`searchTerm, this`selectedCategory, this`sortBy)
    {
      match reply {
        case Success =>
          showRequestForm := false;
          equipmentList := DecrementStock(equipmentList, selectedEquipment.value.id, quantity);
          result := RequestSubmitted;
        case Failure(message) =>
          result := RequestFailed(message);
        case NetworkError =>
          result := ServerError;
      }
    }

    /** `handleSubmit`: a reason that is blank after trimming is refused
        before anything is sent. Otherwise the form is posted; on success the
        form closes and the chosen item's stock drops by the quantity. */
    method HandleSubmit(reply: ServerReply) returns (result: SubmitResult, posted: Option<RequestBody>)
      modifies this
      requires Valid() && showRequestForm
      ensures Valid()
      ensures posted.None? <==> IsBlank(old(reason))
      ensures posted.None? ==> result == MissingReason && unchanged(this)
      ensures posted.Some? ==> posted.value == RequestBody(userId, reason, duration, quantity, equipmentId)
      ensures posted.Some? && reply == Success ==>
        && result == RequestSubmitted && !showRequestForm
        && equipmentList == DecrementStock(old(equipmentList), old(selectedEquipment).value.id, quantity)
      ensures posted.Some? && reply.Failure? ==> result == RequestFailed(reply.message) && unchanged(this)
      ensures posted.Some? && reply == NetworkError ==> result == ServerError && unchanged(this)
      ensures unchanged(this`selectedEquipment, this`reason, this`duration, this`quantity, this`equipmentId,
                        this`searchTerm, this`selectedCategory, this`sortBy)
    {
      TrimEmptyIffBlank(reason);
      if Trim(reason) == [] {
        return MissingReason, None;
      }
      posted := Some(RequestBody(userId, reason, duration, quantity, equipmentId));
      result := HandleReply(reply);
    }
  }

  /** With stock on hand, every way of setting the quantity keeps it between
      one and the stock. */
  lemma QuantityStaysInRange(q: int, available: int, parsed: Option<int>)
    requires 1 <= q <= available
    ensures 1 <= QuantityDown(q) <= available
    ensures 1 <= QuantityUp(q, available) <= available
    ensures 1 <= TypedQuantity(parsed, available) <= available
  {
  }
}
