# Sportalon front end: a verified model of its logic

Sportalon is a college sports portal. Students browse and reserve equipment,
find events and register for them, take a small quiz and talk to an
assistant widget. Admins review equipment requests, manage events and
approve users. This project models in Dafny the logic of ten of its React
components and proves properties of that model:

- the assistant's dialogue engine (`Chatbot`);
- the sports quiz (`SportsQuiz`);
- the equipment catalog with its request form (`EquipmentPage`);
- the admin's equipment-request table (`AdminEquipment`);
- the admin's event list (`AdminEvents`);
- the public events page (`EventsPage`);
- the admin's user list (`AdminUsers`);
- the two-step sign-up wizard (`Signup`);
- the event detail page's registration rules (`EventDetail`);
- the testimonials carousel (`Testimonials`).

`Common` holds what several of them share:
- JavaScript's `toLowerCase` and `includes`, modelled on ASCII;
- `trim` with JavaScript's white space;
- an order-preserving `Filter` with its counting lemmas;
- a stable insertion sort `SortBy` over any total preorder, proved sorted
  and a permutation of its input;
- the decimal rendering of numbers.

Each component keeps its own form:
- State a component updates in place (`useState` fields changed by
  handlers) is a `class`. Its handlers are methods whose `ensures` state the
  whole new state.
- Pure computations (filters, sorts, status rules, the chatbot's rule chain,
  the password score) are functions. Their contracts say what the result
  means, and lemmas relate them to each other.

The world outside the components comes in as parameters:
- server replies are datatypes passed to the handlers;
- the clock ("now", "today at midnight") is an integer number of
  milliseconds;
- the locale's string order is a parameter `collate`, required to be a
  total preorder.

Requests, navigation and refetches leave the handlers as return values.

## Model

| member | source | states |
|---|---|---|
| Chatbot.Conversation.constructor | src/components/Chatbot.jsx:8-19 | The transcript starts as the welcome line and four menu suggestions, the compose box is empty and no admin message is awaited. |
| Chatbot.Conversation.SetInput | src/components/Chatbot.jsx:332 | Typing changes only the compose box. |
| Chatbot.Conversation.SendMessage | src/components/Chatbot.jsx:66-241 | A text that is blank after trimming changes nothing. Any other text appends the user's turn, clears the box, appends the rule chain's reply turns, sets the awaiting flag to the reply's and returns the reply's side effect. |
| Chatbot.Conversation.ResolveAdminContact | src/components/Chatbot.jsx:137-160 | When the admin POST settles, every typing turn is removed and exactly one success or failure line is appended. The transcript then holds no typing turn. |
| Chatbot.Conversation.RestartChat | src/components/Chatbot.jsx:243-253 | Whatever came before, the transcript is the five seed turns again (one text, four suggestions), the box is empty and the flag is clear. |
| Chatbot.EquipmentChips | src/components/Chatbot.jsx:98-111 | One suggestion chip per catalog entry, in catalog order, labelled with the entry's name. |
| Chatbot.EventLinks | src/components/Chatbot.jsx:112-126 | One event link per catalog entry, in catalog order, labelled with its title and carrying its id. |
| Chatbot.AvailabilityText | src/components/Chatbot.jsx:168-170 | A positive stock reads "Available: N" and any other stock reads "Currently unavailable". |
| Chatbot.IsMenuLiteral | src/components/Chatbot.jsx:71-133 | The texts the chain matches first are exactly those of the seed transcript's four suggestion chips. |
| Chatbot.EquipmentDetail | src/components/Chatbot.jsx:163-191 | The block for one entry has three bot turns: the text as a header, the entry's availability line, and a reserve action carrying the entry's id. |
| Chatbot.Respond | src/components/Chatbot.jsx:66-240 | The rule chain for a non-blank text: it POSTs to the admin exactly when a message is awaited and the text is no menu command, and then the POST carries the text and the only turn is the typing turn. The flag afterwards is set exactly for "Contact Admin", or for another menu command while it was already set. Every reply has at least one turn, all from the bot. |
| Chatbot.ResolutionTurn | src/components/Chatbot.jsx:144-158 | The turn that replaces the typing indicator is a bot turn, not a typing one, and reads the success text exactly when the POST went through. |
| Chatbot.MenuLiteralsBypassAdmin | src/components/Chatbot.jsx:71-134 | The four menu commands are matched before the awaiting branch. While a message is awaited they answer as usual and never start the admin POST. |
| Chatbot.EquipmentsListsCatalog | src/components/Chatbot.jsx:98-111 | "Equipments" gives the prompt and then exactly one chip per equipment entry, and leaves the flag alone. |
| Chatbot.CurrentEventsListsCatalog | src/components/Chatbot.jsx:112-126 | "Current Events" gives the prompt and then exactly one link per event entry, carrying that event's id. |
| Chatbot.ContactAdminArms | src/components/Chatbot.jsx:127-133 | "Contact Admin" gives one prompt and sets the awaiting flag, whatever it was. |
| Chatbot.AwaitingRoutesToAdmin | src/components/Chatbot.jsx:134-161 | While awaiting, any non-menu text gives exactly one typing turn and one POST carrying that text, and clears the flag. |
| Chatbot.EquipmentMatchShowsDetail | src/components/Chatbot.jsx:163-191 | A text equal to an equipment name shows a three-turn block for the FIRST entry with that name: the name as a header, its availability line, and a reserve action with its id. |
| Chatbot.EventMatchRedirects | src/components/Chatbot.jsx:193-212 | A text equal to an event title, and to no equipment name, shows the title and the redirect line and navigates to the first such event. |
| Chatbot.NoMatchFallsBack | src/components/Chatbot.jsx:213-238 | A text matching nothing gives the fallback line and exactly three suggestions: "Check Equipment", "View Events" and "Contact Admin". |
| Chatbot.FallbackSuggestionsLoop | src/components/Chatbot.jsx:213-238 | Tapping "Check Equipment" or "View Events" gives the fallback again when no catalog entry has that label, since neither is a menu command. |
| Chatbot.RepeatedItemRepeatsBlock | src/components/Chatbot.jsx:163-191 | An equipment name sent twice from a clear flag: the transcript that two `SendMessage` calls leave is the old one followed twice by the user's turn and the same three-turn block of the first entry with that name; the flag stays clear and nothing is posted. |
| Chatbot.AdminExchange | src/components/Chatbot.jsx:127-161 | A whole exchange starting from an armed flag and a text that is no menu command: the transcript ends as the old one plus the user's turn and one resolution turn, with the flag clear. |
| Chatbot.TypingTurnRemoved | src/components/Chatbot.jsx:136-143 | Filtering out typing turns after one typing turn was appended to a transcript without any gives that transcript back. |
| SportsQuiz.CorrectCount | src/components/SportsQuiz.jsx:55-66 | The score after a run of answers is the number of answers equal to their question's correct answer. It never exceeds the number of answers. |
| SportsQuiz.PerfectIffAllCorrect | src/components/SportsQuiz.jsx:55-66 | The count equals the number of answers exactly when every answer is correct. |
| SportsQuiz.ResultMessage | src/components/SportsQuiz.jsx:192-198 | With five questions: 5 is "Perfect", 3 to 4 is "Good job" (the threshold is 5/2 = 2.5) and 0 to 2 is "Keep learning", each as an if-and-only-if. |
| SportsQuiz.Quiz.constructor | src/components/SportsQuiz.jsx:39-44 | The initial state: panel closed, first question, no answer, score 0. |
| SportsQuiz.Quiz.StartQuiz | src/components/SportsQuiz.jsx:46-53 | The panel opens at the first question with score 0, no answer and not completed. The score invariant holds again. |
| SportsQuiz.Quiz.ResetQuiz | src/components/SportsQuiz.jsx:77-84 | As start, but the panel is closed. |
| SportsQuiz.Quiz.AnswerSelect | src/components/SportsQuiz.jsx:55-75 | A second click on a question is ignored. A first click records the answer and adds one point iff it is correct. It then advances to the next question, or marks the quiz completed on the last one. The score always equals the number of correct answers given. |
| EquipmentPage.Matching | src/pages/EquipmentPage.jsx:92-99 | Exactly the items whose name contains the search term, ignoring case, and whose category is the selected one (or "All"). |
| EquipmentPage.SortedAndFiltered | src/pages/EquipmentPage.jsx:92-108 | A permutation of the matching items. It is sorted by name under the locale's order for "name" and by descending stock for "availability", and is left in catalog order for any other value. |
| EquipmentPage.ByNameTotalPreorder | src/pages/EquipmentPage.jsx:102-103 | Comparing names with the locale's order is a total preorder, so sorting by it is well defined. |
| EquipmentPage.ByAvailabilityTotalPreorder | src/pages/EquipmentPage.jsx:104-105 | Most stock first is a total preorder. |
| EquipmentPage.DurationDown | src/pages/EquipmentPage.jsx:547 | One day less, never below one. It keeps a duration within 1..30. |
| EquipmentPage.DurationUp | src/pages/EquipmentPage.jsx:562 | One day more, never above thirty. It keeps a duration within 1..30. |
| EquipmentPage.TypedDuration | src/pages/EquipmentPage.jsx:557 | The typed number, or 1 when it does not parse or is 0. The result is never 0. |
| EquipmentPage.QuantityDown | src/pages/EquipmentPage.jsx:577 | One less, never below one. |
| EquipmentPage.QuantityUp | src/pages/EquipmentPage.jsx:599-602 | One more, never above the item's stock. |
| EquipmentPage.TypedQuantity | src/pages/EquipmentPage.jsx:588-593 | The typed quantity clamped to 1..stock. A typed value in that range is kept. |
| EquipmentPage.QuantityStaysInRange | src/pages/EquipmentPage.jsx:575-604 | With stock on hand, each of the three ways of setting the quantity keeps it between 1 and the stock. |
| EquipmentPage.DecrementStock | src/pages/EquipmentPage.jsx:153-159 | Items with the requested id lose the requested quantity. Every other item is unchanged and the list keeps its length and order. |
| EquipmentPage.DecrementStockTotal | src/pages/EquipmentPage.jsx:153-159 | The page's total stock drops by the quantity once per item carrying the id. |
| EquipmentPage.DecrementStockNonNegative | src/pages/EquipmentPage.jsx:153-159 | When the quantity is at most the stock of the requested item, no stock becomes negative. |
| EquipmentPage.Page.constructor | src/pages/EquipmentPage.jsx:21-44 | The initial filters (search "", category "All", sort "name"); no form; duration and quantity 1. |
| EquipmentPage.Page.Load | src/pages/EquipmentPage.jsx:46-72 | The catalog becomes the delivered list, in order, each entry filed under "Sports Equipment", and nothing else changes. |
| EquipmentPage.Stamped | src/pages/EquipmentPage.jsx:53-62 | One item per delivered entry, in order, equal to it except that its category is "Sports Equipment". |
| EquipmentPage.CategoryMenuHidesNothing | src/pages/EquipmentPage.jsx:60-99 | On a loaded catalog every option of the category menu shows what "All" shows. |
| EquipmentPage.Page.Shown | src/pages/EquipmentPage.jsx:92-108 | The list on screen is a permutation of the matching items. |
| EquipmentPage.Page.ResetFilters | src/pages/EquipmentPage.jsx:291-295 | Search, category and sort go back to their initial values. The catalog and the form stay. |
| EquipmentPage.Page.HandleRequest | src/pages/EquipmentPage.jsx:110-118 | Opens the form for the chosen item, with its id and quantity 1. Reason and duration are kept. |
| EquipmentPage.Page.HandleSubmit | src/pages/EquipmentPage.jsx:120-173 | A reason that is blank after trimming posts nothing and changes nothing. Otherwise the body is user, reason, duration, quantity and item id. On success the form closes and the chosen item's stock drops by the quantity, while search, category, sort and the form's fields stay; a failure or a network error changes nothing else. |
| EquipmentPage.Page.HandleReply | src/pages/EquipmentPage.jsx:144-171 | On success the form closes and the chosen item's stock drops by the quantity, and nothing else changes; a failure or a thrown error changes nothing. |
| EquipmentPage.Page.CloseForm | src/pages/EquipmentPage.jsx:76-84 | The form closes and its contents stay. |
| EquipmentPage.Page.SetReason | src/pages/EquipmentPage.jsx:529-534 | Only the reason changes. |
| EquipmentPage.Page.DecreaseDuration | src/pages/EquipmentPage.jsx:547 | The duration becomes `DurationDown` of the old one. |
| EquipmentPage.Page.IncreaseDuration | src/pages/EquipmentPage.jsx:562 | The duration becomes `DurationUp` of the old one. |
| EquipmentPage.Page.TypeDuration | src/pages/EquipmentPage.jsx:557 | The duration becomes `TypedDuration` of the parsed input. |
| EquipmentPage.Page.DecreaseQuantity | src/pages/EquipmentPage.jsx:577 | The quantity becomes `QuantityDown` of the old one. |
| EquipmentPage.Page.IncreaseQuantity | src/pages/EquipmentPage.jsx:599-602 | The quantity becomes `QuantityUp`, capped by the chosen item's stock. |
| EquipmentPage.Page.TypeQuantity | src/pages/EquipmentPage.jsx:588-593 | The quantity becomes `TypedQuantity`, clamped by the chosen item's stock. |
| AdminEquipment.StatusOf | src/admin/Equipment.jsx:30-35 | An undecided request shows "", an accepted one "Accepted" and a rejected one "Rejected", each as an if-and-only-if. |
| AdminEquipment.ActionOf | src/admin/Equipment.jsx:51 | "Action Pending" exactly for undecided requests. |
| AdminEquipment.ToRow | src/admin/Equipment.jsx:29-54 | A row is pending with actions offered, or decided without actions. It carries the request's id, student, phone and item. |
| AdminEquipment.ToRows | src/admin/Equipment.jsx:29-54 | One well-formed row per request, in order, with the request's status. |
| AdminEquipment.Decide | src/admin/Equipment.jsx:85-88 | Rows with the id take the new status and lose their actions. Every other row is unchanged. |
| AdminEquipment.DecidePreservesWellFormed | src/admin/Equipment.jsx:85-88 | Accepting or rejecting keeps every row well formed. |
| AdminEquipment.FilteredRequests | src/admin/Equipment.jsx:130-139 | Exactly the rows whose student, item or mobile number contains the search term, ignoring case, and that pass the status filter. |
| AdminEquipment.StatusOptions | src/admin/Equipment.jsx:136-139 | "all" passes every row. "pending", "accepted" and "rejected" each pass exactly the rows with that status. |
| AdminEquipment.NoFilterShowsAll | src/admin/Equipment.jsx:130-139 | With no search and "all", the table shows every request in order. |
| AdminEquipment.CountsSumToTotal | src/admin/Equipment.jsx:365-373 | The pending, accepted and rejected counters add up to the number of requests. |
| AdminEquipment.DecideMovesCount | src/admin/Equipment.jsx:85-88 | Deciding the one pending request with an id lowers the pending counter by one and raises the accepted or rejected counter by one. |
| AdminEquipment.DecideAbsentIdChangesNothing | src/admin/Equipment.jsx:85-88 | Deciding an id no row has leaves the rows unchanged. |
| AdminEquipment.RequestTable.constructor | src/admin/Equipment.jsx:7-11 | No rows, no error, empty search, status filter "all". |
| AdminEquipment.RequestTable.Loaded | src/admin/Equipment.jsx:29-57 | The rows become the mapped requests and the error is cleared. |
| AdminEquipment.RequestTable.LoadFailed | src/admin/Equipment.jsx:20-27 | The error is set and the rows already shown stay. |
| AdminEquipment.RequestTable.Shown | src/admin/Equipment.jsx:130-139 | The table shows only rows it holds. |
| AdminEquipment.RequestTable.HandleAccept | src/admin/Equipment.jsx:67-96 | Unconfirmed, nothing happens. Confirmed and accepted by the server, the row becomes "Accepted". On an error status or a thrown error the rows stay and the matching alert is raised. |
| AdminEquipment.RequestTable.HandleReject | src/admin/Equipment.jsx:98-127 | The same, with "Rejected" and the reject alerts. |
| AdminEquipment.RequestTable.SetSearchTerm | src/admin/Equipment.jsx:10 | Only the search term changes. |
| AdminEquipment.RequestTable.SetFilterStatus | src/admin/Equipment.jsx:11 | Only the status filter changes. |
| AdminEvents.Searched | src/admin/Events.jsx:154-160 | Exactly the events whose title or description contains the term, ignoring case, and whose category equals the chosen one ignoring case (or any category when none is chosen). |
| AdminEvents.OnTabs | src/admin/Events.jsx:161-171 | Exactly the events on the active tab: "upcoming" starts at or after now, "past" starts before now, and any other tab shows all. |
| AdminEvents.EventOrderTotalPreorder | src/admin/Events.jsx:172-187 | Each sort field, in either direction, is a total preorder. |
| AdminEvents.FilterEvents | src/admin/Events.jsx:152-188 | A permutation of the events passing the three filters, with membership stated as an if-and-only-if, sorted by the chosen field and direction. |
| AdminEvents.TabsPartition | src/admin/Events.jsx:161-171 | The "upcoming" and "past" tabs together hold exactly what "all" holds, as multisets: each event is on exactly one of them, for the model's dates, which are all valid instants (see "## Left out"). |
| AdminEvents.StatusAt | src/admin/Events.jsx:337-349 | The first test that holds decides: completed after the end, ongoing between start and end, registration closed past the deadline, and otherwise upcoming. Each is an if-and-only-if. |
| AdminEvents.StatusTimeline | src/admin/Events.jsx:337-349 | For a deadline before the start and a start no later than the end, the four statuses are the four consecutive time intervals. |
| AdminEvents.Distinct | src/admin/Events.jsx:192 | `new Set` keeps each category once, in order of first occurrence. |
| AdminEvents.FirstIndexPrefix | src/admin/Events.jsx:192 | Appending values does not move a first occurrence. |
| AdminEvents.FirstIndex | src/admin/Events.jsx:192 | The position returned holds the value, and the value does not occur before it. |
| AdminEvents.Categories | src/admin/Events.jsx:191-194 | The empty "all categories" entry first, then every category some event has, each once. |
| AdminEvents.WithoutEvent | src/admin/Events.jsx:133-135 | The events without the deleted id, and exactly as many fewer as events carried it. |
| AdminEvents.WithoutAbsentEvent | src/admin/Events.jsx:133-135 | Deleting an id no event has leaves the list as it was. |
| AdminEvents.EmptyForm | src/admin/Events.jsx:89-105 | Thirteen empty fields. |
| AdminEvents.EventsPanel.constructor | src/admin/Events.jsx:13-39 | No events, no filters, sort by start date ascending, tab "upcoming", no form, an empty form. |
| AdminEvents.EventsPanel.Shown | src/admin/Events.jsx:152-188 | Only events the panel holds are shown. |
| AdminEvents.EventsPanel.Loaded | src/admin/Events.jsx:42-58 | The events become the fetched list. |
| AdminEvents.EventsPanel.ToggleSortOrder | src/admin/Events.jsx:19 | The direction flips and nothing else changes. |
| AdminEvents.EventsPanel.OpenForm | src/admin/Events.jsx:213 | The form opens with its fields as they were; nothing else changes. |
| AdminEvents.EventsPanel.CloseForm | src/admin/Events.jsx:448-449 | The form closes with its fields as they were; nothing else changes. |
| AdminEvents.EventsPanel.SetSearchTerm | src/admin/Events.jsx:228 | Only the search term changes. |
| AdminEvents.EventsPanel.SetCategoryFilter | src/admin/Events.jsx:238 | Only the category filter changes. |
| AdminEvents.EventsPanel.SetSortField | src/admin/Events.jsx:252-258 | Only the sort field changes. |
| AdminEvents.EventsPanel.SetActiveTab | src/admin/Events.jsx:278-298 | Only the active tab changes. |
| AdminEvents.EventsPanel.InputChange | src/admin/Events.jsx:61-67 | One form field takes the typed value. |
| AdminEvents.EventsPanel.Submit | src/admin/Events.jsx:69-114 | On success the form closes and resets to empty, with a success toast and a refetch. Otherwise the form stays and the failure toast names the server's message or the network error. |
| AdminEvents.EventsPanel.Delete | src/admin/Events.jsx:117-145 | Unconfirmed, nothing happens. Confirmed and successful, the event leaves the list with a success toast. Otherwise the list stays and the failure toast is shown. |
| EventsPage.Derive | src/pages/EventsPage.jsx:54-82 | "Available" iff the deadline is today at midnight or later, else "Closed". Featured iff the popularity exceeds 80. The other fields are copied. |
| EventsPage.DeriveAll | src/pages/EventsPage.jsx:54-82 | One derived event per fetched event, in order. |
| EventsPage.Filtered | src/pages/EventsPage.jsx:115-129 | Exactly the events matching status, category, and the search in title, description or location. |
| EventsPage.OrderForTotalPreorder | src/pages/EventsPage.jsx:132-147 | Every sort option is a total preorder. |
| EventsPage.FilteredAndSorted | src/pages/EventsPage.jsx:113-147 | A permutation of the filtered events. It is sorted by start, deadline, descending popularity or title for the four options, and is in fetched order otherwise. |
| EventsPage.FeaturedEvent | src/pages/EventsPage.jsx:155-156 | The first featured event still open; otherwise the first event; none only when there are no events. |
| EventsPage.ClearedFiltersShowAll | src/pages/EventsPage.jsx:159-164 | After clearing the filters, every event is listed, by start date. |
| EventsPage.Page.constructor | src/pages/EventsPage.jsx:18-25 | The initial filters: search "", status "All", category "All Sports", sort "date". |
| EventsPage.Page.Loaded | src/pages/EventsPage.jsx:43-84 | The events become the derived events. |
| EventsPage.Page.Shown | src/pages/EventsPage.jsx:150 | The list on screen holds exactly the events passing the filters. |
| EventsPage.Page.Featured | src/pages/EventsPage.jsx:155-156 | A featured event is one of the page's events. |
| EventsPage.Page.SetSearchTerm | src/pages/EventsPage.jsx:18 | Only the search term changes. |
| EventsPage.Page.SetStatus | src/pages/EventsPage.jsx:19 | Only the status filter changes. |
| EventsPage.Page.SetCategory | src/pages/EventsPage.jsx:20 | Only the category filter changes. |
| EventsPage.Page.SetSortBy | src/pages/EventsPage.jsx:25 | Only the sort option changes. |
| EventsPage.Page.ClearFilters | src/pages/EventsPage.jsx:159-164 | The four filters are reset and the events stay. |
| AdminUsers.UnverifiedFirst | src/admin/Users.jsx:52-54 | A permutation of the fetched page, sorted by the comparator, with every unverified user before every verified one. |
| AdminUsers.ByVerifiedTotalPreorder | src/admin/Users.jsx:52-54 | The comparator is a consistent total preorder. |
| AdminUsers.UnverifiedThenVerified | src/admin/Users.jsx:50-54 | Unverified users followed by verified users are sorted under the comparator, and no unverified user follows a verified one. |
| AdminUsers.ApproveRowsFirst | src/admin/Users.jsx:52-54 | On the sorted page, the rows offering "approve" form a prefix. |
| AdminUsers.FilteredUsers | src/admin/Users.jsx:92-94 | Exactly the loaded users whose name contains the search term, ignoring case. |
| AdminUsers.PrevPage | src/admin/Users.jsx:365 | One page back, never below page one. |
| AdminUsers.PrevDisabledIffNoEffect | src/admin/Users.jsx:365-366 | On any page from one upward, "Previous" is disabled exactly where clicking it would change nothing. |
| AdminUsers.NextPastLastPageAsWritten | src/admin/Users.jsx:396-397 | As written, once the page is beyond the page count (page one of a zero-page result, or a refetch that lowered the count) "Next" is enabled, and after the click it is beyond the count and still enabled. |
| AdminUsers.NextFromEmptyResultAsWritten | src/admin/Users.jsx:396-397 | The smallest instance: page one with zero pages, and page two after one click, both leave "Next" enabled. |
| AdminUsers.NextDisabled | src/admin/Users.jsx:396-397 | The corrected guard: disabled on and past the last page, and enabled exactly when one more page exists. |
| AdminUsers.NextStaysInRange | src/admin/Users.jsx:396-397 | Under the corrected guard, "Next" never leaves the page range. |
| AdminUsers.UserList.constructor | src/admin/Users.jsx:16-28 | No users, page 1, ten per page, one page, empty filters, no error. |
| AdminUsers.UserList.Loaded | src/admin/Users.jsx:30-59 | The users become the fetched page with unverified users first, the page count is stored and the error is cleared. |
| AdminUsers.UserList.LoadFailed | src/admin/Users.jsx:44-62 | The error is shown and the loaded rows stay. |
| AdminUsers.UserList.Shown | src/admin/Users.jsx:92-94 | The list shows only loaded users. |
| AdminUsers.UserList.SetSearchTerm | src/admin/Users.jsx:16 | Only the search term changes; the page number stays. |
| AdminUsers.UserList.Prev | src/admin/Users.jsx:362-366 | One page back. |
| AdminUsers.UserList.Next | src/admin/Users.jsx:395-397 | As written: enabled whenever the page is not the page count, and one page forward with no bound. |
| AdminUsers.UserList.LimitChange | src/admin/Users.jsx:382-385 | A new page size starts again at page one. |
| AdminUsers.UserList.FilterChange | src/admin/Users.jsx:127-134 | One filter takes the chosen value, the others keep theirs, and the page is one. |
| AdminUsers.UserList.Delete | src/admin/Users.jsx:97-121 | Unconfirmed, nothing happens. Success asks for a refetch. An error status or a thrown error sets the error message. |
| AdminUsers.UserList.Approve | src/admin/Users.jsx:136-160 | As delete, with a success or failure toast once confirmed. |
| Signup.Utf16Length | src/pages/SignupPage.jsx:41-42 | JavaScript's `length`: at least the number of characters, two units for a character beyond the Basic Multilingual Plane. |
| Signup.PasswordStrength | src/pages/SignupPage.jsx:39-47 | At most 5 and 0 for the empty password. It is 5 exactly when the password is longer than 10 units and has an upper case letter, a digit and a character that is neither. |
| Signup.StrengthGrowsWithTyping | src/pages/SignupPage.jsx:39-47 | Typing one more character never lowers the score. |
| Signup.LettersOnlyAtMostThree | src/pages/SignupPage.jsx:39-47 | A password of letters only scores at most 3, however long. |
| Signup.LitBars | src/pages/SignupPage.jsx:209-213 | Five bars, the bar at index k lit iff the score exceeds k. |
| Signup.Hint | src/pages/SignupPage.jsx:216 | The hint reads "Strong password" iff the score is at least 3. |
| Signup.StrongExample | src/pages/SignupPage.jsx:39-47 | "Abcdef1" (seven units, an upper case letter, a digit) is called strong. |
| Signup.InitialForm | src/pages/SignupPage.jsx:8-15 | Exactly the six fields, every one empty except user type, which is "student". |
| Signup.Wizard.constructor | src/pages/SignupPage.jsx:8-19 | The initial form, no error, no success message, step 1, strength 0. |
| Signup.Wizard.HandleChange | src/pages/SignupPage.jsx:25-37 | Only the named field changes. The strength is recomputed exactly when the field is the password, so it always matches the password. |
| Signup.Wizard.NextStep | src/pages/SignupPage.jsx:49-58 | With an empty name, e-mail or password, the error is set and the step stays 1. Otherwise the error is cleared and the step becomes 2. |
| Signup.Wizard.PrevStep | src/pages/SignupPage.jsx:60-63 | Back to step 1, with the error cleared. |
| Signup.Wizard.HandleSubmit | src/pages/SignupPage.jsx:69-100 | Success stores the account and sets the success message. A reply without success, or an error without a message, shows "Registration failed, please try again."; an error with a message shows that message. |
| EventDetail.CeilDiv | src/pages/EventDetailPage.jsx:56 | `Math.ceil(a / b)` for a positive divisor: the least r with a <= b*r. |
| EventDetail.DaysRemaining | src/pages/EventDetailPage.jsx:52-58 | Never negative. It is positive iff the deadline is still ahead, and then it is the number of days to it rounded up. |
| EventDetail.DaysRemainingOnlyWhileOpen | src/pages/EventDetailPage.jsx:52-58 | Days remain only while registration is open. Zero days with registration open happens exactly at the deadline instant. |
| EventDetail.ButtonLabel | src/pages/EventDetailPage.jsx:305-311 | "Login To Register" without a token, else "Profile Not Approved" without approval, else "Register Now" or "Registration Closed". "Register Now" is shown iff the user can register. |
| EventDetail.DeadlineText | src/pages/EventDetailPage.jsx:705-707 | "N days remaining to register" while open, else "The registration deadline has passed". |
| EventDetail.DurationDays | src/pages/EventDetailPage.jsx:720 | The event's length in days, rounded up; never negative when the end is not before the start. |
| EventDetail.Submit | src/pages/EventDetailPage.jsx:87-151 | Without a user id, no request is made and the "User not authenticated" toast is shown. Otherwise the POST carries event, user and form; the form closes iff the server said ok; the toast matches the reply. |
| EventDetail.RequestNeedsUser | src/pages/EventDetailPage.jsx:91-98 | A request is sent iff there is a user id, and the form closes only after a successful one. |
| EventDetail.RegisterNowRefusedAsWritten | src/pages/EventDetailPage.jsx:39-98 | As written the user is read from the store's root key `id`; with no such key, a signed-in, approved user inside the window is offered "Register Now" and then refused as "User not authenticated" without a request. |
| EventDetail.RegisterNowReachesServer | src/pages/EventDetailPage.jsx:39-151 | Reading the user from `auth.id`, the same user's submit is sent with their id and the form closes exactly on success. |
| Testimonials.NextIndex | src/components/TestimonialsSection.jsx:54-56 | The next index stays in range: one up, or 0 after the last. |
| Testimonials.PrevIndex | src/components/TestimonialsSection.jsx:48-52 | The previous index stays in range: one down, or the last after 0. |
| Testimonials.PrevUndoesNext | src/components/TestimonialsSection.jsx:48-56 | Previous after next is the identity on valid indices. |
| Testimonials.NextUndoesPrev | src/components/TestimonialsSection.jsx:48-56 | Next after previous is the identity on valid indices. |
| Testimonials.Advance | src/components/TestimonialsSection.jsx:38 | After any number of autoplay steps the index is in range. |
| Testimonials.AdvanceCounts | src/components/TestimonialsSection.jsx:38 | Short of the end, k steps move k places. |
| Testimonials.AdvanceAdds | src/components/TestimonialsSection.jsx:38 | a steps then b steps are a+b steps. |
| Testimonials.FullTurnReturns | src/components/TestimonialsSection.jsx:38 | n steps over n testimonials return to the starting index. |
| Testimonials.Carousel.constructor | src/components/TestimonialsSection.jsx:30-31 | Index 0 with autoplay on. |
| Testimonials.Carousel.Current | src/components/TestimonialsSection.jsx:97-110 | The card shown is one of the testimonials. |
| Testimonials.Carousel.HandleNext | src/components/TestimonialsSection.jsx:54-56 | The index becomes `NextIndex`; autoplay is untouched. |
| Testimonials.Carousel.HandlePrev | src/components/TestimonialsSection.jsx:48-52 | The index becomes `PrevIndex`; autoplay is untouched. |
| Testimonials.Carousel.AutoplayTick | src/components/TestimonialsSection.jsx:34-42 | While autoplay is on, a tick advances like "next". |
| Testimonials.Carousel.SelectDot | src/components/TestimonialsSection.jsx:138-141 | A dot sets the index directly. |
| Testimonials.Carousel.MouseEnter | src/components/TestimonialsSection.jsx:45 | Hovering turns autoplay off and keeps the index. |
| Testimonials.Carousel.MouseLeave | src/components/TestimonialsSection.jsx:46 | Leaving turns autoplay on and keeps the index. |
| Common.TrimEmptyIffBlank | src/components/Chatbot.jsx:67 | `text.trim()` is empty exactly when every character is JavaScript white space. |
| Common.Filter | src/admin/Users.jsx:92-94 | `Array.prototype.filter`: every element of the result is an input element satisfying the predicate, and every input element satisfying it is kept. |
| Common.FilterSubMultiset | src/admin/Users.jsx:92-94 | The filter's result is a sub-multiset of its input. |
| Common.FilterConcat | src/components/Chatbot.jsx:143 | Filtering a concatenation is concatenating the filtered parts. |
| Common.FilterKeepsAll | src/admin/Equipment.jsx:130-139 | A filter every element passes returns its input unchanged. |
| Common.FilterSplit | src/admin/Events.jsx:161-171 | Filtering by a predicate and by its negation splits the input, as multisets and by length. |
| Common.CountIsFilterLength | src/admin/Equipment.jsx:365-373 | Counting the elements that satisfy a predicate is the length of the filter by it. |
| Common.SortByCorrect | src/pages/EventsPage.jsx:132-147 | `Array.prototype.sort` with a consistent comparator: the result is a permutation of the input and is sorted. |
| Common.DecimalRoundTrip | src/components/Chatbot.jsx:169 | The decimal rendering of a number reads back as that number. |

## Left out

- Network calls, JSON parsing, toasts' styling, `alert`/`confirm` dialogs and logging: replies are inputs and effects are outputs.
- Routing and `window.location` navigation: at most an effect naming the target (the chatbot's event redirect, sign-up's stored account). Share links, `window.open` and the clipboard are not part of this model.
- Timers: the chatbot's 500 ms expansions, the quiz's 1500 ms advance, sign-up's 1 s redirect, the event detail's 600 ms load delay and the carousel's 5 s interval are each one immediate step. Interleavings with other clicks during a delay are not modelled.
- SportsQuiz.Quiz.AnswerSelect: the answer and the delayed advance are one step, so a reset during the 1500 ms delay cannot be expressed.
- Common.StrLt: Dafny orders characters by scalar value, JavaScript's `<` by UTF-16 code units, so a character above U+FFFF sorts after U+E000–U+FFFF here but before them in JavaScript.
- Common.Lower: ASCII-only case folding. JavaScript's `toLowerCase` also folds non-ASCII letters, so searches on such names may match differently.
- EquipmentPage.SortedAndFiltered, EventsPage.FilteredAndSorted: `localeCompare` is a parameter `collate` assumed to be a total preorder, not the real locale collation.
- AdminEvents.FilterEvents, EquipmentPage.SortedAndFiltered, EventsPage.FilteredAndSorted: the result is stated as sorted and a permutation. The order among ties is the stable sort's, but that order is not stated in the contract (the admin events comparator never reports a tie and does not define one).
- AdminUsers.UnverifiedFirst: defined as the stable partition (unverified, then verified, each in fetched order) that a stable sort with the comparator yields. Its equality with `Common.SortBy` under that comparator is not proved.
- AdminUsers.FilteredUsers: the search filters only the page already loaded, as the code does.
- AdminUsers.UserList.Next: keeps the guard as written (see "## Findings"), so the class can reach a page beyond the page count; the corrected guard is AdminUsers.NextDisabled, proved in range by AdminUsers.NextStaysInRange.
- Signup.PasswordStrength: the length counts UTF-16 code units. The regular expressions are read per character, which agrees with the per-code-unit reading for these classes.
- Signup.Wizard.HandleSubmit: browser form validation (required fields, the mobile number pattern) is not modelled; submission is taken as allowed.
- Sign-up's loading flag, the password visibility toggle and the step indicator are not part of this model.
- EventDetail: date strings are taken as already parsed to milliseconds, so every date is a valid instant; in the source a missing or unparsable date gives NaN, for which every comparison is false. Invalid dates and locale date formatting are not modelled.
- EventDetail.Submit: the user id is a parameter; where the page reads it from is modelled by EventDetail.Store (root key `id` as written, `auth.id` as on the other pages).
- AdminEvents.TabsPartition: holds for valid dates only; an event whose start date is missing or unparsable is on "all" but on neither the "upcoming" nor the "past" tab in the source.
- EventsPage.Derive: an event whose deadline is missing or unparsable is "Closed" in the source, since the comparison with today is false; the model has no such dates.
- EventsPage.Derive: "today at midnight" is an input, because the local time zone is not modelled. The random category, popularity and participant count are inputs; images and the participant count are not part of this model.
- AdminEquipment.ToRows: request dates and their formatting are not part of this model.
- AdminEquipment: a `null` decision counts as rejected, as `isAcceptedByAdmin === undefined` is false for it.
- AdminEvents.StatusAt: the colours that go with each status are not modelled.
- AdminEvents.OnTabs: tabs other than "upcoming" and "past" (the "all" tab) show everything.
- The admin events page's event click (navigation) and users' row click (navigation) are not part of this model.
- EquipmentPage: the view mode, the filter panel toggle, the loading skeleton and the progress-bar widths (floating point) are not modelled.
- EquipmentPage.Page.TypeDuration: the typed duration is not clamped, as in the code. The input's `min`/`max` attributes leave that to the browser.
- Chatbot: the catalogs are read-only inputs of each submission. The fetch at mount and the widget's open/close toggle are not modelled.
- Chatbot.Conversation.SendMessage: the rule chain follows the code, where the four menu commands are matched before the awaiting-admin branch.
- Testimonials: the quote texts and the animation are not part of the model; the testimonials carry id, name, role and image.

## Findings

| source | as written | input that shows it | evidently intended | confidence | as-written member | corrected member |
|---|---|---|---|---|---|---|
| src/admin/Users.jsx:396-397 | "Next" is disabled only when `page === totalPages` | an empty result reported as `totalPages` 0, on page 1: "Next" is enabled and moves to page 2, 3, … past the last page | disabled when `page >= totalPages` | not executed | AdminUsers.NextPastLastPageAsWritten | AdminUsers.NextStaysInRange |
| src/pages/EventDetailPage.jsx:39 | the user id is read as `state.id`, while the token and approval come from `state.auth` and every other page reads `state.auth.id` | a store whose root has no `id` key, with a signed-in, approved user inside the registration window: "Register Now" is shown and submitting gives "User not authenticated" | `state.auth.id` | plausible; not executed, and the store is not part of this model | EventDetail.RegisterNowRefusedAsWritten | EventDetail.RegisterNowReachesServer |
