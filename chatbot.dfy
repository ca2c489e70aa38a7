/** The assistant widget's dialogue engine (src/components/Chatbot.jsx): a
    transcript of turns and an "awaiting a message for the admin" flag, driven
    by a fixed, priority-ordered chain of exact string matches against four
    menu commands and two read-only catalogs. */
module Chatbot {
  import opened Common

  datatype Speaker = User | Bot

  datatype Icon = Guide | EquipmentIcon | EventIcon | ContactIcon

  /** How the renderer treats a turn: inert text, a suggestion chip that
      re-submits its own text, a link to an event, or a "reserve" action
      carrying an equipment id. */
  datatype TurnKind =
    | Text
    | Suggestion(icon: Icon)
    | EventLink(eventId: string)
    | ActionLink(action: string, equipmentId: string)

  datatype Turn = Turn(text: string, sender: Speaker, kind: TurnKind, isHeader: bool, isTyping: bool)

  /** One entry of the equipment catalog fetched at mount. */
  datatype EquipmentEntry = EquipmentEntry(id: string, equipmentname: string, availableQuantity: int)

  /** One entry of the event catalog fetched at mount. */
  datatype EventEntry = EventEntry(id: string, title: string)

  /** What a submission asks of the world outside the transcript. */
  datatype Effect = NoEffect | PostToAdmin(message: string) | NavigateToEvent(eventId: string)

  /** The bot turns a submission appends, the new value of the awaiting flag,
      and the side effect it starts. */
  datatype Reply = Reply(turns: seq<Turn>, awaiting: bool, effect: Effect)

  function UserTurn(text: string): Turn { Turn(text, User, Text, false, false) }
  function BotText(text: string): Turn { Turn(text, Bot, Text, false, false) }
  function Header(text: string): Turn { Turn(text, Bot, Text, true, false) }
  function Chip(text: string, icon: Icon): Turn { Turn(text, Bot, Suggestion(icon), false, false) }

  const HowToUse := "How to Use"
  const Equipments := "Equipments"
  const CurrentEvents := "Current Events"
  const ContactAdmin := "Contact Admin"

  /** The welcome turn followed by the four menu suggestions. */
  const SeedTranscript: seq<Turn> := [
    BotText("Welcome to Sportalon! How can I assist you today?"),
    Chip(HowToUse, Guide),
    Chip(Equipments, EquipmentIcon),
    Chip(CurrentEvents, EventIcon),
    Chip(ContactAdmin, ContactIcon)
  ]

  const HelpTurns: seq<Turn> := [
    BotText("Welcome to Sportalon! Here's how to get started:"),
    BotText("• Browse equipment availability and reserve what you need"),
    BotText("• Check out upcoming sports events and register"),
    BotText("• Contact admin for any special requests"),
    BotText("Upcoming PDF Guides")
  ]

  const EquipmentPrompt := "Choose equipment to check availability:"
  const EventsPrompt := "Here are the upcoming sports events:"
  const AdminPrompt := "Type your message for the admin below:"
  const TypingTurn := Turn("Sending message...", Bot, Text, false, true)
  const SentText := "✅ Your message has been sent to the admin. They will get back to you soon!"
  const FailedText := "❌ Failed to send message. Please try again later or contact support directly."
  const RedirectText := "Redirecting to event details..."
  const ReserveText := "Reserve Equipment"

  const FallbackTurns: seq<Turn> := [
    BotText("I'm not sure about that. Would you like to:"),
    Chip("Check Equipment", EquipmentIcon),
    Chip("View Events", EventIcon),
    Chip(ContactAdmin, ContactIcon)
  ]

  /** The four menu commands, which are exactly the texts of the seed
      transcript's suggestion chips. */
  predicate IsMenuLiteral(text: string)
    ensures IsMenuLiteral(text) <==> exists k :: 1 <= k < |SeedTranscript| && SeedTranscript[k].text == text
  {
    assert SeedTranscript[1].text == HowToUse && SeedTranscript[2].text == Equipments;
    assert SeedTranscript[3].text == CurrentEvents && SeedTranscript[4].text == ContactAdmin;
    text == HowToUse || text == Equipments || text == CurrentEvents || text == ContactAdmin
  }

  /** One suggestion chip per equipment entry, labelled with its name. */
  function EquipmentChips(eqs: seq<EquipmentEntry>): (r: seq<Turn>)
    ensures |r| == |eqs|
    ensures forall i :: 0 <= i < |eqs| ==> r[i] == Chip(eqs[i].equipmentname, EquipmentIcon)
  {
    seq(|eqs|, i requires 0 <= i < |eqs| => Chip(eqs[i].equipmentname, EquipmentIcon))
  }

  /** One event link per event entry, labelled with its title and carrying its id. */
  function EventLinks(evs: seq<EventEntry>): (r: seq<Turn>)
    ensures |r| == |evs|
    ensures forall i :: 0 <= i < |evs| ==> r[i] == Turn(evs[i].title, Bot, EventLink(evs[i].id), false, false)
  {
    seq(|evs|, i requires 0 <= i < |evs| => Turn(evs[i].title, Bot, EventLink(evs[i].id), false, false))
  }

  predicate NamedAs(text: string, e: EquipmentEntry) { e.equipmentname == text }
  predicate TitledAs(text: string, e: EventEntry) { e.title == text }

  /** "Available: N" for a positive stock, "Currently unavailable" otherwise. */
  function AvailabilityText(quantity: int): (r: string)
    ensures quantity > 0 ==> r == "Available: " + DecimalString(quantity)
    ensures quantity <= 0 ==> r == "Currently unavailable"
  {
    if quantity > 0 then "Available: " + DecimalString(quantity) else "Currently unavailable"
  }

  /** Header, availability line and reserve action for one equipment entry. */
  function EquipmentDetail(text: string, e: EquipmentEntry): (r: seq<Turn>)
    ensures |r| == 3 && r[0].isHeader && r[0].text == text
    ensures r[1].text == AvailabilityText(e.availableQuantity)
    ensures r[2].kind == ActionLink("reserve", e.id)
    ensures forall k :: 0 <= k < 3 ==> r[k].sender == Bot && !r[k].isTyping
  {
    [Header(text), BotText(AvailabilityText(e.availableQuantity)),
     Turn(ReserveText, Bot, ActionLink("reserve", e.id), false, false)]
  }

  /** The rule chain of `sendMessage` for a non-blank text, first match wins:
      the four menu commands, then the awaiting-admin branch, then an
      equipment name, then an event title, then the fallback. */
  function Respond(text: string, awaiting: bool, eqs: seq<EquipmentEntry>, evs: seq<EventEntry>): (r: Reply)
    ensures r.effect.PostToAdmin? <==> awaiting && !IsMenuLiteral(text)
    ensures r.effect.PostToAdmin? ==> r.effect.message == text && r.turns == [TypingTurn]
    ensures r.awaiting <==> text == ContactAdmin || (awaiting && IsMenuLiteral(text))
    ensures |r.turns| >= 1 && forall k :: 0 <= k < |r.turns| ==> r.turns[k].sender == Bot
  {
    if text == HowToUse then Reply(HelpTurns, awaiting, NoEffect)
    else if text == Equipments then Reply([BotText(EquipmentPrompt)] + EquipmentChips(eqs), awaiting, NoEffect)
    else if text == CurrentEvents then Reply([BotText(EventsPrompt)] + EventLinks(evs), awaiting, NoEffect)
    else if text == ContactAdmin then Reply([BotText(AdminPrompt)], true, NoEffect)
    else if awaiting then Reply([TypingTurn], false, PostToAdmin(text))
    else match FindFirst(eqs, e => NamedAs(text, e))
      case Some(i) => Reply(EquipmentDetail(text, eqs[i]), awaiting, NoEffect)
      case None =>
        match FindFirst(evs, e => TitledAs(text, e))
        case Some(j) => Reply([Header(evs[j].title), BotText(RedirectText)], awaiting, NavigateToEvent(evs[j].id))
        case None => Reply(FallbackTurns, awaiting, NoEffect)
  }

  predicate NotTyping(t: Turn) { !t.isTyping }

  predicate NoTypingTurns(m: seq<Turn>)
  {
    forall i :: 0 <= i < |m| ==> !m[i].isTyping
  }

  /** The turn that replaces the typing indicator once the POST settles. */
  function ResolutionTurn(sent: bool): (t: Turn)
    ensures t.sender == Bot && !t.isTyping
    ensures t.text == SentText <==> sent
  {
    BotText(if sent then SentText else FailedText)
  }

  // ---------------------------------------------------------------------------
  // Properties of the rule chain
  // ---------------------------------------------------------------------------

  /** The menu commands are matched before the awaiting branch: while a message
      is awaited they still answer as usual and never reach the admin call. */
  lemma MenuLiteralsBypassAdmin(text: string, eqs: seq<EquipmentEntry>, evs: seq<EventEntry>)
    requires IsMenuLiteral(text)
    ensures Respond(text, true, eqs, evs).turns == Respond(text, false, eqs, evs).turns
    ensures Respond(text, true, eqs, evs).effect == NoEffect
    ensures Respond(text, false, eqs, evs).effect == NoEffect
    ensures text != ContactAdmin ==> Respond(text, true, eqs, evs).awaiting
  {
  }

  /** "Equipments": one prompt, then one chip per catalog entry, in catalog
      order, labelled with its name; the flag is left alone. */
  lemma EquipmentsListsCatalog(awaiting: bool, eqs: seq<EquipmentEntry>, evs: seq<EventEntry>)
    ensures var r := Respond(Equipments, awaiting, eqs, evs);
      && |r.turns| == 1 + |eqs|
      && r.turns[0] == BotText(EquipmentPrompt)
      && (forall i :: 0 <= i < |eqs| ==>
            r.turns[i + 1].text == eqs[i].equipmentname && r.turns[i + 1].kind == Suggestion(EquipmentIcon))
      && r.awaiting == awaiting && r.effect == NoEffect
  {
    assert Equipments[0] != HowToUse[0];
    var r := Respond(Equipments, awaiting, eqs, evs);
    var chips := EquipmentChips(eqs);
    assert r.turns == [BotText(EquipmentPrompt)] + chips;
    forall i | 0 <= i < |eqs|
      ensures r.turns[i + 1].text == eqs[i].equipmentname && r.turns[i + 1].kind == Suggestion(EquipmentIcon)
    {
      assert r.turns[i + 1] == chips[i];
    }
  }

  /** "Current Events": one prompt, then one event link per entry, in catalog
      order, carrying the entry's id. */
  lemma CurrentEventsListsCatalog(awaiting: bool, eqs: seq<EquipmentEntry>, evs: seq<EventEntry>)
    ensures var r := Respond(CurrentEvents, awaiting, eqs, evs);
      && |r.turns| == 1 + |evs|
      && r.turns[0] == BotText(EventsPrompt)
      && (forall i :: 0 <= i < |evs| ==>
            r.turns[i + 1].text == evs[i].title && r.turns[i + 1].kind == EventLink(evs[i].id))
      && r.awaiting == awaiting && r.effect == NoEffect
  {
    assert CurrentEvents[0] != HowToUse[0] && CurrentEvents[0] != Equipments[0];
    var r := Respond(CurrentEvents, awaiting, eqs, evs);
    var links := EventLinks(evs);
    assert r.turns == [BotText(EventsPrompt)] + links;
    forall i | 0 <= i < |evs|
      ensures r.turns[i + 1].text == evs[i].title && r.turns[i + 1].kind == EventLink(evs[i].id)
    {
      assert r.turns[i + 1] == links[i];
    }
  }

  /** "Contact Admin": one prompt, and the flag is set, whatever it was. */
  lemma ContactAdminArms(awaiting: bool, eqs: seq<EquipmentEntry>, evs: seq<EventEntry>)
    ensures Respond(ContactAdmin, awaiting, eqs, evs) == Reply([BotText(AdminPrompt)], true, NoEffect)
  {
  }

  /** While awaiting, any other text becomes exactly one typing turn and one
      POST carrying the text, and the flag is cleared. */
  lemma AwaitingRoutesToAdmin(text: string, eqs: seq<EquipmentEntry>, evs: seq<EventEntry>)
    requires !IsMenuLiteral(text)
    ensures Respond(text, true, eqs, evs) == Reply([TypingTurn], false, PostToAdmin(text))
  {
  }

  /** An equipment name wins over an event title: the block is the name as a
      header, the availability line of the FIRST entry with that name, and one
      reserve action carrying that entry's id. */
  lemma EquipmentMatchShowsDetail(text: string, eqs: seq<EquipmentEntry>, evs: seq<EventEntry>, i: nat)
    requires !IsMenuLiteral(text)
    requires i < |eqs| && eqs[i].equipmentname == text
    requires forall j :: 0 <= j < i ==> eqs[j].equipmentname != text
    ensures var r := Respond(text, false, eqs, evs);
      && |r.turns| == 3
      && r.turns[0] == Header(text)
      && r.turns[1].text == (if eqs[i].availableQuantity > 0
                             then "Available: " + DecimalString(eqs[i].availableQuantity)
                             else "Currently unavailable")
      && r.turns[2].kind == ActionLink("reserve", eqs[i].id)
      && r.effect == NoEffect && !r.awaiting
  {
    var f := FindFirst(eqs, e => NamedAs(text, e));
    assert f.Some?;
    assert f.value == i;
  }

  /** An event title that is no equipment name: the title as a header, the
      redirect notice, and exactly one navigation to the first such event. */
  lemma EventMatchRedirects(text: string, eqs: seq<EquipmentEntry>, evs: seq<EventEntry>, j: nat)
    requires !IsMenuLiteral(text)
    requires forall k :: 0 <= k < |eqs| ==> eqs[k].equipmentname != text
    requires j < |evs| && evs[j].title == text
    requires forall k :: 0 <= k < j ==> evs[k].title != text
    ensures Respond(text, false, eqs, evs) == Reply([Header(text), BotText(RedirectText)], false, NavigateToEvent(evs[j].id))
  {
    var g := FindFirst(evs, e => TitledAs(text, e));
    assert FindFirst(eqs, e => NamedAs(text, e)).None?;
    assert g.Some?;
    assert g.value == j;
  }

  /** Text matching nothing: the fallback line and exactly three suggestions. */
  lemma NoMatchFallsBack(text: string, eqs: seq<EquipmentEntry>, evs: seq<EventEntry>)
    requires !IsMenuLiteral(text)
    requires forall k :: 0 <= k < |eqs| ==> eqs[k].equipmentname != text
    requires forall k :: 0 <= k < |evs| ==> evs[k].title != text
    ensures var r := Respond(text, false, eqs, evs);
      && r == Reply(FallbackTurns, false, NoEffect)
      && |r.turns| == 4
      && (forall k :: 1 <= k < 4 ==> r.turns[k].kind.Suggestion?)
      && [r.turns[1].text, r.turns[2].text, r.turns[3].text] == ["Check Equipment", "View Events", ContactAdmin]
  {
    assert FindFirst(eqs, e => NamedAs(text, e)).None?;
    assert FindFirst(evs, e => TitledAs(text, e)).None?;
  }

  /** Two of the fallback's suggestions are not menu commands: tapping "Check
      Equipment" or "View Events" when no catalog entry carries that label
      yields the fallback once more. */
  lemma FallbackSuggestionsLoop(eqs: seq<EquipmentEntry>, evs: seq<EventEntry>, k: nat)
    requires 1 <= k < 3
    requires forall i :: 0 <= i < |eqs| ==> eqs[i].equipmentname != FallbackTurns[k].text
    requires forall i :: 0 <= i < |evs| ==> evs[i].title != FallbackTurns[k].text
    ensures Respond(FallbackTurns[k].text, false, eqs, evs).turns == FallbackTurns
  {
    NoMatchFallsBack(FallbackTurns[k].text, eqs, evs);
  }

  /** A catalog item submitted twice from a clear flag: the transcript that
      `Conversation.SendMessage` leaves after the two submissions is the old
      one followed twice by the user's turn and the same three-turn block of
      the first entry with that name, and the flag stays clear. */
  lemma RepeatedItemRepeatsBlock(m: seq<Turn>, text: string, eqs: seq<EquipmentEntry>, evs: seq<EventEntry>, i: nat)
    requires !IsMenuLiteral(text)
    requires i < |eqs| && eqs[i].equipmentname == text
    requires forall j :: 0 <= j < i ==> eqs[j].equipmentname != text
    ensures var r1 := Respond(text, false, eqs, evs);
      var m1 := m + [UserTurn(text)] + r1.turns;
      var r2 := Respond(text, r1.awaiting, eqs, evs);
      var block := [UserTurn(text)] + EquipmentDetail(text, eqs[i]);
      && !r2.awaiting && r2.effect == NoEffect
      && m1 + [UserTurn(text)] + r2.turns == m + block + block
  {
    var f := FindFirst(eqs, e => NamedAs(text, e));
    assert f.Some?;
    assert f.value == i;
    var d := EquipmentDetail(text, eqs[i]);
    assert Respond(text, false, eqs, evs).turns == d;
    assert m + [UserTurn(text)] + d + [UserTurn(text)] + d == m + ([UserTurn(text)] + d) + ([UserTurn(text)] + d);
  }

  /** A whole admin exchange: "Contact Admin" has armed the flag, the user
      sends a text that is no menu command, the POST settles. Afterwards the
      transcript is the old one plus the user's turn and exactly one
      resolution turn (the typing turn is gone) and the flag is clear. */
  lemma AdminExchange(m: seq<Turn>, text: string, eqs: seq<EquipmentEntry>, evs: seq<EventEntry>, sent: bool)
    requires NoTypingTurns(m)
    requires !IsMenuLiteral(text)
    ensures var r := Respond(text, true, eqs, evs);
      && !r.awaiting && r.effect == PostToAdmin(text)
      && Filter(m + [UserTurn(text)] + r.turns, NotTyping) + [ResolutionTurn(sent)]
         == m + [UserTurn(text), ResolutionTurn(sent)]
  {
    AwaitingRoutesToAdmin(text, eqs, evs);
    var a := m + [UserTurn(text)];
    assert NoTypingTurns(a);
    TypingTurnRemoved(a);
  }

  /** Removing the typing turns after one typing turn was appended to a
      transcript without any gives that transcript back. */
  lemma TypingTurnRemoved(a: seq<Turn>)
    requires NoTypingTurns(a)
    ensures Filter(a + [TypingTurn], NotTyping) == a
  {
    FilterConcat(a, [TypingTurn], NotTyping);
    FilterKeepsAll(a, NotTyping);
    assert Filter([TypingTurn], NotTyping) == [];
  }

  /** The widget's state. The catalogs are read-only inputs of each
      submission; the POST and the navigation are returned as effects. */
  class Conversation {
    var messages: seq<Turn>
    var input: string
    var awaitingAdminMessage: bool

    constructor ()
      ensures messages == SeedTranscript && input == "" && !awaitingAdminMessage
    {
      messages := SeedTranscript;
      input := "";
      awaitingAdminMessage := false;
    }

    /** The compose box's `onChange`. */
    method SetInput(text: string)
      modifies this
      ensures input == text
      ensures messages == old(messages) && awaitingAdminMessage == old(awaitingAdminMessage)
    {
      input := text;
    }

    /** `sendMessage(text)`: a blank text changes nothing; any other text is
        appended as a user turn, the compose box is cleared, and the rule
        chain's reply is appended. The 500 ms delays are taken as immediate. */
    method SendMessage(text: string, eqs: seq<EquipmentEntry>, evs: seq<EventEntry>) returns (effect: Effect)
      modifies this
      ensures IsBlank(text) ==>
        && messages == old(messages) && input == old(input)
        && awaitingAdminMessage == old(awaitingAdminMessage) && effect == NoEffect
      ensures !IsBlank(text) ==>
        var r := Respond(text, old(awaitingAdminMessage), eqs, evs);
        && messages == old(messages) + [UserTurn(text)] + r.turns
        && input == "" && awaitingAdminMessage == r.awaiting && effect == r.effect
    {
      TrimEmptyIffBlank(text);
      if Trim(text) == [] {
        return NoEffect;
      }
      messages := messages + [UserTurn(text)];
      input := "";
      var r := Respond(text, awaitingAdminMessage, eqs, evs);
      messages := messages + r.turns;
      awaitingAdminMessage := r.awaiting;
      effect := r.effect;
    }

    /** The POST's `.then` / `.catch`: every typing turn is removed and one
        success or failure turn is appended, in a single update. */
    method ResolveAdminContact(sent: bool)
      modifies this
      ensures messages == Filter(old(messages), NotTyping) + [ResolutionTurn(sent)]
      ensures NoTypingTurns(messages)
      ensures input == old(input) && awaitingAdminMessage == old(awaitingAdminMessage)
    {
      messages := Filter(messages, NotTyping) + [ResolutionTurn(sent)];
    }

    /** `restartChat`: back to the five seed turns, whatever came before. */
    method RestartChat()
      modifies this
      ensures messages == SeedTranscript && |messages| == 5
      ensures messages[0].kind == Text && forall k :: 1 <= k < 5 ==> messages[k].kind.Suggestion?
      ensures input == "" && !awaitingAdminMessage
    {
      messages := SeedTranscript;
      input := "";
      awaitingAdminMessage := false;
    }
  }
}
