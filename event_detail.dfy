/** The event detail page (src/pages/EventDetailPage.jsx): whether
    registration is open, the days left to register, who may register, the
    label of the register button, and the registration submit. Dates are
    milliseconds since the epoch; `now` is the clock reading. */
module EventDetail {
  import opened Common

  const DayMs: int := 1000 * 60 * 60 * 24

  /** `Math.ceil(a / b)` for a positive divisor. */
  function CeilDiv(a: int, b: int): (r: int)
    requires b > 0
    ensures b * (r - 1) < a <= b * r
  {
    -((-a) / b)
  }

  /** `calculateDaysRemaining`: whole days (rounded up) until the deadline,
      and zero once it has passed. */
  function DaysRemaining(deadline: int, now: int): (days: nat)
    ensures days > 0 <==> deadline > now
    ensures deadline > now ==> DayMs * (days - 1) < deadline - now <= DayMs * days
  {
    var d := CeilDiv(deadline - now, DayMs);
    if d > 0 then d else 0
  }

  predicate IsRegistrationOpen(deadline: int, now: int)
  {
    deadline >= now
  }

  /** Days remain only while registration is open; at the deadline instant
      itself registration is still open with zero days left. */
  lemma DaysRemainingOnlyWhileOpen(deadline: int, now: int)
    ensures DaysRemaining(deadline, now) > 0 ==> IsRegistrationOpen(deadline, now)
    ensures IsRegistrationOpen(deadline, now) && DaysRemaining(deadline, now) == 0 <==> deadline == now
  {
  }

  /** The store's `auth` slice: a token (empty when signed out), the admin's
      approval, and the user id `auth.id` (empty when unknown). */
  datatype Session = Session(token: string, isVerifiedByAdmin: bool, userId: string)

  /** The store as far as this page reads it: the `auth` slice, and the value
      under the root key `id` ("" when there is no such key, which reads as
      `undefined`). */
  datatype Store = Store(auth: Session, rootId: string)

  /** The user as the page reads it: `state.id`, at the root of the store. */
  function UserAsWritten(st: Store): string { st.rootId }

  /** The user as every other page reads it: `state.auth.id`. */
  function UserOf(st: Store): string { st.auth.userId }

  predicate CanRegister(s: Session, deadline: int, now: int)
  {
    s.token != "" && s.isVerifiedByAdmin && IsRegistrationOpen(deadline, now)
  }

  /** The register button's label, chosen in order. */
  function ButtonLabel(s: Session, deadline: int, now: int): (caption: string)
    ensures s.token == "" ==> caption == "Login To Register"
    ensures s.token != "" && !s.isVerifiedByAdmin ==> caption == "Profile Not Approved"
    ensures s.token != "" && s.isVerifiedByAdmin && !IsRegistrationOpen(deadline, now) ==> caption == "Registration Closed"
    ensures caption == "Register Now" <==> CanRegister(s, deadline, now)
  {
    if s.token == "" then "Login To Register"
    else if !s.isVerifiedByAdmin then "Profile Not Approved"
    else if IsRegistrationOpen(deadline, now) then "Register Now"
    else "Registration Closed"
  }

  /** The sentence under the open/closed heading. */
  function DeadlineText(deadline: int, now: int): (text: string)
    ensures !IsRegistrationOpen(deadline, now) ==> text == "The registration deadline has passed"
    ensures IsRegistrationOpen(deadline, now) ==>
      text == DecimalString(DaysRemaining(deadline, now)) + " days remaining to register"
  {
    if IsRegistrationOpen(deadline, now)
    then DecimalString(DaysRemaining(deadline, now)) + " days remaining to register"
    else "The registration deadline has passed"
  }

  /** The "Duration" line: the event's length in days, rounded up. */
  function DurationDays(startDate: int, endDate: int): (days: int)
    ensures DayMs * (days - 1) < endDate - startDate <= DayMs * days
    ensures startDate <= endDate ==> days >= 0
  {
    CeilDiv(endDate - startDate, DayMs)
  }

  // ---------------------------------------------------------------------------
  // handleSubmit
  // ---------------------------------------------------------------------------

  datatype RegistrationForm = RegistrationForm(termsAccepted: bool, rulesAccepted: bool,
                                               teamName: string, teamMembers: string)

  /** The POST the page sends: event id, user id and the form as its body. */
  datatype RegisterRequest = RegisterRequest(eventId: string, userId: string, body: RegistrationForm)

  /** How the server answered: a success status, an error status with the
      body's message, or a failure to reach it or to parse its reply. */
  datatype Reply = Ok | Refused(message: string) | Thrown

  datatype Toast = SuccessToast(text: string) | ErrorToast(text: string)

  /** What a submit leaves behind: the request sent (if any), the toast, and
      whether the form closes. `isSubmitting` is false again afterwards on
      every path. */
  datatype Outcome = Outcome(request: Option<RegisterRequest>, toast: Toast, closeForm: bool)

  function Submit(userId: string, eventId: string, form: RegistrationForm, reply: Reply): (o: Outcome)
    ensures userId == "" ==> o == Outcome(None, ErrorToast("User not authenticated"), false)
    ensures userId != "" ==> o.request == Some(RegisterRequest(eventId, userId, form))
    ensures userId != "" ==> (o.closeForm <==> reply == Ok)
    ensures userId != "" && reply == Ok ==> o.toast == SuccessToast("Registration successful!")
    ensures userId != "" && reply.Refused? ==> o.toast == ErrorToast(reply.message)
    ensures userId != "" && reply == Thrown ==>
      o.toast == ErrorToast("An error occurred during registration. Please try again later.")
  {
    if userId == "" then Outcome(None, ErrorToast("User not authenticated"), false)
    else
      var request := Some(RegisterRequest(eventId, userId, form));
      match reply
      case Ok => Outcome(request, SuccessToast("Registration successful!"), true)
      case Refused(message) => Outcome(request, ErrorToast(message), false)
      case Thrown => Outcome(request, ErrorToast("An error occurred during registration. Please try again later."), false)
  }

  /** As written, with no root key `id`: a signed-in, approved user inside the
      registration window is offered "Register Now", and submitting is
      refused as "User not authenticated" before any request is sent. */
  lemma RegisterNowRefusedAsWritten(st: Store, deadline: int, now: int, eventId: string,
                                    form: RegistrationForm, reply: Reply)
    requires st.rootId == "" && CanRegister(st.auth, deadline, now)
    ensures ButtonLabel(st.auth, deadline, now) == "Register Now"
    ensures Submit(UserAsWritten(st), eventId, form, reply) == Outcome(None, ErrorToast("User not authenticated"), false)
  {
  }

  /** Reading the user from `auth`, the same user's submit reaches the server
      with their id, and the form closes exactly on success. */
  lemma RegisterNowReachesServer(st: Store, deadline: int, now: int, eventId: string,
                                 form: RegistrationForm, reply: Reply)
    requires st.auth.userId != "" && CanRegister(st.auth, deadline, now)
    ensures ButtonLabel(st.auth, deadline, now) == "Register Now"
    ensures Submit(UserOf(st), eventId, form, reply).request == Some(RegisterRequest(eventId, st.auth.userId, form))
    ensures Submit(UserOf(st), eventId, form, reply).closeForm <==> reply == Ok
  {
  }

  /** No request without a user id: the only way to the server is signed in. */
  lemma RequestNeedsUser(userId: string, eventId: string, form: RegistrationForm, reply: Reply)
    ensures Submit(userId, eventId, form, reply).request.Some? <==> userId != ""
    ensures Submit(userId, eventId, form, reply).closeForm ==> userId != "" && reply == Ok
  {
  }
}
