/**
 * The payment page: the guard on the navigation state it receives, the amount it
 * charges, the checkout options, and the gateway's success handler that saves the
 * participant, sends the confirmation e-mail and moves on to the success page.
 */
module Payment {
  import opened Wrappers
  import opened Text
  import opened Games

  /**
   * One entry of `state.teamMembers`, which may come from anywhere: a string, a
   * non-null object, or any other value, given by its `String(m)` text (`null` is "null").
   * An object is taken to carry `name` and `fullName` as strings ("" when absent or
   * empty); `values` holds each own value as `join` renders it (`String` of the value,
   * "" for `null` and `undefined`).
   */
  datatype Member = Str(s: string) | Obj(name: string, fullName: string, values: seq<string>) | Other(text: string)

  /** The navigation state the page reads; "" and 0 stand for absent fields. */
  datatype PaymentState = PaymentState(
    fullName: string,
    email: string,
    phone: string,
    collegeName: string,
    department: string,
    city: string,
    eventName: string,
    fee: int,
    selectedGame: Option<Game>,
    category: string,
    teamName: string,
    teamMembers: Option<seq<Member>>)

  /** `state?.teamMembers?.length || 0`. */
  function MemberCount(s: PaymentState): nat {
    if s.teamMembers.Some? then |s.teamMembers.value| else 0
  }

  /** `!state || !state.eventName || !state.fee`: no state, no event name, or a zero fee. */
  predicate ShouldRedirect(state: Option<PaymentState>) {
    state.None? || state.value.eventName == "" || state.value.fee == 0
  }

  predicate PerPerson(s: PaymentState) {
    s.selectedGame.Some? && s.selectedGame.value.feeType == "perPerson"
  }

  /** `totalAmount`: the fee, multiplied by the players when the game is priced per person. */
  function TotalAmount(s: PaymentState): (r: int)
    ensures !PerPerson(s) ==> r == s.fee
    ensures PerPerson(s) ==> r == s.fee * (MemberCount(s) + 1)
    ensures PerPerson(s) && MemberCount(s) == 0 ==> r == s.fee
    ensures s.fee > 0 ==> r >= s.fee
  {
    var total := s.fee;
    if PerPerson(s) then s.fee * (MemberCount(s) + 1) else total
  }

  /** What the checkout widget is opened with (the fixed key, name, image and theme are left out). */
  datatype CheckoutOptions = CheckoutOptions(
    amount: int,
    currency: string,
    description: string,
    prefillName: string,
    prefillEmail: string,
    prefillContact: string,
    notesTeamName: string,
    notesGame: string)

  function CheckoutFor(s: PaymentState): (o: CheckoutOptions)
    ensures o.amount % 100 == 0 && o.amount / 100 == TotalAmount(s)
    ensures o.currency == "INR"
    ensures o.notesTeamName == if s.teamName == "" then "Solo" else s.teamName
    ensures o.notesTeamName != ""
  {
    CheckoutOptions(TotalAmount(s) * 100, "INR", "Registration for " + s.eventName,
                    s.fullName, s.email, s.phone, if s.teamName == "" then "Solo" else s.teamName, s.eventName)
  }

  /** `handlePayment`: the checkout opens only once the gateway's script has loaded. */
  function OpenCheckout(scriptLoaded: bool, s: PaymentState): (r: Option<CheckoutOptions>)
    ensures r.Some? <==> scriptLoaded
    ensures r.Some? ==> r.value.amount == TotalAmount(s) * 100
  {
    if scriptLoaded then Some(CheckoutFor(s)) else None
  }

  /** The text one member is saved as. */
  function MemberText(m: Member): string {
    match m
    case Str(s) => s
    case Obj(name, fullName, values) =>
      if name != "" then name else if fullName != "" then fullName else Join(values, " ")
    case Other(text) => text
  }

  /** `(state.teamMembers || []).map(...)`: one string per member, in order. */
  function NormaliseMembers(ms: Option<seq<Member>>): (r: seq<string>)
    ensures ms.None? ==> r == []
    ensures ms.Some? ==> |r| == |ms.value|
    ensures ms.Some? ==> forall i :: 0 <= i < |r| ==> r[i] == MemberText(ms.value[i])
    ensures ms.Some? ==> forall i :: 0 <= i < |r| && ms.value[i].Str? ==> r[i] == ms.value[i].s
  {
    var xs := if ms.Some? then ms.value else [];
    seq(|xs|, i requires 0 <= i < |xs| => MemberText(xs[i]))
  }

  /** A roster of plain strings is saved exactly as it is. */
  lemma NormaliseStrings(names: seq<string>)
    ensures NormaliseMembers(Some(seq(|names|, i requires 0 <= i < |names| => Str(names[i])))) == names
  {
  }

  /** The body of the `POST /api/participants` request. */
  datatype ParticipantRecord = ParticipantRecord(
    fullName: string,
    email: string,
    phone: string,
    collegeName: string,
    department: string,
    city: string,
    eventName: string,
    category: string,
    teamName: string,
    teamMembers: seq<string>,
    fee: int,
    paymentId: string)

  /** `state.selectedGame?.category || state.category || "Unknown"`. */
  function CategoryOf(s: PaymentState): (r: string)
    ensures r != ""
    ensures s.selectedGame.Some? && s.selectedGame.value.category != "" ==> r == s.selectedGame.value.category
    ensures (s.selectedGame.None? || s.selectedGame.value.category == "") && s.category != "" ==> r == s.category
    ensures (s.selectedGame.None? || s.selectedGame.value.category == "") && s.category == "" ==> r == "Unknown"
  {
    if s.selectedGame.Some? && s.selectedGame.value.category != "" then s.selectedGame.value.category
    else if s.category != "" then s.category
    else "Unknown"
  }

  function ParticipantFor(s: PaymentState, paymentId: string): (p: ParticipantRecord)
    ensures p.fee == TotalAmount(s) && p.paymentId == paymentId
    ensures p.category == CategoryOf(s) && p.category != "" && p.teamMembers == NormaliseMembers(s.teamMembers)
    ensures p.fullName == s.fullName && p.email == s.email && p.phone == s.phone && p.eventName == s.eventName
    ensures p.collegeName == s.collegeName && p.department == s.department && p.city == s.city
    ensures p.teamName == s.teamName
  {
    ParticipantRecord(s.fullName, s.email, s.phone, s.collegeName, s.department, s.city, s.eventName,
                      CategoryOf(s), if s.teamName != "" then s.teamName else "",
                      NormaliseMembers(s.teamMembers), TotalAmount(s), paymentId)
  }

  /** The template parameters of the confirmation e-mail. */
  datatype EmailParams = EmailParams(fullName: string, eventName: string, fee: int, email: string)

  function EmailFor(s: PaymentState): (e: EmailParams)
    ensures e.fee == ParticipantFor(s, "").fee
    ensures e.fullName == s.fullName && e.email == s.email && e.eventName == s.eventName
  {
    EmailParams(s.fullName, s.eventName, TotalAmount(s), s.email)
  }

  /** The navigation state of `/success`. */
  datatype SuccessState = SuccessState(
    fullName: string,
    email: string,
    eventName: string,
    fee: int,
    paymentId: string,
    collegeName: string,
    department: string,
    city: string)

  function SuccessFor(s: PaymentState, paymentId: string): (r: SuccessState)
    ensures r.fee == ParticipantFor(s, paymentId).fee && r.paymentId == ParticipantFor(s, paymentId).paymentId
    ensures r.fullName == s.fullName && r.email == s.email && r.eventName == s.eventName
    ensures r.collegeName == s.collegeName && r.department == s.department && r.city == s.city
  {
    SuccessState(s.fullName, s.email, s.eventName, TotalAmount(s), paymentId, s.collegeName, s.department, s.city)
  }

  /** One observable step of the success handler. */
  datatype Effect =
    | PostParticipant(record: ParticipantRecord)
    | SendEmail(params: EmailParams)
    | LogInfo(message: string)
    | LogError(message: string)
    | Navigate(path: string, success: SuccessState)

  /**
   * The gateway's `handler`: try the POST, then try the e-mail, each in its own
   * try/catch, then navigate. `postThrows` and `emailThrows` say how the two calls end.
   */
  method HandlePaymentResponse(s: PaymentState, paymentId: string, postThrows: bool, emailThrows: bool)
    returns (trace: seq<Effect>)
    ensures |trace| == 5
    ensures trace[0] == PostParticipant(ParticipantFor(s, paymentId))
    ensures trace[1].LogError? <==> postThrows
    ensures trace[2] == SendEmail(EmailFor(s))
    ensures trace[3].LogError? <==> emailThrows
    ensures trace[4] == Navigate("/success", SuccessFor(s, paymentId))
    ensures forall i :: 0 <= i < 4 ==> !trace[i].Navigate?
  {
    var participant := ParticipantFor(s, paymentId);
    trace := [PostParticipant(participant)];
    if postThrows {
      trace := trace + [LogError("Failed to save participant")];
    } else {
      trace := trace + [LogInfo("Participant saved to DB")];
    }
    trace := trace + [SendEmail(EmailFor(s))];
    if emailThrows {
      trace := trace + [LogError("Email sending failed")];
    } else {
      trace := trace + [LogInfo("Confirmation email sent")];
    }
    trace := trace + [Navigate("/success", SuccessFor(s, paymentId))];
  }

  /** The "Participants" line of the confirmation card. */
  function ParticipantsLabel(s: PaymentState): string {
    if s.selectedGame.Some? && s.selectedGame.value.kind == "Team"
    then NatToString(MemberCount(s) + 1) + " members"
    else "Individual"
  }

  /** A Team game's label reads back as the number of players; any other game is "Individual". */
  lemma ParticipantsLabelCounts(s: PaymentState)
    ensures s.selectedGame.Some? && s.selectedGame.value.kind == "Team" ==>
      (var shown := ParticipantsLabel(s);
       && |shown| > 8
       && shown[|shown| - 8..] == " members"
       && AllDigits(shown[..|shown| - 8])
       && ParseNat(shown[..|shown| - 8]) == MemberCount(s) + 1)
    ensures !(s.selectedGame.Some? && s.selectedGame.value.kind == "Team") ==> ParticipantsLabel(s) == "Individual"
  {
    if s.selectedGame.Some? && s.selectedGame.value.kind == "Team" {
      var digits := NatToString(MemberCount(s) + 1);
      assert (digits + " members")[..|digits|] == digits;
      ParseNatToString(MemberCount(s) + 1);
    }
  }

  /** How loading the page ends. */
  datatype PageOutcome = RenderError | RedirectToRegister(alert: string) | Confirm(total: int)

  const NoEventAlert := "No event selected. Please register again."

  /**
   * The page as written: the render reads `state.fee` for `totalAmount` before the
   * mount effect with the guard runs, so a missing state throws during the render.
   */
  function LoadAsWritten(state: Option<PaymentState>): (o: PageOutcome)
    ensures state.None? ==> o == RenderError
    ensures state.Some? && ShouldRedirect(state) ==> o == RedirectToRegister(NoEventAlert)
    ensures state.Some? && !ShouldRedirect(state) ==> o == Confirm(TotalAmount(state.value))
  {
    if state.None? then RenderError
    else if ShouldRedirect(state) then RedirectToRegister(NoEventAlert)
    else Confirm(TotalAmount(state.value))
  }

  /** Direct navigation without a state never reaches the guard's redirect. */
  lemma MissingStateNeverRedirects()
    ensures LoadAsWritten(None) == RenderError
    ensures ShouldRedirect(None)
  {
  }

  /** The page as the guard intends it: every guarded case goes back to `/register`. */
  function Load(state: Option<PaymentState>): (o: PageOutcome)
    ensures o.RedirectToRegister? <==> state.None? || state.value.eventName == "" || state.value.fee == 0
    ensures o.Confirm? ==> state.Some? && o.total == TotalAmount(state.value)
    ensures !o.RenderError?
  {
    if ShouldRedirect(state) then RedirectToRegister(NoEventAlert) else Confirm(TotalAmount(state.value))
  }

  /** The two agree on every page load that arrives with a state. */
  lemma LoadAgreesWithState(s: PaymentState)
    ensures Load(Some(s)) == LoadAsWritten(Some(s))
  {
  }
}
