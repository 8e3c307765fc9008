/**
 * The registration-to-payment hand-off: what the payment page makes of the state the
 * registration page sends, and what the dashboard exports of the record it saves.
 */
module Checkout {
  import opened Wrappers
  import opened Text
  import opened Games
  import Register
  import Payment
  import Admin

  /** The payment page's reading of the registration page's navigation state. */
  function FromRegister(p: Register.Payload): (s: Payment.PaymentState)
    ensures s.fee == p.fee && s.eventName == p.eventName && s.selectedGame == Some(p.selectedGame)
    ensures Payment.MemberCount(s) == |p.teamMembers|
    ensures Payment.NormaliseMembers(s.teamMembers) == p.teamMembers
  {
    var members := seq(|p.teamMembers|, i requires 0 <= i < |p.teamMembers| => Payment.Str(p.teamMembers[i]));
    Payment.NormaliseStrings(p.teamMembers);
    Payment.PaymentState(p.form.fullName, p.form.email, p.form.phone, p.form.collegeName, p.form.department,
                         p.form.city, p.eventName, p.fee, Some(p.selectedGame), p.category, p.form.teamName,
                         Some(members))
  }

  /** The amount charged for a submitted registration, in rupees. */
  function Charged(open: bool, form: Register.Form, game: Game, roster: seq<string>): int
    requires Register.Submit(open, form, Some(game), roster).ToPayment?
  {
    Payment.TotalAmount(FromRegister(Register.Submit(open, form, Some(game), roster).state))
  }

  /**
   * A Team game priced per person is charged twice over for its players: the
   * registration page multiplies the fee by the players, and the payment page
   * multiplies that again, so `n` extra members pay `fee * (n + 1) * (n + 1)`.
   */
  lemma TeamPerPersonSquares(form: Register.Form, game: Game, roster: seq<string>)
    requires game.kind == "Team" && game.feeType == "perPerson"
    requires |form.phone| == 10 && AllDigits(form.phone)
    ensures Register.Submit(true, form, Some(game), roster).ToPayment?
    ensures Charged(true, form, game, roster) == game.fee * (|roster| + 1) * (|roster| + 1)
  {
    var p := Register.Submit(true, form, Some(game), roster).state;
    assert Payment.PerPerson(FromRegister(p));
  }

  /** A game with a flat fee is charged the registration page's fee: the fee times the players of a Team game, the fee once otherwise. */
  lemma FlatFeeChargedOnce(form: Register.Form, game: Game, roster: seq<string>)
    requires game.feeType != "perPerson"
    requires |form.phone| == 10 && AllDigits(form.phone)
    ensures Register.Submit(true, form, Some(game), roster).ToPayment?
    ensures Charged(true, form, game, roster) == game.fee * (if game.kind == "Team" then |roster| + 1 else 1)
  {
  }

  /** A per-person game that is not a Team game is multiplied only by the payment page. */
  lemma SoloPerPersonChargedByRoster(form: Register.Form, game: Game, roster: seq<string>)
    requires game.kind != "Team" && game.feeType == "perPerson"
    requires |form.phone| == 10 && AllDigits(form.phone)
    ensures Register.Submit(true, form, Some(game), roster).ToPayment?
    ensures Charged(true, form, game, roster) == game.fee * (|roster| + 1)
  {
  }

  /**
   * A Team game of fee 70 priced per person, with two extra members: a rule of
   * "fee times players" would charge 70 * 3 = 210 rupees; the pages as written
   * charge 630.
   */
  lemma HackathonCharge()
    ensures
      var game := Game("h", "Hack-a-thon", "Technical", "Team", 4, 70, "perPerson", "");
      var form := Register.EmptyForm.(phone := "1234567890", game := "Hack-a-thon");
      Register.Submit(true, form, Some(game), ["ana", "bo"]).ToPayment? &&
      Charged(true, form, game, ["ana", "bo"]) == 630
  {
    var game := Game("h", "Hack-a-thon", "Technical", "Team", 4, 70, "perPerson", "");
    var form := Register.EmptyForm.(phone := "1234567890", game := "Hack-a-thon");
    TeamPerPersonSquares(form, game, ["ana", "bo"]);
  }

  /** A free game gets through registration and is then turned back by the payment page's guard. */
  lemma FreeGameBouncesBack(form: Register.Form, game: Game, roster: seq<string>)
    requires game.fee == 0
    requires |form.phone| == 10 && AllDigits(form.phone)
    ensures Register.Submit(true, form, Some(game), roster).ToPayment?
    ensures Payment.Load(Some(FromRegister(Register.Submit(true, form, Some(game), roster).state))).RedirectToRegister?
  {
  }

  /** A paid game with a name passes the guard on to the confirmation with the charged amount. */
  lemma PaidGameConfirms(form: Register.Form, game: Game, roster: seq<string>)
    requires game.fee > 0 && game.name != ""
    requires |form.phone| == 10 && AllDigits(form.phone)
    ensures Register.Submit(true, form, Some(game), roster).ToPayment?
    ensures Payment.Load(Some(FromRegister(Register.Submit(true, form, Some(game), roster).state)))
            == Payment.Confirm(Charged(true, form, game, roster))
  {
    var p := Register.Submit(true, form, Some(game), roster).state;
    assert p.fee == game.fee * (if game.kind == "Team" then |roster| + 1 else 1);
  }

  /** The dashboard's reading of a record the payment page saved. */
  function Stored(r: Payment.ParticipantRecord): Admin.Participant {
    Admin.Participant(r.fullName, r.email, r.phone, r.collegeName, r.department, r.city, r.eventName,
                      r.category, r.teamName, Some(r.teamMembers), r.fee, r.paymentId)
  }

  /**
   * A saved registration exports with the gateway's payment id, its category (never "-",
   * since the payment page always fills one in) and the charged amount after the rupee sign.
   */
  lemma ExportOfPaidRegistration(s: Payment.PaymentState, paymentId: string)
    requires Payment.TotalAmount(s) >= 0
    ensures var row := Admin.ExportRow(Stored(Payment.ParticipantFor(s, paymentId)));
      && Admin.Cell(row, 11) == paymentId
      && Admin.Cell(row, 7) == Payment.CategoryOf(s)
      && ParseNat(Admin.Cell(row, 10)[1..]) == Payment.TotalAmount(s)
  {
    Admin.FeeCellReadsBack(Payment.TotalAmount(s));
  }
}
