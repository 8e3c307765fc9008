/**
 * The registration page: the draft form, its team roster, the game it has selected,
 * and the submit handler that validates the draft and computes the fee before handing
 * the draft to the payment page.
 */
module Register {
  import opened Wrappers
  import opened Text
  import opened Games
  import opened Roster

  /** The page's `form` object; `game` is the chosen game's name. */
  datatype Form = Form(
    fullName: string,
    email: string,
    phone: string,
    collegeName: string,
    city: string,
    department: string,
    game: string,
    teamName: string)

  const EmptyForm := Form("", "", "", "", "", "", "", "")

  /** The `name` attribute of the input that fired `handleInputChange`. */
  datatype Field = FullName | Email | Phone | CollegeName | City | Department | GameName | TeamName

  /** `{ ...form, [name]: value }`: one field replaced, the others kept. */
  function WithField(form: Form, field: Field, value: string): (r: Form)
    ensures GetField(r, field) == value
    ensures forall f :: f != field ==> GetField(r, f) == GetField(form, f)
  {
    match field
    case FullName => form.(fullName := value)
    case Email => form.(email := value)
    case Phone => form.(phone := value)
    case CollegeName => form.(collegeName := value)
    case City => form.(city := value)
    case Department => form.(department := value)
    case GameName => form.(game := value)
    case TeamName => form.(teamName := value)
  }

  function GetField(form: Form, field: Field): string {
    match field
    case FullName => form.fullName
    case Email => form.email
    case Phone => form.phone
    case CollegeName => form.collegeName
    case City => form.city
    case Department => form.department
    case GameName => form.game
    case TeamName => form.teamName
  }

  /** `/^[0-9]{10}$/.test(phone)`: ten ASCII digits, and nothing before or after them. */
  predicate MatchesTenDigits(phone: string) {
    |phone| == 10 && forall i :: 0 <= i < |phone| ==> '0' <= phone[i] <= '9'
  }

  /** The phone check of the submit handler: a length test, then the pattern. */
  predicate PhoneAccepted(phone: string) {
    !(|phone| != 10 || !MatchesTenDigits(phone))
  }

  /** The phone is accepted exactly when it is ten characters, each a decimal digit. */
  lemma PhoneAcceptedIff(phone: string)
    ensures PhoneAccepted(phone) <==> |phone| == 10 && AllDigits(phone)
  {
  }

  /** Players of a Team game are the registrant plus the roster; any other game is played alone. */
  function Players(game: Option<Game>, roster: seq<string>): nat {
    if game.Some? && game.value.kind == "Team" then |roster| + 1 else 1
  }

  /** `(selectedGame?.fee || 0) * totalPlayers`; an absent fee is recorded as 0 already. */
  function TotalFee(game: Option<Game>, roster: seq<string>): int {
    (if game.Some? then game.value.fee else 0) * Players(game, roster)
  }

  /** The navigation state handed to the payment page: the form spread out, plus the extras. */
  datatype Payload = Payload(
    form: Form,
    eventName: string,
    fee: int,
    selectedGame: Game,
    category: string,
    teamMembers: seq<string>)

  const ClosedAlert := "Registrations are currently closed."
  const PhoneAlert := "Phone number must be exactly 10 digits."

  /**
   * What submitting does: an alert and no navigation, a navigation to `/payment`,
   * or a TypeError when no game is selected (`selectedGame.name` on null).
   */
  datatype SubmitOutcome = Rejected(alert: string) | ToPayment(state: Payload) | NoGameError

  /** `handleSubmit`: the closed check first, then the phone, then the fee and the hand-off. */
  function Submit(open: bool, form: Form, selected: Option<Game>, roster: seq<string>): (o: SubmitOutcome)
    ensures !open ==> o == Rejected(ClosedAlert)
    ensures open && !(|form.phone| == 10 && AllDigits(form.phone)) ==> o == Rejected(PhoneAlert)
    ensures o.ToPayment? <==> open && |form.phone| == 10 && AllDigits(form.phone) && selected.Some?
    ensures open && |form.phone| == 10 && AllDigits(form.phone) && selected.None? ==> o == NoGameError
    ensures o.ToPayment? ==>
      && o.state.form == form
      && o.state.selectedGame == selected.value
      && o.state.eventName == selected.value.name
      && o.state.category == selected.value.category
      && o.state.teamMembers == roster
      && o.state.fee == selected.value.fee * (if selected.value.kind == "Team" then |roster| + 1 else 1)
  {
    if !open then Rejected(ClosedAlert)
    else if !PhoneAccepted(form.phone) then Rejected(PhoneAlert)
    else if selected.None? then NoGameError
    else ToPayment(Payload(form, selected.value.name, TotalFee(selected, roster), selected.value,
                           selected.value.category, roster))
  }

  /** A closed registration turns every draft away, however complete. */
  lemma ClosedRejectsAll(form: Form, selected: Option<Game>, roster: seq<string>)
    ensures Submit(false, form, selected, roster) == Rejected(ClosedAlert)
  {
  }

  /** A Solo game charges its fee once, whatever the roster holds. */
  lemma SoloChargesOnce(form: Form, game: Game, roster: seq<string>)
    requires game.kind == "Solo"
    requires |form.phone| == 10 && AllDigits(form.phone)
    ensures Submit(true, form, Some(game), roster).ToPayment?
    ensures Submit(true, form, Some(game), roster).state.fee == game.fee
  {
  }

  /** The effect on `[form.game, games]`: the first game with the chosen name, if any. */
  function Selection(games: seq<Game>, name: string): (r: Option<Game>)
    ensures r.Some? ==> r.value in games && r.value.name == name
    ensures r.Some? ==>
      exists i :: 0 <= i < |games| && games[i] == r.value && (forall j :: 0 <= j < i ==> games[j].name != name)
    ensures r.None? <==> forall g :: g in games ==> g.name != name
  {
    FindByName(games, name)
  }

  /** The same effect's roster: emptied when the selection is a Solo game, else kept. */
  function RosterAfterSelection(selected: Option<Game>, roster: seq<string>): seq<string> {
    if selected.Some? && selected.value.kind == "Solo" then [] else roster
  }

  /**
   * Switching from one Team game to another keeps the roster, so the new game's
   * size bound does not restrict it: the bound holds only while the game is fixed.
   */
  lemma SwitchKeepsOversizedRoster()
    ensures
      var big := Game("a", "Relay", "Technical", "Team", 4, 70, "", "");
      var small := Game("b", "Duo", "Technical", "Team", 2, 70, "", "");
      var roster := ApplyAll([], Capacity(Some(big)), [Add, Add, Add]);
      var after := RosterAfterSelection(Selection([big, small], "Duo"), roster);
      |after| == 3 && |after| > Bound(Capacity(Some(small)))
  {
    var big := Game("a", "Relay", "Technical", "Team", 4, 70, "", "");
    var small := Game("b", "Duo", "Technical", "Team", 2, 70, "", "");
    RepeatedAddFills([], Capacity(Some(big)), 3);
    assert [Add, Add, Add] == seq(3, _ => Add);
    assert FirstNamed([big, small], "Duo") == Some(1);
  }

  /** The registration page's state, as its `useState` hooks hold it. */
  class RegistrationPage {
    var category: string
    var games: seq<Game>
    var selectedGame: Option<Game>
    var teamMembers: seq<string>
    var registrationOpen: bool
    var loading: bool
    var form: Form

    constructor ()
      ensures category == "Technical" && games == [] && selectedGame == None
      ensures teamMembers == [] && registrationOpen && loading && form == EmptyForm
    {
      category := "Technical";
      games := [];
      selectedGame := None;
      teamMembers := [];
      registrationOpen := true;
      loading := true;
      form := EmptyForm;
    }

    /** `filteredGames`: the catalog entries of the current category, in catalog order. */
    function FilteredGames(): (r: seq<Game>)
      reads this
      ensures forall g :: g in r <==> g in games && g.category == category
    {
      WithCategory(games, category)
    }

    /** The add button's capacity for the current selection. */
    function RosterCapacity(): int
      reads this
    {
      Capacity(selectedGame)
    }

    /** The selection effect, run whenever the chosen name or the catalog changes. */
    method SyncSelection()
      modifies this
      ensures selectedGame == Selection(games, form.game)
      ensures teamMembers == RosterAfterSelection(selectedGame, old(teamMembers))
      ensures category == old(category) && games == old(games) && form == old(form)
      ensures registrationOpen == old(registrationOpen) && loading == old(loading)
    {
      var game := FindByName(games, form.game);
      selectedGame := game;
      if game.Some? && game.value.kind == "Solo" {
        teamMembers := [];
      }
    }

    /**
     * The mount fetch of `/api/games` and `/api/settings`: on success both are stored,
     * on failure neither is; loading ends either way. A stored catalog re-runs the selection.
     */
    method LoadData(result: Option<(seq<Game>, bool)>)
      modifies this
      ensures !loading
      ensures result.Some? ==> games == result.value.0 && registrationOpen == result.value.1
      ensures result.None? ==> games == old(games) && registrationOpen == old(registrationOpen)
      ensures result.Some? ==> selectedGame == Selection(games, form.game)
      ensures result.Some? ==> teamMembers == RosterAfterSelection(selectedGame, old(teamMembers))
      ensures result.None? ==> selectedGame == old(selectedGame) && teamMembers == old(teamMembers)
      ensures category == old(category) && form == old(form)
    {
      if result.Some? {
        games := result.value.0;
        registrationOpen := result.value.1;
      }
      loading := false;
      // every successful fetch stores a new array, so the `[form.game, games]` effect runs again
      if result.Some? {
        SyncSelection();
      }
    }

    /** `handleInputChange`: one form field; a new game name re-runs the selection. */
    method InputChange(field: Field, value: string)
      modifies this
      ensures form == WithField(old(form), field, value)
      ensures form.game != old(form.game) ==> selectedGame == Selection(games, form.game)
      ensures form.game != old(form.game) ==> teamMembers == RosterAfterSelection(selectedGame, old(teamMembers))
      ensures form.game == old(form.game) ==> selectedGame == old(selectedGame) && teamMembers == old(teamMembers)
      ensures category == old(category) && games == old(games)
      ensures registrationOpen == old(registrationOpen) && loading == old(loading)
    {
      var before := form.game;
      form := WithField(form, field, value);
      if form.game != before {
        SyncSelection();
      }
    }

    /** The category select: a new category, and the chosen game name cleared. */
    method ChangeCategory(c: string)
      modifies this
      ensures category == c && form == old(form).(game := "")
      ensures old(form.game) != "" ==> selectedGame == Selection(games, "")
      ensures old(form.game) != "" ==> teamMembers == RosterAfterSelection(selectedGame, old(teamMembers))
      ensures old(form.game) == "" ==> selectedGame == old(selectedGame) && teamMembers == old(teamMembers)
      ensures games == old(games) && registrationOpen == old(registrationOpen) && loading == old(loading)
    {
      var before := form.game;
      category := c;
      form := form.(game := "");
      if before != "" {
        SyncSelection();
      }
    }

    /** `handleAddTeamMember`. */
    method AddTeamMember()
      modifies this`teamMembers
      ensures teamMembers == AddMember(old(teamMembers), RosterCapacity())
    {
      if |teamMembers| < RosterCapacity() {
        teamMembers := teamMembers + [""];
      }
    }

    /** `handleTeamMemberChange`, called only for a rendered row. */
    method ChangeTeamMember(index: nat, value: string)
      requires index < |teamMembers|
      modifies this`teamMembers
      ensures teamMembers == SetMember(old(teamMembers), index, value)
    {
      var updated := teamMembers;
      updated := updated[index := value];
      teamMembers := updated;
    }

    /** `handleRemoveTeamMember`. */
    method RemoveTeamMember(index: nat)
      modifies this`teamMembers
      ensures teamMembers == RemoveMember(old(teamMembers), index)
    {
      var updated := teamMembers;
      if index < |updated| {
        updated := updated[..index] + updated[index + 1..];
      }
      teamMembers := updated;
    }

    /** One roster click, as the pure model of the roster states it. */
    method Click(op: Op)
      requires op.Edit? ==> op.index < |teamMembers|
      modifies this`teamMembers
      ensures teamMembers == Apply(old(teamMembers), RosterCapacity(), op)
      ensures |old(teamMembers)| <= Bound(RosterCapacity()) ==> |teamMembers| <= Bound(RosterCapacity())
    {
      if |teamMembers| <= Bound(RosterCapacity()) {
        ApplyKeepsBound(teamMembers, RosterCapacity(), op);
      }
      match op
      case Add => AddTeamMember();
      case Edit(i, v) => ChangeTeamMember(i, v);
      case Remove(i) => RemoveTeamMember(i);
    }

    /** `handleSubmit` on the current state. */
    function SubmitNow(): (o: SubmitOutcome)
      reads this
      ensures !registrationOpen ==> o.Rejected?
      ensures o.ToPayment? ==> o.state.teamMembers == teamMembers && o.state.form == form
    {
      Submit(registrationOpen, form, selectedGame, teamMembers)
    }
  }
}
