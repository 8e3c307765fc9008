/**
 * The admin dashboard: the game form with its create/update switch, the registration
 * toggle, the delete confirmation, the two views and the spreadsheet projection of
 * the participants list.
 */
module Admin {
  import opened Wrappers
  import opened Text
  import opened Games

  /** A form value: a number as first set, or the string an input's `value` always is. */
  datatype FieldValue = Num(n: int) | Str(s: string)

  /** The game form. `kind` is the `type` field. */
  datatype GameForm = GameForm(
    name: string,
    category: string,
    kind: string,
    maxTeamSize: FieldValue,
    fee: FieldValue,
    description: string)

  /** The form's initial value, and its value after every successful save. */
  const DefaultForm := GameForm("", "Technical", "Solo", Num(1), Num(70), "")

  /** The `name` attribute of the form input that fired `handleGameChange`. */
  datatype FormField = Name | Category | Kind | MaxTeamSize | Fee | Description

  function FieldOf(f: GameForm, field: FormField): FieldValue {
    match field
    case Name => Str(f.name)
    case Category => Str(f.category)
    case Kind => Str(f.kind)
    case MaxTeamSize => f.maxTeamSize
    case Fee => f.fee
    case Description => Str(f.description)
  }

  /** `{ ...form, [name]: value }` with the input's string value. */
  function WithField(f: GameForm, field: FormField, value: string): (r: GameForm)
    ensures FieldOf(r, field) == Str(value)
    ensures forall other :: other != field ==> FieldOf(r, other) == FieldOf(f, other)
  {
    match field
    case Name => f.(name := value)
    case Category => f.(category := value)
    case Kind => f.(kind := value)
    case MaxTeamSize => f.(maxTeamSize := Str(value))
    case Fee => f.(fee := Str(value))
    case Description => f.(description := value)
  }

  /** `handleEdit`'s copy of a game into the form; a missing description becomes "". */
  function FormOf(g: Game): (r: GameForm)
    ensures r.name == g.name && r.category == g.category && r.kind == g.kind
    ensures r.maxTeamSize == Num(g.maxTeamSize) && r.fee == Num(g.fee) && r.description == g.description
  {
    GameForm(g.name, g.category, g.kind, Num(g.maxTeamSize), Num(g.fee), if g.description != "" then g.description else "")
  }

  datatype View = GamesView | ParticipantsView

  /** A request the dashboard sends to the backend. */
  datatype Request =
    | GetGames
    | GetParticipants
    | GetSettings
    | PutSettings(registrationOpen: bool)
    | PostGame(form: GameForm)
    | PutGame(id: string, form: GameForm)
    | DeleteGame(id: string)

  /** A participant record as `/api/participants` returns it. */
  datatype Participant = Participant(
    fullName: string,
    email: string,
    phone: string,
    collegeName: string,
    department: string,
    city: string,
    eventName: string,
    category: string,
    teamName: string,
    teamMembers: Option<seq<string>>,
    fee: int,
    paymentId: string)

  /** `x || "-"` for a string. */
  function OrDash(s: string): (r: string)
    ensures r != ""
    ensures s != "" ==> r == s
    ensures s == "" ==> r == "-"
  {
    if s != "" then s else "-"
  }

  /** The spreadsheet's column headers, in order. */
  const Headers: seq<string> :=
    ["Name", "Email", "Phone", "College", "Department", "City", "Event", "Category",
     "TeamName", "Members", "Fee", "PaymentID"]

  /** The Members cell: the names joined with ", ", or "-" for none. */
  function MembersCell(ms: Option<seq<string>>): (r: string)
    ensures ms.None? || ms.value == [] ==> r == "-"
    ensures ms.Some? && |ms.value| == 1 ==> r == ms.value[0]
  {
    if ms.Some? && |ms.value| > 0 then Join(ms.value, ", ") else "-"
  }

  /** Each further member is added after ", ", so the cell lists all the names in order. */
  lemma MembersCellSnoc(xs: seq<string>, x: string)
    requires |xs| > 0
    ensures MembersCell(Some(xs + [x])) == MembersCell(Some(xs)) + ", " + x
  {
    JoinSnoc(xs, x, ", ");
  }

  /** A roster of one blank name is non-empty, so its cell is that blank name and not "-". */
  lemma BlankMemberCell()
    ensures MembersCell(Some([""])) == ""
  {
  }

  /** The Fee cell: the rupee sign, then `String(fee)`. */
  function FeeCell(fee: int): (r: string)
    ensures |r| > 1 && r[0] == '₹'
  {
    "₹" + IntToString(fee)
  }

  /** A non-negative fee reads back from its cell after the rupee sign. */
  lemma FeeCellReadsBack(fee: int)
    requires fee >= 0
    ensures AllDigits(FeeCell(fee)[1..]) && ParseNat(FeeCell(fee)[1..]) == fee
  {
    ParseNatToString(fee);
    assert FeeCell(fee)[1..] == NatToString(fee);
  }

  /** One participant as a spreadsheet row: (header, value) pairs in column order. */
  function ExportRow(p: Participant): (row: seq<(string, string)>)
    ensures |row| == |Headers|
    ensures forall k :: 0 <= k < |row| ==> row[k].0 == Headers[k]
    ensures row[3].1 != "" && row[4].1 != "" && row[5].1 != "" && row[7].1 != "" && row[8].1 != "" && row[10].1 != ""
  {
    [("Name", p.fullName), ("Email", p.email), ("Phone", p.phone),
     ("College", OrDash(p.collegeName)), ("Department", OrDash(p.department)), ("City", OrDash(p.city)),
     ("Event", p.eventName), ("Category", OrDash(p.category)), ("TeamName", OrDash(p.teamName)),
     ("Members", MembersCell(p.teamMembers)), ("Fee", FeeCell(p.fee)), ("PaymentID", p.paymentId)]
  }

  /** The value written under a header. */
  function Cell(row: seq<(string, string)>, k: nat): string
    requires k < |row|
  {
    row[k].1
  }

  /** Where an export cell's value comes from, with the "-" defaults of the five optional columns. */
  lemma ExportRowValues(p: Participant)
    ensures Cell(ExportRow(p), 0) == p.fullName && Cell(ExportRow(p), 1) == p.email
    ensures Cell(ExportRow(p), 2) == p.phone && Cell(ExportRow(p), 6) == p.eventName
    ensures Cell(ExportRow(p), 11) == p.paymentId
    ensures Cell(ExportRow(p), 3) == (if p.collegeName == "" then "-" else p.collegeName)
    ensures Cell(ExportRow(p), 4) == (if p.department == "" then "-" else p.department)
    ensures Cell(ExportRow(p), 5) == (if p.city == "" then "-" else p.city)
    ensures Cell(ExportRow(p), 7) == (if p.category == "" then "-" else p.category)
    ensures Cell(ExportRow(p), 8) == (if p.teamName == "" then "-" else p.teamName)
    ensures Cell(ExportRow(p), 9) == MembersCell(p.teamMembers)
    ensures Cell(ExportRow(p), 10) == FeeCell(p.fee)
  {
  }

  /** `participants.map(...)` in `exportToExcel`: one row per participant, in the same order. */
  function ExportRows(ps: seq<Participant>): (rows: seq<seq<(string, string)>>)
    ensures |rows| == |ps|
    ensures forall i :: 0 <= i < |rows| ==> rows[i] == ExportRow(ps[i])
    ensures forall i :: 0 <= i < |rows| ==> |rows[i]| == |Headers|
    ensures forall i, k :: 0 <= i < |rows| && 0 <= k < |Headers| ==> rows[i][k].0 == Headers[k]
  {
    seq(|ps|, i requires 0 <= i < |ps| => ExportRow(ps[i]))
  }

  /** A later registrant adds one row at the end and leaves the earlier rows as they were. */
  lemma ExportRowsAppend(ps: seq<Participant>, p: Participant)
    ensures ExportRows(ps + [p]) == ExportRows(ps) + [ExportRow(p)]
  {
  }

  /** The dashboard's state, as its `useState` hooks hold it. */
  class AdminConsole {
    var view: View
    var games: seq<Game>
    var form: GameForm
    var editingGameId: Option<string>
    var participants: seq<Participant>
    var registrationOpen: bool

    constructor ()
      ensures view == GamesView && games == [] && form == DefaultForm
      ensures editingGameId == None && participants == [] && registrationOpen
    {
      view := GamesView;
      games := [];
      form := DefaultForm;
      editingGameId := None;
      participants := [];
      registrationOpen := true;
    }

    /** `if (editingGameId)`: a set, non-empty id means the save is an update. */
    predicate Editing()
      reads this
    {
      editingGameId.Some? && editingGameId.value != ""
    }

    /** The request a save sends. */
    function SaveRequest(): (r: Request)
      reads this
      ensures Editing() ==> r == PutGame(editingGameId.value, form)
      ensures !Editing() ==> r == PostGame(form)
    {
      if Editing() then PutGame(editingGameId.value, form) else PostGame(form)
    }

    /** `handleGameChange`: the named field takes the input's value; nothing else changes. */
    method HandleGameChange(field: FormField, value: string)
      modifies this`form
      ensures form == WithField(old(form), field, value)
    {
      form := WithField(form, field, value);
    }

    /** `handleEdit`: the form takes the game's fields and the save becomes an update of that game. */
    method HandleEdit(g: Game)
      modifies this`form, this`editingGameId
      ensures form == FormOf(g) && editingGameId == Some(g.id)
    {
      form := FormOf(g);
      editingGameId := Some(g.id);
    }

    /**
     * `addOrUpdateGame`: update when editing, create otherwise. On success the games
     * are re-fetched, editing ends and the form is reset; on failure nothing changes.
     */
    method AddOrUpdateGame(succeeds: bool) returns (requests: seq<Request>)
      modifies this`form, this`editingGameId
      ensures requests == if succeeds then [old(SaveRequest()), GetGames] else [old(SaveRequest())]
      ensures succeeds ==> form == DefaultForm && editingGameId == None
      ensures !succeeds ==> form == old(form) && editingGameId == old(editingGameId)
    {
      var save := if Editing() then PutGame(editingGameId.value, form) else PostGame(form);
      requests := [save];
      if succeeds {
        requests := requests + [GetGames];
        editingGameId := None;
        form := DefaultForm;
      }
    }

    /** `toggleRegistration`: PUT the negated flag, and adopt it only when the PUT succeeds. */
    method ToggleRegistration(succeeds: bool) returns (request: Request)
      modifies this`registrationOpen
      ensures request == PutSettings(!old(registrationOpen))
      ensures registrationOpen == if succeeds then !old(registrationOpen) else old(registrationOpen)
    {
      var updated := !registrationOpen;
      request := PutSettings(updated);
      if succeeds {
        registrationOpen := updated;
      }
    }

    /**
     * `handleDelete`: a declined confirmation sends nothing; an accepted one sends the
     * delete and, when it succeeds, re-fetches the games. The list itself changes only then.
     */
    method HandleDelete(id: string, confirmed: bool, succeeds: bool) returns (requests: seq<Request>)
      ensures !confirmed ==> requests == []
      ensures confirmed && succeeds ==> requests == [DeleteGame(id), GetGames]
      ensures confirmed && !succeeds ==> requests == [DeleteGame(id)]
    {
      if !confirmed {
        return [];
      }
      requests := [DeleteGame(id)];
      if succeeds {
        requests := requests + [GetGames];
      }
    }

    /** The requests the `[view]` effect sends when a view becomes active. */
    static function ViewRequests(v: View): (r: seq<Request>)
      ensures |r| == 2 && r[1] == GetSettings
      ensures r[0] == if v == GamesView then GetGames else GetParticipants
    {
      (if v == GamesView then [GetGames] else [GetParticipants]) + [GetSettings]
    }

    /** A view button: a new view re-fetches its data and the setting; the same view fetches nothing. */
    method SwitchView(v: View) returns (requests: seq<Request>)
      modifies this`view
      ensures view == v
      ensures requests == if v != old(view) then ViewRequests(v) else []
    {
      requests := if v != view then ViewRequests(v) else [];
      view := v;
    }

    /** The end of `fetchGames`: the reply replaces the list; a failed fetch keeps it. */
    method ReceiveGames(reply: Option<seq<Game>>)
      modifies this`games
      ensures games == reply.GetOr(old(games))
    {
      if reply.Some? {
        games := reply.value;
      }
    }

    /** The end of `fetchParticipants`. */
    method ReceiveParticipants(reply: Option<seq<Participant>>)
      modifies this`participants
      ensures participants == reply.GetOr(old(participants))
    {
      if reply.Some? {
        participants := reply.value;
      }
    }

    /** The end of `fetchSetting`. */
    method ReceiveSetting(reply: Option<bool>)
      modifies this`registrationOpen
      ensures registrationOpen == reply.GetOr(old(registrationOpen))
    {
      if reply.Some? {
        registrationOpen := reply.value;
      }
    }

    /** `exportToExcel` up to the workbook calls: the rows of the fetched participants. */
    function Export(): (rows: seq<seq<(string, string)>>)
      reads this
      ensures |rows| == |participants|
    {
      ExportRows(participants)
    }
  }

  /** Editing a game and saving successfully sends an update of that very game, then starts over. */
  method EditThenSave(g: Game) returns (requests: seq<Request>)
    requires g.id != ""
    ensures requests == [PutGame(g.id, FormOf(g)), GetGames]
  {
    var console := new AdminConsole();
    console.HandleEdit(g);
    requests := console.AddOrUpdateGame(true);
    assert console.form == DefaultForm && console.editingGameId == None;
  }

  /**
   * Two successful toggles, the second clicked after the first PUT resolved, restore the
   * flag, whatever it was.
   */
  method ToggleTwice(c: AdminConsole) returns (first: Request, second: Request)
    modifies c`registrationOpen
    ensures first == PutSettings(!old(c.registrationOpen)) && second == PutSettings(old(c.registrationOpen))
    ensures c.registrationOpen == old(c.registrationOpen)
  {
    first := c.ToggleRegistration(true);
    second := c.ToggleRegistration(true);
  }
}
