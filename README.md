# TechFest 2025 front end — registration, payment and admin logic

This project models the deterministic rules inside the TechFest 2025 single-page
application's event handlers, outside the JSX they live in:

- the **registration page** (`Register`, `Roster`): the draft form, the team roster with its
  add / edit / remove buttons bounded by the selected game's `maxTeamSize`, the game
  selection effect that empties the roster for Solo games, the category filter, and the
  submit handler's checks (registration open, then a ten-digit phone) and fee;
- the **payment page** (`Payment`): the guard on the navigation state, the per-person total,
  the amount in paise, the member normalisation, the participant record and success-page
  state with their defaults, and the gateway's success handler, which navigates to
  `/success` whatever the participant POST and the confirmation e-mail do;
- the **admin dashboard** (`Admin`): the game form with its create-or-update switch, the
  registration toggle, the delete confirmation, the two views with their fetches, and the
  12-column spreadsheet projection of the participants;
- the **countdown** (`Countdown`): a millisecond difference split into days, hours, minutes
  and seconds and shown two digits wide;
- the **events page** (`Events`): the catalog split into its Technical and Non-Technical tabs,
  and the detail modal's selection;
- the **hand-off** between pages (`Checkout`): what the payment page charges for what the
  registration page sends, and what the dashboard exports of what the payment page saved.

Shared pieces: `Games` (the game record, `filter` by category, `find` by name), `Text`
(`String(n)`, `join`, `padStart(2, "0")`) and `Wrappers` (an `Option` for `null`).

Stateful React components are classes whose fields are the `useState` hooks
(`Register.RegistrationPage`, `Admin.AdminConsole`); network calls are replaced by
parameters saying whether they succeed (`succeeds`, `postThrows`, `emailThrows`,
`scriptLoaded`) or by the reply they deliver (`Option` replies of `LoadData`, `ReceiveGames`,
...), and by returned lists of the requests a handler sends. Values that JavaScript's `||`
treats as missing are modelled as `""` for strings and `0` for numbers.

Behaviour reproduced as the code has it:

- A Team game whose `feeType` is `"perPerson"` is charged `fee × (n+1)²`: the registration
  page already multiplies by the players and the payment page multiplies again
  (`Checkout.TeamPerPersonSquares`). A Team game of fee 70 with two extra members is
  therefore charged 630, where a rule of fee times players would charge 70 × 3 = 210
  (`Checkout.HackathonCharge`).
  Games created from the dashboard carry no `feeType`, so this only affects games given one
  elsewhere.
- The registration toggle does not update optimistically: the flag changes only after the
  PUT succeeds, and a failure re-fetches nothing.
- The submit handler does not check the team name or the roster; those are HTML `required`
  attributes, which the browser enforces.
- The roster is bounded only while the selected game stays the same: switching from one Team
  game to a smaller one keeps the roster (`Register.SwitchKeepsOversizedRoster`).
- Submitting with no game selected throws at `selectedGame.name` (`Register.Submit`'s
  `NoGameError`); in the browser the game select's `required` attribute keeps it from happening.
- The dashboard's `[view]` effect also runs on mount, so a fresh dashboard sends
  `Admin.AdminConsole.ViewRequests(GamesView)`; `SwitchView` covers the later changes.
- A roster holding one blank name exports a blank Members cell, not "-"
  (`Admin.BlankMemberCell`).

## Model

| member | source | states |
|---|---|---|
| Games.WithCategory | src/pages/Register.js:109 | a game is in the filtered list iff it is in the catalog and has that category; never longer than the catalog |
| Games.WithCategoryAppend | src/pages/Events.js:26-27 | filtering a concatenation is the concatenation of the filtered parts, so catalog order is kept |
| Games.WithCategoryIdempotent | src/pages/Events.js:26-27 | filtering an already filtered list changes nothing |
| Games.WithCategoryAll | src/pages/Register.js:109 | a list all of one category is kept whole |
| Games.FirstNamed | src/pages/Register.js:51 | `find` yields the first index with that name, or none exactly when no game has it |
| Roster.AddMember | src/pages/Register.js:62-66 | below capacity one "" is appended and earlier names are kept; at or above it the roster is unchanged |
| Roster.SetMember | src/pages/Register.js:68-72 | the edited index takes the value; length and every other entry are unchanged |
| Roster.RemoveMember | src/pages/Register.js:74-78 | removing index i drops one entry and shifts later ones down, order kept; an index past the end removes nothing |
| Roster.ApplyKeepsBound | src/pages/Register.js:62-78 | one click never takes the roster above `(maxTeamSize||1)-1` |
| Roster.ApplyAllKeepsBound | src/pages/Register.js:62-78 | any run of add/edit/remove clicks on a fixed game keeps the roster within `(maxTeamSize||1)-1` |
| Roster.NoGameNoMembers | src/pages/Register.js:63 | with no game selected no run of clicks adds a member |
| Roster.RepeatedAddFills | src/pages/Register.js:62-66 | repeated adds grow the roster up to exactly the capacity, keeping what was there |
| Register.WithField | src/pages/Register.js:58-60 | an input change sets its own field and leaves every other field |
| Register.PhoneAcceptedIff | src/pages/Register.js:88-91 | the phone passes iff it is exactly ten characters, all '0'-'9' |
| Register.Submit | src/pages/Register.js:80-107 | closed registration is rejected first, then a bad phone; navigation iff open, valid phone and a game; open with a valid phone and no game is the TypeError at line 100; fee is fee×(roster+1) for Team and fee×1 otherwise; roster passed unchanged |
| Register.ClosedRejectsAll | src/pages/Register.js:83-86 | registration closed turns away every draft |
| Register.SoloChargesOnce | src/pages/Register.js:93-95 | a Solo game's fee is charged once whatever the roster |
| Register.Selection | src/pages/Register.js:50-52 | the selected game is the first catalog game with the chosen name, or none iff no game has that name |
| Register.SwitchKeepsOversizedRoster | src/pages/Register.js:50-56 | after filling a size-4 Team game, choosing a size-2 Team game keeps all three members |
| Register.RegistrationPage.constructor | src/pages/Register.js:6-22 | the initial state: Technical, no catalog, no selection, empty roster, open, loading, empty form |
| Register.RegistrationPage.FilteredGames | src/pages/Register.js:109 | the page offers exactly the catalog games of its current category |
| Register.RegistrationPage.SyncSelection | src/pages/Register.js:50-56 | selection becomes the first game of that name; a Solo game empties the roster, else it stays; nothing else changes |
| Register.RegistrationPage.LoadData | src/pages/Register.js:28-47 | a successful fetch stores catalog and setting and re-runs the selection, a failed one changes neither; loading ends |
| Register.RegistrationPage.InputChange | src/pages/Register.js:58-60 | one form field changes; a new game name re-runs the selection |
| Register.RegistrationPage.ChangeCategory | src/pages/Register.js:313-316 | the category changes and the chosen game name is cleared |
| Register.RegistrationPage.AddTeamMember | src/pages/Register.js:62-66 | the roster becomes AddMember of itself at the selection's capacity |
| Register.RegistrationPage.ChangeTeamMember | src/pages/Register.js:68-72 | the roster becomes SetMember of itself |
| Register.RegistrationPage.RemoveTeamMember | src/pages/Register.js:74-78 | the roster becomes RemoveMember of itself |
| Register.RegistrationPage.Click | src/pages/Register.js:62-78 | one click applies the pure roster step and keeps a roster within the bound within it |
| Register.RegistrationPage.SubmitNow | src/pages/Register.js:80-107 | a closed page rejects; a navigation carries the page's own roster and form |
| Payment.TotalAmount | src/pages/Payment.js:81-85 | the fee, times (members+1) when the game is per person; never below a positive fee |
| Payment.CheckoutFor | src/pages/Payment.js:94-174 | amount in paise is a multiple of 100 that divides back to the total; currency INR; team name note defaults to "Solo" |
| Payment.OpenCheckout | src/pages/Payment.js:87-92 | the checkout opens iff the gateway script loaded |
| Payment.NormaliseMembers | src/pages/Payment.js:113-119 | one string per member in order; string members unchanged; absent roster gives none |
| Payment.NormaliseStrings | src/pages/Payment.js:113-114 | a roster of strings is saved exactly as it is |
| Payment.CategoryOf | src/pages/Payment.js:111 | category falls back from the game's, to the state's, to "Unknown"; never empty |
| Payment.ParticipantFor | src/pages/Payment.js:103-122 | the record carries the total as fee, the gateway's payment id, CategoryOf as its non-empty category, the normalised roster, and every contact and college field of the state |
| Payment.EmailFor | src/pages/Payment.js:139-144 | the e-mail carries the registrant's name, address and event, and the same fee as the saved record |
| Payment.SuccessFor | src/pages/Payment.js:152-163 | the success state carries the same fee and payment id as the record, and the state's name, e-mail, event, college, department and city |
| Payment.HandlePaymentResponse | src/pages/Payment.js:102-164 | POST first, e-mail second, each failure only logged, and the last step is always the navigation to /success |
| Payment.ParticipantsLabelCounts | src/pages/Payment.js:203-206 | a Team game's label reads back as members+1 followed by " members"; any other game shows "Individual" |
| Payment.LoadAsWritten | src/pages/Payment.js:22-85 | as written: no state is a render error; otherwise the guard redirects or the page confirms the total |
| Payment.MissingStateNeverRedirects | src/pages/Payment.js:82 | a missing state meets the guard but the page fails before the redirect |
| Payment.Load | src/pages/Payment.js:25-28 | redirect to /register iff no state, empty event name or zero fee; otherwise confirm the total |
| Payment.LoadAgreesWithState | src/pages/Payment.js:25-85 | the corrected load and the written one agree whenever a state is present |
| Admin.WithField | src/pages/AdminPage.js:90-92 | a form change sets only the named field, to the input's string |
| Admin.FormOf | src/pages/AdminPage.js:94-102 | editing copies the six game fields into the form |
| Admin.OrDash | src/pages/AdminPage.js:121 | an empty value becomes "-", any other is kept |
| Admin.MembersCell | src/pages/AdminPage.js:127 | no members gives "-", one member gives that name |
| Admin.MembersCellSnoc | src/pages/AdminPage.js:127 | each further member follows the earlier ones after ", ", so the cell is the names joined with ", " |
| Admin.BlankMemberCell | src/pages/AdminPage.js:127 | a roster of one blank name exports an empty cell |
| Admin.FeeCell | src/pages/AdminPage.js:128 | the cell starts with the rupee sign |
| Admin.FeeCellReadsBack | src/pages/AdminPage.js:128 | a non-negative fee reads back from its cell |
| Admin.ExportRow | src/pages/AdminPage.js:117-130 | a row has the twelve headers in order; the defaulted columns are never empty |
| Admin.ExportRowValues | src/pages/AdminPage.js:118-129 | each of the twelve cells takes its field: College/Department/City/Category/TeamName with "-" for empty, Members as the members cell, Fee as the fee cell |
| Admin.ExportRows | src/pages/AdminPage.js:116-130 | one row per participant, the i-th row from the i-th participant, each with the twelve headers |
| Admin.ExportRowsAppend | src/pages/AdminPage.js:117 | a later participant adds one row at the end, the others unchanged |
| Admin.AdminConsole.constructor | src/pages/AdminPage.js:10-22 | initial state: games view, default form, no editing id, open |
| Admin.AdminConsole.SaveRequest | src/pages/AdminPage.js:70-74 | an update of the editing id when one is set, a create otherwise |
| Admin.AdminConsole.HandleGameChange | src/pages/AdminPage.js:90-92 | only the form changes, by one field |
| Admin.AdminConsole.HandleEdit | src/pages/AdminPage.js:94-104 | form copied from the game and editing id set to its id |
| Admin.AdminConsole.AddOrUpdateGame | src/pages/AdminPage.js:68-88 | sends the save; on success re-fetches, clears the id and resets the form to the defaults; on failure changes nothing |
| Admin.AdminConsole.ToggleRegistration | src/pages/AdminPage.js:58-66 | PUTs the negated flag; the flag flips only on success |
| Admin.AdminConsole.HandleDelete | src/pages/AdminPage.js:106-114 | declined: no request; accepted: the delete, then a re-fetch on success |
| Admin.AdminConsole.ViewRequests | src/pages/AdminPage.js:143-147 | a view fetches its own data and then the setting |
| Admin.AdminConsole.SwitchView | src/pages/AdminPage.js:143-147 | the view changes; only a new view fetches |
| Admin.AdminConsole.ReceiveGames | src/pages/AdminPage.js:31-38 | a reply replaces the games, a failure keeps them |
| Admin.AdminConsole.ReceiveParticipants | src/pages/AdminPage.js:40-47 | a reply replaces the participants, a failure keeps them |
| Admin.AdminConsole.ReceiveSetting | src/pages/AdminPage.js:49-56 | a reply replaces the flag, a failure keeps it |
| Admin.AdminConsole.Export | src/pages/AdminPage.js:116-130 | one row per fetched participant |
| Admin.EditThenSave | src/pages/AdminPage.js:68-104 | editing a game and saving successfully sends an update of that game and a re-fetch |
| Admin.ToggleTwice | src/pages/AdminPage.js:58-66 | on any console, two successful toggles, the second clicked after the first PUT resolved, PUT the negated flag, then the original, and restore the flag; nothing but the flag changes |
| Countdown.CalculateTimeLeft | src/components/CountdownTimer.js:4-20 | non-positive difference gives all zeros; otherwise hours < 24, minutes and seconds < 60, days = d div 86400000 |
| Countdown.Reconstruction | src/components/CountdownTimer.js:10-13 | days·86400 + hours·3600 + minutes·60 + seconds = d div 1000 |
| Countdown.FieldTextShape | src/components/CountdownTimer.js:33-36 | each field is at least two characters, '0'-padded only below ten, and reads back as its value |
| Countdown.ExpiredShowsZeros | src/components/CountdownTimer.js:15-36 | past the target the timer shows all zeros |
| Countdown.RunningFieldsTwoWide | src/components/CountdownTimer.js:11-36 | hours, minutes and seconds are shown exactly two wide |
| Events.Partition | src/pages/Events.js:26-29 | Technical holds exactly the Technical games, NonTechnical exactly the Non-Technical ones |
| Events.PartitionSize | src/pages/Events.js:26-27 | the two lists together are no longer than the catalog |
| Events.TabsDisjoint | src/pages/Events.js:26-29 | no game is in both lists; other categories are in neither |
| Events.PartitionAppend | src/pages/Events.js:26-27 | both lists keep fetched order |
| Events.Loaded | src/pages/Events.js:20-36 | a reply replaces both lists, a failure changes nothing |
| Events.ShownMatchesTab | src/pages/Events.js:135 | the shown cards are exactly the catalog games of the active tab's category |
| Events.EventClick | src/pages/Events.js:17 | the selection becomes the clicked event; nothing else changes |
| Events.CloseModal | src/pages/Events.js:18 | the selection is cleared; nothing else changes |
| Events.ClickThenClose | src/pages/Events.js:17-18 | opening and closing a card restores a page that had no selection |
| Events.SelectTab | src/pages/Events.js:122 | the tab changes; selection and lists stay |
| Checkout.FromRegister | src/pages/Register.js:97-106 | the payment page sees the submitted fee, event, game and the same roster |
| Checkout.TeamPerPersonSquares | src/pages/Payment.js:82-85 | a Team per-person game is charged fee·(n+1)·(n+1) |
| Checkout.FlatFeeChargedOnce | src/pages/Register.js:93-95 | a flat-fee game is charged the registration fee unchanged |
| Checkout.SoloPerPersonChargedByRoster | src/pages/Payment.js:83-85 | a non-Team per-person game is multiplied by the payment page alone |
| Checkout.HackathonCharge | src/pages/Payment.js:82-85 | a Team per-person game of fee 70 with two extra members is charged 630 |
| Checkout.FreeGameBouncesBack | src/pages/Payment.js:25-28 | a zero-fee game passes registration and is sent back by the payment guard |
| Checkout.PaidGameConfirms | src/pages/Payment.js:25-28 | a named, paid game reaches the confirmation with the charged amount |
| Checkout.ExportOfPaidRegistration | src/pages/AdminPage.js:117-130 | a saved registration exports its payment id, its category and a Fee cell that reads back as the total |

## Findings

| source | as written | input that shows it | evidently intended | confidence | as-written member | corrected member |
|---|---|---|---|---|---|---|
| src/pages/Payment.js:82 | the render reads `state.fee` before the mount effect with the guard at lines 25-28 runs | opening `/payment` directly, so that the location state is null | a missing state redirects to `/register` with the alert | not executed; high, from JavaScript's evaluation order | Payment.MissingStateNeverRedirects | Payment.Load |

## Left out

- Canvas particle and firework animations on every page: floating-point motion, randomness and animation frames.
- The network: `fetch`/`axios` calls, the gateway script and checkout widget, and the e-mail service; each is a success/failure parameter or a reply value.
- The spreadsheet workbook writing after the row projection: a foreign library.
- The admin login, the stored admin flag and logout: browser storage and a login POST.
- Layout, navigation bar, home, success and routing files: markup only.
- Rendering, the `document.body` overflow toggling, HTML `required`/`pattern` attributes and the countdown's clock and one-second interval; the countdown takes the difference as an integer.
- JavaScript floating point in the countdown: integer division and remainder, equal for non-negative whole milliseconds.
- Register.RegistrationPage.ChangeTeamMember: requires a rendered index; JavaScript would create a sparse array for any other, which a sequence cannot hold.
- Roster.Apply: an edit of an index with no rendered row is taken to change nothing, for the same reason.
- Payment.PaymentState: the fields are modelled with the types the registration page sends (strings, an integer fee); team members may be strings, objects or other values, but an object's `name` and `fullName` are taken to be strings, so a non-string `name` (returned unconverted by the source) is not represented, and an object's values are given as `join` renders them ("" for `null` and `undefined`).
- Fractional or non-numeric fees and team sizes: integers only.
- Overlapping handlers: each asynchronous handler is modelled as finishing before the next event, so a second toggle, save or delete clicked while the first request is still pending (both reading the same rendered state) is not represented.
- Games.Game: a catalog record is assumed to carry `maxTeamSize` and `fee`; an absent one, which the edit form would copy as `undefined` and the update body would omit, is not represented (Admin.FormOf sends a number).
