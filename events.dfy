/**
 * The events page: the fetched catalog split into its two tabs, and the detail
 * modal's selection.
 */
module Events {
  import opened Wrappers
  import opened Games

  /** The page's `events` object: `{ Technical, NonTechnical }`. */
  datatype EventLists = EventLists(technical: seq<Game>, nonTechnical: seq<Game>)

  /** The body of `fetchEvents`: two filters over the same fetched list. */
  function Partition(games: seq<Game>): (r: EventLists)
    ensures forall g :: g in r.technical <==> g in games && g.category == "Technical"
    ensures forall g :: g in r.nonTechnical <==> g in games && g.category == "Non-Technical"
    ensures |r.technical| + |r.nonTechnical| <= |games|
  {
    PartitionSize(games);
    EventLists(WithCategory(games, "Technical"), WithCategory(games, "Non-Technical"))
  }

  /** The two lists together never hold more entries than the catalog. */
  lemma {:induction false} PartitionSize(games: seq<Game>)
    ensures |WithCategory(games, "Technical")| + |WithCategory(games, "Non-Technical")| <= |games|
    decreases |games|
  {
    if games != [] {
      PartitionSize(games[1..]);
    }
  }

  /** No game is in both tabs, and a game of any other category is in neither. */
  lemma TabsDisjoint(games: seq<Game>, g: Game)
    ensures !(g in Partition(games).technical && g in Partition(games).nonTechnical)
    ensures g.category != "Technical" && g.category != "Non-Technical" ==>
      g !in Partition(games).technical && g !in Partition(games).nonTechnical
  {
  }

  /** A game fetched later appears after those fetched earlier, in its own tab only. */
  lemma PartitionAppend(games: seq<Game>, more: seq<Game>)
    ensures Partition(games + more).technical == Partition(games).technical + Partition(more).technical
    ensures Partition(games + more).nonTechnical == Partition(games).nonTechnical + Partition(more).nonTechnical
  {
    WithCategoryAppend(games, more, "Technical");
    WithCategoryAppend(games, more, "Non-Technical");
  }

  /** The tab keys; the second one's catalog category is spelled "Non-Technical". */
  datatype Tab = TechnicalTab | NonTechnicalTab

  /** The page's state. */
  datatype EventsPage = EventsPage(activeTab: Tab, selected: Option<Game>, events: EventLists)

  const InitialPage := EventsPage(TechnicalTab, None, EventLists([], []))

  /** The fetch in the mount effect: a reply replaces both tabs; a failure leaves them. */
  function Loaded(page: EventsPage, reply: Option<seq<Game>>): (r: EventsPage)
    ensures reply.Some? ==> r.events == Partition(reply.value)
    ensures reply.None? ==> r == page
    ensures r.activeTab == page.activeTab && r.selected == page.selected
  {
    if reply.Some? then page.(events := Partition(reply.value)) else page
  }

  /** `events[activeTab]`: the list the page shows. */
  function Shown(page: EventsPage): seq<Game> {
    match page.activeTab
    case TechnicalTab => page.events.technical
    case NonTechnicalTab => page.events.nonTechnical
  }

  /** Every shown card belongs to the active tab's category. */
  lemma ShownMatchesTab(page: EventsPage, games: seq<Game>, g: Game)
    requires page.events == Partition(games)
    ensures g in Shown(page) <==>
      g in games && g.category == (if page.activeTab == TechnicalTab then "Technical" else "Non-Technical")
  {
  }

  /** `handleEventClick`: the modal shows the clicked event; nothing else changes. */
  function EventClick(page: EventsPage, event: Game): (r: EventsPage)
    ensures r.selected == Some(event)
    ensures r.activeTab == page.activeTab && r.events == page.events
  {
    page.(selected := Some(event))
  }

  /** `handleCloseModal`: the modal closes; nothing else changes. */
  function CloseModal(page: EventsPage): (r: EventsPage)
    ensures r.selected == None
    ensures r.activeTab == page.activeTab && r.events == page.events
  {
    page.(selected := None)
  }

  /** Opening a card and closing it again gives back the page as it was before any selection. */
  lemma ClickThenClose(page: EventsPage, event: Game)
    ensures CloseModal(EventClick(page, event)) == CloseModal(page)
    ensures page.selected == None ==> CloseModal(EventClick(page, event)) == page
  {
  }

  /** A tab button. */
  function SelectTab(page: EventsPage, tab: Tab): (r: EventsPage)
    ensures r.activeTab == tab && r.selected == page.selected && r.events == page.events
  {
    page.(activeTab := tab)
  }
}
