/**
 * The event ("game") record that the backend's `/api/games` returns, and the two
 * array queries the pages run over the catalog: `filter` by category and `find` by name.
 */
module Games {
  import opened Wrappers

  /**
   * One fest event. `kind` is the record's `type` ("Solo", "Team" or anything else);
   * an absent string is "" and a catalog record is assumed to carry its numbers (an
   * absent `maxTeamSize` or `fee` is not represented).
   */
  datatype Game = Game(
    id: string,
    name: string,
    category: string,
    kind: string,
    maxTeamSize: int,
    fee: int,
    feeType: string,
    description: string)

  /** `games.filter((g) => g.category === category)`. */
  function WithCategory(games: seq<Game>, category: string): (r: seq<Game>)
    ensures |r| <= |games|
    ensures forall g :: g in r <==> g in games && g.category == category
    decreases |games|
  {
    if games == [] then []
    else (if games[0].category == category then [games[0]] else []) + WithCategory(games[1..], category)
  }

  /** Filtering a concatenation filters each part and keeps them in order. */
  lemma {:induction false} WithCategoryAppend(a: seq<Game>, b: seq<Game>, category: string)
    ensures WithCategory(a + b, category) == WithCategory(a, category) + WithCategory(b, category)
    decreases |a|
  {
    if a != [] {
      assert (a + b)[1..] == a[1..] + b;
      WithCategoryAppend(a[1..], b, category);
    } else {
      assert a + b == b;
    }
  }

  /** Filtering twice by the same category changes nothing more. */
  lemma {:induction false} WithCategoryIdempotent(games: seq<Game>, category: string)
    ensures WithCategory(WithCategory(games, category), category) == WithCategory(games, category)
    decreases |games|
  {
    if games != [] {
      var head := if games[0].category == category then [games[0]] else [];
      WithCategoryAppend(head, WithCategory(games[1..], category), category);
      WithCategoryIdempotent(games[1..], category);
    }
  }

  /** Every game of the catalog that has the category is kept: none is dropped. */
  lemma {:induction false} WithCategoryAll(games: seq<Game>, category: string)
    requires forall i :: 0 <= i < |games| ==> games[i].category == category
    ensures WithCategory(games, category) == games
    decreases |games|
  {
    if games != [] {
      WithCategoryAll(games[1..], category);
    }
  }

  /**
   * `games.find((g) => g.name === name)` as an index: the first game with that name,
   * or none when no game has it.
   */
  function FirstNamed(games: seq<Game>, name: string): (r: Option<nat>)
    ensures r.Some? ==> r.value < |games| && games[r.value].name == name
    ensures r.Some? ==> forall j :: 0 <= j < r.value ==> games[j].name != name
    ensures r.None? <==> forall j :: 0 <= j < |games| ==> games[j].name != name
    decreases |games|
  {
    if games == [] then None
    else if games[0].name == name then Some(0)
    else match FirstNamed(games[1..], name)
      case None => None
      case Some(i) => Some(i + 1)
  }

  /** The game `find` returns, if any. */
  function FindByName(games: seq<Game>, name: string): Option<Game> {
    match FirstNamed(games, name)
    case None => None
    case Some(i) => Some(games[i])
  }
}
