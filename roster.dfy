/**
 * The team roster of the registration form: an ordered list of member names that
 * the add, edit and remove buttons change, bounded by the selected game's size.
 */
module Roster {
  import opened Wrappers
  import opened Games

  /**
   * `(selectedGame?.maxTeamSize || 1) - 1`: how many members besides the registrant
   * the add button allows. A missing game, or a size of 0, counts as a size of 1.
   */
  function Capacity(selected: Option<Game>): int {
    (if selected.Some? && selected.value.maxTeamSize != 0 then selected.value.maxTeamSize else 1) - 1
  }

  /** The bound the add button enforces, never below zero. */
  function Bound(cap: int): nat {
    if cap < 0 then 0 else cap
  }

  /** Add-member: append one empty name while the roster is below capacity, else no change. */
  function AddMember(roster: seq<string>, cap: int): (r: seq<string>)
    ensures |roster| < cap ==> |r| == |roster| + 1 && r[..|roster|] == roster && r[|roster|] == ""
    ensures |roster| >= cap ==> r == roster
  {
    if |roster| < cap then roster + [""] else roster
  }

  /** Edit-member: the name at `index` becomes `value`; nothing else moves. */
  function SetMember(roster: seq<string>, index: nat, value: string): (r: seq<string>)
    requires index < |roster|
    ensures |r| == |roster| && r[index] == value
    ensures forall j :: 0 <= j < |roster| && j != index ==> r[j] == roster[j]
  {
    roster[index := value]
  }

  /** Remove-member, as `splice(index, 1)`: later names shift down by one; an index past the end removes nothing. */
  function RemoveMember(roster: seq<string>, index: nat): (r: seq<string>)
    ensures index < |roster| ==> |r| == |roster| - 1
    ensures index < |roster| ==> forall j :: 0 <= j < index ==> r[j] == roster[j]
    ensures index < |roster| ==> forall j :: index <= j < |r| ==> r[j] == roster[j + 1]
    ensures index >= |roster| ==> r == roster
  {
    if index < |roster| then roster[..index] + roster[index + 1..] else roster
  }

  /** One click on the roster's buttons. */
  datatype Op = Add | Edit(index: nat, value: string) | Remove(index: nat)

  /** An edit can only name a rendered row; one that does not changes nothing here. */
  function Apply(roster: seq<string>, cap: int, op: Op): seq<string> {
    match op
    case Add => AddMember(roster, cap)
    case Edit(i, v) => if i < |roster| then SetMember(roster, i, v) else roster
    case Remove(i) => RemoveMember(roster, i)
  }

  function ApplyAll(roster: seq<string>, cap: int, ops: seq<Op>): seq<string>
    decreases |ops|
  {
    if ops == [] then roster else ApplyAll(Apply(roster, cap, ops[0]), cap, ops[1..])
  }

  /** No single click takes a roster within the bound outside it. */
  lemma ApplyKeepsBound(roster: seq<string>, cap: int, op: Op)
    requires |roster| <= Bound(cap)
    ensures |Apply(roster, cap, op)| <= Bound(cap)
  {
  }

  /**
   * With the selected game fixed, any run of add, edit and remove clicks keeps the roster
   * within `(maxTeamSize || 1) - 1` names; with no game selected that is none at all.
   */
  lemma {:induction false} ApplyAllKeepsBound(roster: seq<string>, cap: int, ops: seq<Op>)
    requires |roster| <= Bound(cap)
    ensures |ApplyAll(roster, cap, ops)| <= Bound(cap)
    decreases |ops|
  {
    if ops != [] {
      ApplyKeepsBound(roster, cap, ops[0]);
      ApplyAllKeepsBound(Apply(roster, cap, ops[0]), cap, ops[1..]);
    }
  }

  /** From an empty roster and no game selected, no run of clicks adds a member. */
  lemma NoGameNoMembers(ops: seq<Op>)
    ensures ApplyAll([], Capacity(None), ops) == []
  {
    ApplyAllKeepsBound([], Capacity(None), ops);
  }

  /** Adding members one by one reaches exactly the capacity and then stops. */
  lemma {:induction false} RepeatedAddFills(roster: seq<string>, cap: int, n: nat)
    requires |roster| <= Bound(cap)
    ensures |ApplyAll(roster, cap, seq(n, _ => Add))| == if |roster| + n <= Bound(cap) then |roster| + n else Bound(cap)
    ensures ApplyAll(roster, cap, seq(n, _ => Add))[..|roster|] == roster
    decreases n
  {
    if n > 0 {
      var ops := seq(n, _ => Add);
      assert ops[0] == Add && ops[1..] == seq(n - 1, _ => Add);
      var next := AddMember(roster, cap);
      assert next[..|roster|] == roster;
      RepeatedAddFills(next, cap, n - 1);
      var final := ApplyAll(next, cap, seq(n - 1, _ => Add));
      assert final[..|roster|] == final[..|next|][..|roster|];
    }
  }
}
