/**
  The navigation cursor of the pronunciation recorder (`Counter`): an index
  over the prompt list that the Previous and Next buttons move by one, with an
  optional total that is set once the prompts are known.
 */
module Navigation {

  import opened Wrappers

  datatype Move = Next | Previous

  /** Python truthiness of an `Optional[int]` total: present and non-zero. */
  predicate Truthy(total: Option<nat>) {
    total.Some? && total.value != 0
  }

  /** The positions the cursor may take: `[0, total-1]`, or just 0 while the total is unset or 0. */
  predicate InRange(index: int, total: Option<nat>) {
    0 <= index && if Truthy(total) then index < total.value else index == 0
  }

  /** `next`: moves only when the total is truthy and the cursor is not on the last prompt. */
  function NextIndex(index: int, total: Option<nat>): int {
    if Truthy(total) && index != total.value - 1 then index + 1 else index
  }

  /** `previous`: moves only when the cursor is not on the first prompt. */
  function PreviousIndex(index: int): int {
    if index != 0 then index - 1 else index
  }

  function Step(index: int, total: Option<nat>, move: Move): int {
    match move
    case Next => NextIndex(index, total)
    case Previous => PreviousIndex(index)
  }

  /** The cursor after pressing the buttons in `moves`, in order. */
  function Walk(index: int, total: Option<nat>, moves: seq<Move>): int
    decreases |moves|
  {
    if moves == [] then index else Walk(Step(index, total, moves[0]), total, moves[1..])
  }

  /** Next moves by exactly one, except at the last prompt or without a truthy total. */
  lemma NextMovesByOne(index: int, total: Option<nat>)
    requires InRange(index, total)
    ensures InRange(NextIndex(index, total), total)
    ensures NextIndex(index, total) == index <==> !Truthy(total) || index == total.value - 1
    ensures NextIndex(index, total) != index ==> NextIndex(index, total) == index + 1
  {
  }

  /** Previous moves back by exactly one, except at the first prompt. */
  lemma PreviousMovesByOne(index: int, total: Option<nat>)
    requires InRange(index, total)
    ensures InRange(PreviousIndex(index), total)
    ensures PreviousIndex(index) == index <==> index == 0
    ensures PreviousIndex(index) != index ==> PreviousIndex(index) == index - 1
  {
  }

  /** No sequence of button presses takes the cursor out of range. */
  lemma {:induction false} WalkInRange(index: int, total: Option<nat>, moves: seq<Move>)
    requires InRange(index, total)
    ensures InRange(Walk(index, total, moves), total)
    decreases |moves|
  {
    if moves != [] {
      var next := Step(index, total, moves[0]);
      match moves[0] {
        case Next => NextMovesByOne(index, total);
        case Previous => PreviousMovesByOne(index, total);
      }
      WalkInRange(next, total, moves[1..]);
    }
  }

  /** Each press moves the cursor by at most one. */
  lemma {:induction false} WalkDistance(index: int, total: Option<nat>, moves: seq<Move>)
    ensures index - |moves| <= Walk(index, total, moves) <= index + |moves|
    decreases |moves|
  {
    if moves != [] {
      WalkDistance(Step(index, total, moves[0]), total, moves[1..]);
    }
  }

  /** From a fresh counter, any presses keep `0 <= index <= total-1` (or 0). */
  lemma WalkFromStart(total: Option<nat>, moves: seq<Move>)
    ensures InRange(Walk(0, total, moves), total)
  {
    WalkInRange(0, total, moves);
  }

  class Counter {
    var index: int
    var total: Option<nat>

    ghost predicate Valid()
      reads this
    {
      InRange(index, total)
    }

    constructor ()
      ensures index == 0 && total == None
      ensures Valid()
    {
      index := 0;
      total := None;
    }

    /** `set_total`: overwrites the total, keeps the index. */
    method SetTotal(n: nat)
      modifies this
      ensures total == Some(n) && index == old(index)
      ensures old(index) == 0 ==> Valid()
    {
      total := Some(n);
    }

    method Next()
      modifies this
      ensures index == NextIndex(old(index), old(total)) && total == old(total)
      ensures old(Valid()) ==> Valid()
    {
      if Truthy(total) && index != total.value - 1 {
        index := index + 1;
      }
    }

    method Previous()
      modifies this
      ensures index == PreviousIndex(old(index)) && total == old(total)
      ensures old(Valid()) ==> Valid()
    {
      if index != 0 {
        index := index - 1;
      }
    }

    /** `progress_percent`, as the exact rational `(index+1)/total` rather than a float. */
    function ProgressPercent(): (p: real)
      reads this
      ensures !Truthy(total) ==> p == 0.0
      ensures Valid() && Truthy(total) ==> 0.0 < p <= 1.0
      ensures Valid() && Truthy(total) ==> (p == 1.0 <==> index == total.value - 1)
    {
      if Truthy(total) then (index + 1) as real / total.value as real else 0.0
    }
  }
}
