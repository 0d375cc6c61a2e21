/** The session editor's undo history (src/undo_redo_list.rs): a list of
    saved session texts and the position of the current one. Recording a new
    state after some undos does not drop the undone states: it reverses them
    in place, so that undoing from the new state walks back through them. */
module UndoRedo {
  import opened Wrappers
  import opened Seqs

  /** The states after `new_state(state)` at `position`. */
  function NewStates(states: seq<string>, position: nat, state: string): (r: seq<string>)
    requires position < |states|
    ensures |r| == |states| + 1 && r[|r| - 1] == state
    ensures r[..position] == states[..position]
  {
    states[..position] + Reverse(states[position..]) + [state]
  }

  /** Nothing is lost: the new list holds exactly the old states and the new one. */
  lemma {:induction false} NewStatesKeepsEveryState(states: seq<string>, position: nat, state: string)
    requires position < |states|
    ensures multiset(NewStates(states, position, state)) == multiset(states) + multiset{state}
  {
    ReverseMultiset(states[position..]);
    assert states == states[..position] + states[position..];
  }

  /** Undoing right after a new state returns the state that was current
      when it was recorded; undoing further walks back through the states
      that had been undone, then through the older ones. */
  lemma {:induction false} UndoAfterNewState(states: seq<string>, position: nat, state: string, k: nat)
    requires position < |states| && k < |states|
    ensures var r := NewStates(states, position, state);
      r[|states| - 1 - k] == if k < |states| - position then states[position + k] else states[|states| - 1 - k]
  {
    var tail := states[position..];
    if k < |states| - position {
      ReverseAt(tail, |tail| - 1 - k);
    }
  }

  /** The states once the first `i` swaps of `new_state` are done. */
  ghost function Swapped(s0: seq<string>, p: nat, i: nat): (r: seq<string>)
    requires p + 2 * i <= |s0|
    ensures |r| == |s0|
  {
    if i == 0 then s0
    else
      var w, a, b := Swapped(s0, p, i - 1), p + i - 1, |s0| - i;
      w[a := w[b]][b := w[a]]
  }

  /** After `i` swaps, the `i` states after `p` and the last `i` states have
      traded places, and the others are where they were. */
  lemma {:induction false} SwappedAt(s0: seq<string>, p: nat, i: nat)
    requires p + 2 * i <= |s0|
    ensures forall j {:trigger Swapped(s0, p, i)[j]} :: 0 <= j < |s0| ==>
      Swapped(s0, p, i)[j] == if p <= j < p + i || |s0| - i <= j then s0[p + |s0| - 1 - j] else s0[j]
  {
    if i > 0 {
      SwappedAt(s0, p, i - 1);
    }
  }

  /** Once the swaps from both ends have met, the tail from `p` is reversed. */
  lemma {:induction false} SwappedAll(s0: seq<string>, p: nat, n: nat)
    requires p + 2 * n <= |s0| <= p + 2 * n + 1
    ensures Swapped(s0, p, n) == s0[..p] + Reverse(s0[p..])
  {
    var tail := s0[p..];
    var w := Swapped(s0, p, n);
    SwappedAt(s0, p, n);
    ReverseIndices(tail);
    forall j | 0 <= j < |s0| ensures w[j] == (s0[..p] + Reverse(tail))[j] {
      if j >= p {
        assert (s0[..p] + Reverse(tail))[j] == Reverse(tail)[j - p] == tail[|tail| - 1 - (j - p)];
        if p + n <= j < |s0| - n {
          assert j == p + n && 2 * j == p + |s0| - 1;
        }
      }
    }
  }

  class UndoRedoList {
    var states: seq<string>
    var position: nat

    ghost predicate Valid() reads this {
      position < |states|
    }

    /** `new`: one empty state, current. */
    constructor ()
      ensures Valid() && states == [""] && position == 0
    {
      states := [""];
      position := 0;
    }

    method Reset()
      modifies this
      ensures Valid() && states == [""] && position == 0
    {
      states := [];
      states := states + [""];
      position := 0;
    }

    /** Reverses `states[position..]` by swaps, appends `state` and makes it current. */
    method NewState(state: string)
      requires Valid()
      modifies this
      ensures Valid()
      ensures states == NewStates(old(states), old(position), state)
      ensures position == |states| - 1 == |old(states)|
    {
      var s0, p := states, position;
      var swapped := s0;
      var endPos: int := |s0| - 1;
      var startPos: int := p;
      if p < endPos {
        var stepCount := (endPos - startPos + 1) / 2;
        assert p + 2 * stepCount <= |s0| <= p + 2 * stepCount + 1;
        var i := 0;
        while i < stepCount
          invariant 0 <= i <= stepCount
          invariant startPos == p + i && endPos == |s0| - 1 - i
          invariant swapped == Swapped(s0, p, i)
        {
          swapped := swapped[startPos := swapped[endPos]][endPos := swapped[startPos]];
          startPos := startPos + 1;
          endPos := endPos - 1;
          i := i + 1;
        }
        SwappedAll(s0, p, stepCount);
      } else {
        SwappedAll(s0, p, 0);
      }
      states := swapped + [state];
      position := |states| - 1;
    }

    /** Steps back one state, or reports that there is none. */
    method Undo() returns (r: Option<string>)
      requires Valid()
      modifies this
      ensures Valid() && states == old(states)
      ensures old(position) == 0 ==> r == None && position == 0
      ensures old(position) > 0 ==> position == old(position) - 1 && r == Some(states[position])
    {
      if position > 0 {
        position := position - 1;
        r := Some(states[position]);
      } else {
        r := None;
      }
    }

    /** Steps forward one state, or reports that there is none. */
    method Redo() returns (r: Option<string>)
      requires Valid()
      modifies this
      ensures Valid() && states == old(states)
      ensures old(position) == |states| - 1 ==> r == None && position == old(position)
      ensures old(position) < |states| - 1 ==> position == old(position) + 1 && r == Some(states[position])
    {
      if position < |states| - 1 {
        position := position + 1;
        r := Some(states[position]);
      } else {
        r := None;
      }
    }
  }
}
