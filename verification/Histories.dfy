/** Runs of any step function: the moves made and the states they lead through. */
module Histories {
  import opened Wrappers

  datatype History<S, M> = History(moves: seq<M>, states: seq<S>)

  /** Every move of the history is possible where it is made and leads to the next state. */
  ghost predicate Leads<S, M>(start: S, next: (S, M) -> Option<S>, h: History<S, M>) {
    && |h.states| == |h.moves| + 1 && h.states[0] == start
    && forall i {:trigger h.moves[i]} | 0 <= i < |h.moves| ::
         next(h.states[i], h.moves[i]) == Some(h.states[i + 1])
  }

  /** Where some moves lead, if each is possible. */
  ghost function Follow<S, M>(start: S, next: (S, M) -> Option<S>, moves: seq<M>): Option<S>
    decreases |moves|
  {
    if |moves| == 0 then Some(start)
    else
      match Follow(start, next, moves[..|moves| - 1])
      case None => None
      case Some(x) => next(x, moves[|moves| - 1])
  }

  lemma {:induction false} FollowLeads<S, M>(start: S, next: (S, M) -> Option<S>, h: History<S, M>, k: nat)
    requires Leads(start, next, h) && k <= |h.moves|
    ensures Follow(start, next, h.moves[..k]) == Some(h.states[k])
  {
    if k > 0 {
      FollowLeads(start, next, h, k - 1);
      assert h.moves[..k][..k - 1] == h.moves[..k - 1];
      assert next(h.states[k - 1], h.moves[k - 1]) == Some(h.states[k]);
    }
  }

  function Extended<S, M>(h: History<S, M>, m: M, y: S): History<S, M> {
    History(h.moves + [m], h.states + [y])
  }

  lemma ExtendedLeads<S, M>(start: S, next: (S, M) -> Option<S>, h: History<S, M>, m: M, y: S)
    requires Leads(start, next, h) && next(h.states[|h.moves|], m) == Some(y)
    ensures Leads(start, next, Extended(h, m, y))
  {
    var more := Extended(h, m, y);
    forall i | 0 <= i < |more.moves|
      ensures next(more.states[i], more.moves[i]) == Some(more.states[i + 1])
    {
      if i < |h.moves| {
        assert next(h.states[i], h.moves[i]) == Some(h.states[i + 1]);
      }
    }
  }

  /** From every good state that picks a move, that move leads to a good state closer to the end. */
  ghost predicate Progresses<S(!new), M(!new)>(
    next: (S, M) -> Option<S>, good: S -> bool, pick: S -> Option<M>, left: S -> nat)
  {
    forall x | good(x) && pick(x).Some? ::
      var y := next(x, pick(x).value);
      y.Some? && good(y.value) && left(y.value) < left(x)
  }

  /** Then every history can be carried on to a good state that picks none. */
  lemma {:induction false} Complete<S(!new), M(!new)>(
    start: S, next: (S, M) -> Option<S>, good: S -> bool, pick: S -> Option<M>, left: S -> nat, h: History<S, M>)
      returns (g: History<S, M>)
    requires Progresses(next, good, pick, left) && Leads(start, next, h) && good(h.states[|h.moves|])
    ensures Leads(start, next, g) && good(g.states[|g.moves|]) && pick(g.states[|g.moves|]).None?
    decreases left(h.states[|h.moves|])
  {
    var x := h.states[|h.moves|];
    g := h;
    if pick(x).Some? {
      var m, y := pick(x).value, next(x, pick(x).value).value;
      ExtendedLeads(start, next, h, m, y);
      g := Complete(start, next, good, pick, left, Extended(h, m, y));
    }
  }
}
