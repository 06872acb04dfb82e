/**
 * Bookkeeping shared by the retry loops of both revisions: a round is a final
 * state, an outcome and the prompts sent, and a loop that has sent some prompts
 * still has the rest of the round to run.
 */
module Rounds {

  /** The part of the round still to run, after `sent`, completes the whole round `total`. */
  ghost predicate Continues<S, O>(total: (S, O, seq<string>), rest: (S, O, seq<string>), sent: seq<string>)
  {
    total == (rest.0, rest.1, sent + rest.2)
  }

  /** A rejected attempt moves its prompt from the part still to run to the part sent. */
  lemma ContinuesShift<S, O>(total: (S, O, seq<string>), first: (S, O, seq<string>),
                                     rest: (S, O, seq<string>), sent: seq<string>, prompt: string)
    requires Continues(total, first, sent)
    requires first.0 == rest.0 && first.1 == rest.1 && first.2 == [prompt] + rest.2
    ensures Continues(total, rest, sent + [prompt])
  {
    assert sent + ([prompt] + rest.2) == (sent + [prompt]) + rest.2;
  }
}
