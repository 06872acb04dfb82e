/**
 * The game session of the current revision (ChatChess/ChatChess.py): a board,
 * a counter of consecutive failed model replies, the last accepted move of each
 * side and a status message.
 *
 * Each operation of the session class is specified by a function over a value
 * snapshot of the session (`State`); the properties of the session are proved
 * about those functions.
 */
module ChatChessGame {
  import opened Chess
  import opened Text
  import Extraction
  import Prompts
  import Rounds

  datatype Player = Input | ChatGPT

  /** One entry of the move record: the accepted text and the engine's parse of it. */
  datatype Record = Record(san: string, uci: Option<Move>)

  /**
   * The status message. `Moved` stands for "Move <stage>: <shown> Player: <player>
   * Fails: <fails>" and `FailLimitReached` for "Move fail limit reached (<fails>)".
   */
  datatype Status =
    | Blank
    | Moved(stage: Extraction.Stage, shown: string, player: Player, fails: nat)
    | FailLimitReached(fails: nat)

  /** What the completion service does with one prompt. */
  datatype Reply = Answered(text: string) | TimedOut | ServiceError

  /** How `play` and `getGPTMove` end: they return (always None), or raise. */
  datatype Outcome = Returned | BadPlayerMove | ServiceFailed

  datatype State = State(board: History, fails: nat, move: map<Player, Record>, message: Status)

  /** The text the status message quotes: the capitalised reading for both first stages. */
  function Shown(response: string, a: Extraction.Accepted): string
  {
    if a.stage == Extraction.Scanned then a.san else Extraction.Stage1Text(response)
  }

  /**
   * `handleResponse`: the first reading of `response` the engine parses is
   * pushed, recorded for `player` and reported; when none parses nothing changes.
   */
  function RespondStep(rules: Rules, s: State, response: string, player: Player): (r: (State, Option<string>))
    ensures r.1.None? <==> Extraction.Unreadable(rules, s.board, response, response)
    ensures r.1.None? ==> r.0 == s
    ensures r.1.Some? ==>
      && PushedOne(s.board, r.0.board)
      && rules.parse(s.board, r.1.value) == Some(r.0.board[|s.board|])
      && r.0.move == s.move[player := Record(r.1.value, Some(r.0.board[|s.board|]))]
      && r.0.fails == s.fails
      && r.0.message.Moved? && r.0.message.player == player && r.0.message.fails == s.fails
  {
    match Extraction.Extract(rules, s.board, response, response)
    case None => (s, None)
    case Some(a) =>
      var after := s.(board := s.board + [a.m],
                      move := s.move[player := Record(a.san, Some(a.m))],
                      message := Moved(a.stage, Shown(response, a), player, s.fails));
      (after, Some(a.san))
  }

  /**
   * `handleGPTMove`: the reply is cleaned and its move number dropped; an
   * accepted move resets the counter, a rejected reply adds one to it and
   * changes nothing else.
   */
  function GPTStep(rules: Rules, s: State, completion: string): (r: (State, bool))
    ensures r.1 <==> !Extraction.Unreadable(rules, s.board, Prepare(completion), Prepare(completion))
    ensures r.1 ==> r.0.fails == 0 && PushedOne(s.board, r.0.board)
    ensures r.1 ==> ChatGPT in r.0.move && rules.parse(s.board, r.0.move[ChatGPT].san) == Some(r.0.board[|s.board|])
    ensures !r.1 ==> r.0 == s.(fails := s.fails + 1)
  {
    var (after, accepted) := RespondStep(rules, s, Prepare(completion), ChatGPT);
    if accepted.Some? then (after.(fails := 0), true)
    else (after.(fails := after.fails + 1), false)
  }

  /** `handleGPTMove` once `handleResponse` has returned: only the counter is left to update. */
  lemma GPTStepAfterResponse(rules: Rules, s: State, completion: string, after: State, accepted: Option<string>)
    requires (after, accepted) == RespondStep(rules, s, Prepare(completion), ChatGPT)
    ensures accepted.Some? ==> GPTStep(rules, s, completion) == (after.(fails := 0), true)
    ensures accepted.None? ==> GPTStep(rules, s, completion) == (after.(fails := after.fails + 1), false)
  {
  }

  /**
   * `handleInputMove`: the player's text is read as typed; an accepted move
   * resets the counter, a rejected one leaves the whole state as it was.
   */
  function InputStep(rules: Rules, s: State, text: string): (r: (State, bool))
    ensures r.1 <==> !Extraction.Unreadable(rules, s.board, text, text)
    ensures r.1 ==> r.0.fails == 0 && PushedOne(s.board, r.0.board)
    ensures !r.1 ==> r.0 == s
  {
    var (after, accepted) := RespondStep(rules, s, text, Input);
    if accepted.Some? then (after.(fails := 0), true) else (after, false)
  }

  /** The fate of one attempt of the retry loop. */
  datatype Step = Accepted | Rejected | Aborted

  /** One attempt: a timeout counts as a failure, a service error escapes, an answer is handled. */
  function AttemptStep(rules: Rules, s: State, reply: Reply): (State, Step)
  {
    match reply
    case TimedOut => (s.(fails := s.fails + 1), Rejected)
    case ServiceError => (s, Aborted)
    case Answered(text) =>
      var (after, ok) := GPTStep(rules, s, text);
      (after, if ok then Accepted else Rejected)
  }

  /**
   * What one attempt does: a timeout adds one failure and leaves everything
   * else alone, a service error changes nothing, an answer is `handleGPTMove`'s
   * step. So an accepted attempt pushes one move and resets the counter, and a
   * rejected one only adds one failure.
   */
  lemma AttemptStepEffects(rules: Rules, s: State, reply: Reply)
    ensures reply.TimedOut? ==> AttemptStep(rules, s, reply) == (s.(fails := s.fails + 1), Rejected)
    ensures reply.ServiceError? ==> AttemptStep(rules, s, reply) == (s, Aborted)
    ensures reply.Answered? ==>
      && (AttemptStep(rules, s, reply).1 == Accepted <==> GPTStep(rules, s, reply.text).1)
      && AttemptStep(rules, s, reply).0 == GPTStep(rules, s, reply.text).0
    ensures AttemptStep(rules, s, reply).1 == Accepted ==>
      AttemptStep(rules, s, reply).0.fails == 0 && PushedOne(s.board, AttemptStep(rules, s, reply).0.board)
    ensures AttemptStep(rules, s, reply).1 == Rejected ==> AttemptStep(rules, s, reply).0 == s.(fails := s.fails + 1)
  {
  }

  /**
   * The retry loop from attempt `i` on, with the prompts it sends. The loop makes at most 5 attempts in all; it either pushes exactly one move
   * and resets the counter, or uses up its attempts with one failure each and
   * reports the limit, or stops at a service error.
   */
  function RetryLoop(rules: Rules, s: State, ask: (string, nat) -> Reply, i: nat): (r: (State, Outcome, seq<string>))
    requires i <= 5
    ensures |r.2| <= 5 - i && (i < 5 ==> 1 <= |r.2|)
    ensures r.1 != BadPlayerMove
    ensures r.0.board == s.board || (r.1 == Returned && r.0.fails == 0 && PushedOne(s.board, r.0.board))
    ensures r.1 == Returned && r.0.board == s.board ==>
      |r.2| == 5 - i && r.0.fails == s.fails + (5 - i) && r.0.message == FailLimitReached(r.0.fails)
    ensures r.1 == ServiceFailed ==> r.0.board == s.board && r.0.fails == s.fails + |r.2| - 1
    decreases 5 - i
  {
    if i == 5 then (s.(message := FailLimitReached(s.fails)), Returned, [])
    else
      var prompt := Prompts.Create(rules, s.board, s.fails);
      var (after, step) := AttemptStep(rules, s, ask(prompt, i));
      match step
      case Accepted => (after, Returned, [prompt])
      case Aborted => (after, ServiceFailed, [prompt])
      case Rejected =>
        var (last, outcome, prompts) := RetryLoop(rules, after, ask, i + 1);
        (last, outcome, [prompt] + prompts)
  }

  /**
   * Attempt `k` of a round sends the prompt for the unchanged board and `k`
   * more failures: a rejected reply or a timeout leaves the board alone and adds one.
   */
  lemma {:induction false} RetryLoopPrompts(rules: Rules, s: State, ask: (string, nat) -> Reply, i: nat)
    requires i <= 5
    ensures forall k | 0 <= k < |RetryLoop(rules, s, ask, i).2| ::
      RetryLoop(rules, s, ask, i).2[k] == Prompts.Create(rules, s.board, s.fails + k)
    decreases 5 - i
  {
    if i < 5 {
      var prompt := Prompts.Create(rules, s.board, s.fails);
      var after, rejected := RetryLoopNext(rules, s, ask, i);
      if rejected {
        RetryLoopPrompts(rules, after, ask, i + 1);
        Prompts.PromptsShift(rules, s.board, s.fails, after.fails, prompt, RetryLoop(rules, after, ask, i + 1).2);
      } else {
        Prompts.PromptsShift(rules, s.board, s.fails, s.fails + 1, prompt, []);
      }
    }
  }

  /** The first attempt of a round: it ends the round, or it is rejected and the rest of the round runs from `after`. */
  lemma RetryLoopNext(rules: Rules, s: State, ask: (string, nat) -> Reply, i: nat) returns (after: State, rejected: bool)
    requires i < 5
    ensures !rejected ==> RetryLoop(rules, s, ask, i).2 == [Prompts.Create(rules, s.board, s.fails)]
    ensures rejected ==>
      && after.board == s.board && after.fails == s.fails + 1
      && RetryLoop(rules, s, ask, i).2 == [Prompts.Create(rules, s.board, s.fails)] + RetryLoop(rules, after, ask, i + 1).2
  {
    var prompt := Prompts.Create(rules, s.board, s.fails);
    var a := AttemptStep(rules, s, ask(prompt, i));
    RetryLoopStep(rules, s, ask, i, prompt, a.0, a.1);
    after, rejected := a.0, a.1 == Rejected;
  }

  /** One attempt of the retry loop: its reply decides whether the loop ends or goes on. */
  lemma RetryLoopStep(rules: Rules, s: State, ask: (string, nat) -> Reply, i: nat, prompt: string, after: State, step: Step)
    requires i < 5 && prompt == Prompts.Create(rules, s.board, s.fails)
    requires (after, step) == AttemptStep(rules, s, ask(prompt, i))
    ensures step == Accepted ==> RetryLoop(rules, s, ask, i) == (after, Returned, [prompt])
    ensures step == Aborted ==> RetryLoop(rules, s, ask, i) == (after, ServiceFailed, [prompt])
    ensures step == Rejected ==>
      && after.board == s.board && after.fails == s.fails + 1
      && RetryLoop(rules, s, ask, i).0 == RetryLoop(rules, after, ask, i + 1).0
      && RetryLoop(rules, s, ask, i).1 == RetryLoop(rules, after, ask, i + 1).1
      && RetryLoop(rules, s, ask, i).2 == [prompt] + RetryLoop(rules, after, ask, i + 1).2
  {
  }

  /** `getGPTMove`: nothing happens once the game is over, otherwise the retry loop runs. */
  function GPTTurn(rules: Rules, s: State, ask: (string, nat) -> Reply): (r: (State, Outcome, seq<string>))
    ensures rules.isGameOver(s.board) ==> r == (s, Returned, [])
    ensures !rules.isGameOver(s.board) ==> 1 <= |r.2| <= 5
  {
    if rules.isGameOver(s.board) then (s, Returned, []) else RetryLoop(rules, s, ask, 0)
  }

  /**
   * `play`: nothing happens once the game is over; a rejected player move
   * raises before the model is asked, with the state untouched; an accepted
   * one resets the counter and hands over to the model.
   */
  function PlayTurn(rules: Rules, s: State, text: string, ask: (string, nat) -> Reply): (r: (State, Outcome, seq<string>))
    ensures rules.isGameOver(s.board) ==> r == (s, Returned, [])
    ensures r.1 == BadPlayerMove <==> !rules.isGameOver(s.board) && Extraction.Unreadable(rules, s.board, text, text)
    ensures r.1 == BadPlayerMove ==> r.0 == s && r.2 == []
    ensures !rules.isGameOver(s.board) && !Extraction.Unreadable(rules, s.board, text, text) ==>
      r == GPTTurn(rules, InputStep(rules, s, text).0, ask)
    ensures |r.2| <= 5
  {
    if rules.isGameOver(s.board) then (s, Returned, [])
    else
      var (after, ok) := InputStep(rules, s, text);
      if !ok then (after, BadPlayerMove, []) else GPTTurn(rules, after, ask)
  }

  /**
   * An accepted player move resets the counter, so the model's round that
   * follows starts from the `normal` template, unless the FEN is the literal.
   */
  lemma PlayerMoveResetsPrompt(rules: Rules, s: State, text: string, ask: (string, nat) -> Reply)
    requires !rules.isGameOver(s.board) && !Extraction.Unreadable(rules, s.board, text, text)
    requires var b := InputStep(rules, s, text).0.board; !rules.isGameOver(b) && rules.boardFen(b) != Prompts.StartFen
    ensures |PlayTurn(rules, s, text, ask).2| >= 1
    ensures Prompts.TemplateOf(PlayTurn(rules, s, text, ask).2[0]) == Prompts.Normal
  {
    var after := InputStep(rules, s, text).0;
    Prompts.CreateSelectsTemplate(rules, after.board, after.fails);
  }

  /**
   * A service that always times out: the round sends 5 prompts, adds 5 to the
   * counter, leaves the board alone and reports the limit.
   */
  lemma {:induction false} TimeoutsExhaust(rules: Rules, s: State, ask: (string, nat) -> Reply, i: nat)
    requires i <= 5
    requires forall p, k :: ask(p, k) == TimedOut
    ensures var r := RetryLoop(rules, s, ask, i);
      && r.1 == Returned && r.0.board == s.board && |r.2| == 5 - i
      && r.0.fails == s.fails + (5 - i) && r.0.message == FailLimitReached(s.fails + (5 - i))
    decreases 5 - i
  {
    if i < 5 {
      var prompt := Prompts.Create(rules, s.board, s.fails);
      assert ask(prompt, i) == TimedOut;
      TimeoutsExhaust(rules, s.(fails := s.fails + 1), ask, i + 1);
    }
  }

  /** Every prompt after the first failure of a round uses the `failed` template (unless the FEN is the literal). */
  lemma PromptsAfterFailureListMoves(rules: Rules, s: State, ask: (string, nat) -> Reply, k: nat)
    requires !rules.isGameOver(s.board) && rules.boardFen(s.board) != Prompts.StartFen
    requires 1 <= k
    ensures k < |GPTTurn(rules, s, ask).2| ==> Prompts.TemplateOf(GPTTurn(rules, s, ask).2[k]) == Prompts.Failed
  {
    RetryLoopPrompts(rules, s, ask, 0);
    Prompts.CreateSelectsTemplate(rules, s.board, s.fails + k);
  }

  /** One attempt of the loop: an accepted or aborted attempt ends the round, a rejected one leaves the rest to run. */
  lemma ContinuesAfterAttempt(rules: Rules, ask: (string, nat) -> Reply, total: (State, Outcome, seq<string>),
                              s: State, i: nat, sent: seq<string>, prompt: string, after: State, step: Step)
    requires i < 5 && Rounds.Continues(total, RetryLoop(rules, s, ask, i), sent)
    requires prompt == Prompts.Create(rules, s.board, s.fails)
    requires (after, step) == AttemptStep(rules, s, ask(prompt, i))
    ensures step == Accepted ==> total == (after, Returned, sent + [prompt])
    ensures step == Aborted ==> total == (after, ServiceFailed, sent + [prompt])
    ensures step == Rejected ==> Rounds.Continues(total, RetryLoop(rules, after, ask, i + 1), sent + [prompt])
  {
    RetryLoopStep(rules, s, ask, i, prompt, after, step);
    if step == Rejected {
      Rounds.ContinuesShift(total, RetryLoop(rules, s, ask, i), RetryLoop(rules, after, ask, i + 1), sent, prompt);
    }
  }

  /** Once 5 attempts were rejected, the round ends reporting the limit with the prompts sent. */
  lemma ContinuesAtLimit(rules: Rules, ask: (string, nat) -> Reply, total: (State, Outcome, seq<string>), s: State, sent: seq<string>)
    requires Rounds.Continues(total, RetryLoop(rules, s, ask, 5), sent)
    ensures total == (s.(message := FailLimitReached(s.fails)), Returned, sent)
  {
    assert sent + [] == sent;
  }

  class Game {
    const rules: Rules
    var board: History
    var fails: nat
    var move: map<Player, Record>
    var message: Status

    function Snapshot(): State
      reads this
    {
      State(board, fails, move, message)
    }

    /** A new game at the starting position, with empty records and no failures. */
    constructor (rules: Rules)
      ensures this.rules == rules
      ensures Snapshot() == State([], 0, map[Input := Record("", None), ChatGPT := Record("", None)], Blank)
    {
      this.rules := rules;
      board := [];
      fails := 0;
      move := map[Input := Record("", None), ChatGPT := Record("", None)];
      message := Blank;
    }

    /** The alarm handler: one more failure (the exception it raises ends the attempt). */
    method TimeoutHandler()
      modifies this`fails
      ensures fails == old(fails) + 1
    {
      fails := fails + 1;
    }

    method HandleResponse(response: string, player: Player) returns (accepted: Option<string>)
      modifies this
      ensures (Snapshot(), accepted) == RespondStep(rules, old(Snapshot()), response, player)
    {
      var found := Extraction.ReadMove(rules, board, response, response);
      match found {
        case None =>
          return None;
        case Some(a) =>
          move := move[player := Record(a.san, Some(a.m))];
          board := board + [a.m];
          message := Moved(a.stage, Shown(response, a), player, fails);
          return Some(a.san);
      }
    }

    method HandleGPTMove(completion: string) returns (ok: bool)
      modifies this
      ensures (Snapshot(), ok) == GPTStep(rules, old(Snapshot()), completion)
    {
      var cleaned := Clean(completion);
      var prepared := StripMoveNumber(cleaned);
      assert prepared == Prepare(completion);
      ghost var before := Snapshot();
      var accepted := HandleResponse(prepared, ChatGPT);
      GPTStepAfterResponse(rules, before, completion, Snapshot(), accepted);
      if accepted.Some? {
        fails := 0;
        ok := true;
      } else {
        fails := fails + 1;
        ok := false;
      }
    }

    method HandleInputMove(text: string) returns (ok: bool)
      modifies this
      ensures (Snapshot(), ok) == InputStep(rules, old(Snapshot()), text)
    {
      var accepted := HandleResponse(text, Input);
      if accepted.Some? {
        fails := 0;
      }
      ok := accepted.Some?;
    }

    function CreatePrompt(): string
      reads this
    {
      Prompts.Create(rules, board, fails)
    }

    /** The body of one try of the retry loop: the reply is handled, or the exception it raises is caught or escapes. */
    method Attempt(reply: Reply) returns (step: Step)
      modifies this
      ensures (Snapshot(), step) == AttemptStep(rules, old(Snapshot()), reply)
    {
      match reply {
        case TimedOut =>
          TimeoutHandler();
          step := Rejected;
        case ServiceError =>
          step := Aborted;
        case Answered(text) =>
          var ok := HandleGPTMove(text);
          step := if ok then Accepted else Rejected;
      }
    }

    /** `ask(prompt, attempt)` is the service's reply to the prompt sent at that attempt. */
    method GetGPTMove(ask: (string, nat) -> Reply) returns (outcome: Outcome, prompts: seq<string>)
      modifies this
      ensures (Snapshot(), outcome, prompts) == GPTTurn(rules, old(Snapshot()), ask)
    {
      if rules.isGameOver(board) {
        return Returned, [];
      }
      ghost var total := RetryLoop(rules, Snapshot(), ask, 0);
      prompts := [];
      assert prompts + total.2 == total.2;
      var i := 0;
      while i < 5
        invariant 0 <= i <= 5
        invariant total == GPTTurn(rules, old(Snapshot()), ask)
        invariant Rounds.Continues(total, RetryLoop(rules, Snapshot(), ask, i), prompts)
      {
        ghost var before := Snapshot();
        ghost var sent := prompts;
        var prompt := CreatePrompt();
        prompts := prompts + [prompt];
        var step := Attempt(ask(prompt, i));
        ContinuesAfterAttempt(rules, ask, total, before, i, sent, prompt, Snapshot(), step);
        if step == Accepted {
          return Returned, prompts;
        } else if step == Aborted {
          return ServiceFailed, prompts;
        }
        i := i + 1;
      }
      ContinuesAtLimit(rules, ask, total, Snapshot(), prompts);
      message := FailLimitReached(fails);
      outcome := Returned;
    }

    method Play(text: string, ask: (string, nat) -> Reply) returns (outcome: Outcome, prompts: seq<string>)
      modifies this
      ensures (Snapshot(), outcome, prompts) == PlayTurn(rules, old(Snapshot()), text, ask)
    {
      if rules.isGameOver(board) {
        return Returned, [];
      }
      var ok := HandleInputMove(text);
      if !ok {
        return BadPlayerMove, [];
      }
      outcome, prompts := GetGPTMove(ask);
    }
  }
}
