/**
 * The game session of the older revision (Game.py). The player's move goes
 * through three engine calls of its own and never touches the failure
 * counter; the model's reply is cleaned for the first two readings but scanned
 * as it came; the accepted text is returned to the caller; there is no timeout.
 */
module LegacyGame {
  import opened Chess
  import opened Text
  import Extraction
  import Prompts
  import Rounds

  /**
   * The status message. `Moved` stands for "Move <stage>: <shown> Fails: <fails>"
   * and `FailLimitReached` for "Move fail limit reached (<fails>)".
   */
  datatype Status =
    | Blank
    | Moved(stage: Extraction.Stage, shown: string, fails: nat)
    | FailLimitReached(fails: nat)

  /** What the completion service does with one prompt; its errors are not caught. */
  datatype Reply = Answered(text: string) | ServiceError

  /** How `play` and `getGPTMove` end: they return the accepted text or None, or raise. */
  datatype Outcome = Returned(accepted: Option<string>) | BadPlayerMove | ServiceFailed

  datatype State = State(board: History, fails: nat, message: Status)

  /**
   * `pushPlayerMove`'s three tries in order: the text as SAN, the text handed to
   * `push`, the text with its first character capitalised as SAN.
   */
  function PlayerMove(rules: Rules, board: History, text: string): (r: Option<Move>)
    ensures r.None? <==>
      && rules.parse(board, text).None?
      && rules.pushObject(board, text).None?
      && (|text| > 0 ==> rules.parse(board, CapitalizeFirst(text)).None?)
    ensures rules.parse(board, text).Some? ==> r == rules.parse(board, text)
    ensures rules.parse(board, text).None? && rules.pushObject(board, text).Some? ==> r == rules.pushObject(board, text)
    ensures rules.parse(board, text).None? && rules.pushObject(board, text).None? && |text| > 0 ==>
      r == rules.parse(board, CapitalizeFirst(text))
  {
    if rules.parse(board, text).Some? then rules.parse(board, text)
    else if rules.pushObject(board, text).Some? then rules.pushObject(board, text)
    else if |text| > 0 then rules.parse(board, CapitalizeFirst(text))
    else None
  }

  /** `pushPlayerMove`: one move or none, and the counter and message are never touched. */
  function PlayerStep(rules: Rules, s: State, text: string): (r: (State, bool))
    ensures r.0.fails == s.fails && r.0.message == s.message
    ensures r.1 <==> PlayerMove(rules, s.board, text).Some?
    ensures r.1 ==> PushedOne(s.board, r.0.board) && r.0.board == s.board + [PlayerMove(rules, s.board, text).value]
    ensures !r.1 ==> r.0 == s
  {
    match PlayerMove(rules, s.board, text)
    case Some(m) => (s.(board := s.board + [m]), true)
    case None => (s, false)
  }

  /** The text the status message quotes: the capitalised reading for both first stages. */
  function Shown(prepared: string, a: Extraction.Accepted): string
  {
    if a.stage == Extraction.Scanned then a.san else Extraction.Stage1Text(prepared)
  }

  /**
   * `handleResponse`: the first two readings use the cleaned reply, the scan
   * the reply as it came. An accepted move is pushed, the message records the
   * counter as it was before the move, and the counter is reset; a rejected
   * reply adds one to the counter and changes nothing else.
   */
  function RespondStep(rules: Rules, s: State, completion: string): (r: (State, Option<string>))
    ensures r.1.None? <==> Extraction.Unreadable(rules, s.board, Prepare(completion), completion)
    ensures r.1.None? ==> r.0 == s.(fails := s.fails + 1)
    ensures r.1.Some? ==>
      && PushedOne(s.board, r.0.board)
      && rules.parse(s.board, r.1.value) == Some(r.0.board[|s.board|])
      && r.0.fails == 0
      && r.0.message.Moved? && r.0.message.fails == s.fails
  {
    var prepared := Prepare(completion);
    match Extraction.Extract(rules, s.board, prepared, completion)
    case None => (s.(fails := s.fails + 1), None)
    case Some(a) =>
      var after := State(s.board + [a.m], 0, Moved(a.stage, Shown(prepared, a), s.fails));
      (after, Some(a.san))
  }

  /** The fate of one attempt of the retry loop. */
  datatype Step = Accepted(san: string) | Rejected | Aborted

  /** One attempt: a service error escapes, an answer is handled. */
  function AttemptStep(rules: Rules, s: State, reply: Reply): (r: (State, Step))
    ensures r.1.Accepted? ==>
      && PushedOne(s.board, r.0.board) && r.0.fails == 0
      && rules.parse(s.board, r.1.san) == Some(r.0.board[|s.board|])
    ensures r.1 == Rejected ==> r.0 == s.(fails := s.fails + 1)
    ensures r.1 == Aborted ==> r.0 == s
  {
    match reply
    case ServiceError => (s, Aborted)
    case Answered(text) =>
      var (after, accepted) := RespondStep(rules, s, text);
      (after, if accepted.Some? then Accepted(accepted.value) else Rejected)
  }

  /**
   * The retry loop from attempt `i` on, with the prompts it sends: at most 5
   * attempts in all. An accepted reply ends it returning the accepted text with
   * exactly one move pushed; 5 rejected replies end it returning None with one
   * failure counted per attempt and the limit reported; a service error escapes.
   */
  function RetryLoop(rules: Rules, s: State, ask: (string, nat) -> Reply, i: nat): (r: (State, Outcome, seq<string>))
    requires i <= 5
    ensures |r.2| <= 5 - i && (i < 5 ==> 1 <= |r.2|)
    ensures r.1 != BadPlayerMove
    ensures r.1.Returned? && r.1.accepted.Some? ==>
      && PushedOne(s.board, r.0.board) && r.0.fails == 0
      && rules.parse(s.board, r.1.accepted.value) == Some(r.0.board[|s.board|])
    ensures r.1 == Returned(None) ==>
      && r.0.board == s.board && |r.2| == 5 - i
      && r.0.fails == s.fails + (5 - i) && r.0.message == FailLimitReached(r.0.fails)
    ensures r.1 == ServiceFailed ==> r.0.board == s.board && r.0.fails + 1 == s.fails + |r.2|
    decreases 5 - i
  {
    if i == 5 then (s.(message := FailLimitReached(s.fails)), Returned(None), [])
    else
      var prompt := Prompts.Create(rules, s.board, s.fails);
      var (after, step) := AttemptStep(rules, s, ask(prompt, i));
      match step
      case Accepted(san) => (after, Returned(Some(san)), [prompt])
      case Aborted => (after, ServiceFailed, [prompt])
      case Rejected =>
        var (last, outcome, prompts) := RetryLoop(rules, after, ask, i + 1);
        (last, outcome, [prompt] + prompts)
  }

  /**
   * Attempt `k` of a round sends the prompt for the unchanged board and `k`
   * more failures: a rejected reply leaves the board alone and adds one.
   */
  lemma {:induction false} RetryLoopPrompts(rules: Rules, s: State, ask: (string, nat) -> Reply, i: nat)
    requires i <= 5
    ensures forall k | 0 <= k < |RetryLoop(rules, s, ask, i).2| ::
      RetryLoop(rules, s, ask, i).2[k] == Prompts.Create(rules, s.board, s.fails + k)
    decreases 5 - i
  {
    if i < 5 {
      var prompt := Prompts.Create(rules, s.board, s.fails);
      var after, rejected := RetryLoopNext(rules, s, ask, i);
      if rejected {
        RetryLoopPrompts(rules, after, ask, i + 1);
        Prompts.PromptsShift(rules, s.board, s.fails, after.fails, prompt, RetryLoop(rules, after, ask, i + 1).2);
      } else {
        Prompts.PromptsShift(rules, s.board, s.fails, s.fails + 1, prompt, []);
      }
    }
  }

  /** The first attempt of a round: it ends the round, or it is rejected and the rest of the round runs from `after`. */
  lemma RetryLoopNext(rules: Rules, s: State, ask: (string, nat) -> Reply, i: nat) returns (after: State, rejected: bool)
    requires i < 5
    ensures !rejected ==> RetryLoop(rules, s, ask, i).2 == [Prompts.Create(rules, s.board, s.fails)]
    ensures rejected ==>
      && after.board == s.board && after.fails == s.fails + 1
      && RetryLoop(rules, s, ask, i).2 == [Prompts.Create(rules, s.board, s.fails)] + RetryLoop(rules, after, ask, i + 1).2
  {
    var prompt := Prompts.Create(rules, s.board, s.fails);
    var a := AttemptStep(rules, s, ask(prompt, i));
    RetryLoopStep(rules, s, ask, i, prompt, a.0, a.1);
    after, rejected := a.0, a.1 == Rejected;
  }

  /** One attempt of the retry loop: its reply decides whether the loop ends or goes on. */
  lemma RetryLoopStep(rules: Rules, s: State, ask: (string, nat) -> Reply, i: nat, prompt: string, after: State, step: Step)
    requires i < 5 && prompt == Prompts.Create(rules, s.board, s.fails)
    requires (after, step) == AttemptStep(rules, s, ask(prompt, i))
    ensures step.Accepted? ==> RetryLoop(rules, s, ask, i) == (after, Returned(Some(step.san)), [prompt])
    ensures step == Aborted ==> RetryLoop(rules, s, ask, i) == (after, ServiceFailed, [prompt])
    ensures step == Rejected ==>
      && after.board == s.board && after.fails == s.fails + 1
      && RetryLoop(rules, s, ask, i).0 == RetryLoop(rules, after, ask, i + 1).0
      && RetryLoop(rules, s, ask, i).1 == RetryLoop(rules, after, ask, i + 1).1
      && RetryLoop(rules, s, ask, i).2 == [prompt] + RetryLoop(rules, after, ask, i + 1).2
  {
  }

  /** `getGPTMove`: nothing happens once the game is over, otherwise the retry loop runs. */
  function GPTTurn(rules: Rules, s: State, ask: (string, nat) -> Reply): (r: (State, Outcome, seq<string>))
    ensures rules.isGameOver(s.board) ==> r == (s, Returned(None), [])
    ensures !rules.isGameOver(s.board) ==> 1 <= |r.2| <= 5
  {
    if rules.isGameOver(s.board) then (s, Returned(None), []) else RetryLoop(rules, s, ask, 0)
  }

  /**
   * `play`: nothing happens once the game is over; a player move none of the
   * three tries can push raises before the model is asked, with the state
   * untouched; otherwise the model's turn follows, the counter as it was.
   */
  function PlayTurn(rules: Rules, s: State, text: string, ask: (string, nat) -> Reply): (r: (State, Outcome, seq<string>))
    ensures rules.isGameOver(s.board) ==> r == (s, Returned(None), [])
    ensures r.1 == BadPlayerMove <==> !rules.isGameOver(s.board) && PlayerMove(rules, s.board, text).None?
    ensures r.1 == BadPlayerMove ==> r.0 == s && r.2 == []
    ensures !rules.isGameOver(s.board) && PlayerMove(rules, s.board, text).Some? ==>
      r == GPTTurn(rules, PlayerStep(rules, s, text).0, ask)
    ensures |r.2| <= 5
  {
    if rules.isGameOver(s.board) then (s, Returned(None), [])
    else
      var (after, ok) := PlayerStep(rules, s, text);
      if !ok then (after, BadPlayerMove, []) else GPTTurn(rules, after, ask)
  }

  /**
   * The player's accepted move does not reset the counter: after a round of
   * rejected replies, the prompts of the next round start from the `failed`
   * template, unless the FEN is the literal.
   */
  lemma PlayerMoveKeepsFailedPrompt(rules: Rules, s: State, text: string, ask: (string, nat) -> Reply)
    requires s.fails != 0 && !rules.isGameOver(s.board)
    requires PlayerMove(rules, s.board, text).Some?
    requires var b := PlayerStep(rules, s, text).0.board; !rules.isGameOver(b) && rules.boardFen(b) != Prompts.StartFen
    ensures var r := PlayTurn(rules, s, text, ask);
      |r.2| >= 1 && Prompts.TemplateOf(r.2[0]) == Prompts.Failed
  {
    var after := PlayerStep(rules, s, text).0;
    Prompts.CreateSelectsTemplate(rules, after.board, after.fails);
  }

  /**
   * A service that answers every prompt with text no reading accepts: 5 prompts,
   * 5 more failures, the board untouched, the limit reported, None returned.
   */
  lemma {:induction false} UnreadableRepliesExhaust(rules: Rules, s: State, ask: (string, nat) -> Reply, i: nat)
    requires i <= 5
    requires forall p, k :: ask(p, k).Answered? && Extraction.Unreadable(rules, s.board, Prepare(ask(p, k).text), ask(p, k).text)
    ensures var r := RetryLoop(rules, s, ask, i);
      && r.1 == Returned(None) && r.0.board == s.board && |r.2| == 5 - i
      && r.0.fails == s.fails + (5 - i) && r.0.message == FailLimitReached(s.fails + (5 - i))
    decreases 5 - i
  {
    if i < 5 {
      var prompt := Prompts.Create(rules, s.board, s.fails);
      assert ask(prompt, i).Answered?;
      UnreadableRepliesExhaust(rules, s.(fails := s.fails + 1), ask, i + 1);
    }
  }

  class Game {
    const rules: Rules
    var board: History
    var fails: nat
    var message: Status

    function Snapshot(): State
      reads this
    {
      State(board, fails, message)
    }

    /** A new game at the starting position with no failures. */
    constructor (rules: Rules)
      ensures this.rules == rules && Snapshot() == State([], 0, Blank)
    {
      this.rules := rules;
      board := [];
      fails := 0;
      message := Blank;
    }

    method PushPlayerMove(text: string) returns (ok: bool)
      modifies this`board
      ensures (Snapshot(), ok) == PlayerStep(rules, old(Snapshot()), text)
    {
      var parsed := rules.parse(board, text);
      if parsed.Some? {
        board := board + [parsed.value];
        return true;
      }
      var pushed := rules.pushObject(board, text);
      if pushed.Some? {
        board := board + [pushed.value];
        return true;
      }
      if |text| > 0 {
        var capitalized := CapitalizeFirst(text);
        parsed := rules.parse(board, capitalized);
        if parsed.Some? {
          board := board + [parsed.value];
          return true;
        }
      }
      return false;
    }

    method HandleResponse(completion: string) returns (accepted: Option<string>)
      modifies this
      ensures (Snapshot(), accepted) == RespondStep(rules, old(Snapshot()), completion)
    {
      var cleaned := Clean(completion);
      var prepared := StripMoveNumber(cleaned);
      assert prepared == Prepare(completion);
      var found := Extraction.ReadMove(rules, board, prepared, completion);
      ghost var expected := RespondStep(rules, Snapshot(), completion);
      match found {
        case None =>
          assert expected == (Snapshot().(fails := fails + 1), None);
          fails := fails + 1;
          return None;
        case Some(a) =>
          assert expected == (State(board + [a.m], 0, Moved(a.stage, Shown(prepared, a), fails)), Some(a.san));
          board := board + [a.m];
          message := Moved(a.stage, Shown(prepared, a), fails);
          fails := 0;
          return Some(a.san);
      }
    }

    function CreatePrompt(): string
      reads this
    {
      Prompts.Create(rules, board, fails)
    }

    /** The body of one try of the retry loop: the reply is handled, or the service's exception escapes. */
    method Attempt(reply: Reply) returns (step: Step)
      modifies this
      ensures (Snapshot(), step) == AttemptStep(rules, old(Snapshot()), reply)
    {
      match reply {
        case ServiceError =>
          step := Aborted;
        case Answered(text) =>
          var accepted := HandleResponse(text);
          step := if accepted.Some? then Accepted(accepted.value) else Rejected;
      }
    }

    /** `ask(prompt, attempt)` is the service's reply to the prompt sent at that attempt. */
    method GetGPTMove(ask: (string, nat) -> Reply) returns (outcome: Outcome, prompts: seq<string>)
      modifies this
      ensures (Snapshot(), outcome, prompts) == GPTTurn(rules, old(Snapshot()), ask)
    {
      if rules.isGameOver(board) {
        return Returned(None), [];
      }
      ghost var total := RetryLoop(rules, Snapshot(), ask, 0);
      prompts := [];
      assert prompts + total.2 == total.2;
      var i := 0;
      while i < 5
        invariant 0 <= i <= 5
        invariant total == GPTTurn(rules, old(Snapshot()), ask)
        invariant Rounds.Continues(total, RetryLoop(rules, Snapshot(), ask, i), prompts)
      {
        ghost var before := Snapshot();
        ghost var sent := prompts;
        var prompt := CreatePrompt();
        prompts := prompts + [prompt];
        var step := Attempt(ask(prompt, i));
        ContinuesAfterAttempt(rules, ask, total, before, i, sent, prompt, Snapshot(), step);
        if step.Accepted? {
          return Returned(Some(step.san)), prompts;
        } else if step == Aborted {
          return ServiceFailed, prompts;
        }
        i := i + 1;
      }
      ContinuesAtLimit(rules, ask, total, Snapshot(), prompts);
      message := FailLimitReached(fails);
      outcome := Returned(None);
    }

    method Play(text: string, ask: (string, nat) -> Reply) returns (outcome: Outcome, prompts: seq<string>)
      modifies this
      ensures (Snapshot(), outcome, prompts) == PlayTurn(rules, old(Snapshot()), text, ask)
    {
      if rules.isGameOver(board) {
        return Returned(None), [];
      }
      var ok := PushPlayerMove(text);
      if !ok {
        return BadPlayerMove, [];
      }
      outcome, prompts := GetGPTMove(ask);
    }
  }

  /** One attempt of the loop: an accepted or aborted attempt ends the round, a rejected one leaves the rest to run. */
  lemma ContinuesAfterAttempt(rules: Rules, ask: (string, nat) -> Reply, total: (State, Outcome, seq<string>),
                              s: State, i: nat, sent: seq<string>, prompt: string, after: State, step: Step)
    requires i < 5 && Rounds.Continues(total, RetryLoop(rules, s, ask, i), sent)
    requires prompt == Prompts.Create(rules, s.board, s.fails)
    requires (after, step) == AttemptStep(rules, s, ask(prompt, i))
    ensures step.Accepted? ==> total == (after, Returned(Some(step.san)), sent + [prompt])
    ensures step == Aborted ==> total == (after, ServiceFailed, sent + [prompt])
    ensures step == Rejected ==> Rounds.Continues(total, RetryLoop(rules, after, ask, i + 1), sent + [prompt])
  {
    RetryLoopStep(rules, s, ask, i, prompt, after, step);
    if step == Rejected {
      Rounds.ContinuesShift(total, RetryLoop(rules, s, ask, i), RetryLoop(rules, after, ask, i + 1), sent, prompt);
    }
  }

  /** Once 5 attempts were rejected, the round ends reporting the limit with the prompts sent. */
  lemma ContinuesAtLimit(rules: Rules, ask: (string, nat) -> Reply, total: (State, Outcome, seq<string>), s: State, sent: seq<string>)
    requires Rounds.Continues(total, RetryLoop(rules, s, ask, 5), sent)
    ensures total == (s.(message := FailLimitReached(s.fails)), Returned(None), sent)
  {
    assert sent + [] == sent;
  }
}
