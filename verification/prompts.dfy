/**
 * The prompt sent to the language model, chosen from three templates by the
 * board and the number of consecutive failures. Both revisions of the game
 * build it the same way.
 */
module Prompts {
  import opened Chess

  /** The piece placement of the standard starting position. */
  const StartPlacement: string := "rnbqkbnr/pppppppp/8/8/8/8/PPPPPPPP/RNBQKBNR"

  /** The literal the board's FEN is compared with: a whole FEN record, spaces included. */
  const StartFen: string := StartPlacement + " w KQkq - 0 1"

  /**
   * The `start` template. It is written in two pieces only because the verifier
   * reads the characters of a short literal, not of a long one, and the proofs
   * below need its first character.
   */
  const StartPrompt: string := "Say the first move to play " + "in chess in standard notation"

  /** The text both other templates begin with, before the colour. */
  const Lead: string := "Reply next chess move as "

  /** What follows the colour in the `failed` template, before the legal moves. */
  const FailedMiddle: string := ". Play one of these moves: "

  /** What follows the colour in the `normal` template, and the legal moves in `failed`. */
  const Tail: string := ". Only say the move. "

  datatype Template = Start | Normal | Failed

  function ColorName(whiteToMove: bool): string
  {
    if whiteToMove then "white" else "black"
  }

  /** `createPrompt`: the `start` template, else `failed` after a failure, else `normal`. */
  function Create(rules: Rules, board: History, fails: nat): (p: string)
    ensures p == StartPrompt <==> rules.boardFen(board) == StartFen
    ensures p != StartPrompt ==> |p| >= |Lead| && p[..|Lead|] == Lead
  {
    var color := ColorName(rules.whiteToMove(board));
    if rules.boardFen(board) == StartFen then StartPrompt
    else
      var p :=
        if fails != 0 then Lead + color + FailedMiddle + rules.legalMovesText(board) + Tail + rules.movetext(board)
        else Lead + color + Tail + rules.movetext(board);
      assert p[0] == 'R' && StartPrompt[0] == 'S';
      assert p[..|Lead|] == Lead;
      p
  }

  /** Reads back which template a prompt was made from. */
  function TemplateOf(prompt: string): Template
  {
    if prompt == StartPrompt then Start
    else if |prompt| >= |Lead| + 8 && prompt[|Lead| + 5 .. |Lead| + 8] == ". P" then Failed
    else Normal
  }

  /**
   * The template of a prompt is `start` exactly when the FEN equals the literal,
   * otherwise `failed` exactly when there were failures, otherwise `normal`.
   */
  lemma CreateSelectsTemplate(rules: Rules, board: History, fails: nat)
    ensures var t := TemplateOf(Create(rules, board, fails));
      && (t == Start <==> rules.boardFen(board) == StartFen)
      && (t == Failed <==> rules.boardFen(board) != StartFen && fails != 0)
      && (t == Normal <==> rules.boardFen(board) != StartFen && fails == 0)
  {
    if rules.boardFen(board) != StartFen {
      var color := ColorName(rules.whiteToMove(board));
      if fails != 0 {
        FailedPromptShape(color, rules.legalMovesText(board) + Tail + rules.movetext(board));
      } else {
        NormalPromptShape(color, rules.movetext(board));
      }
    }
  }

  /** A prompt of the `failed` template reads back as `failed`. */
  lemma FailedPromptShape(color: string, rest: string)
    requires |color| == 5
    ensures TemplateOf(Lead + color + FailedMiddle + rest) == Failed
  {
    var p := Lead + color + FailedMiddle + rest;
    assert p[0] == 'R' && StartPrompt[0] == 'S';
    assert p[|Lead| + 5 .. |Lead| + 8] == FailedMiddle[0..3] == ". P";
  }

  /** A prompt of the `normal` template reads back as `normal`. */
  lemma NormalPromptShape(color: string, moves: string)
    requires |color| == 5
    ensures TemplateOf(Lead + color + Tail + moves) == Normal
  {
    var p := Lead + color + Tail + moves;
    assert p[0] == 'R' && StartPrompt[0] == 'S';
    assert p[|Lead| + 7] == Tail[2] == 'O';
  }

  /**
   * Outside the `start` template, the colour named in the prompt is "white"
   * exactly when White is to move, and "black" otherwise.
   */
  lemma CreateNamesSideToMove(rules: Rules, board: History, fails: nat)
    requires rules.boardFen(board) != StartFen
    ensures var p := Create(rules, board, fails);
      && |p| >= |Lead| + 5
      && p[..|Lead|] == Lead
      && (p[|Lead| .. |Lead| + 5] == "white" <==> rules.whiteToMove(board))
      && (p[|Lead| .. |Lead| + 5] == "black" <==> !rules.whiteToMove(board))
  {
    var p := Create(rules, board, fails);
    var color := ColorName(rules.whiteToMove(board));
    assert p[|Lead| .. |Lead| + 5] == color;
    assert "white"[0] != "black"[0];
  }

  /**
   * The `failed` template lists the legal moves right after its middle text,
   * and both position templates end with the game's movetext.
   */
  lemma CreateCarriesPosition(rules: Rules, board: History, fails: nat)
    requires rules.boardFen(board) != StartFen
    ensures var p := Create(rules, board, fails);
      var legal := rules.legalMovesText(board);
      var moves := rules.movetext(board);
      && |p| >= |moves|
      && p[|p| - |moves| ..] == moves
      && (fails != 0 ==>
            |p| >= |Lead| + 5 + |FailedMiddle| + |legal|
            && p[|Lead| + 5 + |FailedMiddle| .. |Lead| + 5 + |FailedMiddle| + |legal|] == legal)
  {
    var p := Create(rules, board, fails);
    var color := ColorName(rules.whiteToMove(board));
    var legal := rules.legalMovesText(board);
    if fails != 0 {
      var head := Lead + color + FailedMiddle;
      assert p == head + legal + Tail + rules.movetext(board);
      assert p[|head| .. |head| + |legal|] == legal;
    }
  }

  /**
   * The comparison is with a whole FEN record, spaces included; a board FEN
   * holding no space (the piece placement alone) never selects `start`.
   */
  lemma PlacementFenNeverStarts(rules: Rules, board: History, fails: nat)
    requires ' ' !in rules.boardFen(board)
    ensures TemplateOf(Create(rules, board, fails)) != Start
  {
    assert StartFen[|StartPlacement|] == ' ';
    CreateSelectsTemplate(rules, board, fails);
  }

  /** Prompts for `fails`, `fails + 1`, ...: one more prompt in front of the prompts for `fails + 1` on. */
  lemma PromptsShift(rules: Rules, board: History, fails: nat, next: nat, prompt: string, rest: seq<string>)
    requires next == fails + 1 && prompt == Create(rules, board, fails)
    requires forall k | 0 <= k < |rest| :: rest[k] == Create(rules, board, next + k)
    ensures forall k | 0 <= k < |[prompt] + rest| :: ([prompt] + rest)[k] == Create(rules, board, fails + k)
  {
    forall k | 1 <= k < |[prompt] + rest| ensures ([prompt] + rest)[k] == Create(rules, board, fails + k) {
      assert ([prompt] + rest)[k] == rest[k - 1];
      assert next + (k - 1) == fails + k;
    }
  }
}
