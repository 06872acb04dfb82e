# ChatChess move acceptance, modelled in Dafny

ChatChess lets a player play chess against ChatGPT. Both the player's moves and
the model's replies arrive as free text. The core modelled here decides how such
a text becomes exactly one move on the board, or a rejection. It also covers the
bookkeeping around that decision:

- the counter of consecutive failed replies (`fails`);
- the status message;
- the retry loop of at most five attempts per model turn;
- the prompt sent at each attempt.

The repository holds two revisions of the `Game` class, and both are modelled:

- `ChatChess/ChatChess.py`, the current revision, is module `ChatChessGame`.
- `Game.py`, the older revision, is module `LegacyGame`.

They share four modules:

- `Text`: first-letter case changes, erasing newlines, periods and spaces, and
  dropping a leading move number.
- `Extraction`: the three readings of a move text, which are the capitalised
  text, the text with its first letter lowered, and the substring scan.
- `Prompts`: the three prompt templates.
- `Rounds`: the bookkeeping of a retry round that both loops' proofs use.

Module `Chess` stands for python-chess. The board is the sequence of moves pushed
since the starting position. Everything the engine answers is a field of the
record `Chess.Rules`: SAN parsing, `push` on a raw string, game over, side to
move, board FEN, the legal-move list and the movetext. Every property below holds
for every choice of these functions.

The completion service is a parameter `ask(prompt, attempt)`. Its reply is one of:

- an answer text;
- a timeout (current revision only);
- a service error, which neither revision catches.

Each `Game` class keeps the source's fields. Each method is specified by a
function over a value snapshot of those fields (`State`). Its `ensures` states
that the new snapshot and the results are that function of the old snapshot.
The properties are then proved about the functions.

## Model

| member | source | states |
|---|---|---|
| Text.ToUpper | ChatChess/ChatChess.py:112 | a lower-case ASCII letter becomes its upper-case letter; every other character is unchanged; the result is never lower case |
| Text.ToLower | ChatChess/ChatChess.py:126 | an upper-case ASCII letter becomes its lower-case letter; every other character is unchanged; the result is never upper case |
| Text.CapitalizeFirst | ChatChess/ChatChess.py:111-112 | the same length and the same tail; the first character is not lower case; a text whose first character is not lower case is unchanged |
| Text.LowerFirst | ChatChess/ChatChess.py:126 | the same length and the same tail; the first character is not upper case; a text whose first character is not upper case is unchanged |
| Text.LowerFirstUndoesCapitalize | ChatChess/ChatChess.py:111-126 | lowering the first letter undoes capitalising it, when that letter was not upper case to begin with |
| Text.CapitalizeUndoesLowerFirst | ChatChess/ChatChess.py:111-126 | capitalising the first letter undoes lowering it, when that letter was not lower case to begin with |
| Text.RemoveAll | ChatChess/ChatChess.py:155 | the erased character no longer occurs; the result is no longer than the input, and every character in it comes from the input |
| Text.RemoveAllKeepsOthers | ChatChess/ChatChess.py:155 | erasing one character keeps the number of occurrences of every other character |
| Text.RemoveAllAppend | ChatChess/ChatChess.py:155 | erasing distributes over concatenation, so the order of the kept characters is preserved |
| Text.RemoveAllAbsent | ChatChess/ChatChess.py:155 | erasing a character that does not occur changes nothing |
| Text.Clean | ChatChess/ChatChess.py:155 | the cleaned reply holds no newline, period or space |
| Text.CleanKeepsOthers | Game.py:114 | cleaning keeps the number of occurrences of every character that is not a separator |
| Text.CleanAppend | Game.py:114 | cleaning distributes over concatenation |
| Text.CleanIdempotent | Game.py:114 | cleaning a cleaned text changes nothing |
| Text.DigitPrefixLength | ChatChess/ChatChess.py:158-163 | the length of the longest prefix made of digits: it is all digits, and the next character, if any, is not a digit |
| Text.MoveNumberStripped | ChatChess/ChatChess.py:158-163 | a suffix of the text; a text of digits only (the empty text included) is unchanged; otherwise the result starts at the first non-digit and only digits were dropped |
| Text.StripMoveNumber | Game.py:117-122 | the loop over the cleaned text computes exactly the stripped text, ending at the first non-digit |
| Text.PrepareShape | ChatChess/ChatChess.py:155-163 | the reply as prepared for reading (cleaned, then its move number dropped) holds no separator, and if it starts with a digit it is digits only |
| Extraction.Stage1Text | ChatChess/ChatChess.py:111-112 | a text of at most two characters is read as it is; a longer one keeps its length and tail and has a first letter that is not lower case, and is unchanged when its first letter was not lower case |
| Extraction.ScanFrom | ChatChess/ChatChess.py:137-146 | a hit lies within the bounds still to try, is the clamped slice `text[start:start+chars]` at its own bounds, and is the engine's parse of that slice |
| Extraction.Scan | ChatChess/ChatChess.py:136-146 | a hit is a non-empty slice `text[start:start+chars]`, clamped to the end of the text, and the engine parses it to the hit's move |
| Extraction.ScanForMove | ChatChess/ChatChess.py:137-146 | the nested loops, outer bound from the length down to 1 and start from 0 up, return exactly the first candidate the engine parses |
| Extraction.ScanFromSkipsOnlyFailures | Game.py:151-159 | every candidate tried before the hit fails to parse |
| Extraction.ScanFromFinds | Game.py:151-159 | a parseable candidate still to be tried makes the scan succeed |
| Extraction.ScanFindsEmbedded | ChatChess/ChatChess.py:137-146 | completeness: if any non-empty substring parses, the scan finds a move |
| Extraction.ScanPrecedence | ChatChess/ChatChess.py:137-144 | no parseable substring is longer than the hit's outer bound, and one of exactly that length does not start before the hit |
| Extraction.ScanNotLongestFirst | ChatChess/ChatChess.py:137-144 | the scan is not longest-first: in "Nf3ore4" the truncated suffix "e4" is accepted although the interior "Nf3" parses too |
| Extraction.Extract | ChatChess/ChatChess.py:108-148 | a move is found exactly when some reading parses; the move is the engine's parse of the accepted text; each stage's text is the reading that stage tries, and stage 2 is used only after stage 1 fails |
| Extraction.ExtractStageOrder | ChatChess/ChatChess.py:111-146 | the readings are tried in order and the first success wins: a parseable first reading is always taken; the lowered reading is used only after the first fails; the scan only after both fail, and then its first hit is the accepted text and move |
| Extraction.ReadMove | ChatChess/ChatChess.py:111-146 | the three `try` blocks in order compute exactly the readings' first success |
| Extraction.EmbeddedMoveFound | ChatChess/ChatChess.py:136-146 | a legal move token amid any prefix and suffix noise in the scan text always yields a move |
| Extraction.CaseCorruptionRecovered | ChatChess/ChatChess.py:111-133 | a move typed with the wrong case of its first letter is still read; a piece move is read as itself, and a pawn move is read as itself unless its capitalised form is a legal move of its own |
| Prompts.Create | ChatChess/ChatChess.py:75-89 | the prompt is the `start` text exactly when the board FEN equals the literal; every other prompt begins with "Reply next chess move as " |
| Prompts.CreateSelectsTemplate | ChatChess/ChatChess.py:82-87 | `start` exactly when the FEN equals the literal; otherwise `failed` exactly when `fails != 0`, and `normal` exactly when `fails == 0` |
| Prompts.CreateNamesSideToMove | ChatChess/ChatChess.py:77-80 | outside `start`, the prompt names "white" exactly when White is to move and "black" exactly when Black is |
| Prompts.CreateCarriesPosition | Game.py:93-96 | the `failed` prompt lists the legal moves after its middle text, and both position prompts end with the movetext |
| Prompts.PlacementFenNeverStarts | Game.py:91 | a board FEN holding no space never selects `start` |
| ChatChessGame.RespondStep | ChatChess/ChatChess.py:108-148 | rejected exactly when no reading parses, and then nothing changes; on acceptance exactly one move is pushed, it is the parse of the returned text, `move[player]` records both, `fails` is unchanged, and the message names the player and the counter |
| ChatChessGame.GPTStep | ChatChess/ChatChess.py:151-172 | accepted exactly when some reading of the prepared reply parses; acceptance pushes one move and resets the counter; rejection adds exactly one to the counter and changes nothing else |
| ChatChessGame.InputStep | ChatChess/ChatChess.py:175-180 | accepted exactly when some reading of the typed text parses; acceptance pushes one move and resets the counter; rejection changes nothing |
| ChatChessGame.AttemptStepEffects | ChatChess/ChatChess.py:63-68 | a timeout adds one failure and changes nothing else; a service error changes nothing; an answer is `handleGPTMove`'s step; so an accepted attempt pushes one move and resets the counter, and a rejected one only adds one failure |
| ChatChessGame.RetryLoop | ChatChess/ChatChess.py:62-71 | at most 5 prompts; the board is unchanged unless exactly one move is pushed with the counter reset; a round with no move adds one failure per attempt and reports the limit; a service error escapes with the board unchanged |
| ChatChessGame.RetryLoopPrompts | ChatChess/ChatChess.py:62-64 | attempt `k` sends the prompt for the unchanged board with `k` more failures |
| ChatChessGame.GPTTurn | ChatChess/ChatChess.py:57-71 | nothing happens once the game is over; otherwise between 1 and 5 prompts are sent |
| ChatChessGame.PlayTurn | ChatChess/ChatChess.py:48-54 | nothing happens once the game is over; the player's move is rejected exactly when no reading parses, and then the state is unchanged and no prompt is sent; an accepted move is followed by the model's turn from the state `handleInputMove` left; at most 5 prompts are sent |
| ChatChessGame.PlayerMoveResetsPrompt | ChatChess/ChatChess.py:53-54 | an accepted player move resets the counter, so the model's turn that follows starts with the `normal` template |
| ChatChessGame.TimeoutsExhaust | ChatChess/ChatChess.py:43-70 | a service that always times out gets 5 prompts, adds 5 to the counter, leaves the board alone and reports the limit |
| ChatChessGame.PromptsAfterFailureListMoves | ChatChess/ChatChess.py:62-87 | every prompt after the first attempt of a round uses the `failed` template |
| ChatChessGame.Game.constructor | ChatChess/ChatChess.py:26-41 | a new game starts with an empty board, no failures, empty move records and an empty message |
| ChatChessGame.Game.TimeoutHandler | ChatChess/ChatChess.py:43-45 | the alarm handler adds exactly one to the counter and changes nothing else |
| ChatChessGame.Game.HandleResponse | ChatChess/ChatChess.py:108-148 | updates the fields as `RespondStep` describes |
| ChatChessGame.Game.HandleGPTMove | ChatChess/ChatChess.py:151-172 | updates the fields as `GPTStep` describes |
| ChatChessGame.Game.HandleInputMove | ChatChess/ChatChess.py:175-180 | updates the fields as `InputStep` describes |
| ChatChessGame.Game.Attempt | ChatChess/ChatChess.py:63-68 | one try of the loop: a timeout adds one failure and lets the loop go on, a service error escapes, and an answer is handled by `handleGPTMove` |
| ChatChessGame.Game.GetGPTMove | ChatChess/ChatChess.py:57-71 | the loop of at most 5 tries computes exactly `GPTTurn`: the final fields, the outcome and the prompts sent |
| ChatChessGame.Game.Play | ChatChess/ChatChess.py:48-54 | computes exactly `PlayTurn` |
| LegacyGame.PlayerMove | Game.py:46-66 | the three tries in order, the first that succeeds giving the move: SAN parsing of the text, then `push` of the text, then SAN parsing of the capitalised text; no move exactly when all three fail |
| LegacyGame.PlayerStep | Game.py:46-66 | accepted exactly when one of the three tries succeeds, and then exactly that move is pushed; a player move never touches the counter or the message |
| LegacyGame.RespondStep | Game.py:111-162 | rejected exactly when neither reading of the prepared reply parses and no substring of the raw reply parses; rejection adds exactly one to the counter and changes nothing else; acceptance pushes one move, the parse of the returned text, resets the counter, and the message records the counter from before the reset |
| LegacyGame.AttemptStep | Game.py:75-78 | an accepted attempt pushes one move and resets the counter; a rejected one adds one failure only; a service error changes nothing |
| LegacyGame.RetryLoop | Game.py:74-81 | at most 5 prompts; an accepted text is returned with exactly one move pushed and the counter reset; returning None means 5 rejected replies, one failure each, the board unchanged and the limit reported; a service error escapes with the board unchanged |
| LegacyGame.RetryLoopPrompts | Game.py:74-76 | attempt `k` sends the prompt for the unchanged board with `k` more failures |
| LegacyGame.GPTTurn | Game.py:69-81 | nothing happens once the game is over; otherwise between 1 and 5 prompts are sent |
| LegacyGame.PlayTurn | Game.py:37-43 | nothing happens once the game is over; a player move that none of the three tries accepts raises with the state unchanged and no prompt sent; an accepted one is followed by the model's turn from the state `pushPlayerMove` left; at most 5 prompts are sent |
| LegacyGame.PlayerMoveKeepsFailedPrompt | Game.py:42-43 | the player's accepted move does not reset the counter, so after a failed round the next round's first prompt uses the `failed` template |
| LegacyGame.UnreadableRepliesExhaust | Game.py:74-81 | a service whose every reply is unreadable gets 5 prompts, adds 5 failures, leaves the board alone, reports the limit and returns None |
| LegacyGame.Game.constructor | Game.py:18-30 | a new game starts with an empty board, no failures and an empty message |
| LegacyGame.Game.PushPlayerMove | Game.py:46-66 | updates the board as `PlayerStep` describes, and changes nothing else |
| LegacyGame.Game.HandleResponse | Game.py:111-162 | updates the fields as `RespondStep` describes |
| LegacyGame.Game.Attempt | Game.py:75-78 | one try of the loop, as `AttemptStep` describes |
| LegacyGame.Game.GetGPTMove | Game.py:69-81 | the loop of at most 5 tries computes exactly `GPTTurn`: the final fields, the returned text and the prompts sent |
| LegacyGame.Game.Play | Game.py:37-43 | computes exactly `PlayTurn` |

## Behaviour of the code worth knowing

Some of what the code does is easy to misread, and the model states it as written:

- **Scan order.** The scan is not longest-substring-first. The outer bound goes
  down from the text's length, but a candidate at a late start is clamped to the
  end of the text. So short suffixes are tried before longer interior substrings
  (`Extraction.ScanNotLongestFirst`).
- **Service errors.** A provider error is not counted as a failed attempt and is
  not retried. The current revision catches only timeouts and rejected replies.
  The older revision catches only rejected replies. Every other error leaves the
  loop (`ServiceFailed`).
- **Player moves and the counter.** In the older revision an accepted player
  move does not reset the counter (`LegacyGame.PlayerMoveKeepsFailedPrompt`).
  The current revision resets it on both sides
  (`ChatChessGame.PlayerMoveResetsPrompt`).
- **Return value.** The current revision's `getGPTMove` and `play` return `None`
  even when a move is accepted, because `handleGPTMove` has no return statement.
  Only the older revision returns the accepted text.
- **Limits.** The attempt limit (5) is written into the loop. `maxFails` is never
  read.

## Left out

- `askGPT` and the OpenAI client (`openai.api_key`, `ChatCompletion.create`, the
  model name, `maxTokens`) are network code. They are replaced by the `ask`
  parameter, whose reply is arbitrary.
- The `SIGALRM` mechanics are signal-driven concurrency and are left out. These
  include installing the handler, arming the alarm and disarming it. Only the
  effect of a timeout is kept: one more failure, and the attempt ends. An alarm
  firing at any point other than during the request is not modelled, and neither
  is an alarm left armed after a provider error.
- python-chess internals are an abstract oracle (`Chess.Rules`). This covers SAN
  parsing, legality, game over and FEN.
  - `push_san` is taken to push exactly the move `parse_san` returns. The current
    revision calls both; one `parse` function stands for the pair.
  - In `Game.py` `push` is handed a string. It is modelled as an opaque attempt
    (`pushObject`) that may or may not push a move.
- The library's string renderings cut with `[36:-1]` and `[93:-2]` are not
  interpreted. The legal-move list and the movetext are opaque strings from the
  oracle.
- Case mapping and digit tests are ASCII only. Python's `capitalize`, `lower`
  and `int` also act on other Unicode letters and digits.
- The status message is a `Status` value holding the stage, the quoted text, the
  player and the counter. It is not the formatted string.
- `printDebug` and the `printDebug` flag only print to the console.
- `maxFails` and `maxTime` are unused by the modelled logic.
- `setup.py` is packaging metadata with no logic.
- `Game.CreatePrompt`, in both classes, is the function `Prompts.Create` read
  from the fields. Its properties are stated about `Prompts.Create`.
