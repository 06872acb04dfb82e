/**
 * Move extraction: how a free-text move becomes one move of the rules engine.
 *
 * Three readings are tried in a fixed order and the first the engine parses
 * wins: the text with its first letter capitalised (only when it is longer
 * than two characters), the same text with its first letter lowered, and a
 * scan over the substrings of a scan text. Both revisions of the game use this
 * order; they differ only in which text is scanned, so the scan text is a
 * parameter of its own.
 */
module Extraction {
  import opened Chess
  import opened Text

  /** Which reading produced the move; the game's status message names it. */
  datatype Stage = Direct | Lowered | Scanned

  /** A scan candidate that parsed: the bounds it was cut with, its text and its move. */
  datatype Hit = Hit(chars: nat, start: nat, san: string, m: Move)

  /** The accepted text and the move the engine parsed it to. */
  datatype Accepted = Accepted(stage: Stage, san: string, m: Move)

  function Min(a: int, b: int): int { if a < b then a else b }

  /** The first reading: capitalised when longer than two characters, as is otherwise. */
  function Stage1Text(text: string): (r: string)
    ensures |r| == |text|
    ensures |text| <= 2 ==> r == text
    ensures |text| > 2 ==> r[1..] == text[1..] && !IsLower(r[0]) && (!IsLower(text[0]) ==> r == text)
  {
    if |text| > 2 then CapitalizeFirst(text) else text
  }

  /** `text[start:start + chars]` with Python's clamping of the upper bound. */
  function Slice(text: string, start: nat, chars: nat): (r: string)
    requires start < |text|
    ensures 0 < chars ==> 0 < |r|
    ensures |r| <= chars
  {
    text[start .. Min(start + chars, |text|)]
  }

  /**
   * The scan from outer bound `chars` and start `start` on: for each bound from
   * `chars` down to 1, every start from 0 to the last index, the first candidate
   * the engine parses.
   */
  function ScanFrom(rules: Rules, board: History, text: string, chars: nat, start: nat): (r: Option<Hit>)
    requires chars <= |text| && start <= |text|
    ensures r.Some? ==>
      && 1 <= r.value.chars <= chars
      && r.value.start < |text|
      && (r.value.chars < chars || start <= r.value.start)
      && r.value.san == Slice(text, r.value.start, r.value.chars)
      && rules.parse(board, r.value.san) == Some(r.value.m)
    decreases chars, |text| - start
  {
    if chars == 0 then None
    else if start == |text| then ScanFrom(rules, board, text, chars - 1, 0)
    else
      var candidate := Slice(text, start, chars);
      match rules.parse(board, candidate)
      case Some(m) => Some(Hit(chars, start, candidate, m))
      case None => ScanFrom(rules, board, text, chars, start + 1)
  }

  /** The whole scan: outer bound from the length of the text down, start from 0 up. */
  function Scan(rules: Rules, board: History, text: string): (r: Option<Hit>)
    ensures r.Some? ==>
      && 1 <= r.value.chars && r.value.start < |text|
      && r.value.san == text[r.value.start .. Min(r.value.start + r.value.chars, |text|)]
      && 0 < |r.value.san|
      && rules.parse(board, r.value.san) == Some(r.value.m)
  {
    ScanFrom(rules, board, text, |text|, 0)
  }

  /** Candidate (`c`, `a`) is tried strictly before candidate (`chars`, `start`). */
  predicate Before(c: nat, a: nat, chars: nat, start: nat)
  {
    c > chars || (c == chars && a < start)
  }

  /** The nested loops of the scan, returning the first candidate the engine parses. */
  method ScanForMove(rules: Rules, board: History, text: string) returns (hit: Option<Hit>)
    ensures hit == Scan(rules, board, text)
  {
    var n := |text|;
    var chars := n;
    while chars > 0
      invariant 0 <= chars <= n
      invariant ScanFrom(rules, board, text, chars, 0) == Scan(rules, board, text)
    {
      var start := 0;
      while start < n
        invariant 0 <= start <= n
        invariant ScanFrom(rules, board, text, chars, start) == Scan(rules, board, text)
      {
        var candidate := text[start .. Min(start + chars, n)];
        var parsed := rules.parse(board, candidate);
        if parsed.Some? {
          return Some(Hit(chars, start, candidate, parsed.value));
        }
        start := start + 1;
      }
      chars := chars - 1;
    }
    return None;
  }

  /** Every candidate from (`chars`, `start`) on up to the hit failed to parse. */
  lemma {:induction false} ScanFromSkipsOnlyFailures(rules: Rules, board: History, text: string, chars: nat, start: nat)
    requires chars <= |text| && start <= |text|
    requires ScanFrom(rules, board, text, chars, start).Some?
    ensures var h := ScanFrom(rules, board, text, chars, start).value;
      forall c: nat, a: nat |
        1 <= c <= chars && a < |text| && (c < chars || start <= a) && Before(c, a, h.chars, h.start)
        :: rules.parse(board, Slice(text, a, c)).None?
    decreases chars, |text| - start
  {
    if start == |text| {
      ScanFromSkipsOnlyFailures(rules, board, text, chars - 1, 0);
    } else if rules.parse(board, Slice(text, start, chars)).None? {
      ScanFromSkipsOnlyFailures(rules, board, text, chars, start + 1);
    }
  }

  /** A candidate at or after (`chars`, `start`) that parses makes the scan succeed. */
  lemma {:induction false} ScanFromFinds(rules: Rules, board: History, text: string, chars: nat, start: nat, c: nat, a: nat)
    requires chars <= |text| && start <= |text|
    requires 1 <= c <= chars && a < |text| && (c < chars || start <= a)
    requires rules.parse(board, Slice(text, a, c)).Some?
    ensures ScanFrom(rules, board, text, chars, start).Some?
    decreases chars, |text| - start
  {
    if start == |text| {
      ScanFromFinds(rules, board, text, chars - 1, 0, c, a);
    } else if rules.parse(board, Slice(text, start, chars)).None? {
      ScanFromFinds(rules, board, text, chars, start + 1, c, a);
    }
  }

  /** Completeness: if any non-empty substring of the text parses, the scan finds a move. */
  lemma ScanFindsEmbedded(rules: Rules, board: History, text: string, a: nat, b: nat)
    requires a < b <= |text|
    requires rules.parse(board, text[a..b]).Some?
    ensures Scan(rules, board, text).Some?
  {
    assert Slice(text, a, b - a) == text[a..b];
    ScanFromFinds(rules, board, text, |text|, 0, b - a, a);
  }

  /**
   * Precedence: the scan's hit was cut with outer bound `chars` at `start`;
   * every parseable substring is at most `chars` long, and one exactly `chars`
   * long does not start before the hit.
   */
  lemma ScanPrecedence(rules: Rules, board: History, text: string, a: nat, b: nat)
    requires Scan(rules, board, text).Some?
    requires a < b <= |text|
    requires rules.parse(board, text[a..b]).Some?
    ensures var h := Scan(rules, board, text).value;
      b - a < h.chars || (b - a == h.chars && h.start <= a)
  {
    var h := Scan(rules, board, text).value;
    assert Slice(text, a, b - a) == text[a..b];
    ScanFromSkipsOnlyFailures(rules, board, text, |text|, 0);
  }

  /**
   * The scan is not longest-first: cut with a larger outer bound, the short
   * suffix "e4" of "Nf3ore4" is tried before the interior "Nf3", so with both
   * legal the scan accepts "e4".
   */
  lemma ScanNotLongestFirst(board: History)
    ensures var rules := Rules(
        (h: History, s: string) => if s == "Nf3" then Some(Move("g1f3")) else if s == "e4" then Some(Move("e2e4")) else None,
        (h: History, s: string) => None,
        (h: History) => false, (h: History) => true,
        (h: History) => "", (h: History) => "", (h: History) => "");
      && rules.parse(board, "Nf3ore4"[0..3]).Some?
      && Scan(rules, board, "Nf3ore4") == Some(Hit(7, 5, "e4", Move("e2e4")))
  {
    var rules := Rules(
        (h: History, s: string) => if s == "Nf3" then Some(Move("g1f3")) else if s == "e4" then Some(Move("e2e4")) else None,
        (h: History, s: string) => None,
        (h: History) => false, (h: History) => true,
        (h: History) => "", (h: History) => "", (h: History) => "");
    var t := "Nf3ore4";
    assert t[0..3] == "Nf3";
    assert Slice(t, 5, 7) == "e4";
    assert |Slice(t, 0, 7)| == 7 && |Slice(t, 1, 7)| == 6 && |Slice(t, 2, 7)| == 5;
    assert |Slice(t, 3, 7)| == 4 && |Slice(t, 4, 7)| == 3 && Slice(t, 4, 7)[0] == 'r';
    assert ScanFrom(rules, board, t, 7, 4) == ScanFrom(rules, board, t, 7, 5);
    assert ScanFrom(rules, board, t, 7, 2) == ScanFrom(rules, board, t, 7, 4);
    assert ScanFrom(rules, board, t, 7, 0) == ScanFrom(rules, board, t, 7, 2);
  }

  /** No reading of the text parses: both first-stage readings fail and no substring of the scan text parses. */
  predicate Unreadable(rules: Rules, board: History, text: string, scanText: string)
  {
    && rules.parse(board, Stage1Text(text)).None?
    && (|text| > 0 ==> rules.parse(board, LowerFirst(Stage1Text(text))).None?)
    && forall a: nat, b: nat | a < b <= |scanText| :: rules.parse(board, scanText[a..b]).None?
  }

  /**
   * The three readings in order: the first that the engine parses gives the
   * move. There is a move exactly when some reading parses, and it is always
   * the engine's parse of the accepted text.
   */
  function Extract(rules: Rules, board: History, text: string, scanText: string): (r: Option<Accepted>)
    ensures r.None? <==> Unreadable(rules, board, text, scanText)
    ensures r.Some? ==> rules.parse(board, r.value.san) == Some(r.value.m)
    ensures r.Some? && r.value.stage == Direct ==> r.value.san == Stage1Text(text)
    ensures r.Some? && r.value.stage == Lowered ==>
      |text| > 0 && r.value.san == LowerFirst(Stage1Text(text)) && rules.parse(board, Stage1Text(text)).None?
    ensures r.Some? && r.value.stage == Scanned ==>
      exists a: nat, b: nat | a < b <= |scanText| :: r.value.san == scanText[a..b]
  {
    var first := Stage1Text(text);
    if rules.parse(board, first).Some? then
      Some(Accepted(Direct, first, rules.parse(board, first).value))
    else if |first| > 0 && rules.parse(board, LowerFirst(first)).Some? then
      Some(Accepted(Lowered, LowerFirst(first), rules.parse(board, LowerFirst(first)).value))
    else
      match Scan(rules, board, scanText)
      case Some(h) =>
        assert h.san == scanText[h.start .. Min(h.start + h.chars, |scanText|)];
        Some(Accepted(Scanned, h.san, h.m))
      case None =>
        assert forall a: nat, b: nat | a < b <= |scanText| :: rules.parse(board, scanText[a..b]).None? by {
          forall a: nat, b: nat | a < b <= |scanText| ensures rules.parse(board, scanText[a..b]).None? {
            if rules.parse(board, scanText[a..b]).Some? {
              ScanFindsEmbedded(rules, board, scanText, a, b);
            }
          }
        }
        None
  }

  /**
   * The readings are tried in order and the first success wins: the lowered
   * reading only after the capitalised one fails, the scan only after both fail,
   * and then the accepted text is the scan's first hit.
   */
  lemma ExtractStageOrder(rules: Rules, board: History, text: string, scanText: string)
    ensures var r := Extract(rules, board, text, scanText);
      && (rules.parse(board, Stage1Text(text)).Some? ==> r.Some? && r.value.stage == Direct)
      && (r.Some? && r.value.stage == Lowered ==> rules.parse(board, Stage1Text(text)).None?)
      && (r.Some? && r.value.stage == Scanned ==>
            && rules.parse(board, Stage1Text(text)).None?
            && (|text| > 0 ==> rules.parse(board, LowerFirst(Stage1Text(text))).None?)
            && Scan(rules, board, scanText).Some?
            && r.value.san == Scan(rules, board, scanText).value.san
            && r.value.m == Scan(rules, board, scanText).value.m)
  {
  }

  /**
   * The three `try` blocks of `handleResponse`: capitalise a text longer than
   * two characters and parse it, else parse it with its first letter lowered
   * (an empty text skips this), else scan; the first parse wins.
   */
  method ReadMove(rules: Rules, board: History, text: string, scanText: string) returns (found: Option<Accepted>)
    ensures found == Extract(rules, board, text, scanText)
  {
    var first := text;
    if |first| > 2 {
      first := CapitalizeFirst(first);
    }
    var parsed := rules.parse(board, first);
    if parsed.Some? {
      return Some(Accepted(Direct, first, parsed.value));
    }
    if |first| > 0 {
      var lowered := LowerFirst(first);
      parsed := rules.parse(board, lowered);
      if parsed.Some? {
        return Some(Accepted(Lowered, lowered, parsed.value));
      }
    }
    var hit := ScanForMove(rules, board, scanText);
    if hit.Some? {
      return Some(Accepted(Scanned, hit.value.san, hit.value.m));
    }
    return None;
  }

  /** A legal move token embedded anywhere in the scan text, amid any noise, yields a move. */
  lemma EmbeddedMoveFound(rules: Rules, board: History, text: string, prefix: string, token: string, suffix: string)
    requires |token| > 0 && rules.parse(board, token).Some?
    ensures Extract(rules, board, text, prefix + token + suffix).Some?
  {
    var s := prefix + token + suffix;
    assert s[|prefix| .. |prefix| + |token|] == token;
  }

  /**
   * A move whose first letter has the wrong case is still read. For a piece
   * move (upper-case first letter, longer than two characters) the move itself
   * is accepted. For a pawn move (lower-case first letter) the move itself is
   * accepted unless the capitalised reading is a legal move of its own, which
   * the first reading tries before it.
   */
  lemma CaseCorruptionRecovered(rules: Rules, board: History, token: string, typed: string)
    requires |token| > 0 && ((IsUpper(token[0]) && |token| > 2) || IsLower(token[0]))
    requires rules.parse(board, token).Some?
    requires |typed| == |token| && typed[1..] == token[1..]
    requires typed[0] == ToUpper(token[0]) || typed[0] == ToLower(token[0])
    ensures Extract(rules, board, typed, typed).Some?
    ensures IsUpper(token[0]) ==>
      Extract(rules, board, typed, typed) == Some(Accepted(Direct, token, rules.parse(board, token).value))
    ensures IsLower(token[0]) ==>
      || Extract(rules, board, typed, typed).value.m == rules.parse(board, token).value
      || (Extract(rules, board, typed, typed).value.stage == Direct && Extract(rules, board, typed, typed).value.san == Stage1Text(typed))
  {
    var first := Stage1Text(typed);
    if IsUpper(token[0]) {
      assert first[0] == token[0] && first[1..] == token[1..];
      assert first == token;
    }
    if IsLower(token[0]) && rules.parse(board, first).None? {
      assert LowerFirst(first)[0] == token[0] && LowerFirst(first)[1..] == token[1..];
      assert LowerFirst(first) == token;
    }
  }
}
