/**
 * The string handling the game applies to a move text before asking the rules
 * engine about it: first-letter case changes, erasing newlines, periods and
 * spaces, and dropping a leading move number.
 */
module Text {

  /** `int(c)` succeeds on a one-character string exactly for a decimal digit. */
  predicate IsDigit(c: char) { '0' <= c <= '9' }

  predicate IsUpper(c: char) { 'A' <= c <= 'Z' }

  predicate IsLower(c: char) { 'a' <= c <= 'z' }

  predicate AllDigits(s: string) { forall j | 0 <= j < |s| :: IsDigit(s[j]) }

  /** `c.capitalize()` for a single character. */
  function ToUpper(c: char): (u: char)
    ensures IsLower(c) ==> IsUpper(u) && u as int + 32 == c as int
    ensures !IsLower(c) ==> u == c
    ensures !IsLower(u)
  {
    if IsLower(c) then (c as int - 32) as char else c
  }

  /** `c.lower()` for a single character. */
  function ToLower(c: char): (l: char)
    ensures IsUpper(c) ==> IsLower(l) && l as int == c as int + 32
    ensures !IsUpper(c) ==> l == c
    ensures !IsUpper(l)
  {
    if IsUpper(c) then (c as int + 32) as char else c
  }

  /** `s[0].capitalize() + s[1:]`. */
  function CapitalizeFirst(s: string): (r: string)
    requires |s| > 0
    ensures |r| == |s| && r[1..] == s[1..] && !IsLower(r[0])
    ensures !IsLower(s[0]) ==> r == s
  {
    [ToUpper(s[0])] + s[1..]
  }

  /** `s[0].lower() + s[1:]`. */
  function LowerFirst(s: string): (r: string)
    requires |s| > 0
    ensures |r| == |s| && r[1..] == s[1..] && !IsUpper(r[0])
    ensures !IsUpper(s[0]) ==> r == s
  {
    [ToLower(s[0])] + s[1..]
  }

  /** Lowering the first letter undoes capitalising it, unless it was upper case to begin with. */
  lemma LowerFirstUndoesCapitalize(s: string)
    requires |s| > 0 && !IsUpper(s[0])
    ensures LowerFirst(CapitalizeFirst(s)) == s
  {
    assert LowerFirst(CapitalizeFirst(s))[0] == s[0];
    assert LowerFirst(CapitalizeFirst(s))[1..] == s[1..];
  }

  /** Capitalising the first letter undoes lowering it, unless it was lower case to begin with. */
  lemma CapitalizeUndoesLowerFirst(s: string)
    requires |s| > 0 && !IsLower(s[0])
    ensures CapitalizeFirst(LowerFirst(s)) == s
  {
    assert CapitalizeFirst(LowerFirst(s))[0] == s[0];
    assert CapitalizeFirst(LowerFirst(s))[1..] == s[1..];
  }

  /** `s.replace(c, "")`: every occurrence of `c` erased, the rest kept in order. */
  function RemoveAll(s: string, c: char): (r: string)
    ensures c !in r && |r| <= |s|
    ensures forall j | 0 <= j < |r| :: r[j] in s
  {
    if s == [] then []
    else
      assert s == [s[0]] + s[1..];
      if s[0] == c then RemoveAll(s[1..], c) else [s[0]] + RemoveAll(s[1..], c)
  }

  /** Erasing `c` keeps the number of occurrences of every other character. */
  lemma {:induction false} RemoveAllKeepsOthers(s: string, c: char, d: char)
    requires d != c
    ensures multiset(RemoveAll(s, c))[d] == multiset(s)[d]
  {
    if s != [] {
      assert s == [s[0]] + s[1..];
      RemoveAllKeepsOthers(s[1..], c, d);
    }
  }

  lemma {:induction false} RemoveAllAppend(a: string, b: string, c: char)
    ensures RemoveAll(a + b, c) == RemoveAll(a, c) + RemoveAll(b, c)
  {
    if a == [] {
      assert a + b == b;
    } else {
      assert (a + b)[0] == a[0] && (a + b)[1..] == a[1..] + b;
      RemoveAllAppend(a[1..], b, c);
    }
  }

  lemma {:induction false} RemoveAllAbsent(s: string, c: char)
    requires c !in s
    ensures RemoveAll(s, c) == s
  {
    if s != [] {
      RemoveAllAbsent(s[1..], c);
    }
  }

  /** The characters the game erases from a reply: newline, period and space. */
  predicate IsSeparator(c: char) { c == '\n' || c == '.' || c == ' ' }

  /**
   * `completion.replace("\n", "").replace(".", "").replace(" ", "")`: the reply
   * without separators.
   */
  function Clean(s: string): (r: string)
    ensures forall j | 0 <= j < |r| :: !IsSeparator(r[j])
  {
    RemoveAll(RemoveAll(RemoveAll(s, '\n'), '.'), ' ')
  }

  /** Cleaning keeps the number of occurrences of every character that is not a separator. */
  lemma CleanKeepsOthers(s: string, d: char)
    requires !IsSeparator(d)
    ensures multiset(Clean(s))[d] == multiset(s)[d]
  {
    RemoveAllKeepsOthers(s, '\n', d);
    RemoveAllKeepsOthers(RemoveAll(s, '\n'), '.', d);
    RemoveAllKeepsOthers(RemoveAll(RemoveAll(s, '\n'), '.'), ' ', d);
  }

  /** Cleaning works character by character, so it keeps the order of what it keeps. */
  lemma CleanAppend(a: string, b: string)
    ensures Clean(a + b) == Clean(a) + Clean(b)
  {
    RemoveAllAppend(a, b, '\n');
    RemoveAllAppend(RemoveAll(a, '\n'), RemoveAll(b, '\n'), '.');
    RemoveAllAppend(RemoveAll(RemoveAll(a, '\n'), '.'), RemoveAll(RemoveAll(b, '\n'), '.'), ' ');
  }

  /** Cleaning a cleaned text changes nothing. */
  lemma CleanIdempotent(s: string)
    ensures Clean(Clean(s)) == Clean(s)
  {
    var r := Clean(s);
    assert forall j | 0 <= j < |r| :: !IsSeparator(r[j]);
    assert '\n' !in r && '.' !in r && ' ' !in r;
    RemoveAllAbsent(r, '\n');
    RemoveAllAbsent(r, '.');
    RemoveAllAbsent(r, ' ');
  }

  /** The length of the longest all-digit prefix of `s`. */
  function DigitPrefixLength(s: string): (k: nat)
    ensures k <= |s| && AllDigits(s[..k])
    ensures k < |s| ==> !IsDigit(s[k])
  {
    if s == [] || !IsDigit(s[0]) then 0
    else
      var k := 1 + DigitPrefixLength(s[1..]);
      assert forall j | 1 <= j < k :: s[..k][j] == s[1..][..k - 1][j - 1];
      k
  }

  /** The digit prefix is the one ending at the first non-digit, or at the end of the text. */
  lemma {:induction false} DigitPrefixEndsAtNonDigit(s: string, i: nat)
    requires i <= |s| && AllDigits(s[..i]) && (i < |s| ==> !IsDigit(s[i]))
    ensures DigitPrefixLength(s) == i
  {
    if i > 0 {
      assert s[..i][0] == s[0];
      assert s[1..][..i - 1] == s[..i][1..];
      DigitPrefixEndsAtNonDigit(s[1..], i - 1);
    }
  }

  /**
   * The text without a leading move number: everything from the first
   * non-digit on, or the text unchanged when it holds no non-digit at all.
   */
  function MoveNumberStripped(s: string): (r: string)
    ensures |r| <= |s| && r == s[|s| - |r|..]
    ensures AllDigits(s) ==> r == s
    ensures !AllDigits(s) ==> |r| > 0 && !IsDigit(r[0]) && AllDigits(s[..|s| - |r|])
  {
    var k := DigitPrefixLength(s);
    if k < |s| then
      assert s[k..][0] == s[k] && s[..|s| - |s[k..]|] == s[..k];
      s[k..]
    else
      assert s[..k] == s;
      s
  }

  /**
   * The loop that erases the digits at the beginning of a reply: the first
   * index holding a non-digit cuts the text there and ends the loop; a text
   * of digits only runs the loop to its end untouched.
   */
  method StripMoveNumber(s: string) returns (r: string)
    ensures r == MoveNumberStripped(s)
  {
    r := s;
    var i := 0;
    while i < |s|
      invariant 0 <= i <= |s|
      invariant r == s
      invariant AllDigits(s[..i])
    {
      if !IsDigit(s[i]) {
        DigitPrefixEndsAtNonDigit(s, i);
        r := s[i..];
        return;
      }
      assert s[..i + 1] == s[..i] + [s[i]];
      i := i + 1;
    }
    assert s[..i] == s;
    DigitPrefixEndsAtNonDigit(s, i);
  }

  /** A reply from the model as handed to move extraction: cleaned, then its move number dropped. */
  function Prepare(completion: string): string
  {
    MoveNumberStripped(Clean(completion))
  }

  /** The prepared reply holds no separator, and if it starts with a digit it is digits only. */
  lemma PrepareShape(completion: string)
    ensures forall j | 0 <= j < |Prepare(completion)| :: !IsSeparator(Prepare(completion)[j])
    ensures |Prepare(completion)| > 0 && IsDigit(Prepare(completion)[0]) ==> AllDigits(Prepare(completion))
  {
    var c := Clean(completion);
    var r := Prepare(completion);
    assert forall j | 0 <= j < |r| :: r[j] == c[|c| - |r| + j];
  }
}
