/**
 * Normalisation and checking of typed commands (`InputValidator` and the front of
 * `Interface.handle_user_input` in INTERFACCLAUDEGAMELOOP.py).
 */
module InputValidator {
  import opened Wrappers

  /** The characters Python's `str.split()` and `str.strip()` treat as whitespace. */
  predicate IsSpace(c: char) {
    || c == ' '
    || ('\U{9}' <= c <= '\U{D}')
    || ('\U{1C}' <= c <= '\U{1F}')
    || c == '\U{85}' || c == '\U{A0}' || c == '\U{1680}'
    || ('\U{2000}' <= c <= '\U{200A}')
    || c == '\U{2028}' || c == '\U{2029}' || c == '\U{202F}' || c == '\U{205F}' || c == '\U{3000}'
  }

  predicate SpaceFree(w: string) {
    forall i | 0 <= i < |w| :: !IsSpace(w[i])
  }

  /** A word as `split()` produces it: non-empty and without whitespace. */
  predicate IsWord(w: string) {
    |w| > 0 && SpaceFree(w)
  }

  predicate AllWords(ws: seq<string>) {
    forall i | 0 <= i < |ws| :: IsWord(ws[i])
  }

  /** No leading or trailing whitespace, and every whitespace character is a single space between two words. */
  predicate Sanitized(r: string) {
    && (|r| > 0 ==> !IsSpace(r[0]) && !IsSpace(r[|r| - 1]))
    && forall i | 0 <= i < |r| && IsSpace(r[i]) :: r[i] == ' ' && i + 1 < |r| && !IsSpace(r[i + 1])
  }

  /** `str.strip()`: drop leading and trailing whitespace. */
  function Strip(s: string): (r: string)
    ensures |r| <= |s|
    ensures |r| > 0 ==> !IsSpace(r[0]) && !IsSpace(r[|r| - 1])
    ensures |s| > 0 && !IsSpace(s[0]) && !IsSpace(s[|s| - 1]) ==> r == s
  {
    StripTrailing(StripLeading(s))
  }

  function StripLeading(s: string): (r: string)
    ensures |r| <= |s| && r == s[|s| - |r|..]
    ensures |r| > 0 ==> !IsSpace(r[0])
    ensures |s| > 0 && !IsSpace(s[0]) ==> r == s
    decreases |s|
  {
    if |s| > 0 && IsSpace(s[0]) then StripLeading(s[1..]) else s
  }

  function StripTrailing(s: string): (r: string)
    ensures |r| <= |s| && r == s[..|r|]
    ensures |r| > 0 ==> !IsSpace(r[|r| - 1])
    ensures |s| > 0 && !IsSpace(s[|s| - 1]) ==> r == s
    ensures |s| > 0 && !IsSpace(s[0]) && |r| > 0 ==> r[0] == s[0]
    decreases |s|
  {
    if |s| > 0 && IsSpace(s[|s| - 1]) then StripTrailing(s[..|s| - 1]) else s
  }

  /** The longest whitespace-free prefix of `s`. */
  function TakeWord(s: string): (w: string)
    ensures |w| <= |s| && w == s[..|w|]
    ensures SpaceFree(w)
    ensures |w| < |s| ==> IsSpace(s[|w|])
    decreases |s|
  {
    if |s| == 0 || IsSpace(s[0]) then "" else [s[0]] + TakeWord(s[1..])
  }

  /** `str.split()` with no separator: the maximal runs of non-whitespace, in order. */
  function SplitWords(s: string): (ws: seq<string>)
    ensures AllWords(ws)
    decreases |s|
  {
    if |s| == 0 then []
    else if IsSpace(s[0]) then SplitWords(s[1..])
    else
      var w := TakeWord(s);
      [w] + SplitWords(s[|w|..])
  }

  /** `' '.join(ws)`. */
  function JoinWords(ws: seq<string>): string
    decreases |ws|
  {
    if |ws| == 0 then "" else if |ws| == 1 then ws[0] else ws[0] + " " + JoinWords(ws[1..])
  }

  /** `sanitize_input`: `' '.join(s.strip().split())`. */
  function Sanitize(s: string): (r: string)
    ensures Sanitized(r)
    ensures SplitWords(r) == SplitWords(Strip(s))
  {
    var ws := SplitWords(Strip(s));
    JoinSanitized(ws);
    SplitJoin(ws);
    JoinWords(ws)
  }

  lemma {:induction false} TakeWordOfJoin(w: string, t: string)
    requires SpaceFree(w)
    requires |t| == 0 || IsSpace(t[0])
    ensures TakeWord(w + t) == w
    decreases |w|
  {
    if |w| > 0 {
      var s := w + t;
      assert s[0] == w[0] && !IsSpace(s[0]);
      assert s[1..] == w[1..] + t;
      TakeWordOfJoin(w[1..], t);
      assert TakeWord(s) == [s[0]] + TakeWord(s[1..]);
      assert w == [w[0]] + w[1..];
    } else {
      assert w + t == t;
    }
  }

  /** Splitting a join of words gives back the words. */
  lemma {:induction false} SplitJoin(ws: seq<string>)
    requires AllWords(ws)
    ensures SplitWords(JoinWords(ws)) == ws
    decreases |ws|
  {
    if |ws| == 1 {
      TakeWordOfJoin(ws[0], "");
      assert ws[0] + "" == ws[0];
      var s := ws[0];
      assert s[|TakeWord(s)|..] == "";
    } else if |ws| > 1 {
      var rest := JoinWords(ws[1..]);
      var s := ws[0] + " " + rest;
      assert s == ws[0] + (" " + rest);
      TakeWordOfJoin(ws[0], " " + rest);
      assert s[|ws[0]|..] == " " + rest;
      assert (" " + rest)[1..] == rest;
      SplitJoin(ws[1..]);
      assert SplitWords(" " + rest) == SplitWords(rest);
      assert ws == [ws[0]] + ws[1..];
    }
  }

  /** A join of words is sanitized. */
  lemma {:induction false} JoinSanitized(ws: seq<string>)
    requires AllWords(ws)
    ensures Sanitized(JoinWords(ws))
    ensures |ws| > 0 ==> |JoinWords(ws)| > 0
    decreases |ws|
  {
    if |ws| > 1 {
      var w := ws[0];
      var rest := JoinWords(ws[1..]);
      JoinSanitized(ws[1..]);
      var r := w + " " + rest;
      assert |rest| > 0;
      forall i | 0 <= i < |r| && IsSpace(r[i])
        ensures r[i] == ' ' && i + 1 < |r| && !IsSpace(r[i + 1])
      {
        if i < |w| {
          assert false;
        } else if i == |w| {
          assert r[i + 1] == rest[0];
        } else {
          assert r[i] == rest[i - |w| - 1];
          if i + 1 < |r| { assert r[i + 1] == rest[i - |w|]; }
        }
      }
      assert r[|r| - 1] == rest[|rest| - 1];
    }
  }

  /** Sanitizing twice is sanitizing once. */
  lemma SanitizeIdempotent(s: string)
    ensures Sanitize(Sanitize(s)) == Sanitize(s)
  {
  }

  /** The commands `validate_command` accepts. */
  const ValidCommands: set<string> :=
    {"profile", "explore", "travel", "save", "load", "exit", "interact", "inventory", "quest", "help"}

  function LowerChar(c: char): char {
    if 'A' <= c <= 'Z' then (c as int + 32) as char else c
  }

  /**
   * `str.lower()` on ASCII letters. Every other character is kept; no non-ASCII
   * character lowers to a word made only of the letters of the accepted commands.
   */
  function Lower(s: string): (r: string)
    ensures |r| == |s|
    ensures forall i | 0 <= i < |s| :: r[i] == LowerChar(s[i])
  {
    seq(|s|, i requires 0 <= i < |s| => LowerChar(s[i]))
  }

  lemma LowerKeepsSpaces(s: string)
    ensures forall i | 0 <= i < |s| :: IsSpace(Lower(s)[i]) <==> IsSpace(s[i])
  {
  }

  lemma {:induction false} TakeWordLower(s: string)
    ensures TakeWord(Lower(s)) == Lower(TakeWord(s))
    decreases |s|
  {
  }

  /** Lowering before splitting gives the lowered first word. */
  lemma {:induction false} FirstWordLower(s: string)
    requires |SplitWords(s)| > 0
    ensures |SplitWords(Lower(s))| > 0
    ensures SplitWords(Lower(s))[0] == Lower(SplitWords(s)[0])
    decreases |s|
  {
    LowerKeepsSpaces(s);
    if IsSpace(s[0]) {
      assert Lower(s)[1..] == Lower(s[1..]);
      FirstWordLower(s[1..]);
    } else {
      TakeWordLower(s);
    }
  }

  /** `validate_command`: the lowered first word is a known command; no word at all raises IndexError. */
  function ValidateCommand(command: string): (r: Result<bool>)
    ensures r.Failure? <==> |SplitWords(command)| == 0
    ensures r.Failure? ==> r.error == IndexError
    ensures r.Success? ==> (r.value <==> Lower(SplitWords(command)[0]) in ValidCommands)
  {
    var words := SplitWords(Lower(command));
    SplitLower(command);
    if |words| == 0 then Failure(IndexError) else Success(words[0] in ValidCommands)
  }

  /** Lowering keeps the number of words at zero or not, and lowers the first word. */
  lemma SplitLower(s: string)
    ensures |SplitWords(Lower(s))| == 0 <==> |SplitWords(s)| == 0
    ensures |SplitWords(s)| > 0 ==> SplitWords(Lower(s))[0] == Lower(SplitWords(s)[0])
  {
    if |SplitWords(s)| > 0 { FirstWordLower(s); } else { NoWordsLower(s); }
  }

  lemma {:induction false} NoWordsLower(s: string)
    requires |SplitWords(s)| == 0
    ensures |SplitWords(Lower(s))| == 0
    decreases |s|
  {
    LowerKeepsSpaces(s);
    if |s| > 0 {
      if IsSpace(s[0]) {
        assert Lower(s)[1..] == Lower(s[1..]);
        NoWordsLower(s[1..]);
      } else {
        assert false;
      }
    }
  }

  predicate IsDigit(c: char) {
    '0' <= c <= '9'
  }

  predicate AllDigits(s: string) {
    forall i | 0 <= i < |s| :: IsDigit(s[i])
  }

  /** The value of a run of decimal digits. */
  function DigitsValue(s: string): nat
    requires AllDigits(s)
    decreases |s|
  {
    if |s| == 0 then 0 else DigitsValue(s[..|s| - 1]) * 10 + (s[|s| - 1] as int - '0' as int)
  }

  /** `int(s)` on a plain decimal literal: an optional sign followed by one or more digits. */
  function ParseInt(s: string): Option<int> {
    if |s| > 0 && (s[0] == '-' || s[0] == '+') then
      var digits := s[1..];
      if |digits| > 0 && AllDigits(digits) then
        Some(if s[0] == '-' then -(DigitsValue(digits) as int) else DigitsValue(digits))
      else None
    else if |s| > 0 && AllDigits(s) then Some(DigitsValue(s))
    else None
  }

  /** The decimal spelling of a natural number. */
  function ShowNat(n: nat): (r: string)
    ensures |r| > 0 && AllDigits(r)
    decreases n
  {
    var d := [('0' as int + n % 10) as char];
    if n < 10 then d else ShowNat(n / 10) + d
  }

  /** `str(n)`. */
  function ShowInt(n: int): string {
    if n < 0 then "-" + ShowNat(-n) else ShowNat(n)
  }

  lemma {:induction false} ShowNatValue(n: nat)
    ensures DigitsValue(ShowNat(n)) == n
    decreases n
  {
    var r := ShowNat(n);
    if n >= 10 {
      ShowNatValue(n / 10);
      assert r[..|r| - 1] == ShowNat(n / 10);
    }
  }

  /** Parsing the spelling of any integer gives the integer back. */
  lemma ParseShowInt(n: int)
    ensures ParseInt(ShowInt(n)) == Some(n)
  {
    if n < 0 {
      ShowNatValue(-n);
      assert ("-" + ShowNat(-n))[1..] == ShowNat(-n);
    } else {
      ShowNatValue(n);
    }
  }

  /** `validate_number`: (in range, value) for a parsable string, (false, 0) otherwise. */
  function ValidateNumber(value: string, lo: int, hi: int): (r: (bool, int))
    ensures ParseInt(value).None? ==> r == (false, 0)
    ensures ParseInt(value).Some? ==> r.1 == ParseInt(value).value
    ensures r.0 <==> ParseInt(value).Some? && lo <= r.1 <= hi
  {
    match ParseInt(value)
    case Some(n) => (lo <= n <= hi, n)
    case None => (false, 0)
  }

  /** A number written out in decimal is accepted exactly when it lies in the range. */
  lemma ValidateShownNumber(n: int, lo: int, hi: int)
    ensures ValidateNumber(ShowInt(n), lo, hi) == (lo <= n <= hi, n)
  {
    ParseShowInt(n);
  }

  /** What `handle_user_input` decides about a raw line before running a command. */
  datatype Request =
    | EmptyInput
    | UnknownCommand(text: string)
    | Command(name: string, args: seq<string>)

  /**
   * `handle_user_input` up to the dispatch: sanitize, reject empty input, reject
   * an unknown first word, otherwise split into the lowered command and its arguments.
   */
  function HandleUserInput(raw: string): (r: Request)
    ensures r.EmptyInput? <==> |SplitWords(raw)| == 0
    ensures r.UnknownCommand? ==> r.text == Sanitize(raw)
    ensures r.UnknownCommand? <==>
      |SplitWords(Sanitize(raw))| > 0 && Lower(SplitWords(Sanitize(raw))[0]) !in ValidCommands
    ensures r.Command? <==>
      |SplitWords(Sanitize(raw))| > 0 && Lower(SplitWords(Sanitize(raw))[0]) in ValidCommands
    ensures r.Command? ==> r.name in ValidCommands && AllWords(r.args)
    ensures r.Command? ==> |SplitWords(Sanitize(raw))| > 0
    ensures r.Command? ==> (
      && SplitWords(Sanitize(raw)) == [SplitWords(Sanitize(raw))[0]] + r.args
      && r.name == Lower(SplitWords(Sanitize(raw))[0]))
  {
    SplitStrip(raw);
    var sanitized := Sanitize(raw);
    if |sanitized| == 0 then EmptyInput
    else match ValidateCommand(sanitized)
      case Failure(_) => UnknownCommand(sanitized)
      case Success(ok) =>
        if !ok then UnknownCommand(sanitized)
        else
          var parts := SplitWords(sanitized);
          Command(Lower(parts[0]), parts[1..])
  }

  /** Stripping does not change the words of a string. */
  lemma SplitStrip(s: string)
    ensures |SplitWords(Strip(s))| == 0 <==> |SplitWords(s)| == 0
    ensures |Sanitize(s)| == 0 <==> |SplitWords(s)| == 0
  {
    SplitStripLeading(s);
    var l := StripLeading(s);
    SplitStripTrailing(l);
    var ws := SplitWords(Strip(s));
    JoinSanitized(ws);
    if |ws| == 0 { assert JoinWords(ws) == ""; }
  }

  lemma {:induction false} SplitStripLeading(s: string)
    ensures SplitWords(StripLeading(s)) == SplitWords(s)
    decreases |s|
  {
    if |s| > 0 && IsSpace(s[0]) {
      SplitStripLeading(s[1..]);
    }
  }

  /** A string has a word exactly when it has a non-whitespace character. */
  lemma {:induction false} WordsIffNonSpace(s: string)
    ensures |SplitWords(s)| == 0 <==> SpaceFreeNone(s)
    decreases |s|
  {
    if |s| > 0 {
      WordsIffNonSpace(s[1..]);
      if IsSpace(s[0]) {
        assert SpaceFreeNone(s) <==> SpaceFreeNone(s[1..]) by {
          assert forall i | 1 <= i < |s| :: s[i] == s[1..][i - 1];
          assert forall i | 0 <= i < |s| - 1 :: s[1..][i] == s[i + 1];
        }
      }
    }
  }

  /** Every character of `s` is whitespace. */
  predicate SpaceFreeNone(s: string) {
    forall i | 0 <= i < |s| :: IsSpace(s[i])
  }

  lemma SplitStripTrailing(s: string)
    ensures |SplitWords(StripTrailing(s))| == 0 <==> |SplitWords(s)| == 0
  {
    var t := StripTrailing(s);
    WordsIffNonSpace(s);
    WordsIffNonSpace(t);
    TrailingAllSpace(s);
  }

  /** What `StripTrailing` removes is whitespace. */
  lemma {:induction false} TrailingAllSpace(s: string)
    ensures forall i | |StripTrailing(s)| <= i < |s| :: IsSpace(s[i])
    decreases |s|
  {
    if |s| > 0 && IsSpace(s[|s| - 1]) {
      TrailingAllSpace(s[..|s| - 1]);
    }
  }
}
