/**
 * The line parser of `Core.GameHandler` (Core.py): player input is split into
 * lines, and each line becomes one action whose type depends on how the line is
 * wrapped.
 */
module GameHandler {

  /** `s.split("\n")`: the pieces between newlines, always at least one. */
  function SplitLines(s: string): (lines: seq<string>)
    ensures |lines| >= 1
    ensures forall i | 0 <= i < |lines| :: '\n' !in lines[i]
    decreases |s|
  {
    if |s| == 0 then [""]
    else
      var rest := SplitLines(s[1..]);
      if s[0] == '\n' then [""] + rest
      else [[s[0]] + rest[0]] + rest[1..]
  }

  /** `"\n".join(lines)`. */
  function JoinLines(lines: seq<string>): string
    requires |lines| >= 1
    decreases |lines|
  {
    if |lines| == 1 then lines[0] else lines[0] + "\n" + JoinLines(lines[1..])
  }

  /** Splitting loses nothing: joining the lines gives back the input. */
  lemma {:induction false} JoinSplit(s: string)
    ensures JoinLines(SplitLines(s)) == s
    decreases |s|
  {
    if |s| > 0 {
      var rest := SplitLines(s[1..]);
      JoinSplit(s[1..]);
      if s[0] == '\n' {
        assert SplitLines(s)[1..] == rest;
      } else {
        var lines := SplitLines(s);
        if |rest| == 1 {
          assert lines == [[s[0]] + rest[0]];
        } else {
          assert lines[1..] == rest[1..];
          assert JoinLines(rest) == rest[0] + "\n" + JoinLines(rest[1..]);
        }
      }
    }
  }

  /** Joining newline-free lines and splitting again gives back the lines. */
  lemma {:induction false} SplitJoin(lines: seq<string>)
    requires |lines| >= 1
    requires forall i | 0 <= i < |lines| :: '\n' !in lines[i]
    ensures SplitLines(JoinLines(lines)) == lines
    decreases |lines|, |lines[0]|
  {
    var first := lines[0];
    if |first| == 0 {
      if |lines| > 1 {
        SplitJoin(lines[1..]);
        assert JoinLines(lines) == "\n" + JoinLines(lines[1..]);
        assert JoinLines(lines)[1..] == JoinLines(lines[1..]);
      }
    } else {
      var shorter := [first[1..]] + lines[1..];
      assert first[1..] == lines[0][1..];
      assert '\n' !in first[1..] by {
        assert forall c | c in first[1..] :: c in first;
      }
      SplitJoin(shorter);
      assert shorter[1..] == lines[1..];
      assert JoinLines(lines) == [first[0]] + JoinLines(shorter);
      var joined := JoinLines(lines);
      assert joined[1..] == JoinLines(shorter);
      assert joined[0] == first[0] && first[0] != '\n';
      assert [first[0]] + first[1..] == first;
      assert SplitLines(joined) == [[first[0]] + first[1..]] + lines[1..];
    }
  }

  /** The number of characters from the start that `chars` strips. */
  function LeadCount(s: string, chars: set<char>): (n: nat)
    ensures n <= |s|
    ensures forall i | 0 <= i < n :: s[i] in chars
    ensures n < |s| ==> s[n] !in chars
    decreases |s|
  {
    if |s| == 0 || s[0] !in chars then 0 else 1 + LeadCount(s[1..], chars)
  }

  /** The number of characters from the end that `chars` strips. */
  function TrailCount(s: string, chars: set<char>): (n: nat)
    ensures n <= |s|
    ensures forall i | |s| - n <= i < |s| :: s[i] in chars
    ensures n < |s| ==> s[|s| - 1 - n] !in chars
    decreases |s|
  {
    if |s| == 0 || s[|s| - 1] !in chars then 0 else 1 + TrailCount(s[..|s| - 1], chars)
  }

  /**
   * `s.strip(chars)`: the part of `s` after its leading run of `chars`, before
   * its trailing run, neither starting nor ending with one of them.
   */
  function Strip(s: string, chars: set<char>): (r: string)
    ensures LeadCount(s, chars) + |r| <= |s|
    ensures r == s[LeadCount(s, chars)..LeadCount(s, chars) + |r|]
    ensures forall i | LeadCount(s, chars) + |r| <= i < |s| :: s[i] in chars
    ensures |r| > 0 ==> r[0] !in chars && r[|r| - 1] !in chars
  {
    var a := LeadCount(s, chars);
    var t := s[a..];
    var b := TrailCount(t, chars);
    assert |t| - b < |t| ==> t[|t| - b - 1] !in chars;
    t[..|t| - b]
  }

  /** Stripping twice is stripping once. */
  lemma StripIdempotent(s: string, chars: set<char>)
    ensures Strip(Strip(s, chars), chars) == Strip(s, chars)
  {
  }

  /** The characters `parse_user_input` strips. */
  const UserStrip: set<char> := {'*', ' ', '"'}

  /** The characters `parse_character_input` strips. */
  const CharacterStrip: set<char> := {'*', ' '}

  datatype ActionType = Narration | Interaction | Instruction

  datatype Action = Action(kind: ActionType, content: string)

  /** Whether a line starts and ends with `c`, as `startswith` and `endswith` test. */
  predicate Wrapped(line: string, c: char) {
    |line| > 0 && line[0] == c && line[|line| - 1] == c
  }

  /** The type of a line in user mode. */
  function UserLineType(line: string): (t: ActionType)
    ensures t == Narration <==> Wrapped(line, '*')
    ensures t == Interaction <==> !Wrapped(line, '*') && Wrapped(line, '"')
    ensures t == Instruction <==> !Wrapped(line, '*') && !Wrapped(line, '"')
  {
    if Wrapped(line, '*') then Narration
    else if Wrapped(line, '"') then Interaction
    else Instruction
  }

  /** The type of a line in character mode: narration or instruction. */
  function CharacterLineType(line: string): (t: ActionType)
    ensures t != Interaction
    ensures t == Narration <==> Wrapped(line, '*')
  {
    if Wrapped(line, '*') then Narration else Instruction
  }

  /** `parse_user_input`: one action per line, in order. */
  function ParseUserInput(input: string): (actions: seq<Action>)
    ensures |actions| == |SplitLines(input)|
    ensures forall i | 0 <= i < |actions| ::
      var line := SplitLines(input)[i];
      && actions[i].kind == UserLineType(line)
      && actions[i].content == Strip(line, UserStrip)
  {
    var lines := SplitLines(input);
    seq(|lines|, i requires 0 <= i < |lines| => Action(UserLineType(lines[i]), Strip(lines[i], UserStrip)))
  }

  /** `parse_character_input`: one narration or instruction per line, in order. */
  function ParseCharacterInput(input: string): (actions: seq<Action>)
    ensures |actions| == |SplitLines(input)|
    ensures forall i | 0 <= i < |actions| ::
      var line := SplitLines(input)[i];
      && actions[i].kind == CharacterLineType(line)
      && actions[i].content == Strip(line, CharacterStrip)
  {
    var lines := SplitLines(input);
    seq(|lines|, i requires 0 <= i < |lines| => Action(CharacterLineType(lines[i]), Strip(lines[i], CharacterStrip)))
  }

  /**
   * The two modes agree on which lines are narration; a user-mode interaction is
   * a character-mode instruction, and no content keeps a wrapping character at
   * either end.
   */
  lemma ModesAgree(input: string)
    ensures |ParseUserInput(input)| == |ParseCharacterInput(input)|
    ensures forall i | 0 <= i < |ParseUserInput(input)| ::
      (ParseUserInput(input)[i].kind == Narration <==> ParseCharacterInput(input)[i].kind == Narration)
    ensures forall i | 0 <= i < |ParseUserInput(input)| ::
      ParseUserInput(input)[i].kind == Interaction ==> ParseCharacterInput(input)[i].kind == Instruction
    ensures forall i | 0 <= i < |ParseUserInput(input)| :: var c := ParseUserInput(input)[i].content;
      |c| > 0 ==> c[0] !in UserStrip && c[|c| - 1] !in UserStrip
  {
  }

  /** Parsing sees exactly the lines that were joined: one action per line, content stripped of its wrapping. */
  lemma ParseJoinedLines(lines: seq<string>)
    requires |lines| >= 1
    requires forall i | 0 <= i < |lines| :: '\n' !in lines[i]
    ensures |ParseUserInput(JoinLines(lines))| == |lines|
    ensures forall i | 0 <= i < |lines| ::
      ParseUserInput(JoinLines(lines))[i] == Action(UserLineType(lines[i]), Strip(lines[i], UserStrip))
  {
    SplitJoin(lines);
  }
}
