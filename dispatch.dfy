/** The decision listen_for_input takes on one recognised utterance: the text
    is lower-cased, the wake word and the exit phrase are each looked for as a
    plain substring, and the two tests are independent of each other. */
module Dispatch {

  const DefaultWakeWord: string := "hey cortana"
  const ExitPhrase: string := "goodbye cortana"

  predicate IsUpper(c: char) { 'A' <= c <= 'Z' }

  /** str.lower on one character, for the ASCII letters. */
  function LowerChar(c: char): (r: char)
    ensures !IsUpper(r)
    ensures IsUpper(c) ==> r as int == c as int + 32
    ensures !IsUpper(c) ==> r == c
  {
    if IsUpper(c) then (c as int + 32) as char else c
  }

  /** str.lower on a string, character by character. */
  function Lower(s: string): (r: string)
    ensures |r| == |s|
    ensures forall i :: 0 <= i < |s| ==> r[i] == LowerChar(s[i])
  {
    if s == [] then [] else [LowerChar(s[0])] + Lower(s[1..])
  }

  /** `pattern` appears in `text` starting at index i. */
  predicate OccursAt(text: string, pattern: string, i: int)
  {
    0 <= i && i + |pattern| <= |text| && text[i..i + |pattern|] == pattern
  }

  /** `pattern` appears somewhere in `text`. */
  ghost predicate Occurs(text: string, pattern: string)
  {
    exists i :: OccursAt(text, pattern, i)
  }

  /** Without a match at index 0, the pattern occurs in the text exactly when
      it occurs in the text without its first character. */
  lemma {:induction false} OccursInTail(text: string, pattern: string)
    requires text != [] && !OccursAt(text, pattern, 0)
    ensures Occurs(text, pattern) <==> Occurs(text[1..], pattern)
  {
    if i :| OccursAt(text, pattern, i) {
      assert text[1..][i - 1..i - 1 + |pattern|] == text[i..i + |pattern|];
      assert OccursAt(text[1..], pattern, i - 1);
    }
    if i :| OccursAt(text[1..], pattern, i) {
      assert text[1..][i..i + |pattern|] == text[i + 1..i + 1 + |pattern|];
      assert OccursAt(text, pattern, i + 1);
    }
  }

  /** Python's `pattern in text`. */
  function Contains(text: string, pattern: string): (b: bool)
    ensures b <==> Occurs(text, pattern)
    decreases |text|
  {
    if |pattern| > |text| then false
    else if text[..|pattern|] == pattern then
      assert OccursAt(text, pattern, 0);
      true
    else
      OccursInTail(text, pattern);
      Contains(text[1..], pattern)
  }

  /** What one recognised utterance triggers: the command routine, the exit,
      both (command first) or neither (the loop just listens again). */
  datatype Decision = Decision(runCommand: bool, exit: bool)

  function Classify(recognized: string, wakeWord: string): (d: Decision)
    ensures d.runCommand <==> Occurs(Lower(recognized), wakeWord)
    ensures d.exit <==> Occurs(Lower(recognized), ExitPhrase)
  {
    var text := Lower(recognized);
    Decision(Contains(text, wakeWord), Contains(text, ExitPhrase))
  }

  /** Lower-casing twice is lower-casing once. */
  lemma LowerIdempotent(s: string)
    ensures Lower(Lower(s)) == Lower(s)
  {
  }

  /** The classification ignores letter case in the utterance. */
  lemma ClassifyIgnoresCase(recognized: string, wakeWord: string)
    ensures Classify(Lower(recognized), wakeWord) == Classify(recognized, wakeWord)
  {
  }

  /** Text without upper-case letters is left as it is. */
  lemma LowerKeepsLowercase(s: string)
    requires forall i :: 0 <= i < |s| ==> !IsUpper(s[i])
    ensures Lower(s) == s
  {
  }

  /** The wake word itself is not lower-cased: one holding an upper-case
      letter never matches anything. */
  lemma UppercaseWakeWordNeverMatches(recognized: string, wakeWord: string, k: nat)
    requires k < |wakeWord| && IsUpper(wakeWord[k])
    ensures !Classify(recognized, wakeWord).runCommand
  {
  }

  /** There is no word boundary: "they cortana", in any letter case, wakes
      the assistant and does not end it. */
  lemma WakeWordMatchesInsideWord(recognized: string)
    requires Lower(recognized) == "t" + DefaultWakeWord
    ensures Classify(recognized, DefaultWakeWord) == Decision(true, false)
  {
    var text := "t" + DefaultWakeWord;
    assert text[1..1 + |DefaultWakeWord|] == DefaultWakeWord;
    assert OccursAt(text, DefaultWakeWord, 1);
    assert |ExitPhrase| > |text|;
  }

  /** One utterance can both run a command and end the program. */
  lemma WakeAndExitTogether(recognized: string)
    requires Lower(recognized) == DefaultWakeWord + " " + ExitPhrase
    ensures Classify(recognized, DefaultWakeWord) == Decision(true, true)
  {
    var text := DefaultWakeWord + " " + ExitPhrase;
    var k := |DefaultWakeWord| + 1;
    assert text[..|DefaultWakeWord|] == DefaultWakeWord;
    assert OccursAt(text, DefaultWakeWord, 0);
    assert text[k..k + |ExitPhrase|] == ExitPhrase;
    assert OccursAt(text, ExitPhrase, k);
  }
}
