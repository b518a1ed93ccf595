/** `TextValidationHelper.checkIfTextIsValid`: a minimum length first, then a
    whole-string, case-insensitive blocklist. */
module TextValidation {
  import opened Wrappers

  datatype TextValidationError = NotEnoughCharacter(min: int) | HasBadWords

  const DefaultMinimumCharacterCount: int := 4

  const BadWords: seq<string> := ["shit", "bitch", "ass"]

  /** `lowercased()` on one character; only A-Z are mapped. */
  function LowerChar(c: char): char {
    if 'A' <= c <= 'Z' then (c as int + 32) as char else c
  }

  function Lowercased(s: string): (r: string)
    ensures |r| == |s|
    ensures forall i :: 0 <= i < |s| ==> r[i] == LowerChar(s[i])
    decreases |s|
  {
    if |s| == 0 then "" else [LowerChar(s[0])] + Lowercased(s[1..])
  }

  /** `checkIfTextIsValid(text:minimumCharacterCount:)`; throwing is `Fail`.
      Too short a text is refused whatever it says, and the error carries the
      minimum that was asked for; a long enough text is refused exactly when
      its lowercase form is one of the bad words. */
  function CheckIfTextIsValid(text: string, minimumCharacterCount: int := DefaultMinimumCharacterCount): (r: Outcome<TextValidationError>)
    ensures r == Fail(NotEnoughCharacter(minimumCharacterCount)) <==> |text| < minimumCharacterCount
    ensures r == Fail(HasBadWords) <==> |text| >= minimumCharacterCount && Lowercased(text) in BadWords
    ensures r == Pass <==> |text| >= minimumCharacterCount && Lowercased(text) !in BadWords
  {
    if |text| < minimumCharacterCount then Fail(NotEnoughCharacter(minimumCharacterCount))
    else if Lowercased(text) in BadWords then Fail(HasBadWords)
    else Pass
  }

  /** Only texts of three to five characters can be bad words, so with a
      minimum above five the blocklist never fires. */
  lemma BadWordsAreShort(text: string, minimumCharacterCount: int)
    requires minimumCharacterCount > 5
    ensures CheckIfTextIsValid(text, minimumCharacterCount) != Fail(HasBadWords)
  {
    if Lowercased(text) in BadWords {
      assert 3 <= |Lowercased(text)| <= 5;
    }
  }

  /** With the default minimum of 4, "ass" is refused for its length, not its content. */
  lemma LengthIsCheckedFirst()
    ensures CheckIfTextIsValid("ass") == Fail(NotEnoughCharacter(4))
  {
  }

  /** The blocklist compares whole strings after lowercasing: "ASS" is a bad
      word, while "class", which only contains one, is accepted. */
  lemma BlocklistIsWholeStringAndCaseInsensitive()
    ensures CheckIfTextIsValid("ASS", 3) == Fail(HasBadWords)
    ensures CheckIfTextIsValid("class", 3) == Pass
  {
    assert Lowercased("ASS") == "ass";
    var lc := Lowercased("class");
    assert lc[0] == 'c' && |lc| == 5;
  }
}
