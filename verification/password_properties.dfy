/** What the scorer promises its callers, stated over the functions of module
    Password: the score bands behind each level, the effect of each input on
    the score, and worked examples. */
module PasswordProperties {
  import opened Wrappers
  import opened Strings
  import opened Password

  /** The four character classes a caller reports. */
  datatype CharClass = Lowercase | Uppercase | Numbers | Symbols

  function FlagOf(input: PasswordStrength, c: CharClass): Option<bool>
  {
    match c
    case Lowercase => input.hasLowercase
    case Uppercase => input.hasUppercase
    case Numbers => input.hasNumbers
    case Symbols => input.hasSymbols
  }

  /** `input` with the flag of class `c` replaced by `flag`. */
  function WithFlag(input: PasswordStrength, c: CharClass, flag: Option<bool>): (r: PasswordStrength)
    ensures r.password == input.password
    ensures FlagOf(r, c) == flag
    ensures forall d :: d != c ==> FlagOf(r, d) == FlagOf(input, d)
  {
    match c
    case Lowercase => input.(hasLowercase := flag)
    case Uppercase => input.(hasUppercase := flag)
    case Numbers => input.(hasNumbers := flag)
    case Symbols => input.(hasSymbols := flag)
  }

  /** The length bonus by band: the two tests never both fire. */
  lemma LengthBonusBands(length: nat)
    ensures length < 8 ==> LengthBonus(length) == 0
    ensures 8 <= length <= 12 ==> LengthBonus(length) == 1
    ensures 12 < length ==> LengthBonus(length) == 2
  {
  }

  /** Setting one class flag to true adds exactly one point when the flag was
      false or undefined, and nothing when it was already true. */
  lemma SetFlagAddsOnePoint(input: PasswordStrength, c: CharClass, patterns: seq<string>)
    ensures Score(WithFlag(input, c, Some(true)), patterns) ==
      Score(input, patterns) + (if Truthy(FlagOf(input, c)) then 0 else 1)
  {
  }

  /** An undefined flag scores exactly as `false` does. */
  lemma UndefinedScoresAsFalse(input: PasswordStrength, c: CharClass, patterns: seq<string>)
    requires FlagOf(input, c) == None
    ensures CalculatePasswordStrength(WithFlag(input, c, Some(false)), patterns) ==
      CalculatePasswordStrength(input, patterns)
  {
  }

  /** A larger score never gives a smaller percentage. */
  lemma PercentageMonotone(a: int, b: int)
    requires a <= b
    ensures Percentage(a) <= Percentage(b)
  {
  }

  /** Setting a flag to true never lowers the percentage. */
  lemma SetFlagNeverLowers(input: PasswordStrength, c: CharClass, patterns: seq<string>)
    ensures CalculatePasswordStrength(input, patterns).percentage <=
      CalculatePasswordStrength(WithFlag(input, c, Some(true)), patterns).percentage
  {
  }

  /** Lengthening the password from 7 to 8 characters, with the same flags and
      the same deny-list outcome, gains one point; the percentage never falls,
      and rises unless the shorter password's score was below 0. */
  lemma SevenToEightCharacters(short: PasswordStrength, long: PasswordStrength, patterns: seq<string>)
    requires |short.password| == 7 && |long.password| == 8
    requires long == short.(password := long.password)
    requires HasCommonPattern(short.password, patterns) == HasCommonPattern(long.password, patterns)
    ensures Score(long, patterns) == Score(short, patterns) + 1
    ensures CalculatePasswordStrength(short, patterns).percentage <=
      CalculatePasswordStrength(long, patterns).percentage
    ensures (CalculatePasswordStrength(short, patterns).percentage <
             CalculatePasswordStrength(long, patterns).percentage) <==> 0 <= Score(short, patterns)
  {
  }

  /** Without the same deny-list outcome the 7-to-8 step can lower the
      percentage: the eighth character completes the pattern "password", and
      the penalty outweighs the new length point. */
  lemma SevenToEightCanLower()
    ensures var flags := PasswordStrength("passwor", Some(true), Some(true), Some(true), Some(true));
      CalculatePasswordStrength(flags, ["password"]).percentage == 400.0 / 6.0 &&
      CalculatePasswordStrength(flags.(password := "password"), ["password"]).percentage == 300.0 / 6.0
  {
  }

  /** The penalty applies exactly when a listed pattern occurs in the
      lower-cased password. */
  lemma PenaltyIff(input: PasswordStrength, patterns: seq<string>)
    ensures Score(input, patterns) ==
      LengthBonus(|input.password|) + FlagPoints(input) -
      (if exists k, i :: 0 <= k < |patterns| && OccursAt(ToLower(input.password), patterns[k], i)
       then CommonPatternPenalty else 0)
  {
  }

  /** With an empty deny-list there is never a penalty. */
  lemma EmptyPatternListNoPenalty(input: PasswordStrength)
    ensures !CalculatePasswordStrength(input, []).hasCommonPatterns
    ensures Score(input, []) == LengthBonus(|input.password|) + FlagPoints(input)
  {
  }

  /** Patterns are not lower-cased: one holding an upper-case letter never
      matches, whatever the password. */
  lemma UpperCasePatternNeverMatches(input: PasswordStrength, pattern: string, k: int)
    requires 0 <= k < |pattern| && IsUpper(pattern[k])
    ensures !CalculatePasswordStrength(input, [pattern]).hasCommonPatterns
  {
  }

  /** The score depends on the password only through its lower-cased form
      (which also fixes its length). */
  lemma CaseInsensitive(a: PasswordStrength, b: PasswordStrength, patterns: seq<string>)
    requires ToLower(a.password) == ToLower(b.password)
    requires b == a.(password := b.password)
    ensures CalculatePasswordStrength(a, patterns) == CalculatePasswordStrength(b, patterns)
  {
  }

  /** The level in terms of the score: at most 2 is Weak, 3 or 4 is Medium,
      5 or more is Strong. */
  lemma LevelByScore(input: PasswordStrength, patterns: seq<string>)
    ensures var r := CalculatePasswordStrength(input, patterns);
      var score := Score(input, patterns);
      (r.level == Some(Weak) <==> score <= 2) &&
      (r.level == Some(Medium) <==> 3 <= score <= 4) &&
      (r.level == Some(Strong) <==> 5 <= score)
  {
  }

  /** Exactly 100 percent takes more than 12 characters, all four classes and
      no deny-listed pattern. */
  lemma FullMarksIff(input: PasswordStrength, patterns: seq<string>)
    ensures CalculatePasswordStrength(input, patterns).percentage == 100.0 <==>
      |input.password| > 12 &&
      Truthy(input.hasLowercase) && Truthy(input.hasUppercase) &&
      Truthy(input.hasNumbers) && Truthy(input.hasSymbols) &&
      !HasCommonPattern(input.password, patterns)
  {
  }

  /** An empty password with no class flag set scores 0 percent and is Weak;
      it matches a pattern only if the empty pattern is listed. */
  lemma EmptyPassword(input: PasswordStrength, patterns: seq<string>)
    requires input.password == []
    requires !Truthy(input.hasLowercase) && !Truthy(input.hasUppercase)
    requires !Truthy(input.hasNumbers) && !Truthy(input.hasSymbols)
    ensures CalculatePasswordStrength(input, patterns) ==
      StrengthResult(0.0, Some(Weak), [] in patterns)
  {
  }

  /** Eight lower-case letters: 1 + 1 points, Weak. */
  lemma ExampleEightLowercase()
    ensures CalculatePasswordStrength(
      PasswordStrength("abcdefgh", Some(true), Some(false), Some(false), Some(false)), []) ==
      StrengthResult(200.0 / 6.0, Some(Weak), false)
  {
  }

  /** Ten characters of all four classes: 5 points, Strong. */
  lemma ExampleTenAllClasses()
    ensures CalculatePasswordStrength(
      PasswordStrength("Abcdefgh1!", Some(true), Some(true), Some(true), Some(true)), []) ==
      StrengthResult(500.0 / 6.0, Some(Strong), false)
  {
  }

  /** Thirteen characters of all four classes: the full 6 points. */
  lemma ExampleThirteenAllClasses()
    ensures CalculatePasswordStrength(
      PasswordStrength("Abcdefghijk1!", Some(true), Some(true), Some(true), Some(true)), []) ==
      StrengthResult(100.0, Some(Strong), false)
  {
  }

  /** "password123" against the deny-list ["password"]: 1 + 1 + 1 - 2 points,
      Weak, pattern found. */
  lemma ExampleDenyListed()
    ensures CalculatePasswordStrength(
      PasswordStrength("password123", Some(true), Some(false), Some(true), Some(false)), ["password"]) ==
      StrengthResult(100.0 / 6.0, Some(Weak), true)
  {
  }

  /** Matching ignores the password's case: "password" is found in
      "MyPassword123!". */
  lemma ExampleMixedCaseMatch()
    ensures HasCommonPattern("MyPassword123!", ["password"])
  {
    var text := ToLower("MyPassword123!");
    assert text[2..10] == "password";
    assert OccursAt(text, ["password"][0], 2);
  }
}
