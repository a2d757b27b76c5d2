/** The password-strength scorer of helpers/password.ts: a length bonus, one
    point per character class the caller reports, a penalty for a deny-listed
    pattern, then a percentage of the maximum score floored at 0 and a
    three-way level. */
module Password {
  import opened Wrappers
  import opened Strings

  /** The caller's view of a candidate password: the raw text and four
      character-class flags, each of which may be left undefined (`None`). */
  datatype PasswordStrength = PasswordStrength(
    password: string,
    hasLowercase: Option<bool>,
    hasUppercase: Option<bool>,
    hasNumbers: Option<bool>,
    hasSymbols: Option<bool>)

  datatype Level = Weak | Medium | Strong

  /** What the scorer returns. The declared level type admits `undefined`,
      hence the `Option`; the scorer always fills it in. */
  datatype StrengthResult = StrengthResult(
    percentage: real,
    level: Option<Level>,
    hasCommonPatterns: bool)

  /** The normalisation denominator: the largest score the weights allow. */
  const MaxScore: int := 6

  /** The deduction for a password holding a deny-listed pattern. */
  const CommonPatternPenalty: int := 2

  /** JavaScript truthiness of a `boolean | undefined` flag. */
  function Truthy(flag: Option<bool>): (truthy: bool)
    ensures flag == None ==> !truthy
    ensures flag == Some(false) ==> !truthy
    ensures flag == Some(true) ==> truthy
  {
    flag == Some(true)
  }

  /** The two independent length tests: +1 for 8 to 12 characters, +2 for more
      than 12. */
  function LengthBonus(length: nat): (bonus: int)
    ensures 0 <= bonus <= 2
    ensures bonus == 0 <==> length < 8
  {
    (if 8 <= length && length <= 12 then 1 else 0) + (if length > 12 then 2 else 0)
  }

  /** One point per truthy character-class flag. */
  function FlagPoints(input: PasswordStrength): (points: int)
    ensures 0 <= points <= 4
    ensures points == 4 <==>
      Truthy(input.hasLowercase) && Truthy(input.hasUppercase) &&
      Truthy(input.hasNumbers) && Truthy(input.hasSymbols)
    ensures points == 0 <==>
      !Truthy(input.hasLowercase) && !Truthy(input.hasUppercase) &&
      !Truthy(input.hasNumbers) && !Truthy(input.hasSymbols)
  {
    (if Truthy(input.hasLowercase) then 1 else 0) +
    (if Truthy(input.hasUppercase) then 1 else 0) +
    (if Truthy(input.hasNumbers) then 1 else 0) +
    (if Truthy(input.hasSymbols) then 1 else 0)
  }

  /** `patterns.some(pattern => text.includes(pattern))`, stopping at the first
      pattern found. */
  function SomePatternIncluded(text: string, patterns: seq<string>): (found: bool)
    ensures found ==> patterns != []
    ensures [] in patterns ==> found
  {
    if patterns == [] then false
    else Includes(text, patterns[0]) || SomePatternIncluded(text, patterns[1..])
  }

  /** The scan over the pattern list is an existence test: it succeeds exactly
      when some listed pattern occurs in the text. */
  lemma {:induction false} SomePatternIncludedIff(text: string, patterns: seq<string>)
    ensures SomePatternIncluded(text, patterns) <==>
      exists k :: 0 <= k < |patterns| && Includes(text, patterns[k])
  {
    if patterns != [] {
      SomePatternIncludedIff(text, patterns[1..]);
      assert forall k :: 0 < k < |patterns| ==> patterns[k] == patterns[1..][k - 1];
    }
  }

  /** The deny-list test on the lower-cased password. The patterns themselves
      are used as given. */
  function HasCommonPattern(password: string, patterns: seq<string>): (found: bool)
    ensures found <==>
      exists k, i :: 0 <= k < |patterns| && OccursAt(ToLower(password), patterns[k], i)
  {
    var text := ToLower(password);
    SomePatternIncludedIff(text, patterns);
    forall k | 0 <= k < |patterns| ensures Includes(text, patterns[k]) <==> exists i :: OccursAt(text, patterns[k], i) {
      IncludesIff(text, patterns[k]);
    }
    SomePatternIncluded(text, patterns)
  }

  /** The integer score: length bonus plus flag points, less the penalty. */
  function Score(input: PasswordStrength, patterns: seq<string>): (score: int)
    ensures -CommonPatternPenalty <= score <= MaxScore
    ensures score < 0 ==> HasCommonPattern(input.password, patterns)
  {
    LengthBonus(|input.password|) + FlagPoints(input)
    - (if HasCommonPattern(input.password, patterns) then CommonPatternPenalty else 0)
  }

  /** `Math.max` of two numbers. */
  function Max(a: real, b: real): (m: real)
    ensures m >= a && m >= b && (m == a || m == b)
  {
    if a >= b then a else b
  }

  /** `Math.max((score / maxScore) * 100, 0)`: the share of the maximum score,
      floored at 0 and with no ceiling. */
  function Percentage(score: int): (p: real)
    ensures 0.0 <= p
    ensures p == 0.0 <==> score <= 0
    ensures score <= MaxScore ==> p <= 100.0
    ensures p == 100.0 <==> score == MaxScore
    ensures score > MaxScore ==> p > 100.0
  {
    Max(score as real / MaxScore as real * 100.0, 0.0)
  }

  /** The level assignment: Weak unless the percentage exceeds 40, Medium up
      to and including 70, Strong above. */
  function LevelOf(percentage: real): (level: Level)
    ensures level == Weak <==> percentage <= 40.0
    ensures level == Medium <==> 40.0 < percentage <= 70.0
    ensures level == Strong <==> percentage > 70.0
  {
    if percentage > 40.0 && percentage <= 70.0 then Medium
    else if percentage > 70.0 then Strong
    else Weak
  }

  /** `calculatePasswordStrength` with the deny-list passed in. */
  function CalculatePasswordStrength(input: PasswordStrength, patterns: seq<string>): (r: StrengthResult)
    ensures 0.0 <= r.percentage <= 100.0
    ensures r.level.Some?
    ensures r.level == Some(Weak) <==> r.percentage <= 40.0
    ensures r.level == Some(Medium) <==> 40.0 < r.percentage <= 70.0
    ensures r.level == Some(Strong) <==> r.percentage > 70.0
    ensures r.hasCommonPatterns <==>
      exists k, i :: 0 <= k < |patterns| && OccursAt(ToLower(input.password), patterns[k], i)
  {
    var found := HasCommonPattern(input.password, patterns);
    var percentage := Percentage(Score(input, patterns));
    StrengthResult(percentage, Some(LevelOf(percentage)), found)
  }
}
