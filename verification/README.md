# Password strength scorer

A Dafny model of `calculatePasswordStrength`, the client-side password-strength
estimator of a mobile sign-up front-end. The scorer takes a candidate password
and four character-class flags. Each flag reports a lower-case letter, an
upper-case letter, a digit or a symbol, and may be `true`, `false` or
`undefined`. The scorer builds an integer score from three parts:

- a length bonus: +1 for 8 to 12 characters, +2 for more than 12;
- one point per truthy flag;
- a penalty of 2 when some deny-listed pattern is a substring of the
  lower-cased password.

It turns the score into a percentage of the maximum score 6, floored at 0 and
not capped. It then maps the percentage to a level: Weak up to and including
40, Medium up to and including 70, Strong above. It also reports whether a
pattern was found.

Files:

- `wrappers.dfy`: `Option`, which stands for a TypeScript `T | undefined`.
- `strings.dfy`: `includes` as a left-to-right scan, proved equal to "occurs
  at some index". `toLowerCase` restricted to ASCII letters.
- `password.dfy`: the input and result records, the score parts, the
  percentage, the level and the scorer.
- `password_properties.dfy`: the scorer's promises, as lemmas. These cover the
  length bands, the effect of each flag, the penalty, monotonicity, the level
  bands by score, case-insensitive matching, and worked examples.

The deny-list comes from configuration in the source. Here it is a parameter
`patterns: seq<string>`. Percentages are exact reals.

Two behaviours of the code are worth noting:

- The code does not lower-case the patterns (helpers/password.ts:41). Only the
  password is lowered. A pattern that contains an upper-case letter therefore
  never matches (`UpperCasePatternNeverMatches`).
- Going from 7 to 8 characters, with the same flags and the same deny-list
  outcome, keeps the percentage equal exactly when the shorter password's
  score was negative, because of the floor at 0 (`SevenToEightCharacters`).
  If the eighth character completes a deny-listed pattern, the percentage
  can fall: "passwor" to "password" with all four flags set and the
  deny-list ["password"] goes from 400/6 to 300/6 (`SevenToEightCanLower`).

## Model

| member | source | states |
|---|---|---|
| `Strings.Includes` | helpers/password.ts:41 | the empty pattern is included in every string; a pattern is found only in a string at least as long |
| `Strings.IncludesIff` | helpers/password.ts:41 | the `includes` scan succeeds exactly when the pattern occurs at some index of the text; the empty pattern always occurs |
| `Strings.LowerChar` | helpers/password.ts:41 | the lowered character is never an upper-case ASCII letter; an upper-case letter moves 32 code points up; any other character is unchanged |
| `Strings.ToLower` | helpers/password.ts:41 | `toLowerCase` keeps the length and lowers each character on its own |
| `Strings.UpperCasePatternNotIncluded` | helpers/password.ts:41 | a pattern holding an upper-case letter is never found in a lowered string |
| `Password.Truthy` | helpers/password.ts:35-38 | JavaScript truthiness of a flag: undefined and `false` are falsy, `true` is truthy |
| `Password.LengthBonus` | helpers/password.ts:32-33 | the length bonus lies in 0..2 and is 0 exactly for passwords shorter than 8 |
| `Password.FlagPoints` | helpers/password.ts:35-38 | the flags give 0..4 points: 4 exactly when all four are truthy, 0 exactly when none is |
| `Password.SomePatternIncluded` | helpers/password.ts:41 | the `.some` scan fails on an empty list and succeeds whenever the empty pattern is listed |
| `Password.SomePatternIncludedIff` | helpers/password.ts:41 | the short-circuit `.some` scan succeeds exactly when some listed pattern is included in the text |
| `Password.HasCommonPattern` | helpers/password.ts:40-41 | true exactly when some listed pattern, used as given, occurs in the lower-cased password |
| `Password.Score` | helpers/password.ts:28-45 | the score lies in [-2, 6] and is negative only when the penalty applied |
| `Password.Max` | helpers/password.ts:48 | `Math.max`: the result is at least each argument and equals one of them |
| `Password.Percentage` | helpers/password.ts:48 | the percentage is at least 0; it is 0 exactly when the score is at most 0; it is at most 100 for scores up to 6; it is exactly 100 only at score 6; there is no ceiling, so a score above 6 would give more than 100 |
| `Password.LevelOf` | helpers/password.ts:51-56 | the three levels partition the percentages: at most 40 is Weak, 40 < p <= 70 is Medium, above 70 is Strong |
| `Password.CalculatePasswordStrength` | helpers/password.ts:21-63 | the percentage lies in [0, 100]; the level is always set and matches the thresholds; `hasCommonPatterns` holds exactly when a listed pattern occurs in the lower-cased password |
| `PasswordProperties.LengthBonusBands` | helpers/password.ts:32-33 | the bonus is 0 below 8 characters, 1 for 8..12 and 2 above 12, so the two tests never both fire |
| `PasswordProperties.SetFlagAddsOnePoint` | helpers/password.ts:35-38 | setting a class flag to true adds exactly 1 point when the flag was false or undefined, and 0 when it was already true |
| `PasswordProperties.UndefinedScoresAsFalse` | helpers/password.ts:35-38 | replacing an undefined flag by `false` leaves the whole result unchanged |
| `PasswordProperties.PercentageMonotone` | helpers/password.ts:48 | a higher score never gives a lower percentage |
| `PasswordProperties.SetFlagNeverLowers` | helpers/password.ts:35-48 | setting any class flag to true never lowers the percentage |
| `PasswordProperties.SevenToEightCharacters` | helpers/password.ts:32-48 | 7 to 8 characters with the same flags and pattern outcome gains exactly 1 point; the percentage never falls, and rises exactly when the 7-character score was at least 0 |
| `PasswordProperties.SevenToEightCanLower` | helpers/password.ts:32-48 | without the same deny-list outcome the 7-to-8 step can lower the percentage: "passwor" to "password" with all flags set and ["password"] falls from 400/6 to 300/6 |
| `PasswordProperties.PenaltyIff` | helpers/password.ts:40-45 | the penalty of 2 is subtracted exactly when a listed pattern occurs in the lower-cased password |
| `PasswordProperties.EmptyPatternListNoPenalty` | helpers/password.ts:40-45 | with an empty deny-list there is no pattern flag and no penalty |
| `PasswordProperties.UpperCasePatternNeverMatches` | helpers/password.ts:41 | patterns are not lower-cased: a pattern with an upper-case letter never sets `hasCommonPatterns` |
| `PasswordProperties.CaseInsensitive` | helpers/password.ts:32-45 | two passwords with the same lower-cased form and the same flags get identical results |
| `PasswordProperties.LevelByScore` | helpers/password.ts:48-56 | a score of at most 2 gives Weak, 3 or 4 gives Medium, 5 or more gives Strong |
| `PasswordProperties.FullMarksIff` | helpers/password.ts:28-48 | the percentage is 100 exactly when the password has more than 12 characters, all four flags are truthy and no pattern matches |
| `PasswordProperties.EmptyPassword` | helpers/password.ts:28-62 | an empty password with no truthy flag gives 0 percent and Weak; it is flagged exactly when the empty pattern is listed |
| `PasswordProperties.ExampleEightLowercase` | helpers/password.ts:21-63 | "abcdefgh" with only the lower-case flag set gives 200/6 percent, Weak, no pattern |
| `PasswordProperties.ExampleTenAllClasses` | helpers/password.ts:21-63 | "Abcdefgh1!" with all flags set gives 500/6 percent, Strong |
| `PasswordProperties.ExampleThirteenAllClasses` | helpers/password.ts:21-63 | "Abcdefghijk1!" with all flags set gives 100 percent, Strong |
| `PasswordProperties.ExampleDenyListed` | helpers/password.ts:21-63 | "password123" against ["password"] gives 100/6 percent, Weak, pattern found |
| `PasswordProperties.ExampleMixedCaseMatch` | helpers/password.ts:41 | the pattern "password" is found in "MyPassword123!" |

## Left out

- Reading the deny-list from the environment variable, and its comma split
  (helpers/password.ts:1-3). This is configuration I/O, so the list is a
  parameter. An empty segment of the split would be the empty pattern. The
  model handles the empty pattern if it is passed: it matches every password.
- `Strings.ToLower`: lowers ASCII letters only. JavaScript's full Unicode
  case mapping is not modelled.
- `Password.LengthBonus`: counts the characters of the sequence, not UTF-16
  code units, so characters outside the Basic Multilingual Plane count once.
- `Password.Percentage`: uses exact reals instead of IEEE-754 doubles.
  Percentages are multiples of 100/6, and none of them lies near 40 or 70,
  so the levels come out the same.
- Computing the four character-class flags from the password. The scorer
  receives them from its caller and does not derive them.
- The strength bar component (components/PasswordStrengthBar.tsx). It is an
  animated rendering whose colour follows the level.
- Screens, navigation, theming hooks, buttons, authentication callbacks and
  the splash timer. These are UI and I/O plumbing with no scoring logic.
