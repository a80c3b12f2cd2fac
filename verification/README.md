# Number Puzzle Solver, modelled in Dafny

`NumberPuzzleGame` is a console quiz. It works through levels 1 to 10 and
poses two or three puzzles per level. The puzzle kinds are arithmetic,
comparison, logical, conditional (read an if/elif chain) and number sequence.
The game grades each typed reply and adds a fixed reward per kind to the
score. A level passes with a 60% success rate, and after a failed level the
player may retry. This project models that engine without the console and
without the random module:

- every random draw is a parameter with its stated range;
- every `input()` is a value already handed to the model.

Modules, one per file:

- `Wrappers` (`wrappers.dfy`) — `Option`.
- `Text` (`text.dfy`) — the string operations the game relies on:
  - `lower()` and `strip()`;
  - the substring test `in`;
  - decimal rendering of an integer.
- `PyOps` (`pyops.dfy`) — Python's meaning of the operators the puzzles display:
  - floor `//` and `%`, and `**`;
  - the six comparisons;
  - `and`/`or`/`not`.

  Each is an independent evaluator over a small syntax tree of what the
  question text shows.
- `Generators` (`generators.dfy`) — the candidate questions of each kind and
  tier. The stored answer is written the way the game computes it, and the
  contracts prove it equals the evaluator's value of the displayed question.
- `ConditionalPuzzle` (`conditional.dfy`) — the three conditional templates
  as literal text, and the game's way of deciding which template was shown
  by looking for `"high"` and `"even"` in the rendered prompt. It also holds
  the displayed if/elif chains as code trees. A renderer prints each tree
  back as its template's code, and the sniffed answer is proved to be what
  the displayed chain yields for every `x`.
- `Grading` (`grading.dfy`) — puzzle generation from the draws, the
  True/False normalisation table, how each kind of reply is judged, and the
  reward per kind.
- `Levels` (`levels.dfy`) — the eligible-kind table, the number of puzzles,
  the sample of distinct kinds, the 60% rule, and a level played puzzle by
  puzzle.
- `Game` (`game.dfy`) — the main loop over `(score, level)` and the final
  report.
- `WorkedExamples` (`worked_examples.dfy`) — worked single puzzles with fixed draws.

Division reads as in Python. Every divisor the game uses is positive (`c`,
`c + 5`, `10`), so Python's floor operators agree with Dafny's Euclidean
ones there (`PyOps.FloorOpsAgreeForPositiveDivisor`).

The questions print `//` as `/`. The basic one adds "(integer division)".
The third advanced arithmetic question (number_puzzle_game.py:65) shows
`/` without that note, although its answer uses `//`; see "## Findings".
The model displays both as floor division, which is what the stored answer
uses.

## Model

| member | source | states |
|---|---|---|
| Text.Lower | number_puzzle_game.py:117 | lower-casing keeps the length, maps each character by itself, and leaves no upper-case letter |
| Text.LowerConcat | number_puzzle_game.py:117 | lower-casing distributes over joining texts |
| Text.LowerIdempotent | number_puzzle_game.py:258 | lower-casing twice is lower-casing once |
| Text.Trim | number_puzzle_game.py:256 | `strip()` keeps a contiguous middle of the text and removes only whitespace around it; the result starts and ends with non-whitespace or is empty |
| Text.TrimEmpty | number_puzzle_game.py:256 | stripping gives the empty string exactly when the text is all whitespace |
| Text.TrimUnchanged | number_puzzle_game.py:256 | text without surrounding whitespace is left as it is |
| Text.TrimOfSurrounded | number_puzzle_game.py:117 | a word padded with whitespace strips back to the word |
| Text.TrimIdempotent | number_puzzle_game.py:256 | stripping twice is stripping once |
| Text.MissingChar | number_puzzle_game.py:229 | a pattern with a character the text lacks does not occur in it |
| Text.ContainsConcat | number_puzzle_game.py:229 | an occurrence in either part is an occurrence in the joined text |
| Text.ContainsSplit | number_puzzle_game.py:229 | an occurrence in a joined text lies in one part when a character at the seam is not in the pattern |
| Text.Decimal | number_puzzle_game.py:195 | `x` is rendered as at least one digit with no leading zero, and the digits read back as `x` |
| PyOps.Pow | number_puzzle_game.py:64 | `a ** n` with a positive base is positive |
| PyOps.FloorDiv | number_puzzle_game.py:50 | `//` is the quotient rounded towards negative infinity, for either sign of divisor |
| PyOps.FloorMod | number_puzzle_game.py:56 | `%` completes `//` to the dividend and takes the divisor's sign |
| PyOps.FloorOpsAgreeForPositiveDivisor | number_puzzle_game.py:63-66 | for a positive divisor Python's `//` and `%` equal Dafny's `/` and `%` |
| PyOps.HoldsOnlyReadsFreeVars | number_puzzle_game.py:148-162 | a boolean formula's value depends only on the variables it mentions |
| Generators.TierOf | number_puzzle_game.py:44-52 | levels up to 3 are the basic tier, 4 to 6 the intermediate one and 7 up the advanced one; the same split is made at lines 146-152 and 272-280 |
| Generators.BasicArithmetic | number_puzzle_game.py:46-51 | each of the four basic answers is the value of the displayed expression |
| Generators.IntermediateArithmetic | number_puzzle_game.py:54-59 | each of the four intermediate answers is the value of the displayed expression, with a non-zero divisor |
| Generators.AdvancedArithmetic | number_puzzle_game.py:62-67 | each of the four advanced answers, including `**`, is the value of the displayed expression, the third one displayed with floor division (see Findings) |
| Generators.TrueDivisionSplits | number_puzzle_game.py:65 | a true division is the floor quotient plus a fraction that is zero exactly when the division is exact |
| Generators.ThirdAdvancedAsPrintedAgrees | number_puzzle_game.py:65 | the third advanced question read with true division, as printed, agrees with its stored answer exactly when `c` divides `a + b` |
| Generators.ThirdAdvancedCounterexample | number_puzzle_game.py:65 | with a = 3, b = 4, c = 2 the printed question is worth 4.5 while the stored answer is 4 |
| Generators.ArithmeticMenu | number_puzzle_game.py:39-69 | at every level the menu has four questions, each answered by its displayed expression's value, with the third advanced one displayed with floor division (see Findings) |
| Generators.ArithmeticRemainderBounds | number_puzzle_game.py:50-66 | `a // c` lies in `[0, a]`; `% c` lies in `[0, c)`, `% 10` in `[0, 9]` and `% (c + 5)` in `[0, c + 4]` |
| Generators.PlainComparisons | number_puzzle_game.py:95-102 | each of the six plain comparisons stores the truth value of the displayed comparison |
| Generators.CompoundComparisons | number_puzzle_game.py:106-111 | each of the four compound comparisons stores the truth value of the displayed comparison |
| Generators.ComparisonMenu | number_puzzle_game.py:95-114 | six questions up to level 3 and ten above, each answered by its displayed comparison's truth value |
| Generators.ComparisonMenuExtends | number_puzzle_game.py:104-112 | the higher-level menu begins with the six plain comparisons unchanged |
| Generators.LogicalMenu | number_puzzle_game.py:141-165 | three questions per tier; each answer is the displayed formula's value, and the formula uses only variables the text displays |
| Generators.LogicalDeMorgan | number_puzzle_game.py:155-156 | at levels 4 to 6 `not (p or q)` and `(not p) and (not q)` always have the same answer |
| Generators.LogicalAnswerReadsOnlyDisplayed | number_puzzle_game.py:147-163 | two draws agreeing on the displayed variables give the same answer |
| Generators.SequenceMenu | number_puzzle_game.py:272-297 | every shown term is a term of the question's recurrence and the stored answer is its next term; three terms are shown, four for the first two advanced questions |
| Generators.BasicSequences | number_puzzle_game.py:272-279 | up to level 3 the three questions step by +2, x2 and +5, show three terms, and store the next term |
| Generators.IntermediateSequences | number_puzzle_game.py:280-287 | at levels 4 to 6 the three questions step by +3, x2+1 and a power rule, show three terms, and store the next term |
| Generators.AdvancedSequences | number_puzzle_game.py:288-295 | above level 6 the questions show four, four and three terms of their recurrence and store the next term |
| ConditionalPuzzle.Scenarios | number_puzzle_game.py:194-223 | there are three templates to choose from |
| ConditionalPuzzle.ThresholdChainIsShown | number_puzzle_game.py:196-201 | the threshold code tree prints as exactly the threshold template's code |
| ConditionalPuzzle.ParityChainIsShown | number_puzzle_game.py:203-210 | the parity code tree prints as exactly the parity template's code |
| ConditionalPuzzle.GradeChainIsShown | number_puzzle_game.py:212-222 | the grade code tree prints as exactly the grade template's code |
| ConditionalPuzzle.ScenarioShowsChain | number_puzzle_game.py:194-223 | each of the three prompts is the shared first line followed by the printed form of its code tree |
| ConditionalPuzzle.ThresholdBands | number_puzzle_game.py:196-201 | the threshold chain yields "high" iff x > 50, "medium" iff 25 < x <= 50, "low" iff x <= 25 |
| ConditionalPuzzle.ParityBands | number_puzzle_game.py:204-210 | the parity chain yields "even-big" iff x is even and above 30, "even-small" iff even and at most 30, "odd" iff odd |
| ConditionalPuzzle.GradeBands | number_puzzle_game.py:213-222 | the grade chain yields "A" iff x >= 80, "B" iff 60 <= x < 80, "C" iff 40 <= x < 60, "D" iff 20 <= x < 40, "F" iff x < 20 |
| ConditionalPuzzle.ChainResultsAreBare | number_puzzle_game.py:256-258 | every result a chain can assign survives stripping unchanged |
| ConditionalPuzzle.NoWordInNumber | number_puzzle_game.py:195 | no word starting with a letter occurs in the digits of `x` |
| ConditionalPuzzle.HeaderHasNoKeyword | number_puzzle_game.py:195 | the shared first line "Given x = ..." contains neither "high" nor "even", whatever `x` is |
| ConditionalPuzzle.PrefixHasNoKeyword | number_puzzle_game.py:195 | the text before `x` in the first line contains neither "high" nor "even" |
| ConditionalPuzzle.TailHasNoKeyword | number_puzzle_game.py:195 | the text after `x` in the first line contains neither "high" nor "even" |
| ConditionalPuzzle.KeywordInScenario | number_puzzle_game.py:229-236 | a rendered prompt contains "high" or "even" exactly when its code part does |
| ConditionalPuzzle.HighInThresholdCode | number_puzzle_game.py:196-201 | the threshold template's code contains "high" |
| ConditionalPuzzle.KeywordsInParityCode | number_puzzle_game.py:203-210 | the parity template's code contains "even" but not "high" |
| ConditionalPuzzle.NoKeywordInGradeCode | number_puzzle_game.py:212-222 | the grade template's code contains neither "high" nor "even" |
| ConditionalPuzzle.SniffedAnswer | number_puzzle_game.py:229-254 | a question containing "high" is answered by the threshold tree, one containing "even" but not "high" by the parity tree, and any other by the grade tree |
| ConditionalPuzzle.SniffedAnswerMatchesShownCode | number_puzzle_game.py:225-254 | for every `x` and every template, the answer found by sniffing the prompt is what the displayed chain yields |
| ConditionalPuzzle.SniffThreshold | number_puzzle_game.py:229-233 | for the threshold template the sniffed answer is the displayed chain's result |
| ConditionalPuzzle.SniffParity | number_puzzle_game.py:234-241 | for the parity template the sniffed answer is the displayed chain's result |
| ConditionalPuzzle.SniffGrade | number_puzzle_game.py:242-254 | for the grade template the sniffed answer is the displayed chain's result |
| Grading.Points | number_puzzle_game.py:76 | a correct answer earns between 10 and 30 points depending only on the kind: 10, 15, 20, 25, 30 (also lines 129, 180, 260, 304) |
| Grading.Generate | number_puzzle_game.py:33-311 | the generated puzzle has the requested kind, the answer type of that kind, and a stored answer equal to the value of what the prompt displays, the third advanced arithmetic question displayed with floor division (see Findings) |
| Grading.WordListsDisjoint | number_puzzle_game.py:119-122 | no reply is in both the True list and the False list |
| Grading.ParseBool | number_puzzle_game.py:117-125 | after lower-casing and stripping, a reply is read as True exactly when it is in the True list and as False exactly when it is in the False list |
| Grading.LowerShowBool | number_puzzle_game.py:132 | the printed truth value lower-cases to "true" or "false" |
| Grading.ParseShownBool | number_puzzle_game.py:132 | the disclosed "True"/"False" reads back as the same truth value however much whitespace surrounds it |
| Grading.GradeNumber | number_puzzle_game.py:72-83 | an unparsable reply is a format error, and only the stored number is correct |
| Grading.GradeTruth | number_puzzle_game.py:119-133 | a reply outside both word lists is a format error, and only the stored truth value is correct |
| Grading.GradeText | number_puzzle_game.py:256-264 | a conditional reply is never a format error and is correct exactly when, stripped and lower-cased, it equals the lower-cased answer |
| Grading.GradeTextIgnoresPadding | number_puzzle_game.py:256-258 | a word padded with whitespace gets the bare word's verdict, and is correct exactly when the word equals the answer ignoring case |
| Grading.Grade | number_puzzle_game.py:72-83 | an integer reply is correct exactly when `int()` gives the stored number, a True/False reply exactly when it reads as the stored value (lines 117-133), a conditional reply exactly when it matches ignoring case and padding (lines 256-263); only an unreadable integer or True/False reply is a format error |
| Grading.PlayPuzzle | number_puzzle_game.py:72-83 | the puzzle counts as solved exactly when graded correct; the score rises exactly then and by the kind's points, and never falls |
| Grading.EchoReply | number_puzzle_game.py:79 | the reply that types back a disclosed integer is its decimal digits, led by `-` when negative, and they read back as that integer |
| Grading.StoredAnswerIsAccepted | number_puzzle_game.py:72-83 | for every kind, level and draw, typing back the disclosed answer is graded correct, by the numeric check here, the boolean check at lines 117-133 and the text check at lines 256-263 |
| Levels.EligibleKinds | number_puzzle_game.py:321-329 | the kinds are distinct; arithmetic and comparison always, logical iff level > 2, conditional iff level > 4, sequence iff level > 6 |
| Levels.PuzzlesToSolve | number_puzzle_game.py:332 | `min(3, len(kinds))` is 2 up to level 2 and 3 above, and never exceeds the number of eligible kinds |
| Levels.SampleExists | number_puzzle_game.py:333 | every level admits a sample of the required size |
| Levels.PassesIsSixtyPercent | number_puzzle_game.py:343-345 | `5 * correct >= 3 * total` holds exactly when `correct / total >= 0.6` |
| Levels.PassThresholds | number_puzzle_game.py:343-345 | with two puzzles both must be solved; with three, at least two |
| Levels.TallyFirst | number_puzzle_game.py:335-340 | after the first `n` puzzles no more than `n` are solved, and each solved one has earned 10 to 30 points |
| Levels.TallyOf | number_puzzle_game.py:335-340 | over a whole level no more puzzles are solved than posed, and each solved one earns 10 to 30 points |
| Levels.TallyStep | number_puzzle_game.py:337-340 | one more puzzle adds one to the solved count and its reward to the points exactly when it is solved, whatever the score was before it |
| Levels.PoseNext | number_puzzle_game.py:337-340 | posing the next puzzle keeps the running count and score in step with the tally |
| Levels.PlayPuzzles | number_puzzle_game.py:335-340 | the loop's solved count and score gain are the tally of the whole level, and the score never falls |
| Levels.LevelOutcome | number_puzzle_game.py:335-353 | a level passes exactly when its solved count meets the 60% rule; the score never falls and rises by at most 30 per puzzle |
| Levels.PlayLevel | number_puzzle_game.py:335-353 | the puzzle-by-puzzle loop gives the same result as the level outcome, with the solved count and score bounds above |
| Game.Start | number_puzzle_game.py:12-15 | a game starts at score 0 and level 1 |
| Game.PlayRound | number_puzzle_game.py:359-368 | the level rises by one exactly when the level is passed and otherwise stays; the score becomes the level's final score, which never falls; the loop is left exactly when a failed level's retry answer is neither "y" nor "yes" |
| Game.WantsRetryIsLowerIn | number_puzzle_game.py:366-367 | the retry test accepts an answer exactly when its lower-cased form is "y" or "yes" |
| Game.RetryAnswers | number_puzzle_game.py:366-367 | "Y", "yes" and "YeS" continue; " y", "yes ", "n" and the empty answer end the game, because nothing is stripped |
| Game.Play | number_puzzle_game.py:358-368 | the level stays within 1 to 11 and rises by at most one per round; the score never falls; the game is won exactly when the level exceeds 10; a quit game stopped on a round whose retry answer declines |
| Game.QuitEndsDeclined | number_puzzle_game.py:358-368 | a quit game stopped on its last round played, which failed its level and whose retry answer declined, after rounds that all passed or were retried |
| Game.RoundTotals | number_puzzle_game.py:359-363 | one round adds one level exactly when its level outcome passes, and adds the points its puzzles earned; playing the round moves the level and the score on by exactly these totals |
| Game.PlayAddsUp | number_puzzle_game.py:358-368 | the final level is the starting level plus the levels passed over the rounds played, and the final score is the starting score plus all the points those rounds earned, the declined round's included |
| Game.PlayContinues | number_puzzle_game.py:358-368 | every round played before the game stops is passed or failed and retried, and so is the last one unless the game was quit |
| Game.Final | number_puzzle_game.py:374-380 | levels completed is `level - 1`, between 0 and 10, and victory means all 10 were completed |
| Game.PassingTheLastLevelWins | number_puzzle_game.py:360-363 | passing level 10 ends the game in victory after that one round, with no level 11 |
| WorkedExamples.FivePlusThree | number_puzzle_game.py:47 | with a = 5, b = 3 at level 1 the `+` question shows `5 + 3`, stores 8, and "8" earns 10 points |
| WorkedExamples.GradeB | number_puzzle_game.py:212-222 | for any `x` from 60 to 79 the grade template stores "B" |
| WorkedExamples.LowerCaseBAccepted | number_puzzle_game.py:256-260 | a reply that strips and lower-cases to "b" solves that puzzle and earns 25 points |
| WorkedExamples.TenEqualsTen | number_puzzle_game.py:96 | `10 == 10` stores True, and any reply in the False list is wrong and leaves the score unchanged |
| WorkedExamples.NonNumericReply | number_puzzle_game.py:81-83 | a reply `int()` rejects is a format error, unlike a wrong number, and leaves the score unchanged |

## Left out

- Console output is not modelled: every `print`, the banners and emoji, `display_welcome` and `main`. They hold no logic.
- The `random` module is replaced by parameters. `randint` becomes a draw with its stated range. `choice` becomes an index below the number of candidates. `sample` becomes any duplicate-free list of eligible kinds of the required length.
- Python's `int()` rules (signs, whitespace, underscores) are not modelled. A reply carries its text and, separately, what `int()` makes of it (`None` for a `ValueError`). Nothing ties the two together.
- Question text is not rendered for the arithmetic, comparison, logical and sequence kinds. Each is a syntax tree of what it displays. Only the conditional templates are literal text, because the game reads that text back.
- For a logical question, which variables it displays is modelled; how their values are printed is not.
- Text.Lower: only ASCII `A`-`Z` are lower-cased. Python's Unicode case mapping of other letters is not modelled.
- Levels.PassesIsSixtyPercent: this compares against exact rational 0.6, not the binary float. With 2 or 3 puzzles no ratio is near 0.6, so the two agree.
- The "Press Enter to continue..." prompt after a pass is not modelled. Its reply is ignored by the game.
- Generators.AdvancedArithmetic: the third advanced question is displayed with floor division, as its stored answer computes it, not with the true division its text prints (see Findings).
- Generators.ArithmeticMenu: inherits the floor-division display of the third advanced question (see Findings).
- Grading.Generate: inherits the floor-division display of the third advanced question (see Findings).
- Game.Play: the loop runs over a finite list of rounds. When the list runs out before the game ends, the session is reported as `Waiting`, a state the interactive game never reports.

## Findings

| source | as written | input that shows it | evidently intended | confidence | as-written member | corrected member |
|---|---|---|---|---|---|---|
| number_puzzle_game.py:65 | the question prints `({a} + {b}) / {c} + ({a} % {c})` with `/`, true division in Python, but stores `(a + b) // c + a % c` | a = 3, b = 4, c = 2: the printed expression is worth 4.5, the stored answer is 4, so the printed value is never accepted | a question displaying floor division, as the basic tier's "(integer division)" note does | not executed | Generators.ThirdAdvancedCounterexample | Generators.AdvancedArithmetic |
