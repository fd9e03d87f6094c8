# Arithmetic drill app — a verified model of its core

The application is a web drill for primary-school arithmetic. A
curriculum of stages names, for each stage, pools of question kinds:
ten-complements, additions and subtractions with and without carrying,
make-ten decompositions, skip counting, the times table, and written
(column) calculation. The player runs a stage. Questions come from the
generators of the stage's pools. A keypad or a special widget takes the
answers. At the end the stage's result is recorded in a ledger kept in
local storage. The ledger holds best time, a clear flag, the
unlocked stages and the weak questions.

This project models that core in Dafny:

- **the question generators** (`AddGenerators`, `SubGenerators`,
  `MulGenerators`, `WrittenGenerators`, with the ascending enumeration
  of the sequential branches in `SequentialPairs`). Each is a method whose
  loop builds the list. It is proved against a description of every
  question it can emit.
- **the dispatcher** that turns a stage into a question list (`Dispatch`).
  It covers the fixed sets, the weighted composite pools, the review
  share taken from the weak list, and the final order.
- **the ledger and its persistence** (`Ledger`) and the object holding
  it in the app (`GameContext.Game`). That object is a class whose methods
  update the stored state.
- **the play session** (`PlaySession.Session`): answer checking, the
  make-ten step drills, the mistakes list, score and accuracy.
- **the answer widgets** as state machines, each a class with its own
  handlers: `PlaceValue.PlaceValueInput`, `FormFill.FormFillInput`,
  `FormChoice.FormChoiceInput`, `CarryMark.CarryMarkTap`,
  `WrittenCalc.WrittenCalcInput`, `SequenceBoxes.SkipCountBoxes`,
  `SkipTap.SkipTapGame`, `MentalAdd.MentalAddStep`.

Randomness is an oracle, `Oracle.Stream`: an arbitrary function from a
draw index to a natural number. Generators take the stream and the index of
their next draw and return the index after their last one. Everything proved
holds for every stream. `Date.now()` is a parameter `now`. JavaScript's
`%`, `toString` and `parseInt` are modelled in `JsNumbers`.

## Model

| member | source | states |
|---|---|---|
| Oracle.Unit | src/lib/generator/math.ts:6 | `Math.random()` lies in [0, 1) |
| Oracle.RandomInt | src/lib/generator/math.ts:5-7 | `randomInt(min, max)` lies in [min, max]; for an empty range, in [max + 1, min] |
| Oracle.RandomIntReachesAll | src/lib/generator/math.ts:5-7 | every value of [min, max] can be drawn |
| Oracle.Shuffle | src/lib/generator/math.ts:10-12 | `shuffle` returns a permutation of its input: same length, same multiset |
| Oracle.ShuffleSameElements | src/lib/generator/math.ts:10-12 | an element is in the shuffled list iff it is in the input |
| JsNumbers.JsMod | src/lib/generator/math.ts:283 | `m % 10` agrees with the mathematical remainder for non-negative `m` and lies in (-10, 0] for negative `m` |
| JsNumbers.OrDefault | src/lib/generator/math.ts:415 | `spec.base \|\| 10` is the base when it is truthy and 10 when it is absent or 0 |
| JsNumbers.DigitRoundTrip | src/components/game/SkipCountBoxes.tsx:93 | a digit's character reads back as the digit |
| JsNumbers.NatToStringShape | src/lib/generator/math.ts:24 | `toString` of a natural number is a non-empty digit string with no leading zero |
| JsNumbers.DigitsValueOfNatToString | src/lib/generator/math.ts:24 | the digits of `n.toString()` have value `n` |
| JsNumbers.ParseIntOfNatToString | src/components/game/SkipCountBoxes.tsx:93 | `parseInt` undoes `toString` on natural numbers |
| JsNumbers.ParseIntOfIntToString | src/components/game/SkipCountBoxes.tsx:93 | `parseInt` undoes `toString` on every integer, negative ones included |
| JsNumbers.ParseIntOfDigits | src/components/game/WrittenCalcInput.tsx:161 | `parseInt` of a non-empty digit string is its decimal value, leading zeros allowed |
| JsNumbers.IntToStringInjective | src/pages/PlayPage.tsx:345 | two numbers render equal iff they are equal, so comparing rendered answers compares numbers |
| Columns.ColumnDigit | src/components/game/CarryMarkTap.tsx:49-55 | `getDigit` is the character `p` places from the right end, or "" when the string is too short |
| Columns.ColumnsOfNat | src/components/game/CarryMarkTap.tsx:49-55 | the ones column of `n.toString()` is `n % 10`; each further column is the next column of `n / 10`, empty once the digits run out |
| Columns.RightAligned | src/components/game/WrittenFormChoice.tsx:61-83 | a string of at most three characters, read across the hundreds, tens and ones columns, is itself |
| Columns.NatWidth | src/components/game/WrittenFormFill.tsx:19-21 | numbers below 10, 100 and 1000 have 1, 2 and 3 digits |
| SequentialPairs.AscendingPairs | src/lib/generator/math.ts:177-197 | the nested ascending loops emit exactly `Kept(Grid(...))`: the rectangle's pairs that the filter keeps, in loop order |
| SequentialPairs.ScanRow | src/lib/generator/math.ts:178-196 | the inner loop emits the kept pairs of one row |
| SequentialPairs.KeptMember | src/lib/generator/math.ts:179-181 | a pair survives the `continue`s iff it was visited and the filter accepts it |
| SequentialPairs.GridMember | src/lib/generator/math.ts:177-178 | the loops visit exactly the pairs of the rectangle |
| SequentialPairs.SequentialEnumeration | src/lib/generator/math.ts:237-251 | a pair is emitted iff it lies in the rectangle and passes the filter, and the emitted pairs are strictly ascending in (a, b), so none repeats |
| SequentialPairs.GridAscending | src/lib/generator/math.ts:279-288 | the loops visit the pairs in strictly ascending (a, b) order |
| SequentialPairs.KeptAscending | src/lib/generator/math.ts:279-288 | skipping pairs keeps the order ascending |
| SequentialPairs.GridLength | src/lib/generator/math.ts:177-178 | the loops visit (rows) × (columns) pairs |
| SequentialPairs.GridAt | src/lib/generator/math.ts:574-575 | pair (a, bLo + x) is visited after all earlier rows and the first x columns of row a |
| SequentialPairs.AscendingUnique | src/lib/generator/math.ts:177-199 | a strictly ascending list is determined by its members, so the sequential list is the only ascending list of the accepted pairs |
| AddGenerators.GenerateTenComplement | src/lib/generator/math.ts:15-30 | exactly `count` questions; question i asks for the complement of the number the i-th draw picks from `numbers`, or, when `numbers` is empty, shows `undefined` with the answer NaN |
| AddGenerators.TenComplementAnswer | src/lib/generator/math.ts:19-26 | the answer reads back as `10 - num`, which makes 10 with the shown number |
| AddGenerators.Pick | src/lib/generator/math.ts:19 | `numbers[randomInt(0, length - 1)]` is a listed number, and undefined exactly when the list is empty |
| AddGenerators.EmptyNumbersAskNaN | src/lib/generator/math.ts:19-24 | with no numbers the question reads `undefined + ? = 10` and its answer NaN matches no typed number |
| AddGenerators.GenerateAddPairs | src/lib/generator/math.ts:33-60 | at most `count` questions from at most `10 * count` two-draw attempts, fewer only when all attempts were spent; each pair is drawn from its ranges and passes all three `continue`s |
| AddGenerators.GenerateAddThreeNumbers | src/lib/generator/math.ts:63-101 | exactly `count` questions, each showing a reordering of the drawn numbers (the drawn order under `fixedOrder`); a `TypeError` exactly when there is a question to make and the template reads a missing range (`thirdRange`, or one of `aRange`, `bRange`, `cRange`) or an empty list of `make10_visible` pairs |
| AddGenerators.DrawThree | src/lib/generator/math.ts:67-91 | one iteration draws per its template (a listed pair and a third number, three ranged numbers, or `p, 10 - p, q` when a make-ten pair is demanded), then shows a permutation of them; it throws exactly when the template's range is missing or its `make10_visible` pair list is empty |
| AddGenerators.DrawNumbers | src/lib/generator/math.ts:67-87 | the numbers one iteration draws follow its template: a listed pair and a third number, three ranged numbers, or `p, 10 - p, q` when a make-ten pair is demanded; a missing `thirdRange`, `aRange`, `bRange` or `cRange` throws when it is read, and so does `pair[0]` of an empty pair list |
| AddGenerators.SumPermutation | src/lib/generator/math.ts:91-96 | shuffling the three numbers does not change the answer |
| AddGenerators.ShownMake10Pair | src/lib/generator/math.ts:81-96 | with `mustContainMake10Pair` both numbers of the pair survive the shuffle and the answer is 10 plus the third number |
| AddGenerators.ThreeAnswer | src/lib/generator/math.ts:93-98 | the answer reads back as the sum of the three shown numbers |
| AddGenerators.GenerateStairAddition | src/lib/generator/math.ts:104-123 | exactly `count` questions `base + other` with `other` in 1..topRowLength and `base` listed, or `undefined` with the answer NaN when the list is empty |
| AddGenerators.GenerateAdd2D1D | src/lib/generator/math.ts:126-147 | at most `count` questions from at most `20 * count` attempts, each passing the carry and sum filters |
| AddGenerators.GenerateAdd1D2D | src/lib/generator/math.ts:150-169 | at most `count` questions from at most `20 * count` attempts, each within the sum bound |
| AddGenerators.ZeroSumBound | src/lib/generator/math.ts:45 | a `sumMax` of 0 is ignored where it is read by truthiness (lines 137, 159, 180, 211) but rejects every positive sum in `generateAddPairs`, which compares with undefined |
| AddGenerators.CarryDecomposition | src/lib/generator/math.ts:214-226 | the complement makes 10 with the first operand, and 10 plus the remainder is the answer |
| AddGenerators.GenerateAddCarrySequential | src/lib/generator/math.ts:175-200 | the sequential branch is the accepted pairs in ascending order, cut to `count` |
| AddGenerators.GenerateAddCarryRandom | src/lib/generator/math.ts:202-228 | at most `count` questions with a sum above 10 and within the bounds, from at most `20 * count` attempts |
| SubGenerators.GenerateSubPairsSequential | src/lib/generator/math.ts:236-252 | the sequential branch is the pairs with a non-negative, bounded difference in ascending order, cut to `count` |
| SubGenerators.GenerateSubPairsRandom | src/lib/generator/math.ts:254-271 | at most `count` questions with a non-negative, bounded difference from at most `20 * count` attempts |
| SubGenerators.BorrowStepsReachAnswer | src/lib/generator/math.ts:309-333 | for a pair the borrow filter accepts, `step2` equals the answer exactly when the minuend is 10..19 |
| SubGenerators.BorrowStepsMissTheTens | src/lib/generator/math.ts:314-321 | 23 − 5 passes the filter, yet its steps give 8 while the answer is 18 |
| SubGenerators.GenerateSubBorrowSequential | src/lib/generator/math.ts:278-290 | the sequential branch is the borrowing pairs (minuend ≥ 10, ones digit below the subtrahend) in ascending order, cut to `count` |
| SubGenerators.GenerateSubBorrowRandom | src/lib/generator/math.ts:292-307 | at most `count` borrowing questions from at most `20 * count` attempts |
| SubGenerators.GenerateSubStair | src/lib/generator/math.ts:336-380 | exactly `count` stair questions, each on a listed subtrahend with a row of `topRowLength` numbers; with no subtrahends every number of the row, and every answer, is NaN |
| SubGenerators.StairDifferences | src/lib/generator/math.ts:360-370 | the row climbs by one from its start, and the j-th difference asked is between j + 1 and j + 5 |
| SubGenerators.GenerateSub2D1D | src/lib/generator/math.ts:383-406 | at most `count` questions from at most `20 * count` attempts, each non-negative and borrowing or not as demanded |
| SubGenerators.GenerateSubAddMixed | src/lib/generator/math.ts:409-432 | at most `count` questions `base - a + b` with a non-negative value; a base of 0 or none reads as 10 |
| MulGenerators.BuildSkipSequence | src/lib/generator/math.ts:444-447 | the `for (n = from; n <= to; n += step)` loop builds `SkipSequence(from, to, step)` |
| MulGenerators.SkipSequenceAt | src/lib/generator/math.ts:445-446 | the j-th number is `from + j * step`; all are at most `to` and the next one would not be |
| MulGenerators.BlankIndices | src/lib/generator/math.ts:453-458 | the blanks are exactly the indices whose numbers are not shown, ascending |
| MulGenerators.FindBlanks | src/lib/generator/math.ts:453-458 | the `forEach` collects exactly `BlankIndices` |
| MulGenerators.GenerateSkipCount | src/lib/generator/math.ts:440-495 | one question per blank, in order, at most `count`, with `showNumbers` defaulting to the two ends |
| MulGenerators.SkipCountAsksBlanks | src/lib/generator/math.ts:462-491 | each question asks for a number that is not shown; later questions ask later blanks |
| MulGenerators.GenerateElevAdd | src/lib/generator/math.ts:499-518 | steps `minStep, minStep + 1, …` in order, as many as the range and `count` allow |
| MulGenerators.ElevatorChains | src/lib/generator/math.ts:504-514 | the answer of one step is the first operand of the next |
| MulGenerators.GenerateMulLink | src/lib/generator/math.ts:522-563 | `count` link questions in the requested direction (either at random for `both`), or a `RangeError` at the first drawn multiplier too small for its form's `Array` length; never one when the range starts high enough |
| MulGenerators.LinkAnswers | src/lib/generator/math.ts:540-559 | each link form is answered by the number its blank stands for: the count of addends, or `n` |
| MulGenerators.GenerateMulTableInOrder | src/lib/generator/math.ts:571-584 | the ordered branch is the table `min..max` three times over, cut to `count` |
| MulGenerators.TableRound | src/lib/generator/math.ts:575-583 | one pass `m = min..max` extends the prefix of the ordered table, stopping at `count` |
| MulGenerators.TableOrderAt | src/lib/generator/math.ts:574-575 | round r asks `n × (min + x)` at position `r * width + x` |
| MulGenerators.GenerateMulTableRandom | src/lib/generator/math.ts:585-597 | exactly `count` facts of the `n` table with a drawn multiplier |
| MulGenerators.ReviewGuaranteed | src/lib/generator/math.ts:609-623 | `minPerN` facts of each table `fromN..toN` in turn, stopping at `count` |
| MulGenerators.ReviewTable | src/lib/generator/math.ts:612-621 | one table's `minPerN` facts fill its block of the guaranteed part |
| MulGenerators.ReviewBlock | src/lib/generator/math.ts:611-612 | table `n` takes the `minPerN` places after the tables before it |
| MulGenerators.ReviewFill | src/lib/generator/math.ts:626-636 | random facts from tables `fromN..toN` are appended until there are `count` |
| MulGenerators.GenerateMulReview | src/lib/generator/math.ts:604-640 | always exactly `count` questions, a permutation of the guaranteed facts followed by random ones |
| MulGenerators.GenerateMulMix | src/lib/generator/math.ts:644-661 | exactly `count` random facts from tables `fromN..toN` |
| MulGenerators.FactAnswer | src/lib/generator/math.ts:579 | a multiplication question's answer reads back as the product |
| MulGenerators.GenerateSkipTap | src/lib/generator/math.ts:674-695 | exactly `count` tap rounds; a missing or zero size reads as 12 numbers and 15 seconds |
| WrittenGenerators.DrawPlaceValue2 | src/lib/generator/math.ts:712-729 | the drawing loop for one question settles on the number `DrawUnused` describes, or runs out of fuel |
| WrittenGenerators.DrawUnusedWithin | src/lib/generator/math.ts:715-729 | a number the redraw loop settles on lies in the range |
| WrittenGenerators.GeneratePlaceValue2D | src/lib/generator/math.ts:705-751 | the generator returns the run `PlaceValue2Run` describes, and reports a hang exactly when that run does not finish |
| WrittenGenerators.PlaceValue2Digits | src/lib/generator/math.ts:733-746 | the answer "tens,ones" splits the number: `10 * tens + ones == num` |
| WrittenGenerators.PlaceValue2RunFacts | src/lib/generator/math.ts:711-748 | a finished run has `count` questions, each on a number of the range |
| WrittenGenerators.StuckDraw | src/lib/generator/math.ts:715-729 | once the streak guard skips `attempts++` and the only number is used, the loop never ends |
| WrittenGenerators.PlaceValue2Hangs | src/lib/generator/math.ts:715-729 | with range [40, 40] the second question never gets a number |
| WrittenGenerators.PlaceValue2ThirdTens | src/lib/generator/math.ts:719-726 | the streak guard does not stop a tens digit coming up three times in a row: 40, 41, 42 are accepted |
| WrittenGenerators.DrawPlaceValue3 | src/lib/generator/math.ts:759-773 | the drawn number is from the range or an injected `h * 100 + o` |
| WrittenGenerators.GeneratePlaceValue3D | src/lib/generator/math.ts:754-798 | exactly `count` three-digit place-value questions |
| WrittenGenerators.PlaceValue3Digits | src/lib/generator/math.ts:777-793 | "h,t,o" splits the number, `100h + 10t + o == num`, and `hasZeroMiddle` holds iff the tens digit is 0 |
| WrittenGenerators.ZeroMiddleAnswer | src/lib/generator/math.ts:766-770 | an injected number has a zero tens digit |
| WrittenGenerators.PlaceValueExamples | src/lib/generator/math.ts:739 | 47 reads "4,7"; 405 reads "4,0,5" and has a zero middle |
| WrittenGenerators.GenerateWrittenFormFill | src/lib/generator/math.ts:800-824 | exactly `count` fill questions; the answer is "ones" exactly when the top number is below 10 |
| WrittenGenerators.PickLayout | src/lib/generator/math.ts:843 | an error layout comes from the list, or is undefined when the list is empty |
| WrittenGenerators.BuildChoices | src/lib/generator/math.ts:836-846 | three choices, the correct layout exactly at `correctIndex`; each other choice is wrong and shows an error layout that is `undefined` when the list is empty and one of the list otherwise |
| WrittenGenerators.GenerateWrittenFormChoice | src/lib/generator/math.ts:827-864 | exactly `count` choice questions, each with exactly one correct choice at the answer index |
| WrittenGenerators.FormChoiceAnswer | src/lib/generator/math.ts:836-851 | the answer reads back as the index of the one correct choice |
| WrittenGenerators.GenerateWrittenAdd2D2D | src/lib/generator/math.ts:868-919 | at most `count` questions from at most `20 * count` attempts, each passing the carry filters |
| WrittenGenerators.ColumnAdditionDigits | src/lib/generator/math.ts:890-913 | for numbers below 100 the column facts add up: answer digits from the column sums, hundreds present iff the sum reaches 100, and the digits spell the sum |
| WrittenGenerators.ColumnArithmetic | src/lib/generator/math.ts:890 | column addition digit by digit: the tens column with the carry gives the tens and hundreds of the sum |
| WrittenGenerators.ColumnAdditionAnswer | src/lib/generator/math.ts:895 | the answer reads back as the sum |
| WrittenGenerators.DrawCarryPair | src/lib/generator/math.ts:930-939 | the pair kept is the first attempt whose carry matches the wanted one, or the fiftieth when none does |
| WrittenGenerators.GenerateCarryMarkTap | src/lib/generator/math.ts:922-960 | exactly `count` carry-mark questions on pairs from the ranges; question i carries as `Math.random() < carryRatio` decided, unless all 50 attempts missed |
| WrittenGenerators.CarryMarkAnswer | src/lib/generator/math.ts:941-954 | the answer is "tens" and the flag set exactly when the ones digits add to 10 or more |
| WrittenGenerators.DrawVerify | src/lib/generator/math.ts:967-977 | one check question on drawn addends, subtracting the addend `verifyType` says |
| WrittenGenerators.GenerateWrittenVerify | src/lib/generator/math.ts:963-995 | exactly `count` check questions |
| WrittenGenerators.VerifyUndoesAddition | src/lib/generator/math.ts:973-989 | top − bottom is the expected answer, the other addend, and the answer reads back as it |
| Dispatch.Cut | src/lib/generator/index.ts:210-212 | `slice(0, n)` keeps a prefix of length `min(n, |s|)` |
| Dispatch.Roulette | src/lib/generator/index.ts:166-172 | the weighted walk stops, if at all, on an index of the weights |
| Dispatch.RouletteWalk | src/lib/generator/index.ts:164-172 | the loop over the weights computes the walk `Roulette` describes |
| Dispatch.RouletteFirst | src/lib/generator/index.ts:166-172 | the walk stops on the first index whose running total reaches the point, and runs off the end exactly when no running total reaches it |
| Dispatch.RouletteFinds | src/lib/generator/index.ts:163-172 | a point not past the total always lands inside the list |
| Dispatch.RouletteLandsOnPositive | src/lib/generator/index.ts:166-172 | with a positive point the walk never lands on a weight that is zero or negative |
| Dispatch.ScaleWithin | src/lib/generator/index.ts:36 | `Math.random() * total` lies between 0 and the total |
| Dispatch.PickWeighted | src/lib/generator/index.ts:34-42 | a key exists exactly when the table is non-empty, and it is one of the table's keys |
| Dispatch.PickWeightedWalk | src/lib/generator/index.ts:34-42 | the loop of `pickWeighted` computes `PickWeighted` |
| Dispatch.PickWeightedNoFallback | src/lib/generator/index.ts:34-42 | with non-negative weights the fallback to the first key is never needed: the key picked is the first whose running total reaches the scaled draw |
| Dispatch.FixedQuestions | src/lib/generator/index.ts:204 | one fixed-set question per pair, in the order of the pairs |
| Dispatch.FixedAnswers | src/lib/generator/index.ts:204 | each fixed question's answer reads back as the sum of its pair |
| Dispatch.FixedSetContents | src/lib/generator/index.ts:200-207 | the fixed list is unique (any two ascending lists of the carrying pairs are equal) and every answer is a sum of at least 10 |
| Dispatch.CarryingPairs | src/lib/generator/index.ts:201-207 | the nested loops list, in ascending order, exactly the pairs of the digit range that make at least 10 |
| Dispatch.AskFixed | src/lib/generator/index.ts:200-207 | the loop builds `FixedQuestions` of the pairs |
| Dispatch.TakeFixed | src/lib/generator/index.ts:208-213 | without shuffling, the first `count`; with shuffling, `min(count, n)` distinct questions of the list |
| Dispatch.GenerateFixedSet | src/lib/generator/index.ts:199-214 | `fixed_set` gives the first `count` questions of the fixed list; `fixed_set_random` gives `count` of them, each at most once |
| Dispatch.SelectReview | src/lib/generator/index.ts:81-95 | no review block in SEQ or FILL mode or with an empty weak set; otherwise `min(floor(0.3 count), |weak|)` copies of the first entries of a shuffle of the weak set |
| Dispatch.ReviewCopyFacts | src/lib/generator/index.ts:89-93 | a review copy asks the stored question unchanged, is flagged as a review, and its id extends the stored id with `_review_` |
| Dispatch.ReviewShare | src/lib/generator/index.ts:85 | the review block is at most 30% of the round and at most the weak set, and at least one question once the round has 4 |
| Dispatch.NewAdd | src/lib/generator/index.ts:103-116 | the addition branches give a list of at most `count`, exactly `count` for the pools that always fill, in ascending order in SEQ mode for the carry procedure; a throw only from a pool that can throw |
| Dispatch.NewSub | src/lib/generator/index.ts:117-126 | the subtraction branches give at most `count`, in the ascending order of the accepted pairs in SEQ mode |
| Dispatch.NewCounting | src/lib/generator/index.ts:127-140 | the skip count and the elevator give their questions in order and the tap game its rounds; a skip count whose step never passes its end does not return; none of them throws |
| Dispatch.NewMul | src/lib/generator/index.ts:131-138 | the multiplication branches: the table in order in SEQ mode or ascending order, exactly `count` where the generator always fills; a throw only from a link pool whose range reaches too low |
| Dispatch.NewWritten | src/lib/generator/index.ts:142-155 | the written branches give their lists, never throw, and fail to return only for the place-value generator's endless redraw |
| Dispatch.GenerateNew | src/lib/generator/index.ts:100-214 | the pool's branch of the `if` chain; a pool with no branch gives no new question; a run that loops or throws comes from a pool that can |
| Dispatch.FinalOrder | src/lib/generator/index.ts:216-219 | RND and MIX reorder the new questions (same multiset); other modes keep the order |
| Dispatch.ShortReorder | src/lib/generator/index.ts:216-219 | reordering a list of at most one question leaves it unchanged, so a one-question sub-stage gives its question |
| Dispatch.V2Index | src/lib/generator/index.ts:163-173 | the selected include is where the walk stops, or the first one |
| Dispatch.NewCompositeV2 | src/lib/generator/index.ts:158-184 | each question is the question of a one-question stage of an include the weighted walk can pick; at most `count`, exactly `count` when every include always fills; a walk past the last include throws |
| Dispatch.SkillQuestions | src/lib/generator/index.ts:189-196 | at most one question, of the named skill (ten-complement of 1-9, one-digit sums up to 9 or from 10, three digits, teen plus digit up to 28); nothing for an unknown name; exactly one for `NUM10_MAKE` and `ADD_3NUM_MAKE10` |
| Dispatch.NewCompositeV1 | src/lib/generator/index.ts:185-198 | each question is one of a skill the table names; at most `count`; none when the table names no known skill; a full round when it names only skills that always give one |
| Dispatch.GenerateForStage | src/lib/generator/index.ts:77-225 | the review block as in `SelectReview`, then the new questions as the pool's branch describes them, reordered only in RND and MIX; a run that loops or throws comes from a pool that can |
| Ledger.Fresh | src/lib/gamestate/persistence.ts:42 | a new stage record: no passes, no best time, not cleared, unlocked as asked |
| Ledger.BestTime | src/lib/gamestate/persistence.ts:62 | the best time is the old one or the new one, and it is the new one exactly when a non-zero time beats the old best (or there is no old best) |
| Ledger.UpdateStageProgress | src/lib/gamestate/persistence.ts:36-76 | the update keeps the track, current stage and weak set, stamps the time, and gives the played stage (and, on a pass, its successor) a record |
| Ledger.PlayedStage | src/lib/gamestate/persistence.ts:41-63 | the played record: a missing one starts unlocked with no passes; a pass adds one pass and clears, a fail resets the passes and keeps `cleared`; the best time as `BestTime` says |
| Ledger.SuccessorUnlocked | src/lib/gamestate/persistence.ts:65-69 | on a pass the successor's record is unlocked and otherwise kept, or starts with no passes and not cleared |
| Ledger.OthersUnchanged | src/lib/gamestate/persistence.ts:41-75 | records other than the played stage and the unlocked successor are unchanged, and no other key appears |
| Ledger.FlagsMonotone | src/lib/gamestate/persistence.ts:58-69 | `unlocked` and `cleared` never go from true to false |
| Ledger.Find | src/lib/gamestate/persistence.ts:86 | `map.get` finds the entry with the id, and finds nothing exactly when no entry has it |
| Ledger.Put | src/lib/gamestate/persistence.ts:83 | `map.set` keeps ids distinct and leaves the new entry in the map |
| Ledger.MergeStep | src/lib/gamestate/persistence.ts:85-97 | a known id gets one more mistake, the time and the new data, keeping its place and solved count; an unseen id is appended; other entries are unchanged; ids stay distinct |
| Ledger.LoadedDistinct | src/lib/gamestate/persistence.ts:82-83 | loading the stored list gives a map with distinct ids, even when the list repeats an id |
| Ledger.MergedDistinct | src/lib/gamestate/persistence.ts:85-97 | merging the mistakes keeps ids distinct |
| Ledger.InsertByRecency | src/lib/gamestate/persistence.ts:100 | one sorting step adds exactly the new entry |
| Ledger.InsertKeepsRecency | src/lib/gamestate/persistence.ts:100 | the sorting step keeps the most-recent-first order |
| Ledger.SortByRecency | src/lib/gamestate/persistence.ts:100 | the sort is a permutation in most-recent-first order |
| Ledger.LoadAll | src/lib/gamestate/persistence.ts:82-83 | the loading loop builds the map `Loaded` describes |
| Ledger.MergeAll | src/lib/gamestate/persistence.ts:85-97 | the merging loop builds the map `Merged` describes |
| Ledger.UpdateWeakSet | src/lib/gamestate/persistence.ts:78-102 | the result is the first `min(50, n)` of the merged entries sorted most recent first |
| Ledger.WeakSetKept | src/lib/gamestate/persistence.ts:99-101 | the kept weak set has at most 50 distinct-id entries, most recent first, each a merged entry, all of them when there are at most 50, and no dropped entry is more recent than a kept one |
| Ledger.PrefixKept | src/lib/gamestate/persistence.ts:100-101 | any most-recent-first permutation of distinct entries, cut to the cap, has those properties |
| Ledger.PermutationDistinct | src/lib/gamestate/persistence.ts:100 | reordering entries keeps their ids distinct |
| GameContext.MergedStages | src/context/GameContext.tsx:37-49 | the merged curriculum keeps the addition curriculum's track, rules and start, lists its stages first, and holds exactly the stages of the four |
| GameContext.StartsPresent | src/context/GameContext.tsx:53-69 | after the start-stage loop every named start stage has a record, a missing one is unlocked with no passes, existing records are untouched, no other key appears |
| GameContext.UnlockFacts | src/context/GameContext.tsx:82-93 | the stage gets an unlocked record keeping its other fields (or a fresh one); every other record is unchanged |
| GameContext.AllUnlocked | src/context/GameContext.tsx:95-107 | every stage of the curriculum ends up with an unlocked record; records of other ids are untouched |
| GameContext.FindStage | src/context/GameContext.tsx:116 | `find` returns a stage with the id, and nothing exactly when no stage has it |
| GameContext.ExtraUnlockRedundant | src/context/GameContext.tsx:125-134 | the context's own unlock after enough passes changes nothing: the ledger update already unlocked the successor |
| GameContext.Game.constructor | src/context/GameContext.tsx:22-24 | no curriculum, no progress, loading |
| GameContext.Game.Init | src/context/GameContext.tsx:27-80 | the curriculum is the merge of the four; the progress is the stored one with the start-stage records added; loading ends |
| GameContext.Game.UnlockStage | src/context/GameContext.tsx:82-93 | without progress nothing happens; otherwise the progress map is `Unlock` of the old one |
| GameContext.Game.UnlockAllStages | src/context/GameContext.tsx:95-109 | without progress or curriculum nothing happens; otherwise every stage is unlocked in order |
| GameContext.Game.RecordStageResult | src/context/GameContext.tsx:111-146 | the new progress is exactly the ledger update with the stage's successor; the weak set is left as it was |
| PlaySession.KeysFollowWidget | src/pages/PlayPage.tsx:284-331 | keys reach the widget on screen for the keypad-driven widgets (boxes, form fill, place value, written calculation, make-10 steps), and the standard input for the rest |
| PlaySession.SakuranboStepFacts | src/pages/PlayPage.tsx:173-282 | the make-10 step machine keeps its shape; a pending check blocks all input; a check is scheduled only at the final step, for the value it expects, and locks the input; `ENTER` on an empty or wrong step changes nothing |
| PlaySession.SakuranboKeys | src/pages/PlayPage.tsx:207-262 | `DEL` shortens a non-empty step or steps back; a digit is refused at two characters, else appended, advancing only on a match |
| PlaySession.CarryStepsAccepted | src/pages/PlayPage.tsx:193-202 | on a generated carry question the steps expect the complement, the remainder and the sum, and the final one is what the check accepts |
| PlaySession.BorrowStepsJudged | src/pages/PlayPage.tsx:339-346 | on a generated borrow question the last step is `step2`, judged correct exactly when the minuend is at most 19; in split-only mode no verdict is reached |
| PlaySession.CountsAddUp | src/pages/PlayPage.tsx:420-422 | correct and incorrect results add up to all results |
| PlaySession.AccuracyRounds | src/pages/PlayPage.tsx:422 | the accuracy is the percentage rounded half up, 0 for no results, between 0 and 100, and 100 exactly when the wrong answers are at most half a percent |
| PlaySession.AccuracyMonotone | src/pages/PlayPage.tsx:422 | more correct answers never lower the accuracy |
| PlaySession.PassExamples | src/pages/PlayPage.tsx:422-423 | with an 80% rule 8 of 10 passes and 7 of 10 fails; with no rule every round passes |
| PlaySession.MistakesCounted | src/pages/PlayPage.tsx:425-433 | one reported mistake per incorrect result |
| PlaySession.MistakesSound | src/pages/PlayPage.tsx:425-433 | each reported mistake is a fresh record of a question answered wrongly |
| PlaySession.MistakesComplete | src/pages/PlayPage.tsx:425-433 | every question answered wrongly is reported |
| PlaySession.ScoreFacts | src/pages/PlayPage.tsx:416-437 | a round with every answer right scores 100 and passes any rule up to 100; an empty round scores 0 with no mistakes |
| PlaySession.Session.constructor | src/pages/PlayPage.tsx:85-107 | the round starts on the new questions with no review, no results and fresh steps |
| PlaySession.Session.Start | src/pages/PlayPage.tsx:138-152 | playing, with input accepted |
| PlaySession.Session.Finish | src/pages/PlayPage.tsx:416-437 | finished, and the report is the score of the results |
| PlaySession.Session.Advance | src/pages/PlayPage.tsx:383-411 | the next question with fresh steps, the same phase, and the input cleared on the checked path; the switch from review to new questions; or the finish with the score, leaving question, phase, input and steps as they were |
| PlaySession.Session.Record | src/pages/PlayPage.tsx:358-412 | `RecordedFrom`: the result (and a mistake record when wrong) is appended; at the second mistake on a path with the early stop the round finishes with the score of exactly the results so far; otherwise it moves to the next question with fresh steps, switches from review to new questions on the checked path, or finishes with the score after the last question; the phase changes only at the switch, and both finishes leave the question, input and steps as they were |
| PlaySession.Session.CheckAnswer | src/pages/PlayPage.tsx:333-414 | with no current question or no verdict the whole state is unchanged; with a verdict (on the answer, or on the remainder in split-only mode) the new state is what `RecordedFrom` gives from the old one on the checked path |
| PlaySession.Session.TimeUp | src/pages/PlayPage.tsx:119-136 | when not playing, or when the standard input as it stands gets no verdict, the whole state is unchanged; on a verdict the new state is what `RecordedFrom` gives from the old one |
| PlaySession.Session.WidgetComplete | src/pages/PlayPage.tsx:583-880 | when not playing or past the last question the whole state is unchanged; otherwise the new state is what `RecordedFrom` gives for the widget's outcome, with the early stop only for the place-value, form-fill, form-choice and written-calculation widgets |
| PlaySession.Session.HandleInput | src/pages/PlayPage.tsx:284-331 | ignored (whole state unchanged) unless playing and ready; widget keys handed over with the state unchanged; make-10 keys replace the steps by the step machine's, and a final-step value with a verdict continues as `RecordedFrom` from that state; `DEL` drops a character and a digit is appended, nothing else changing; `ENTER` checks the input, with the state unchanged when there is no verdict and `RecordedFrom` when there is one |
| JsNumbers.DropLast | src/pages/PlayPage.tsx:321 | `slice(0, -1)` removes the last character, and leaves "" as it is |
| JsNumbers.ShowsUndefinedOnlyWhenMissing | src/lib/generator/math.ts:23 | a template literal shows `undefined` exactly for a missing value, never for a number |
| PlaceValue.ExpectedOf | src/components/game/PlaceValueInput.tsx:24-33 | three expected boxes for a three-digit question, two otherwise |
| PlaceValue.PlaceValueInput.constructor | src/components/game/PlaceValueInput.tsx:14-44 | one empty box per place, the cursor on the first, nothing submitted |
| PlaceValue.PlaceValueInput.Check | src/components/game/PlaceValueInput.tsx:92-110 | at most once; correct exactly when every box holds the expected text, which needs single-digit expected boxes |
| PlaceValue.PlaceValueInput.HandleInput | src/components/game/PlaceValueInput.tsx:47-85 | `DEL` empties the box or steps back; `ENTER` checks only when every box is filled; a digit fills the box and moves on, or checks on the last box |
| PlaceValue.PlaceValueInput.SelectBox | src/components/game/PlaceValueInput.tsx:143 | tapping a box moves the cursor there unless submitted |
| PlaceValue.TwoDigitBoxes | src/components/game/PlaceValueInput.tsx:30-33 | the boxes of a generated two-digit question hold its tens and ones digits and spell the number |
| PlaceValue.ThreeDigitBoxes | src/components/game/PlaceValueInput.tsx:25-29 | the boxes of a generated three-digit question hold its three digits and spell the number |
| PlaceValue.SolveTwoDigit | src/components/game/PlaceValueInput.tsx:47-110 | typing the digits of a generated two-digit question is judged correct |
| PlaceValue.SolveThreeDigit | src/components/game/PlaceValueInput.tsx:47-110 | typing the digits of a generated three-digit question is judged correct |
| PlaceValue.TypeExpected | src/components/game/PlaceValueInput.tsx:71-84 | typing each expected digit in turn from a fresh input ends in a correct check |
| FormFill.StartIndex | src/components/game/WrittenFormFill.tsx:53-54 | the first filled box, or the ones box |
| FormFill.ExpectedBoxes | src/components/game/WrittenFormFill.tsx:36-39 | the loop fills the boxes `Slots` describes |
| FormFill.SlotsSpellNumber | src/components/game/WrittenFormFill.tsx:36-54 | for a number below 1000 the boxes spell it from the start box on, the boxes before it are empty, each filled box holds one digit |
| FormFill.FormFillInput.constructor | src/components/game/WrittenFormFill.tsx:14-55 | the expected boxes of the bottom number, empty inputs, the cursor on the start box |
| FormFill.FormFillInput.Check | src/components/game/WrittenFormFill.tsx:109-125 | at most once; correct exactly when the inputs equal the expected boxes; the cursor goes away |
| FormFill.FormFillInput.HandleInput | src/components/game/WrittenFormFill.tsx:57-103 | `DEL` empties the box or steps left; `ENTER` checks; a digit fills the box and moves right, or checks on the ones box |
| FormFill.FormFillInput.SelectBox | src/components/game/WrittenFormFill.tsx:190 | tapping a box moves the cursor there unless submitted |
| FormFill.SolveFormFill | src/components/game/WrittenFormFill.tsx:57-125 | typing the bottom number of a generated fill question from the start box is judged correct |
| FormFill.TypeDigits | src/components/game/WrittenFormFill.tsx:79-101 | typing one digit per box, most significant first, ends in a correct check |
| FormChoice.Shifts | src/components/game/WrittenFormChoice.tsx:85-118 | the correct (or missing) layout is exactly the one with no shift; a right shift keeps the bottom row's earlier right shift |
| FormChoice.CorrectRowsSpell | src/components/game/WrittenFormChoice.tsx:61-82 | in the correct layout each row spells its number, right-aligned |
| FormChoice.OnlyCorrectFillsOnes | src/components/game/WrittenFormChoice.tsx:61-118 | only the correct (or a missing) layout shows a digit in the ones column of both rows |
| FormChoice.FormChoiceInput.constructor | src/components/game/WrittenFormChoice.tsx:10-23 | the question's numbers and choices, nothing selected |
| FormChoice.FormChoiceInput.Select | src/components/game/WrittenFormChoice.tsx:25-38 | at most once; the tapped choice is kept and judged by its own flag |
| FormChoice.Choose | src/components/game/WrittenFormChoice.tsx:25-38 | on a generated question a tap is right exactly when it is the choice the answer names, and that choice has the correct layout |
| CarryMark.ShownDigits | src/components/game/CarryMarkTap.tsx:49-55 | for a number below 100 the shown tens and ones spell it; the ones is its last digit |
| CarryMark.CarryMarkTap.constructor | src/components/game/CarryMarkTap.tsx:10-26 | the question's numbers, the carry flag of their ones digits, nothing marked |
| CarryMark.CarryMarkTap.ToggleMark | src/components/game/CarryMarkTap.tsx:28-31 | flips the mark unless submitted |
| CarryMark.CarryMarkTap.Submit | src/components/game/CarryMarkTap.tsx:33-46 | at most once; right exactly when the mark is set if and only if the ones column carries |
| CarryMark.MarkAsAnswered | src/components/game/CarryMarkTap.tsx:28-46 | marking exactly when the generated question's answer is "tens" is judged right |
| CarryMark.SubmitUnmarked | src/components/game/CarryMarkTap.tsx:33-46 | checking without a mark is right exactly when there is no carry: for non-negative numbers, when the ones digits stay below 10 |
| CarryMark.ToggleTwice | src/components/game/CarryMarkTap.tsx:28-46 | two toggles leave the mark as it was; a second check is ignored |
| WrittenCalc.ReadingDigits | src/components/game/WrittenCalcInput.tsx:161 | single-digit columns read, highest first, as a digit string, empty exactly when every column is |
| WrittenCalc.ReadingValue | src/components/game/WrittenCalcInput.tsx:150-161 | with a filled column, the reading parses to the value of its digits |
| WrittenCalc.ColumnsReadBack | src/components/game/WrittenCalcInput.tsx:152-161 | writing a number of at most three digits into its columns reads back as that number |
| WrittenCalc.WrittenCalcInput.constructor | src/components/game/WrittenCalcInput.tsx:14-42 | the numbers and expected answer of the question, empty columns, no marks, the cursor on the ones |
| WrittenCalc.WrittenCalcInput.Check | src/components/game/WrittenCalcInput.tsx:140-182 | nothing while every column is empty; otherwise correct exactly when the digits read as the expected answer |
| WrittenCalc.WrittenCalcInput.HandleInput | src/components/game/WrittenCalcInput.tsx:54-101 | `DEL` empties the column or steps right; `ENTER` checks; a digit fills the column and moves left, waits for an unmarked carry, or checks on the last column |
| WrittenCalc.WrittenCalcInput.ToggleCarryMark | src/components/game/WrittenCalcInput.tsx:107-138 | flips the mark; turning on the mark a filled column waits for moves the cursor on |
| WrittenCalc.WrittenCalcInput.SelectColumn | src/components/game/WrittenCalcInput.tsx:300-326 | tapping a column moves the cursor there unless submitted |
| WrittenCalc.GatesMatchQuestion | src/components/game/WrittenCalcInput.tsx:44-52 | on a generated addition the ones gate matches the question's carry flag and the tens gate matches a hundreds digit in the answer |
| WrittenCalc.GateArithmetic | src/components/game/WrittenCalcInput.tsx:44-52 | for numbers below 100 a carry out of the ones means a sum of at least 10; one out of the tens means a sum of at least 100 |
| WrittenCalc.SolveColumnAddition | src/components/game/WrittenCalcInput.tsx:54-182 | writing the sum of a generated addition column by column, marking each awaited carry, is judged correct |
| WrittenCalc.TypeSum | src/components/game/WrittenCalcInput.tsx:76-138 | the moves of the above on a fresh input |
| WrittenCalc.VerifyWaitsForAdditionCarry | src/components/game/WrittenCalcInput.tsx:84-90 | for the check 57 − 23 the cursor waits on the ones for a carry mark, because the gates are computed from the addition 57 + 23 |
| SequenceBoxes.FirstUnshown | src/components/game/SkipCountBoxes.tsx:27-29 | the first box whose number is not shown, or -1 |
| SequenceBoxes.NextOpen | src/components/game/SkipCountBoxes.tsx:113 | the first box after the given one not yet judged, or -1 |
| SequenceBoxes.Prefill | src/components/game/SkipCountBoxes.tsx:24-26 | shown numbers rendered, the other boxes empty |
| SequenceBoxes.Shown | src/components/game/SkipCountBoxes.tsx:30-35 | the shown numbers start out judged right |
| SequenceBoxes.WrongNumbersListed | src/components/game/SkipCountBoxes.tsx:119 | the corrected report lists exactly the numbers of the wrong boxes, one per wrong box |
| SequenceBoxes.MistakesAsWrittenMisreport | src/components/game/SkipCountBoxes.tsx:119 | the report as written names 2 for 2, 4, 6 with the 4 wrong; the corrected report names 4 |
| SequenceBoxes.MistakesAsWrittenCount | src/components/game/SkipCountBoxes.tsx:119 | the report as written has one entry per wrong box, as many as the corrected one |
| SequenceBoxes.SkipCountBoxes.constructor | src/components/game/SkipCountBoxes.tsx:17-36 | the boxes of the skip sequence; the shown numbers filled and judged right; the cursor on the first box to fill |
| SequenceBoxes.SkipCountBoxes.Submit | src/components/game/SkipCountBoxes.tsx:92-122 | the box is right when its text parses to its number; a wrong text is replaced by the number; the cursor moves to the next open box, or the round completes with the verdict and the mistakes as the completion code computes them (the first numbers of the row, one per wrong box) |
| SequenceBoxes.SkipCountBoxes.HandleInput | src/components/game/SkipCountBoxes.tsx:48-70 | ignored unless a box is open; `DEL` drops a character; `ENTER` on a non-empty box does everything `Submit` states (`SubmittedFrom`: the verdict, the replaced value, the cursor move, the completion with its mistakes); a key is appended while the box holds fewer than two characters |
| SequenceBoxes.RebuildsSequence | src/pages/PlayPage.tsx:756-763 | the page passes the sequence's first and last numbers, and rebuilding from them with the step gives the same sequence |
| SequenceBoxes.AllShownNeverCompletes | src/components/game/SkipCountBoxes.tsx:27-49 | when every number is shown the cursor is off the boxes, no key is taken and the round never completes |
| SkipTap.TargetsIncrease | src/components/game/SkipTapGame.tsx:14-20 | the multiples strictly increase |
| SkipTap.Candidates | src/components/game/SkipTapGame.tsx:28-33 | the possible distractors: exactly the numbers 1 to `to + 5` that are not multiples, ascending |
| SkipTap.RemoveAt | src/components/game/SkipTapGame.tsx:38 | `splice` removes exactly the chosen element and keeps the rest distinct |
| SkipTap.DealNumbers | src/components/game/SkipTapGame.tsx:23-43 | the grid holds each multiple and each drawn distractor exactly once; the distractors fill the room, unless the candidates run out |
| SkipTap.SkipTapGame.constructor | src/components/game/SkipTapGame.tsx:12-48 | the multiples; a grid that is a reordering of the multiples and the dealt distractors, all distinct; each distractor a non-multiple in 1 to `to + 5`; as many distractors as there is room for, unless every such non-multiple is already dealt; nothing tapped |
| SkipTap.SkipTapGame.Finish | src/components/game/SkipTapGame.tsx:75-83 | at most once; right exactly when every multiple was tapped and no distractor; the score counts the multiples tapped |
| SkipTap.SkipTapGame.TappedAllIffCount | src/components/game/SkipTapGame.tsx:79-80 | every multiple is tapped exactly when the count of tapped ones equals their number |
| SkipTap.SkipTapGame.Settle | src/components/game/SkipTapGame.tsx:86-93 | the round ends once every multiple is tapped |
| SkipTap.SkipTapGame.HandleTap | src/components/game/SkipTapGame.tsx:95-111 | the next multiple in order is tapped; a non-multiple is a wrong tap; a multiple out of order does nothing; the last multiple ends the round |
| SkipTap.SkipTapGame.TimeUp | src/components/game/SkipTapGame.tsx:57-73 | time out ends the round with what was tapped |
| SkipTap.TapInOrder | src/components/game/SkipTapGame.tsx:86-111 | tapping the multiples in order and nothing else ends the round right with full score |
| MentalAdd.PartsSpellSum | src/components/game/MentalAddStep.tsx:147-163 | for a sum from 10 to 99 the tens and ones parts are its digits and spell it |
| MentalAdd.MentalAddStep.constructor | src/components/game/MentalAddStep.tsx:14-24 | the tens step, both boxes empty |
| MentalAdd.MentalAddStep.HandleInput | src/components/game/MentalAddStep.tsx:26-71 | `ENTER` does nothing; `DEL` clears or steps back; a digit is taken only when it is the expected part; the ones digit completes with both parts as the answer |
| MentalAdd.TypeSum | src/components/game/MentalAddStep.tsx:26-71 | typing the tens digit then the ones digit of a two-digit sum completes with the sum |
| MentalAdd.StuckOnTens | src/components/game/MentalAddStep.tsx:42-60 | a tens part that is not a single digit is never entered: no key completes the step |

## Left out

- Storage: `loadProgress` and `saveProgress` (src/lib/gamestate/persistence.ts:14-34) read and write local storage as JSON. The stored progress comes into `GameContext.Game.Init` as a parameter, and saving is not modelled.
- `resetAllData` (src/context/GameContext.tsx:148-154) clears local storage and reloads the page. It is pure I/O.
- Loading the four curriculum files is asynchronous I/O. The curricula come into `GameContext.Game.Init` as parameters.
- `alert` calls (src/context/GameContext.tsx:108, src/pages/PlayPage.tsx:72), navigation, `console.log` and the commented-out sounds (src/pages/PlayPage.tsx:355) have no effect on state.
- Timers. The `setTimeout` continuations (src/pages/PlayPage.tsx:239, 274, 358, 398; the widgets' delayed checks) run at once, in the order the source schedules them.
- The 500 ms input debounce (src/pages/PlayPage.tsx:142) is collapsed into `PlaySession.Session.Start`, which makes input ready at once.
- Countdowns. The 0.1-second countdowns of the page (src/pages/PlayPage.tsx:119-136) and of the tap game (src/components/game/SkipTapGame.tsx:57-73) are reduced to a single time-out event, `TimeUp`.
- Times. The floating-point time per question and the round's total time are left out. The total time reaches the ledger as a parameter.
- `Date.now()` is the parameter `now`. Question ids built from it are not claimed to be unique.
- Randomness is an arbitrary stream. Only what holds for every stream is proved: ranges, filters, permutations. Uniformity is not claimed. How many draws `Oracle.Shuffle` consumes is a choice of the model; the source's random-comparator sort consumes an unspecified number.
- In-place aliasing. `unlockStage` and `unlockAllStages` (src/context/GameContext.tsx:88, 102) set `unlocked` on entry objects that the previous progress value still shares. The model copies the records. The old progress value is therefore not changed in the model, though it is changed in the source; nothing in the core reads it afterwards.
- Review is off in the session. The session passes an empty weak list to the dispatcher (src/pages/PlayPage.tsx:84-91). The review share is modelled in `Dispatch.SelectReview`, and the switch from the review list to the new list is modelled in `PlaySession.Session.Advance`, but neither is reached from `PlaySession.Session.constructor`.
- Recording weak questions. The update of the weak set in `recordStageResult` is commented out in the source (src/context/GameContext.tsx:136-139). The model keeps the weak set unchanged and does not call `Ledger.UpdateWeakSet` from the context.
- `Dispatch.NewWritten`: when the place-value generator would redraw forever, the model stops after `fuel` draws and reports the run as `Hung`. Nothing is claimed about the questions of a run that does not return.
- `Dispatch.GenerateNew`: as for `Dispatch.NewWritten`, a `Hung` or `Threw` run carries no claim about its questions; the contract only says which pools can end that way.
- `Dispatch.GenerateForStage`: as for `Dispatch.GenerateNew`, a run that loops or throws carries no claim about its new questions. A negative `questions` count is not modelled: the counts are natural numbers, while the source's `slice(0, n)` with a negative `n` drops entries from the end.
- `WrittenGenerators.GeneratePlaceValue2D`: same fuel bound. The run is `hung` exactly when the fuelled description has no value.
- `PlaySession.Accuracy`: the accuracy rounds the exact ratio half up, while the source rounds the floating-point value `(c / t) * 100`. The two can differ on an exact half: for 23 right of 40 the exact value 57.5 gives 58, while the product in floating point falls just below 57.5 and gives 57.
- `PlaySession.AccuracyRounds`: proved of the exact rounding, so it carries the same floating-point difference as `PlaySession.Accuracy`.
- `PlaySession.Session.Finish`: reports the exact-rounding accuracy of `PlaySession.Accuracy`, with the same difference on exact halves.
- `SequenceBoxes.SkipCountBoxes`: each instance models one fresh widget per question. The page renders the widget without a `key` (src/pages/PlayPage.tsx:756-775) and its state comes only from `useState` initialisers (src/components/game/SkipCountBoxes.tsx:24-36). So React may reuse one finished instance for consecutive `sequence_boxes` questions, which the skip-count generator emits one per blank. React's mounting is not part of this model.
- The page ignores the mistakes the skip-count boxes report on completion (its handler's `_mistakes` parameter, src/pages/PlayPage.tsx:764). `SequenceBoxes.SkipCountBoxes.Submit` reports them as the widget computes them.
- The review share `Math.floor(count * 0.3)` (src/lib/generator/index.ts:85) is taken as the exact floor `count * 3 / 10`. Floating-point rounding of the product is not modelled.
- Skip counting with a step of 0 or less over a non-empty range loops forever in the source. The dispatcher reports such a pool's run as `Hung` without building a sequence. The boxes' constructor and the tap game's constructor require a positive step or an empty range.
- The page's keyboard listener (src/pages/PlayPage.tsx:441-465) only maps keys to the keypad tokens that the handlers take. It is not modelled separately.
- `SkipCountBoxes` also lets a box be edited as a text field (src/components/game/SkipCountBoxes.tsx:77-90). Only the keypad path is modelled.
- Visual state: the shake and feedback flags, and the rendering beyond the columns of `FormChoice`, are markup.
- `FormChoice.FormChoiceInput.Select` requires the tapped index to name a choice. Only the shown choices can be tapped.
- `MentalAdd.MentalAddStep` is not reached from the page or the generators: no generator emits its question kind. Its constructor therefore takes the two parts directly.
- `generateSingleQuestionFromType` (src/lib/generator/index.ts:45-68) always returns null and has no caller.
- Teacher mode (src/pages/PlayPage.tsx:77-79) is read but not used by the session.

## Findings

| source | as written | input that shows it | evidently intended | confidence | as-written member | corrected member |
|---|---|---|---|---|---|---|
| src/components/game/SkipCountBoxes.tsx:119 | the mistakes reported on completion take the wrong boxes and then, for the i-th of them, report `sequence[i]`, the i-th box of the whole row | the sequence 2, 4, 6 with only the 4 answered wrong reports [2] | the numbers of the wrong boxes, here [4] | not executed | SequenceBoxes.MistakesAsWrittenMisreport | SequenceBoxes.WrongNumbersListed |
