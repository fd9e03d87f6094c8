/**
 * The data model shared by the generators, the progress ledger and the
 * session runner: pool specifications, questions, stages and progress.
 * Optional JavaScript fields are `Option`s; optional flags default to false.
 */
module Curriculum {
  import opened Wrappers
  import opened JsNumbers

  /** An inclusive `[min, max]` pair. */
  datatype Range = Range(lo: int, hi: int)

  /**
   * What `randomInt(r.lo, r.hi)` can return: a value of the range, or, for a
   * range given backwards, one of `(r.hi, r.lo]`.
   */
  predicate Within(x: int, r: Range) {
    if r.lo <= r.hi then r.lo <= x <= r.hi else r.hi < x <= r.lo
  }

  /** `${a} op ${b}`, the text of a two-operand question. */
  function Infix(a: int, op: string, b: int): string {
    IntToString(a) + " " + op + " " + IntToString(b)
  }

  /** `variant` of the make-10 procedures; also the question's `sakuranboMode`. */
  datatype Variant = NoVariant | SplitOnly | Full

  /** The optional `constraints` bag; an absent bag reads as `NoConstraints`. */
  datatype Constraints = Constraints(
    sumMax: Option<int>, sumMin: Option<int>,
    resultMax: Option<int>, resultMin: Option<int>,
    onesCarry: bool, onesNoCarry: bool,
    borrow: bool, noBorrow: bool,
    mustContainMake10Pair: bool, fixedOrder: bool)

  const NoConstraints := Constraints(None, None, None, None, false, false, false, false, false, false)

  datatype Template = Make10Visible | Make10Find | Mixed
  datatype LinkDirection = Both | AddToMul | MulToAdd
  datatype TableOrder = Asc | RandomOrder
  datatype FillFormat = PlaceLower | DragAlign
  datatype VerifyType = SubtractA | SubtractB | RandomVerify
  /** A layout of a written-form choice; `UndefinedLayout` is what an empty error list yields. */
  datatype Layout = CorrectLayout | LeftShift | RightShift | BlankShift | UndefinedLayout

  datatype PoolSpec =
    | TenComplement(numbers: seq<int>)
    | AddPairs(aRange: Range, bRange: Range, constraints: Constraints)
    /** The ranges are optional; `threeRanges` holds `aRange`, `bRange` and `cRange`. */
    | AddThreeNumbers(template: Template, pairs: Option<seq<(int, int)>>, thirdRange: Option<Range>,
                      threeRanges: (Option<Range>, Option<Range>, Option<Range>), constraints: Constraints)
    | StairAddition(baseNumbers: seq<int>, topRowLength: int)
    | Add2D1D(twoDigitRange: Range, oneDigitRange: Range, constraints: Constraints)
    | Add1D2D(oneDigitRange: Range, twoDigitRange: Range, constraints: Constraints)
    /** The string-keyed composite: named skills with weights, in key order. */
    | CompositeV1(weightTable: seq<(string, real)>)
    /** The array-based composite: sub-specifications with parallel weights. */
    | CompositeV2(includes: seq<PoolSpec>, weights: seq<real>)
    | AddCarryProcedure(variant: Variant, aRange: Range, bRange: Range, constraints: Constraints)
    | FixedSet
    | FixedSetRandom
    | SubPairs(minuendRange: Range, subtrahendRange: Range, constraints: Constraints)
    | SubBorrowProcedure(minuendRange: Range, subtrahendRange: Range, variant: Variant)
    | SubStair(baseNumbers: seq<int>, topRowLength: int)
    | Sub2D1D(twoDigitRange: Range, oneDigitRange: Range, constraints: Constraints)
    | SubAddMixed(base: Option<int>, subtrahendRange: Range, addendRange: Range)
    | SkipCount(step: int, from: int, to: int, showNumbers: Option<seq<int>>)
    | ElevAdd(add: int, start: int, stepsRange: Range)
    | MulLink(n: int, range: Range, direction: LinkDirection)
    | MulTable(n: int, range: Range, order: Option<TableOrder>)
    | MulReview(fromN: int, toN: int, range: Range, minPerN: Option<int>)
    | MulMix(fromN: int, toN: int, range: Range)
    | SkipTap(step: int, from: int, to: int, totalNumbers: Option<int>, timeLimit: Option<int>)
    | PlaceValue2D(range: Range)
    | PlaceValue3D(range: Range, includeZeroMiddle: bool)
    | WrittenFormFillPool(operandARange: Range, operandBRange: Range, format: FillFormat)
    | WrittenFormChoicePool(operandARange: Range, operandBRange: Range, errorTypes: Option<seq<Layout>>)
    | WrittenAdd2D2D(aRange: Range, bRange: Range, carryRequired: bool, noCarry: bool, inputOrder: Option<string>)
    | WrittenAddPool(aRange: Range, bRange: Range)
    | CarryMarkTapPool(aRange: Range, bRange: Range, carryRatio: Option<real>)
    | MentalAddStep(aRange: Range, bRange: Range)
    | WrittenVerifyPool(aRange: Range, bRange: Range, verifyType: VerifyType)

  /** The question's `type`: which interaction renders it. */
  datatype QType = InputQ | FillQ | TapQ | PlaceValueQ | WrittenFormFillQ | WrittenFormChoiceQ
                 | WrittenAddQ | CarryMarkTapQ | WrittenVerifyQ

  datatype Choice = Choice(layout: Layout, isCorrect: bool)

  /** The variant-specific `metadata` payload of a question. */
  datatype Meta =
    | NoMeta
    /** The numbers shown; `None` is an `undefined` item, read from an empty list. */
    | TenItems(items: seq<Option<int>>)
    | CarryProc(splitHost: int, splitGuest: int, complement: int, remainder: int, carryMode: Variant)
    | BorrowProc(minuend: int, subtrahend: int, borrowHost: int, borrowGuest: int,
                 step1: int, step2: int, borrowMode: Variant)
    | StairRow(row: seq<int>, stairBase: int)
    /** A stair row of `width` NaNs over an `undefined` base, built from an empty list of bases. */
    | NaNStairRow(width: nat)
    | SkipSeq(skipStep: int, sequence: seq<int>, blankIndex: int, shown: seq<int>)
    | Elevator(elevStep: int, addend: int)
    | MulLinkInfo(linkN: int, multiplier: int, addToMul: bool)
    | MulFact(factN: int, factM: int)
    | SkipTapInfo(tapStep: int, tapFrom: int, tapTo: int, totalNumbers: int, timeLimit: int)
    | PlaceValue2(pv2Number: int, pv2Tens: int, pv2Ones: int)
    | PlaceValue3(pv3Number: int, pv3Hundreds: int, pv3Tens: int, pv3Ones: int, hasZeroMiddle: bool)
    | FormFillInfo(fillFormat: FillFormat, fillTop: int, fillBottom: int, topDigits: string, bottomDigits: string)
    | FormChoiceInfo(choiceTop: int, choiceBottom: int, choices: seq<Choice>, correctIndex: int)
    | WrittenAddInfo(wa: int, wb: int, sum: int, aOnes: int, aTens: int, bOnes: int, bTens: int,
                     onesSum: int, tensSum: int, hasCarry: bool, carryValue: int,
                     answerOnes: int, answerTens: int, answerHundreds: Option<int>, inputOrder: string)
    | CarryTapInfo(tapA: int, tapB: int, tapHasCarry: bool)
    | VerifyInfo(verifyTop: int, verifyBottom: int, expectedAnswer: int)

  datatype Question = Question(id: string, text: string, answer: string, qtype: QType, meta: Meta, isReview: bool)

  datatype Mode = SEQ | RND | MIX | FILL | SET | GRID

  datatype Round = Round(questions: int, secPerQuestion: int)

  datatype Stage = Stage(id: string, title: string, mode: Mode, poolSpec: PoolSpec, round: Round,
                         nextStageId: Option<string>)

  /** The `pass` part of the global rules; `|| 0` and `|| 2` defaults apply at use. */
  datatype GlobalRules = GlobalRules(passAccuracy: Option<int>, consecutivePassesRequired: Option<int>)

  datatype Curriculum = Curriculum(track: string, title: string, globalRules: GlobalRules,
                                   startStageId: string, stages: seq<Stage>)

  datatype StageProgress = StageProgress(stageId: string, consecutivePasses: int,
                                         bestTimeSec: Option<real>, unlocked: bool, cleared: bool)

  datatype WeakQuestion = WeakQuestion(questionId: string, mistakeCount: int, lastMistakeAt: int,
                                       solvedCount: int, data: Question)

  datatype UserProgress = UserProgress(currentTrackId: string, currentStageId: string,
                                       stageProgressMap: map<string, StageProgress>,
                                       weakSet: seq<WeakQuestion>, lastPlayedAt: int)

  /** Appending the next entry of an indexed family keeps a list equal to the family. */
  lemma SnocAt<T>(xs: seq<T>, x: T, at: nat -> T)
    requires forall j :: 0 <= j < |xs| ==> xs[j] == at(j)
    requires x == at(|xs|)
    ensures forall j :: 0 <= j < |xs| + 1 ==> (xs + [x])[j] == at(j)
  {
  }

  /** Appending one more entry to three parallel lists that all satisfy `ok` keeps them satisfying it. */
  lemma SnocEach3<A, B, C>(xs: seq<A>, ys: seq<B>, zs: seq<C>, x: A, y: B, z: C, ok: (A, B, C, nat) -> bool)
    requires |xs| == |ys| == |zs|
    requires forall j :: 0 <= j < |xs| ==> ok(xs[j], ys[j], zs[j], j)
    requires ok(x, y, z, |xs|)
    ensures forall j :: 0 <= j < |xs| + 1 ==> ok((xs + [x])[j], (ys + [y])[j], (zs + [z])[j], j)
  {
    forall j | 0 <= j < |xs| + 1 ensures ok((xs + [x])[j], (ys + [y])[j], (zs + [z])[j], j) {
      if j < |xs| {
        assert (xs + [x])[j] == xs[j] && (ys + [y])[j] == ys[j] && (zs + [z])[j] == zs[j];
      }
    }
  }
}
