/**
 * The Sustained Attention to Response Task (js/sart.js): digit blocks with
 * exact per-digit quotas, ordered greedily so that adjacent digits differ,
 * a per-trial response window, and the practice-then-real block sequence.
 */
module Sart {
  import opened Wrappers
  import opened Seqs
  import opened Random
  import opened Records
  import opened Events

  const Digits: seq<int> := [1, 2, 3, 4, 5, 6, 7, 8, 9]
  const NoGoDigit: int := 3
  const FontSizes: seq<int> := [48, 72, 94, 100, 120]
  const MaxAttempts: nat := 1000

  /** The go digits: every digit but the no-go one, in order (see `GoDigitsAreFiltered`). */
  const GoDigits: seq<int> := [1, 2, 4, 5, 6, 7, 8, 9]

  /** `digits.filter(d => d !== noGoDigit)` yields exactly `GoDigits`. */
  lemma GoDigitsAreFiltered()
    ensures FilterOut(Digits, NoGoDigit) == GoDigits
  {
    var s := Digits;
    assert s[..2] == [1, 2];
    FilterOutMiddle(s[..2], NoGoDigit, s[3..]);
  }


  /** One stimulus of a block, as `generateTrials` builds it. */
  datatype Trial = Trial(digit: int, fontSize: int, fontSizeIndex: int, isGo: bool, trialNumber: int)

  /** What config.js supplies to the task. */
  datatype Config = Config(trialTrials: nat, realTrials: nat, noGoCount: nat, inputLag: int)

  // ---------------------------------------------------------------------
  // Digit quotas
  // ---------------------------------------------------------------------

  /** JavaScript's `a % b` for a positive divisor: the remainder takes the sign of `a`. */
  function JsRem(a: int, b: int): (r: int)
    requires b > 0
    ensures a >= 0 ==> r == a % b
    ensures -b < r < b
    ensures a < 0 ==> r <= 0
  {
    if a >= 0 then a % b else -((-a) % b)
  }

  /** `digitsPerCount + (index < remainder ? 1 : 0)`. */
  function Times(index: int, perCount: int, remainder: int): int {
    perCount + (if index < remainder then 1 else 0)
  }

  /** The digits pushed by `forEach((digit, index) => push digit `times` times)`, in push order. */
  function Layout(ds: seq<int>, perCount: int, remainder: int): seq<int> {
    if ds == [] then []
    else Layout(ds[..|ds| - 1], perCount, remainder) + Repeat(ds[|ds| - 1], Times(|ds| - 1, perCount, remainder))
  }

  /** `CONFIG.sart.noGoCount || 1`. */
  function NoGoCount(configured: nat): (n: nat)
    ensures n >= 1
  {
    if configured == 0 then 1 else configured
  }

  /** The digit array of js/sart.js:102-135, before shuffling. */
  function DigitArray(count: nat, blockType: string, noGoConfig: nat): seq<int> {
    if blockType == PracticeBlock then
      Layout(Digits, count / |Digits|, count % |Digits|)
    else
      var noGo := NoGoCount(noGoConfig);
      var goCount := count - noGo;
      Repeat(NoGoDigit, noGo) + Layout(GoDigits, goCount / |GoDigits|, JsRem(goCount, |GoDigits|))
  }

  /** The push loops for one list of digits. */
  method PushQuotas(init: seq<int>, ds: seq<int>, perCount: int, remainder: int) returns (out: seq<int>)
    ensures out == init + Layout(ds, perCount, remainder)
  {
    out := init;
    var index := 0;
    while index < |ds|
      invariant 0 <= index <= |ds|
      invariant out == init + Layout(ds[..index], perCount, remainder)
    {
      var times := Times(index, perCount, remainder);
      var i := 0;
      while i < times
        invariant 0 <= i && (times >= 0 ==> i <= times) && (times < 0 ==> i == 0)
        invariant out == init + Layout(ds[..index], perCount, remainder) + Repeat(ds[index], i)
      {
        out := out + [ds[index]];
        i := i + 1;
      }
      assert ds[..index + 1][..index] == ds[..index];
      index := index + 1;
    }
    assert ds[..index] == ds;
  }

  /** Builds the digit array with the quotas of the block kind. */
  method BuildDigitArray(count: nat, blockType: string, noGoConfig: nat) returns (digitArray: seq<int>)
    ensures digitArray == DigitArray(count, blockType, noGoConfig)
  {
    digitArray := [];
    if blockType == PracticeBlock {
      digitArray := PushQuotas(digitArray, Digits, count / |Digits|, count % |Digits|);
    } else {
      var noGo := NoGoCount(noGoConfig);
      var goCount := count - noGo;
      var i := 0;
      while i < noGo
        invariant 0 <= i <= noGo
        invariant digitArray == Repeat(NoGoDigit, i)
      {
        digitArray := digitArray + [NoGoDigit];
        i := i + 1;
      }
      digitArray := PushQuotas(digitArray, GoDigits, goCount / |GoDigits|, JsRem(goCount, |GoDigits|));
    }
  }

  lemma {:induction false} LayoutLength(ds: seq<int>, perCount: nat, remainder: nat)
    ensures |Layout(ds, perCount, remainder)| ==
            |ds| * perCount + (if remainder < |ds| then remainder else |ds|)
  {
    if ds != [] {
      var n := |ds| - 1;
      LayoutLength(ds[..n], perCount, remainder);
      MulSucc(n, perCount);
    }
  }

  lemma MulSucc(n: nat, p: nat)
    ensures (n + 1) * p == n * p + p
  {
  }

  /** A digit outside the list never appears in the layout. */
  lemma {:induction false} LayoutCountAbsent(ds: seq<int>, perCount: int, remainder: int, x: int)
    requires x !in ds
    ensures multiset(Layout(ds, perCount, remainder))[x] == 0
  {
    if ds != [] {
      var n := |ds| - 1;
      LayoutCountAbsent(ds[..n], perCount, remainder, x);
      RepeatCount(ds[n], Times(n, perCount, remainder), x);
    }
  }

  /** In a list of distinct digits, the digit at index k appears `Times(k, ...)` times (none if negative). */
  lemma {:induction false} LayoutCountAt(ds: seq<int>, perCount: int, remainder: int, k: nat)
    requires forall i, j :: 0 <= i < j < |ds| ==> ds[i] != ds[j]
    requires k < |ds|
    ensures multiset(Layout(ds, perCount, remainder))[ds[k]] ==
            (if Times(k, perCount, remainder) < 0 then 0 else Times(k, perCount, remainder))
  {
    var n := |ds| - 1;
    var pre := ds[..n];
    var x := ds[k];
    RepeatCount(ds[n], Times(n, perCount, remainder), x);
    if k == n {
      assert x !in pre;
      LayoutCountAbsent(pre, perCount, remainder, x);
    } else {
      assert pre[k] == x;
      LayoutCountAt(pre, perCount, remainder, k);
    }
  }

  lemma {:induction false} RepeatCount(d: int, n: int, x: int)
    ensures multiset(Repeat(d, n))[x] == if x == d && n > 0 then n else 0
  {
    if n > 0 {
      RepeatCount(d, n - 1, x);
      assert Repeat(d, n) == Repeat(d, n - 1) + [d];
    }
  }

  /** Practice block: digit index k gets floor(count/9) copies plus one of the remainder; `count` digits in all. */
  lemma PracticeQuotas(count: nat, noGoConfig: nat)
    ensures |DigitArray(count, PracticeBlock, noGoConfig)| == count
    ensures forall k :: 0 <= k < |Digits| ==>
              multiset(DigitArray(count, PracticeBlock, noGoConfig))[Digits[k]] ==
              count / 9 + (if k < count % 9 then 1 else 0)
  {
    LayoutLength(Digits, count / 9, count % 9);
    forall k | 0 <= k < |Digits|
      ensures multiset(DigitArray(count, PracticeBlock, noGoConfig))[Digits[k]] ==
              count / 9 + (if k < count % 9 then 1 else 0)
    {
      LayoutCountAt(Digits, count / 9, count % 9, k);
    }
  }

  /**
   * Real block: the no-go digit `NoGoCount(config)` times, go digit index k gets
   * floor(goCount/8) copies plus one of the remainder; `count` digits in all
   * whenever `count` is not below the no-go count.
   */
  lemma RealQuotas(count: nat, noGoConfig: nat)
    requires count >= NoGoCount(noGoConfig)
    ensures |DigitArray(count, RealBlock, noGoConfig)| == count
    ensures multiset(DigitArray(count, RealBlock, noGoConfig))[NoGoDigit] == NoGoCount(noGoConfig)
    ensures forall k :: 0 <= k < |GoDigits| ==>
              var goCount := count - NoGoCount(noGoConfig);
              multiset(DigitArray(count, RealBlock, noGoConfig))[GoDigits[k]] ==
              goCount / 8 + (if k < goCount % 8 then 1 else 0)
  {
    GoDigitsFacts();
    var noGo := NoGoCount(noGoConfig);
    var goCount: nat := count - noGo;
    var perCount, remainder := goCount / 8, goCount % 8;
    var ones := Repeat(NoGoDigit, noGo);
    var rest := Layout(GoDigits, perCount, remainder);
    RealDigitArray(count, noGoConfig);
    RealLength(count, noGoConfig);
    assert multiset(ones + rest)[NoGoDigit] == noGo by {
      LayoutCountAbsent(GoDigits, perCount, remainder, NoGoDigit);
      RepeatCount(NoGoDigit, noGo, NoGoDigit);
    }
    forall k | 0 <= k < |GoDigits|
      ensures multiset(ones + rest)[GoDigits[k]] == perCount + (if k < remainder then 1 else 0)
    {
      LayoutCountAt(GoDigits, perCount, remainder, k);
      RepeatCount(NoGoDigit, noGo, GoDigits[k]);
    }
  }

  /** A real block with enough trials has exactly `count` digits. */
  lemma RealLength(count: nat, noGoConfig: nat)
    requires count >= NoGoCount(noGoConfig)
    ensures |DigitArray(count, RealBlock, noGoConfig)| == count
  {
    GoDigitsFacts();
    var goCount: nat := count - NoGoCount(noGoConfig);
    RealDigitArray(count, noGoConfig);
    LayoutLength(GoDigits, goCount / 8, goCount % 8);
    assert 8 * (goCount / 8) + goCount % 8 == goCount;
  }

  /** The go digits are eight distinct digits, none of them the no-go digit. */
  lemma GoDigitsFacts()
    ensures |GoDigits| == 8 && NoGoDigit !in GoDigits
    ensures forall i, j :: 0 <= i < j < |GoDigits| ==> GoDigits[i] != GoDigits[j]
  {
  }

  /** A real block with enough trials: the no-go digits, then the go digits' layout. */
  lemma RealDigitArray(count: nat, noGoConfig: nat)
    requires count >= NoGoCount(noGoConfig)
    ensures var goCount := count - NoGoCount(noGoConfig);
            DigitArray(count, RealBlock, noGoConfig) ==
            Repeat(NoGoDigit, NoGoCount(noGoConfig)) + Layout(GoDigits, goCount / 8, goCount % 8)
  {
    GoDigitsFacts();
  }

  /** With fewer trials than no-go digits, the go quotas are negative and only the no-go digits are pushed. */
  lemma ShortRealBlock(count: nat, noGoConfig: nat)
    requires count < NoGoCount(noGoConfig)
    ensures DigitArray(count, RealBlock, noGoConfig) == Repeat(NoGoDigit, NoGoCount(noGoConfig))
  {
    GoDigitsFacts();
    var goCount := count - NoGoCount(noGoConfig);
    LayoutEmpty(GoDigits, goCount / 8, JsRem(goCount, 8));
  }

  lemma {:induction false} LayoutEmpty(ds: seq<int>, perCount: int, remainder: int)
    requires perCount < 0 && remainder <= 0
    ensures Layout(ds, perCount, remainder) == []
  {
    if ds != [] {
      LayoutEmpty(ds[..|ds| - 1], perCount, remainder);
    }
  }

  // ---------------------------------------------------------------------
  // Greedy no-repeat shuffle
  // ---------------------------------------------------------------------

  /**
   * A digit equals its predecessor only when it had no choice: every digit
   * still to be placed at that step (all of `s[k..]`) equals `s[k - 1]`.
   */
  ghost predicate RepeatsOnlyWhenForced(s: seq<int>) {
    forall k, j :: 1 <= k <= j < |s| && s[k] == s[k - 1] ==> s[j] == s[k - 1]
  }

  /** `remaining.filter(d => d !== lastDigit)`; with no last digit nothing is excluded. */
  function Available(remaining: seq<int>, lastDigit: Option<int>): seq<int> {
    if lastDigit.None? then remaining else FilterOut(remaining, lastDigit.value)
  }

  /** What the greedy pass keeps true of the digits placed and the digits left. */
  ghost predicate ForcedSoFar(shuffled: seq<int>, remaining: seq<int>) {
    && RepeatsOnlyWhenForced(shuffled)
    && forall i, d :: 1 <= i < |shuffled| && shuffled[i] == shuffled[i - 1] && d in remaining ==>
         d == shuffled[i - 1]
  }

  /** Placing a digit keeps `ForcedSoFar` when it differs from the last one or every digit left equals it. */
  lemma PlaceDigit(shuffled: seq<int>, remaining: seq<int>, index: nat)
    requires ForcedSoFar(shuffled, remaining)
    requires index < |remaining|
    requires shuffled != [] && remaining[index] == shuffled[|shuffled| - 1] ==>
               forall d :: d in remaining ==> d == remaining[index]
    ensures ForcedSoFar(shuffled + [remaining[index]], RemoveAt(remaining, index))
  {
    var s' := shuffled + [remaining[index]];
    var r' := RemoveAt(remaining, index);
    assert remaining[index] in remaining;
    forall k, j | 1 <= k <= j < |s'| && s'[k] == s'[k - 1]
      ensures s'[j] == s'[k - 1]
    {
      if j < |shuffled| {
        assert s'[j] == shuffled[j] && s'[k] == shuffled[k] && s'[k - 1] == shuffled[k - 1];
      } else if k < |shuffled| {
        assert s'[k] == shuffled[k] && s'[k - 1] == shuffled[k - 1];
      }
    }
    forall i, d | 1 <= i < |s'| && s'[i] == s'[i - 1] && d in r'
      ensures d == s'[i - 1]
    {
      assert d in remaining;
      if i < |shuffled| {
        assert s'[i] == shuffled[i] && s'[i - 1] == shuffled[i - 1];
      }
    }
  }

  /**
   * One step of the pass: the position in `remaining` of the digit taken.
   * It holds a digit other than the last one unless every digit left equals it.
   */
  method ChooseIndex(remaining: seq<int>, lastDigit: Option<int>, r: Unit) returns (index: nat)
    requires |remaining| > 0
    ensures index < |remaining|
    ensures lastDigit.Some? && remaining[index] == lastDigit.value ==>
              forall d :: d in remaining ==> d == lastDigit.value
  {
    var available := Available(remaining, lastDigit);
    if |available| == 0 {
      // No digit differs from the last one: use any.
      FilterOutEmpty(remaining, lastDigit.value);
      index := Pick(r, |remaining|);
    } else {
      var digit := available[Pick(r, |available|)];
      IndexOfFinds(remaining, digit);
      index := IndexOf(remaining, digit);
    }
  }

  /**
   * One greedy pass (js/sart.js:144-164): repeatedly take a random digit that
   * differs from the last one placed, or any digit when none differs.
   */
  method GreedyPass(digitArray: seq<int>, rng: Source, k0: nat) returns (shuffled: seq<int>, k: nat)
    ensures multiset(shuffled) == multiset(digitArray)
    ensures |shuffled| == |digitArray|
    ensures RepeatsOnlyWhenForced(shuffled)
    ensures k >= k0
  {
    var remaining := digitArray;
    shuffled := [];
    var lastDigit: Option<int> := None;
    k := k0;
    while |remaining| > 0
      invariant multiset(remaining) + multiset(shuffled) == multiset(digitArray)
      invariant lastDigit == if shuffled == [] then None else Some(shuffled[|shuffled| - 1])
      invariant ForcedSoFar(shuffled, remaining)
      invariant k >= k0
      decreases |remaining|
    {
      var index := ChooseIndex(remaining, lastDigit, rng(k));
      k := k + 1;
      var digit := remaining[index];
      PlaceDigit(shuffled, remaining, index);
      MoveDigit(shuffled, remaining, index);
      shuffled := shuffled + [digit];
      remaining := RemoveAt(remaining, index);
      lastDigit := Some(digit);
    }
    NothingRemaining(remaining, shuffled, digitArray);
  }

  /** Moving one digit from what remains to what was placed keeps the two together a permutation of the block. */
  lemma MoveDigit(shuffled: seq<int>, remaining: seq<int>, index: nat)
    requires index < |remaining|
    ensures multiset(RemoveAt(remaining, index)) + multiset(shuffled + [remaining[index]]) ==
            multiset(remaining) + multiset(shuffled)
    ensures |RemoveAt(remaining, index)| < |remaining|
  {
  }

  /** Once nothing remains, what was placed is a permutation of the block. */
  lemma NothingRemaining(remaining: seq<int>, shuffled: seq<int>, digitArray: seq<int>)
    requires multiset(remaining) + multiset(shuffled) == multiset(digitArray)
    requires |remaining| == 0
    ensures multiset(shuffled) == multiset(digitArray) && |shuffled| == |digitArray|
  {
    assert multiset(remaining) == multiset{};
    assert |multiset(shuffled)| == |multiset(digitArray)|;
  }

  /**
   * The bounded retry loop of js/sart.js:143-170. A pass always places every
   * digit, so the loop stops after its first pass (`passes` is 1, or 0 for an
   * empty block) and the attempt counter never moves.
   */
  method Shuffle(digitArray: seq<int>, rng: Source, k0: nat) returns (shuffled: seq<int>, k: nat, ghost passes: nat)
    ensures multiset(shuffled) == multiset(digitArray)
    ensures |shuffled| == |digitArray|
    ensures RepeatsOnlyWhenForced(shuffled)
    ensures passes == if digitArray == [] then 0 else 1
    ensures k >= k0
  {
    shuffled := [];
    k := k0;
    var attempts := 0;
    passes := 0;
    while |shuffled| < |digitArray| && attempts < MaxAttempts
      invariant attempts == 0 && passes <= 1 && k >= k0
      invariant passes == 0 ==> shuffled == []
      invariant passes == 1 ==> digitArray != [] && multiset(shuffled) == multiset(digitArray) &&
                                |shuffled| == |digitArray| && RepeatsOnlyWhenForced(shuffled)
      decreases |digitArray| - |shuffled|, MaxAttempts - attempts
    {
      shuffled, k := GreedyPass(digitArray, rng, k);
      passes := passes + 1;
      // `if (shuffled.length === digitArray.length) break;` -- the guard then fails as well.
      if |shuffled| != |digitArray| {
        attempts := attempts + 1;
      }
    }
  }

  // ---------------------------------------------------------------------
  // Trials
  // ---------------------------------------------------------------------

  /** The digits of a list of trials, in order. */
  function DigitsOf(trials: seq<Trial>): (ds: seq<int>)
    ensures |ds| == |trials|
    ensures forall i :: 0 <= i < |trials| ==> ds[i] == trials[i].digit
  {
    if trials == [] then [] else DigitsOf(trials[..|trials| - 1]) + [trials[|trials| - 1].digit]
  }

  /** The shape every generated trial has (js/sart.js:173-182). */
  ghost predicate WellFormedTrial(t: Trial, index: int) {
    && t.trialNumber == index + 1
    && (t.isGo <==> t.digit != NoGoDigit)
    && 1 <= t.fontSizeIndex <= |FontSizes|
    && t.fontSize == FontSizes[t.fontSizeIndex - 1]
  }

  /** Wraps each digit in a trial with a random font size. */
  method MakeTrials(shuffled: seq<int>, rng: Source, k0: nat) returns (trials: seq<Trial>, k: nat)
    ensures DigitsOf(trials) == shuffled
    ensures forall i :: 0 <= i < |trials| ==> WellFormedTrial(trials[i], i)
    ensures k >= k0
  {
    trials := [];
    k := k0;
    var index := 0;
    while index < |shuffled|
      invariant 0 <= index <= |shuffled| && |trials| == index && k >= k0
      invariant DigitsOf(trials) == shuffled[..index]
      invariant forall i :: 0 <= i < index ==> WellFormedTrial(trials[i], i)
    {
      var digit := shuffled[index];
      var fontSizeIndex := Pick(rng(k), |FontSizes|);
      k := k + 1;
      trials := trials + [Trial(digit, FontSizes[fontSizeIndex], fontSizeIndex + 1, digit != NoGoDigit, index + 1)];
      assert shuffled[..index + 1] == shuffled[..index] + [digit];
      index := index + 1;
    }
    assert shuffled[..index] == shuffled;
  }

  /**
   * `generateTrials(count, blockType)`: the quota digits, shuffled, one trial each.
   * The digits of the trials are a permutation of the quota digits, and a digit
   * repeats its predecessor only when every digit left had that value.
   */
  method GenerateTrials(count: nat, blockType: string, noGoConfig: nat, rng: Source) returns (trials: seq<Trial>)
    ensures multiset(DigitsOf(trials)) == multiset(DigitArray(count, blockType, noGoConfig))
    ensures |trials| == |DigitArray(count, blockType, noGoConfig)|
    ensures RepeatsOnlyWhenForced(DigitsOf(trials))
    ensures forall i :: 0 <= i < |trials| ==> WellFormedTrial(trials[i], i)
  {
    var digitArray := BuildDigitArray(count, blockType, noGoConfig);
    var shuffled, k, passes := Shuffle(digitArray, rng, 0);
    trials, k := MakeTrials(shuffled, rng, k);
  }

  // ---------------------------------------------------------------------
  // Response records and the task object
  // ---------------------------------------------------------------------

  /** The data point `recordResponse` appends for a trial (js/sart.js:405-424). */
  function TrialRecord(subjectId: string, currentBlock: string, trial: Trial, blockNumber: Option<int>,
                       responded: bool, reactionTime: Option<int>, now: int): (r: Record)
    ensures r.testName == SartName && r.trialNumber == trial.trialNumber
    ensures r.subjectId == subjectId && r.blockType == currentBlock && r.timestamp == now
    ensures r.stimulus == DigitStimulus(if trial.isGo then 1 else 0, trial.digit, trial.fontSizeIndex)
    ensures r.responseOutcome == 1 <==> responded == trial.isGo
    ensures r.responseOutcome == 0 <==> responded != trial.isGo
    ensures r.response == (if responded then 1 else 0)
    ensures currentBlock == PracticeBlock && blockNumber.None? ==> r.blockNumber == Some(0)
    ensures blockNumber.Some? && blockNumber.value > 0 ==> r.blockNumber == blockNumber
    ensures r.reactionTime.Some? <==> reactionTime.Some? && reactionTime.value != 0
    ensures reactionTime.Some? && reactionTime.value != 0 ==> r.reactionTime == reactionTime
  {
    MakeRecord(subjectId, SartName, currentBlock, blockNumber, trial.trialNumber,
               DigitStimulus(Flag(trial.isGo), trial.digit, trial.fontSizeIndex),
               trial.isGo, responded, reactionTime, now)
  }

  /** The record a trial run with this timeline writes. */
  function TrialOutcome(subjectId: string, currentBlock: string, trial: Trial, blockNumber: Option<int>,
                        t: Timeline, inputLag: int): Record
  {
    var r := Resolve(t, inputLag, SpaceBar);
    TrialRecord(subjectId, currentBlock, trial, blockNumber, r.responded, r.reactionTime, r.at)
  }

  /** How trial i of a block is recorded: its outcome on the block's i-th timeline. */
  function Outcome(subjectId: string, currentBlock: string, blockNumber: Option<int>,
                   timelines: nat -> Timeline, inputLag: int): (nat, Trial) -> Record
  {
    (i: nat, trial: Trial) => TrialOutcome(subjectId, currentBlock, trial, blockNumber, timelines(i), inputLag)
  }


  class SartTask {
    const subjectId: string
    var data: seq<Record>
    var currentBlock: string
    var currentTrial: nat
    var trials: seq<Trial>
    var responseStartTime: int
    var waitingForResponse: bool

    /** `currentBlock` starts as null; the empty string stands for it. */
    constructor (subjectId: string)
      ensures this.subjectId == subjectId && data == [] && trials == [] && currentBlock == ""
      ensures currentTrial == 0 && !waitingForResponse
    {
      this.subjectId := subjectId;
      data := [];
      currentBlock := "";
      currentTrial := 0;
      trials := [];
      responseStartTime := 0;
      waitingForResponse := false;
    }

    /** Appends exactly one data point. */
    method RecordResponse(trial: Trial, blockNumber: Option<int>, responded: bool, reactionTime: Option<int>, now: int)
      modifies this`data
      ensures data == old(data) + [TrialRecord(subjectId, currentBlock, trial, blockNumber, responded, reactionTime, now)]
    {
      data := data + [TrialRecord(subjectId, currentBlock, trial, blockNumber, responded, reactionTime, now)];
    }

    /**
     * `runTrial` (js/sart.js:241-372) as a state machine over the trial's
     * events. The window is open through the digit and the mask; the first
     * Space key-down with no key held and nothing recorded is the response;
     * at the end of the mask the window closes and, if nothing was recorded,
     * a no-response record is written. Exactly one record is appended.
     */
    method RunTrial(trial: Trial, blockNumber: Option<int>, t: Timeline, inputLag: int)
      modifies this`data, this`waitingForResponse, this`responseStartTime
      ensures data == old(data) + [TrialOutcome(subjectId, currentBlock, trial, blockNumber, t, inputLag)]
      ensures !waitingForResponse && responseStartTime == t.start
    {
      waitingForResponse := true;
      responseStartTime := t.start;
      var keyPressed := false;
      var responseRecorded := false;
      var i := 0;
      while i < |t.events|
        invariant 0 <= i <= |t.events|
        invariant waitingForResponse && responseStartTime == t.start
        invariant keyPressed ==> responseRecorded
        invariant responseRecorded <==> FirstPress(t.events[..i], SpaceBar).Some?
        invariant !responseRecorded ==> data == old(data)
        invariant responseRecorded ==>
                    data == old(data) + [TrialOutcome(subjectId, currentBlock, trial, blockNumber, t, inputLag)]
      {
        FirstPressSnoc(t.events, i, SpaceBar);
        match t.events[i] {
          case KeyDown(code, key, now) =>
            if Accepts(SpaceBar, code, key) && waitingForResponse && !keyPressed && !responseRecorded {
              keyPressed := true;
              responseRecorded := true;
              var reactionTime := LagCompensated(now, responseStartTime, inputLag);
              ResolveAtFirstPress(t, i, inputLag, SpaceBar);
              RecordResponse(trial, blockNumber, true, Some(reactionTime), now);
            }
          case KeyUp(code, key) =>
            if Accepts(SpaceBar, code, key) {
              keyPressed := false;
            }
          case StimulusOff =>
            // The mask replaces the digit; responses are still accepted.
        }
        i := i + 1;
      }
      assert t.events[..i] == t.events;
      // The mask timer fires: stop accepting responses and remove the listeners.
      waitingForResponse := false;
      if !responseRecorded {
        ResolveWithoutPress(t, inputLag, SpaceBar);
        RecordResponse(trial, blockNumber, false, None, t.end);
      }
    }

    /** `runBlock`: every trial of the current list in order, one record each. */
    method RunBlock(blockNumber: Option<int>, timelines: nat -> Timeline, inputLag: int)
      modifies this`data, this`waitingForResponse, this`responseStartTime, this`currentTrial
      ensures data == old(data) + BlockRecords(trials,
                                               Outcome(subjectId, currentBlock, blockNumber, timelines, inputLag))
      ensures trials != [] ==> !waitingForResponse
    {
      var ts := trials;
      var i := 0;
      while i < |ts|
        invariant 0 <= i <= |ts|
        invariant data == old(data) + BlockRecords(ts[..i],
                                                   Outcome(subjectId, currentBlock, blockNumber, timelines, inputLag))
        invariant i > 0 ==> !waitingForResponse
      {
        currentTrial := i;
        RunTrial(ts[i], blockNumber, timelines(i), inputLag);
        BlockRecordsExtend(ts, i, Outcome(subjectId, currentBlock, blockNumber, timelines, inputLag));
        i := i + 1;
      }
      assert ts[..i] == ts;
    }

    /** `runTrialBlock`: a practice block of `count` trials, numbered 0 in the data. */
    method RunTrialBlock(config: Config, env: Environment)
      modifies this`data, this`waitingForResponse, this`responseStartTime, this`currentTrial, this`currentBlock,
               this`trials
      ensures currentBlock == PracticeBlock
      ensures |trials| == config.trialTrials
      ensures forall i :: 0 <= i < |trials| ==> WellFormedTrial(trials[i], i)
      ensures multiset(DigitsOf(trials)) == multiset(DigitArray(config.trialTrials, PracticeBlock, config.noGoCount))
      ensures RepeatsOnlyWhenForced(DigitsOf(trials))
      ensures data == old(data) + BlockRecords(trials,
        Outcome(subjectId, PracticeBlock, None, env.timelines(0), config.inputLag))
    {
      currentBlock := PracticeBlock;
      currentTrial := 0;
      PracticeQuotas(config.trialTrials, config.noGoCount);
      trials := GenerateTrials(config.trialTrials, PracticeBlock, config.noGoCount, env.draws(0));
      RunBlock(None, env.timelines(0), config.inputLag);
    }

    /** `runRealBlock(blockNumber)`: a real block with the no-go quota. */
    method RunRealBlock(blockNumber: nat, config: Config, env: Environment)
      modifies this`data, this`waitingForResponse, this`responseStartTime, this`currentTrial, this`currentBlock,
               this`trials
      ensures currentBlock == RealBlock
      ensures config.realTrials >= NoGoCount(config.noGoCount) ==> |trials| == config.realTrials
      ensures forall i :: 0 <= i < |trials| ==> WellFormedTrial(trials[i], i)
      ensures multiset(DigitsOf(trials)) == multiset(DigitArray(config.realTrials, RealBlock, config.noGoCount))
      ensures RepeatsOnlyWhenForced(DigitsOf(trials))
      ensures data == old(data) + BlockRecords(trials,
        Outcome(subjectId, RealBlock, Some(blockNumber), env.timelines(blockNumber),
                config.inputLag))
    {
      currentBlock := RealBlock;
      currentTrial := 0;
      if config.realTrials >= NoGoCount(config.noGoCount) {
        RealLength(config.realTrials, config.noGoCount);
      }
      trials := GenerateTrials(config.realTrials, RealBlock, config.noGoCount, env.draws(blockNumber));
      RunBlock(Some(blockNumber), env.timelines(blockNumber), config.inputLag);
    }

    /**
     * `start` (js/sart.js:17-23): one practice block of `trialTrials` trials,
     * then real block 1; the whole log is handed to the completion callback.
     */
    method Start(config: Config, env: Environment) returns (delivered: seq<Record>)
      modifies this`data, this`waitingForResponse, this`responseStartTime, this`currentTrial, this`currentBlock,
               this`trials
      ensures delivered == data
      ensures exists practice, main :: data == old(data) + practice + main && SessionShape(practice, main, config)
    {
      RunTrialBlock(config, env);
      ghost var practice := BlockRecords(trials,
                                         Outcome(subjectId, PracticeBlock, None, env.timelines(0), config.inputLag));
      BlockTags(subjectId, PracticeBlock, trials, None, env.timelines(0), config.inputLag);
      RunRealBlock(1, config, env);
      ghost var main := BlockRecords(trials,
                                     Outcome(subjectId, RealBlock, Some(1), env.timelines(1), config.inputLag));
      BlockTags(subjectId, RealBlock, trials, Some(1), env.timelines(1), config.inputLag);
      delivered := data;
    }
  }

  /** Records numbered 1..n in order. */
  ghost predicate NumberedInOrder(records: seq<Record>) {
    forall i :: 0 <= i < |records| ==> records[i].trialNumber == i + 1
  }

  /** What a finished task hands over: practice records (block 0) followed by real block 1. */
  ghost predicate SessionShape(practice: seq<Record>, main: seq<Record>, config: Config) {
    && |practice| == config.trialTrials
    && (config.realTrials >= NoGoCount(config.noGoCount) ==> |main| == config.realTrials)
    && AllTagged(practice, SartName, PracticeBlock, Some(0))
    && AllTagged(main, SartName, RealBlock, Some(1))
    && NumberedInOrder(practice) && NumberedInOrder(main)
    && multiset(RecordDigits(practice)) == multiset(DigitArray(config.trialTrials, PracticeBlock, config.noGoCount))
    && multiset(RecordDigits(main)) == multiset(DigitArray(config.realTrials, RealBlock, config.noGoCount))
    && RepeatsOnlyWhenForced(RecordDigits(practice)) && RepeatsOnlyWhenForced(RecordDigits(main))
  }

  /** The digits a block's data points show, in order. */
  ghost function RecordDigits(records: seq<Record>): seq<int> {
    seq(|records|, i requires 0 <= i < |records| =>
      if records[i].stimulus.DigitStimulus? then records[i].stimulus.digit else 0)
  }

  /** The records of a block carry the block's tags, the trials' numbers and the trials' digits. */
  lemma BlockTags(subjectId: string, currentBlock: string, trials: seq<Trial>, blockNumber: Option<int>,
                  timelines: nat -> Timeline, inputLag: int)
    requires currentBlock == PracticeBlock ==> blockNumber.None?
    requires currentBlock != PracticeBlock ==> blockNumber.Some? && blockNumber.value > 0
    requires forall i :: 0 <= i < |trials| ==> WellFormedTrial(trials[i], i)
    ensures var rs := BlockRecords(trials, Outcome(subjectId, currentBlock, blockNumber, timelines, inputLag));
            && AllTagged(rs, SartName, currentBlock, if currentBlock == PracticeBlock then Some(0) else blockNumber)
            && NumberedInOrder(rs)
            && RecordDigits(rs) == DigitsOf(trials)
  {
    var rs := BlockRecords(trials, Outcome(subjectId, currentBlock, blockNumber, timelines, inputLag));
    var tag := if currentBlock == PracticeBlock then Some(0) else blockNumber;
    forall i | 0 <= i < |rs|
      ensures rs[i].testName == SartName && rs[i].blockType == currentBlock && rs[i].blockNumber == tag
      ensures rs[i].trialNumber == i + 1 && RecordDigits(rs)[i] == DigitsOf(trials)[i]
    {
      assert rs[i] == TrialOutcome(subjectId, currentBlock, trials[i], blockNumber, timelines(i), inputLag);
      OutcomeTags(subjectId, currentBlock, trials[i], i, blockNumber, timelines(i), inputLag);
    }
  }

  /** The record of one well-formed trial, whatever its timeline: tags, number and digit. */
  lemma OutcomeTags(subjectId: string, currentBlock: string, trial: Trial, index: nat, blockNumber: Option<int>,
                    t: Timeline, inputLag: int)
    requires WellFormedTrial(trial, index)
    ensures var r := TrialOutcome(subjectId, currentBlock, trial, blockNumber, t, inputLag);
            && r.testName == SartName && r.blockType == currentBlock
            && (currentBlock == PracticeBlock && blockNumber.None? ==> r.blockNumber == Some(0))
            && (blockNumber.Some? && blockNumber.value > 0 ==> r.blockNumber == blockNumber)
            && r.trialNumber == index + 1
            && r.stimulus.DigitStimulus? && r.stimulus.digit == trial.digit
  {
  }
}
