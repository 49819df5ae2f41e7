/**
 * The 3-back letter task (js/nback.js): letter sequences with an exact
 * number of 3-back matches, the per-trial response window for the M key,
 * the letter coding of the data points, and the practice-then-two-real
 * block sequence.
 */
module NBack {
  import opened Wrappers
  import opened Seqs
  import opened Random
  import opened Records
  import opened Events

  /** The fifteen letters shown, in the order that defines their codes 1..15. */
  const Letters: seq<char> := ['A', 'B', 'C', 'D', 'E', 'H', 'I', 'K', 'L', 'M', 'O', 'P', 'R', 'S', 'T']

  /** The task is 3-back. */
  const N: nat := 3

  /** A trial that may still become a match is made one with this probability. */
  const MatchProbability: real := 0.4

  /** One stimulus of a block, as `generateTrials` builds it; `nbackK` is null for the first K trials. */
  datatype Trial = Trial(letter: char, isMatch: bool, trialNumber: int,
                         nback1: Option<char>, nback2: Option<char>, nback3: Option<char>)

  /** What config.js supplies to the task. */
  datatype Config = Config(trialTrials: nat, realTrials: nat, matchCount: nat, inputLag: int)

  lemma LettersDistinct()
    ensures |Letters| == 15
    ensures forall i, j :: 0 <= i < j < |Letters| ==> Letters[i] != Letters[j]
  {
  }

  // ---------------------------------------------------------------------
  // Generation
  // ---------------------------------------------------------------------

  /** Position `i` repeats the letter `N` positions before it. */
  predicate IsMatchAt(s: seq<char>, i: int) {
    N <= i < |s| && s[i] == s[i - N]
  }

  /** The number of 3-back matches in a letter sequence. */
  function Matches(s: seq<char>): nat {
    if s == [] then 0
    else Matches(s[..|s| - 1]) + (if IsMatchAt(s, |s| - 1) then 1 else 0)
  }

  /** `Math.min(matchCount, count - n)`: how many matches a block of `count` letters is built to hold. */
  function TargetMatches(count: nat, matchCount: nat): int {
    if matchCount < count - N then matchCount else count - N
  }

  /** The number of matches `generateTrials` promises: the target, or none when the block is shorter than `N`. */
  function PromisedMatches(count: nat, matchCount: nat): (m: nat)
    ensures m <= matchCount
    ensures count >= N ==> m + N <= count
    ensures count >= N + matchCount ==> m == matchCount
  {
    if count < N then 0 else TargetMatches(count, matchCount)
  }

  lemma MatchesSnoc(s: seq<char>, c: char)
    ensures Matches(s + [c]) == Matches(s) + (if |s| >= N && c == s[|s| - N] then 1 else 0)
  {
    var t := s + [c];
    assert t[..|t| - 1] == s;
    assert IsMatchAt(t, |t| - 1) <==> |s| >= N && c == s[|s| - N] by {
      if |s| >= N {
        assert t[|s| - N] == s[|s| - N];
      }
    }
  }

  /**
   * `c` is a letter of the alphabet, stated by its position; equivalent to
   * `c in Letters` (see `IsLetterIsMember`) but cheaper for the solver than
   * comparing against all fifteen letters.
   */
  predicate IsLetter(c: char) {
    exists i :: 0 <= i < |Letters| && Letters[i] == c
  }

  lemma IsLetterIsMember(c: char)
    ensures IsLetter(c) <==> c in Letters
  {
  }

  /** A letter drawn uniformly from the alphabet. */
  function AnyLetter(u: Unit): (c: char)
    ensures IsLetter(c)
  {
    var p := Pick(u, |Letters|);
    assert Letters[p] == Letters[p];
    Letters[p]
  }

  /** A letter drawn uniformly from the alphabet without `previous`: never `previous` itself. */
  function OtherLetter(u: Unit, previous: char): (c: char)
    requires IsLetter(previous)
    ensures IsLetter(c) && c != previous
  {
    IsLetterIsMember(previous);
    LettersDistinct();
    FilterOutDistinct(Letters, previous);
    var available := FilterOut(Letters, previous);
    var c := available[Pick(u, |available|)];
    assert c in available;
    IsLetterIsMember(c);
    c
  }

  /**
   * One letter after the first `N` (js/nback.js:129-164): a match is forced
   * when matches are still needed and every remaining position must be one,
   * tried with probability 0.4 when matches are still needed, and otherwise
   * a letter other than `previous` is drawn.
   */
  method NextLetter(previous: char, remainingPossibleMatches: nat, generated: nat, target: int, rng: Source, k0: nat)
    returns (letter: char, matched: bool, k: nat)
    requires IsLetter(previous)
    ensures IsLetter(letter)
    ensures matched <==> letter == previous
    ensures matched ==> generated < target
    ensures generated < target && remainingPossibleMatches <= target - generated ==> matched
    ensures k >= k0
  {
    k := k0;
    var matchesStillNeeded := target - generated;
    var needsMoreMatches := generated < target;
    var isLastChance := remainingPossibleMatches <= matchesStillNeeded;
    var shouldTryMatch := false;
    if needsMoreMatches {
      if isLastChance {
        shouldTryMatch := true;
      } else if matchesStillNeeded > 0 {
        shouldTryMatch := rng(k) < MatchProbability;
        k := k + 1;
      }
    }
    if shouldTryMatch {
      letter := previous;
    } else {
      letter := OtherLetter(rng(k), previous);
      k := k + 1;
    }
    matched := shouldTryMatch;
  }

  /**
   * The letter loop of `generateTrials` (js/nback.js:121-168). The first `N`
   * letters are drawn freely. Later, a match is forced when matches are
   * still needed and either every remaining position must be one or a draw
   * falls below 0.4; otherwise a letter other than the one `N` back is
   * drawn. The draw for the 0.4 test is only taken when the short-circuit
   * reaches it.
   */
  method GenerateLetters(count: nat, matchCount: nat, rng: Source, k0: nat) returns (letters: seq<char>, k: nat)
    ensures |letters| == count
    ensures forall i :: 0 <= i < count ==> IsLetter(letters[i])
    ensures Matches(letters) == PromisedMatches(count, matchCount)
    ensures k >= k0
  {
    var target := TargetMatches(count, matchCount);
    var generated: nat := 0;
    letters := [];
    k := k0;
    var i := 0;
    while i < count
      invariant 0 <= i <= count && |letters| == i && k >= k0
      invariant forall j :: 0 <= j < i ==> IsLetter(letters[j])
      invariant generated == Matches(letters)
      invariant i <= N ==> generated == 0
      invariant i >= N ==> generated <= target && target - generated <= count - i
    {
      var letter: char;
      if i < N {
        letter := AnyLetter(rng(k));
        k := k + 1;
      } else {
        var matched;
        letter, matched, k := NextLetter(letters[i - N], count - i, generated, target, rng, k);
        if matched {
          generated := generated + 1;
        }
      }
      MatchesSnoc(letters, letter);
      letters := letters + [letter];
      i := i + 1;
    }
  }

  /** Trial `i` of a block built from `letters`. */
  function TrialAt(letters: seq<char>, i: nat): Trial
    requires i < |letters|
  {
    Trial(letters[i], IsMatchAt(letters, i), i + 1,
          if i >= 1 then Some(letters[i - 1]) else None,
          if i >= 2 then Some(letters[i - 2]) else None,
          if i >= 3 then Some(letters[i - 3]) else None)
  }

  /**
   * The trial loop of `generateTrials` (js/nback.js:170-186): each letter
   * with its three predecessors and the recomputed match flag.
   */
  method BuildTrials(letters: seq<char>) returns (trials: seq<Trial>)
    ensures |trials| == |letters|
    ensures forall i :: 0 <= i < |trials| ==> trials[i] == TrialAt(letters, i)
  {
    trials := [];
    var i := 0;
    while i < |letters|
      invariant 0 <= i <= |letters| && |trials| == i
      invariant forall j :: 0 <= j < i ==> trials[j] == TrialAt(letters, j)
    {
      var letter := letters[i];
      var nback1 := if i >= 1 then Some(letters[i - 1]) else None;
      var nback2 := if i >= 2 then Some(letters[i - 2]) else None;
      var nback3 := if i >= 3 then Some(letters[i - 3]) else None;
      var isMatch := i >= N && letter == letters[i - N];
      trials := trials + [Trial(letter, isMatch, i + 1, nback1, nback2, nback3)];
      i := i + 1;
    }
  }

  /** Trials built from alphabet letters are well formed and agree with their neighbours. */
  lemma BuiltTrials(letters: seq<char>, trials: seq<Trial>)
    requires forall i :: 0 <= i < |letters| ==> IsLetter(letters[i])
    requires |trials| == |letters|
    requires forall i :: 0 <= i < |trials| ==> trials[i] == TrialAt(letters, i)
    ensures forall i :: 0 <= i < |trials| ==> WellFormedTrial(trials[i], i)
    ensures forall i :: 0 <= i < |trials| ==> (trials[i].isMatch <==> IsMatchAt(letters, i))
    ensures Chained(trials)
  {
    forall i | 0 <= i < |trials|
      ensures WellFormedTrial(trials[i], i) && (trials[i].isMatch <==> IsMatchAt(letters, i))
    {
      assert trials[i] == TrialAt(letters, i);
    }
    forall i | 1 <= i < |trials|
      ensures && trials[i].nback1 == Some(trials[i - 1].letter)
              && trials[i].nback2 == trials[i - 1].nback1
              && trials[i].nback3 == trials[i - 1].nback2
    {
      assert trials[i] == TrialAt(letters, i) && trials[i - 1] == TrialAt(letters, i - 1);
    }
  }

  /** The number of trials flagged as matches (`trials.filter(t => t.isMatch).length`). */
  function CountMatches(trials: seq<Trial>): nat {
    if trials == [] then 0
    else CountMatches(trials[..|trials| - 1]) + (if trials[|trials| - 1].isMatch then 1 else 0)
  }

  /** Flagged trials and 3-back matches of the letters are the same count. */
  lemma {:induction false} CountMatchesOfLetters(trials: seq<Trial>, letters: seq<char>)
    requires |trials| == |letters|
    requires forall i :: 0 <= i < |trials| ==> (trials[i].isMatch <==> IsMatchAt(letters, i))
    ensures CountMatches(trials) == Matches(letters)
  {
    if trials != [] {
      var n := |trials| - 1;
      var front := letters[..n];
      forall i | 0 <= i < n
        ensures trials[..n][i].isMatch <==> IsMatchAt(front, i)
      {
        assert IsMatchAt(front, i) <==> IsMatchAt(letters, i);
      }
      CountMatchesOfLetters(trials[..n], front);
    }
  }

  /** A trial is a match exactly when its letter is the one three back. */
  predicate WellFormedTrial(t: Trial, index: int) {
    && t.trialNumber == index + 1
    && IsLetter(t.letter)
    && (t.isMatch <==> t.nback3 == Some(t.letter))
    && (t.nback1.None? <==> index < 1)
    && (t.nback2.None? <==> index < 2)
    && (t.nback3.None? <==> index < 3)
  }

  /** Consecutive trials agree on the letters they share. */
  ghost predicate Chained(trials: seq<Trial>) {
    forall i :: 1 <= i < |trials| ==>
      && trials[i].nback1 == Some(trials[i - 1].letter)
      && trials[i].nback2 == trials[i - 1].nback1
      && trials[i].nback3 == trials[i - 1].nback2
  }

  /** `generateTrials(count, blockType)`: `count` letters with exactly the promised number of matches. */
  method GenerateTrials(count: nat, matchCount: nat, rng: Source) returns (trials: seq<Trial>)
    ensures |trials| == count
    ensures forall i :: 0 <= i < |trials| ==> WellFormedTrial(trials[i], i)
    ensures Chained(trials)
    ensures CountMatches(trials) == PromisedMatches(count, matchCount)
  {
    var letters, _ := GenerateLetters(count, matchCount, rng, 0);
    trials := BuildTrials(letters);
    BuiltTrials(letters, trials);
    CountMatchesOfLetters(trials, letters);
  }

  // ---------------------------------------------------------------------
  // Response records and the task object
  // ---------------------------------------------------------------------

  /** `letterToNumber`: null stays null, a letter becomes its 1-based position in the alphabet. */
  function LetterCode(letter: Option<char>): (code: Option<int>)
    ensures letter.None? <==> code.None?
  {
    match letter
    case None => None
    case Some(c) => Some(IndexOf(Letters, c) + 1)
  }

  /** A letter of the alphabet is coded by its 1-based position; any other character by 0. */
  lemma LetterCodePosition(c: char)
    ensures c in Letters ==> 1 <= LetterCode(Some(c)).value <= |Letters| && Letters[LetterCode(Some(c)).value - 1] == c
    ensures c !in Letters ==> LetterCode(Some(c)) == Some(0)
  {
    IndexOfFinds(Letters, c);
  }

  /** The inverse of `LetterCode` on the alphabet. */
  function LetterOfCode(code: Option<int>): Option<char> {
    match code
    case Some(n) => if 1 <= n <= |Letters| then Some(Letters[n - 1]) else None
    case None => None
  }

  /** Letter codes lose nothing: the letter can be read back from its code. */
  lemma LetterCodeRoundTrip(letter: Option<char>)
    requires letter.Some? ==> letter.value in Letters
    ensures LetterOfCode(LetterCode(letter)) == letter
  {
    if letter.Some? {
      LetterCodePosition(letter.value);
    }
  }

  /** Distinct letters get distinct codes. */
  lemma {:induction false} LetterCodeInjective(a: char, b: char)
    requires a in Letters && b in Letters && a != b
    ensures LetterCode(Some(a)) != LetterCode(Some(b))
  {
    LetterCodeRoundTrip(Some(a));
    LetterCodeRoundTrip(Some(b));
  }

  /** The data point `recordResponse` appends for a trial (js/nback.js:428-456). */
  function TrialRecord(subjectId: string, currentBlock: string, trial: Trial, blockNumber: Option<int>,
                       responded: bool, reactionTime: Option<int>, now: int): Record
  {
    MakeRecord(subjectId, NBackName, currentBlock, blockNumber, trial.trialNumber,
               LetterStimulus(LetterCode(Some(trial.letter)), LetterCode(trial.nback1), LetterCode(trial.nback2),
                              LetterCode(trial.nback3), Flag(trial.isMatch)),
               trial.isMatch, responded, reactionTime, now)
  }

  /** What the N-back data point holds: letter codes, the match flag, the outcome and the tags. */
  lemma TrialRecordFields(subjectId: string, currentBlock: string, trial: Trial, blockNumber: Option<int>,
                          responded: bool, reactionTime: Option<int>, now: int)
    ensures var r := TrialRecord(subjectId, currentBlock, trial, blockNumber, responded, reactionTime, now);
            && r.testName == NBackName && r.trialNumber == trial.trialNumber
            && r.subjectId == subjectId && r.blockType == currentBlock
            && r.stimulus.LetterStimulus? && r.stimulus.isMatch == (if trial.isMatch then 1 else 0)
            && r.stimulus.currentLetter == LetterCode(Some(trial.letter))
            && r.stimulus.nback1 == LetterCode(trial.nback1)
            && r.stimulus.nback2 == LetterCode(trial.nback2)
            && r.stimulus.nback3 == LetterCode(trial.nback3)
            && (r.responseOutcome == 1 <==> responded == trial.isMatch)
            && (r.responseOutcome == 0 <==> responded != trial.isMatch)
            && r.response == (if responded then 1 else 0)
            && (currentBlock == PracticeBlock && blockNumber.None? ==> r.blockNumber == Some(0))
            && (blockNumber.Some? && blockNumber.value > 0 ==> r.blockNumber == blockNumber)
            && (r.reactionTime.Some? <==> reactionTime.Some? && reactionTime.value != 0)
            && (reactionTime.Some? && reactionTime.value != 0 ==> r.reactionTime == reactionTime)
            && r.timestamp == now
  {
  }

  /** The record a trial run with this timeline writes. */
  function TrialOutcome(subjectId: string, currentBlock: string, trial: Trial, blockNumber: Option<int>,
                        t: Timeline, inputLag: int): Record
  {
    var r := Resolve(t, inputLag, LetterM);
    TrialRecord(subjectId, currentBlock, trial, blockNumber, r.responded, r.reactionTime, r.at)
  }

  /** How trial i of a block is recorded: its outcome on the block's i-th timeline. */
  function Outcome(subjectId: string, currentBlock: string, blockNumber: Option<int>,
                   timelines: nat -> Timeline, inputLag: int): (nat, Trial) -> Record
  {
    (i: nat, trial: Trial) => TrialOutcome(subjectId, currentBlock, trial, blockNumber, timelines(i), inputLag)
  }


  class NBackTask {
    const subjectId: string
    var data: seq<Record>
    var currentBlock: string
    var currentTrial: nat
    var trials: seq<Trial>
    var responseStartTime: int
    var waitingForResponse: bool
    var letterHistory: seq<char>

    /** `currentBlock` starts as null; the empty string stands for it. */
    constructor (subjectId: string)
      ensures this.subjectId == subjectId && data == [] && trials == [] && currentBlock == ""
      ensures currentTrial == 0 && !waitingForResponse && letterHistory == []
    {
      this.subjectId := subjectId;
      data := [];
      currentBlock := "";
      currentTrial := 0;
      trials := [];
      responseStartTime := 0;
      waitingForResponse := false;
      letterHistory := [];
    }

    /** Appends exactly one data point. */
    method RecordResponse(trial: Trial, blockNumber: Option<int>, responded: bool, reactionTime: Option<int>, now: int)
      modifies this`data
      ensures data == old(data) + [TrialRecord(subjectId, currentBlock, trial, blockNumber, responded, reactionTime, now)]
    {
      data := data + [TrialRecord(subjectId, currentBlock, trial, blockNumber, responded, reactionTime, now)];
    }

    /**
     * `runTrial` (js/nback.js:253-398) as a state machine over the trial's
     * events. The first M key-down is the response; it closes the window and
     * removes both listeners at once. The end of the letter phase does not
     * close the window, so a press during the blank screen still counts.
     * When the blank screen ends with nothing recorded, a no-response record
     * is written. Exactly one record is appended.
     */
    method RunTrial(trial: Trial, blockNumber: Option<int>, t: Timeline, inputLag: int)
      modifies this`data, this`waitingForResponse, this`responseStartTime
      ensures data == old(data) + [TrialOutcome(subjectId, currentBlock, trial, blockNumber, t, inputLag)]
      ensures !waitingForResponse && responseStartTime == t.start
    {
      waitingForResponse := true;
      responseStartTime := t.start;
      var keyPressed := false;
      var responseRecorded := false;
      var listening := true;
      var i := 0;
      while i < |t.events|
        invariant 0 <= i <= |t.events|
        invariant responseStartTime == t.start
        invariant listening <==> !responseRecorded
        invariant waitingForResponse <==> !responseRecorded
        invariant keyPressed ==> responseRecorded
        invariant responseRecorded <==> FirstPress(t.events[..i], LetterM).Some?
        invariant !responseRecorded ==> data == old(data)
        invariant responseRecorded ==>
                    data == old(data) + [TrialOutcome(subjectId, currentBlock, trial, blockNumber, t, inputLag)]
      {
        FirstPressSnoc(t.events, i, LetterM);
        if listening {
          match t.events[i] {
            case KeyDown(code, key, now) =>
              if Accepts(LetterM, code, key) && waitingForResponse && !keyPressed && !responseRecorded {
                keyPressed := true;
                responseRecorded := true;
                var reactionTime := LagCompensated(now, responseStartTime, inputLag);
                waitingForResponse := false;
                ResolveAtFirstPress(t, i, inputLag, LetterM);
                RecordResponse(trial, blockNumber, true, Some(reactionTime), now);
                listening := false;
              }
            case KeyUp(code, key) =>
              if Accepts(LetterM, code, key) {
                keyPressed := false;
              }
            case StimulusOff =>
              // The blank screen replaces the letter; the listeners stay.
          }
        }
        i := i + 1;
      }
      assert t.events[..i] == t.events;
      // The blank-screen timer fires.
      waitingForResponse := false;
      listening := false;
      if !responseRecorded {
        ResolveWithoutPress(t, inputLag, LetterM);
        RecordResponse(trial, blockNumber, false, None, t.end);
      }
    }

    /** `runBlock`: every trial of the current list in order, one record each. */
    method RunBlock(blockNumber: Option<int>, timelines: nat -> Timeline, inputLag: int)
      modifies this`data, this`waitingForResponse, this`responseStartTime, this`currentTrial
      ensures data == old(data) + BlockRecords(trials,
                                               Outcome(subjectId, currentBlock, blockNumber, timelines, inputLag))
      ensures trials != [] ==> !waitingForResponse
    {
      var ts := trials;
      var i := 0;
      while i < |ts|
        invariant 0 <= i <= |ts|
        invariant data == old(data) + BlockRecords(ts[..i],
                                                   Outcome(subjectId, currentBlock, blockNumber, timelines, inputLag))
        invariant i > 0 ==> !waitingForResponse
      {
        currentTrial := i;
        RunTrial(ts[i], blockNumber, timelines(i), inputLag);
        BlockRecordsExtend(ts, i, Outcome(subjectId, currentBlock, blockNumber, timelines, inputLag));
        i := i + 1;
      }
      assert ts[..i] == ts;
    }

    /** `runTrialBlock`: a practice block of `trialTrials` letters, numbered 0 in the data. */
    method RunTrialBlock(config: Config, env: Environment)
      modifies this`data, this`waitingForResponse, this`responseStartTime, this`currentTrial, this`currentBlock,
               this`trials, this`letterHistory
      ensures currentBlock == PracticeBlock && letterHistory == []
      ensures |trials| == config.trialTrials
      ensures forall i :: 0 <= i < |trials| ==> WellFormedTrial(trials[i], i)
      ensures CountMatches(trials) == PromisedMatches(config.trialTrials, config.matchCount)
      ensures data == old(data) + BlockRecords(trials,
        Outcome(subjectId, PracticeBlock, None, env.timelines(0), config.inputLag))
    {
      currentBlock := PracticeBlock;
      currentTrial := 0;
      letterHistory := [];
      trials := GenerateTrials(config.trialTrials, config.matchCount, env.draws(0));
      RunBlock(None, env.timelines(0), config.inputLag);
    }

    /** `runRealBlock(blockNumber)`: a real block of `realTrials` letters. */
    method RunRealBlock(blockNumber: nat, config: Config, env: Environment)
      modifies this`data, this`waitingForResponse, this`responseStartTime, this`currentTrial, this`currentBlock,
               this`trials, this`letterHistory
      ensures currentBlock == RealBlock && letterHistory == []
      ensures |trials| == config.realTrials
      ensures forall i :: 0 <= i < |trials| ==> WellFormedTrial(trials[i], i)
      ensures CountMatches(trials) == PromisedMatches(config.realTrials, config.matchCount)
      ensures data == old(data) + BlockRecords(trials,
        Outcome(subjectId, RealBlock, Some(blockNumber), env.timelines(blockNumber),
                config.inputLag))
    {
      currentBlock := RealBlock;
      currentTrial := 0;
      letterHistory := [];
      trials := GenerateTrials(config.realTrials, config.matchCount, env.draws(blockNumber));
      RunBlock(Some(blockNumber), env.timelines(blockNumber), config.inputLag);
    }

    /**
     * `start` (js/nback.js:33-40): the practice block, then real blocks 1
     * and 2; the whole log is handed to the completion callback.
     */
    method Start(config: Config, env: Environment) returns (delivered: seq<Record>)
      modifies this`data, this`waitingForResponse, this`responseStartTime, this`currentTrial, this`currentBlock,
               this`trials, this`letterHistory
      ensures delivered == data
      ensures exists practice, first, second :: data == old(data) + practice + first + second &&
                SessionShape(practice, first, second, config)
    {
      RunTrialBlock(config, env);
      ghost var practice := BlockRecords(trials,
                                         Outcome(subjectId, PracticeBlock, None, env.timelines(0), config.inputLag));
      BlockTags(subjectId, PracticeBlock, trials, None, env.timelines(0), config.inputLag);
      RunRealBlock(1, config, env);
      ghost var first := BlockRecords(trials,
                                      Outcome(subjectId, RealBlock, Some(1), env.timelines(1), config.inputLag));
      BlockTags(subjectId, RealBlock, trials, Some(1), env.timelines(1), config.inputLag);
      RunRealBlock(2, config, env);
      ghost var second := BlockRecords(trials,
                                       Outcome(subjectId, RealBlock, Some(2), env.timelines(2), config.inputLag));
      BlockTags(subjectId, RealBlock, trials, Some(2), env.timelines(2), config.inputLag);
      delivered := data;
    }
  }

  /** Records numbered 1..n in order, each with a letter code in 1..15. */
  ghost predicate NumberedInOrder(records: seq<Record>) {
    forall i :: 0 <= i < |records| ==>
      records[i].trialNumber == i + 1 && records[i].stimulus.LetterStimulus? &&
      records[i].stimulus.currentLetter.Some? && 1 <= records[i].stimulus.currentLetter.value <= |Letters|
  }

  /** What a finished task hands over: the practice block (block 0) followed by real blocks 1 and 2. */
  ghost predicate SessionShape(practice: seq<Record>, first: seq<Record>, second: seq<Record>, config: Config) {
    && |practice| == config.trialTrials
    && |first| == config.realTrials && |second| == config.realTrials
    && AllTagged(practice, NBackName, PracticeBlock, Some(0))
    && AllTagged(first, NBackName, RealBlock, Some(1))
    && AllTagged(second, NBackName, RealBlock, Some(2))
    && NumberedInOrder(practice) && NumberedInOrder(first) && NumberedInOrder(second)
    && FlaggedMatches(practice) == PromisedMatches(config.trialTrials, config.matchCount)
    && FlaggedMatches(first) == PromisedMatches(config.realTrials, config.matchCount)
    && FlaggedMatches(second) == PromisedMatches(config.realTrials, config.matchCount)
  }

  /** The number of data points whose stimulus is flagged `isMatch: 1`. */
  ghost function FlaggedMatches(records: seq<Record>): nat {
    if records == [] then 0
    else
      var last := records[|records| - 1];
      var flagged := last.stimulus.LetterStimulus? && last.stimulus.isMatch == 1;
      FlaggedMatches(records[..|records| - 1]) + (if flagged then 1 else 0)
  }

  /** Records that flag exactly the match trials count as many matches as the trials. */
  lemma {:induction false} FlaggedMatchesOfTrials(records: seq<Record>, trials: seq<Trial>)
    requires |records| == |trials|
    requires forall i :: 0 <= i < |records| ==>
               records[i].stimulus.LetterStimulus? && (records[i].stimulus.isMatch == 1 <==> trials[i].isMatch)
    ensures FlaggedMatches(records) == CountMatches(trials)
  {
    if records != [] {
      var n := |records| - 1;
      FlaggedMatchesOfTrials(records[..n], trials[..n]);
    }
  }

  /** The records of a block carry the block's tags and the trials' numbers. */
  lemma BlockTags(subjectId: string, currentBlock: string, trials: seq<Trial>, blockNumber: Option<int>,
                  timelines: nat -> Timeline, inputLag: int)
    requires currentBlock == PracticeBlock ==> blockNumber.None?
    requires currentBlock != PracticeBlock ==> blockNumber.Some? && blockNumber.value > 0
    requires forall i :: 0 <= i < |trials| ==> WellFormedTrial(trials[i], i)
    ensures var rs := BlockRecords(trials, Outcome(subjectId, currentBlock, blockNumber, timelines, inputLag));
            && AllTagged(rs, NBackName, currentBlock, if currentBlock == PracticeBlock then Some(0) else blockNumber)
            && NumberedInOrder(rs)
            && FlaggedMatches(rs) == CountMatches(trials)
  {
    var rs := BlockRecords(trials, Outcome(subjectId, currentBlock, blockNumber, timelines, inputLag));
    var tag := if currentBlock == PracticeBlock then Some(0) else blockNumber;
    forall i | 0 <= i < |rs|
      ensures rs[i].testName == NBackName && rs[i].blockType == currentBlock && rs[i].blockNumber == tag
      ensures rs[i].trialNumber == i + 1 && rs[i].stimulus.LetterStimulus?
      ensures rs[i].stimulus.currentLetter.Some? && 1 <= rs[i].stimulus.currentLetter.value <= |Letters|
      ensures rs[i].stimulus.isMatch == 1 <==> trials[i].isMatch
    {
      assert rs[i] == TrialOutcome(subjectId, currentBlock, trials[i], blockNumber, timelines(i), inputLag);
      OutcomeTags(subjectId, currentBlock, trials[i], i, blockNumber, timelines(i), inputLag);
    }
    FlaggedMatchesOfTrials(rs, trials);
  }

  /** The record of one well-formed trial, whatever its timeline: tags, number, letter code and match flag. */
  lemma OutcomeTags(subjectId: string, currentBlock: string, trial: Trial, index: nat, blockNumber: Option<int>,
                    t: Timeline, inputLag: int)
    requires WellFormedTrial(trial, index)
    ensures var r := TrialOutcome(subjectId, currentBlock, trial, blockNumber, t, inputLag);
            && r.testName == NBackName && r.blockType == currentBlock
            && (currentBlock == PracticeBlock && blockNumber.None? ==> r.blockNumber == Some(0))
            && (blockNumber.Some? && blockNumber.value > 0 ==> r.blockNumber == blockNumber)
            && r.trialNumber == index + 1 && r.stimulus.LetterStimulus?
            && r.stimulus.currentLetter.Some? && 1 <= r.stimulus.currentLetter.value <= |Letters|
            && (r.stimulus.isMatch == 1 <==> trial.isMatch)
  {
    var res := Resolve(t, inputLag, LetterM);
    TrialRecordFields(subjectId, currentBlock, trial, blockNumber, res.responded, res.reactionTime, res.at);
    LetterCodePosition(trial.letter);
  }
}
