/**
 * The data point both tasks append to their session log, one per trial
 * (js/sart.js:408-421, js/nback.js:438-453), and the pieces of it that the
 * two `recordResponse` methods compute in the same way.
 */
module Records {
  import opened Wrappers

  const SartName: string := "SART"
  const NBackName: string := "N-back"

  /** `currentBlock` of a practice block and of a real block. */
  const PracticeBlock: string := "trial"
  const RealBlock: string := "real"

  /** The task-specific part of a data point. */
  datatype Stimulus =
      /** SART: `go`, `digit`, and `fontSize` (which holds the 1-based font-size index). */
    | DigitStimulus(go: int, digit: int, fontSize: int)
      /** N-back: letters as 1-based alphabet positions (null where undefined) and `isMatch`. */
    | LetterStimulus(currentLetter: Option<int>, nback1: Option<int>, nback2: Option<int>,
                     nback3: Option<int>, isMatch: int)

  /** One data point. Flags that JavaScript stores as 1/0 stay integers here. */
  datatype Record = Record(
    subjectId: string,
    testName: string,
    blockType: string,
    blockNumber: Option<int>,
    trialNumber: int,
    stimulus: Stimulus,
    response: int,
    responseOutcome: int,
    reactionTime: Option<int>,
    timestamp: int)

  /** `b ? 1 : 0`. */
  function Flag(b: bool): int {
    if b then 1 else 0
  }

  /** The task's correctness rule: `target ? responded : !responded`. */
  predicate Correct(target: bool, responded: bool) {
    if target then responded else !responded
  }

  /** `blockNumber || (currentBlock === "trial" ? 0 : null)`: a missing or zero block number becomes 0 in practice. */
  function TaggedBlockNumber(blockNumber: Option<int>, currentBlock: string): Option<int> {
    if blockNumber.Some? && blockNumber.value != 0 then blockNumber
    else if currentBlock == PracticeBlock then Some(0)
    else None
  }

  /** `reactionTime || null`: a reaction time of exactly 0 is stored as null. */
  function StoredReactionTime(reactionTime: Option<int>): Option<int> {
    if reactionTime == Some(0) then None else reactionTime
  }

  /** What `recordResponse` stores for one trial: the fields shared by both tasks. */
  function MakeRecord(subjectId: string, testName: string, currentBlock: string, blockNumber: Option<int>,
                      trialNumber: int, stimulus: Stimulus, target: bool, responded: bool,
                      reactionTime: Option<int>, now: int): (r: Record)
    ensures r.response == 1 <==> responded
    ensures r.response == 0 <==> !responded
    ensures r.responseOutcome == 1 <==> responded == target
    ensures r.responseOutcome == 0 <==> responded != target
    ensures r.reactionTime.Some? <==> reactionTime.Some? && reactionTime.value != 0
    ensures r.reactionTime.Some? ==> r.reactionTime == reactionTime
    ensures currentBlock == PracticeBlock && blockNumber.None? ==> r.blockNumber == Some(0)
    ensures blockNumber.Some? && blockNumber.value > 0 ==> r.blockNumber == blockNumber
    ensures r.blockType == currentBlock && r.timestamp == now && r.trialNumber == trialNumber
    ensures r.subjectId == subjectId && r.testName == testName && r.stimulus == stimulus
  {
    Record(subjectId, testName, currentBlock, TaggedBlockNumber(blockNumber, currentBlock), trialNumber,
           stimulus, Flag(responded), Flag(Correct(target, responded)),
           StoredReactionTime(reactionTime), now)
  }

  /** Response recorded without a reaction time: only the key press at exactly 0 ms does this. */
  lemma ZeroReactionTimeIsStoredAsNull(subjectId: string, testName: string, currentBlock: string,
                                       blockNumber: Option<int>, trialNumber: int, stimulus: Stimulus,
                                       target: bool, now: int)
    ensures var r := MakeRecord(subjectId, testName, currentBlock, blockNumber, trialNumber, stimulus,
                                target, true, Some(0), now);
            r.response == 1 && r.reactionTime.None?
  {
  }

  /** Every record tagged with the given test name, block type and block number. */
  ghost predicate AllTagged(records: seq<Record>, testName: string, blockType: string, blockNumber: Option<int>) {
    forall i :: 0 <= i < |records| ==>
      records[i].testName == testName && records[i].blockType == blockType &&
      records[i].blockNumber == blockNumber
  }

  /** The records of a block: trial i's record at position i, in trial order. */
  function BlockRecords<T>(trials: seq<T>, record: (nat, T) -> Record): (rs: seq<Record>)
    ensures |rs| == |trials|
    ensures forall i :: 0 <= i < |trials| ==> rs[i] == record(i, trials[i])
  {
    seq(|trials|, i requires 0 <= i < |trials| => record(i, trials[i]))
  }

  /** Running one more trial appends exactly its record to the block's records. */
  lemma BlockRecordsExtend<T>(trials: seq<T>, i: nat, record: (nat, T) -> Record)
    requires i < |trials|
    ensures BlockRecords(trials[..i + 1], record) == BlockRecords(trials[..i], record) + [record(i, trials[i])]
  {
    var longer := BlockRecords(trials[..i + 1], record);
    var extended := BlockRecords(trials[..i], record) + [record(i, trials[i])];
    forall k | 0 <= k < i + 1
      ensures longer[k] == extended[k]
    {
      if k < i {
        assert trials[..i + 1][k] == trials[..i][k];
      } else {
        assert trials[..i + 1][k] == trials[i];
      }
    }
  }
}
