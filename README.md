# Testy — a verified model of the attention-test battery

Testy is a browser battery of two cognitive tests: the Sustained Attention to
Response Task (SART) and a 3-back letter task. A subject types an ID. The two
tests then run in a random order. Each test runs a practice block, then its
real blocks, and writes one data point per trial. The statistics module
summarises the real-block data, and the exporter writes the trial data and the
statistics as CSV files. This project models that core in Dafny and proves
what it promises:

- `random.dfy` (`Random`): `Math.random()` as an oracle. A draw stream
  `nat -> Unit` is indexed by a counter that every method threads through, so
  the order of the draws is part of the model.
- `events.dfy` (`Events`): what happens during one trial. This is a timeline of
  key-down and key-up events and the stimulus change, ended by the final timer.
  It includes the rule that only the first key-down counts, and the
  input-lag-compensated reaction time.
- `records.dfy` (`Records`): the data point `recordResponse` writes. It keeps
  the JavaScript truthiness rules for `blockNumber || …` and
  `reactionTime || null`.
- `sart.dfy` (`Sart`): SART.
  - The digit quotas of a practice and a real block.
  - The greedy shuffle that avoids repeated digits.
  - Trial construction and the trial state machine.
  - The `SartTask` object whose methods append to its `data`.
- `nback.dfy` (`NBack`): the N-back task.
  - Letter sequences with an exact number of 3-back matches.
  - The letter coding of data points.
  - The `NBackTask` object with its practice block and two real blocks.
- `statistics.dfy` (`Statistics`): `calculateSARTStats`,
  `calculateNBackStats` and `calculateStats`. This covers means, medians,
  percentages, the longest correct streak, post-error slowing, signal-detection
  measures and the selection of real-block data.
- `export.dfy` (`Export`): CSV export.
  - The sorted union of keys that forms the header.
  - Cell escaping, the statistics section and its fixed key orders and labels.
  - The file names.
  - `exportToCSV` and `exportStatsToCSV`, which produce lists of files.
- `id_input.dfy` (`IdInput`): the subject-ID field. It covers the input
  filter, `validateID` and the outcome of `handleSubmit`.
- `orchestrator.dfy` (`Orchestrator`): the `TestOrchestrator` object. It picks
  the order with one coin, runs both tests, and accumulates their data.
- `wrappers.dfy` and `seqs.dfy`: `Option` and generic sequence functions
  (filter, map, removal by index).

Where the code's behaviour is surprising, the model follows the code:

- The N-back response window is not closed when the letter gives way to the
  blank screen. A press during the blank still counts
  (js/nback.js:339-346).
- The SART retry loop around the greedy pass runs at most once, because one
  pass always places every digit (`Sart.Shuffle` proves this).
- A reaction time of exactly 0 is stored as null (`reactionTime || null`).
  A recorded response can therefore lack a reaction time
  (`Records.ZeroReactionTimeIsStoredAsNull`).
- `exportTestData` names the N-back trial file `n_back_<id>.csv`, while
  `exportStatsToCSV` names the N-back statistics file `nback_<id>.csv`
  (`Export.NBackFileNames`).

## Model

| member | source | states |
|---|---|---|
| Random.Pick | js/sart.js:152 | `Math.floor(Math.random() * n)` is a valid index below `n` |
| Events.FirstPress | js/sart.js:272-304 | Only a non-empty event list can hold the press that counts |
| Events.FirstPressIsEarliest | js/sart.js:272-304 | The press that counts exists exactly when some key-down of the response key happened, and it is the earliest such key-down |
| Events.LaterEventsIgnored | js/sart.js:276-281 | Once a press is recorded, later events cannot change the recorded response |
| Events.EarlierNonPressesSkipped | js/sart.js:306-310 | Events before the first press, key-ups included, do not affect which press counts |
| Events.FirstPressSnoc | js/nback.js:285-337 | Extending the event list by one event extends the first-press choice consistently |
| Events.LagCompensated | js/sart.js:283-284 | `Math.max(0, now - start - inputLag)` is non-negative and is either 0 or the raw lag-compensated difference |
| Events.Resolve | js/sart.js:264-370 | A trial has a reaction time exactly when it has a response, and it is non-negative; without a response the record is written at the final timer |
| Events.ResolveRespondsIffPressed | js/sart.js:272-302 | A trial yields a response exactly when some key-down of the response key happened during it |
| Events.ResolveAtFirstPress | js/sart.js:272-302 | The first press decides the response: it is recorded at that press's time with the lag-compensated reaction time |
| Events.ResolveWithoutPress | js/sart.js:352-367 | Without any press the trial ends at the final timer with no response and no reaction time |
| Records.MakeRecord | js/sart.js:405-424 | `response`/`responseOutcome` are 1 exactly when the subject pressed / answered correctly; a reaction time is kept exactly when it is present and non-zero; practice blocks without a number get 0; the other fields are copied |
| Records.ZeroReactionTimeIsStoredAsNull | js/nback.js:451 | A press with reaction time 0 is recorded as a response whose reaction time is null |
| Sart.GoDigitsAreFiltered | js/sart.js:119 | Filtering the no-go digit 3 out of 1..9 gives the go digits 1, 2, 4, ..., 9 |
| Sart.GoDigitsFacts | js/sart.js:13-14 | There are eight go digits, all distinct, none of them the no-go digit |
| Sart.JsRem | js/sart.js:121 | JavaScript `%` agrees with the mathematical remainder for a non-negative dividend, and takes the dividend's sign otherwise |
| Sart.NoGoCount | js/sart.js:117 | `CONFIG.sart.noGoCount \|\| 1` is at least 1 |
| Sart.PushQuotas | js/sart.js:109-114 | The push loops append each digit `digitsPerCount + (index < remainder ? 1 : 0)` times, in order |
| Sart.BuildDigitArray | js/sart.js:102-135 | The digit array is the quota layout of the block kind |
| Sart.LayoutLength | js/sart.js:109-114 | The layout's length is the total of the per-digit quotas |
| Sart.LayoutCountAbsent | js/sart.js:129-134 | A digit outside the list never appears in the layout |
| Sart.LayoutCountAt | js/sart.js:129-134 | In a list of distinct digits, digit k appears exactly its quota times |
| Sart.RepeatCount | js/sart.js:111-113 | Pushing `d` `n` times puts `n` copies of `d` and nothing else |
| Sart.PracticeQuotas | js/sart.js:104-114 | A practice block has exactly `count` digits, and digit k gets `floor(count/9)` copies plus one when k is below `count % 9` |
| Sart.RealQuotas | js/sart.js:115-134 | With `count >= noGoCount`, a real block has exactly `count` digits, the no-go digit appears `noGoCount` times, and go digit k gets `floor(goCount/8)` plus one when k is below `goCount % 8` |
| Sart.RealDigitArray | js/sart.js:116-134 | With `count >= noGoCount`, a real block's array is the `noGoCount` no-go digits followed by the go digits' quota layout |
| Sart.RealLength | js/sart.js:116-134 | With `count >= noGoCount`, a real block's array has exactly `count` digits |
| Sart.ShortRealBlock | js/sart.js:115-134 | With fewer trials than no-go digits, only the `noGoCount` no-go digits are pushed (the array is longer than `count`) |
| Sart.LayoutEmpty | js/sart.js:129-134 | Negative quotas push nothing |
| Sart.PlaceDigit | js/sart.js:148-163 | Placing a digit that differs from the last one, or one forced because every remaining digit equals the last, keeps the no-needless-repeat invariant |
| Sart.ChooseIndex | js/sart.js:149-159 | The chosen digit is in `remaining`, and it repeats the last digit only when every remaining digit equals it |
| Sart.GreedyPass | js/sart.js:144-164 | One pass outputs a permutation of the digit array in which a digit repeats its predecessor only when nothing else was left |
| Sart.Shuffle | js/sart.js:137-170 | The retry loop outputs such a permutation, and it makes exactly one pass for a non-empty array |
| Sart.DigitsOf | js/sart.js:173-182 | The digit list of the trials, position by position |
| Sart.MakeTrials | js/sart.js:172-182 | Every trial keeps its shuffled digit, gets `isGo` iff the digit is not 3, a 1-based font-size index in 1..5 and the number `index + 1` |
| Sart.GenerateTrials | js/sart.js:100-185 | The trials' digits are a permutation of the quota array, repeats happen only when forced, and every trial is well formed |
| Sart.TrialRecord | js/sart.js:405-424 | The SART data point: correct iff `responded == isGo`, the digit stimulus and trial number copied, subject, block type and timestamp kept, practice numbered 0, positive block numbers kept, a non-zero reaction time kept as given and 0 stored as null |
| Records.BlockRecords | js/sart.js:230-239 | A block yields one record per trial, in trial order (shared by both tasks) |
| Records.BlockRecordsExtend | js/nback.js:246-250 | Running one more trial appends exactly that trial's record |
| Sart.SartTask.constructor | js/sart.js:3-15 | A new task has no data, no trials and is not waiting for a response |
| Sart.SartTask.RecordResponse | js/sart.js:405-424 | Appends exactly the trial's record to `data` |
| Sart.SartTask.RunTrial | js/sart.js:241-372 | Appends exactly one record, the outcome of the trial's timeline, and leaves the task not waiting for a response |
| Sart.SartTask.RunBlock | js/sart.js:230-239 | Appends the block's records in trial order |
| Sart.SartTask.RunTrialBlock | js/sart.js:187-193 | The practice block has `trialTrials` well-formed trials whose digits are a permutation of the practice quotas, repeated only when forced, and appends their records, numbered 0 |
| Sart.SartTask.RunRealBlock | js/sart.js:195-201 | A real block of well-formed trials whose digits are a permutation of the real quotas, repeated only when forced, appends their records under its block number |
| Sart.SartTask.Start | js/sart.js:17-23 | Hands over exactly its data: practice records (block 0, numbered 1..n) followed by real block 1; each block's digits are a permutation of its quota array, repeated only when forced |
| Sart.BlockTags | js/sart.js:408-415 | Every record of a block carries test name SART, the block type and block number 0 in practice or the given positive number, is numbered in order, and shows its trial's digit |
| Sart.OutcomeTags | js/sart.js:405-424 | The record of one well-formed trial, whatever the key presses, carries test name SART, the block type, the block tag, the trial's number and its digit |
| NBack.LettersDistinct | js/nback.js:12-28 | The 15 letters are distinct, so their codes are too |
| NBack.PromisedMatches | js/nback.js:129-130 | The target `min(matchCount, count - 3)` never exceeds `matchCount`, fits the positions after the first three, and equals `matchCount` when there is room |
| NBack.MatchesSnoc | js/nback.js:176 | Appending a letter adds one match exactly when it repeats the letter 3 back |
| NBack.IsLetterIsMember | js/nback.js:139 | Being some position's letter of the alphabet is being in the alphabet |
| NBack.AnyLetter | js/nback.js:139 | A uniformly drawn letter is a letter of the alphabet |
| NBack.OtherLetter | js/nback.js:157-163 | The letter drawn for a non-match is an alphabet letter different from the one 3 back |
| NBack.NextLetter | js/nback.js:141-164 | A letter after the first three is a match exactly when it repeats the one 3 back; it is a match only while the target is not reached, and always when the remaining positions are just enough for the remaining matches |
| NBack.GenerateLetters | js/nback.js:121-168 | `count` letters from the alphabet with exactly the target number of 3-back matches |
| NBack.BuildTrials | js/nback.js:170-186 | Trial i carries letter i, its three predecessors (null before the start), `isMatch` and number i+1 |
| NBack.BuiltTrials | js/nback.js:170-186 | Built trials are well formed, `isMatch` holds exactly at 3-back repeats, and the `nback` fields chain consistently |
| NBack.CountMatchesOfLetters | js/nback.js:189 | The number of match trials equals the number of 3-back repeats in the letters |
| NBack.GenerateTrials | js/nback.js:121-195 | `count` well-formed, chained trials with exactly the promised number of matches |
| NBack.LetterCode | js/nback.js:433-436 | A code is null exactly when the letter is null |
| NBack.LetterCodePosition | js/nback.js:433-436 | An alphabet letter is coded by its 1-based position, any other character by 0 |
| NBack.LetterCodeRoundTrip | js/nback.js:433-436 | The letter can be read back from its code |
| NBack.LetterCodeInjective | js/nback.js:433-436 | Distinct letters get distinct codes |
| NBack.TrialRecordFields | js/nback.js:428-456 | The N-back data point: the letter codes of the letter and of the ones 1, 2 and 3 back, the `isMatch` flag, correct iff `responded == isMatch`, the response flag, practice numbered 0, positive block numbers kept, a non-zero reaction time kept as given and 0 stored as null, the timestamp |
| NBack.NBackTask.constructor | js/nback.js:3-31 | A new task has no data, no trials and an empty letter history |
| NBack.NBackTask.RecordResponse | js/nback.js:428-456 | Appends exactly the trial's record to `data` |
| NBack.NBackTask.RunTrial | js/nback.js:253-398 | Appends exactly one record, the outcome of the trial's timeline, and leaves the task not waiting for a response |
| NBack.NBackTask.RunBlock | js/nback.js:242-251 | Appends the block's records in trial order |
| NBack.NBackTask.RunTrialBlock | js/nback.js:197-204 | The practice block has `trialTrials` well-formed trials with the promised number of matches and appends their records |
| NBack.NBackTask.RunRealBlock | js/nback.js:206-213 | A real block has `realTrials` well-formed trials with the promised number of matches and appends their records under its block number |
| NBack.NBackTask.Start | js/nback.js:33-40 | Hands over exactly its data: practice records, then real blocks 1 and 2, each numbered 1..n and tagged, each flagging exactly the promised number of matches |
| NBack.BlockTags | js/nback.js:442 | Records carry test name N-back, their block type and the block number (0 in practice), and flag as many matches as the trials hold |
| NBack.OutcomeTags | js/nback.js:438-453 | The record of one well-formed trial, whatever the key presses, carries test name N-back, the block type, the block tag and the trial's number, codes its letter as a position 1..15, and flags a match exactly when the trial is one |
| NBack.FlaggedMatchesOfTrials | js/nback.js:448 | Records whose `isMatch` flag copies their trials' count as many matches as the trials |
| Statistics.Mean | js/statistics.js:130-134 | The mean is null exactly for no values, and otherwise times the count gives the sum |
| Statistics.MeanBetween | js/statistics.js:130-134 | A mean lies between the least and the greatest value |
| Statistics.Percent | js/statistics.js:78-79 | `whole > 0 ? part/whole*100 : 0`: 0 for an empty base, within 0..100 for a part of the whole |
| Statistics.Accuracy | js/statistics.js:458-469 | The share of correct records is null exactly for no records; otherwise it is the percentage of records with a correct outcome, in 0..100 |
| Statistics.Difference | js/statistics.js:448-451 | A difference exists exactly when both operands do, and adding back the second operand gives the first |
| Statistics.Truthy | js/statistics.js:505-515 | `x ? x.toFixed(2) : null` keeps a value exactly when it is present and non-zero |
| Statistics.Insert | js/statistics.js:32 | Insertion adds exactly the new element |
| Statistics.InsertSorted | js/statistics.js:32 | Insertion into a sorted list keeps it sorted, with the smaller of the new element and the old head first |
| Statistics.Sort | js/statistics.js:32 | The sorted copy is a sorted permutation |
| Statistics.SortedUnique | js/statistics.js:32 | A sorted permutation is unique |
| Statistics.Median | js/statistics.js:30-37 | The median is null exactly for no values |
| Statistics.MedianOrderIndependent | js/statistics.js:30-37 | The median depends only on the multiset of values |
| Statistics.MedianOfSorted | js/statistics.js:33-36 | The median is the middle element for odd lengths, and the mean of the two middle ones for even lengths |
| Statistics.SortOfSorted | js/statistics.js:32 | Sorting an already sorted list changes nothing |
| Statistics.MedianBetween | js/statistics.js:30-37 | The median lies between the least and the greatest value |
| Statistics.MiddleBetween | js/statistics.js:33-36 | The middle of a list whose elements lie in a range lies in that range |
| Statistics.Correlation | js/statistics.js:40-57 | The correlation is null for lists of unequal length or shorter than two |
| Statistics.CorrelationSymmetric | js/statistics.js:40-57 | Swapping the two lists gives the same correlation |
| Statistics.ZScore | js/statistics.js:4-27 | The z-score is 0 outside (0, 1) and at 0.5 |
| Statistics.ZScoreOdd | js/statistics.js:8-26 | The z-score of `1 - p` is minus that of `p` |
| Statistics.LongestRun | js/statistics.js:194-203 | The longest correct run is no longer than the data |
| Statistics.LongestRunIsLongest | js/statistics.js:194-203 | Some run of correct records has exactly that length, and none is longer |
| Statistics.MaxStreak | js/statistics.js:423-432 | The streak loop computes the longest run of correct records |
| Statistics.SplitPostError | js/statistics.js:139-160 | The loop puts the reaction times of correct Go records after an error in one list and those after a non-error in the other, in order |
| Statistics.PostErrorCount | js/statistics.js:142-160 | Together the two lists hold one entry per qualifying record after the first |
| Statistics.PostErrorMembers | js/statistics.js:147-158 | Each qualifying record's reaction time goes into the list its predecessor selects |
| Statistics.SampleSd | js/statistics.js:176-186 | The standard deviation exists exactly for more than one value, and is non-negative |
| Statistics.Halves | js/statistics.js:227-229 | The two halves concatenate to the list, and the second is as long as the first or one longer |
| Statistics.HalfDrift | js/statistics.js:226-242 | The half drift exists exactly with at least two reaction times; it is the mean of the second half minus the mean of the first, split at floor(n/2) |
| Statistics.LearningTrend | js/statistics.js:453-474 | The trend exists exactly with more than 26 records; it is the accuracy of records 27-52 minus that of records 1-26, and lies in -100..100 |
| Statistics.TotalTime | js/statistics.js:476-480 | The duration exists exactly when the first and last timestamps are truthy, and equals their distance in seconds |
| Statistics.Clamp | js/statistics.js:366-373 | Rates 0 and 1 become 0.01 and 0.99, others are kept, so a rate in [0,1] lands strictly inside |
| Statistics.ClampMirror | js/statistics.js:366-373 | Clamping commutes with `1 - rate` |
| Statistics.Detect | js/statistics.js:355-383 | d', C, hit rate and false-alarm rate all exist exactly with at least five match and five non-match trials; the rates are the percentages of presses; with zH and zF the z-scores of the rates clamped away from 0 and 1, d' = zH - zF and C = -0.5 (zH + zF) |
| Statistics.DetectSwap | js/statistics.js:375-382 | Exchanging match and non-match trials (and hits with false alarms) negates d' and keeps C |
| Statistics.DetectMirror | js/statistics.js:364-382 | Counting misses as hits and correct rejections as false alarms negates both d' and C |
| Statistics.NoDiscrimination | js/statistics.js:375-379 | Equal hit and false-alarm rates give d' = 0 |
| Statistics.UnbiasedCriterion | js/statistics.js:375-382 | Hit and false-alarm rates that add up to 1 give C = 0 |
| Statistics.SartStats | js/statistics.js:59-61 | The SART report is null exactly for no data |
| Statistics.CalculateSartStats | js/statistics.js:59-298 | With its loops run as loops, `calculateSARTStats` yields the specified report |
| Statistics.SartReportOf | js/statistics.js:62-297 | Defines every field of the SART report from the records, the streak and the post-error split: counts, accuracies, error rates, the RT means, SD and median, the correlation and half-split drift inputs, each `x ? … : null` guard and the total time. It has no ensures of its own; SartBounds, SartCountsAddUp and SartStreak state its properties |
| Statistics.SartCountsAddUp | js/statistics.js:63-75 | Go and No-Go counts add up to the total, and so do correct and incorrect responses |
| Statistics.SartBounds | js/statistics.js:78-174 | Error counts are bounded by their trial kind; the rates are percentages and 0 when the base is empty; post-error slowing is null without both lists |
| Statistics.SartStreak | js/statistics.js:193-203 | The reported `maxStreak` is the length of a run of correct records, and no run is longer |
| Statistics.NBackStats | js/statistics.js:300-301 | The N-back report is null exactly for no data |
| Statistics.CalculateNBackStats | js/statistics.js:300-519 | With its streak loop run as a loop, `calculateNBackStats` yields the specified report |
| Statistics.NBackReportOf | js/statistics.js:303-518 | Defines every field of the N-back report from the records and the streak: counts, accuracies, hits, false alarms and misses, the signal-detection fields through Detect, the RT statistics, the learning trend and the total time. It has no ensures of its own; NBackGating and NBackCountsAddUp state its properties |
| Statistics.NBackCountsAddUp | js/statistics.js:304-316 | Match and non-match counts add up to the total, and so do correct and incorrect responses |
| Statistics.NBackGating | js/statistics.js:355-514 | The signal-detection fields exist exactly with five trials of each kind; false alarms and misses are bounded; the learning trend is null up to 26 records and when it is exactly 0 |
| Statistics.CalculateStats | js/statistics.js:521-542 | Null for no data; otherwise each task's report is present exactly when the task has real-block records, and it is computed from those records only |
| Statistics.SelectedIff | js/statistics.js:525-529 | A task's real-block selection is non-empty exactly when some real-block record has its name |
| Export.Keys | js/export.js:150 | `Object.keys` lists the properties in order |
| Export.Zip | js/statistics.js:489-518 | An object literal has exactly the listed keys with the listed values |
| Export.Get | js/export.js:160 | A property read is undefined exactly when the object lacks the key |
| Export.GetFirst | js/export.js:160 | A property read returns the value of the first property carrying the key |
| Export.NatToString | js/export.js:166 | `String(n)` of a natural number is a non-empty digit string |
| Export.IntToString | js/export.js:166 | `String(n)` of an integer is digits with an optional leading minus |
| Export.NatToStringRoundTrip | js/export.js:166 | Parsing the printed digits gives back the number |
| Export.DoubleQuotes | js/export.js:172 | Doubling quotes leaves a string without quotes unchanged |
| Export.UndoubleDoubleQuotes | js/export.js:172 | Collapsing `""` after doubling gives back the string |
| Export.EscapeCell | js/export.js:159-175 | null and undefined give an empty cell; a value with a comma, quote or line feed is quoted with quotes doubled; any other value is its text |
| Export.EscapeRoundTrip | js/export.js:159-175 | A CSV reader's unescaping of a cell yields the value's text |
| Export.CarriageReturnNotQuoted | js/export.js:167-171 | Any text holding a carriage return but no comma, quote or line feed is written bare, because only `\n` counts as a line break |
| Export.KeyUnionNoRepeats | js/export.js:148-151 | The set of keys holds each key at most once |
| Export.KeyUnionMembers | js/export.js:148-151 | A key is in the set exactly when some data point has it |
| Export.AddKeysMembers | js/export.js:150 | Adding keys to the set yields exactly the old keys and the new ones |
| Export.AddKeysKeepsPrefix | js/export.js:150 | Adding keys keeps the old keys first, in their order |
| Export.AddKeysNoRepeats | js/export.js:150 | Adding keys to a repeat-free set leaves it repeat-free |
| Export.CollectKeys | js/export.js:148-151 | The collection loop computes the key union |
| Export.StrLeTotal | js/export.js:153 | The default sort order is total |
| Export.StrLeAntisymmetric | js/export.js:153 | The default sort order is antisymmetric |
| Export.InsertString | js/export.js:153 | Insertion keeps a list sorted and adds exactly the new element |
| Export.SortStrings | js/export.js:153 | `sort()` yields a sorted permutation |
| Export.SortedDistinctIsStrict | js/export.js:153 | A sorted list without repeats is strictly increasing |
| Export.HeadersAreSortedUnion | js/export.js:148-153 | The header row is strictly sorted and holds exactly the keys that occur in the data |
| Export.RowCells | js/export.js:158-175 | A data row has one cell per header, and cell i is the escaped value of header i |
| Export.RowsStep | js/export.js:158-177 | Each point adds its row line after the previous rows |
| Export.WriteRows | js/export.js:158-177 | The row loop writes one line per point, in order |
| Export.Label | js/export.js:191 | `labels[key] \|\| key`: the label when it is a non-empty string, else the key |
| Export.StatsLine | js/export.js:193 | A statistics line is `label,value`, with `N/A` for null |
| Export.PresentKeys | js/export.js:189-190 | The keys kept are exactly the ordered keys the statistics object has |
| Export.StatsLinesFollowOrder | js/export.js:189-195 | There is one statistics line per present key, in the fixed order, none skipped or repeated |
| Export.LinesSnoc | js/export.js:193 | Appending a line adds it with its line feed |
| Export.StatsLinesStep | js/export.js:189-195 | Each key of the order adds at most its own line |
| Export.WriteStatsLines | js/export.js:189-195 | The statistics loop writes exactly the lines of the present keys, in order |
| Export.LowerAscii | js/export.js:204 | `toLowerCase` maps character by character |
| Export.ReplaceFirst | js/export.js:204 | `replace("-", "_")` replaces the character at the first hyphen's position and keeps every other character |
| Export.SartFileNames | js/export.js:204-205 | SART trial and statistics files are both `sart_<id>.csv` |
| Export.NBackFileNames | js/export.js:204-205 | The N-back trial file is `n_back_<id>.csv` but its statistics file is `nback_<id>.csv`, so they differ |
| Export.NBackTestFileName | js/export.js:204-205 | The N-back trial file is `n_back_<id>.csv` |
| Export.ReplaceNames | js/export.js:204 | Replacing the hyphen gives `n_back` and leaves `sart` alone |
| Export.LowerNames | js/export.js:204 | Lower-casing the test names gives `sart` and `n-back` |
| Export.ExportTestData | js/export.js:146-216 | A trial-data file holds the header line, one row per point, and, when statistics are given, the banner and the statistics lines |
| Export.SartObjectFollowsOrder | js/export.js:4-31 | The SART report object has exactly the keys of the fixed order, so all 26 statistics get a line |
| Export.RecordObject | js/sart.js:408-421 | Defines a data point as an object with its properties in the order `recordResponse` writes them, for SART and likewise for N-back (js/nback.js:438-453), with null for absent numbers. It has no ensures of its own |
| Export.SartObject | js/statistics.js:264-297 | Defines the SART statistics object: the keys of the fixed export order, `toFixed(2)` (or 4 for the correlation) on the formatted fields and null for absent values. It has no ensures of its own; SartObjectFollowsOrder states its keys |
| Export.NBackObject | js/statistics.js:489-518 | Defines the N-back statistics object: the keys of the fixed export order, `"N/A"` for an absent d′ or C, `toFixed(2)` on the other formatted fields and null for absent values. It has no ensures of its own; NBackObjectFollowsOrder states its keys |
| Export.NBackObjectFollowsOrder | js/export.js:34-58 | The N-back report object has exactly the keys of the fixed order, so all 23 statistics get a line |
| Export.FilterAll | js/export.js:189-190 | When every key of the fixed order is present, the `hasOwnProperty` test keeps the whole order |
| Export.ExportToCsv | js/export.js:117-144 | No files for no data; otherwise a SART file when there are SART points and an N-back file when there are N-back points, each with that test's statistics |
| Export.ExportStatsFile | js/export.js:226-239 | The statistics loop of one test writes the header line and the lines of the present keys in the fixed order, under the test's statistics file name |
| Export.ExportStatsToCsv | js/export.js:218-279 | No files without statistics; otherwise one statistics file per report present, SART first |
| IdInput.ValidateId | js/idInput.js:74-78 | An ID is valid exactly when it is two upper-case letters followed by two digits |
| IdInput.MatchesClassByClass | js/idInput.js:76-77 | An anchored pattern of character classes matches exactly the strings of its length whose characters each lie in their class |
| IdInput.UpperChar | js/idInput.js:53 | `toUpperCase` maps `a`..`z` to `A`..`Z` and keeps other characters |
| IdInput.Normalize | js/idInput.js:52-56 | The filtered text is no longer than the input and holds only `[A-Z0-9]` |
| IdInput.NormalizeIsUpperThenFilter | js/idInput.js:53 | The filter upper-cases, then keeps exactly the ID characters, in order |
| IdInput.NormalizeSnoc | js/idInput.js:53 | One more typed character adds at most its upper-cased self |
| IdInput.NormalizeKeepsIdChars | js/idInput.js:53 | Text made of ID characters passes unchanged |
| IdInput.NormalizeIdempotent | js/idInput.js:52-56 | Filtering twice equals filtering once |
| IdInput.ValidIdIsNormalized | js/idInput.js:53-77 | A valid ID passes the filter unchanged |
| IdInput.TrimStart | js/idInput.js:93 | Removing leading white space leaves a suffix that does not start with white space |
| IdInput.TrimEnd | js/idInput.js:93 | Removing trailing white space leaves a prefix that does not end with white space |
| IdInput.Trim | js/idInput.js:93 | `trim()` yields a contiguous part of the input that neither starts nor ends with white space |
| IdInput.TrimCutsWhitespace | js/idInput.js:93 | Everything cut away on either side is white space |
| IdInput.TrimOfNormalized | js/idInput.js:53-93 | The filter's output has nothing to trim |
| IdInput.HandleSubmit | js/idInput.js:91-109 | An empty trimmed ID shows the missing-ID message; an invalid one shows the format message; a submit happens exactly for a valid trimmed ID, and hands on that ID |
| IdInput.SubmittedIdIsNormal | js/idInput.js:91-109 | A submitted ID has four characters and is valid and unchanged by the filter |
| IdInput.SubmitAfterFilter | js/idInput.js:52-109 | After filtering, a submit hands on the filtered text exactly when it is valid, and otherwise shows the message for an empty or a malformed ID |
| Orchestrator.TestOrder | js/testOrchestrator.js:12-15 | The order is SART then N-back, or the reverse exactly when the draw is below 0.5; the two entries differ |
| Orchestrator.RunSart | js/testOrchestrator.js:31-37 | A fresh SART object run to completion hands over a well-formed SART session |
| Orchestrator.RunNBack | js/testOrchestrator.js:38-44 | A fresh N-back object run to completion hands over a well-formed N-back session |
| Orchestrator.TestOrchestrator.constructor | js/testOrchestrator.js:3-9 | A new orchestrator has no data, no order and index 0 |
| Orchestrator.TestOrchestrator.Start | js/testOrchestrator.js:11-20 | Each test runs exactly once in the drawn order, and the completion callback gets the two tests' data concatenated in that order, each a well-formed session |
| Orchestrator.TestOrchestrator.RunNextTest | js/testOrchestrator.js:22-46 | Runs the remaining tests in order and completes exactly when the index reaches the end of the order, with all data; it always completes when every remaining name is a known test |
| Orchestrator.TestOrchestrator.Complete | js/testOrchestrator.js:32-35 | A test's callback appends its data, advances the index by one and logs the run |

## Left out

- The page itself: DOM construction, instructions, countdowns, flashes, the
  trial indicator and the on-screen letter case. Nothing of it reaches the data.
- Timers and `Date.now()`. These become each trial's `Timeline`, whose times are
  given. Display durations (`digitDisplayTime`, `maskTime`,
  `letterDisplayTime`, `blankScreenTime`) only decide which events fall inside
  a trial, so they are not parameters.
- `Math.random()`. It becomes a stream of draws, and the model claims nothing
  about their distribution. The N-back draw that picks upper or lower case for
  display (js/nback.js:265) is left out, because it affects only the screen.
- Floating point. Statistics are computed on exact reals. `Math.sqrt` and
  `Math.log` are oracle parameters (`Numerics`). `toFixed(2)` is a formatter
  parameter of the exporter (`Export.Formatter`), so rounding is not modelled.
- The Blob, object-URL and link-click download. It becomes a returned list of
  `File(name, content)` values. `console.log` and `console.error` are left out.
- Export.ExportToCsv: the `timestamp` argument is computed in the source but
  never used in a file, so the model does not compute it.
- Export.SortStrings: JavaScript's default sort compares UTF-16 code units. The
  model compares Dafny characters, which agree for characters below U+10000.
- IdInput.UpperChar and Export.LowerAscii map ASCII letters only, while
  `toUpperCase` and `toLowerCase` also map non-ASCII letters. A non-ASCII letter
  that upper-cases into `A`-`Z` (such as the dotless ı) would be kept by the
  source's filter but dropped by the model's.
- Statistics.ZScore: only its guard cases and its symmetry are proved. The
  rational approximation is stated but nothing is claimed about its accuracy.
- Statistics.Correlation: only the guard cases and the symmetry are proved,
  depending on the `sqrt` oracle.
- Sart.SartTask.RunRealBlock and Sart.SartTask.Start: the number of real
  trials is stated only when `realTrials >= noGoCount`. Otherwise the block has
  `noGoCount` trials (`Sart.ShortRealBlock`).
- Orchestrator.TestOrchestrator.Start requires a fresh orchestrator (index 0,
  no data), as the application creates one per session.
- The callback style: `onComplete` callbacks and `await` become method returns,
  so a test's completion is its `Start` returning.
- js/app.js (the screens around the tests and `interpretDPrime`) and
  config.js are not part of this model. Configuration values are
  parameters (`Sart.Config`, `NBack.Config`).
