/**
 * The test orchestrator (js/testOrchestrator.js): picks the order of the two
 * tasks with one coin flip, runs them one after the other, appends each
 * task's data as it completes, and hands the combined log on once both
 * are done.
 */
module Orchestrator {
  import opened Wrappers
  import opened Random
  import opened Records
  import opened Events
  import Sart
  import NBack

  /** What one finished SART run hands over: its practice block, then its real block. */
  ghost predicate SartRun(data: seq<Record>, config: Sart.Config) {
    exists practice, main :: data == practice + main && Sart.SessionShape(practice, main, config)
  }

  /** What one finished N-back run hands over: its practice block, then its two real blocks. */
  ghost predicate NBackRun(data: seq<Record>, config: NBack.Config) {
    exists practice, first, second :: data == practice + first + second &&
      NBack.SessionShape(practice, first, second, config)
  }

  /** The settings and the outside world of both tasks (config.js values, key presses, random draws). */
  datatype Setup = Setup(sartConfig: Sart.Config, nbackConfig: NBack.Config, sartEnv: Environment, nbackEnv: Environment)

  ghost predicate ValidRun(name: string, data: seq<Record>, setup: Setup) {
    && (name == SartName ==> SartRun(data, setup.sartConfig))
    && (name == NBackName ==> NBackRun(data, setup.nbackConfig))
  }

  /** The data of a list of runs, concatenated in order. */
  ghost function Concat(runs: seq<(string, seq<Record>)>): seq<Record> {
    if runs == [] then [] else Concat(runs[..|runs| - 1]) + runs[|runs| - 1].1
  }

  ghost function Names(runs: seq<(string, seq<Record>)>): (names: seq<string>)
    ensures |names| == |runs|
    ensures forall i :: 0 <= i < |runs| ==> names[i] == runs[i].0
  {
    if runs == [] then [] else Names(runs[..|runs| - 1]) + [runs[|runs| - 1].0]
  }

  /** `["SART", "N-back"]`, reversed when `Math.random() < 0.5`. */
  function TestOrder(coin: Unit): (order: seq<string>)
    ensures order == [SartName, NBackName] || order == [NBackName, SartName]
    ensures order[0] != order[1]
    ensures coin < 0.5 <==> order == [NBackName, SartName]
  {
    if coin < 0.5 then [NBackName, SartName] else [SartName, NBackName]
  }

  /** `new SART(subjectId, callback).start()`: a fresh task object runs to completion and hands over its data. */
  method RunSart(subjectId: string, config: Sart.Config, env: Environment) returns (data: seq<Record>)
    ensures SartRun(data, config)
  {
    var sart := new Sart.SartTask(subjectId);
    data := sart.Start(config, env);
  }

  /** `new NBack(subjectId, callback).start()`, likewise. */
  method RunNBack(subjectId: string, config: NBack.Config, env: Environment) returns (data: seq<Record>)
    ensures NBackRun(data, config)
  {
    var nback := new NBack.NBackTask(subjectId);
    data := nback.Start(config, env);
  }

  class TestOrchestrator {
    const subjectId: string
    var allData: seq<Record>
    var testOrder: seq<string>
    var currentTestIndex: nat
    /** The tests completed so far, each with the data it handed over. */
    ghost var runs: seq<(string, seq<Record>)>

    /** The log is the completed tests' data in order, and they are the first tests of `testOrder`. */
    ghost predicate Valid(setup: Setup)
      reads this
    {
      && currentTestIndex == |runs|
      && currentTestIndex <= |testOrder|
      && Names(runs) == testOrder[..currentTestIndex]
      && allData == Concat(runs)
      && forall i :: 0 <= i < |runs| ==> ValidRun(runs[i].0, runs[i].1, setup)
    }

    constructor (subjectId: string)
      ensures this.subjectId == subjectId && allData == [] && testOrder == [] && currentTestIndex == 0
      ensures runs == []
    {
      this.subjectId := subjectId;
      allData := [];
      testOrder := [];
      currentTestIndex := 0;
      runs := [];
    }

    /**
     * `start`: fix the order with the coin, then run both tests. The
     * completion callback receives the SART data and the N-back data,
     * concatenated in the chosen order; each test ran exactly once.
     */
    method Start(coin: Unit, setup: Setup) returns (completed: Option<seq<Record>>)
      requires currentTestIndex == 0 && allData == [] && runs == []
      modifies this
      ensures testOrder == TestOrder(coin)
      ensures completed == Some(allData)
      ensures currentTestIndex == 2 && Names(runs) == testOrder
      ensures allData == runs[0].1 + runs[1].1
      ensures ValidRun(runs[0].0, runs[0].1, setup) && ValidRun(runs[1].0, runs[1].1, setup)
    {
      testOrder := [SartName, NBackName];
      if coin < 0.5 {
        testOrder := [testOrder[1], testOrder[0]];
      }
      completed := RunNextTest(setup);
      assert testOrder[..2] == testOrder;
      assert Concat(runs[..1]) == runs[0].1 by {
        assert runs[..1][..0] == [];
      }
    }

    /**
     * `runNextTest`: once every test has run, hand `allData` to the
     * completion callback; otherwise run the current test, append its data,
     * advance the index by one and continue. A name that is neither test
     * stops the chain without completing.
     */
    method RunNextTest(setup: Setup) returns (completed: Option<seq<Record>>)
      requires Valid(setup)
      modifies this
      decreases |testOrder| - currentTestIndex
      ensures Valid(setup)
      ensures testOrder == old(testOrder)
      ensures |old(runs)| <= |runs| && runs[..|old(runs)|] == old(runs)
      ensures completed.Some? <==> currentTestIndex == |testOrder|
      ensures completed.Some? ==> completed.value == allData
      ensures (forall i :: old(currentTestIndex) <= i < |testOrder| ==> testOrder[i] in {SartName, NBackName})
              ==> completed.Some?
    {
      if currentTestIndex >= |testOrder| {
        return Some(allData);
      }
      var testName := testOrder[currentTestIndex];
      var data: seq<Record>;
      if testName == SartName {
        data := RunSart(subjectId, setup.sartConfig, setup.sartEnv);
      } else if testName == NBackName {
        data := RunNBack(subjectId, setup.nbackConfig, setup.nbackEnv);
      } else {
        return None;
      }
      // The completion callback: append the data, advance, run the next test.
      Complete(testName, data, setup);
      ghost var before := runs;
      completed := RunNextTest(setup);
      assert runs[..|old(runs)|] == runs[..|before|][..|old(runs)|];
    }

    /** The completion callback a test is given: append its data and move to the next test. */
    method Complete(testName: string, data: seq<Record>, setup: Setup)
      requires Valid(setup)
      requires currentTestIndex < |testOrder| && testOrder[currentTestIndex] == testName
      requires ValidRun(testName, data, setup)
      modifies this
      ensures Valid(setup)
      ensures allData == old(allData) + data
      ensures currentTestIndex == old(currentTestIndex) + 1
      ensures runs == old(runs) + [(testName, data)]
      ensures testOrder == old(testOrder)
    {
      allData := allData + data;
      currentTestIndex := currentTestIndex + 1;
      runs := runs + [(testName, data)];
      assert runs[..|runs| - 1] == old(runs);
      assert testOrder[..currentTestIndex] == testOrder[..currentTestIndex - 1] + [testName];
    }
  }
}
