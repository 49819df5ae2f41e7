/**
 * What happens during one trial, in place of DOM listeners and timers: the
 * key events in arrival order, the stimulus-end timer as a marker, and the
 * time at which the second-phase timer ends the trial.
 */
module Events {
  import opened Wrappers
  import opened Random

  /** A `keydown` or `keyup` event (its `e.code` and `e.key`), or the end of the stimulus phase. */
  datatype Event =
    | KeyDown(code: string, key: string, time: int)
    | KeyUp(code: string, key: string)
    | StimulusOff

  /**
   * One trial: the time `Date.now()` returned when the stimulus appeared, the
   * events that reach the listeners before the last timer fires, and that
   * timer's time.
   */
  datatype Timeline = Timeline(start: int, events: seq<Event>, end: int)

  /** The key a task listens for. */
  datatype ResponseKey =
    | SpaceBar  // `e.code === "Space"`
    | LetterM   // `e.key === "m" || e.key === "M"`

  predicate Accepts(k: ResponseKey, code: string, key: string) {
    match k
    case SpaceBar => code == "Space"
    case LetterM => key == "m" || key == "M"
  }

  predicate IsPressOf(k: ResponseKey, e: Event) {
    e.KeyDown? && Accepts(k, e.code, e.key)
  }

  /** The time of the first key-down of the response key, if there is one. */
  function FirstPress(events: seq<Event>, k: ResponseKey): (r: Option<int>)
    ensures r.Some? ==> events != []
  {
    if events == [] then None
    else if IsPressOf(k, events[0]) then Some(events[0].time)
    else FirstPress(events[1..], k)
  }

  /** There is a first press exactly when some key-down of the key happened, and it is the earliest one. */
  lemma {:induction false} FirstPressIsEarliest(events: seq<Event>, k: ResponseKey)
    ensures FirstPress(events, k).None? <==> forall i :: 0 <= i < |events| ==> !IsPressOf(k, events[i])
    ensures FirstPress(events, k).Some? ==>
              exists i :: 0 <= i < |events| && IsPressOf(k, events[i]) && events[i].time == FirstPress(events, k).value &&
                          forall j :: 0 <= j < i ==> !IsPressOf(k, events[j])
  {
    if events != [] && !IsPressOf(k, events[0]) {
      FirstPressIsEarliest(events[1..], k);
      assert forall i :: 1 <= i < |events| ==> events[i] == events[1..][i - 1];
      if FirstPress(events, k).Some? {
        var i :| 0 <= i < |events[1..]| && IsPressOf(k, events[1..][i]) &&
                 events[1..][i].time == FirstPress(events, k).value &&
                 forall j :: 0 <= j < i ==> !IsPressOf(k, events[1..][j]);
        assert IsPressOf(k, events[i + 1]) && events[i + 1].time == FirstPress(events, k).value;
        forall j | 0 <= j < i + 1
          ensures !IsPressOf(k, events[j])
        {
          if j > 0 {
            assert events[j] == events[1..][j - 1];
          }
        }
      }
    }
  }

  /** Once a press has happened, later events cannot change which press counts. */
  lemma {:induction false} LaterEventsIgnored(before: seq<Event>, after: seq<Event>, k: ResponseKey)
    requires FirstPress(before, k).Some?
    ensures FirstPress(before + after, k) == FirstPress(before, k)
  {
    if !IsPressOf(k, before[0]) {
      assert (before + after)[1..] == before[1..] + after;
      LaterEventsIgnored(before[1..], after, k);
    }
  }

  /** Events without a press leave the choice to the events after them. */
  lemma {:induction false} EarlierNonPressesSkipped(before: seq<Event>, after: seq<Event>, k: ResponseKey)
    requires FirstPress(before, k).None?
    ensures FirstPress(before + after, k) == FirstPress(after, k)
  {
    if before != [] {
      assert (before + after)[1..] == before[1..] + after;
      assert !IsPressOf(k, before[0]) && (before + after)[0] == before[0];
      EarlierNonPressesSkipped(before[1..], after, k);
      assert FirstPress(before + after, k) == FirstPress((before + after)[1..], k);
    } else {
      assert before + after == after;
    }
  }

  /** One more event extends the first press of a prefix in the obvious way. */
  lemma FirstPressSnoc(events: seq<Event>, i: nat, k: ResponseKey)
    requires i < |events|
    ensures FirstPress(events[..i + 1], k) ==
            if FirstPress(events[..i], k).Some? then FirstPress(events[..i], k)
            else if IsPressOf(k, events[i]) then Some(events[i].time)
            else None
  {
    assert events[..i + 1] == events[..i] + [events[i]];
    if FirstPress(events[..i], k).Some? {
      LaterEventsIgnored(events[..i], [events[i]], k);
    } else {
      EarlierNonPressesSkipped(events[..i], [events[i]], k);
    }
  }

  /** `Math.max(0, now - start - inputLag)`. */
  function LagCompensated(now: int, start: int, inputLag: int): (rt: int)
    ensures rt >= 0
    ensures rt >= now - start - inputLag
    ensures rt == 0 || rt == now - start - inputLag
  {
    if now - start - inputLag > 0 then now - start - inputLag else 0
  }

  /** How a trial ends: whether the key was pressed, the reaction time, and when the record is written. */
  datatype Response = Response(responded: bool, reactionTime: Option<int>, at: int)

  /** The response a trial yields: the first press, or none at the end of the last phase. */
  function Resolve(t: Timeline, inputLag: int, k: ResponseKey): (r: Response)
    ensures r.responded <==> r.reactionTime.Some?
    ensures r.responded ==> r.reactionTime.value >= 0
    ensures !r.responded ==> r.at == t.end
  {
    match FirstPress(t.events, k)
    case Some(time) => Response(true, Some(LagCompensated(time, t.start, inputLag)), time)
    case None => Response(false, None, t.end)
  }

  /** A trial yields a response exactly when the key was pressed during it. */
  lemma ResolveRespondsIffPressed(t: Timeline, inputLag: int, k: ResponseKey)
    ensures Resolve(t, inputLag, k).responded <==> exists i :: 0 <= i < |t.events| && IsPressOf(k, t.events[i])
  {
    FirstPressIsEarliest(t.events, k);
  }

  /** A press at event i with none before it decides the response: its time and its lag-compensated reaction time. */
  lemma ResolveAtFirstPress(t: Timeline, i: nat, inputLag: int, k: ResponseKey)
    requires i < |t.events| && FirstPress(t.events[..i], k).None? && IsPressOf(k, t.events[i])
    ensures Resolve(t, inputLag, k) ==
            Response(true, Some(LagCompensated(t.events[i].time, t.start, inputLag)), t.events[i].time)
  {
    FirstPressSnoc(t.events, i, k);
    LaterEventsIgnored(t.events[..i + 1], t.events[i + 1..], k);
    assert t.events[..i + 1] + t.events[i + 1..] == t.events;
  }

  /** Without any press the trial ends with no response at the final timer. */
  lemma ResolveWithoutPress(t: Timeline, inputLag: int, k: ResponseKey)
    requires FirstPress(t.events, k).None?
    ensures Resolve(t, inputLag, k) == Response(false, None, t.end)
  {
  }

  /**
   * Everything a task run receives from outside that decides its data: the
   * `Math.random` draws of each block's generator and the timeline of each
   * trial, indexed by block (0 is the practice block) and trial.
   */
  datatype Environment = Environment(draws: nat -> Source, timelines: nat -> nat -> Timeline)
}
