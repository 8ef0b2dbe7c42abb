/** A task's event log in the simulated workflow: what may be recorded when, and what the losses add up to. */
module TaskLedger {
  import opened Common

  datatype State =
    | PENDING | DEVELOPMENT | DEV_COMPLETE | QA_TESTING | QA_COMPLETE | DEPLOYMENT | DELIVERY | SUPPORT_COMPLETE

  datatype Status = SUCCESS | FAILURE

  datatype Kind = START | END | TERMINAL

  /** Times are measured from the start of the task's epoch.  Only end events carry a loss and a duration. */
  datatype TaskEvent = TaskEvent(
    kind: Kind, state: State, time: real, status: Status, loss: real, duration: real, rework: bool)

  datatype LedgerError =
    | BeforeEpoch | DecreasingTime | AfterTerminal | AlreadyStarted | InvalidState | NoHistory | NotEnded | WrongState
    | AlreadyTerminated

  type Log = seq<TaskEvent>

  type Decay = real -> real

  /** The share of the initial value left after a time: all of it at first, and once it is gone it stays gone. */
  ghost predicate Depreciates(d: Decay) {
    && d(0.0) == 1.0
    && (forall t: real :: t >= 0.0 ==> d(t) >= 0.0)
    && (forall s: real, t: real :: 0.0 <= s <= t && d(s) == 0.0 ==> d(t) == 0.0)
  }

  datatype Terms = Terms(initial: real, epochStart: real, decay: Decay)

  function ValueAt(terms: Terms, t: real): real { terms.initial * terms.decay(t) }

  /** The change of value between two times, relative to the initial value. */
  function Loss(terms: Terms, from: real, to: real): real {
    if ValueAt(terms, from) == 0.0 || terms.initial == 0.0 then 0.0
    else (ValueAt(terms, to) - ValueAt(terms, from)) / terms.initial
  }

  function Last(log: Log): TaskEvent
    requires log != []
  {
    log[|log| - 1]
  }

  function Started(time: real, state: State, rework: bool): TaskEvent {
    TaskEvent(START, state, time, SUCCESS, 0.0, 0.0, rework)
  }

  // ---------------------------------------------------------------------------------------------
  // Recording

  function StartLog(terms: Terms, log: Log, now: real, state: State, rework: bool): Result<Log, LedgerError> {
    var t := now - terms.epochStart;
    if t < 0.0 then Err(BeforeEpoch)
    else if log != [] && t < Last(log).time then Err(DecreasingTime)
    else if log != [] && Last(log).kind == TERMINAL then Err(AfterTerminal)
    else if log != [] && Last(log).kind == START && Last(log).status == SUCCESS then Err(AlreadyStarted)
    else Ok(log + [Started(t, state, rework)])
  }

  /** Without a state of its own, an end belongs to whatever was started last. */
  function EndLog(terms: Terms, log: Log, now: real, state: Option<State>, status: Status, rework: bool)
    : Result<Log, LedgerError>
  {
    var t := now - terms.epochStart;
    if t < 0.0 then Err(BeforeEpoch)
    else if log == [] then Err(NoHistory)
    else
      var last := Last(log);
      var ended := if state.Some? then state.value else last.state;
      if t < last.time then Err(DecreasingTime)
      else if last.kind == START && last.status == SUCCESS && last.state == ended then
        Ok(log + [TaskEvent(END, ended, t, status, Loss(terms, last.time, t), t - last.time, rework)])
      else Err(InvalidState)
  }

  /** Takes back the end of a stage, so that the stage goes on. */
  function ResumeLog(log: Log, state: State): Result<Log, LedgerError> {
    if log == [] then Err(NoHistory)
    else if Last(log).kind != END then Err(NotEnded)
    else if Last(log).state != state then Err(WrongState)
    else Ok(log[..|log| - 1])
  }

  function TerminateLog(terms: Terms, log: Log, now: real, state: State, status: Status, rework: bool)
    : Result<Log, LedgerError>
  {
    var t := now - terms.epochStart;
    if t < 0.0 then Err(BeforeEpoch)
    else if log != [] && t < Last(log).time then Err(DecreasingTime)
    else if log != [] && Last(log).kind == TERMINAL then Err(AlreadyTerminated)
    else Ok(log + [TaskEvent(TERMINAL, state, t, status, 0.0, 0.0, rework)])
  }

  // ---------------------------------------------------------------------------------------------
  // What a log may look like

  /** What an entry may be after the one before it. */
  ghost predicate MayFollow(terms: Terms, before: Option<TaskEvent>, e: TaskEvent) {
    && e.time >= 0.0
    && (before.Some? ==> before.value.time <= e.time && before.value.kind != TERMINAL)
    && (e.kind == START ==> e.status == SUCCESS && (before.Some? ==> before.value.kind != START))
    && (e.kind == END ==>
          && before.Some? && before.value.kind == START && before.value.state == e.state
          && e.duration == e.time - before.value.time && e.loss == Loss(terms, before.value.time, e.time))
  }

  function Before(log: Log, k: nat): Option<TaskEvent>
    requires k <= |log|
  {
    if k == 0 then None else Some(log[k - 1])
  }

  /** Time does not go back, a stage ends once after it started, starts once, and nothing follows the end of the task. */
  ghost predicate Orderly(terms: Terms, log: Log) {
    forall k :: 0 <= k < |log| ==> MayFollow(terms, Before(log, k), log[k])
  }

  lemma OrderlyAppend(terms: Terms, log: Log, e: TaskEvent)
    requires Orderly(terms, log)
    ensures Orderly(terms, log + [e]) <==> MayFollow(terms, Before(log, |log|), e)
  {
    hide MayFollow;
    var log' := log + [e];
    assert log'[|log|] == e && Before(log', |log|) == Before(log, |log|);
    forall k | 0 <= k < |log| ensures MayFollow(terms, Before(log', k), log'[k]) {
      assert log'[k] == log[k] && Before(log', k) == Before(log, k);
    }
  }

  lemma LastInPlace(terms: Terms, log: Log)
    requires Orderly(terms, log) && log != []
    ensures MayFollow(terms, Before(log, |log| - 1), Last(log))
  {
  }

  /** A start is recorded exactly when the log may look like that, and it is then the log's next entry. */
  lemma StartsIff(terms: Terms, log: Log, now: real, state: State, rework: bool)
    requires Orderly(terms, log)
    ensures var e := TaskEvent(START, state, now - terms.epochStart, SUCCESS, 0.0, 0.0, rework);
            var r := StartLog(terms, log, now, state, rework);
            (r.Ok? <==> Orderly(terms, log + [e])) && (r.Ok? ==> r.value == log + [e])
  {
    hide Orderly;
    OrderlyAppend(terms, log, TaskEvent(START, state, now - terms.epochStart, SUCCESS, 0.0, 0.0, rework));
    if log != [] { LastInPlace(terms, log); }
  }

  /** An end is recorded exactly when the stage is the one that was started last, with its time and its loss. */
  lemma EndsIff(terms: Terms, log: Log, now: real, state: Option<State>, status: Status, rework: bool)
    requires Orderly(terms, log) && log != []
    ensures var t, stage := now - terms.epochStart, if state.Some? then state.value else Last(log).state;
            var e := TaskEvent(END, stage, t, status, Loss(terms, Last(log).time, t), t - Last(log).time, rework);
            var r := EndLog(terms, log, now, state, status, rework);
            (r.Ok? <==> Orderly(terms, log + [e])) && (r.Ok? ==> r.value == log + [e])
    ensures EndLog(terms, [], now, state, status, rework).Err?
  {
    hide Orderly, Loss;
    var t, stage := now - terms.epochStart, if state.Some? then state.value else Last(log).state;
    OrderlyAppend(terms, log,
                  TaskEvent(END, stage, t, status, Loss(terms, Last(log).time, t), t - Last(log).time, rework));
    LastInPlace(terms, log);
  }

  /** Only the end of that stage can be taken back, and the stage then goes on as if it had not been recorded. */
  lemma ResumesIff(terms: Terms, log: Log, state: State)
    requires Orderly(terms, log)
    ensures var r := ResumeLog(log, state);
            && (r.Ok? <==> log != [] && Last(log).kind == END && Last(log).state == state)
            && (r.Ok? ==> Orderly(terms, r.value) && r.value + [Last(log)] == log
                          && r.value != [] && Last(r.value).kind == START && Last(r.value).state == state)
  {
    if ResumeLog(log, state).Ok? {
      LastInPlace(terms, log);
      assert log[..|log| - 1] + [Last(log)] == log;
      OrderlyInit(terms, log);
      hide Orderly;
    }
  }

  lemma OrderlyInit(terms: Terms, log: Log)
    requires Orderly(terms, log) && log != []
    ensures Orderly(terms, log[..|log| - 1])
  {
    hide MayFollow;
    var rest := log[..|log| - 1];
    forall k | 0 <= k < |rest| ensures MayFollow(terms, Before(rest, k), rest[k]) {
      assert rest[k] == log[k] && Before(rest, k) == Before(log, k);
    }
  }

  /** The task's last event is recorded once, whether a stage is still open or not. */
  lemma TerminatesIff(terms: Terms, log: Log, now: real, state: State, status: Status, rework: bool)
    requires Orderly(terms, log)
    ensures var e := TaskEvent(TERMINAL, state, now - terms.epochStart, status, 0.0, 0.0, rework);
            var r := TerminateLog(terms, log, now, state, status, rework);
            (r.Ok? <==> Orderly(terms, log + [e])) && (r.Ok? ==> r.value == log + [e])
  {
    hide Orderly;
    OrderlyAppend(terms, log, TaskEvent(TERMINAL, state, now - terms.epochStart, status, 0.0, 0.0, rework));
  }

  // ---------------------------------------------------------------------------------------------
  // Gap-free logs

  /** Each event picks up exactly where the one before it left off, the first at the start of the epoch. */
  ghost predicate Follows(terms: Terms, log: Log, k: nat)
    requires k < |log|
  {
    match log[k].kind
    case START =>
      && log[k].status == SUCCESS
      && (if k == 0 then log[k].time == 0.0 else log[k].time == log[k - 1].time && log[k - 1].kind == END)
    case END =>
      && k > 0 && log[k - 1].kind == START && log[k - 1].state == log[k].state
      && log[k - 1].time <= log[k].time
      && log[k].loss == Loss(terms, log[k - 1].time, log[k].time)
      && log[k].duration == log[k].time - log[k - 1].time
    case TERMINAL => k > 0 && k == |log| - 1 && log[k - 1].kind == END && log[k].time == log[k - 1].time
  }

  ghost predicate GapFree(terms: Terms, log: Log) {
    forall k :: 0 <= k < |log| ==> Follows(terms, log, k)
  }

  lemma {:induction false} NonNegativeTimes(terms: Terms, log: Log, k: nat)
    requires GapFree(terms, log) && k < |log|
    ensures log[k].time >= 0.0
  {
    assert Follows(terms, log, k);
    if k > 0 { NonNegativeTimes(terms, log, k - 1); }
  }

  lemma PrefixGapFree(terms: Terms, log: Log)
    requires GapFree(terms, log) && log != []
    ensures GapFree(terms, log[..|log| - 1])
    ensures forall k :: 0 <= k < |log| - 1 ==> log[k].kind != TERMINAL
  {
    var init := log[..|log| - 1];
    forall k | 0 <= k < |init| ensures Follows(terms, init, k) && log[k].kind != TERMINAL {
      assert Follows(terms, log, k);
    }
  }

  lemma AppendGapFree(terms: Terms, log: Log, e: TaskEvent)
    requires GapFree(terms, log) && (log != [] ==> Last(log).kind != TERMINAL)
    requires Follows(terms, log + [e], |log|)
    ensures GapFree(terms, log + [e])
  {
    var log' := log + [e];
    forall k | 0 <= k < |log'| ensures Follows(terms, log', k) {
      if k < |log| { assert Follows(terms, log, k); }
    }
  }

  function LossSum(log: Log): real {
    if log == [] then 0.0
    else LossSum(log[..|log| - 1]) + (if Last(log).kind == END then Last(log).loss else 0.0)
  }

  /** Over positive initial value a loss is a difference of shares. */
  lemma LossIsDifference(terms: Terms, from: real, to: real)
    requires Depreciates(terms.decay) && 0.0 <= from <= to
    ensures Loss(terms, from, to) == if terms.initial == 0.0 then 0.0 else terms.decay(to) - terms.decay(from)
  {
    var i, a, b := terms.initial, terms.decay(from), terms.decay(to);
    if i != 0.0 {
      if a == 0.0 {
        assert b == 0.0;
      } else {
        NonZeroProduct(i, a);
        assert i * b - i * a == i * (b - a);
        DivideOut(i, b - a);
      }
    }
  }

  lemma NonZeroProduct(x: real, y: real)
    requires x != 0.0 && y != 0.0
    ensures x * y != 0.0
  {
  }

  lemma DivideOut(x: real, y: real)
    requires x != 0.0
    ensures (x * y) / x == y
  {
  }

  /** The losses of a gap-free log telescope to the share of value lost since the start of the epoch. */
  lemma {:induction false} LossesTelescope(terms: Terms, log: Log)
    requires Depreciates(terms.decay) && GapFree(terms, log) && log != []
    ensures LossSum(log) == if terms.initial == 0.0 then 0.0 else terms.decay(Last(log).time) - 1.0
    decreases |log|
  {
    var n := |log| - 1;
    assert Follows(terms, log, n);
    if n > 0 {
      PrefixGapFree(terms, log);
      LossesTelescope(terms, log[..n]);
      if log[n].kind == END {
        NonNegativeTimes(terms, log, n - 1);
        LossIsDifference(terms, log[n - 1].time, log[n].time);
      }
    } else {
      assert log[..0] == [];
    }
  }

  // ---------------------------------------------------------------------------------------------
  // The moves of the workflow, each at one instant

  predicate LastIs(log: Log, kind: Kind, state: State) {
    log != [] && Last(log).kind == kind && Last(log).state == state
  }

  /** The first stage starts with the epoch. */
  lemma FirstStart(terms: Terms, state: State, rework: bool)
    ensures var r := StartLog(terms, [], terms.epochStart, state, rework);
            r.Ok? && GapFree(terms, r.value) && LastIs(r.value, START, state) && Last(r.value).time == 0.0
  {
    AppendGapFree(terms, [], Started(0.0, state, rework));
  }

  /** Leaving a store: the monitor's resume takes back what the store's get has just recorded. */
  lemma TakenUp(terms: Terms, log: Log, now: real, state: State, rework: bool)
    requires GapFree(terms, log) && LastIs(log, START, state) && now - terms.epochStart >= Last(log).time
    ensures var r := EndLog(terms, log, now, Some(state), SUCCESS, rework);
            r.Ok? && ResumeLog(r.value, state) == Ok(log)
  {
    assert Follows(terms, log, |log| - 1);
    NonNegativeTimes(terms, log, |log| - 1);
    var r := EndLog(terms, log, now, Some(state), SUCCESS, rework).value;
    assert r[..|r| - 1] == log;
  }

  /** One stage ends and the next begins at the same instant: no gap, one charge for the whole stage. */
  lemma StageOver(terms: Terms, log: Log, now: real, state: Option<State>, status: Status, rework: bool, next: State,
                  rework': bool)
    requires GapFree(terms, log) && log != [] && Last(log).kind == START
    requires state.Some? ==> state.value == Last(log).state
    requires now - terms.epochStart >= Last(log).time
    ensures var e := EndLog(terms, log, now, state, status, rework);
            && e.Ok? && GapFree(terms, e.value) && LastIs(e.value, END, Last(log).state)
            && Last(e.value).time == now - terms.epochStart
            && Last(e.value).duration == now - terms.epochStart - Last(log).time
            && Last(e.value).loss == Loss(terms, Last(log).time, now - terms.epochStart)
            && var s := StartLog(terms, e.value, now, next, rework');
            && s.Ok? && GapFree(terms, s.value) && LastIs(s.value, START, next)
            && Last(s.value).time == now - terms.epochStart
            && s.value == e.value + [Started(now - terms.epochStart, next, rework')]
  {
    assert Follows(terms, log, |log| - 1);
    NonNegativeTimes(terms, log, |log| - 1);
    var e := EndLog(terms, log, now, state, status, rework).value;
    AppendGapFree(terms, log, Last(e));
    AppendGapFree(terms, e, Started(now - terms.epochStart, next, rework'));
  }

  /** Delivery closes the log at the instant the last stage ends. */
  lemma StageDelivered(terms: Terms, log: Log, now: real, state: State, rework: bool, next: State, rework': bool)
    requires GapFree(terms, log) && LastIs(log, START, state) && now - terms.epochStart >= Last(log).time
    ensures var e := EndLog(terms, log, now, Some(state), SUCCESS, rework);
            && e.Ok?
            && var d := TerminateLog(terms, e.value, now, next, SUCCESS, rework');
            && d.Ok? && GapFree(terms, d.value) && LastIs(d.value, TERMINAL, next)
            && Last(d.value).time == now - terms.epochStart
  {
    StageOver(terms, log, now, Some(state), SUCCESS, rework, next, rework');
    var e := EndLog(terms, log, now, Some(state), SUCCESS, rework).value;
    var d := TerminateLog(terms, e, now, next, SUCCESS, rework').value;
    AppendGapFree(terms, e, Last(d));
  }

  /** The end losses of a delivered task sum to delivered value over initial value, less one. */
  lemma DeliveredLoss(terms: Terms, log: Log)
    requires Depreciates(terms.decay) && GapFree(terms, log) && log != [] && Last(log).kind == TERMINAL
    ensures terms.initial * LossSum(log) == ValueAt(terms, Last(log).time) - terms.initial
    ensures terms.initial != 0.0 ==> LossSum(log) == ValueAt(terms, Last(log).time) / terms.initial - 1.0
  {
    LossesTelescope(terms, log);
    if terms.initial != 0.0 {
      var share := terms.decay(Last(log).time);
      DivideOut(terms.initial, share);
      assert ValueAt(terms, Last(log).time) == terms.initial * share;
      assert ValueAt(terms, Last(log).time) / terms.initial == share;
    }
  }
}
