/** Tasks and their histories as they run. */
module Tasks {
  import opened Common
  import opened TaskLedger

  class TaskHistory {
    const epochStart: real
    var events: seq<TaskEvent>
    var delivered: Option<real>
    var completed: real

    constructor (epochStart: real)
      ensures this.epochStart == epochStart && events == [] && delivered.None? && completed == 0.0
    {
      this.epochStart := epochStart;
      events, delivered, completed := [], None, 0.0;
    }

    method Start(terms: Terms, now: real, state: State, rework: bool) returns (failed: Option<LedgerError>)
      requires terms.epochStart == epochStart
      modifies this`events
      ensures var r := StartLog(terms, old(events), now, state, rework);
              if failed.None? then r == Ok(events) else r == Err(failed.value) && events == old(events)
    {
      var t := now - epochStart;
      if t < 0.0 {
        return Some(BeforeEpoch);
      }
      if events != [] {
        var last := events[|events| - 1];
        if t < last.time {
          return Some(DecreasingTime);
        }
        if last.kind == TERMINAL {
          return Some(AfterTerminal);
        }
        if last.kind == START && last.status == SUCCESS {
          return Some(AlreadyStarted);
        }
      }
      events := events + [TaskEvent(START, state, t, SUCCESS, 0.0, 0.0, rework)];
      failed := None;
    }

    method End(terms: Terms, now: real, state: Option<State>, status: Status, loss: real, rework: bool)
      returns (failed: Option<LedgerError>)
      requires terms.epochStart == epochStart
      requires events != [] ==> loss == Loss(terms, Last(events).time, now - epochStart)
      modifies this`events
      ensures var r := EndLog(terms, old(events), now, state, status, rework);
              if failed.None? then r == Ok(events) else r == Err(failed.value) && events == old(events)
    {
      var t := now - epochStart;
      if t < 0.0 {
        return Some(BeforeEpoch);
      }
      if events == [] {
        return Some(NoHistory);
      }
      var last := events[|events| - 1];
      if t < last.time {
        return Some(DecreasingTime);
      }
      var ended := last.state;
      if state.Some? {
        ended := state.value;
      }
      if last.kind == START && last.status == SUCCESS && last.state == ended {
        events := events + [TaskEvent(END, ended, t, status, loss, t - last.time, rework)];
        failed := None;
      } else {
        failed := Some(InvalidState);
      }
    }

    method Resume(state: State) returns (failed: Option<LedgerError>)
      modifies this`events
      ensures var r := ResumeLog(old(events), state);
              if failed.None? then r == Ok(events) else r == Err(failed.value) && events == old(events)
    {
      if events == [] {
        return Some(NoHistory);
      }
      var last := events[|events| - 1];
      if last.kind != END {
        return Some(NotEnded);
      }
      if last.state != state {
        return Some(WrongState);
      }
      events := events[..|events| - 1];
      failed := None;
    }

    method Terminate(terms: Terms, now: real, state: State, status: Status, rework: bool)
      returns (failed: Option<LedgerError>)
      requires terms.epochStart == epochStart
      modifies this`events
      ensures var r := TerminateLog(terms, old(events), now, state, status, rework);
              if failed.None? then r == Ok(events) else r == Err(failed.value) && events == old(events)
    {
      var t := now - epochStart;
      if t < 0.0 {
        return Some(BeforeEpoch);
      }
      if events != [] {
        var last := events[|events| - 1];
        if t < last.time {
          return Some(DecreasingTime);
        }
        if last.kind == TERMINAL {
          return Some(AlreadyTerminated);
        }
      }
      events := events + [TaskEvent(TERMINAL, state, t, status, 0.0, 0.0, rework)];
      failed := None;
    }
  }

  class Task {
    const terms: Terms
    const points: real
    const history: TaskHistory
    var rework: bool

    ghost predicate Valid()
      reads this, history
    {
      terms.initial >= 0.0 && points >= 0.0 && history.epochStart == terms.epochStart
    }

    constructor (terms: Terms, points: real)
      requires terms.initial >= 0.0 && points >= 0.0
      ensures Valid() && fresh(history) && !rework && this.terms == terms && this.points == points
      ensures history.events == [] && history.completed == 0.0 && history.delivered.None?
    {
      this.terms, this.points, rework := terms, points, false;
      history := new TaskHistory(terms.epochStart);
    }

    method Start(now: real, state: State) returns (failed: Option<LedgerError>)
      requires Valid()
      modifies history`events
      ensures Valid()
      ensures var r := StartLog(terms, old(history.events), now, state, rework);
              if failed.None? then r == Ok(history.events) else r == Err(failed.value) && history.events == old(history.events)
    {
      failed := history.Start(terms, now, state, rework);
    }

    /** Charges the change of value since the last event to the stage that ends. */
    method End(now: real, state: Option<State>, status: Status) returns (failed: Option<LedgerError>)
      requires Valid()
      modifies history`events
      ensures Valid()
      ensures var r := EndLog(terms, old(history.events), now, state, status, rework);
              if failed.None? then r == Ok(history.events) else r == Err(failed.value) && history.events == old(history.events)
    {
      var loss := 0.0;
      if history.events != [] {
        loss := Loss(terms, history.events[|history.events| - 1].time, now - terms.epochStart);
      }
      failed := history.End(terms, now, state, status, loss, rework);
    }

    method Resume(state: State) returns (failed: Option<LedgerError>)
      requires Valid()
      modifies history`events
      ensures Valid()
      ensures var r := ResumeLog(old(history.events), state);
              if failed.None? then r == Ok(history.events) else r == Err(failed.value) && history.events == old(history.events)
    {
      failed := history.Resume(state);
    }

    method Terminate(now: real, state: State, status: Status) returns (failed: Option<LedgerError>)
      requires Valid()
      modifies history`events, history`delivered
      ensures Valid()
      ensures var r := TerminateLog(terms, old(history.events), now, state, status, rework);
              if failed.None? then r == Ok(history.events) else r == Err(failed.value) && history.events == old(history.events)
      ensures history.delivered == if failed.None? then Some(ValueAt(terms, now - terms.epochStart)) else old(history.delivered)
    {
      failed := history.Terminate(terms, now, state, status, rework);
      if failed.None? {
        history.delivered := Some(ValueAt(terms, now - terms.epochStart));
      }
    }
  }
}
