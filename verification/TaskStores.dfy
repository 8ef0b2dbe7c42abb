/** The stores between the stages of the workflow, and the alarm that ends a simulation. */
module TaskStores {
  import opened Common
  import opened TaskLedger
  import opened Tasks

  datatype PutReply = Added | Blocked | AfterAlarm | Refused(error: LedgerError)

  datatype AlarmReply = Armed | LimitReached | SignalSpent

  /** Tasks enter in order and, unless the store is terminal, leave in order; entering and leaving is logged. */
  class TaskStore {
    const name: State
    const terminal: bool
    var items: seq<Task>
    var limit: Option<nat>
    var baseline: nat
    var triggered: bool
    var processed: bool
    var carried: seq<Task>

    /** The alarm has gone off with what came in since it was set; until then there is room below its limit. */
    ghost predicate Valid()
      reads this
    {
      && (processed ==> triggered) && (triggered ==> limit.Some?)
      && (limit.Some? && !triggered && terminal ==> baseline <= |items| < limit.value)
      && (triggered && terminal && !processed ==> |items| == limit.value && carried == items[Min(baseline, |items|)..])
    }

    constructor (name: State, terminal: bool)
      ensures Valid() && items == [] && limit.None? && !triggered && this.name == name && this.terminal == terminal
    {
      this.name, this.terminal := name, terminal;
      items, limit, baseline, triggered, processed, carried := [], None, 0, false, false, [];
    }

    /** The record that a task's entry makes in its log. */
    ghost function Entry(item: Task, now: real): Result<Log, LedgerError>
      reads item, item.history
    {
      if terminal then TerminateLog(item.terms, item.history.events, now, name, SUCCESS, item.rework)
      else StartLog(item.terms, item.history.events, now, name, item.rework)
    }

    /**
     * A task is added and its log updated, and the alarm goes off when that reaches the limit.  While an alarm is
     * going off further tasks are silently turned away; once it has been dealt with they are an error.
     */
    method Put(item: Task, now: real) returns (reply: PutReply)
      requires Valid() && item.Valid()
      modifies this`items, this`triggered, this`carried, item.history`events, item.history`delivered
      ensures item.Valid()
      ensures reply == if processed then AfterAlarm
                       else if old(triggered) then Blocked
                       else if old(Entry(item, now)).Err? then Refused(old(Entry(item, now)).error)
                       else Added
      ensures items == if reply.Blocked? then old(items) else old(items) + [item]
      ensures !reply.Refused? ==> Valid()
      ensures reply.Added? ==> Ok(item.history.events) == old(Entry(item, now))
      ensures !reply.Added? ==> item.history.events == old(item.history.events)
      ensures triggered == (old(triggered) || (reply.Added? && limit == Some(|items|)))
      ensures triggered && !old(triggered) ==> carried == items[Min(baseline, |items|)..]
    {
      items := items + [item];
      if limit.Some? {
        if processed {
          return AfterAlarm;
        }
        if triggered {
          items := items[..|items| - 1];
          return Blocked;
        }
      }
      var failed;
      if terminal {
        failed := item.Terminate(now, name, SUCCESS);
      } else {
        failed := item.Start(now, name);
      }
      if failed.Some? {
        return Refused(failed.value);
      }
      if limit.Some? && |items| == limit.value {
        triggered := true;
        carried := items[Min(baseline, |items|)..];
      }
      reply := Added;
    }

    /** The first task leaves; an error means its log did not expect that. */
    method Get(now: real) returns (item: Task, failed: Option<LedgerError>)
      requires Valid() && !terminal && items != [] && items[0].Valid()
      modifies this`items, items[0].history`events
      ensures item == old(items[0]) && items == old(items)[1..] && item.Valid() && Valid()
      ensures var r := EndLog(item.terms, old(items[0].history.events), now, Some(name), SUCCESS, item.rework);
              if failed.None? then r == Ok(item.history.events) else r == Err(failed.value)
    {
      item := items[0];
      items := items[1..];
      failed := item.End(now, Some(name), SUCCESS);
    }

    /**
     * Arms the store with a signal.  Refused, with nothing changed, when the limit is not above what is already there
     * or the signal has gone off before; a store whose earlier signal went off may be armed again with a fresh one.
     */
    method SetAlarm(newLimit: nat, spent: bool) returns (reply: AlarmReply)
      requires Valid()
      modifies this`limit, this`baseline, this`triggered, this`processed, this`carried
      ensures Valid()
      ensures reply == if newLimit <= |items| then LimitReached else if spent then SignalSpent else Armed
      ensures reply.Armed? ==> limit == Some(newLimit) && baseline == |items| && !triggered && !processed
      ensures !reply.Armed? ==>
                && limit == old(limit) && baseline == old(baseline) && triggered == old(triggered)
                && processed == old(processed) && carried == old(carried)
    {
      if newLimit <= |items| {
        return LimitReached;
      }
      if spent {
        return SignalSpent;
      }
      limit, baseline := Some(newLimit), |items|;
      triggered, processed, carried := false, false, [];
      reply := Armed;
    }
  }
}
