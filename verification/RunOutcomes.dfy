/** Where the result and the failure of every run come from, over all interleavings of the workers. */
module RunOutcomes {
  import opened Wrappers
  import opened Models
  import opened RunQueue

  /** Event i ends the run of the job that its worker works on, with this outcome. */
  ghost predicate RunEndedAt(s: System, run: seq<Event>, i: nat, id: Id, o: Outcome) {
    && i < |run| && run[i].RunEnds? && run[i].outcome == o
    && var m := Exec(s, run[..i]);
       run[i].w in m.workers && m.workers[run[i].w] == Working(id)
  }

  ghost predicate RunEnded(s: System, run: seq<Event>, id: Id, o: Outcome) {
    exists i: nat :: RunEndedAt(s, run, i, id, o)
  }

  /** What a finished hash says of the outcome. */
  predicate Reflects(r: RunHash, o: Outcome) {
    && r.finishedAt.Some?
    && (o.Result? ==> r.status == Succeeded && r.result == Some(o.result))
    && (!o.Result? ==> r.status == Failed && r.failure.Some?)
    && (!o.Result? ==> var f := r.failure.value;
          && (o.Timeout? ==> f.code == TimedOut)
          && (o.OverBudget? ==> f.code == BudgetExhausted && f.message == o.message)
          && (o.Provider? ==> f.code == (if o.code.Some? then o.code.value else ProviderError))
          && (o.Provider? ==> f.message == o.message)
          && (o.BadValue? ==> f.code == InvalidRequest && f.message == o.message)
          && (o.Crash? ==> f.code == InternalError && f.message == o.message))
  }

  lemma RunEndedLater(s: System, front: seq<Event>, e: Event, id: Id, o: Outcome)
    requires RunEnded(s, front, id, o)
    ensures RunEnded(s, front + [e], id, o)
  {
    var i: nat :| RunEndedAt(s, front, i, id, o);
    assert (front + [e])[..i] == front[..i];
    assert RunEndedAt(s, front + [e], i, id, o);
  }

  /** The code and the message under which each failing outcome is recorded. */
  lemma FailureExact(o: Outcome)
    requires !o.Result?
    ensures o.Timeout? ==> FailureOf(o).code == TimedOut
    ensures o.OverBudget? ==> FailureOf(o).code == BudgetExhausted && FailureOf(o).message == o.message
    ensures o.Provider? ==> FailureOf(o).code == if o.code.Some? then o.code.value else ProviderError
    ensures o.Provider? ==> FailureOf(o).message == o.message && FailureOf(o).hint == o.hint
    ensures o.BadValue? ==> FailureOf(o).code == InvalidRequest && FailureOf(o).message == o.message
    ensures o.Crash? ==> FailureOf(o).code == InternalError && FailureOf(o).message == o.message
  {
  }

  lemma ResultReflects(k: Keys, i: Id, o: Outcome, now: real)
    requires i in k.jobs && o.Result?
    ensures var t := SucceedCmd(k, i, o.result, now); i in t.jobs && Reflects(t.jobs[i], o)
  {
    hide Incr;
  }

  lemma FailureReflects(k: Keys, i: Id, o: Outcome, now: real)
    requires i in k.jobs && !o.Result?
    ensures var t := FailCmd(k, i, FailureOf(o), now); i in t.jobs && Reflects(t.jobs[i], o)
  {
    hide Incr, FailureOf, Reflects;
    FailureIsReflected(FailCmd(k, i, FailureOf(o), now).jobs[i], o);
  }

  lemma FailureIsReflected(r: RunHash, o: Outcome)
    requires !o.Result? && r.finishedAt.Some? && r.status == Failed && r.failure == Some(FailureOf(o))
    ensures Reflects(r, o)
  {
    FailureExact(o);
    hide FailureOf;
  }

  lemma CommandReflects(k: Keys, i: Id, o: Outcome, now: real)
    requires i in k.jobs
    ensures i in CompleteCmd(k, i, o, now).jobs && Reflects(CompleteCmd(k, i, o, now).jobs[i], o)
  {
    hide FailCmd, SucceedCmd, FailureOf, Reflects;
    if o.Result? {
      ResultReflects(k, i, o, now);
    } else {
      FailureReflects(k, i, o, now);
    }
  }

  lemma CommandSpares(k: Keys, i: Id, o: Outcome, now: real, j: Id)
    requires i in k.jobs && j != i
    ensures j in CompleteCmd(k, i, o, now).jobs <==> j in k.jobs
    ensures j in k.jobs ==> CompleteCmd(k, i, o, now).jobs[j] == k.jobs[j]
  {
    hide Incr, FailureOf;
  }

  /** A finished hash stays, or was just written from the outcome in its worker's hand. */
  lemma CompletionWrites(m: System, w: Worker, now: real, id: Id)
    requires var t := DoComplete(m, w, now); id in t.keys.jobs && Terminal(t.keys.jobs[id])
    ensures var t := DoComplete(m, w, now);
            || (id in m.keys.jobs && t.keys.jobs[id] == m.keys.jobs[id])
            || (w in m.workers && m.workers[w].Finished? && m.workers[w].id == id
                && Reflects(t.keys.jobs[id], m.workers[w].outcome))
  {
    hide CompleteCmd, Reflects;
    if w in m.workers && m.workers[w].Finished? && m.workers[w].id in m.keys.jobs {
      CommandReflects(m.keys, m.workers[w].id, m.workers[w].outcome, now);
      if m.workers[w].id != id {
        CommandSpares(m.keys, m.workers[w].id, m.workers[w].outcome, now, id);
      }
    }
  }

  lemma OtherWrites(m: System, e: Event, id: Id)
    requires !e.Complete?
    requires var t := Step(m, e); id in t.keys.jobs && Terminal(t.keys.jobs[id])
    ensures id in m.keys.jobs && Step(m, e).keys.jobs[id] == m.keys.jobs[id]
  {
    hide Incr, DoComplete;
  }

  lemma FinishedArrives(m: System, e: Event, w: Worker, id: Id, o: Outcome)
    requires var t := Step(m, e); w in t.workers && t.workers[w] == Finished(id, o)
    ensures w in m.workers
    ensures m.workers[w] == Finished(id, o) || (e == RunEnds(w, o) && m.workers[w] == Working(id))
  {
    hide EnqueueCmd, PopCmd, MarkHashCmd, MarkCountsCmd, CompleteCmd;
  }

  ghost predicate Known(s: System, run: seq<Event>, id: Id, w: Worker) {
    var t := Exec(s, run);
    && (id in t.keys.jobs && Terminal(t.keys.jobs[id]) ==>
          exists o :: RunEnded(s, run, id, o) && Reflects(t.keys.jobs[id], o))
    && (w in t.workers && t.workers[w].Finished? ==> RunEnded(s, run, t.workers[w].id, t.workers[w].outcome))
  }

  lemma {:induction false} RunKnown(s: System, run: seq<Event>, id: Id, w: Worker)
    requires Initial(s)
    ensures Known(s, run, id, w)
    decreases |run|
  {
    if run != [] {
      var front, e := run[..|run| - 1], run[|run| - 1];
      assert run == front + [e];
      RunKnown(s, front, id, w);
      if e.Complete? {
        RunKnown(s, front, id, e.w);
      }
      StepKnown(s, front, e, id, w);
    }
  }

  lemma StepKnown(s: System, front: seq<Event>, e: Event, id: Id, w: Worker)
    requires Known(s, front, id, w) && (e.Complete? ==> Known(s, front, id, e.w))
    ensures Known(s, front + [e], id, w)
  {
    var run := front + [e];
    assert run[..|front|] == front && run[|front|] == e;
    var m, t := Exec(s, front), Exec(s, run);
    assert t == Step(m, e);
    assert e.Complete? ==> t == DoComplete(m, e.w, e.now);
    hide Exec, Step, DoComplete, RunEnded, Reflects;
    if id in t.keys.jobs && Terminal(t.keys.jobs[id]) {
      if e.Complete? {
        CompletionWrites(m, e.w, e.now, id);
      } else {
        OtherWrites(m, e, id);
      }
      if id in m.keys.jobs && t.keys.jobs[id] == m.keys.jobs[id] {
        var o :| RunEnded(s, front, id, o) && Reflects(t.keys.jobs[id], o);
        RunEndedLater(s, front, e, id, o);
      } else {
        RunEndedLater(s, front, e, id, m.workers[e.w].outcome);
      }
    }
    if w in t.workers && t.workers[w].Finished? {
      var j, o := t.workers[w].id, t.workers[w].outcome;
      FinishedArrives(m, e, w, j, o);
      if m.workers[w] == t.workers[w] {
        RunEndedLater(s, front, e, j, o);
      } else {
        RunEndsNow(s, front, w, j, o);
      }
    }
  }

  lemma RunEndsNow(s: System, front: seq<Event>, w: Worker, id: Id, o: Outcome)
    requires var m := Exec(s, front); w in m.workers && m.workers[w] == Working(id)
    ensures RunEnded(s, front + [RunEnds(w, o)], id, o)
  {
    var run := front + [RunEnds(w, o)];
    assert run[..|front|] == front;
    assert RunEndedAt(s, run, |front|, id, o);
  }

  /**
   Every finished run says what happened: its hash reflects the outcome with which a worker's
   run of that very job ended, the result as it was returned and each failure under its code.
   */
  lemma {:induction false} RunsReflectOutcomes(s: System, run: seq<Event>, id: Id)
    requires Initial(s) && id in Exec(s, run).keys.jobs
    requires Exec(s, run).keys.jobs[id].status == Succeeded || Exec(s, run).keys.jobs[id].status == Failed
    ensures exists i: nat, o :: RunEndedAt(s, run, i, id, o) && Reflects(Exec(s, run).keys.jobs[id], o)
  {
    RunKnown(s, run, id, 0);
    var o :| RunEnded(s, run, id, o) && Reflects(Exec(s, run).keys.jobs[id], o);
    var i: nat :| RunEndedAt(s, run, i, id, o);
  }
}
