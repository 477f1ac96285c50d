/**
  A thread's goal: replaced by notifications, re-read on restoration, and merged only at the version
  the read started from. One thread is modelled; what other threads do to it is its eviction from the
  bounded cache. Sources: src/appServer/serverEventState.ts and src/appServer/serverEventSync.ts.
 */
module GoalSync {
  import opened Prelude

  // None when the thread has no goal.
  type Goal = Option<string>

  datatype Event =
    | Notified(goal: Goal)        // updated, or cleared
    | Reset(goal: Goal)           // reverted or deleted; the server's goal from then on
    | Disconnected

  datatype Entry = Entry(goal: Goal, stale: bool)

  // A request on its way, sent at `version` when the log had length `from`.
  datatype Read = Read(version: nat, from: nat)

  // `base` and `log` are the model's own record of the server's goal.
  datatype State = State(connected: bool, deleted: bool, disposed: bool, version: nat, entry: Option<Entry>,
                         read: Option<Read>, base: Goal, log: seq<Event>)

  predicate CanSync(s: State) {
    s.connected && !s.deleted && !s.disposed
  }

  function Started(s: State): State {
    s.(read := Some(Read(s.version, |s.log|)))
  }

  // The answer or failure came for an older version: go on reading unless a notification brought the goal.
  function Overtaken(s: State): State {
    if s.entry.Some? && !s.entry.value.stale then s.(read := None) else Started(s)
  }

  datatype Step =
    | Notify(goal: Goal)
    | Clear(goal: Goal, gone: bool)
    | Disconnect
    | Connect
    | Evict
    | Restore
    | Answer(goal: Goal)
    | Fail
    | Dispose

  function Next(s: State, step: Step): State {
    match step
    case Notify(goal) => s.(entry := Some(Entry(goal, false)), version := s.version + 1, log := s.log + [Notified(goal)])
    case Clear(goal, gone) =>
      s.(entry := None, version := s.version + 1, deleted := s.deleted || gone, log := s.log + [Reset(goal)])
    case Disconnect =>
      if !s.connected then s
      else s.(connected := false, version := if s.version > 0 then s.version + 1 else 0,
              entry := if s.entry.Some? then Some(s.entry.value.(stale := true)) else None, log := s.log + [Disconnected])
    case Connect => s.(connected := true)
    case Evict => s.(entry := None)
    case Restore => if s.read.Some? || !CanSync(s) then s else Started(s)
    case Answer(goal) =>
      if s.read.None? then s
      else if !CanSync(s) then s.(read := None)
      else if s.read.value.version != s.version then Overtaken(s)
      else s.(read := None, entry := Some(Entry(goal, false)))
    case Fail =>
      if s.read.None? then s
      else if !CanSync(s) then s.(read := None)
      else if s.read.value.version != s.version then Overtaken(s)
      else s.(read := None, entry := Some(Entry(if s.entry.Some? then s.entry.value.goal else None, true)))
    case Dispose => s.(disposed := true)
  }

  function Run(s: State, steps: seq<Step>): State
    decreases |steps|
  {
    if steps == [] then s else Run(Next(s, steps[0]), steps[1..])
  }

  // The server's goal according to everything reported.
  function Truth(base: Goal, log: seq<Event>): Goal {
    if log == [] then base
    else
      match log[|log| - 1]
      case Notified(goal) => goal
      case Reset(goal) => goal
      case Disconnected => Truth(base, log[..|log| - 1])
  }

  // An answer is the server's goal at some moment between the request and the answer.
  ghost predicate Truthful(s: State, step: Step) {
    step.Answer? && s.read.Some? ==>
      exists at: nat :: s.read.value.from <= at <= |s.log| && step.goal == Truth(s.base, s.log[..at])
  }

  ghost predicate TruthfulRun(s: State, steps: seq<Step>)
    decreases |steps|
  {
    steps != [] ==> Truthful(s, steps[0]) && TruthfulRun(Next(s, steps[0]), steps[1..])
  }

  // The version has not moved only if nothing about the goal was reported.
  ghost predicate ReadInv(s: State) {
    s.read.Some? ==>
      && s.read.value.from <= |s.log| && s.read.value.version <= s.version
      && (s.read.value.version == s.version ==> forall i :: s.read.value.from <= i < |s.log| ==> s.log[i].Disconnected?)
  }

  ghost predicate FreshIsTrue(s: State) {
    s.entry.Some? && !s.entry.value.stale ==> s.entry.value.goal == Truth(s.base, s.log)
  }

  lemma {:induction false} TruthUnchanged(base: Goal, log: seq<Event>, from: nat)
    requires from <= |log| && forall i :: from <= i < |log| ==> log[i].Disconnected?
    ensures Truth(base, log[..from]) == Truth(base, log)
    decreases |log|
  {
    if from == |log| {
      assert log[..from] == log;
    } else {
      var init := log[..|log| - 1];
      assert init[..from] == log[..from];
      TruthUnchanged(base, init, from);
    }
  }

  lemma {:induction false} MomentsAgree(base: Goal, log: seq<Event>, from: nat, at: nat)
    requires from <= at <= |log| && forall i :: from <= i < |log| ==> log[i].Disconnected?
    ensures Truth(base, log[..at]) == Truth(base, log)
  {
    TruthUnchanged(base, log, at);
  }

  lemma TruthSnoc(base: Goal, log: seq<Event>, event: Event)
    ensures Truth(base, log + [event]) == if event.Disconnected? then Truth(base, log) else event.goal
  {
    assert (log + [event])[..|log|] == log;
  }

  lemma NextKeepsInv(s: State, step: Step)
    requires ReadInv(s) && FreshIsTrue(s) && Truthful(s, step)
    ensures ReadInv(Next(s, step)) && FreshIsTrue(Next(s, step))
  {
    match step
    case Notify(goal) => TruthSnoc(s.base, s.log, Notified(goal));
    case Clear(goal, _) => TruthSnoc(s.base, s.log, Reset(goal));
    case Disconnect => TruthSnoc(s.base, s.log, Disconnected);
    case Answer(goal) =>
      if s.read.Some? && s.read.value.version == s.version {
        var at: nat :| s.read.value.from <= at <= |s.log| && goal == Truth(s.base, s.log[..at]);
        MomentsAgree(s.base, s.log, s.read.value.from, at);
      }
    case _ =>
  }

  lemma {:induction false} RunKeepsInv(s: State, steps: seq<Step>)
    requires ReadInv(s) && FreshIsTrue(s) && TruthfulRun(s, steps)
    ensures ReadInv(Run(s, steps)) && FreshIsTrue(Run(s, steps))
    decreases |steps|
  {
    hide ReadInv, FreshIsTrue, Next, Truthful;
    if steps != [] {
      NextKeepsInv(s, steps[0]);
      RunKeepsInv(Next(s, steps[0]), steps[1..]);
    }
  }

  function Initial(base: Goal): State {
    State(true, false, false, 0, None, None, base, [])
  }

  // ---- Main results ---------------------------------------------------------------------------------

  // A goal that is shown as current is the server's, whatever notifications, reads, disconnections
  // and evictions came before.
  lemma FreshGoalIsTheServers(base: Goal, steps: seq<Step>)
    requires TruthfulRun(Initial(base), steps)
    ensures var s := Run(Initial(base), steps);
            s.entry.Some? && !s.entry.value.stale ==> s.entry.value.goal == Truth(base, s.log)
  {
    RunKeepsInv(Initial(base), steps);
    BaseStays(Initial(base), steps);
  }

  lemma {:induction false} BaseStays(s: State, steps: seq<Step>)
    ensures Run(s, steps).base == s.base
    decreases |steps|
  {
    if steps != [] {
      BaseStays(Next(s, steps[0]), steps[1..]);
    }
  }

  // An answer that ends the reading, also when it came too late to be merged, leaves the server's
  // goal shown as current.
  lemma AnswerEndsWithTheServersGoal(base: Goal, steps: seq<Step>, goal: Goal)
    requires TruthfulRun(Initial(base), steps) && Truthful(Run(Initial(base), steps), Answer(goal))
    requires var s := Run(Initial(base), steps); s.read.Some? && CanSync(s)
    ensures var s' := Next(Run(Initial(base), steps), Answer(goal));
            s'.read.None? ==> s'.entry == Some(Entry(Truth(base, s'.log), false))
  {
    RunKeepsInv(Initial(base), steps);
    BaseStays(Initial(base), steps);
    NextKeepsInv(Run(Initial(base), steps), Answer(goal));
  }

  // While connected, neither disposed nor deleted: an answer is merged if no report came since its
  // request; otherwise the reading is over if a report brought the goal, and starts again if not.
  lemma AnswerSays(s: State, goal: Goal)
    requires s.read.Some? && s.connected && !s.deleted && !s.disposed
    ensures Next(s, Answer(goal)) ==
            if s.read.value.version == s.version then s.(read := None, entry := Some(Entry(goal, false)))
            else if s.entry.Some? && !s.entry.value.stale then s.(read := None)
            else s.(read := Some(Read(s.version, |s.log|)))
  {
  }

  // A failure leaves the goal that is known, as not current, under the same conditions.
  lemma FailureSays(s: State)
    requires s.read.Some? && s.connected && !s.deleted && !s.disposed
    ensures Next(s, Fail) ==
            if s.read.value.version == s.version then
              s.(read := None, entry := Some(Entry(if s.entry.Some? then s.entry.value.goal else None, true)))
            else if s.entry.Some? && !s.entry.value.stale then s.(read := None)
            else s.(read := Some(Read(s.version, |s.log|)))
  {
  }

  // Restoring the thread asks for the goal exactly if that is of use and not under way; an answer that
  // is of no use any more only ends the reading.
  lemma RestorationSays(s: State, goal: Goal)
    ensures s.connected && !s.deleted && !s.disposed && s.read.None? ==>
              Next(s, Restore) == s.(read := Some(Read(s.version, |s.log|)))
    ensures !s.connected || s.deleted || s.disposed || s.read.Some? ==> Next(s, Restore) == s
    ensures !s.connected || s.deleted || s.disposed || s.read.None? ==>
              Next(s, Answer(goal)) == Next(s, Fail) == s.(read := None)
  {
  }

  // A report is shown as current at once; a reverted or deleted thread shows no goal, and a disconnection
  // leaves the goal as not current.
  lemma ReportsSay(s: State, goal: Goal, gone: bool)
    ensures var s' := Next(s, Notify(goal));
            s'.entry == Some(Entry(goal, false)) && s'.version == s.version + 1 && s'.read == s.read
    ensures var s' := Next(s, Clear(goal, gone));
            s'.entry == None && s'.version == s.version + 1 && s'.deleted == (s.deleted || gone) && s'.read == s.read
    ensures var s' := Next(s, Disconnect);
            s.connected ==>
              && !s'.connected && s'.version == (if s.version == 0 then 0 else s.version + 1)
              && s'.entry == (if s.entry.None? then None else Some(Entry(s.entry.value.goal, true)))
  {
  }
}
