/**
  Background terminals per thread: notifications are folded into lists, a refresh replaces a list by
  the server's and replays what arrived meanwhile. Source: src/app/useBackgroundTerminals.ts.
 */
module Terminals {
  import opened Prelude

  // What notifications and listings agree on about a running command.
  datatype Terminal = Terminal(processId: string, itemId: string, command: string, cwd: string)

  // A terminal as shown: usage figures come only with a listing.
  datatype Observed = Observed(terminal: Terminal, usage: Option<int>, observedAt: int)

  // `terminal` is None for a command that is not in progress or has no process.
  datatype Note =
    | Started(thread: string, terminal: Option<Terminal>)
    | Completed(thread: string, itemId: string)
    | ThreadClosed(thread: string)
    | Unrelated(thread: string)

  // ---- One thread: the plain fold -------------------------------------------------------------------

  // The notification removes this terminal, possibly to list it anew.
  predicate Kills(note: Note, t: Terminal) {
    match note
    case Started(_, started) => started.Some? && started.value.processId == t.processId
    case Completed(_, itemId) => t.itemId == itemId
    case ThreadClosed(_) => true
    case Unrelated(_) => false
  }

  function Added(note: Note): seq<Terminal> {
    if note.Started? && note.terminal.Some? then [note.terminal.value] else []
  }

  function Survivors(list: seq<Terminal>, notes: seq<Note>): (r: seq<Terminal>)
    ensures forall t <- r :: t in list && forall note <- notes :: !Kills(note, t)
  {
    if list == [] then []
    else if exists note <- notes :: Kills(note, list[0]) then Survivors(list[1..], notes)
    else [list[0]] + Survivors(list[1..], notes)
  }

  function Apply(list: seq<Terminal>, note: Note): seq<Terminal> {
    Survivors(list, [note]) + Added(note)
  }

  // What an observer of all notifications lists.
  function Fold(notes: seq<Note>, list: seq<Terminal>): seq<Terminal> {
    if notes == [] then list else Apply(Fold(notes[..|notes| - 1], list), notes[|notes| - 1])
  }

  lemma {:induction false} SurvivorsConcat(a: seq<Terminal>, b: seq<Terminal>, notes: seq<Note>)
    ensures Survivors(a + b, notes) == Survivors(a, notes) + Survivors(b, notes)
  {
    if a == [] {
      assert a + b == b;
    } else {
      assert (a + b)[1..] == a[1..] + b;
      SurvivorsConcat(a[1..], b, notes);
    }
  }

  lemma {:induction false} SurvivorsTwice(list: seq<Terminal>, notes: seq<Note>, more: seq<Note>)
    ensures Survivors(Survivors(list, notes), more) == Survivors(list, notes + more)
  {
    if list != [] {
      SurvivorsTwice(list[1..], notes, more);
      assert forall note :: note in notes + more <==> note in notes || note in more;
      var kept := Survivors(list, notes);
      if kept != Survivors(list[1..], notes) {
        assert kept[1..] == Survivors(list[1..], notes);
      }
    }
  }

  lemma {:induction false} NoneSurvives(list: seq<Terminal>, notes: seq<Note>)
    requires forall t <- list :: exists note <- notes :: Kills(note, t)
    ensures Survivors(list, notes) == []
  {
    if list != [] {
      assert list[0] in list && forall t <- list[1..] :: t in list;
      NoneSurvives(list[1..], notes);
    }
  }

  lemma {:induction false} AllSurvive(list: seq<Terminal>)
    ensures Survivors(list, []) == list
  {
    if list != [] {
      AllSurvive(list[1..]);
    }
  }

  lemma {:induction false} FoldConcat(notes: seq<Note>, more: seq<Note>, list: seq<Terminal>)
    ensures Fold(notes + more, list) == Fold(more, Fold(notes, list))
    decreases |more|
  {
    if more == [] {
      assert notes + more == notes;
    } else {
      var init := more[..|more| - 1];
      assert (notes + more)[..|notes + more| - 1] == notes + init;
      FoldConcat(notes, init, list);
    }
  }

  // Notifications keep what they do not mention, in order, and append what they leave running.
  lemma {:induction false} FoldDecomposes(notes: seq<Note>, list: seq<Terminal>)
    ensures Fold(notes, list) == Survivors(list, notes) + Fold(notes, [])
  {
    if notes == [] {
      AllSurvive(list);
    } else {
      var init, last := notes[..|notes| - 1], notes[|notes| - 1];
      assert init + [last] == notes;
      FoldDecomposes(init, list);
      SurvivorsConcat(Survivors(list, init), Fold(init, []), [last]);
      SurvivorsTwice(list, init, [last]);
    }
  }

  lemma {:induction false} FoldedAreMentioned(notes: seq<Note>, t: Terminal)
    requires t in Fold(notes, [])
    ensures exists note <- notes :: Kills(note, t)
  {
    var init, last := notes[..|notes| - 1], notes[|notes| - 1];
    if t in Added(last) {
      assert Kills(last, t);
    } else {
      assert t in Survivors(Fold(init, []), [last]);
      FoldedAreMentioned(init, t);
      assert forall note <- init :: note in notes;
    }
  }

  // Replaying notifications that are already reflected changes nothing, not even the order.
  lemma ReplayIsIdempotent(notes: seq<Note>, list: seq<Terminal>)
    ensures Fold(notes, Fold(notes, list)) == Fold(notes, list)
  {
    FoldDecomposes(notes, list);
    FoldDecomposes(notes, Fold(notes, list));
    SurvivorsConcat(Survivors(list, notes), Fold(notes, []), notes);
    forall t <- Fold(notes, []) ensures exists note <- notes :: Kills(note, t) {
      FoldedAreMentioned(notes, t);
    }
    NoneSurvives(Fold(notes, []), notes);
    SurvivorsTwice(list, notes, notes);
    SurvivorsDoubled(list, notes);
  }

  lemma {:induction false} SurvivorsDoubled(list: seq<Terminal>, notes: seq<Note>)
    ensures Survivors(list, notes + notes) == Survivors(list, notes)
  {
    if list != [] {
      SurvivorsDoubled(list[1..], notes);
      assert forall note :: note in notes + notes <==> note in notes;
    }
  }

  // A listing that already reflects some of the notifications converges to the observer's list.
  lemma PartialSnapshotConverges(seen: seq<Note>, later: seq<Note>, list: seq<Terminal>)
    ensures Fold(seen + later, Fold(seen, list)) == Fold(seen + later, list)
  {
    FoldConcat(seen, later, Fold(seen, list));
    ReplayIsIdempotent(seen, list);
    FoldConcat(seen, later, list);
  }

  // Terminals that were ended on request are hidden before their completion is announced.
  function Without(list: seq<Terminal>, ended: set<string>): (r: seq<Terminal>)
    ensures forall t <- r :: t in list && t.processId !in ended
  {
    if list == [] then []
    else if list[0].processId in ended then Without(list[1..], ended)
    else [list[0]] + Without(list[1..], ended)
  }

  lemma {:induction false} WithoutConcat(a: seq<Terminal>, b: seq<Terminal>, ended: set<string>)
    ensures Without(a + b, ended) == Without(a, ended) + Without(b, ended)
  {
    if a == [] {
      assert a + b == b;
    } else {
      assert (a + b)[1..] == a[1..] + b;
      WithoutConcat(a[1..], b, ended);
    }
  }

  lemma {:induction false} WithoutNone(list: seq<Terminal>)
    ensures Without(list, {}) == list
  {
    if list != [] {
      WithoutNone(list[1..]);
    }
  }

  lemma {:induction false} SurvivorsWithout(list: seq<Terminal>, note: Note, ended: set<string>)
    ensures Survivors(Without(list, ended), [note]) == Without(Survivors(list, [note]), ended)
  {
    if list != [] {
      SurvivorsWithout(list[1..], note, ended);
      var kept := Without(list, ended);
      if list[0].processId !in ended {
        assert kept[1..] == Without(list[1..], ended);
      }
      var left := Survivors(list, [note]);
      if left != Survivors(list[1..], [note]) {
        assert left[1..] == Survivors(list[1..], [note]);
      }
    }
  }

  // Starting a process again makes it visible again.
  function StillEnded(ended: set<string>, note: Note): set<string> {
    if note.Started? && note.terminal.Some? then ended - {note.terminal.value.processId} else ended
  }

  lemma {:induction false} WithoutRestarted(list: seq<Terminal>, note: Note, ended: set<string>)
    requires forall t <- list :: !Kills(note, t)
    ensures Without(list, ended) == Without(list, StillEnded(ended, note))
  {
    if list != [] {
      assert list[0] in list;
      WithoutRestarted(list[1..], note, ended);
    }
  }

  lemma ApplyWithout(list: seq<Terminal>, note: Note, ended: set<string>)
    ensures Apply(Without(list, ended), note) == Without(Apply(list, note), StillEnded(ended, note))
  {
    SurvivorsWithout(list, note, ended);
    WithoutConcat(Survivors(list, [note]), Added(note), StillEnded(ended, note));
    WithoutRestarted(Survivors(list, [note]), note, ended);
    assert [note][0] == note;
    if note.Started? && note.terminal.Some? {
      var added := Added(note);
      assert added[1..] == [];
    }
  }

  lemma {:induction false} WithoutTwice(list: seq<Terminal>, ended: set<string>, p: string)
    ensures Without(Without(list, ended), {p}) == Without(list, ended + {p})
  {
    if list != [] {
      WithoutTwice(list[1..], ended, p);
      var kept := Without(list, ended);
      if list[0].processId !in ended {
        assert kept[1..] == Without(list[1..], ended);
      }
    }
  }

  // ---- All threads ------------------------------------------------------------------------------------

  // A row of a listing.
  datatype Listed = Listed(terminal: Terminal, usage: int)

  datatype State = State(byThread: map<string, seq<Observed>>, errors: set<string>, loaded: set<string>)

  const EmptyState := State(map[], {}, {})

  function Shown(st: State, thread: string): seq<Observed> {
    if thread in st.byThread then st.byThread[thread] else []
  }

  function Project(list: seq<Observed>): (r: seq<Terminal>)
    ensures |r| == |list|
    ensures forall i :: 0 <= i < |r| ==> r[i] == list[i].terminal
  {
    seq(|list|, i requires 0 <= i < |list| => list[i].terminal)
  }

  function ObservedSurvivors(list: seq<Observed>, note: Note): (r: seq<Observed>)
    ensures |r| <= |list|
    ensures |r| == |list| ==> r == list
  {
    if list == [] then []
    else if Kills(note, list[0].terminal) then ObservedSurvivors(list[1..], note)
    else [list[0]] + ObservedSurvivors(list[1..], note)
  }

  function ObservedWithout(list: seq<Observed>, processId: string): (r: seq<Observed>)
    ensures |r| <= |list|
    ensures |r| == |list| ==> r == list
  {
    if list == [] then []
    else if list[0].terminal.processId == processId then ObservedWithout(list[1..], processId)
    else [list[0]] + ObservedWithout(list[1..], processId)
  }

  function FirstObserved(list: seq<Observed>, processId: string): Option<int> {
    if list == [] then None
    else if list[0].terminal.processId == processId then Some(list[0].observedAt)
    else FirstObserved(list[1..], processId)
  }

  function LastObserved(list: seq<Observed>, processId: string): Option<int> {
    if list == [] then None
    else Coalesce(LastObserved(list[1..], processId),
                  if list[0].terminal.processId == processId then Some(list[0].observedAt) else None)
  }

  function OrElse(at: Option<int>, now: int): int {
    if at.Some? then at.value else now
  }

  function WithList(st: State, thread: string, list: seq<Observed>): State {
    st.(byThread := if list == [] then st.byThread - {thread} else st.byThread[thread := list])
  }

  function Upsert(st: State, thread: string, t: Terminal, now: int): State {
    var current := Shown(st, thread);
    var next := ObservedSurvivors(current, Started(thread, Some(t)))
                + [Observed(t, None, OrElse(FirstObserved(current, t.processId), now))];
    st.(errors := st.errors - {thread}, byThread := st.byThread[thread := next])
  }

  function RemoveItem(st: State, thread: string, itemId: string): State {
    if thread !in st.byThread then st
    else
      var next := ObservedSurvivors(st.byThread[thread], Completed(thread, itemId));
      if |next| == |st.byThread[thread]| then st else WithList(st, thread, next)
  }

  function RemoveProcess(st: State, thread: string, processId: string): State {
    if thread !in st.byThread then st
    else
      var next := ObservedWithout(st.byThread[thread], processId);
      if |next| == |st.byThread[thread]| then st else WithList(st, thread, next)
  }

  function RemoveThread(st: State, thread: string): State {
    State(st.byThread - {thread}, st.errors - {thread}, st.loaded - {thread})
  }

  function Reduce(st: State, note: Note, now: int): State {
    match note
    case Started(thread, t) => if t.Some? then Upsert(st, thread, t.value, now) else st
    case Completed(thread, itemId) => RemoveItem(st, thread, itemId)
    case ThreadClosed(thread) => RemoveThread(st, thread)
    case Unrelated(_) => st
  }

  function Observe(current: seq<Observed>, rows: seq<Listed>, now: int): (r: seq<Observed>)
    ensures |r| == |rows|
    ensures forall i :: 0 <= i < |r| ==>
              r[i] == Observed(rows[i].terminal, Some(rows[i].usage), OrElse(LastObserved(current, rows[i].terminal.processId), now))
  {
    seq(|rows|, i requires 0 <= i < |rows| =>
      Observed(rows[i].terminal, Some(rows[i].usage), OrElse(LastObserved(current, rows[i].terminal.processId), now)))
  }

  function Replace(st: State, thread: string, rows: seq<Listed>, now: int): State {
    WithList(st, thread, Observe(Shown(st, thread), rows, now))
    .(errors := st.errors - {thread}, loaded := st.loaded + {thread})
  }

  function Replay(st: State, notes: seq<Note>, now: int): State {
    if notes == [] then st else Reduce(Replay(st, notes[..|notes| - 1], now), notes[|notes| - 1], now)
  }

  function Restrict(st: State, threads: set<string>): State {
    State(map t | t in st.byThread && t in threads :: st.byThread[t], st.errors * threads, st.loaded * threads)
  }

  // ---- The hook -----------------------------------------------------------------------------------------

  // A listing on its way; `from` is where the log stood when it was requested.
  datatype Read = Read(client: nat, thread: string, generation: nat, sequence: nat, from: nat)

  // `base`, `log` and `ended` are the model's own records: what ran when the client was connected,
  // the notifications since, and the processes ended on request whose completion is still out.
  datatype Hook = Hook(client: Option<nat>, generation: nat, snapshotThreads: set<string>,
                       sequences: map<string, nat>, pending: map<string, seq<Note>>, st: State,
                       inFlight: set<Read>, base: map<string, seq<Terminal>>, log: seq<Note>, ended: map<string, set<string>>)

  const InitialHook := Hook(None, 0, {}, map[], map[], EmptyState, {}, map[], [], map[])

  datatype Outcome = Terminated | Refused | Broken | Outdated

  function Sequence(sequences: map<string, nat>, thread: string): nat {
    if thread in sequences then sequences[thread] else 0
  }

  function Ended(h: Hook, thread: string): set<string> {
    if thread in h.ended then h.ended[thread] else {}
  }

  function SwitchStep(h: Hook, client: Option<nat>, base: map<string, seq<Terminal>>): Hook {
    if h.client == client then h
    else Hook(client, h.generation + 1, {}, map[], map[], EmptyState, h.inFlight, base, [], map[])
  }

  function RefreshStep(h: Hook, thread: string): Hook {
    if h.client.None? then h
    else
      var sequence := Sequence(h.sequences, thread) + 1;
      h.(sequences := h.sequences[thread := sequence], pending := h.pending[thread := []],
         inFlight := h.inFlight + {Read(h.client.value, thread, h.generation, sequence, |h.log|)})
  }

  predicate Buffers(note: Note) {
    note.Started? || note.Completed?
  }

  function NotifyStep(h: Hook, note: Note, now: int): Hook {
    if h.client.None? then h
    else
      var thread := note.thread;
      h.(st := Reduce(h.st, note, now),
         log := h.log + [note],
         ended := h.ended[thread := StillEnded(Ended(h, thread), note)],
         sequences := if note.ThreadClosed? then h.sequences[thread := Sequence(h.sequences, thread) + 1] else h.sequences,
         pending := if note.ThreadClosed? then h.pending - {thread}
                    else if Buffers(note) && thread in h.pending then h.pending[thread := h.pending[thread] + [note]]
                    else h.pending)
  }

  function RefreshAll(h: Hook, threads: seq<string>): Hook
    decreases |threads|
  {
    if threads == [] then h
    else if threads[0] in h.snapshotThreads then RefreshAll(h, threads[1..])
    else RefreshAll(RefreshStep(h.(snapshotThreads := h.snapshotThreads + {threads[0]}), threads[0]), threads[1..])
  }

  function TargetsStep(h: Hook, threads: seq<string>): Hook {
    if h.client.None? then h.(snapshotThreads := {})
    else
      var refreshed := RefreshAll(h, threads);
      var targets := set t | t in threads;
      refreshed.(snapshotThreads := refreshed.snapshotThreads * targets, st := Restrict(refreshed.st, targets))
  }

  predicate IsCurrent(h: Hook, read: Read) {
    && read.generation == h.generation
    && h.client == Some(read.client)
    && Sequence(h.sequences, read.thread) == read.sequence
  }

  function BufferOf(h: Hook, thread: string): seq<Note> {
    if thread in h.pending then h.pending[thread] else []
  }

  function SnapshotStep(h: Hook, read: Read, rows: seq<Listed>, now: int): Hook {
    if read !in h.inFlight then h
    else
      var answered := h.(inFlight := h.inFlight - {read});
      if !IsCurrent(h, read) then answered
      else answered.(pending := h.pending - {read.thread},
                     ended := h.ended - {read.thread},
                     st := Replay(Replace(h.st, read.thread, rows, now), BufferOf(h, read.thread), now))
  }

  function SnapshotFailsStep(h: Hook, read: Read): Hook {
    if read !in h.inFlight then h
    else
      var answered := h.(inFlight := h.inFlight - {read});
      if !IsCurrent(h, read) then answered
      else answered.(pending := h.pending - {read.thread}, st := h.st.(errors := h.st.errors + {read.thread}))
  }

  function TerminateStep(h: Hook, thread: string, processId: string, outcome: Outcome): Hook {
    match outcome
    case Outdated => h
    case Terminated => h.(st := RemoveProcess(h.st, thread, processId),
                          ended := h.ended[thread := Ended(h, thread) + {processId}])
    case _ => h.(st := h.st.(errors := h.st.errors + {thread}))
  }

  datatype Step =
    | Switch(client: Option<nat>, base: map<string, seq<Terminal>>)
    | Notify(note: Note, notifiedAt: int)
    | Targets(threads: seq<string>)
    | Snapshot(read: Read, rows: seq<Listed>, answeredAt: int)
    | SnapshotFails(failed: Read)
    | TerminateBegins(thread: string)
    | TerminateEnds(terminating: string, processId: string, outcome: Outcome)

  function Next(h: Hook, step: Step): Hook {
    match step
    case Switch(client, base) => SwitchStep(h, client, base)
    case Notify(note, now) => NotifyStep(h, note, now)
    case Targets(threads) => TargetsStep(h, threads)
    case Snapshot(read, rows, now) => SnapshotStep(h, read, rows, now)
    case SnapshotFails(read) => SnapshotFailsStep(h, read)
    case TerminateBegins(thread) => h.(st := h.st.(errors := h.st.errors - {thread}))
    case TerminateEnds(thread, processId, outcome) => TerminateStep(h, thread, processId, outcome)
  }

  function Run(h: Hook, steps: seq<Step>): Hook
    decreases |steps|
  {
    if steps == [] then h else Run(Next(h, steps[0]), steps[1..])
  }

  // ---- What the server lists ------------------------------------------------------------------------------

  function Relevant(log: seq<Note>, thread: string): seq<Note> {
    if log == [] then []
    else
      var note := log[|log| - 1];
      Relevant(log[..|log| - 1], thread) + (if note.thread == thread && !note.Unrelated? then [note] else [])
  }

  // The thread's commands according to all notifications.
  function Truth(base: map<string, seq<Terminal>>, log: seq<Note>, thread: string): seq<Terminal> {
    Fold(Relevant(log, thread), if thread in base then base[thread] else [])
  }

  function Rows(rows: seq<Listed>): (r: seq<Terminal>)
    ensures |r| == |rows|
    ensures forall i :: 0 <= i < |r| ==> r[i] == rows[i].terminal
  {
    seq(|rows|, i requires 0 <= i < |rows| => rows[i].terminal)
  }

  // A listing answers with what ran at some moment between its request and its answer.
  ghost predicate Truthful(h: Hook, step: Step) {
    step.Snapshot? && step.read in h.inFlight && IsCurrent(h, step.read) ==>
      exists at: nat :: step.read.from <= at <= |h.log| && Rows(step.rows) == Truth(h.base, h.log[..at], step.read.thread)
  }

  ghost predicate TruthfulRun(h: Hook, steps: seq<Step>)
    decreases |steps|
  {
    steps != [] ==> Truthful(h, steps[0]) && TruthfulRun(Next(h, steps[0]), steps[1..])
  }

  ghost predicate NoClose(log: seq<Note>, from: nat, thread: string) {
    forall i :: from <= i < |log| ==> log[i] != ThreadClosed(thread)
  }

  // ---- Invariants -----------------------------------------------------------------------------------------

  ghost predicate ReadInv(h: Hook, read: Read) {
    && read.generation <= h.generation
    && (read.generation == h.generation ==>
          h.client == Some(read.client) && read.from <= |h.log| && 0 < read.sequence <= Sequence(h.sequences, read.thread))
    && (IsCurrent(h, read) ==>
          && read.thread in h.pending
          && h.pending[read.thread] == Relevant(h.log[read.from..], read.thread)
          && NoClose(h.log, read.from, read.thread))
  }

  predicate SameRequest(h: Hook, a: Read, b: Read) {
    a.generation == b.generation == h.generation && a.thread == b.thread && a.sequence == b.sequence
  }

  ghost predicate ReadsInv(h: Hook) {
    && (forall read <- h.inFlight :: ReadInv(h, read))
    && (forall a, b :: a in h.inFlight && b in h.inFlight && SameRequest(h, a, b) ==> a == b)
  }

  // A loaded thread shows what the server runs, except what was ended on request.
  ghost predicate ShowsTruth(h: Hook, thread: string) {
    Project(Shown(h.st, thread)) == Without(Truth(h.base, h.log, thread), Ended(h, thread))
  }

  ghost predicate LoadedInv(h: Hook) {
    forall thread <- h.st.loaded :: ShowsTruth(h, thread)
  }

  // ---- Lists and their projections ----------------------------------------------------------------------------

  lemma ProjectConcat(a: seq<Observed>, b: seq<Observed>)
    ensures Project(a + b) == Project(a) + Project(b)
  {
  }

  lemma {:induction false} ProjectSurvivors(list: seq<Observed>, note: Note)
    ensures Project(ObservedSurvivors(list, note)) == Survivors(Project(list), [note])
  {
    if list != [] {
      assert Project(list)[1..] == Project(list[1..]);
      assert [note][0] == note;
      ProjectSurvivors(list[1..], note);
      ProjectConcat([list[0]], ObservedSurvivors(list[1..], note));
    }
  }

  lemma {:induction false} ProjectWithout(list: seq<Observed>, processId: string)
    ensures Project(ObservedWithout(list, processId)) == Without(Project(list), {processId})
  {
    if list != [] {
      assert Project(list)[1..] == Project(list[1..]);
      ProjectWithout(list[1..], processId);
      ProjectConcat([list[0]], ObservedWithout(list[1..], processId));
    }
  }

  lemma ClosedEmpties(list: seq<Terminal>, thread: string)
    ensures Apply(list, ThreadClosed(thread)) == []
  {
    var note := ThreadClosed(thread);
    forall t <- list ensures exists n <- [note] :: Kills(n, t) {
      assert note in [note] && Kills(note, t);
    }
    NoneSurvives(list, [note]);
  }

  // The reducer follows the plain fold on the thread concerned and leaves the others alone.
  lemma ReduceFollowsFold(st: State, note: Note, now: int, thread: string)
    ensures var list := Project(Shown(st, thread));
            Project(Shown(Reduce(st, note, now), thread)) ==
              (if note.thread == thread && !note.Unrelated? then Apply(list, note) else list)
    ensures var loaded := Reduce(st, note, now).loaded;
            loaded == if note.ThreadClosed? then st.loaded - {note.thread} else st.loaded
  {
    if note.thread == thread {
      var list := Shown(st, thread);
      ProjectSurvivors(list, note);
      match note {
        case Started(_, t) =>
          if t.Some? {
            var at := OrElse(FirstObserved(list, t.value.processId), now);
            ProjectConcat(ObservedSurvivors(list, note), [Observed(t.value, None, at)]);
            assert Project([Observed(t.value, None, at)]) == Added(note);
          } else {
            NothingKilled(Project(list), note);
          }
        case ThreadClosed(_) => ClosedEmpties(Project(list), thread);
        case _ =>
      }
    }
  }

  lemma {:induction false} NothingKilled(list: seq<Terminal>, note: Note)
    requires note.Started? && note.terminal.None?
    ensures Apply(list, note) == list
  {
    if list != [] {
      NothingKilled(list[1..], note);
    }
  }

  lemma ReduceLeavesOthers(st: State, note: Note, now: int, other: string)
    requires other != note.thread
    ensures Shown(Reduce(st, note, now), other) == Shown(st, other)
  {
  }

  lemma {:induction false} ReplayLeavesOthers(st: State, notes: seq<Note>, now: int, thread: string, other: string)
    requires (forall note <- notes :: note.thread == thread) && other != thread
    ensures Shown(Replay(st, notes, now), other) == Shown(st, other)
  {
    hide Reduce, Shown;
    if notes != [] {
      var init := notes[..|notes| - 1];
      ReplayLeavesOthers(st, init, now, thread, other);
      ReduceLeavesOthers(Replay(st, init, now), notes[|notes| - 1], now, other);
    }
  }

  lemma {:induction false} ReplayFollowsFold(st: State, notes: seq<Note>, now: int, thread: string)
    requires forall note <- notes :: note.thread == thread && Buffers(note)
    ensures Project(Shown(Replay(st, notes, now), thread)) == Fold(notes, Project(Shown(st, thread)))
    ensures Replay(st, notes, now).loaded == st.loaded
  {
    hide Reduce, Shown, Apply;
    if notes != [] {
      var init, last := notes[..|notes| - 1], notes[|notes| - 1];
      assert last in notes;
      ReplayFollowsFold(st, init, now, thread);
      ReduceFollowsFold(Replay(st, init, now), last, now, thread);
    }
  }

  // ---- Logs ----------------------------------------------------------------------------------------------

  lemma {:induction false} RelevantConcat(a: seq<Note>, b: seq<Note>, thread: string)
    ensures Relevant(a + b, thread) == Relevant(a, thread) + Relevant(b, thread)
    decreases |b|
  {
    if b == [] {
      assert a + b == a;
    } else {
      var init := b[..|b| - 1];
      assert (a + b)[..|a + b| - 1] == a + init;
      RelevantConcat(a, init, thread);
    }
  }

  lemma RelevantSnoc(log: seq<Note>, note: Note, thread: string)
    ensures Relevant(log + [note], thread) ==
              Relevant(log, thread) + (if note.thread == thread && !note.Unrelated? then [note] else [])
  {
    assert (log + [note])[..|log|] == log;
  }

  lemma {:induction false} RelevantIsBuffered(log: seq<Note>, thread: string)
    requires NoClose(log, 0, thread)
    ensures forall note <- Relevant(log, thread) :: note.thread == thread && Buffers(note)
  {
    if log != [] {
      var init, last := log[..|log| - 1], log[|log| - 1];
      RelevantIsBuffered(init, thread);
      assert last == log[|log| - 1];
    }
  }

  lemma TruthSnoc(base: map<string, seq<Terminal>>, log: seq<Note>, note: Note, thread: string)
    ensures Truth(base, log + [note], thread) ==
              if note.thread == thread && !note.Unrelated? then Apply(Truth(base, log, thread), note) else Truth(base, log, thread)
  {
    RelevantSnoc(log, note, thread);
    var relevant := Relevant(log, thread);
    assert (relevant + [note])[..|relevant|] == relevant && relevant + [] == relevant;
  }

  // A listing taken at any moment since the request, followed by everything buffered since the
  // request, is what all notifications amount to.
  lemma SnapshotPlusBufferIsTruth(base: map<string, seq<Terminal>>, log: seq<Note>, from: nat, at: nat, thread: string)
    requires from <= at <= |log|
    ensures Fold(Relevant(log[from..], thread), Truth(base, log[..at], thread)) == Truth(base, log, thread)
  {
    hide Fold, Relevant;
    var start := if thread in base then base[thread] else [];
    var before, seen, later := Relevant(log[..from], thread), Relevant(log[from..at], thread), Relevant(log[at..], thread);
    assert log[..from] + log[from..at] == log[..at];
    RelevantConcat(log[..from], log[from..at], thread);
    assert log[from..at] + log[at..] == log[from..];
    RelevantConcat(log[from..at], log[at..], thread);
    assert log[..from] + log[from..] == log;
    RelevantConcat(log[..from], log[from..], thread);
    FoldConcat(before, seen, start);
    FoldConcat(before, seen + later, start);
    PartialSnapshotConverges(seen, later, Fold(before, start));
  }

  // ---- Steps keep the invariants -------------------------------------------------------------------------------

  lemma NotifyKeepsRead(h: Hook, note: Note, now: int, read: Read)
    requires ReadInv(h, read) && h.client.Some?
    ensures ReadInv(NotifyStep(h, note, now), read)
  {
    hide Reduce, StillEnded, Relevant;
    var h' := NotifyStep(h, note, now);
    if IsCurrent(h', read) {
      assert IsCurrent(h, read);
      assert (h.log + [note])[read.from..] == h.log[read.from..] + [note];
      RelevantSnoc(h.log[read.from..], note, read.thread);
    }
  }

  lemma NotifyKeepsReads(h: Hook, note: Note, now: int)
    requires ReadsInv(h)
    ensures ReadsInv(NotifyStep(h, note, now))
  {
    if h.client.Some? {
      forall read <- h.inFlight ensures ReadInv(NotifyStep(h, note, now), read) {
        NotifyKeepsRead(h, note, now, read);
      }
    }
    hide ReadInv, Reduce, StillEnded;
  }

  lemma NotifyKeepsLoaded(h: Hook, note: Note, now: int)
    requires LoadedInv(h)
    ensures LoadedInv(NotifyStep(h, note, now))
  {
    if h.client.Some? {
      var h' := NotifyStep(h, note, now);
      forall thread <- h'.st.loaded ensures ShowsTruth(h', thread) {
        ReduceFollowsFold(h.st, note, now, thread);
        assert ShowsTruth(h, thread);
        TruthSnoc(h.base, h.log, note, thread);
        var truth, ended := Truth(h.base, h.log, thread), Ended(h, thread);
        ApplyWithout(truth, note, ended);
        hide Reduce, Truth, Apply, StillEnded, Shown;
        if note.thread == thread && note.Unrelated? {
          assert StillEnded(ended, note) == ended by { UnrelatedEndsNothing(ended, note); }
        }
      }
    }
  }

  lemma UnrelatedEndsNothing(ended: set<string>, note: Note)
    requires note.Unrelated?
    ensures StillEnded(ended, note) == ended
  {
  }

  lemma RefreshKeepsReads(h: Hook, thread: string)
    requires ReadsInv(h)
    ensures ReadsInv(RefreshStep(h, thread))
  {
    assert h.log[|h.log|..] == [];
  }

  lemma {:induction false} RefreshAllKeepsInv(h: Hook, threads: seq<string>)
    requires ReadsInv(h) && LoadedInv(h)
    ensures var h' := RefreshAll(h, threads);
            && ReadsInv(h') && LoadedInv(h')
            && h' == h.(snapshotThreads := h'.snapshotThreads, sequences := h'.sequences, pending := h'.pending, inFlight := h'.inFlight)
    decreases |threads|
  {
    if threads != [] {
      if threads[0] in h.snapshotThreads {
        RefreshAllKeepsInv(h, threads[1..]);
      } else {
        var h1 := h.(snapshotThreads := h.snapshotThreads + {threads[0]});
        assert ReadsInv(h1) && LoadedInv(h1);
        RefreshKeepsReads(h1, threads[0]);
        assert LoadedInv(RefreshStep(h1, threads[0]));
        RefreshAllKeepsInv(RefreshStep(h1, threads[0]), threads[1..]);
      }
    }
  }

  lemma TargetsKeepInv(h: Hook, threads: seq<string>)
    requires ReadsInv(h) && LoadedInv(h)
    ensures ReadsInv(TargetsStep(h, threads)) && LoadedInv(TargetsStep(h, threads))
  {
    RefreshAllKeepsInv(h, threads);
    hide RefreshAll;
  }

  lemma AnswerKeepsReads(h: Hook, read: Read, rows: seq<Listed>, now: int)
    requires ReadsInv(h)
    ensures ReadsInv(SnapshotStep(h, read, rows, now)) && ReadsInv(SnapshotFailsStep(h, read))
  {
    hide Replay, Replace, Relevant;
    if read in h.inFlight && IsCurrent(h, read) {
      forall other | other in h.inFlight && other != read && IsCurrent(h, other) ensures other.thread != read.thread {
        assert ReadInv(h, other) && ReadInv(h, read);
        assert other.thread == read.thread ==> SameRequest(h, other, read);
      }
    }
  }

  lemma ReplaceShows(st: State, thread: string, rows: seq<Listed>, now: int, other: string)
    ensures Project(Shown(Replace(st, thread, rows, now), thread)) == Rows(rows)
    ensures other != thread ==> Shown(Replace(st, thread, rows, now), other) == Shown(st, other)
    ensures Replace(st, thread, rows, now).loaded == st.loaded + {thread}
  {
  }

  lemma SnapshotShowsTruth(h: Hook, read: Read, rows: seq<Listed>, now: int)
    requires ReadsInv(h) && read in h.inFlight && IsCurrent(h, read) && Truthful(h, Snapshot(read, rows, now))
    ensures var h' := SnapshotStep(h, read, rows, now);
            read.thread in h'.st.loaded && Project(Shown(h'.st, read.thread)) == Truth(h'.base, h'.log, read.thread)
            && ShowsTruth(h', read.thread)
  {
    var thread, buffer := read.thread, h.pending[read.thread];
    assert ReadInv(h, read);
    assert NoClose(h.log[read.from..], 0, thread);
    RelevantIsBuffered(h.log[read.from..], thread);
    ReplaceShows(h.st, thread, rows, now, "");
    ReplayFollowsFold(Replace(h.st, thread, rows, now), buffer, now, thread);
    var step := Snapshot(read, rows, now);
    var at: nat :| read.from <= at <= |h.log| && Rows(rows) == Truth(h.base, h.log[..at], thread);
    SnapshotPlusBufferIsTruth(h.base, h.log, read.from, at, thread);
    WithoutNone(Truth(h.base, h.log, thread));
    hide Replay, Replace, Truth, Fold, Relevant, Shown;
  }

  lemma SnapshotKeepsLoaded(h: Hook, read: Read, rows: seq<Listed>, now: int)
    requires ReadsInv(h) && LoadedInv(h) && Truthful(h, Snapshot(read, rows, now))
    ensures LoadedInv(SnapshotStep(h, read, rows, now))
  {
    if read in h.inFlight && IsCurrent(h, read) {
      var h', thread, buffer := SnapshotStep(h, read, rows, now), read.thread, h.pending[read.thread];
      SnapshotShowsTruth(h, read, rows, now);
      assert ReadInv(h, read);
      RelevantIsBuffered(h.log[read.from..], thread);
      ReplayFollowsFold(Replace(h.st, thread, rows, now), buffer, now, thread);
      forall other | other in h'.st.loaded && other != thread ensures ShowsTruth(h', other) {
        ReplaceShows(h.st, thread, rows, now, other);
        ReplayLeavesOthers(Replace(h.st, thread, rows, now), buffer, now, thread, other);
        assert ShowsTruth(h, other);
        hide Replay, Replace, Truth, Shown, Relevant;
      }
    }
  }

  lemma RemoveProcessShows(st: State, thread: string, processId: string, t: string)
    ensures Project(Shown(RemoveProcess(st, thread, processId), t)) ==
              if t == thread then Without(Project(Shown(st, t)), {processId}) else Project(Shown(st, t))
    ensures RemoveProcess(st, thread, processId).loaded == st.loaded
  {
    ProjectWithout(Shown(st, thread), processId);
    hide Project, Without;
    assert Project([]) == [] by { EmptyProjects(); }
  }

  lemma EmptyProjects()
    ensures Project([]) == []
  {
  }

  lemma TerminateKeepsLoaded(h: Hook, thread: string, processId: string, outcome: Outcome)
    requires LoadedInv(h)
    ensures LoadedInv(TerminateStep(h, thread, processId, outcome))
  {
    var h' := TerminateStep(h, thread, processId, outcome);
    forall t <- h'.st.loaded ensures ShowsTruth(h', t) {
      hide Project, Without, Truth, RemoveProcess, Shown;
      RemoveProcessShows(h.st, thread, processId, t);
      assert ShowsTruth(h, t);
      WithoutTwice(Truth(h.base, h.log, t), Ended(h, t), processId);
      if !outcome.Terminated? {
        SameShown(h.st, h'.st, t);
      }
    }
  }

  lemma SameShown(st: State, st': State, thread: string)
    requires st.byThread == st'.byThread
    ensures Shown(st, thread) == Shown(st', thread)
  {
  }

  ghost predicate HookInv(h: Hook) {
    ReadsInv(h) && LoadedInv(h)
  }

  lemma {:induction false} NextKeepsInv(h: Hook, step: Step)
    requires HookInv(h)
    ensures ReadsInv(Next(h, step))
    ensures Truthful(h, step) ==> HookInv(Next(h, step))
  {
    match step {
      case Switch(client, base) => SwitchKeepsInv(h, client, base);
      case Notify(note, now) => NotifyKeepsReads(h, note, now); NotifyKeepsLoaded(h, note, now);
      case Targets(threads) => TargetsKeepInv(h, threads);
      case Snapshot(read, rows, now) =>
        AnswerKeepsReads(h, read, rows, now);
        if Truthful(h, step) {
          SnapshotKeepsLoaded(h, read, rows, now);
        }
      case SnapshotFails(read) => AnswerKeepsReads(h, read, [], 0); ErrorsKeepInv(h, SnapshotFailsStep(h, read));
      case TerminateBegins(thread) => ErrorsKeepInv(h, Next(h, step)); ReadsDependOn(h, Next(h, step));
      case TerminateEnds(thread, processId, outcome) =>
        TerminateKeepsLoaded(h, thread, processId, outcome);
        ReadsDependOn(h, Next(h, step));
    }
    hide ReadsInv, LoadedInv, NotifyStep, TargetsStep, SnapshotStep, SwitchStep, Truthful;
  }

  lemma SwitchKeepsInv(h: Hook, client: Option<nat>, base: map<string, seq<Terminal>>)
    requires HookInv(h)
    ensures HookInv(SwitchStep(h, client, base))
  {
    forall read <- h.inFlight ensures read.generation < h.generation + 1 {
      assert ReadInv(h, read);
    }
  }

  // Error messages are no part of what is listed.
  lemma ErrorsKeepInv(h: Hook, h': Hook)
    requires LoadedInv(h) && h'.base == h.base && h'.log == h.log && h'.ended == h.ended
    requires h'.st == h.st.(errors := h'.st.errors)
    ensures LoadedInv(h')
  {
    forall thread <- h'.st.loaded ensures ShowsTruth(h', thread) {
      assert ShowsTruth(h, thread);
    }
  }

  lemma ReadsDependOn(h: Hook, h': Hook)
    requires ReadsInv(h) && h' == h.(st := h'.st, ended := h'.ended)
    ensures ReadsInv(h')
  {
    forall read <- h'.inFlight ensures ReadInv(h', read) {
      assert ReadInv(h, read);
    }
    hide ReadInv;
    forall a, b | a in h'.inFlight && b in h'.inFlight && SameRequest(h', a, b) ensures a == b {
      assert SameRequest(h, a, b);
    }
  }

  lemma {:induction false} RunKeepsInv(h: Hook, steps: seq<Step>)
    requires HookInv(h) && TruthfulRun(h, steps)
    ensures HookInv(Run(h, steps))
    decreases |steps|
  {
    hide ReadsInv, LoadedInv, Next, Truthful;
    if steps != [] {
      NextKeepsInv(h, steps[0]);
      RunKeepsInv(Next(h, steps[0]), steps[1..]);
    }
  }

  // ---- Main results -------------------------------------------------------------------------------------------

  // Whatever refreshes, notifications, terminations and changes of client interleave: a loaded thread
  // shows exactly what the server runs, in order, apart from processes ended on request.
  lemma LoadedThreadsShowTheTruth(steps: seq<Step>, thread: string)
    requires TruthfulRun(InitialHook, steps) && thread in Run(InitialHook, steps).st.loaded
    ensures var h := Run(InitialHook, steps);
            Project(Shown(h.st, thread)) == Without(Truth(h.base, h.log, thread), Ended(h, thread))
  {
    RunKeepsInv(InitialHook, steps);
    assert ShowsTruth(Run(InitialHook, steps), thread);
  }

  // A refresh of a thread that was closed or deleted meanwhile, or of a former connection, changes
  // nothing that is shown, whatever the server answers.
  lemma LateSnapshotChangesNothing(h: Hook, read: Read, rows: seq<Listed>, now: int)
    requires ReadsInv(h) && read in h.inFlight
    requires read.generation != h.generation || !NoClose(h.log, read.from, read.thread)
    ensures SnapshotStep(h, read, rows, now) == h.(inFlight := h.inFlight - {read})
    ensures SnapshotFailsStep(h, read) == h.(inFlight := h.inFlight - {read})
  {
    assert ReadInv(h, read);
  }

  // Only the latest refresh of a thread is taken.
  lemma OvertakenRefreshIsDropped(h: Hook, read: Read, later: Read, rows: seq<Listed>, now: int)
    requires ReadsInv(h) && read in h.inFlight && later in h.inFlight
    requires read.generation == later.generation == h.generation && read.thread == later.thread
    requires read.sequence < later.sequence
    ensures SnapshotStep(h, read, rows, now).st == h.st
  {
    assert ReadInv(h, later);
  }

  // A process keeps the time it was first observed while it is listed.
  lemma RestartKeepsObservationTime(st: State, thread: string, t: Terminal, now: int)
    ensures var list := Shown(Upsert(st, thread, t, now), thread);
            && list != [] && list[|list| - 1].terminal == t
            && list[|list| - 1].observedAt == OrElse(FirstObserved(Shown(st, thread), t.processId), now)
            && (forall o <- list[..|list| - 1] :: o in Shown(st, thread) && o.terminal.processId != t.processId)
  {
    SurvivorsAreOld(Shown(st, thread), Started(thread, Some(t)));
    var kept := ObservedSurvivors(Shown(st, thread), Started(thread, Some(t)));
    var list := Shown(Upsert(st, thread, t, now), thread);
    assert list[..|list| - 1] == kept;
  }

  lemma {:induction false} SurvivorsAreOld(list: seq<Observed>, note: Note)
    ensures forall o <- ObservedSurvivors(list, note) :: o in list && !Kills(note, o.terminal)
  {
    if list != [] {
      SurvivorsAreOld(list[1..], note);
    }
  }

  // ---- What each step does ----------------------------------------------------------------------------------------

  lemma {:induction false} SurvivorsFilter(list: seq<Observed>, thread: string, t: Terminal, itemId: string)
    ensures ObservedSurvivors(list, Started(thread, Some(t))) == Filter((o: Observed) => o.terminal.processId != t.processId, list)
    ensures ObservedSurvivors(list, Completed(thread, itemId)) == Filter((o: Observed) => o.terminal.itemId != itemId, list)
    ensures ObservedWithout(list, t.processId) == Filter((o: Observed) => o.terminal.processId != t.processId, list)
  {
    if list != [] {
      SurvivorsFilter(list[1..], thread, t, itemId);
    }
  }

  lemma {:induction false} FirstObservedIsFirst(list: seq<Observed>, processId: string, i: nat)
    requires i < |list| && list[i].terminal.processId == processId
    requires forall j :: 0 <= j < i ==> list[j].terminal.processId != processId
    ensures FirstObserved(list, processId) == Some(list[i].observedAt)
  {
    if i > 0 {
      assert list[0].terminal.processId != processId;
      assert forall j :: 0 <= j < i - 1 ==> list[1..][j] == list[j + 1];
      FirstObservedIsFirst(list[1..], processId, i - 1);
    }
  }

  // A command that starts replaces what is listed of its process and comes last; any error is forgotten.
  lemma StartSays(st: State, thread: string, t: Terminal, now: int)
    ensures var st', list := Reduce(st, Started(thread, Some(t)), now), Shown(st, thread);
            && st' == State(st.byThread[thread := Shown(st', thread)], st.errors - {thread}, st.loaded)
            && Shown(st', thread) == Filter((o: Observed) => o.terminal.processId != t.processId, list)
                                     + [Observed(t, None, OrElse(FirstObserved(list, t.processId), now))]
    ensures Reduce(st, Started(thread, None), now) == Reduce(st, Unrelated(thread), now) == st
  {
    SurvivorsFilter(Shown(st, thread), thread, t, "");
    hide ObservedSurvivors, Filter;
  }

  // A command that is completed is listed no more, and nothing else changes;
  lemma CompletionSays(st: State, thread: string, itemId: string, now: int, other: string)
    ensures var st' := Reduce(st, Completed(thread, itemId), now);
            && Shown(st', thread) == Filter((o: Observed) => o.terminal.itemId != itemId, Shown(st, thread))
            && (other != thread ==> Shown(st', other) == Shown(st, other))
            && (st'.errors, st'.loaded) == (st.errors, st.loaded)
  {
    SurvivorsFilter(Shown(st, thread), thread, Terminal("", "", "", ""), itemId);
    hide ObservedSurvivors;
  }

  // a closed or deleted thread is forgotten.
  lemma ClosingSays(st: State, thread: string, now: int)
    ensures Reduce(st, ThreadClosed(thread), now) == State(st.byThread - {thread}, st.errors - {thread}, st.loaded - {thread})
  {
  }

  // Ending a process on request removes exactly it; when that fails the thread shows an error; an outcome
  // for another connection or thread is not heard.
  lemma TerminationSays(h: Hook, thread: string, processId: string, other: string)
    ensures var h' := Next(h, TerminateEnds(thread, processId, Terminated));
            && Shown(h'.st, thread) == Filter((o: Observed) => o.terminal.processId != processId, Shown(h.st, thread))
            && (other != thread ==> Shown(h'.st, other) == Shown(h.st, other))
            && h' == h.(st := State(h'.st.byThread, h.st.errors, h.st.loaded), ended := h'.ended)
    ensures forall outcome <- [Refused, Broken] ::
              Next(h, TerminateEnds(thread, processId, outcome)) == h.(st := h.st.(errors := h.st.errors + {thread}))
    ensures Next(h, TerminateEnds(thread, processId, Outdated)) == h
    ensures Next(h, TerminateBegins(thread)) == h.(st := h.st.(errors := h.st.errors - {thread}))
  {
    SurvivorsFilter(Shown(h.st, thread), thread, Terminal(processId, "", "", ""), "");
    hide ObservedSurvivors, Filter, ObservedWithout;
  }

  // The latest refresh of a thread is one of this connection that nothing has outdated.
  ghost predicate IsLatest(h: Hook, read: Read) {
    && h.client == Some(read.client) && read.generation == h.generation
    && read.thread in h.sequences && h.sequences[read.thread] == read.sequence
  }

  // Its answer is taken: the thread lists it, with what arrived since the request replayed on it;
  lemma LatestAnswerIsTaken(h: Hook, read: Read, rows: seq<Listed>, now: int)
    requires ReadsInv(h) && read in h.inFlight && IsLatest(h, read)
    ensures var h' := Next(h, Snapshot(read, rows, now));
            && h' == h.(inFlight := h.inFlight - {read}, pending := h.pending - {read.thread}, ended := h.ended - {read.thread}, st := h'.st)
            && read.from <= |h.log|
            && Project(Shown(h'.st, read.thread)) == Fold(Relevant(h.log[read.from..], read.thread), Rows(rows))
            && read.thread in h'.st.loaded
  {
    assert ReadInv(h, read);
    var since := h.log[read.from..];
    AnswerProjects(h.st, read.thread, rows, now);
    RelevantIsBuffered(since, read.thread);
    ReplayFollowsFold(Replace(h.st, read.thread, rows, now), Relevant(since, read.thread), now, read.thread);
    hide Fold, Relevant, Observe, Replay;
  }

  // if nothing did, the thread lists it as it is, with the usage figures, and shows no error.
  lemma QuietAnswerIsShown(h: Hook, read: Read, rows: seq<Listed>, now: int)
    requires read in h.inFlight && IsLatest(h, read) && BufferOf(h, read.thread) == []
    ensures var st', list := Next(h, Snapshot(read, rows, now)).st, Shown(h.st, read.thread);
            && st'.loaded == h.st.loaded + {read.thread} && st'.errors == h.st.errors - {read.thread}
            && |Shown(st', read.thread)| == |rows|
            && (forall i :: 0 <= i < |rows| ==>
                  Shown(st', read.thread)[i] ==
                  Observed(rows[i].terminal, Some(rows[i].usage), OrElse(LastObserved(list, rows[i].terminal.processId), now)))
            && (forall other :: other != read.thread ==> Shown(st', other) == Shown(h.st, other))
  {
  }

  lemma AnswerProjects(st: State, thread: string, rows: seq<Listed>, now: int)
    ensures Project(Shown(Replace(st, thread, rows, now), thread)) == Rows(rows)
  {
    var list := Observe(Shown(st, thread), rows, now);
    assert Project(list) == Rows(rows);
  }

  // A failed refresh shows an error and leaves the list.
  lemma LatestFailureIsShown(h: Hook, read: Read)
    requires read in h.inFlight && IsLatest(h, read)
    ensures Next(h, SnapshotFails(read)) == h.(inFlight := h.inFlight - {read}, pending := h.pending - {read.thread},
                                               st := h.st.(errors := h.st.errors + {read.thread}))
  {
  }

  // A refresh is outdated only by another connection, by its thread being closed, or by its thread being
  // followed anew.
  lemma RefreshStaysLatestIff(h: Hook, step: Step, read: Read)
    requires IsLatest(h, read)
    ensures IsLatest(Next(h, step), read) <==>
            match step
            case Switch(client, _) => client == h.client
            case Notify(note, _) => note != ThreadClosed(read.thread)
            case Targets(threads) => read.thread in h.snapshotThreads || read.thread !in threads
            case _ => true
  {
    if step.Targets? {
      RefreshingAllSays(h, step.threads, read.thread);
    }
    hide Replay, Reduce, RefreshAll, Restrict;
  }

  // What refreshing some threads leaves alone.
  ghost predicate OnlyRefreshes(h: Hook, h': Hook) {
    && (h'.client, h'.generation, h'.st, h'.log, h'.base) == (h.client, h.generation, h.st, h.log, h.base)
    && h.inFlight <= h'.inFlight
  }

  ghost predicate NotRefreshed(h: Hook, h': Hook, thread: string) {
    && (thread in h'.sequences <==> thread in h.sequences)
    && Sequence(h'.sequences, thread) == Sequence(h.sequences, thread)
    && BufferOf(h', thread) == BufferOf(h, thread)
  }

  ghost predicate IsRefreshed(h: Hook, h': Hook, thread: string) {
    && h.client.Some? && thread in h'.sequences && BufferOf(h', thread) == []
    && Sequence(h'.sequences, thread) == Sequence(h.sequences, thread) + 1
    && Read(h.client.value, thread, h.generation, h'.sequences[thread], |h.log|) in h'.inFlight
  }

  lemma FollowingOneSays(h: Hook, first: string, thread: string)
    requires h.client.Some?
    ensures var h' := RefreshStep(h.(snapshotThreads := h.snapshotThreads + {first}), first);
            && OnlyRefreshes(h, h') && h'.snapshotThreads == h.snapshotThreads + {first}
            && (if thread == first then IsRefreshed(h, h', thread) else NotRefreshed(h, h', thread))
  {
  }

  lemma {:induction false} RefreshingAllSays(h: Hook, threads: seq<string>, thread: string)
    requires h.client.Some?
    ensures var h' := RefreshAll(h, threads);
            && OnlyRefreshes(h, h') && h'.snapshotThreads == h.snapshotThreads + (set t | t in threads)
            && (if thread in threads && thread !in h.snapshotThreads then IsRefreshed(h, h', thread) else NotRefreshed(h, h', thread))
    decreases |threads|
  {
    if threads != [] {
      assert threads == [threads[0]] + threads[1..];
      if threads[0] in h.snapshotThreads {
        RefreshingAllSays(h, threads[1..], thread);
      } else {
        FollowingOneSays(h, threads[0], thread);
        hide RefreshStep;
        RefreshingAllSays(RefreshStep(h.(snapshotThreads := h.snapshotThreads + {threads[0]}), threads[0]), threads[1..], thread);
      }
    }
  }

  // Following threads refreshes exactly those that were not followed, and forgets all others.
  lemma FollowingSays(h: Hook, threads: seq<string>, thread: string)
    requires h.client.Some?
    ensures var h' := Next(h, Targets(threads));
            && h'.snapshotThreads == (set t | t in threads)
            && (if thread in threads then
                  && Shown(h'.st, thread) == Shown(h.st, thread)
                  && (thread in h'.st.errors <==> thread in h.st.errors) && (thread in h'.st.loaded <==> thread in h.st.loaded)
                else Shown(h'.st, thread) == [] && thread !in h'.st.errors && thread !in h'.st.loaded)
            && (if thread in threads && thread !in h.snapshotThreads then
                  exists read <- h'.inFlight :: read.thread == thread && IsLatest(h', read) && BufferOf(h', thread) == []
                else BufferOf(h', thread) == BufferOf(h, thread))
  {
    RefreshingAllSays(h, threads, thread);
    var refreshed := RefreshAll(h, threads);
    assert refreshed.snapshotThreads * (set t | t in threads) == (set t | t in threads);
    if thread in threads && thread !in h.snapshotThreads {
      var read := Read(h.client.value, thread, h.generation, refreshed.sequences[thread], |h.log|);
      assert read in Next(h, Targets(threads)).inFlight;
    }
    hide RefreshAll;
  }

  // Another connection starts from nothing, and so does none.
  lemma SwitchingSays(h: Hook, client: Option<nat>, base: map<string, seq<Terminal>>)
    ensures var h' := Next(h, Switch(client, base));
            if client == h.client then h' == h
            else
              && h'.client == client && h'.generation == h.generation + 1 && h'.st == State(map[], {}, {})
              && h'.snapshotThreads == {} && h'.sequences == map[] && h'.pending == map[]
    ensures h.client.None? ==> forall threads :: Next(h, Targets(threads)) == h.(snapshotThreads := {})
  {
  }

  // ---- The hook object -------------------------------------------------------------------------------------------

  // The model's own records and the requests that are out.
  datatype Surroundings = Surroundings(inFlight: set<Read>, base: map<string, seq<Terminal>>, log: seq<Note>,
                                       ended: map<string, set<string>>)

  class BackgroundTerminals {
    var client: Option<nat>
    var connectionGeneration: nat
    var snapshotThreadIds: set<string>
    var refreshSequences: map<string, nat>
    var pendingRefreshes: map<string, seq<Note>>
    var state: State
    var surroundings: Surroundings

    ghost function View(): Hook
      reads this
    {
      Hook(client, connectionGeneration, snapshotThreadIds, refreshSequences, pendingRefreshes, state,
           surroundings.inFlight, surroundings.base, surroundings.log, surroundings.ended)
    }

    constructor ()
      ensures View() == InitialHook
    {
      client, connectionGeneration, snapshotThreadIds := None, 0, {};
      refreshSequences, pendingRefreshes, state := map[], map[], EmptyState;
      surroundings := Surroundings({}, map[], [], map[]);
    }

    method SwitchClient(next: Option<nat>, base: map<string, seq<Terminal>>)
      modifies this
      ensures View() == old(SwitchStep(View(), next, base))
    {
      if client == next {
        return;
      }
      client, connectionGeneration := next, connectionGeneration + 1;
      refreshSequences, pendingRefreshes, snapshotThreadIds, state := map[], map[], {}, EmptyState;
      surroundings := surroundings.(base := base, log := [], ended := map[]);
    }

    method RefreshThread(thread: string)
      requires client.Some?
      modifies this`refreshSequences, this`pendingRefreshes, this`surroundings
      ensures View() == old(RefreshStep(View(), thread))
    {
      var sequence := (if thread in refreshSequences then refreshSequences[thread] else 0) + 1;
      refreshSequences := refreshSequences[thread := sequence];
      pendingRefreshes := pendingRefreshes[thread := []];
      var read := Read(client.value, thread, connectionGeneration, sequence, |surroundings.log|);
      surroundings := surroundings.(inFlight := surroundings.inFlight + {read});
    }

    method OnNotification(note: Note, now: int)
      requires client.Some?
      modifies this`refreshSequences, this`pendingRefreshes, this`surroundings, this`state
      ensures View() == old(NotifyStep(View(), note, now))
    {
      var thread := note.thread;
      if (note.Started? || note.Completed?) && thread in pendingRefreshes {
        pendingRefreshes := pendingRefreshes[thread := pendingRefreshes[thread] + [note]];
      }
      if note.ThreadClosed? {
        refreshSequences := refreshSequences[thread := (if thread in refreshSequences then refreshSequences[thread] else 0) + 1];
        pendingRefreshes := pendingRefreshes - {thread};
      }
      state := Reduce(state, note, now);
      var ended := if thread in surroundings.ended then surroundings.ended[thread] else {};
      surroundings := surroundings.(log := surroundings.log + [note], ended := surroundings.ended[thread := StillEnded(ended, note)]);
    }

    // Refreshes the threads that were not followed before and forgets all others.
    method OnTargets(threads: seq<string>)
      modifies this
      ensures View() == old(TargetsStep(View(), threads))
    {
      if client.None? {
        snapshotThreadIds := {};
        return;
      }
      var i := 0;
      while i < |threads|
        invariant 0 <= i <= |threads|
        invariant client == old(client) && connectionGeneration == old(connectionGeneration)
        invariant RefreshAll(View(), threads[i..]) == RefreshAll(old(View()), threads)
      {
        if threads[i] !in snapshotThreadIds {
          snapshotThreadIds := snapshotThreadIds + {threads[i]};
          RefreshThread(threads[i]);
        }
        assert threads[i..][1..] == threads[i + 1..];
        i := i + 1;
      }
      var targets := set t | t in threads;
      snapshotThreadIds := snapshotThreadIds * targets;
      state := Restrict(state, targets);
    }

    // The latest refresh of the thread was answered: take the listing, then replay what came meanwhile.
    method OnSnapshot(read: Read, rows: seq<Listed>, now: int)
      requires read in surroundings.inFlight
      requires IsCurrent(View(), read) ==> read.thread in pendingRefreshes
      modifies this`pendingRefreshes, this`surroundings, this`state
      ensures View() == old(SnapshotStep(View(), read, rows, now))
    {
      surroundings := surroundings.(inFlight := surroundings.inFlight - {read});
      var sequence := if read.thread in refreshSequences then refreshSequences[read.thread] else 0;
      if read.generation != connectionGeneration || client != Some(read.client) || sequence != read.sequence {
        return;
      }
      var notifications := pendingRefreshes[read.thread];
      pendingRefreshes := pendingRefreshes - {read.thread};
      surroundings := surroundings.(ended := surroundings.ended - {read.thread});
      var next := Replace(state, read.thread, rows, now);
      var i := 0;
      while i < |notifications|
        invariant 0 <= i <= |notifications|
        invariant next == Replay(Replace(state, read.thread, rows, now), notifications[..i], now)
      {
        assert notifications[..i + 1][..i] == notifications[..i];
        next := Reduce(next, notifications[i], now);
        i := i + 1;
      }
      assert notifications[..i] == notifications;
      state := next;
    }

    method OnSnapshotFailed(read: Read)
      requires read in surroundings.inFlight
      modifies this`pendingRefreshes, this`surroundings, this`state
      ensures View() == old(SnapshotFailsStep(View(), read))
    {
      surroundings := surroundings.(inFlight := surroundings.inFlight - {read});
      var sequence := if read.thread in refreshSequences then refreshSequences[read.thread] else 0;
      if read.generation == connectionGeneration && client == Some(read.client) && sequence == read.sequence {
        pendingRefreshes := pendingRefreshes - {read.thread};
        state := state.(errors := state.errors + {read.thread});
      }
    }

    method OnTerminated(thread: string, processId: string, outcome: Outcome)
      modifies this`surroundings, this`state
      ensures View() == old(TerminateStep(View(), thread, processId, outcome))
    {
      if outcome.Terminated? {
        state := RemoveProcess(state, thread, processId);
        var ended := if thread in surroundings.ended then surroundings.ended[thread] else {};
        surroundings := surroundings.(ended := surroundings.ended[thread := ended + {processId}]);
      } else if !outcome.Outdated? {
        state := state.(errors := state.errors + {thread});
      }
    }
  }
}
