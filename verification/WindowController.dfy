/**
  One window's controller talking to the repository: serialised mutations whose results are
  predicted and checked, external events, reloads, and everything other windows do meanwhile.
  Sources: src/app/useWindowState.ts together with src-tauri/src/window_state.rs.
 */
module WindowController {
  import opened Prelude
  import opened WindowTabs
  import opened WindowRepository

  datatype Request =
    | BindRequest(expectedVersion: nat, serverId: Option<ServerId>)
    | TabsRequest(expectedVersion: nat, tabs: seq<Tab>, activeTabId: string)

  // A request that was sent; the reply is present once the repository has processed it.
  datatype InFlight = InFlight(mutation: Mutation, previous: WindowState, request: Request,
                               ticket: nat, reply: Option<Outcome>)

  datatype Controller = Controller(authoritative: Option<WindowState>, loadGeneration: nat,
                                   pendingMutationCount: nat, queue: seq<Mutation>, active: Option<InFlight>,
                                   loads: map<nat, Option<WindowState>>, disposed: bool, started: nat)

  datatype Resolution =
    | NoOperation(mutation: Mutation, state: WindowState)
    | Committed(mutation: Mutation, previous: WindowState, next: WindowState, ticket: nat)
    | Rejected(mutation: Mutation, error: ControllerError)

  // The whole system around one window. `history` lists the states the repository held for the
  // window, oldest first; `authors` names the request that committed each of them, if it was one of
  // this controller's.
  datatype System = System(window: string, repository: Repository, controller: Controller,
                           history: seq<WindowState>, authors: seq<Option<nat>>, resolved: seq<Resolution>)

  const InitialController := Controller(None, 0, 0, [], None, map[], false, 0)

  // ---- Controller transitions -------------------------------------------------------------------

  function AlreadyBound(state: WindowState, mutation: Mutation): bool {
    mutation.BindServer? && state.serverId == mutation.serverId
  }

  // What executing a mutation on a state asks the repository for: nothing when it is a no-op.
  function Plan(state: WindowState, mutation: Mutation): Result<Option<Request>, ControllerError> {
    if mutation.BindServer? then
      Ok(if AlreadyBound(state, mutation) then None else Some(BindRequest(state.version, mutation.serverId)))
    else
      match ApplyTabsMutation(state, mutation)
      case Err(error) => Err(error)
      case Ok(None) => Ok(None)
      case Ok(Some(r)) => Ok(Some(TabsRequest(state.version, r.tabs, r.activeTabId)))
  }

  function EnqueueStep(c: Controller, mutation: Mutation): (Controller, Option<Resolution>) {
    if c.disposed || c.authoritative.None? then (c, Some(Rejected(mutation, StateUnavailable)))
    else if c.pendingMutationCount == 0 && AlreadyBound(c.authoritative.value, mutation) then
      (c, Some(NoOperation(mutation, c.authoritative.value)))
    else
      (c.(pendingMutationCount := c.pendingMutationCount + 1, loadGeneration := c.loadGeneration + 1,
          queue := c.queue + [mutation]), None)
  }

  function Dequeued(c: Controller): Controller
    requires c.queue != []
  {
    c.(queue := c.queue[1..], pendingMutationCount := if c.pendingMutationCount > 0 then c.pendingMutationCount - 1 else 0)
  }

  // The synchronous part of executeMutation for the oldest queued mutation.
  function StartStep(c: Controller): (Controller, Option<Resolution>) {
    if c.active.Some? || c.queue == [] then (c, None)
    else
      var mutation := c.queue[0];
      if c.disposed || c.authoritative.None? then (Dequeued(c), Some(Rejected(mutation, StateUnavailable)))
      else
        var previous := c.authoritative.value;
        match Plan(previous, mutation)
        case Err(error) => (Dequeued(c), Some(Rejected(mutation, error)))
        case Ok(None) => (Dequeued(c), Some(NoOperation(mutation, previous)))
        case Ok(Some(request)) =>
          (c.(queue := c.queue[1..], started := c.started + 1,
              active := Some(InFlight(mutation, previous, request, c.started, None))), None)
  }

  function Settled(c: Controller): Controller {
    c.(active := None, pendingMutationCount := if c.pendingMutationCount > 0 then c.pendingMutationCount - 1 else 0)
  }

  // The reply of the repository (or a transport failure, when there is none) reaches the controller.
  function DeliverStep(c: Controller, transportFailed: bool): (Controller, Option<Resolution>) {
    if c.active.None? || (c.active.value.reply.None? && !transportFailed) then (c, None)
    else
      var call := c.active.value;
      if transportFailed || call.reply.value.Err? then
        if !transportFailed && call.reply.value.error.ServerAlreadyOpen? then
          (Settled(c), Some(Rejected(call.mutation, ServerIsAlreadyOpen)))
        else
          (Settled(c.(authoritative := None)), Some(Rejected(call.mutation, OperationFailed)))
      else
        var next := call.reply.value.value;
        if MutationResultAccepted(call.previous, next, call.mutation) then
          (Settled(c.(authoritative := Some(next))),
           Some(Committed(call.mutation, call.previous, next, call.ticket)))
        else
          (Settled(c.(authoritative := None)), Some(Rejected(call.mutation, OperationFailed)))
  }

  function ApplyExternalStep(c: Controller, state: WindowState): Controller {
    if c.disposed || c.authoritative.None? || state.windowId != c.authoritative.value.windowId
       || state.version <= c.authoritative.value.version
    then c
    else c.(loadGeneration := c.loadGeneration + 1, authoritative := Some(state))
  }

  function ReloadStep(c: Controller): Controller {
    if c.disposed || c.pendingMutationCount > 0 then c
    else c.(loadGeneration := c.loadGeneration + 1, loads := c.loads[c.loadGeneration + 1 := None])
  }

  // A load settles with its response, or fails.
  function FinishLoadStep(c: Controller, generation: nat, failed: bool): Controller {
    if generation !in c.loads || (c.loads[generation].None? && !failed) then c
    else
      var c' := c.(loads := c.loads - {generation});
      if c.disposed || generation != c.loadGeneration then c'
      else c'.(authoritative := if failed then None else c.loads[generation])
  }

  function DisposeStep(c: Controller): Controller {
    if c.disposed then c else c.(disposed := true, loadGeneration := c.loadGeneration + 1)
  }

  // ---- System steps --------------------------------------------------------------------------------

  datatype Step =
    | Enqueue(mutation: Mutation)
    | Start
    | ProcessRequest(nowMs: nat, freshTabId: string)
    | Deliver(transportFailed: bool)
    | DeliverEvent(index: nat)
    | Reload
    | ProcessLoad(generation: nat, nowMs: nat, freshTabId: string)
    | FinishLoad(generation: nat, failed: bool)
    | Environment(op: Operation)
    | Dispose

  function Log(resolved: seq<Resolution>, r: Option<Resolution>): seq<Resolution> {
    if r.Some? then resolved + [r.value] else resolved
  }

  function WithController(s: System, step: (Controller, Option<Resolution>)): System {
    s.(controller := step.0, resolved := Log(s.resolved, step.1))
  }

  // The repository moved: remember the new state of the window, if it is one.
  ghost function WithRepository(s: System, repository: Repository, author: Option<nat>): System {
    var held := Current(repository, s.window);
    if held.Ok? && s.history != [] && held.value != s.history[|s.history| - 1]
    then s.(repository := repository, history := s.history + [held.value], authors := s.authors + [author])
    else s.(repository := repository)
  }

  function RequestOperation(window: string, request: Request, nowMs: nat, freshTabId: string): Operation {
    match request
    case BindRequest(version, serverId) => BindServerTo(window, version, serverId, nowMs, freshTabId)
    case TabsRequest(version, tabs, activeTabId) => Operation.UpdateTabs(window, version, tabs, activeTabId, nowMs)
  }

  ghost function RequestOutcome(r: Repository, window: string, request: Request, nowMs: nat, freshTabId: string): Outcome {
    match request
    case BindRequest(version, serverId) => BindServerStep(r, window, version, serverId, nowMs, freshTabId).1
    case TabsRequest(version, tabs, activeTabId) => UpdateTabsStep(r, window, version, tabs, activeTabId, nowMs).1
  }

  ghost function ProcessStep(s: System, nowMs: nat, freshTabId: string): System {
    if s.controller.active.None? || s.controller.active.value.reply.Some? then s
    else
      var call := s.controller.active.value;
      var outcome := RequestOutcome(s.repository, s.window, call.request, nowMs, freshTabId);
      var s' := WithRepository(s, Perform(s.repository, RequestOperation(s.window, call.request, nowMs, freshTabId)),
                               Some(call.ticket));
      s'.(controller := s.controller.(active := Some(call.(reply := Some(outcome)))))
  }

  ghost function ProcessLoadStep(s: System, generation: nat, nowMs: nat, freshTabId: string): System {
    var (repository, outcome) := LoadAndActivateStep(s.repository, s.window, nowMs, freshTabId);
    if generation !in s.controller.loads || outcome.Err? then s
    else
      WithRepository(s, repository, None).(
        controller := s.controller.(loads := s.controller.loads[generation := Some(outcome.value)]))
  }

  ghost function Next(s: System, step: Step): System {
    match step
    case Enqueue(mutation) => WithController(s, EnqueueStep(s.controller, mutation))
    case Start => WithController(s, StartStep(s.controller))
    case ProcessRequest(nowMs, tab) => ProcessStep(s, nowMs, tab)
    case Deliver(failed) => WithController(s, DeliverStep(s.controller, failed))
    case DeliverEvent(i) =>
      if i < |s.history| then s.(controller := ApplyExternalStep(s.controller, s.history[i])) else s
    case Reload => s.(controller := ReloadStep(s.controller))
    case ProcessLoad(generation, nowMs, tab) => ProcessLoadStep(s, generation, nowMs, tab)
    case FinishLoad(generation, failed) => s.(controller := FinishLoadStep(s.controller, generation, failed))
    case Environment(op) => WithRepository(s, Perform(s.repository, op), None)
    case Dispose => s.(controller := DisposeStep(s.controller))
  }

  // What others may do while the window stays open: anything to other windows and to servers, and
  // opening tabs in this one.
  predicate AllowedForOthers(window: string, op: Operation) {
    && SaneOperation(op)
    && match op
       case Initialize => false
       case OpenTabForServer(_, _, _, _, _) => true
       case CreateServer(_) => true
       case DeleteServer(_, _) => true
       case _ => op.window != window
  }

  // Fresh identifiers, valid thread ids, and environment operations as above.
  ghost predicate SaneStep(s: System, step: Step) {
    match step
    case Start =>
      s.controller.queue != [] && s.controller.authoritative.Some? ==>
        SaneMutation(s.controller.authoritative.value, s.controller.queue[0])
    case ProcessRequest(_, tab) => ValidText(tab, MAX_TAB_ID_BYTES)
    case ProcessLoad(_, _, tab) => ValidText(tab, MAX_TAB_ID_BYTES)
    case Environment(op) => AllowedForOthers(s.window, op)
    case _ => true
  }

  ghost predicate SaneRun(s: System, steps: seq<Step>)
    decreases |steps|
  {
    steps == [] || (SaneStep(s, steps[0]) && SaneRun(Next(s, steps[0]), steps[1..]))
  }

  ghost function Run(s: System, steps: seq<Step>): System
    decreases |steps|
  {
    if steps == [] then s else Run(Next(s, steps[0]), steps[1..])
  }

  // ---- Invariant ---------------------------------------------------------------------------------------

  // The window is open: it has no server, or an active reference.
  ghost predicate Live(r: Repository, window: string) {
    Current(r, window).Ok?
  }

  // Consecutive versions, so a version identifies a state.
  ghost predicate HistoryInv(history: seq<WindowState>, window: string) {
    && history != []
    && (forall i :: 0 <= i < |history| ==> history[i].windowId == window && ValidWindow(history[i]))
    && (forall i :: 0 <= i < |history| ==> history[i].version == history[0].version + i)
  }

  ghost predicate RepositorySideInv(s: System) {
    && RepositoryInv(s.repository)
    && HistoryInv(s.history, s.window)
    && Current(s.repository, s.window) == Ok(s.history[|s.history| - 1])
  }

  // `next` is the state the repository held right after `previous`, it is what the mutation
  // predicts, and this controller's request `ticket` committed it.
  ghost predicate IsCommitOf(s: System, mutation: Mutation, previous: WindowState, next: WindowState, ticket: nat) {
    && MutationResultAccepted(previous, next, mutation)
    && exists i :: 0 < i < |s.history| && i < |s.authors| &&
         s.history[i - 1] == previous && s.history[i] == next && s.authors[i] == Some(ticket)
  }

  // Each request commits at most once, in the order the requests were sent.
  ghost predicate AuthorsInv(authors: seq<Option<nat>>, bound: nat) {
    && (forall i :: 0 <= i < |authors| && authors[i].Some? ==> authors[i].value < bound)
    && (forall i, j :: 0 <= i < j < |authors| && authors[i].Some? && authors[j].Some? ==>
          authors[i].value < authors[j].value)
  }

  ghost predicate CallInv(s: System, call: InFlight) {
    && call.previous in s.history
    && Plan(call.previous, call.mutation) == Ok(Some(call.request))
    && SaneMutation(call.previous, call.mutation)
    && call.ticket + 1 == s.controller.started
    && AuthorsInv(s.authors, if call.reply.None? then call.ticket else s.controller.started)
    && (call.reply.Some? && call.reply.value.Ok? ==>
          IsCommitOf(s, call.mutation, call.previous, call.reply.value.value, call.ticket))
  }

  ghost predicate ResolutionInv(s: System, r: Resolution) {
    match r
    case NoOperation(_, state) => state in s.history
    case Committed(mutation, previous, next, ticket) => IsCommitOf(s, mutation, previous, next, ticket)
    case Rejected(_, _) => true
  }

  ghost predicate ControllerInv(s: System) {
    var c := s.controller;
    && (c.authoritative.Some? ==> c.authoritative.value in s.history)
    && c.pendingMutationCount == |c.queue| + (if c.active.Some? then 1 else 0)
    && (forall g <- c.loads :: g <= c.loadGeneration)
    && (forall g <- c.loads :: c.loads[g].Some? ==> c.loads[g].value in s.history)
    // a load that could still be applied has had no mutation enqueued since it started
    && (c.loadGeneration in c.loads && !c.disposed ==> c.pendingMutationCount == 0)
    && |s.authors| == |s.history|
    && AuthorsInv(s.authors, c.started)
    && (c.active.Some? ==> CallInv(s, c.active.value))
  }

  ghost predicate SystemInv(s: System) {
    && RepositorySideInv(s)
    && ControllerInv(s)
    && (forall r <- s.resolved :: ResolutionInv(s, r))
  }

  // ---- Repository side -------------------------------------------------------------------------------------

  lemma VersionIdentifies(history: seq<WindowState>, window: string, a: WindowState, b: WindowState)
    requires HistoryInv(history, window) && a in history && b in history && a.version == b.version
    ensures a == b
  {
  }

  // What other windows do leaves this window's state alone, or moves it to its next version.
  lemma OthersAdvanceTheWindow(r: Repository, window: string, op: Operation)
    requires RepositoryInv(r) && Live(r, window) && AllowedForOthers(window, op)
    ensures var before := Current(r, window).value;
            var after := Current(Perform(r, op), window);
            && after.Ok?
            && (after.value == before || after.value.version == before.version + 1)
  {
    hide ValidTabs, TabsError, OpenedTabs, RepositoryInv;
    LiveWindow(r, window);
    match op
    case OpenTabForServer(w, server, thread, now, tab) =>
      if w == window {
        OpeningAdvancesTheWindow(r, window, server, thread, now, tab);
      } else {
        CurrentSays(r, w);
      }
    case UpdateTabs(w, _, _, _, _) => CurrentSays(r, w);
    case BindServerTo(w, _, _, _, _) => CurrentSays(r, w);
    case DeleteServer(server, now) => DeletionSparesLiveWindow(r, window, server, now);
    case LoadAndActivate(w, now, tab) =>
    case ReserveNewWindow(w, _, _, _, _) =>
    case DiscardReservedWindow(w) =>
    case Deactivate(w) =>
    case CreateServer(_) =>
  }

  lemma LiveWindow(r: Repository, window: string)
    requires RepositoryInv(r) && Live(r, window)
    ensures window in r.windows
    ensures Current(r, window).value.serverId == r.windows[window].serverId
    ensures r.windows[window].serverId.Some? ==>
              window in r.references && window in r.runtime
              && r.references[window] == r.windows[window].serverId.value
    ensures r.windows[window].serverId.None? ==> window !in r.runtime
  {
    hide ValidTabs, TabsError;
    CurrentSays(r, window);
  }

  lemma DeletionSparesLiveWindow(r: Repository, window: string, serverId: ServerId, nowMs: nat)
    requires RepositoryInv(r) && Live(r, window)
    ensures Current(DeleteServerStep(r, serverId, nowMs), window) == Current(r, window)
  {
    hide ValidTabs, TabsError, RepositoryInv;
    LiveWindow(r, window);
  }

  lemma CommitAdvances(r: Repository, window: string, serverId: ServerId, tabs: seq<Tab>, activeTabId: string, nowMs: nat)
    requires window in r.windows && r.windows[window].serverId == Some(serverId) && TabsError(tabs, activeTabId).None?
    ensures var (r', outcome) := CommitTabs(r, window, serverId, tabs, activeTabId, nowMs);
            if outcome.Ok? then
              && Current(r', window) == outcome
              && outcome.value.version == r.windows[window].version + 1
              && outcome.value.updatedAtMs > r.windows[window].updatedAtMs
              && outcome.value.tabs == tabs && outcome.value.activeTabId == Some(activeTabId)
              && outcome.value.serverId == Some(serverId) && outcome.value.windowId == window
            else r' == r
  {
    hide TabsError;
  }

  lemma OpeningAdvancesTheWindow(r: Repository, window: string, serverId: ServerId, threadId: Option<string>, nowMs: nat, freshTabId: string)
    requires RepositoryInv(r) && Live(r, window)
    ensures var before := Current(r, window).value;
            var after := Current(OpenTabStep(r, window, serverId, threadId, nowMs, freshTabId).0, window);
            after.Ok? && (after.value == before || after.value.version == before.version + 1)
  {
    hide ValidTabs, TabsError, OpenedTabs, RepositoryInv, CommitTabs;
    CurrentSays(r, window);
    var before := Current(r, window).value;
    var decided := OpenedTabs(before.tabs, threadId, freshTabId);
    if before.serverId == Some(serverId) && TabsError(decided.tabs, decided.activeTabId).None? {
      CommitAdvances(r, window, serverId, decided.tabs, decided.activeTabId, nowMs);
    }
  }

  // A request made from the state the repository holds commits exactly what was predicted; a request
  // made from an older state changes nothing. Either way an accepted reply is a commit.
  lemma RequestCommitsOrFails(r: Repository, window: string, history: seq<WindowState>, previous: WindowState,
                              mutation: Mutation, request: Request, nowMs: nat, freshTabId: string)
    requires RepositoryInv(r) && HistoryInv(history, window)
    requires Current(r, window) == Ok(history[|history| - 1]) && previous in history
    requires Plan(previous, mutation) == Ok(Some(request)) && SaneMutation(previous, mutation)
    requires ValidText(freshTabId, MAX_TAB_ID_BYTES)
    ensures var r' := Perform(r, RequestOperation(window, request, nowMs, freshTabId));
            var outcome := RequestOutcome(r, window, request, nowMs, freshTabId);
            if outcome.Ok? then
              && history[|history| - 1] == previous
              && MutationResultAccepted(previous, outcome.value, mutation)
              && Current(r', window) == outcome
            else r' == r
  {
    hide ValidTabs, TabsError, RepositoryInv, ApplyTabsMutation;
    CurrentSays(r, window);
    var current := history[|history| - 1];
    assert current in history;
    if previous.version == current.version {
      VersionIdentifies(history, window, previous, current);
      match request
      case BindRequest(version, serverId) => BindRequestCommits(r, window, previous, mutation, version, serverId, nowMs, freshTabId);
      case TabsRequest(version, tabs, activeTabId) => TabsRequestCommits(r, window, previous, mutation, request, nowMs);
    }
  }

  lemma BindRequestCommits(r: Repository, window: string, previous: WindowState, mutation: Mutation,
                           version: nat, serverId: Option<ServerId>, nowMs: nat, freshTabId: string)
    requires RepositoryInv(r) && Current(r, window) == Ok(previous) && ValidText(freshTabId, MAX_TAB_ID_BYTES)
    requires mutation == BindServer(serverId) && version == previous.version && previous.serverId != serverId
    ensures var (r', outcome) := BindServerStep(r, window, version, serverId, nowMs, freshTabId);
            if outcome.Ok? then
              && MutationResultAccepted(previous, outcome.value, mutation)
              && Current(r', window) == outcome
            else r' == r
  {
    hide ValidTabs, TabsError, ApplyTabsMutation, RepositoryInv;
    CurrentSays(r, window);
    if serverId.Some? {
      NewRuntimeIsValid(serverId.value, None, freshTabId);
      TabsErrorIffInvalid([Tab(freshTabId, None)], freshTabId);
    }
  }

  lemma TabsRequestCommits(r: Repository, window: string, previous: WindowState, mutation: Mutation,
                           request: Request, nowMs: nat)
    requires RepositoryInv(r) && Current(r, window) == Ok(previous) && request.TabsRequest?
    requires Plan(previous, mutation) == Ok(Some(request)) && SaneMutation(previous, mutation)
    ensures var (r', outcome) := UpdateTabsStep(r, window, request.expectedVersion, request.tabs, request.activeTabId, nowMs);
            if outcome.Ok? then
              && MutationResultAccepted(previous, outcome.value, mutation)
              && Current(r', window) == outcome
            else r' == r
  {
    hide ValidTabs, TabsError, ApplyTabsMutation, RepositoryInv, CommitTabs;
    CurrentSays(r, window);
    assert ApplyTabsMutation(previous, mutation) == Ok(Some(TabsResult(request.tabs, request.activeTabId)));
    assert previous.serverId.Some? by { PlannedTabsNeedServer(previous, mutation); }
    PredictionIsAChange(previous, mutation);
    if TabsError(request.tabs, request.activeTabId).None? {
      CommitAdvances(r, window, previous.serverId.value, request.tabs, request.activeTabId, nowMs);
    }
  }

  lemma PlannedTabsNeedServer(state: WindowState, mutation: Mutation)
    requires !mutation.BindServer? && ApplyTabsMutation(state, mutation).Ok?
    ensures state.serverId.Some?
  {
  }

  // ---- System side ---------------------------------------------------------------------------------------------

  // Growing the history keeps everything that was recorded about it.
  lemma GrowthKeepsCommits(s: System, s': System, mutation: Mutation, previous: WindowState, next: WindowState, ticket: nat)
    requires IsCommitOf(s, mutation, previous, next, ticket)
    requires |s.history| == |s.authors| && s.history <= s'.history && s.authors <= s'.authors
    ensures IsCommitOf(s', mutation, previous, next, ticket)
  {
    hide MutationResultAccepted;
    var i :| 0 < i < |s.history| && s.history[i - 1] == previous && s.history[i] == next && s.authors[i] == Some(ticket);
    assert s'.history[i - 1] == previous && s'.history[i] == next && s'.authors[i] == Some(ticket);
  }

  lemma GrowthKeepsResolutions(s: System, s': System)
    requires forall r <- s.resolved :: ResolutionInv(s, r)
    requires |s.history| == |s.authors| && s.history <= s'.history && s.authors <= s'.authors
    ensures forall r <- s.resolved :: ResolutionInv(s', r)
  {
    hide MutationResultAccepted, IsCommitOf;
    forall r <- s.resolved
      ensures ResolutionInv(s', r)
    {
      assert ResolutionInv(s, r);
      if r.Committed? {
        GrowthKeepsCommits(s, s', r.mutation, r.previous, r.next, r.ticket);
      }
    }
  }

  lemma EnvironmentKeepsInv(s: System, op: Operation)
    requires SystemInv(s) && AllowedForOthers(s.window, op)
    ensures SystemInv(WithRepository(s, Perform(s.repository, op), None))
  {
    hide MutationResultAccepted, IsCommitOf, Plan, SaneMutation, ResolutionInv, RepositoryInv, Current, Perform, ValidWindow;
    var repository := Perform(s.repository, op);
    var s' := WithRepository(s, repository, None);
    PerformKeepsInv(s.repository, op);
    OthersAdvanceTheWindow(s.repository, s.window, op);
    CurrentSays(repository, s.window);
    GrowthKeepsResolutions(s, s');
    if s.controller.active.Some? {
      var call := s.controller.active.value;
      if call.reply.Some? && call.reply.value.Ok? {
        GrowthKeepsCommits(s, s', call.mutation, call.previous, call.reply.value.value, call.ticket);
      }
    }
  }

  lemma RequestOperationIsSane(window: string, request: Request, nowMs: nat, freshTabId: string)
    requires ValidText(freshTabId, MAX_TAB_ID_BYTES)
    ensures SaneOperation(RequestOperation(window, request, nowMs, freshTabId))
  {
  }

  lemma ProcessKeepsInv(s: System, nowMs: nat, freshTabId: string)
    requires SystemInv(s) && ValidText(freshTabId, MAX_TAB_ID_BYTES)
    ensures SystemInv(ProcessStep(s, nowMs, freshTabId))
  {
    hide MutationResultAccepted, Plan, SaneMutation, ResolutionInv, RepositoryInv, Current, Perform,
         ValidWindow, RequestOutcome, RequestOperation, ValidText;
    if s.controller.active.Some? && s.controller.active.value.reply.None? {
      var call := s.controller.active.value;
      var op := RequestOperation(s.window, call.request, nowMs, freshTabId);
      var repository := Perform(s.repository, op);
      var s' := ProcessStep(s, nowMs, freshTabId);
      RequestOperationIsSane(s.window, call.request, nowMs, freshTabId);
      PerformKeepsInv(s.repository, op);
      RequestCommitsOrFails(s.repository, s.window, s.history, call.previous, call.mutation, call.request, nowMs, freshTabId);
      CurrentSays(repository, s.window);
      GrowthKeepsResolutions(s, s');
      var outcome := RequestOutcome(s.repository, s.window, call.request, nowMs, freshTabId);
      if outcome.Ok? {
        AcceptedVersions(call.previous, outcome.value, call.mutation);
        assert s'.history == s.history + [outcome.value];
        assert s'.authors == s.authors + [Some(call.ticket)];
        assert s'.history[|s.history| - 1] == call.previous;
        var i := |s.history|;
        assert s'.history[i - 1] == call.previous && s'.history[i] == outcome.value && s'.authors[i] == Some(call.ticket);
        assert IsCommitOf(s', call.mutation, call.previous, outcome.value, call.ticket);
        assert RepositorySideInv(s');
        assert AuthorsInv(s'.authors, s.controller.started);
        assert CallInv(s', s'.controller.active.value);
        assert ControllerInv(s');
      }
    }
  }

  lemma AcceptedVersions(previous: WindowState, next: WindowState, mutation: Mutation)
    requires MutationResultAccepted(previous, next, mutation)
    ensures next.version == previous.version + 1 && next.windowId == previous.windowId
  {
  }

  // Loading an open window returns the state it is in.
  lemma LoadReturnsHeld(r: Repository, window: string, nowMs: nat, freshTabId: string)
    requires RepositoryInv(r) && Live(r, window)
    ensures LoadAndActivateStep(r, window, nowMs, freshTabId).1 == Current(r, window)
    ensures Current(LoadAndActivateStep(r, window, nowMs, freshTabId).0, window) == Current(r, window)
  {
    hide ValidTabs, TabsError;
    LiveWindow(r, window);
  }

  lemma ProcessLoadKeepsInv(s: System, generation: nat, nowMs: nat, freshTabId: string)
    requires SystemInv(s) && ValidText(freshTabId, MAX_TAB_ID_BYTES)
    ensures SystemInv(ProcessLoadStep(s, generation, nowMs, freshTabId))
  {
    hide MutationResultAccepted, Plan, SaneMutation, IsCommitOf, RepositoryInv, Current,
         ValidWindow, ValidText, LoadAndActivateStep;
    LoadReturnsHeld(s.repository, s.window, nowMs, freshTabId);
    LoadAndActivateKeepsInv(s.repository, s.window, nowMs, freshTabId);
    var s' := ProcessLoadStep(s, generation, nowMs, freshTabId);
    assert s'.history == s.history && s'.authors == s.authors;
    KeepingHistoryKeepsResolutions(s, s');
    if s.controller.active.Some? {
      KeepingHistoryKeepsCall(s, s', s.controller.active.value);
    }
  }

  lemma KeepingHistoryKeepsResolutions(s: System, s': System)
    requires forall r <- s.resolved :: ResolutionInv(s, r)
    requires s'.history == s.history && s'.authors == s.authors
    ensures forall r <- s.resolved :: ResolutionInv(s', r)
  {
    hide MutationResultAccepted;
  }

  lemma KeepingHistoryKeepsCall(s: System, s': System, call: InFlight)
    requires CallInv(s, call)
    requires s'.history == s.history && s'.authors == s.authors && s'.controller.started == s.controller.started
    ensures CallInv(s', call)
  {
    hide MutationResultAccepted, Plan, SaneMutation;
  }

  // The controller's own transitions: the history stays as it is.
  lemma ControllerStepKeepsInv(s: System, step: Step)
    requires SystemInv(s) && SaneStep(s, step)
    requires !step.ProcessRequest? && !step.ProcessLoad? && !step.Environment?
    ensures SystemInv(Next(s, step))
  {
    hide MutationResultAccepted, Plan, SaneMutation, IsCommitOf, RepositoryInv, HistoryInv, Current, AuthorsInv;
    var s' := Next(s, step);
    KeepingHistoryKeepsResolutions(s, s');
    if s'.controller.active.Some? {
      if s'.controller.active == s.controller.active {
        KeepingHistoryKeepsCall(s, s', s.controller.active.value);
      }
    }
    match step
    case Deliver(failed) => DeliverKeepsInv(s, failed);
    case Start => StartKeepsInv(s);
    case _ =>
  }

  lemma StartKeepsInv(s: System)
    requires SystemInv(s) && SaneStep(s, Start)
    ensures SystemInv(Next(s, Start))
  {
    hide MutationResultAccepted, Plan, SaneMutation, IsCommitOf, RepositoryInv, HistoryInv, Current;
    var s' := Next(s, Start);
    KeepingHistoryKeepsResolutions(s, s');
    if s.controller.active.Some? {
      KeepingHistoryKeepsCall(s, s', s.controller.active.value);
    }
  }

  lemma DeliverKeepsInv(s: System, transportFailed: bool)
    requires SystemInv(s)
    ensures SystemInv(Next(s, Deliver(transportFailed)))
  {
    hide MutationResultAccepted, Plan, SaneMutation, RepositoryInv, HistoryInv, Current, AuthorsInv;
    var s' := Next(s, Deliver(transportFailed));
    KeepingHistoryKeepsResolutions(s, s');
    if s.controller.active.Some? {
      var call := s.controller.active.value;
      if call.reply.None? && !transportFailed {
        KeepingHistoryKeepsCall(s, s', call);
      }
    }
  }

  lemma NextKeepsInv(s: System, step: Step)
    requires SystemInv(s) && SaneStep(s, step)
    ensures SystemInv(Next(s, step))
  {
    hide SystemInv;
    match step
    case ProcessRequest(nowMs, tab) => ProcessKeepsInv(s, nowMs, tab);
    case ProcessLoad(generation, nowMs, tab) => ProcessLoadKeepsInv(s, generation, nowMs, tab);
    case Environment(op) => EnvironmentKeepsInv(s, op);
    case _ => ControllerStepKeepsInv(s, step);
  }

  lemma {:induction false} RunKeepsInv(s: System, steps: seq<Step>)
    requires SystemInv(s) && SaneRun(s, steps)
    ensures SystemInv(Run(s, steps))
    decreases |steps|
  {
    hide SystemInv, SaneStep, Next;
    if steps != [] {
      NextKeepsInv(s, steps[0]);
      RunKeepsInv(Next(s, steps[0]), steps[1..]);
    }
  }

  // ---- Main results --------------------------------------------------------------------------------------------

  ghost function InitialSystem(r: Repository, window: string): System
    requires Live(r, window)
  {
    System(window, r, InitialController, [Current(r, window).value], [None], [])
  }

  lemma InitialSystemInv(r: Repository, window: string)
    requires RepositoryInv(r) && Live(r, window)
    ensures SystemInv(InitialSystem(r, window))
  {
    CurrentSays(r, window);
  }

  // `ticket` authored exactly one commit, and it took `previous` to `next`.
  ghost predicate IsOnlyCommit(history: seq<WindowState>, authors: seq<Option<nat>>,
                               previous: WindowState, next: WindowState, ticket: nat)
  {
    && |authors| == |history|
    && exists i :: 0 < i < |history| && AuthoredOnlyAt(authors, ticket, i)
                   && history[i - 1] == previous && history[i] == next
  }

  ghost predicate AuthoredOnlyAt(authors: seq<Option<nat>>, ticket: nat, i: nat) {
    forall j :: 0 <= j < |authors| ==> (authors[j] == Some(ticket) <==> j == i)
  }

  // Over every interleaving: a resolved mutation either changed nothing and returned a state the
  // repository held, or is exactly one commit, made by its own request, from the state the controller
  // saw to the next version, with the server, tabs and active tab that were predicted.
  lemma EveryResolutionIsTruthful(r: Repository, window: string, steps: seq<Step>, n: nat)
    requires RepositoryInv(r) && Live(r, window) && SaneRun(InitialSystem(r, window), steps)
    requires n < |Run(InitialSystem(r, window), steps).resolved|
    ensures var s := Run(InitialSystem(r, window), steps);
            match s.resolved[n]
            case NoOperation(_, state) => state in s.history
            case Committed(mutation, previous, next, ticket) =>
              && next.version == previous.version + 1
              && MutationResultAccepted(previous, next, mutation)
              && IsOnlyCommit(s.history, s.authors, previous, next, ticket)
            case Rejected(_, _) => true
  {
    hide MutationResultAccepted, RepositorySideInv, CallInv;
    InitialSystemInv(r, window);
    RunKeepsInv(InitialSystem(r, window), steps);
    var s := Run(InitialSystem(r, window), steps);
    assert s.resolved[n] in s.resolved;
    assert ResolutionInv(s, s.resolved[n]);
    if s.resolved[n].Committed? {
      var c := s.resolved[n];
      AcceptedVersions(c.previous, c.next, c.mutation);
      var i :| 0 < i < |s.history| && s.history[i - 1] == c.previous && s.history[i] == c.next && s.authors[i] == Some(c.ticket);
      assert AuthoredOnlyAt(s.authors, c.ticket, i);
    }
  }

  // The controller's state is always null or one the repository held for this window.
  lemma AuthoritativeStateWasHeld(r: Repository, window: string, steps: seq<Step>)
    requires RepositoryInv(r) && Live(r, window) && SaneRun(InitialSystem(r, window), steps)
    ensures var s := Run(InitialSystem(r, window), steps);
            s.controller.authoritative.Some? ==> s.controller.authoritative.value in s.history
  {
    InitialSystemInv(r, window);
    RunKeepsInv(InitialSystem(r, window), steps);
  }

  // A success reply always matches the prediction: the controller never throws away its state over a
  // mismatch, and never mistakes the repository's unchanged answer for a commit.
  lemma SuccessReplyIsAccepted(r: Repository, window: string, steps: seq<Step>)
    requires RepositoryInv(r) && Live(r, window) && SaneRun(InitialSystem(r, window), steps)
    requires var c := Run(InitialSystem(r, window), steps).controller;
             c.active.Some? && c.active.value.reply.Some? && c.active.value.reply.value.Ok?
    ensures var c := Run(InitialSystem(r, window), steps).controller;
            DeliverStep(c, false).0.authoritative == Some(c.active.value.reply.value.value)
  {
    InitialSystemInv(r, window);
    RunKeepsInv(InitialSystem(r, window), steps);
    hide MutationResultAccepted, RepositorySideInv;
  }

  // A load is only ever applied while no mutation is pending.
  lemma LoadsNeverOverwriteMutations(r: Repository, window: string, steps: seq<Step>, generation: nat, failed: bool)
    requires RepositoryInv(r) && Live(r, window) && SaneRun(InitialSystem(r, window), steps)
    ensures var c := Run(InitialSystem(r, window), steps).controller;
            FinishLoadStep(c, generation, failed).authoritative != c.authoritative ==>
              c.queue == [] && c.active.None?
  {
    InitialSystemInv(r, window);
    RunKeepsInv(InitialSystem(r, window), steps);
    hide MutationResultAccepted, RepositorySideInv, CallInv;
  }

  // The reply overwrites the controller's state unconditionally. It lowers the version exactly when
  // an event more than one version newer than the request's base was applied in the meantime.
  lemma ReplyLowersVersionIff(r: Repository, window: string, steps: seq<Step>)
    requires RepositoryInv(r) && Live(r, window) && SaneRun(InitialSystem(r, window), steps)
    requires var c := Run(InitialSystem(r, window), steps).controller;
             c.active.Some? && c.active.value.reply.Some? && c.active.value.reply.value.Ok? && c.authoritative.Some?
    ensures var c := Run(InitialSystem(r, window), steps).controller;
            var after := DeliverStep(c, false).0.authoritative;
            && after.Some?
            && (after.value.version < c.authoritative.value.version
                <==> c.authoritative.value.version > c.active.value.previous.version + 1)
  {
    InitialSystemInv(r, window);
    RunKeepsInv(InitialSystem(r, window), steps);
    SuccessReplyIsAccepted(r, window, steps);
    hide RepositorySideInv;
  }

  // ---- What each step does --------------------------------------------------------------------------------------

  // A mutation is refused without a state, done if the window is on that server and nothing is pending,
  // and else waits behind the others; a load under way is outdated by it.
  lemma EnqueuingSays(s: System, mutation: Mutation)
    ensures var c, s' := s.controller, Next(s, Enqueue(mutation));
            if c.disposed || c.authoritative.None? then s' == s.(resolved := s.resolved + [Rejected(mutation, StateUnavailable)])
            else if c.pendingMutationCount == 0 && mutation == BindServer(c.authoritative.value.serverId) then
              s' == s.(resolved := s.resolved + [NoOperation(mutation, c.authoritative.value)])
            else
              s' == s.(controller := c.(queue := c.queue + [mutation], pendingMutationCount := c.pendingMutationCount + 1,
                                        loadGeneration := c.loadGeneration + 1))
  {
  }

  // What a mutation of this state asks for.
  ghost predicate AsksFor(previous: WindowState, mutation: Mutation, request: Request) {
    match mutation
    case BindServer(serverId) => serverId != previous.serverId && request == BindRequest(previous.version, serverId)
    case _ =>
      var predicted := ApplyTabsMutation(previous, mutation);
      predicted.Ok? && predicted.value.Some?
      && request == TabsRequest(previous.version, predicted.value.value.tabs, predicted.value.value.activeTabId)
  }

  ghost predicate AsksForNothing(previous: WindowState, mutation: Mutation) {
    mutation == BindServer(previous.serverId) || (!mutation.BindServer? && ApplyTabsMutation(previous, mutation) == Ok(None))
  }

  // Mutations start one at a time, the oldest first, each on the state that is current then: it is sent
  // as a request, is done when there is nothing to ask for, or fails with the error of its prediction.
  lemma StartingSays(s: System)
    requires s.controller.active.None? && s.controller.queue != []
    ensures var c, s' := s.controller, Next(s, Start);
            var mutation := c.queue[0];
            var done := c.(queue := c.queue[1..],
                           pendingMutationCount := if c.pendingMutationCount == 0 then 0 else c.pendingMutationCount - 1);
            if c.disposed || c.authoritative.None? then
              s' == s.(controller := done, resolved := s.resolved + [Rejected(mutation, StateUnavailable)])
            else
              var previous := c.authoritative.value;
              if AsksForNothing(previous, mutation) then
                s' == s.(controller := done, resolved := s.resolved + [NoOperation(mutation, previous)])
              else if !mutation.BindServer? && ApplyTabsMutation(previous, mutation).Err? then
                s' == s.(controller := done, resolved := s.resolved + [Rejected(mutation, ApplyTabsMutation(previous, mutation).error)])
              else
                && s'.controller.active.Some? && AsksFor(previous, mutation, s'.controller.active.value.request)
                && s' == s.(controller := c.(queue := c.queue[1..], started := c.started + 1,
                            active := Some(InFlight(mutation, previous, s'.controller.active.value.request, c.started, None))))
    ensures forall t: System :: t.controller.active.Some? ==> Next(t, Start) == t
  {
    hide ApplyTabsMutation;
  }

  // A server that is open elsewhere leaves the state as it is; any other error, or no reply, loses it.
  lemma FailedRepliesSay(s: System, failed: bool)
    requires s.controller.active.Some?
    requires failed || (s.controller.active.value.reply.Some? && s.controller.active.value.reply.value.Err?)
    ensures var c, s' := s.controller, Next(s, Deliver(failed));
            var call := c.active.value;
            var elsewhere := !failed && call.reply.value.error.ServerAlreadyOpen?;
            && s'.controller == c.(active := None, authoritative := if elsewhere then c.authoritative else None,
                                   pendingMutationCount := if c.pendingMutationCount == 0 then 0 else c.pendingMutationCount - 1)
            && s' == s.(controller := s'.controller,
                        resolved := s.resolved + [Rejected(call.mutation, if elsewhere then ServerIsAlreadyOpen else OperationFailed)])
  {
    hide MutationResultAccepted;
  }

  // A success is the new state and is reported along with the state it was made from.
  lemma SuccessfulRepliesSay(r: Repository, window: string, steps: seq<Step>)
    requires RepositoryInv(r) && Live(r, window) && SaneRun(InitialSystem(r, window), steps)
    requires var c := Run(InitialSystem(r, window), steps).controller;
             c.active.Some? && c.active.value.reply.Some? && c.active.value.reply.value.Ok?
    ensures var s := Run(InitialSystem(r, window), steps);
            var c, s' := s.controller, Next(s, Deliver(false));
            var call := c.active.value;
            && s'.controller == c.(active := None, authoritative := Some(call.reply.value.value),
                                   pendingMutationCount := |c.queue|)
            && s' == s.(controller := s'.controller,
                        resolved := s.resolved + [Committed(call.mutation, call.previous, call.reply.value.value, call.ticket)])
  {
    InitialSystemInv(r, window);
    RunKeepsInv(InitialSystem(r, window), steps);
    hide MutationResultAccepted, RepositorySideInv;
  }

  // An event counts exactly if it is newer than the state it meets; a load under way is outdated by it.
  lemma EventIsAppliedIff(s: System, index: nat)
    requires index < |s.history| && s.history[index].windowId == s.window
    requires s.controller.authoritative.Some? ==> s.controller.authoritative.value.windowId == s.window
    ensures var c, s', state := s.controller, Next(s, DeliverEvent(index)), s.history[index];
            if !c.disposed && c.authoritative.Some? && state.version > c.authoritative.value.version then
              s' == s.(controller := c.(authoritative := Some(state), loadGeneration := c.loadGeneration + 1))
            else s' == s
  {
  }

  // A load starts exactly if nothing is pending, and counts exactly if nothing outdated it meanwhile.
  lemma LoadCountsIff(s: System, generation: nat, failed: bool)
    requires generation in s.controller.loads && (failed || s.controller.loads[generation].Some?)
    ensures var c, s' := s.controller, Next(s, FinishLoad(generation, failed));
            && s' == s.(controller := c.(loads := c.loads - {generation}, authoritative := s'.controller.authoritative))
            && s'.controller.authoritative ==
               (if c.disposed || generation != c.loadGeneration then c.authoritative
                else if failed then None else c.loads[generation])
    ensures var c, s' := s.controller, Next(s, Reload);
            s' == if !c.disposed && c.pendingMutationCount == 0
                  then s.(controller := c.(loadGeneration := c.loadGeneration + 1, loads := c.loads[c.loadGeneration + 1 := None]))
                  else s
  {
  }

  // A disposed controller takes in nothing that was not under way.
  lemma DisposedTakesNothingIn(s: System, step: Step)
    ensures !s.controller.disposed ==>
              Next(s, Dispose) == s.(controller := s.controller.(disposed := true, loadGeneration := s.controller.loadGeneration + 1))
    ensures s.controller.disposed && !step.Deliver? ==>
              var c, c' := s.controller, Next(s, step).controller;
              && c'.disposed && c'.authoritative == c.authoritative && c'.started == c.started
              && c'.loads.Keys <= c.loads.Keys && |c'.queue| <= |c.queue|
  {
    hide Perform, RequestOutcome, LoadAndActivateStep, Current, Plan, MutationResultAccepted;
  }

  // ---- An undisturbed mutation succeeds ----------------------------------------------------------------------------

  ghost predicate HasRoom(state: WindowState, nowMs: nat) {
    nowMs <= MAX_SAFE_INTEGER && state.version < MAX_SAFE_INTEGER && state.updatedAtMs < MAX_SAFE_INTEGER
  }

  lemma RequestIsStored(r: Repository, window: string, previous: WindowState, mutation: Mutation, request: Request,
                        nowMs: nat, freshTabId: string)
    requires RepositoryInv(r) && Current(r, window) == Ok(previous) && ValidText(freshTabId, MAX_TAB_ID_BYTES)
    requires !mutation.BindServer? && AsksFor(previous, mutation, request) && HasRoom(previous, nowMs)
    requires ValidTabs(request.tabs, request.activeTabId)
    ensures var outcome := RequestOutcome(r, window, request, nowMs, freshTabId);
            outcome.Ok? && outcome.value.tabs == request.tabs && outcome.value.activeTabId == Some(request.activeTabId)
  {
    CurrentSays(r, window);
    LiveWindow(r, window);
    PlannedTabsNeedServer(previous, mutation);
    UpdateTabsSucceedsIff(r, window, request.expectedVersion, request.tabs, request.activeTabId, nowMs);
    CurrentIs(r, window);
    hide ApplyTabsMutation, ValidTabs, Current, UpdateTabsStep, RepositoryInv;
  }

  lemma CurrentIs(r: Repository, window: string)
    requires RepositoryInv(r) && Current(r, window).Ok?
    ensures window in r.windows && Current(r, window).value.version == r.windows[window].version
    ensures Current(r, window).value.updatedAtMs == r.windows[window].updatedAtMs
  {
    hide ValidTabs, TabsError;
  }

  // From a controller that is up to date and idle, a mutation with a prediction for which the tabs have
  // room is committed by the four steps that follow, and the predicted tabs are the window's.
  lemma UndisturbedMutationCommits(r: Repository, window: string, steps: seq<Step>, mutation: Mutation, nowMs: nat, freshTabId: string)
    requires RepositoryInv(r) && Live(r, window) && SaneRun(InitialSystem(r, window), steps)
    requires ValidText(freshTabId, MAX_TAB_ID_BYTES) && !mutation.BindServer?
    requires var s := Run(InitialSystem(r, window), steps);
             && !s.controller.disposed && s.controller.queue == [] && s.controller.active.None?
             && s.controller.authoritative.Some? && Current(s.repository, window) == Ok(s.controller.authoritative.value)
             && (var previous := s.controller.authoritative.value;
                 var predicted := ApplyTabsMutation(previous, mutation);
                 && SaneMutation(previous, mutation) && HasRoom(previous, nowMs)
                 && predicted.Ok? && predicted.value.Some?
                 && ValidTabs(predicted.value.value.tabs, predicted.value.value.activeTabId))
    ensures var s := Run(InitialSystem(r, window), steps);
            var predicted := ApplyTabsMutation(s.controller.authoritative.value, mutation).value.value;
            var s' := Next(Next(Next(Next(s, Enqueue(mutation)), Start), ProcessRequest(nowMs, freshTabId)), Deliver(false));
            && s'.controller.authoritative.Some?
            && (var next := s'.controller.authoritative.value;
                && next.tabs == predicted.tabs && next.activeTabId == Some(predicted.activeTabId)
                && next.version == s.controller.authoritative.value.version + 1
                && s'.resolved == s.resolved + [Committed(mutation, s.controller.authoritative.value, next, s.controller.started)]
                && Current(s'.repository, window) == Ok(next))
            && s'.controller.queue == [] && s'.controller.active.None? && s'.controller.pendingMutationCount == 0
  {
    InitialSystemInv(r, window);
    RunKeepsInv(InitialSystem(r, window), steps);
    RunKeepsWindow(InitialSystem(r, window), steps);
    hide Run, Live, SaneRun;
    IdleMutationCommits(Run(InitialSystem(r, window), steps), mutation, nowMs, freshTabId);
  }

  lemma StepKeepsWindow(s: System, step: Step)
    ensures Next(s, step).window == s.window
  {
    hide Perform, RequestOutcome, LoadAndActivateStep, Current, EnqueueStep, StartStep, DeliverStep;
  }

  lemma {:induction false} RunKeepsWindow(s: System, steps: seq<Step>)
    ensures Run(s, steps).window == s.window
    decreases |steps|
  {
    hide Next;
    if steps != [] {
      StepKeepsWindow(s, steps[0]);
      RunKeepsWindow(Next(s, steps[0]), steps[1..]);
    }
  }

  // Enqueuing and starting on an idle controller sends the request at once.
  lemma IdleMutationStarts(s: System, mutation: Mutation, request: Request)
    requires var c := s.controller;
             !c.disposed && c.queue == [] && c.active.None? && c.pendingMutationCount == 0 && c.authoritative.Some?
    requires AsksFor(s.controller.authoritative.value, mutation, request)
    ensures var c, sent := s.controller, Next(Next(s, Enqueue(mutation)), Start);
            sent == s.(controller := c.(loadGeneration := c.loadGeneration + 1, pendingMutationCount := 1, started := c.started + 1,
                                        active := Some(InFlight(mutation, c.authoritative.value, request, c.started, None))))
  {
    hide ApplyTabsMutation;
    assert [mutation][1..] == [];
  }

  lemma SentMutationIsAnswered(s: System, next: WindowState, nowMs: nat, freshTabId: string)
    requires s.controller.active.Some? && s.controller.active.value.reply.None?
    requires var request := s.controller.active.value.request;
             && RequestOutcome(s.repository, s.window, request, nowMs, freshTabId) == Ok(next)
             && Current(Perform(s.repository, RequestOperation(s.window, request, nowMs, freshTabId)), s.window) == Ok(next)
    requires MutationResultAccepted(s.controller.active.value.previous, next, s.controller.active.value.mutation)
    ensures var call, done := s.controller.active.value, Next(Next(s, ProcessRequest(nowMs, freshTabId)), Deliver(false));
            && done.controller == s.controller.(active := None, authoritative := Some(next),
                 pendingMutationCount := if s.controller.pendingMutationCount == 0 then 0 else s.controller.pendingMutationCount - 1)
            && done.resolved == s.resolved + [Committed(call.mutation, call.previous, next, call.ticket)]
            && Current(done.repository, s.window) == Ok(next)
  {
    hide MutationResultAccepted, Perform, RequestOutcome, Current;
  }

  lemma IdleMeans(s: System)
    requires SystemInv(s) && s.controller.queue == [] && s.controller.active.None? && s.controller.authoritative.Some?
    ensures s.controller.pendingMutationCount == 0 && s.controller.authoritative.value in s.history
    ensures RepositoryInv(s.repository) && HistoryInv(s.history, s.window) && s.history != []
    ensures Current(s.repository, s.window) == Ok(s.history[|s.history| - 1])
  {
    hide RepositoryInv, Current, HistoryInv, AuthorsInv, ResolutionInv;
    assert HistoryInv(s.history, s.window);
    HistoryIsNotEmpty(s.history, s.window);
  }

  lemma HistoryIsNotEmpty(history: seq<WindowState>, window: string)
    requires HistoryInv(history, window)
    ensures history != []
  {
  }

  lemma IdleMutationCommits(s: System, mutation: Mutation, nowMs: nat, freshTabId: string)
    requires SystemInv(s) && ValidText(freshTabId, MAX_TAB_ID_BYTES) && !mutation.BindServer?
    requires !s.controller.disposed && s.controller.queue == [] && s.controller.active.None?
    requires s.controller.authoritative.Some? && Current(s.repository, s.window) == Ok(s.controller.authoritative.value)
    requires var previous := s.controller.authoritative.value;
             var predicted := ApplyTabsMutation(previous, mutation);
             && SaneMutation(previous, mutation) && HasRoom(previous, nowMs)
             && predicted.Ok? && predicted.value.Some?
             && ValidTabs(predicted.value.value.tabs, predicted.value.value.activeTabId)
    ensures var predicted := ApplyTabsMutation(s.controller.authoritative.value, mutation).value.value;
            var s' := Next(Next(Next(Next(s, Enqueue(mutation)), Start), ProcessRequest(nowMs, freshTabId)), Deliver(false));
            && s'.controller.authoritative.Some?
            && (var next := s'.controller.authoritative.value;
                && next.tabs == predicted.tabs && next.activeTabId == Some(predicted.activeTabId)
                && next.version == s.controller.authoritative.value.version + 1
                && s'.resolved == s.resolved + [Committed(mutation, s.controller.authoritative.value, next, s.controller.started)]
                && Current(s'.repository, s.window) == Ok(next))
            && s'.controller.queue == [] && s'.controller.active.None? && s'.controller.pendingMutationCount == 0
  {
    hide SystemInv, ApplyTabsMutation, ValidTabs, SaneMutation, Current, MutationResultAccepted, RepositoryInv, HistoryInv,
         RequestOutcome, Perform, HasRoom, Next;
    var previous := s.controller.authoritative.value;
    var predicted := ApplyTabsMutation(previous, mutation).value.value;
    var request := TabsRequest(previous.version, predicted.tabs, predicted.activeTabId);
    IdleMeans(s);
    RequestIsStored(s.repository, s.window, previous, mutation, request, nowMs, freshTabId);
    RequestCommitsOrFails(s.repository, s.window, s.history, previous, mutation, request, nowMs, freshTabId);
    var next := RequestOutcome(s.repository, s.window, request, nowMs, freshTabId).value;
    AcceptedVersions(previous, next, mutation);
    IdleMutationStarts(s, mutation, request);
    SentMutationIsAnswered(Next(Next(s, Enqueue(mutation)), Start), next, nowMs, freshTabId);
  }

  lemma {:induction false} OneMoreStep(s: System, steps: seq<Step>, step: Step)
    requires SaneRun(s, steps) && SaneStep(Run(s, steps), step)
    ensures SaneRun(s, steps + [step]) && Run(s, steps + [step]) == Next(Run(s, steps), step)
    decreases |steps|
  {
    hide Next, SaneStep;
    if steps == [] {
      assert [step][1..] == [] && steps + [step] == [step];
    } else {
      assert (steps + [step])[1..] == steps[1..] + [step];
      OneMoreStep(Next(s, steps[0]), steps[1..], step);
    }
  }

  // The run below: a window holding the first `version` of three blank tabs, the last one active.
  const TabA := Tab("a", None)
  const TabB := Tab("b", None)
  const TabC := Tab("c", None)

  function Tabs(version: nat): (tabs: seq<Tab>)
    ensures tabs != []
  {
    if version <= 1 then [TabA] else if version == 2 then [TabA, TabB] else [TabA, TabB, TabC]
  }

  function ActiveTab(version: nat): string {
    if version <= 1 then "a" else if version == 2 then "b" else "c"
  }

  function Holding(version: nat): Repository {
    Repository(map["w" := Row(version, Some("s"), version)], map["w" := "s"],
               map["w" := Runtime("s", Tabs(version), ActiveTab(version))], {"s"})
  }

  function Held(version: nat): WindowState {
    WindowState("w", version, Some("s"), Tabs(version), Some(ActiveTab(version)), version)
  }

  lemma BlankTabsAreValid(version: nat)
    ensures ValidTabs(Tabs(version), ActiveTab(version)) && TabsError(Tabs(version), ActiveTab(version)).None?
  {
    assert "a"[0] != "b"[0] && "b"[0] != "c"[0] && "a"[0] != "c"[0];
    assert Tabs(version)[|Tabs(version)| - 1] in Tabs(version);
    TabsErrorIffInvalid(Tabs(version), ActiveTab(version));
  }

  lemma HoldingHolds(version: nat)
    requires 0 < version <= 3
    ensures RepositoryInv(Holding(version)) && Current(Holding(version), "w") == Ok(Held(version))
  {
    BlankTabsAreValid(version);
    hide ValidTabs, TabsError, Tabs, ActiveTab;
  }

  lemma Overwriting<T>(key: string, before: T, after: T)
    ensures map[key := before][key := after] == map[key := after]
  {
  }

  lemma CommitHolds(version: nat)
    requires 0 < version < 3
    ensures CommitTabs(Holding(version), "w", "s", Tabs(version + 1), ActiveTab(version + 1), version + 1)
            == (Holding(version + 1), Ok(Held(version + 1)))
  {
    BlankTabsAreValid(version + 1);
    hide ValidTabs, TabsError, Tabs, ActiveTab;
    var next := version + 1;
    Overwriting("w", Row(version, Some("s"), version), Row(next, Some("s"), next));
    Overwriting("w", Runtime("s", Tabs(version), ActiveTab(version)), Runtime("s", Tabs(next), ActiveTab(next)));
  }

  lemma UpdateHolds()
    ensures UpdateTabsStep(Holding(1), "w", 1, Tabs(2), "b", 2) == (Holding(2), Ok(Held(2)))
  {
    HoldingHolds(1);
    CommitHolds(1);
    BlankTabsAreValid(2);
    assert |Tabs(1)| != |Tabs(2)|;
    hide ValidTabs, TabsError, RepositoryInv, CommitTabs, Current, Holding;
  }

  lemma OpenHolds()
    ensures OpenTabStep(Holding(2), "w", "s", None, 3, "c") == (Holding(3), Ok(Held(3)))
  {
    HoldingHolds(2);
    CommitHolds(2);
    BlankTabsAreValid(3);
    assert Tabs(2) + [TabC] == Tabs(3) && |Tabs(2)| != |Tabs(3)|;
    hide ValidTabs, TabsError, RepositoryInv, CommitTabs, Current, Holding;
  }

  lemma LoadHolds()
    ensures LoadAndActivateStep(Holding(1), "w", 1, "x") == (Holding(1), Ok(Held(1)))
  {
    HoldingHolds(1);
    BlankTabsAreValid(1);
    hide ValidTabs, TabsError, RepositoryInv, Tabs, ActiveTab;
    var r := Holding(1);
    assert r.windows["w" := r.windows["w"]] == r.windows;
    assert WithReference(r.references, "w", Some("s")) == r.references;
    assert WithRuntime(r.runtime, "w", RuntimeOf(r, "w")) == r.runtime;
  }

  function At(version: nat, controller: Controller): System {
    System("w", Holding(version), controller,
           if version <= 1 then [Held(1)] else if version == 2 then [Held(1), Held(2)] else [Held(1), Held(2), Held(3)],
           if version <= 1 then [None] else if version == 2 then [None, Some(0)] else [None, Some(0), None], [])
  }

  const Opening := InFlight(OpenTab(TabB), Held(1), TabsRequest(1, Tabs(2), "b"), 0, None)
  const Asked := InitialController.(loadGeneration := 1, loads := map[1 := None])
  const Answered := Asked.(loads := map[1 := Some(Held(1))])
  const Loaded := Asked.(loads := map[], authoritative := Some(Held(1)))
  const Queued := Loaded.(loadGeneration := 2, pendingMutationCount := 1, queue := [OpenTab(TabB)])
  const Sending := Queued.(queue := [], started := 1, active := Some(Opening))
  const Replied := Sending.(active := Some(Opening.(reply := Some(Ok(Held(2))))))
  const Overtaken := Replied.(loadGeneration := 3, authoritative := Some(Held(3)))

  // The step is sane and leads from one state of the run to the next.
  ghost predicate Leads(s: System, step: Step, s': System) {
    SaneStep(s, step) && Next(s, step) == s'
  }

  lemma LoadingSteps()
    ensures Leads(At(1, InitialController), Reload, At(1, Asked))
    ensures Leads(At(1, Asked), ProcessLoad(1, 1, "x"), At(1, Answered))
    ensures Leads(At(1, Answered), FinishLoad(1, false), At(1, Loaded))
  {
    LoadHolds();
    HoldingHolds(1);
    hide RepositoryInv, LoadAndActivateStep, Current, Holding, Held;
    assert Asked.loads[1 := Some(Held(1))] == Answered.loads;
    assert Answered.loads - {1} == Loaded.loads;
  }

  lemma RequestSteps()
    ensures Leads(At(1, Loaded), Enqueue(OpenTab(TabB)), At(1, Queued))
    ensures Leads(At(1, Queued), Start, At(1, Sending))
  {
    assert Tabs(1) + [TabB] == Tabs(2);
    assert "a"[0] != "b"[0];
    hide Holding;
  }

  lemma CommittingStep()
    ensures Leads(At(1, Sending), ProcessRequest(2, "x"), At(2, Replied))
  {
    UpdateHolds();
    HoldingHolds(2);
    hide RepositoryInv, UpdateTabsStep, Current, Holding, Tabs, ActiveTab;
    assert At(1, Sending).history + [Held(2)] == At(2, Replied).history;
    assert At(1, Sending).authors + [Some(0)] == At(2, Replied).authors;
  }

  lemma OthersCommit(s: System, op: Operation, repository: Repository, held: WindowState)
    requires AllowedForOthers(s.window, op) && Perform(s.repository, op) == repository
    requires Current(repository, s.window) == Ok(held) && s.history != [] && held != s.history[|s.history| - 1]
    ensures Leads(s, Environment(op),
                  s.(repository := repository, history := s.history + [held], authors := s.authors + [None]))
  {
    hide Perform, Current, AllowedForOthers;
  }

  lemma OpeningPerforms()
    ensures Perform(Holding(2), OpenTabForServer("w", "s", None, 3, "c")) == Holding(3)
  {
    OpenHolds();
    hide OpenTabStep, Holding;
  }

  lemma AtThree(c: Controller)
    ensures At(2, c).history != [] && At(2, c).history[|At(2, c).history| - 1] == Held(2)
    ensures At(2, c).(repository := Holding(3), history := At(2, c).history + [Held(3)], authors := At(2, c).authors + [None]) == At(3, c)
  {
    hide Holding, Held;
    assert [Held(1), Held(2)] + [Held(3)] == [Held(1), Held(2), Held(3)];
    var authors: seq<Option<nat>> := [None, Some(0)];
    assert authors + [None] == [None, Some(0), None];
  }

  lemma HeldDiffers()
    ensures Held(2) != Held(3)
  {
    hide Tabs, ActiveTab;
  }

  lemma OpeningStep(c: Controller)
    ensures Leads(At(2, c), Environment(OpenTabForServer("w", "s", None, 3, "c")), At(3, c))
  {
    OpeningPerforms();
    HoldingHolds(3);
    AtThree(c);
    HeldDiffers();
    hide RepositoryInv, Perform, Current, Holding, Held, Leads;
    OthersCommit(At(2, c), OpenTabForServer("w", "s", None, 3, "c"), Holding(3), Held(3));
  }

  lemma EventStep()
    ensures Leads(At(3, Replied), DeliverEvent(2), At(3, Overtaken))
  {
    hide Holding, Tabs, ActiveTab;
  }

  ghost predicate Reaches(start: System, steps: seq<Step>, s: System) {
    SaneRun(start, steps) && Run(start, steps) == s
  }

  lemma Advance(start: System, steps: seq<Step>, s: System, step: Step, s': System) returns (longer: seq<Step>)
    requires Reaches(start, steps, s) && Leads(s, step, s')
    ensures longer == steps + [step] && Reaches(start, longer, s')
  {
    OneMoreStep(start, steps, step);
    longer := steps + [step];
    hide SaneRun, Run, Next, SaneStep;
  }

  // After the load, opening a tab commits version 2 and another window's opened tab commits version
  // 3; the event overtakes the reply.
  lemma Overtaking() returns (steps: seq<Step>)
    ensures RepositoryInv(Holding(1)) && Live(Holding(1), "w")
    ensures Reaches(InitialSystem(Holding(1), "w"), steps, At(3, Overtaken))
  {
    HoldingHolds(1);
    LoadingSteps();
    RequestSteps();
    CommittingStep();
    OpeningStep(Replied);
    EventStep();
    var start := InitialSystem(Holding(1), "w");
    assert start == At(1, InitialController);
    assert Reaches(start, [], start);
    hide RepositoryInv, Current, Reaches, Leads, Holding, At;
    steps := Advance(start, [], start, Reload, At(1, Asked));
    steps := Advance(start, steps, At(1, Asked), ProcessLoad(1, 1, "x"), At(1, Answered));
    steps := Advance(start, steps, At(1, Answered), FinishLoad(1, false), At(1, Loaded));
    steps := Advance(start, steps, At(1, Loaded), Enqueue(OpenTab(TabB)), At(1, Queued));
    steps := Advance(start, steps, At(1, Queued), Start, At(1, Sending));
    steps := Advance(start, steps, At(1, Sending), ProcessRequest(2, "x"), At(2, Replied));
    steps := Advance(start, steps, At(2, Replied), Environment(OpenTabForServer("w", "s", None, 3, "c")), At(3, Replied));
    steps := Advance(start, steps, At(3, Replied), DeliverEvent(2), At(3, Overtaken));
  }

  // It does happen: a run from a valid repository ends with the controller at version 3, and the
  // delivery of the outstanding reply takes it back to version 2.
  lemma VersionCanDecrease() returns (r: Repository, window: string, steps: seq<Step>)
    ensures RepositoryInv(r) && Live(r, window)
    ensures SaneRun(InitialSystem(r, window), steps + [Deliver(false)])
    ensures var s := Run(InitialSystem(r, window), steps);
            var s' := Run(InitialSystem(r, window), steps + [Deliver(false)]);
            && s.controller.authoritative.Some? && s.controller.authoritative.value.version == 3
            && s'.controller.authoritative.Some? && s'.controller.authoritative.value.version == 2
  {
    r, window := Holding(1), "w";
    steps := Overtaking();
    SuccessReplyIsAccepted(r, window, steps);
    OneMoreStep(InitialSystem(r, window), steps, Deliver(false));
    hide RepositoryInv, Run, SaneRun, Holding;
  }

  // ---- The controller object -------------------------------------------------------------------------------------

  // The fields updated in place; each method is one synchronous segment of the source.
  class WindowStateController {
    var authoritativeState: Option<WindowState>
    var loadGeneration: nat
    var pendingMutationCount: nat
    var mutationTail: seq<Mutation>
    var active: Option<InFlight>
    var loads: map<nat, Option<WindowState>>
    var disposed: bool
    var started: nat

    ghost function View(): Controller
      reads this
    {
      Controller(authoritativeState, loadGeneration, pendingMutationCount, mutationTail, active, loads, disposed, started)
    }

    ghost predicate Valid()
      reads this
    {
      pendingMutationCount == |mutationTail| + (if active.Some? then 1 else 0)
    }

    constructor ()
      ensures Valid() && View() == InitialController
    {
      authoritativeState, loadGeneration, pendingMutationCount := None, 0, 0;
      mutationTail, active, loads, disposed, started := [], None, map[], false, 0;
    }

    method Reload() returns (generation: Option<nat>)
      requires Valid()
      modifies this
      ensures Valid() && View() == old(ReloadStep(View()))
      ensures generation.Some? ==> generation.value == loadGeneration && generation.value in loads
    {
      if disposed || pendingMutationCount > 0 {
        return None;
      }
      loadGeneration := loadGeneration + 1;
      loads := loads[loadGeneration := None];
      generation := Some(loadGeneration);
    }

    method EnqueueMutation(mutation: Mutation) returns (resolution: Option<Resolution>)
      requires Valid()
      modifies this
      ensures Valid() && (View(), resolution) == old(EnqueueStep(View(), mutation))
    {
      if disposed || authoritativeState.None? {
        return Some(Rejected(mutation, StateUnavailable));
      }
      if pendingMutationCount == 0 && AlreadyBound(authoritativeState.value, mutation) {
        return Some(NoOperation(mutation, authoritativeState.value));
      }
      pendingMutationCount := pendingMutationCount + 1;
      loadGeneration := loadGeneration + 1;
      mutationTail := mutationTail + [mutation];
      resolution := None;
    }

    // executeMutation up to its request, for the mutation at the head of the chain.
    method BeginMutation() returns (resolution: Option<Resolution>)
      requires Valid() && active.None? && mutationTail != []
      modifies this
      ensures Valid() && (View(), resolution) == old(StartStep(View()))
    {
      var mutation := mutationTail[0];
      mutationTail := mutationTail[1..];
      resolution := None;
      if disposed || authoritativeState.None? {
        pendingMutationCount := pendingMutationCount - 1;
        return Some(Rejected(mutation, StateUnavailable));
      }
      var previous := authoritativeState.value;
      var plan := Plan(previous, mutation);
      match plan
      case Err(error) =>
        pendingMutationCount := pendingMutationCount - 1;
        resolution := Some(Rejected(mutation, error));
      case Ok(None) =>
        pendingMutationCount := pendingMutationCount - 1;
        resolution := Some(NoOperation(mutation, previous));
      case Ok(Some(request)) =>
        active := Some(InFlight(mutation, previous, request, started, None));
        started := started + 1;
    }

    // executeMutation after its request settled.
    method FinishMutation(transportFailed: bool) returns (resolution: Option<Resolution>)
      requires Valid() && active.Some? && (active.value.reply.Some? || transportFailed)
      modifies this
      ensures Valid() && (View(), resolution) == old(DeliverStep(View(), transportFailed))
    {
      var call := active.value;
      active := None;
      pendingMutationCount := pendingMutationCount - 1;
      if !transportFailed && call.reply.value.Ok?
         && MutationResultAccepted(call.previous, call.reply.value.value, call.mutation) {
        var next := call.reply.value.value;
        authoritativeState := Some(next);
        return Some(Committed(call.mutation, call.previous, next, call.ticket));
      }
      if !transportFailed && call.reply.value.Err? && call.reply.value.error.ServerAlreadyOpen? {
        return Some(Rejected(call.mutation, ServerIsAlreadyOpen));
      }
      authoritativeState := None;
      resolution := Some(Rejected(call.mutation, OperationFailed));
    }

    method ApplyExternalState(state: WindowState)
      requires Valid()
      modifies this
      ensures Valid() && View() == old(ApplyExternalStep(View(), state))
    {
      if disposed || authoritativeState.None? || state.windowId != authoritativeState.value.windowId
         || state.version <= authoritativeState.value.version {
        return;
      }
      loadGeneration := loadGeneration + 1;
      authoritativeState := Some(state);
    }

    method FinishLoad(generation: nat, failed: bool)
      requires Valid() && generation in loads && (loads[generation].Some? || failed)
      modifies this
      ensures Valid() && View() == old(FinishLoadStep(View(), generation, failed))
    {
      var response := loads[generation];
      loads := loads - {generation};
      if disposed || generation != loadGeneration {
        return;
      }
      authoritativeState := if failed then None else response;
    }

    method Dispose()
      requires Valid()
      modifies this
      ensures Valid() && View() == old(DisposeStep(View()))
    {
      if disposed {
        return;
      }
      disposed := true;
      loadGeneration := loadGeneration + 1;
    }
  }
}
