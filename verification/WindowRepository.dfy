/**
  The window-state repository: persisted rows, active references and runtime tabs, each operation
  one locked transaction. A failed transaction changes nothing.
  Source: src-tauri/src/window_state.rs, migrations 0001, 0003 and 0010 for the table constraints, and
  src-tauri/src/configuration/repository.rs for the deletion of a server.
 */
module WindowRepository {
  import opened Prelude
  import opened WindowTabs

  datatype Row = Row(version: nat, serverId: Option<ServerId>, updatedAtMs: nat)

  datatype Runtime = Runtime(serverId: ServerId, tabs: seq<Tab>, activeTabId: string)

  datatype Repository = Repository(windows: map<string, Row>, references: map<string, ServerId>,
                                   runtime: map<string, Runtime>, servers: set<ServerId>)

  type Outcome = Result<WindowState, RepositoryError>

  // ---- Invariant ------------------------------------------------------------------------------

  ghost predicate ValidRow(row: Row, servers: set<ServerId>) {
    && 1 <= row.version <= MAX_SAFE_INTEGER
    && row.updatedAtMs <= MAX_SAFE_INTEGER
    && (row.serverId.Some? ==> row.serverId.value in servers)
  }

  ghost predicate RowsInv(r: Repository) {
    forall w <- r.windows :: ValidRow(r.windows[w], r.servers)
  }

  // No server is active in two windows.
  ghost predicate OneWindowPerServer(r: Repository) {
    forall v, w :: v in r.references && w in r.references && r.references[v] == r.references[w] ==> v == w
  }

  // A window has an active reference exactly when it has a runtime state, for the server its row names.
  ghost predicate ReferencesInv(r: Repository) {
    && r.references.Keys == r.runtime.Keys
    && (forall w <- r.references ::
          && w in r.windows
          && r.windows[w].serverId == Some(r.references[w])
          && r.runtime[w].serverId == r.references[w])
  }

  ghost predicate RuntimeInv(r: Repository) {
    forall w <- r.runtime :: ValidTabs(r.runtime[w].tabs, r.runtime[w].activeTabId)
  }

  ghost predicate RepositoryInv(r: Repository) {
    RowsInv(r) && OneWindowPerServer(r) && ReferencesInv(r) && RuntimeInv(r)
  }

  // ---- Shared parts of the operations ------------------------------------------------------------

  function NewRuntime(serverId: ServerId, threadId: Option<string>, freshTabId: string): Runtime {
    Runtime(serverId, [Tab(freshTabId, threadId)], freshTabId)
  }

  // Some active window of a server other than the excluded one, when there is any.
  ghost function ActiveWindow(references: map<string, ServerId>, serverId: ServerId, excluded: Option<string>)
    : (r: Option<string>)
    ensures r.Some? ==> r.value in references && references[r.value] == serverId && excluded != r
    ensures r.None? ==> forall w <- references :: references[w] == serverId ==> excluded == Some(w)
  {
    if w :| w in references && references[w] == serverId && excluded != Some(w) then Some(w) else None
  }

  function RuntimeMatches(row: Row, runtime: Option<Runtime>): bool {
    match row.serverId
    case None => runtime.None?
    case Some(serverId) => runtime.Some? && runtime.value.serverId == serverId
  }

  function RuntimeOf(r: Repository, window: string): Option<Runtime> {
    if window in r.runtime then Some(r.runtime[window]) else None
  }

  function Attach(window: string, row: Row, runtime: Option<Runtime>): Outcome {
    if !RuntimeMatches(row, runtime) then Err(Corrupt)
    else
      match runtime
      case None => Ok(WindowState(window, row.version, None, [], None, row.updatedAtMs))
      case Some(rt) =>
        if TabsError(rt.tabs, rt.activeTabId).Some? then Err(Corrupt)
        else Ok(WindowState(window, row.version, row.serverId, rt.tabs, Some(rt.activeTabId), row.updatedAtMs))
  }

  // current_runtime_state followed by attach_runtime_state on the stored row.
  function Current(r: Repository, window: string): Outcome {
    if window !in r.windows then Err(WindowNotFound)
    else Attach(window, r.windows[window], RuntimeOf(r, window))
  }

  function WithRuntime(runtime: map<string, Runtime>, window: string, state: Option<Runtime>): map<string, Runtime> {
    if state.Some? then runtime[window := state.value] else runtime - {window}
  }

  function WithReference(references: map<string, ServerId>, window: string, serverId: Option<ServerId>)
    : map<string, ServerId>
  {
    if serverId.Some? then references[window := serverId.value] else references - {window}
  }

  function Touched(updatedAtMs: nat, nowMs: nat): nat {
    Max(updatedAtMs + 1, nowMs)
  }

  // The compare-and-swap update: the row it writes, or why it does not.
  function Bump(row: Row, serverId: Option<ServerId>, nowMs: nat): Result<Row, RepositoryError> {
    if nowMs > MAX_SAFE_INTEGER then Err(Corrupt)
    else if row.version >= MAX_SAFE_INTEGER then Err(VersionConflict)
    else if Touched(row.updatedAtMs, nowMs) > MAX_SAFE_INTEGER then Err(Database)
    else Ok(Row(row.version + 1, serverId, Touched(row.updatedAtMs, nowMs)))
  }

  predicate ValidVersion(version: nat) {
    0 < version <= MAX_SAFE_INTEGER
  }

  // ---- Operations ---------------------------------------------------------------------------------

  function InitializeStep(r: Repository): Repository {
    r.(references := map[], runtime := map[])
  }

  // The runtime state kept for the row's server, or a new one.
  function RuntimeAtLoad(r: Repository, window: string, row: Row, freshTabId: string): Option<Runtime> {
    var stored := RuntimeOf(r, window);
    if row.serverId.None? then None
    else if stored.Some? && stored.value.serverId == row.serverId.value then stored
    else Some(NewRuntime(row.serverId.value, None, freshTabId))
  }

  ghost function LoadAndActivateStep(r: Repository, window: string, nowMs: nat, freshTabId: string): (Repository, Outcome) {
    if window !in r.windows && nowMs > MAX_SAFE_INTEGER then (r, Err(Database))
    else
      var row := if window in r.windows then r.windows[window] else Row(1, None, nowMs);
      var holder := if row.serverId.Some? then ActiveWindow(r.references, row.serverId.value, Some(window)) else None;
      if holder.Some? then (r, Err(ServerAlreadyOpen(holder.value)))
      else
        var runtime := RuntimeAtLoad(r, window, row, freshTabId);
        (Repository(r.windows[window := row],
                    WithReference(r.references, window, row.serverId),
                    WithRuntime(r.runtime, window, runtime),
                    r.servers),
         Attach(window, row, runtime))
  }

  ghost function BindServerStep(r: Repository, window: string, expectedVersion: nat, serverId: Option<ServerId>,
                                nowMs: nat, freshTabId: string): (Repository, Outcome)
  {
    if !ValidVersion(expectedVersion) then (r, Err(InvalidVersion))
    else
      var current := Current(r, window);
      if current.Err? then (r, current)
      else if current.value.version != expectedVersion then (r, Err(VersionConflict))
      else if current.value.serverId == serverId then
        (r.(references := WithReference(r.references, window, serverId)), current)
      else if serverId.Some? && serverId.value !in r.servers then (r, Err(ServerNotFound))
      else
        var holder := if serverId.Some? then ActiveWindow(r.references, serverId.value, Some(window)) else None;
        if holder.Some? then (r, Err(ServerAlreadyOpen(holder.value)))
        else
          match Bump(r.windows[window], serverId, nowMs)
          case Err(error) => (r, Err(error))
          case Ok(row) =>
            var runtime := if serverId.Some? then Some(NewRuntime(serverId.value, None, freshTabId)) else None;
            (Repository(r.windows[window := row],
                        WithReference(r.references, window, serverId),
                        WithRuntime(r.runtime, window, runtime),
                        r.servers),
             Attach(window, row, runtime))
  }

  // Store new tabs for an active window under a compare-and-swap on its version.
  function CommitTabs(r: Repository, window: string, serverId: ServerId, tabs: seq<Tab>, activeTabId: string, nowMs: nat)
    : (Repository, Outcome)
    requires window in r.windows
  {
    match Bump(r.windows[window], r.windows[window].serverId, nowMs)
    case Err(error) => (r, Err(error))
    case Ok(row) =>
      var runtime := Runtime(serverId, tabs, activeTabId);
      (r.(windows := r.windows[window := row], runtime := r.runtime[window := runtime]),
       Attach(window, row, Some(runtime)))
  }

  function UpdateTabsStep(r: Repository, window: string, expectedVersion: nat, tabs: seq<Tab>, activeTabId: string,
                          nowMs: nat): (Repository, Outcome)
  {
    if !ValidVersion(expectedVersion) then (r, Err(InvalidVersion))
    else
      var invalid := TabsError(tabs, activeTabId);
      if invalid.Some? then (r, Err(invalid.value))
      else
        var current := Current(r, window);
        if current.Err? then (r, current)
        else if current.value.version != expectedVersion then (r, Err(VersionConflict))
        else if current.value.serverId.None? then (r, Err(TabsWithoutServer))
        else if current.value.tabs == tabs && current.value.activeTabId == Some(activeTabId) then (r, current)
        else CommitTabs(r, window, current.value.serverId.value, tabs, activeTabId, nowMs)
  }

  ghost function ReserveNewWindowStep(r: Repository, window: string, serverId: ServerId, threadId: Option<string>,
                                      nowMs: nat, freshTabId: string): (Repository, Outcome)
  {
    if !ValidOptionalText(threadId, MAX_THREAD_ID_BYTES) then (r, Err(InvalidThreadId))
    else if serverId !in r.servers then (r, Err(ServerNotFound))
    else
      var holder := ActiveWindow(r.references, serverId, None);
      if holder.Some? then (r, Err(ServerAlreadyOpen(holder.value)))
      else if nowMs > MAX_SAFE_INTEGER then (r, Err(Corrupt))
      else if window in r.windows then (r, Err(Database))
      else
        var row := Row(1, Some(serverId), nowMs);
        var runtime := NewRuntime(serverId, threadId, freshTabId);
        (Repository(r.windows[window := row], r.references[window := serverId],
                    r.runtime[window := runtime], r.servers),
         Attach(window, row, Some(runtime)))
  }

  function OpenTabStep(r: Repository, window: string, serverId: ServerId, threadId: Option<string>,
                       nowMs: nat, freshTabId: string): (Repository, Outcome)
  {
    if !ValidOptionalText(threadId, MAX_THREAD_ID_BYTES) then (r, Err(InvalidThreadId))
    else
      var current := Current(r, window);
      if current.Err? then (r, current)
      else if current.value.serverId != Some(serverId) then (r, Err(Corrupt))
      else
        var decided := OpenedTabs(current.value.tabs, threadId, freshTabId);
        var invalid := TabsError(decided.tabs, decided.activeTabId);
        if invalid.Some? then (r, Err(invalid.value))
        else if current.value.activeTabId == Some(decided.activeTabId) && current.value.tabs == decided.tabs then (r, current)
        else CommitTabs(r, window, serverId, decided.tabs, decided.activeTabId, nowMs)
  }

  function DiscardStep(r: Repository, window: string): Repository {
    r.(windows := r.windows - {window}, references := r.references - {window}, runtime := r.runtime - {window})
  }

  function DeactivateStep(r: Repository, window: string): Repository {
    r.(references := r.references - {window}, runtime := r.runtime - {window})
  }

  // Deleting a server, refused while a window is active on it or when a row cannot be bumped.
  function DeleteServerStep(r: Repository, serverId: ServerId, nowMs: nat): Repository {
    if serverId in r.references.Values
       || nowMs > MAX_SAFE_INTEGER
       || (exists w <- r.windows :: r.windows[w].serverId == Some(serverId) && Bump(r.windows[w], None, nowMs).Err?)
    then r
    else
      r.(servers := r.servers - {serverId},
         windows := map w | w in r.windows ::
           if r.windows[w].serverId == Some(serverId) then Bump(r.windows[w], None, nowMs).value else r.windows[w])
  }

  datatype Operation =
    | Initialize
    | LoadAndActivate(window: string, nowMs: nat, freshTabId: string)
    | BindServerTo(window: string, expectedVersion: nat, bound: Option<ServerId>, nowMs: nat, freshTabId: string)
    | UpdateTabs(window: string, expectedVersion: nat, tabs: seq<Tab>, activeTabId: string, nowMs: nat)
    | ReserveNewWindow(window: string, serverId: ServerId, threadId: Option<string>, nowMs: nat, freshTabId: string)
    | OpenTabForServer(window: string, serverId: ServerId, threadId: Option<string>, nowMs: nat, freshTabId: string)
    | DiscardReservedWindow(window: string)
    | Deactivate(window: string)
    | CreateServer(serverId: ServerId)
    | DeleteServer(serverId: ServerId, nowMs: nat)

  ghost function Perform(r: Repository, op: Operation): Repository {
    match op
    case Initialize => InitializeStep(r)
    case LoadAndActivate(w, now, tab) => LoadAndActivateStep(r, w, now, tab).0
    case BindServerTo(w, version, server, now, tab) => BindServerStep(r, w, version, server, now, tab).0
    case UpdateTabs(w, version, tabs, active, now) => UpdateTabsStep(r, w, version, tabs, active, now).0
    case ReserveNewWindow(w, server, thread, now, tab) => ReserveNewWindowStep(r, w, server, thread, now, tab).0
    case OpenTabForServer(w, server, thread, now, tab) => OpenTabStep(r, w, server, thread, now, tab).0
    case DiscardReservedWindow(w) => DiscardStep(r, w)
    case Deactivate(w) => DeactivateStep(r, w)
    case CreateServer(server) => r.(servers := r.servers + {server})
    case DeleteServer(server, now) => DeleteServerStep(r, server, now)
  }

  // Generated tab ids are valid texts (random UUIDs).
  predicate SaneOperation(op: Operation) {
    match op
    case LoadAndActivate(_, _, tab) => ValidText(tab, MAX_TAB_ID_BYTES)
    case BindServerTo(_, _, _, _, tab) => ValidText(tab, MAX_TAB_ID_BYTES)
    case ReserveNewWindow(_, _, _, _, tab) => ValidText(tab, MAX_TAB_ID_BYTES)
    case _ => true
  }

  ghost function PerformAll(r: Repository, ops: seq<Operation>): Repository
    decreases |ops|
  {
    if ops == [] then r else PerformAll(Perform(r, ops[0]), ops[1..])
  }

  // ---- Every operation keeps the invariant ----------------------------------------------------------

  lemma NewRuntimeIsValid(serverId: ServerId, threadId: Option<string>, freshTabId: string)
    requires ValidText(freshTabId, MAX_TAB_ID_BYTES) && ValidOptionalText(threadId, MAX_THREAD_ID_BYTES)
    ensures var rt := NewRuntime(serverId, threadId, freshTabId); ValidTabs(rt.tabs, rt.activeTabId)
  {
    assert Tab(freshTabId, threadId) in [Tab(freshTabId, threadId)];
  }

  // Putting a window on a server nobody else holds, or off any server.
  lemma PlacingKeepsInv(r: Repository, window: string, row: Row, runtime: Option<Runtime>)
    requires RepositoryInv(r)
    requires ValidRow(row, r.servers)
    requires RuntimeMatches(row, runtime)
    requires runtime.Some? ==> ValidTabs(runtime.value.tabs, runtime.value.activeTabId)
    requires row.serverId.Some? ==>
               forall w <- r.references :: r.references[w] == row.serverId.value ==> w == window
    ensures RepositoryInv(Repository(r.windows[window := row],
                                     WithReference(r.references, window, row.serverId),
                                     WithRuntime(r.runtime, window, runtime),
                                     r.servers))
  {
    hide ValidTabs, ValidRow;
  }

  lemma LoadAndActivateKeepsInv(r: Repository, window: string, nowMs: nat, freshTabId: string)
    requires RepositoryInv(r) && ValidText(freshTabId, MAX_TAB_ID_BYTES)
    ensures RepositoryInv(LoadAndActivateStep(r, window, nowMs, freshTabId).0)
  {
    hide ValidTabs, TabsError;
    if !(window !in r.windows && nowMs > MAX_SAFE_INTEGER) {
      var row := if window in r.windows then r.windows[window] else Row(1, None, nowMs);
      var holder := if row.serverId.Some? then ActiveWindow(r.references, row.serverId.value, Some(window)) else None;
      if holder.None? {
        var stored := RuntimeOf(r, window);
        var runtime :=
          if row.serverId.None? then None
          else if stored.Some? && stored.value.serverId == row.serverId.value then stored
          else Some(NewRuntime(row.serverId.value, None, freshTabId));
        if row.serverId.Some? {
          NewRuntimeIsValid(row.serverId.value, None, freshTabId);
        }
        PlacingKeepsInv(r, window, row, runtime);
      }
    }
  }

  lemma BindServerKeepsInv(r: Repository, window: string, expectedVersion: nat, serverId: Option<ServerId>,
                           nowMs: nat, freshTabId: string)
    requires RepositoryInv(r) && ValidText(freshTabId, MAX_TAB_ID_BYTES)
    ensures RepositoryInv(BindServerStep(r, window, expectedVersion, serverId, nowMs, freshTabId).0)
  {
    hide ValidTabs, TabsError;
    var current := Current(r, window);
    if current.Ok? {
      if current.value.serverId == serverId {
        assert WithReference(r.references, window, serverId) == r.references;
      } else if serverId.None? {
        if Bump(r.windows[window], None, nowMs).Ok? {
          PlacingKeepsInv(r, window, Bump(r.windows[window], None, nowMs).value, None);
        }
      } else if serverId.value in r.servers
                && ActiveWindow(r.references, serverId.value, Some(window)).None?
                && Bump(r.windows[window], serverId, nowMs).Ok? {
        NewRuntimeIsValid(serverId.value, None, freshTabId);
        PlacingKeepsInv(r, window, Bump(r.windows[window], serverId, nowMs).value,
                        Some(NewRuntime(serverId.value, None, freshTabId)));
      }
    }
  }

  lemma CommitTabsKeepsInv(r: Repository, window: string, serverId: ServerId, tabs: seq<Tab>, activeTabId: string, nowMs: nat)
    requires RepositoryInv(r) && window in r.references && r.references[window] == serverId
    requires ValidTabs(tabs, activeTabId)
    ensures RepositoryInv(CommitTabs(r, window, serverId, tabs, activeTabId, nowMs).0)
  {
    hide ValidTabs, TabsError;
  }

  // What `Current` says about a window of a consistent repository.
  lemma CurrentSays(r: Repository, window: string)
    requires RepositoryInv(r)
    ensures window !in r.windows ==> Current(r, window) == Err(WindowNotFound)
    ensures window in r.windows ==>
              (Current(r, window).Ok? <==> (r.windows[window].serverId.None? || window in r.references))
    ensures window in r.windows && Current(r, window).Err? ==> Current(r, window) == Err(Corrupt)
    ensures Current(r, window).Ok? ==>
              && Current(r, window).value.version == r.windows[window].version
              && Current(r, window).value.serverId == r.windows[window].serverId
              && Current(r, window).value.windowId == window
              && ValidWindow(Current(r, window).value)
  {
    if window in r.windows && window in r.runtime {
      TabsErrorIffInvalid(r.runtime[window].tabs, r.runtime[window].activeTabId);
    }
  }

  lemma UpdateTabsKeepsInv(r: Repository, window: string, expectedVersion: nat, tabs: seq<Tab>, activeTabId: string, nowMs: nat)
    requires RepositoryInv(r)
    ensures RepositoryInv(UpdateTabsStep(r, window, expectedVersion, tabs, activeTabId, nowMs).0)
  {
    hide ValidTabs, TabsError, RepositoryInv, CommitTabs;
    CurrentSays(r, window);
    TabsErrorIffInvalid(tabs, activeTabId);
    if TabsError(tabs, activeTabId).None? && Current(r, window).Ok? && Current(r, window).value.serverId.Some? {
      ReferenceOfCurrent(r, window);
      CommitTabsKeepsInv(r, window, Current(r, window).value.serverId.value, tabs, activeTabId, nowMs);
    }
  }

  lemma ReferenceOfCurrent(r: Repository, window: string)
    requires RepositoryInv(r) && Current(r, window).Ok? && Current(r, window).value.serverId.Some?
    ensures window in r.references && r.references[window] == Current(r, window).value.serverId.value
  {
    hide ValidTabs, TabsError;
  }

  lemma OpenTabKeepsInv(r: Repository, window: string, serverId: ServerId, threadId: Option<string>, nowMs: nat, freshTabId: string)
    requires RepositoryInv(r)
    ensures RepositoryInv(OpenTabStep(r, window, serverId, threadId, nowMs, freshTabId).0)
  {
    hide ValidTabs, TabsError, RepositoryInv, CommitTabs, OpenedTabs;
    CurrentSays(r, window);
    if Current(r, window).Ok? && Current(r, window).value.serverId == Some(serverId) {
      var decided := OpenedTabs(Current(r, window).value.tabs, threadId, freshTabId);
      TabsErrorIffInvalid(decided.tabs, decided.activeTabId);
      ReferenceOfCurrent(r, window);
      if TabsError(decided.tabs, decided.activeTabId).None? {
        CommitTabsKeepsInv(r, window, serverId, decided.tabs, decided.activeTabId, nowMs);
      }
    }
  }

  lemma ReserveKeepsInv(r: Repository, window: string, serverId: ServerId, threadId: Option<string>, nowMs: nat, freshTabId: string)
    requires RepositoryInv(r) && ValidText(freshTabId, MAX_TAB_ID_BYTES)
    ensures RepositoryInv(ReserveNewWindowStep(r, window, serverId, threadId, nowMs, freshTabId).0)
  {
    hide ValidTabs, TabsError;
    if ValidOptionalText(threadId, MAX_THREAD_ID_BYTES) && serverId in r.servers
       && ActiveWindow(r.references, serverId, None).None? && nowMs <= MAX_SAFE_INTEGER {
      NewRuntimeIsValid(serverId, threadId, freshTabId);
      PlacingKeepsInv(r, window, Row(1, Some(serverId), nowMs), Some(NewRuntime(serverId, threadId, freshTabId)));
    }
  }

  lemma RemovalsKeepInv(r: Repository, window: string)
    requires RepositoryInv(r)
    ensures RepositoryInv(DiscardStep(r, window)) && RepositoryInv(DeactivateStep(r, window))
    ensures RepositoryInv(InitializeStep(r))
  {
    hide ValidTabs;
  }

  lemma DeleteServerKeepsInv(r: Repository, serverId: ServerId, nowMs: nat)
    requires RepositoryInv(r)
    ensures RepositoryInv(DeleteServerStep(r, serverId, nowMs))
  {
    hide ValidTabs;
    var r' := DeleteServerStep(r, serverId, nowMs);
    if r' != r {
      forall w <- r.references
        ensures r'.windows[w] == r.windows[w]
      {
        assert r.references[w] in r.references.Values;
      }
    }
  }

  lemma PerformKeepsInv(r: Repository, op: Operation)
    requires RepositoryInv(r) && SaneOperation(op)
    ensures RepositoryInv(Perform(r, op))
  {
    hide RepositoryInv;
    match op
    case Initialize => RemovalsKeepInv(r, "");
    case LoadAndActivate(w, now, tab) => LoadAndActivateKeepsInv(r, w, now, tab);
    case BindServerTo(w, version, server, now, tab) => BindServerKeepsInv(r, w, version, server, now, tab);
    case UpdateTabs(w, version, tabs, active, now) => UpdateTabsKeepsInv(r, w, version, tabs, active, now);
    case ReserveNewWindow(w, server, thread, now, tab) => ReserveKeepsInv(r, w, server, thread, now, tab);
    case OpenTabForServer(w, server, thread, now, tab) => OpenTabKeepsInv(r, w, server, thread, now, tab);
    case DiscardReservedWindow(w) => RemovalsKeepInv(r, w);
    case Deactivate(w) => RemovalsKeepInv(r, w);
    case CreateServer(server) => AddingServerKeepsInv(r, server);
    case DeleteServer(server, now) => DeleteServerKeepsInv(r, server, now);
  }

  lemma AddingServerKeepsInv(r: Repository, serverId: ServerId)
    requires RepositoryInv(r)
    ensures RepositoryInv(r.(servers := r.servers + {serverId}))
  {
    hide ValidTabs;
  }

  // Over every run: no server has two active windows, references and runtime states agree, and all
  // tabs are valid.
  lemma {:induction false} PerformAllKeepsInv(r: Repository, ops: seq<Operation>)
    requires RepositoryInv(r)
    requires forall op <- ops :: SaneOperation(op)
    ensures RepositoryInv(PerformAll(r, ops))
    decreases |ops|
  {
    hide RepositoryInv;
    if ops != [] {
      PerformKeepsInv(r, ops[0]);
      PerformAllKeepsInv(Perform(r, ops[0]), ops[1..]);
    }
  }

  // ---- Versions -------------------------------------------------------------------------------------

  // An operation leaves a row alone, bumps its version by one with a later timestamp, creates it at
  // version one, or (discarding) removes it.
  lemma VersionsNeverDecrease(r: Repository, op: Operation, window: string)
    requires RepositoryInv(r) && window in r.windows && op != DiscardReservedWindow(window)
    ensures var r' := Perform(r, op);
            && window in r'.windows
            && (r'.windows[window] == r.windows[window]
                || (r'.windows[window].version == r.windows[window].version + 1
                    && r'.windows[window].updatedAtMs > r.windows[window].updatedAtMs))
  {
    hide ValidTabs, TabsError, OpenedTabs, RuntimeInv, OneWindowPerServer;
  }

  lemma {:induction false} VersionsNeverDecreaseInRuns(r: Repository, ops: seq<Operation>, window: string)
    requires RepositoryInv(r) && window in r.windows
    requires forall op <- ops :: SaneOperation(op) && op != DiscardReservedWindow(window)
    ensures window in PerformAll(r, ops).windows
    ensures r.windows[window].version <= PerformAll(r, ops).windows[window].version
    decreases |ops|
  {
    hide RepositoryInv;
    if ops != [] {
      assert SaneOperation(ops[0]) && ops[0] != DiscardReservedWindow(window);
      VersionsNeverDecrease(r, ops[0], window);
      PerformKeepsInv(r, ops[0]);
      VersionsNeverDecreaseInRuns(Perform(r, ops[0]), ops[1..], window);
    }
  }

  // ---- Outcomes ---------------------------------------------------------------------------------------

  // With a clock in range, an active window never gets Corrupt from binding or updating tabs.
  lemma ActiveWindowIsNeverCorrupt(r: Repository, window: string, version: nat, serverId: Option<ServerId>,
                                   tabs: seq<Tab>, activeTabId: string, nowMs: nat, freshTabId: string)
    requires RepositoryInv(r) && window in r.references
    requires nowMs <= MAX_SAFE_INTEGER && ValidText(freshTabId, MAX_TAB_ID_BYTES)
    ensures BindServerStep(r, window, version, serverId, nowMs, freshTabId).1 != Err(Corrupt)
    ensures UpdateTabsStep(r, window, version, tabs, activeTabId, nowMs).1 != Err(Corrupt)
  {
    hide ValidTabs, TabsError, RepositoryInv, OpenedTabs;
    CurrentSays(r, window);
    TabsErrorIffInvalid(tabs, activeTabId);
    ActiveWindowHasCurrent(r, window);
    if serverId.Some? {
      NewRuntimeIsValid(serverId.value, None, freshTabId);
      TabsErrorIffInvalid([Tab(freshTabId, None)], freshTabId);
    }
    InvalidTabsIsNotCorrupt(tabs, activeTabId);
  }

  lemma InvalidTabsIsNotCorrupt(tabs: seq<Tab>, activeTabId: string)
    ensures TabsError(tabs, activeTabId) != Some(Corrupt)
  {
    FirstErrorIsNotCorrupt(tabs, 0);
  }

  lemma {:induction false} FirstErrorIsNotCorrupt(tabs: seq<Tab>, i: nat)
    requires i <= |tabs|
    ensures FirstTabError(tabs, i) != Some(Corrupt)
    decreases |tabs| - i
  {
    if i < |tabs| {
      FirstErrorIsNotCorrupt(tabs, i + 1);
    }
  }

  lemma ActiveWindowHasCurrent(r: Repository, window: string)
    requires RepositoryInv(r) && window in r.references
    ensures window in r.windows && Current(r, window).Ok? && Current(r, window).value.serverId.Some?
  {
    hide ValidTabs, TabsError, RuntimeInv;
    assert RuntimeMatches(r.windows[window], RuntimeOf(r, window));
    CurrentSays(r, window);
  }

  // Updating the tabs of an active window succeeds exactly for the current version and valid tabs,
  // while the counters have room; it then commits once and returns what it stored.
  lemma UpdateTabsSucceedsIff(r: Repository, window: string, version: nat, tabs: seq<Tab>, activeTabId: string, nowMs: nat)
    requires RepositoryInv(r) && window in r.references && nowMs <= MAX_SAFE_INTEGER
    ensures var row := r.windows[window];
            var rt := r.runtime[window];
            var (r', outcome) := UpdateTabsStep(r, window, version, tabs, activeTabId, nowMs);
            var same := rt.tabs == tabs && rt.activeTabId == activeTabId;
            && (outcome.Ok? <==>
                && version == row.version && ValidTabs(tabs, activeTabId)
                && (same || (row.version < MAX_SAFE_INTEGER && row.updatedAtMs < MAX_SAFE_INTEGER)))
            && (outcome.Ok? ==>
                && outcome.value.tabs == tabs && outcome.value.activeTabId == Some(activeTabId)
                && outcome.value.version == (if same then version else version + 1)
                && Current(r', window) == outcome)
            && (outcome.Err? ==> r' == r)
  {
    hide ValidTabs, TabsError;
    CurrentSays(r, window);
    ActiveWindowHasCurrent(r, window);
    TabsErrorIffInvalid(tabs, activeTabId);
  }

  // Binding to another server succeeds exactly when the version matches, the server exists and no
  // other window is active on it, while the counters have room.
  lemma BindServerSucceedsIff(r: Repository, window: string, version: nat, serverId: ServerId, nowMs: nat, freshTabId: string)
    requires RepositoryInv(r) && Current(r, window).Ok? && Current(r, window).value.serverId != Some(serverId)
    requires nowMs <= MAX_SAFE_INTEGER && ValidText(freshTabId, MAX_TAB_ID_BYTES)
    ensures var row := r.windows[window];
            var (r', outcome) := BindServerStep(r, window, version, Some(serverId), nowMs, freshTabId);
            && (outcome.Ok? <==>
                && version == row.version && serverId in r.servers && serverId !in r.references.Values
                && row.version < MAX_SAFE_INTEGER && row.updatedAtMs < MAX_SAFE_INTEGER)
            && (outcome.Ok? ==>
                && outcome.value.serverId == Some(serverId)
                && outcome.value.tabs == [Tab(freshTabId, None)] && outcome.value.activeTabId == Some(freshTabId)
                && outcome.value.version == version + 1
                && Current(r', window) == outcome)
            && (outcome.Err? ==> r' == r)
  {
    hide ValidTabs, TabsError, OneWindowPerServer;
    CurrentSays(r, window);
    NewRuntimeIsValid(serverId, None, freshTabId);
    TabsErrorIffInvalid([Tab(freshTabId, None)], freshTabId);
    if ActiveWindow(r.references, serverId, Some(window)).Some? {
      assert serverId in r.references.Values;
    }
  }

  // A row that is raised gets the next version and the clock's time, or one millisecond more than before
  // when the clock has not moved on; whether it can be raised is decided in this order.
  lemma RaisingSays(row: Row, serverId: Option<ServerId>, nowMs: nat)
    ensures var at := if nowMs > row.updatedAtMs then nowMs else row.updatedAtMs + 1;
            Bump(row, serverId, nowMs) ==
            if nowMs > 9_007_199_254_740_991 then Err(Corrupt)
            else if row.version >= 9_007_199_254_740_991 then Err(VersionConflict)
            else if at > 9_007_199_254_740_991 then Err(Database)
            else Ok(Row(row.version + 1, serverId, at))
  {
  }

  // ---- What each operation does -------------------------------------------------------------------------

  predicate IsAbout(op: Operation, window: string) {
    match op
    case Initialize => true
    case CreateServer(_) => false
    case DeleteServer(_, _) => true
    case _ => op.window == window
  }

  // The row, the reference and the tabs of a window are what they were.
  ghost predicate SameWindow(r: Repository, r': Repository, window: string) {
    && (window in r'.windows <==> window in r.windows) && (window in r.windows ==> r'.windows[window] == r.windows[window])
    && (window in r'.references <==> window in r.references)
    && (window in r.references ==> r'.references[window] == r.references[window])
    && RuntimeOf(r', window) == RuntimeOf(r, window)
  }

  lemma OtherWindowsAreKept(r: Repository, op: Operation, window: string)
    requires !IsAbout(op, window)
    ensures SameWindow(r, Perform(r, op), window)
    ensures !op.CreateServer? ==> Perform(r, op).servers == r.servers
  {
    hide TabsError, OpenedTabs, Attach, Current, Bump, NewRuntime, ValidOptionalText;
  }

  // A start forgets who is active where and all tabs, deactivation does so for one window, and discarding
  // removes the window altogether.
  lemma RemovalsSay(r: Repository, window: string)
    ensures Perform(r, Initialize) == r.(references := map[], runtime := map[])
    ensures var r' := Perform(r, Deactivate(window));
            && r'.windows == r.windows && r'.servers == r.servers
            && window !in r'.references && window !in r'.runtime
            && (forall other :: other != window ==> SameWindow(r, r', other))
    ensures var r' := Perform(r, DiscardReservedWindow(window));
            && r'.servers == r.servers && window !in r'.windows && window !in r'.references && window !in r'.runtime
            && (forall other :: other != window ==> SameWindow(r, r', other))
  {
  }

  // No window is active on the server.
  ghost predicate IsFree(r: Repository, serverId: ServerId) {
    forall w <- r.references :: r.references[w] != serverId
  }

  lemma FreeMeansNoHolder(r: Repository, serverId: ServerId)
    ensures IsFree(r, serverId) <==> ActiveWindow(r.references, serverId, None).None?
    ensures IsFree(r, serverId) <==> serverId !in r.references.Values
  {
  }

  // Reserving a window for a server succeeds exactly if the thread is valid, the server exists and is free,
  // and window and clock are; the window then has one tab with the thread. Any error changes nothing.
  lemma ReserveSucceedsIff(r: Repository, window: string, serverId: ServerId, threadId: Option<string>, nowMs: nat, freshTabId: string)
    requires ValidText(freshTabId, MAX_TAB_ID_BYTES)
    ensures var (r', outcome) := ReserveNewWindowStep(r, window, serverId, threadId, nowMs, freshTabId);
            if !ValidOptionalText(threadId, MAX_THREAD_ID_BYTES) then r' == r && outcome == Err(InvalidThreadId)
            else if serverId !in r.servers then r' == r && outcome == Err(ServerNotFound)
            else if !IsFree(r, serverId) then
              r' == r && outcome.Err? && outcome.error.ServerAlreadyOpen?
              && outcome.error.windowId in r.references && r.references[outcome.error.windowId] == serverId
            else if nowMs > MAX_SAFE_INTEGER then r' == r && outcome == Err(Corrupt)
            else if window in r.windows then r' == r && outcome == Err(Database)
            else
              && outcome == Ok(WindowState(window, 1, Some(serverId), [Tab(freshTabId, threadId)], Some(freshTabId), nowMs))
              && Current(r', window) == outcome
              && window in r'.references && r'.references[window] == serverId
  {
    FreeMeansNoHolder(r, serverId);
    if ValidOptionalText(threadId, MAX_THREAD_ID_BYTES) {
      NewRuntimeIsValid(serverId, threadId, freshTabId);
      TabsErrorIffInvalid([Tab(freshTabId, threadId)], freshTabId);
    }
    hide IsFree, ValidTabs, TabsError, ValidOptionalText, ValidText;
  }

  // When the window that is active on a server is deactivated or discarded, or leaves the server, the
  // server is free: another window can be reserved for it.
  lemma LeavingFreesTheServer(r: Repository, window: string, other: string, threadId: Option<string>, nowMs: nat, freshTabId: string)
    requires RepositoryInv(r) && window in r.references && other !in r.windows && nowMs <= MAX_SAFE_INTEGER
    requires ValidText(freshTabId, MAX_TAB_ID_BYTES) && ValidOptionalText(threadId, MAX_THREAD_ID_BYTES)
    ensures var server := r.references[window];
            && ReserveNewWindowStep(r, other, server, threadId, nowMs, freshTabId).1 == Err(ServerAlreadyOpen(window))
            && ReserveNewWindowStep(Perform(r, Deactivate(window)), other, server, threadId, nowMs, freshTabId).1.Ok?
            && ReserveNewWindowStep(Perform(r, DiscardReservedWindow(window)), other, server, threadId, nowMs, freshTabId).1.Ok?
  {
    var server := r.references[window];
    var deactivated, discarded := Perform(r, Deactivate(window)), Perform(r, DiscardReservedWindow(window));
    assert server in r.servers && !IsFree(r, server);
    assert IsFree(deactivated, server) && IsFree(discarded, server);
    ReserveSucceedsIff(r, other, server, threadId, nowMs, freshTabId);
    ReserveSucceedsIff(deactivated, other, server, threadId, nowMs, freshTabId);
    ReserveSucceedsIff(discarded, other, server, threadId, nowMs, freshTabId);
    hide ReserveNewWindowStep, IsFree, RowsInv, RuntimeInv, ValidText, ValidOptionalText, Current;
  }

  // Loading a window for the first time makes it, at version one and on no server.
  lemma LoadingMakesTheWindow(r: Repository, window: string, nowMs: nat, freshTabId: string)
    requires RepositoryInv(r) && window !in r.windows
    ensures var (r', outcome) := LoadAndActivateStep(r, window, nowMs, freshTabId);
            if nowMs > MAX_SAFE_INTEGER then r' == r && outcome == Err(Database)
            else outcome == Ok(WindowState(window, 1, None, [], None, nowMs))
                 && r' == r.(windows := r.windows[window := Row(1, None, nowMs)])
  {
    hide RowsInv, RuntimeInv, OneWindowPerServer;
    if nowMs <= MAX_SAFE_INTEGER {
      assert window !in r.references && window !in r.runtime;
      assert r.references - {window} == r.references && r.runtime - {window} == r.runtime;
    }
  }

  // A known window is active on its server again, with the tabs it still has there or a blank one, unless
  // another window is by now; its row does not change.
  lemma LoadingActivatesTheWindow(r: Repository, window: string, nowMs: nat, freshTabId: string)
    requires RepositoryInv(r) && window in r.windows && ValidText(freshTabId, MAX_TAB_ID_BYTES)
    ensures var (r', outcome) := LoadAndActivateStep(r, window, nowMs, freshTabId);
            var row := r.windows[window];
            if row.serverId.None? then
              outcome == Ok(WindowState(window, row.version, None, [], None, row.updatedAtMs)) && r' == r
            else if exists w <- r.references :: w != window && r.references[w] == row.serverId.value then
              r' == r && outcome.Err? && outcome.error.ServerAlreadyOpen? && outcome.error.windowId != window
              && outcome.error.windowId in r.references && r.references[outcome.error.windowId] == row.serverId.value
            else
              && r'.windows == r.windows && r'.references == r.references[window := row.serverId.value]
              && (var kept := window in r.references;
                  outcome == Ok(WindowState(window, row.version, row.serverId,
                                            if kept then r.runtime[window].tabs else [Tab(freshTabId, None)],
                                            Some(if kept then r.runtime[window].activeTabId else freshTabId), row.updatedAtMs)))
              && Current(r', window) == outcome
  {
    var row := r.windows[window];
    hide ValidTabs, TabsError, OneWindowPerServer;
    if row.serverId.None? {
      assert r.references - {window} == r.references && r.runtime - {window} == r.runtime && r.windows[window := row] == r.windows;
    } else {
      NewRuntimeIsValid(row.serverId.value, None, freshTabId);
      TabsErrorIffInvalid([Tab(freshTabId, None)], freshTabId);
      if window in r.runtime {
        TabsErrorIffInvalid(r.runtime[window].tabs, r.runtime[window].activeTabId);
      }
      assert r.windows[window := row] == r.windows;
    }
  }

  // Binding a window to the server it is on changes nothing; taking it off succeeds exactly for the current
  // version while the counters have room, and frees the server.
  lemma UnbindingSucceedsIff(r: Repository, window: string, version: nat, nowMs: nat, freshTabId: string)
    requires RepositoryInv(r) && window in r.references && nowMs <= MAX_SAFE_INTEGER
    ensures var (r', outcome) := BindServerStep(r, window, version, None, nowMs, freshTabId);
            var row := r.windows[window];
            && (outcome.Ok? <==> version == row.version && row.version < MAX_SAFE_INTEGER && row.updatedAtMs < MAX_SAFE_INTEGER)
            && (outcome.Err? ==> r' == r)
            && (outcome.Ok? ==>
                  && outcome.value == WindowState(window, version + 1, None, [], None, outcome.value.updatedAtMs)
                  && Current(r', window) == outcome && IsFree(r', r.references[window]))
    ensures BindServerStep(r, window, r.windows[window].version, Some(r.references[window]), nowMs, freshTabId)
            == (r, Current(r, window))
  {
    hide ValidTabs, TabsError;
    CurrentSays(r, window);
    ActiveWindowHasCurrent(r, window);
    assert r.references[window := r.references[window]] == r.references;
  }

  // Why binding an active window to another server fails, in the order of the checks.
  lemma BindingFailsWith(r: Repository, window: string, version: nat, serverId: ServerId, nowMs: nat, freshTabId: string)
    requires RepositoryInv(r) && Current(r, window).Ok? && Current(r, window).value.serverId != Some(serverId)
    requires BindServerStep(r, window, version, Some(serverId), nowMs, freshTabId).1.Err? && nowMs <= MAX_SAFE_INTEGER
    requires ValidText(freshTabId, MAX_TAB_ID_BYTES)
    ensures var error := BindServerStep(r, window, version, Some(serverId), nowMs, freshTabId).1.error;
            var row := r.windows[window];
            if version == 0 || version > MAX_SAFE_INTEGER then error == InvalidVersion
            else if version != row.version then error == VersionConflict
            else if serverId !in r.servers then error == ServerNotFound
            else if !IsFree(r, serverId) then
              error.ServerAlreadyOpen? && error.windowId in r.references && r.references[error.windowId] == serverId
            else error == (if row.version == MAX_SAFE_INTEGER then VersionConflict else Database)
  {
    hide ValidTabs, TabsError, OneWindowPerServer;
    CurrentSays(r, window);
    BindServerSucceedsIff(r, window, version, serverId, nowMs, freshTabId);
    ReferenceOfAnother(r, window, serverId);
  }

  lemma ReferenceOfAnother(r: Repository, window: string, serverId: ServerId)
    requires RepositoryInv(r) && Current(r, window).Ok? && Current(r, window).value.serverId != Some(serverId)
    ensures window in r.references ==> r.references[window] != serverId
    ensures IsFree(r, serverId) <==> ActiveWindow(r.references, serverId, Some(window)).None?
  {
    hide ValidTabs, TabsError, OneWindowPerServer;
    CurrentSays(r, window);
  }

  // Why storing the tabs of an active window fails.
  lemma UpdatingFailsWith(r: Repository, window: string, version: nat, tabs: seq<Tab>, activeTabId: string, nowMs: nat)
    requires RepositoryInv(r) && window in r.references && nowMs <= MAX_SAFE_INTEGER
    requires UpdateTabsStep(r, window, version, tabs, activeTabId, nowMs).1.Err?
    ensures var error := UpdateTabsStep(r, window, version, tabs, activeTabId, nowMs).1.error;
            var row := r.windows[window];
            if version == 0 || version > MAX_SAFE_INTEGER then error == InvalidVersion
            else if !ValidTabs(tabs, activeTabId) then TabsError(tabs, activeTabId) == Some(error)
            else if version != row.version then error == VersionConflict
            else error == (if row.version == MAX_SAFE_INTEGER then VersionConflict else Database)
  {
    CurrentSays(r, window);
    ActiveWindowHasCurrent(r, window);
    TabsErrorIffInvalid(tabs, activeTabId);
    hide ValidTabs, TabsError, Current, RepositoryInv;
  }

  // Opening a thread in the window that is active on the server: the tab that shows it is activated, or a
  // tab is appended, and nothing changes where that is so already. It fails exactly for an invalid thread,
  // another server, and when the new tabs are invalid or the counters have no room.
  lemma OpenTabSucceedsIff(r: Repository, window: string, serverId: ServerId, threadId: Option<string>, nowMs: nat, freshTabId: string)
    requires RepositoryInv(r) && window in r.references && nowMs <= MAX_SAFE_INTEGER
    ensures var (r', outcome) := OpenTabStep(r, window, serverId, threadId, nowMs, freshTabId);
            var row, rt := r.windows[window], r.runtime[window];
            var decided := OpenedTabs(rt.tabs, threadId, freshTabId);
            var same := decided == TabsResult(rt.tabs, rt.activeTabId);
            && (outcome.Ok? <==>
                  && ValidOptionalText(threadId, MAX_THREAD_ID_BYTES) && r.references[window] == serverId
                  && ValidTabs(decided.tabs, decided.activeTabId)
                  && (same || (row.version < MAX_SAFE_INTEGER && row.updatedAtMs < MAX_SAFE_INTEGER)))
            && (outcome.Ok? ==>
                  && outcome.value.tabs == decided.tabs && outcome.value.activeTabId == Some(decided.activeTabId)
                  && outcome.value.version == (if same then row.version else row.version + 1)
                  && Current(r', window) == outcome)
            && (outcome.Err? || same ==> r' == r)
  {
    CurrentSays(r, window);
    ActiveWindowHasCurrent(r, window);
    TabsErrorIffInvalid(OpenedTabs(r.runtime[window].tabs, threadId, freshTabId).tabs,
                        OpenedTabs(r.runtime[window].tabs, threadId, freshTabId).activeTabId);
    hide ValidTabs, TabsError, OpenedTabs, ValidOptionalText;
  }

  // Why it fails.
  lemma OpeningFailsWith(r: Repository, window: string, serverId: ServerId, threadId: Option<string>, nowMs: nat, freshTabId: string)
    requires RepositoryInv(r) && window in r.references && nowMs <= MAX_SAFE_INTEGER
    requires OpenTabStep(r, window, serverId, threadId, nowMs, freshTabId).1.Err?
    ensures var error := OpenTabStep(r, window, serverId, threadId, nowMs, freshTabId).1.error;
            var row, decided := r.windows[window], OpenedTabs(r.runtime[window].tabs, threadId, freshTabId);
            if !ValidOptionalText(threadId, MAX_THREAD_ID_BYTES) then error == InvalidThreadId
            else if r.references[window] != serverId then error == Corrupt
            else if !ValidTabs(decided.tabs, decided.activeTabId) then TabsError(decided.tabs, decided.activeTabId) == Some(error)
            else error == (if row.version == MAX_SAFE_INTEGER then VersionConflict else Database)
  {
    CurrentSays(r, window);
    ActiveWindowHasCurrent(r, window);
    TabsErrorIffInvalid(OpenedTabs(r.runtime[window].tabs, threadId, freshTabId).tabs,
                        OpenedTabs(r.runtime[window].tabs, threadId, freshTabId).activeTabId);
    hide ValidTabs, TabsError, OpenedTabs, ValidOptionalText;
  }

  // A server is deleted exactly if no window is active on it and every row that names it can be raised;
  // these rows then name none.
  lemma DeletionSucceedsIff(r: Repository, serverId: ServerId, nowMs: nat)
    requires RepositoryInv(r) && serverId in r.servers && nowMs <= MAX_SAFE_INTEGER
    ensures var r' := Perform(r, DeleteServer(serverId, nowMs));
            && (serverId !in r'.servers <==>
                  IsFree(r, serverId)
                  && forall w <- r.windows :: r.windows[w].serverId == Some(serverId) ==>
                       r.windows[w].version < MAX_SAFE_INTEGER && r.windows[w].updatedAtMs < MAX_SAFE_INTEGER)
            && (serverId in r'.servers ==> r' == r)
            && (serverId !in r'.servers ==>
                  && r'.servers == r.servers - {serverId} && r'.references == r.references && r'.runtime == r.runtime
                  && r'.windows.Keys == r.windows.Keys
                  && (forall w <- r.windows ::
                        if r.windows[w].serverId == Some(serverId)
                        then r'.windows[w].serverId == None && r'.windows[w].version == r.windows[w].version + 1
                        else r'.windows[w] == r.windows[w]))
  {
    hide ValidTabs, RuntimeInv, OneWindowPerServer, ReferencesInv;
    FreeMeansNoHolder(r, serverId);
  }

  // ---- The repository object ----------------------------------------------------------------------------

  // The tables and the runtime map updated in place; every method is one transaction under the lock
  // of the runtime map and refines the step of the same name.
  class WindowStateRepository {
    var windows: map<string, Row>
    var references: map<string, ServerId>
    var runtimeStates: map<string, Runtime>
    var servers: set<ServerId>

    ghost function View(): Repository
      reads this
    {
      Repository(windows, references, runtimeStates, servers)
    }

    ghost predicate Valid()
      reads this
    {
      RepositoryInv(View())
    }

    constructor (servers: set<ServerId>)
      ensures Valid() && View() == Repository(map[], map[], map[], servers)
    {
      windows, references, runtimeStates := map[], map[], map[];
      this.servers := servers;
    }

    method Initialize()
      requires Valid()
      modifies this
      ensures Valid() && View() == old(InitializeStep(View()))
    {
      RemovalsKeepInv(View(), "");
      references := map[];
      runtimeStates := map[];
    }

    method LoadCurrent(window: string) returns (current: Outcome)
      ensures current == Current(View(), window)
    {
      if window !in windows {
        return Err(WindowNotFound);
      }
      var row := windows[window];
      var runtime := if window in runtimeStates then Some(runtimeStates[window]) else None;
      current := AttachRuntimeState(window, row, runtime);
    }

    method AttachRuntimeState(window: string, row: Row, runtime: Option<Runtime>) returns (state: Outcome)
      ensures state == Attach(window, row, runtime)
    {
      match (row.serverId, runtime)
      case (None, None) =>
        state := Ok(WindowState(window, row.version, None, [], None, row.updatedAtMs));
      case (Some(serverId), Some(rt)) =>
        if rt.serverId != serverId {
          return Err(Corrupt);
        }
        var invalid := ValidateTabs(rt.tabs, rt.activeTabId);
        if invalid.Some? {
          return Err(Corrupt);
        }
        state := Ok(WindowState(window, row.version, row.serverId, rt.tabs, Some(rt.activeTabId), row.updatedAtMs));
      case _ =>
        state := Err(Corrupt);
    }

    method FindActiveWindow(serverId: ServerId, excluded: Option<string>) returns (holder: Option<string>)
      requires Valid()
      ensures holder == ActiveWindow(references, serverId, excluded)
    {
      holder := None;
      if w :| w in references && references[w] == serverId && excluded != Some(w) {
        holder := Some(w);
      }
    }

    method SetActiveReference(window: string, serverId: Option<ServerId>)
      modifies `references
      ensures references == WithReference(old(references), window, serverId)
    {
      if serverId.Some? {
        references := references[window := serverId.value];
      } else {
        references := references - {window};
      }
    }

    method ReplaceRuntimeState(window: string, state: Option<Runtime>)
      modifies `runtimeStates
      ensures runtimeStates == WithRuntime(old(runtimeStates), window, state)
    {
      if state.Some? {
        runtimeStates := runtimeStates[window := state.value];
      } else {
        runtimeStates := runtimeStates - {window};
      }
    }

    method StoredOrNewRuntime(window: string, row: Row, freshTabId: string) returns (runtime: Option<Runtime>)
      ensures runtime == RuntimeAtLoad(View(), window, row, freshTabId)
    {
      if row.serverId.None? {
        return None;
      }
      runtime := if window in runtimeStates && runtimeStates[window].serverId == row.serverId.value
                 then Some(runtimeStates[window])
                 else Some(NewRuntime(row.serverId.value, None, freshTabId));
    }

    method LoadAndActivate(window: string, nowMs: nat, freshTabId: string) returns (outcome: Outcome)
      requires Valid() && ValidText(freshTabId, MAX_TAB_ID_BYTES)
      modifies this
      ensures Valid() && (View(), outcome) == old(LoadAndActivateStep(View(), window, nowMs, freshTabId))
    {
      LoadAndActivateKeepsInv(View(), window, nowMs, freshTabId);
      hide RepositoryInv, Attach, RuntimeAtLoad;
      var row := Row(1, None, nowMs);
      if window in windows {
        row := windows[window];
      } else if nowMs > MAX_SAFE_INTEGER {
        return Err(Database);
      }
      if row.serverId.Some? {
        var holder := FindActiveWindow(row.serverId.value, Some(window));
        if holder.Some? {
          return Err(ServerAlreadyOpen(holder.value));
        }
      }
      var runtime := StoredOrNewRuntime(window, row, freshTabId);
      windows := windows[window := row];
      SetActiveReference(window, row.serverId);
      ReplaceRuntimeState(window, runtime);
      outcome := AttachRuntimeState(window, row, runtime);
    }

    method BindServer(window: string, expectedVersion: nat, serverId: Option<ServerId>, nowMs: nat, freshTabId: string)
      returns (outcome: Outcome)
      requires Valid() && ValidText(freshTabId, MAX_TAB_ID_BYTES)
      modifies this
      ensures Valid() && (View(), outcome) == old(BindServerStep(View(), window, expectedVersion, serverId, nowMs, freshTabId))
    {
      BindServerKeepsInv(View(), window, expectedVersion, serverId, nowMs, freshTabId);
      hide RepositoryInv, Attach;
      if expectedVersion == 0 || expectedVersion > MAX_SAFE_INTEGER {
        return Err(InvalidVersion);
      }
      var current := LoadCurrent(window);
      if current.Err? {
        return current;
      }
      if current.value.version != expectedVersion {
        return Err(VersionConflict);
      }
      if current.value.serverId == serverId {
        SetActiveReference(window, serverId);
        return current;
      }
      if serverId.Some? {
        if serverId.value !in servers {
          return Err(ServerNotFound);
        }
        var holder := FindActiveWindow(serverId.value, Some(window));
        if holder.Some? {
          return Err(ServerAlreadyOpen(holder.value));
        }
      }
      var bumped := Bump(windows[window], serverId, nowMs);
      if bumped.Err? {
        return Err(bumped.error);
      }
      var runtime := if serverId.Some? then Some(NewRuntime(serverId.value, None, freshTabId)) else None;
      windows := windows[window := bumped.value];
      SetActiveReference(window, serverId);
      ReplaceRuntimeState(window, runtime);
      outcome := AttachRuntimeState(window, bumped.value, runtime);
    }

    method StoreTabs(window: string, serverId: ServerId, tabs: seq<Tab>, activeTabId: string, nowMs: nat)
      returns (outcome: Outcome)
      requires window in windows
      modifies this
      ensures (View(), outcome) == old(CommitTabs(View(), window, serverId, tabs, activeTabId, nowMs))
    {
      hide Attach;
      var bumped := Bump(windows[window], windows[window].serverId, nowMs);
      if bumped.Err? {
        return Err(bumped.error);
      }
      windows := windows[window := bumped.value];
      var runtime := Runtime(serverId, tabs, activeTabId);
      runtimeStates := runtimeStates[window := runtime];
      outcome := AttachRuntimeState(window, bumped.value, Some(runtime));
    }

    method UpdateTabs(window: string, expectedVersion: nat, tabs: seq<Tab>, activeTabId: string, nowMs: nat)
      returns (outcome: Outcome)
      requires Valid()
      modifies this
      ensures Valid() && (View(), outcome) == old(UpdateTabsStep(View(), window, expectedVersion, tabs, activeTabId, nowMs))
    {
      UpdateTabsKeepsInv(View(), window, expectedVersion, tabs, activeTabId, nowMs);
      hide RepositoryInv, CommitTabs, TabsError;
      if expectedVersion == 0 || expectedVersion > MAX_SAFE_INTEGER {
        return Err(InvalidVersion);
      }
      var invalid := ValidateTabs(tabs, activeTabId);
      if invalid.Some? {
        return Err(invalid.value);
      }
      var current := LoadCurrent(window);
      if current.Err? {
        return current;
      }
      if current.value.version != expectedVersion {
        return Err(VersionConflict);
      }
      if current.value.serverId.None? {
        return Err(TabsWithoutServer);
      }
      if current.value.tabs == tabs && current.value.activeTabId == Some(activeTabId) {
        return current;
      }
      outcome := StoreTabs(window, current.value.serverId.value, tabs, activeTabId, nowMs);
    }

    method ReserveNewWindow(window: string, serverId: ServerId, threadId: Option<string>, nowMs: nat, freshTabId: string)
      returns (outcome: Outcome)
      requires Valid() && ValidText(freshTabId, MAX_TAB_ID_BYTES)
      modifies this
      ensures Valid() && (View(), outcome) == old(ReserveNewWindowStep(View(), window, serverId, threadId, nowMs, freshTabId))
    {
      ReserveKeepsInv(View(), window, serverId, threadId, nowMs, freshTabId);
      hide RepositoryInv, Attach;
      if !ValidOptionalText(threadId, MAX_THREAD_ID_BYTES) {
        return Err(InvalidThreadId);
      }
      if serverId !in servers {
        return Err(ServerNotFound);
      }
      var holder := FindActiveWindow(serverId, None);
      if holder.Some? {
        return Err(ServerAlreadyOpen(holder.value));
      }
      if nowMs > MAX_SAFE_INTEGER {
        return Err(Corrupt);
      }
      if window in windows {
        return Err(Database);
      }
      var row := Row(1, Some(serverId), nowMs);
      var runtime := NewRuntime(serverId, threadId, freshTabId);
      windows := windows[window := row];
      references := references[window := serverId];
      runtimeStates := runtimeStates[window := runtime];
      outcome := AttachRuntimeState(window, row, Some(runtime));
    }

    method OpenTabForServer(window: string, serverId: ServerId, threadId: Option<string>, nowMs: nat, freshTabId: string)
      returns (outcome: Outcome)
      requires Valid()
      modifies this
      ensures Valid() && (View(), outcome) == old(OpenTabStep(View(), window, serverId, threadId, nowMs, freshTabId))
    {
      OpenTabKeepsInv(View(), window, serverId, threadId, nowMs, freshTabId);
      hide RepositoryInv, CommitTabs, TabsError;
      if !ValidOptionalText(threadId, MAX_THREAD_ID_BYTES) {
        return Err(InvalidThreadId);
      }
      var current := LoadCurrent(window);
      if current.Err? {
        return current;
      }
      if current.value.serverId != Some(serverId) {
        return Err(Corrupt);
      }
      var decided := OpenedTabs(current.value.tabs, threadId, freshTabId);
      var invalid := ValidateTabs(decided.tabs, decided.activeTabId);
      if invalid.Some? {
        return Err(invalid.value);
      }
      if current.value.activeTabId == Some(decided.activeTabId) && current.value.tabs == decided.tabs {
        return current;
      }
      outcome := StoreTabs(window, serverId, decided.tabs, decided.activeTabId, nowMs);
    }

    method DiscardReservedWindow(window: string)
      requires Valid()
      modifies this
      ensures Valid() && View() == old(DiscardStep(View(), window))
    {
      RemovalsKeepInv(View(), window);
      references := references - {window};
      windows := windows - {window};
      runtimeStates := runtimeStates - {window};
    }

    method Deactivate(window: string)
      requires Valid()
      modifies this
      ensures Valid() && View() == old(DeactivateStep(View(), window))
    {
      RemovalsKeepInv(View(), window);
      references := references - {window};
      runtimeStates := runtimeStates - {window};
    }
  }
}
