/**
  The lifecycle of the connection to a configured server: generations, the chain of closes every
  replacement waits for, automatic reconnection and the allocation of connection ids. One step is
  one synchronous segment. The session factory is assumed not to call back into the controller
  before it returns. Source: src/app/useConfiguredServerConnection.ts.
 */
module Connection {
  import opened Prelude

  const MAX_CONNECTION_ID_ALLOCATION_ATTEMPTS: nat := 16
  const MAX_RETAINED_CONNECTION_IDS: nat := 1024
  const SHORT_LOCAL_PROCESS_EXIT_MS: int := 10000
  const MAX_SHORT_LOCAL_PROCESS_EXITS: nat := 3
  const RECONNECT_DELAYS_MS: seq<int> := [1000, 2000, 5000, 10000, 20000, 30000]

  type ServerId = string
  // Sessions are numbered in the order of their creation.
  type SessionId = nat
  // What the random source draws from.
  type Jitter = r: real | 0.0 <= r < 1.0 witness 0.0
  // The ids the id factory would return if asked as often as it may be.
  type Draws = s: seq<string> | |s| == MAX_CONNECTION_ID_ALLOCATION_ATTEMPTS
    witness seq(MAX_CONNECTION_ID_ALLOCATION_ATTEMPTS, _ => "")

  datatype ErrorCode = TransportClosed | TransportFailure | TransportConnectFailed | OtherCode

  datatype SessionPhase = Idle | Connecting | Initializing | Ready | Closing | Closed | Failed

  // What a session reports; `exited` when a local process ended.
  datatype Report = Report(phase: SessionPhase, errorCode: Option<ErrorCode>, exited: bool)

  datatype View = DisconnectedView | ConnectingView | InitializingView | ReadyView | ErrorView

  datatype ReconnectView = ReconnectView(attempt: nat, nextAttemptAt: Option<int>)

  // The published snapshot, with the session its clients and its event store belong to.
  datatype Shown = Shown(server: Option<ServerId>, view: View, reconnect: Option<ReconnectView>,
                         client: Option<SessionId>, events: Option<SessionId>)

  // An attempt whose session exists, with the target its closures captured; `ended` once the session
  // reported an error or its start rejected.
  datatype Attempt = Attempt(generation: nat, session: SessionId, server: ServerId, ended: bool)

  datatype Timer = Timer(generation: nat, server: ServerId, dueAt: int)

  // A call suspended until the close with index `ticket` settles.
  datatype Waiting = Replacement(server: ServerId, ticket: nat) | Disconnection(ticket: nat)

  datatype Controller = Controller(
    generation: nat, target: Option<ServerId>, active: Option<Attempt>,
    closes: seq<Option<SessionId>>,   // every link of the close barrier, oldest first
    settled: nat,                     // how many links have settled
    closed: set<SessionId>,           // sessions whose close fulfilled
    closeFailed: bool, disposed: bool,
    timer: Option<Timer>, reconnectAttempt: nat, reconnectStopped: bool, hasReachedReady: bool,
    attemptStartedAt: Option<int>, shortExits: nat,
    connectionIds: seq<string>,       // the retained ids
    issued: seq<string>,              // all ids ever issued
    created: nat,                     // how many sessions were created
    waiting: map<nat, Waiting>,       // by the generation of the suspended call
    shown: Shown)

  const InitialController := Controller(0, None, None, [], 0, {}, false, false, None, 0, false, false, None, 0,
                                        [], [], 0, map[], Shown(None, DisconnectedView, None, None, None))

  // ---- Connection ids -----------------------------------------------------------------------------

  predicate IsIdCharacter(c: char) {
    'a' <= c <= 'z' || '0' <= c <= '9'
  }

  predicate IsConnectionId(id: string) {
    && 1 <= |id| <= 64
    && IsIdCharacter(id[0]) && IsIdCharacter(id[|id| - 1])
    && (forall c <- id :: IsIdCharacter(c) || c == '-')
  }

  predicate Usable(id: string, retained: seq<string>) {
    IsConnectionId(id) && id !in retained
  }

  function FirstUsable(draws: seq<string>, retained: seq<string>): (r: Option<string>)
    ensures r.None? <==> forall id <- draws :: !Usable(id, retained)
    ensures r.Some? ==> Usable(r.value, retained) && r.value in draws
  {
    if draws == [] then None
    else if Usable(draws[0], retained) then Some(draws[0])
    else FirstUsable(draws[1..], retained)
  }

  function Retain(retained: seq<string>, id: string): seq<string> {
    var all := retained + [id];
    if |all| > MAX_RETAINED_CONNECTION_IDS then all[1..] else all
  }

  // ---- Steps --------------------------------------------------------------------------------------

  function ActiveSession(s: Controller): Option<SessionId> {
    if s.active.Some? then Some(s.active.value.session) else None
  }

  function Show(s: Controller, server: Option<ServerId>, view: View, reconnect: Option<ReconnectView>): Controller {
    if s.disposed then s
    else s.(shown := Shown(server, view, reconnect,
                           if view.ReadyView? then ActiveSession(s) else None, ActiveSession(s)))
  }

  predicate IsCurrent(s: Controller, session: SessionId) {
    && !s.disposed && s.active.Some?
    && s.active.value.session == session && s.active.value.generation == s.generation
  }

  function ResumeReconnect(s: Controller, targetChanged: bool): Controller {
    s.(reconnectStopped := false, timer := None, reconnectAttempt := 0, shortExits := 0, attemptStartedAt := None,
       hasReachedReady := s.hasReachedReady && !targetChanged)
  }

  // The part of a replacement that runs before it waits for the close of the previous session.
  function Replace(s: Controller, server: ServerId, automatic: bool): Controller {
    if s.disposed then s
    else
      var detached := s.(generation := s.generation + 1, target := Some(server), active := None);
      Show(detached, Some(server), ConnectingView,
           if automatic then Some(ReconnectView(s.reconnectAttempt, None)) else None)
      .(closes := s.closes + [ActiveSession(s)],
        waiting := s.waiting[s.generation + 1 := Replacement(server, |s.closes|)])
  }

  function ConnectStep(s: Controller, server: ServerId): Controller {
    Replace(ResumeReconnect(s, s.target != Some(server)), server, false)
  }

  function RetryStep(s: Controller): Controller {
    if s.target.None? || s.disposed then s else Replace(ResumeReconnect(s, false), s.target.value, false)
  }

  function StopReconnectStep(s: Controller): Controller {
    Show(s.(reconnectStopped := true, timer := None), s.shown.server, s.shown.view, None)
  }

  function DisconnectStep(s: Controller): Controller {
    if s.disposed then s
    else
      var detached := s.(generation := s.generation + 1, reconnectStopped := true, timer := None,
                         reconnectAttempt := 0, attemptStartedAt := None, active := None);
      Show(detached, s.target, DisconnectedView, None)
      .(closes := s.closes + [ActiveSession(s)],
        waiting := s.waiting[s.generation + 1 := Disconnection(|s.closes|)])
  }

  function DisposeStep(s: Controller): Controller {
    if s.disposed then s
    else s.(disposed := true, generation := s.generation + 1, timer := None, active := None,
            closes := s.closes + [ActiveSession(s)])
  }

  // The next link of the close barrier settles; its session's close fulfils or rejects.
  function CloseSettlesStep(s: Controller, fulfilled: bool): Controller {
    if s.settled >= |s.closes| then s
    else
      var link := s.closes[s.settled];
      s.(settled := s.settled + 1,
         closed := if link.Some? && fulfilled then s.closed + {link.value} else s.closed,
         closeFailed := s.closeFailed || (link.Some? && !fulfilled))
  }

  // What follows the wait in a replacement; `made` unless the session factory throws.
  function CreateSession(s: Controller, server: ServerId, draws: Draws, made: bool, now: int): Controller {
    var id := FirstUsable(draws, s.connectionIds);
    if id.None? then Show(s, Some(server), ErrorView, None)
    else
      var named := s.(connectionIds := Retain(s.connectionIds, id.value), issued := s.issued + [id.value]);
      if !made then Show(named.(active := None), Some(server), ErrorView, None)
      else named.(active := Some(Attempt(s.generation, s.created, server, false)), created := s.created + 1,
                  attemptStartedAt := Some(now))
  }

  predicate CanResume(s: Controller, generation: nat) {
    generation in s.waiting && s.waiting[generation].ticket < s.settled
  }

  function ResumeStep(s: Controller, generation: nat, draws: Draws, made: bool, now: int): Controller {
    if !CanResume(s, generation) then s
    else
      var resumed := s.(waiting := s.waiting - {generation});
      if s.disposed || generation != s.generation then resumed
      else match s.waiting[generation]
        case Disconnection(_) => if s.closeFailed then Show(resumed, s.target, ErrorView, None) else resumed
        case Replacement(server, _) =>
          if s.closeFailed then Show(resumed, Some(server), ErrorView, None)
          else CreateSession(resumed, server, draws, made, now)
  }

  function Delay(attempt: nat, jitter: Jitter): int
    requires attempt > 0
  {
    var base := RECONNECT_DELAYS_MS[Min(attempt - 1, |RECONNECT_DELAYS_MS| - 1)];
    (base as real * (0.9 + jitter * 0.2) + 0.5).Floor
  }

  function ScheduleStep(s: Controller, server: ServerId, view: View, now: int, jitter: Jitter): Controller {
    var attempt := s.reconnectAttempt + 1;
    var dueAt := now + Delay(attempt, jitter);
    Show(s.(reconnectAttempt := attempt), Some(server), view, Some(ReconnectView(attempt, Some(dueAt))))
    .(timer := Some(Timer(s.generation, server, dueAt)))
  }

  predicate IsRetryable(code: Option<ErrorCode>) {
    code.Some? && !code.value.OtherCode?
  }

  function AttemptError(s: Controller, server: Option<ServerId>, view: View, code: Option<ErrorCode>,
                        now: int, jitter: Jitter): Controller
  {
    if s.shown.view.ErrorView? && s.shown.reconnect.Some? then s
    else if server.Some? && s.hasReachedReady && !s.reconnectStopped && IsRetryable(code)
    then ScheduleStep(s, server.value, view, now, jitter)
    else Show(s, server, view, None)
  }

  function RecordExit(s: Controller, exited: bool, now: int): Controller {
    if !exited then s.(shortExits := 0, attemptStartedAt := None)
    else s.(attemptStartedAt := None,
            shortExits := if s.attemptStartedAt.Some? && now - s.attemptStartedAt.value <= SHORT_LOCAL_PROCESS_EXIT_MS
                          then s.shortExits + 1 else 0)
  }

  function ViewOf(report: Report): View {
    if report.exited then ErrorView
    else match report.phase
      case Connecting => ConnectingView
      case Initializing => InitializingView
      case Ready => ReadyView
      case Failed => ErrorView
      case _ => DisconnectedView
  }

  // The model's own record that the current attempt is over.
  function Ended(s: Controller): Controller
    requires s.active.Some?
  {
    s.(active := Some(s.active.value.(ended := true)))
  }

  function ReportStep(s: Controller, session: SessionId, report: Report, now: int, jitter: Jitter): Controller {
    if !IsCurrent(s, session) then s
    else match report.phase
      case Ready =>
        Show(s.(hasReachedReady := true, reconnectAttempt := 0, reconnectStopped := false, timer := None),
             s.target, ViewOf(report), None)
      case Failed =>
        var recorded := RecordExit(Ended(s), report.exited, now);
        if report.exited && recorded.shortExits >= MAX_SHORT_LOCAL_PROCESS_EXITS
        then Show(recorded.(reconnectStopped := true, timer := None), s.target, ErrorView, None)
        else AttemptError(recorded, s.target, ViewOf(report), report.errorCode, now, jitter)
      case _ => Show(s, s.target, ViewOf(report), s.shown.reconnect)
  }

  // `start()` of the session's attempt rejects.
  function StartRejectedStep(s: Controller, session: SessionId, code: Option<ErrorCode>, now: int, jitter: Jitter): Controller {
    if !IsCurrent(s, session) then s
    else if s.shown.view.ErrorView? then Ended(s)
    else AttemptError(Ended(s), Some(s.active.value.server), ErrorView, code, now, jitter)
  }

  // The condition under which the timer's callback goes on.
  predicate TimerGuard(s: Controller, timer: Timer) {
    && !s.disposed && !s.reconnectStopped
    && timer.generation == s.generation && s.target == Some(timer.server)
  }

  function TimerStep(s: Controller): Controller {
    if s.timer.None? then s
    else if TimerGuard(s, s.timer.value) then Replace(s.(timer := None), s.timer.value.server, true)
    else s.(timer := None)
  }

  datatype Step =
    | Connect(server: ServerId)
    | Retry
    | StopReconnect
    | Disconnect
    | Dispose
    | CloseSettles(fulfilled: bool)
    | Resume(generation: nat, draws: Draws, made: bool, resumedAt: int)
    | Reports(session: SessionId, report: Report, reportedAt: int, jitter: Jitter)
    | StartRejected(session: SessionId, code: Option<ErrorCode>, rejectedAt: int, jitter: Jitter)
    | TimerFires

  function Next(s: Controller, step: Step): Controller {
    match step
    case Connect(server) => ConnectStep(s, server)
    case Retry => RetryStep(s)
    case StopReconnect => StopReconnectStep(s)
    case Disconnect => DisconnectStep(s)
    case Dispose => DisposeStep(s)
    case CloseSettles(fulfilled) => CloseSettlesStep(s, fulfilled)
    case Resume(generation, draws, made, now) => ResumeStep(s, generation, draws, made, now)
    case Reports(session, report, now, jitter) => ReportStep(s, session, report, now, jitter)
    case StartRejected(session, code, now, jitter) => StartRejectedStep(s, session, code, now, jitter)
    case TimerFires => TimerStep(s)
  }

  function Run(s: Controller, steps: seq<Step>): Controller
    decreases |steps|
  {
    if steps == [] then s else Run(Next(s, steps[0]), steps[1..])
  }

  // ---- Invariant ----------------------------------------------------------------------------------

  // The only attempt is the one of the newest session, for the current target and generation.
  ghost predicate ActiveInv(s: Controller) {
    s.active.Some? ==>
      && !s.disposed
      && s.active.value.generation == s.generation
      && s.target == Some(s.active.value.server)
      && s.active.value.session == s.created - 1
      && s.generation !in s.waiting
  }

  // A suspended call of the current generation waits for the last link of the barrier.
  ghost predicate WaitingInv(s: Controller) {
    && (forall g <- s.waiting :: g <= s.generation && s.waiting[g].ticket < |s.closes|)
    && (s.generation in s.waiting ==>
          && !s.disposed
          && s.waiting[s.generation].ticket == |s.closes| - 1
          && (s.waiting[s.generation].Replacement? ==> s.target == Some(s.waiting[s.generation].server)))
  }

  // Every session is the active one or has exactly one link of the barrier.
  ghost predicate ClosesInv(closes: seq<Option<SessionId>>, created: nat, active: Option<SessionId>) {
    && (forall i, j :: 0 <= i < j < |closes| && closes[i].Some? && closes[j].Some? ==> closes[i] != closes[j])
    && (forall link <- closes :: link.Some? ==> link.value < created && link != active)
    && (active.Some? ==> active.value < created)
    && (forall k :: 0 <= k < created && Some(k) != active ==> Some(k) in closes)
  }

  // Of the settled links exactly those closed their session that did not fail.
  ghost predicate ClosedInv(closes: seq<Option<SessionId>>, settled: nat, closed: set<SessionId>, failed: bool) {
    && settled <= |closes|
    && (forall k <- closed :: Some(k) in closes[..settled])
    && (!failed ==> forall i :: 0 <= i < settled && closes[i].Some? ==> closes[i].value in closed)
  }

  // All sessions but at most one have been closed.
  ghost predicate OneLive(created: nat, closed: set<SessionId>) {
    forall a, b :: 0 <= a < created && 0 <= b < created && a !in closed && b !in closed ==> a == b
  }

  ghost predicate TimerInv(s: Controller) {
    s.timer.Some? ==>
      && TimerGuard(s, s.timer.value)
      && s.hasReachedReady
      && s.active.Some?
      && s.reconnectAttempt > 0
  }

  // Three short exits in a row end the automatic attempts: neither a timer nor a replacement is under way.
  ghost predicate ExitsInv(s: Controller) {
    && s.shortExits <= MAX_SHORT_LOCAL_PROCESS_EXITS
    && (s.shortExits == MAX_SHORT_LOCAL_PROCESS_EXITS ==>
          && s.attemptStartedAt.None?
          && (s.active.Some? ==> s.active.value.ended && s.shown.view.ErrorView?)
          && s.timer.None?
          && !Replacing(s))
  }

  predicate Replacing(s: Controller) {
    s.generation in s.waiting && s.waiting[s.generation].Replacement?
  }

  // What is offered belongs to the active session, and "connecting" is never shown with nothing under way.
  ghost predicate ShownInv(s: Controller) {
    !s.disposed ==>
      && (s.shown.client.Some? ==> s.shown.client == ActiveSession(s))
      && (s.shown.events.Some? ==> s.shown.events == ActiveSession(s))
      && (s.active.None? && !Replacing(s) ==> s.shown.view.DisconnectedView? || s.shown.view.ErrorView?)
  }

  // The next attempt is announced exactly while its timer is live.
  ghost predicate CountdownInv(s: Controller) {
    !s.disposed ==>
      && (s.timer.Some? <==> s.shown.reconnect.Some? && s.shown.reconnect.value.nextAttemptAt.Some?)
      && (s.timer.Some? ==>
            && s.shown.view.ErrorView?
            && s.shown.reconnect == Some(ReconnectView(s.reconnectAttempt, Some(s.timer.value.dueAt))))
  }

  // What sessions promise: one that is over reports nothing but its failure while it is attached.
  predicate Orderly(s: Controller, step: Step) {
    step.Reports? && IsCurrent(s, step.session) && s.active.value.ended ==> step.report.phase.Failed?
  }

  // What holds besides if the sessions keep that promise.
  ghost predicate OrderlyInv(s: Controller) {
    && ExitsInv(s) && CountdownInv(s)
    && (s.timer.Some? && s.active.Some? ==> s.active.value.ended)
  }

  // The retained ids are the newest ids issued, and none was issued again while retained.
  ghost predicate IdsInv(retained: seq<string>, issued: seq<string>) {
    && retained == issued[if |issued| > MAX_RETAINED_CONNECTION_IDS then |issued| - MAX_RETAINED_CONNECTION_IDS else 0..]
    && (forall id <- issued :: IsConnectionId(id))
    && (forall i, j :: 0 <= i < j < |issued| && j - i <= MAX_RETAINED_CONNECTION_IDS ==> issued[i] != issued[j])
  }

  ghost predicate BarrierInv(s: Controller) {
    && ClosesInv(s.closes, s.created, ActiveSession(s))
    && ClosedInv(s.closes, s.settled, s.closed, s.closeFailed)
    && OneLive(s.created, s.closed)
  }

  ghost predicate ControllerInv(s: Controller) {
    && ActiveInv(s) && WaitingInv(s) && BarrierInv(s)
    && TimerInv(s) && ShownInv(s) && IdsInv(s.connectionIds, s.issued)
  }

  // ---- Every step keeps the invariant ---------------------------------------------------------------

  lemma RetainIssued(retained: seq<string>, issued: seq<string>, id: string)
    requires IdsInv(retained, issued) && Usable(id, retained)
    ensures IdsInv(Retain(retained, id), issued + [id])
  {
    var first := if |issued| > MAX_RETAINED_CONNECTION_IDS then |issued| - MAX_RETAINED_CONNECTION_IDS else 0;
    assert forall i :: first <= i < |issued| ==> issued[i] == retained[i - first];
    assert issued[first..] + [id] == (issued + [id])[first..];
  }

  // Once the barrier has settled without a failure, every session without an attempt is closed.
  lemma SettledMeansClosed(closes: seq<Option<SessionId>>, created: nat, closed: set<SessionId>)
    requires ClosesInv(closes, created, None) && ClosedInv(closes, |closes|, closed, false)
    ensures forall k :: 0 <= k < created ==> k in closed
  {
    forall k | 0 <= k < created ensures k in closed {
      assert Some(k) in closes;
    }
  }

  lemma DetachKeepsBarrier(s: Controller)
    requires BarrierInv(s)
    ensures ClosesInv(s.closes + [ActiveSession(s)], s.created, None)
    ensures ClosedInv(s.closes + [ActiveSession(s)], s.settled, s.closed, s.closeFailed)
  {
    hide OneLive;
    var closes := s.closes + [ActiveSession(s)];
    assert closes[..s.settled] == s.closes[..s.settled];
    assert forall link :: link in closes <==> link in s.closes || link == ActiveSession(s);
    assert ActiveSession(s).Some? ==> ActiveSession(s) !in s.closes;
  }

  lemma SettleKeepsBarrier(s: Controller, fulfilled: bool)
    requires BarrierInv(s)
    ensures BarrierInv(CloseSettlesStep(s, fulfilled))
  {
    hide ClosesInv;
    if s.settled < |s.closes| {
      assert s.closes[..s.settled + 1] == s.closes[..s.settled] + [s.closes[s.settled]];
    }
  }

  lemma CreateKeepsBarrier(s: Controller, attempt: Attempt)
    requires BarrierInv(s) && s.active.None? && s.settled == |s.closes| && !s.closeFailed && attempt.session == s.created
    ensures BarrierInv(s.(active := Some(attempt), created := s.created + 1))
  {
    hide ClosedInv;
    SettledMeansClosed(s.closes, s.created, s.closed);
  }

  lemma ReplaceKeepsInv(s: Controller, server: ServerId, automatic: bool)
    requires ActiveInv(s) && WaitingInv(s) && BarrierInv(s) && ShownInv(s) && IdsInv(s.connectionIds, s.issued)
    requires s.timer.None?
    ensures ControllerInv(Replace(s, server, automatic))
  {
    DetachKeepsBarrier(s);
    hide IdsInv, ClosesInv, ClosedInv, OneLive;
  }

  lemma ConnectKeepsInv(s: Controller, server: ServerId)
    requires ControllerInv(s)
    ensures ControllerInv(ConnectStep(s, server)) && ControllerInv(RetryStep(s))
  {
    ReplaceKeepsInv(ResumeReconnect(s, s.target != Some(server)), server, false);
    if s.target.Some? {
      ReplaceKeepsInv(ResumeReconnect(s, false), s.target.value, false);
    }
    hide ActiveInv, WaitingInv, BarrierInv, ExitsInv, ShownInv, IdsInv, Replace;
  }

  lemma DisconnectKeepsInv(s: Controller)
    requires ControllerInv(s)
    ensures ControllerInv(DisconnectStep(s))
  {
    DetachKeepsBarrier(s);
    hide IdsInv, ClosesInv, ClosedInv, OneLive;
  }

  lemma StopKeepsInv(s: Controller)
    requires ControllerInv(s)
    ensures ControllerInv(DisposeStep(s)) && ControllerInv(StopReconnectStep(s))
  {
    DetachKeepsBarrier(s);
    hide IdsInv, ClosesInv, ClosedInv, OneLive;
  }

  lemma CloseSettlesKeepsInv(s: Controller, fulfilled: bool)
    requires ControllerInv(s)
    ensures ControllerInv(CloseSettlesStep(s, fulfilled))
  {
    SettleKeepsBarrier(s, fulfilled);
    hide IdsInv, ClosesInv, ClosedInv, OneLive;
  }

  lemma CreateSessionKeepsInv(s: Controller, server: ServerId, draws: Draws, made: bool, now: int)
    requires ControllerInv(s) && !s.disposed && s.target == Some(server)
    requires s.generation in s.waiting && s.waiting[s.generation].Replacement? && CanResume(s, s.generation)
    requires !s.closeFailed
    ensures ControllerInv(CreateSession(s.(waiting := s.waiting - {s.generation}), server, draws, made, now))
  {
    var resumed := s.(waiting := s.waiting - {s.generation});
    if made {
      CreateKeepsBarrier(s, Attempt(s.generation, s.created, server, false));
    }
    if FirstUsable(draws, s.connectionIds).Some? {
      RetainIssued(s.connectionIds, s.issued, FirstUsable(draws, s.connectionIds).value);
    }
    hide IdsInv, ClosesInv, ClosedInv, OneLive, FirstUsable, Usable;
  }

  lemma ResumeKeepsInv(s: Controller, generation: nat, draws: Draws, made: bool, now: int)
    requires ControllerInv(s)
    ensures ControllerInv(ResumeStep(s, generation, draws, made, now))
  {
    var replacing := CanResume(s, generation) && !s.disposed && generation == s.generation
                     && s.waiting[generation].Replacement? && !s.closeFailed;
    if replacing {
      CreateSessionKeepsInv(s, s.waiting[generation].server, draws, made, now);
    }
    hide IdsInv, ClosesInv, ClosedInv, OneLive, CreateSession;
  }

  lemma ShowKeepsInv(s: Controller, server: Option<ServerId>, view: View, reconnect: Option<ReconnectView>)
    requires ControllerInv(s) && s.active.Some?
    ensures ControllerInv(Show(s, server, view, reconnect))
  {
    hide IdsInv, ClosesInv, ClosedInv, OneLive;
  }

  lemma AttemptErrorKeepsInv(s: Controller, server: ServerId, view: View, code: Option<ErrorCode>, now: int, jitter: Jitter)
    requires ControllerInv(s) && s.active.Some? && s.target == Some(server)
    ensures ControllerInv(AttemptError(s, Some(server), view, code, now, jitter))
  {
    ShowKeepsInv(s, Some(server), view, None);
    var attempt := s.reconnectAttempt + 1;
    ShowKeepsInv(s, Some(server), view, Some(ReconnectView(attempt, Some(now + Delay(attempt, jitter)))));
    hide IdsInv, BarrierInv, Delay, ShownInv, WaitingInv;
  }

  lemma RecordExitKeepsInv(s: Controller, exited: bool, now: int)
    requires ControllerInv(s) && s.active.Some?
    ensures ControllerInv(RecordExit(Ended(s), exited, now)) && ControllerInv(Ended(s))
  {
    hide IdsInv, ClosesInv, ClosedInv, OneLive;
  }

  lemma ReportKeepsInv(s: Controller, session: SessionId, report: Report, now: int, jitter: Jitter)
    requires ControllerInv(s) && IsCurrent(s, session) && !report.phase.Failed?
    ensures ControllerInv(ReportStep(s, session, report, now, jitter))
  {
    hide IdsInv, ClosesInv, ClosedInv, OneLive;
  }

  lemma FailureKeepsInv(s: Controller, session: SessionId, report: Report, now: int, jitter: Jitter)
    requires ControllerInv(s) && IsCurrent(s, session) && report.phase.Failed?
    ensures ControllerInv(ReportStep(s, session, report, now, jitter))
  {
    RecordExitKeepsInv(s, report.exited, now);
    var recorded := RecordExit(Ended(s), report.exited, now);
    AttemptErrorKeepsInv(recorded, s.target.value, ViewOf(report), report.errorCode, now, jitter);
    hide IdsInv, ClosesInv, ClosedInv, OneLive, AttemptError;
  }

  lemma StartRejectedKeepsInv(s: Controller, session: SessionId, code: Option<ErrorCode>, now: int, jitter: Jitter)
    requires ControllerInv(s)
    ensures ControllerInv(StartRejectedStep(s, session, code, now, jitter))
  {
    if IsCurrent(s, session) {
      RecordExitKeepsInv(s, true, now);
      AttemptErrorKeepsInv(Ended(s), s.active.value.server, ErrorView, code, now, jitter);
    }
    hide AttemptError, ActiveInv, WaitingInv, BarrierInv, TimerInv, ShownInv, IdsInv;
  }

  lemma TimerKeepsInv(s: Controller)
    requires ControllerInv(s)
    ensures ControllerInv(TimerStep(s))
  {
    if s.timer.Some? {
      ReplaceKeepsInv(s.(timer := None), s.timer.value.server, true);
    }
    hide IdsInv, ClosesInv, ClosedInv, OneLive;
  }

  lemma {:induction false} NextKeepsInv(s: Controller, step: Step)
    requires ControllerInv(s)
    ensures ControllerInv(Next(s, step))
  {
    hide ControllerInv, ConnectStep, RetryStep, StopReconnectStep, DisconnectStep, DisposeStep, CloseSettlesStep,
         ResumeStep, StartRejectedStep, TimerStep;
    match step
    case Connect(server) => ConnectKeepsInv(s, server);
    case Retry => ConnectKeepsInv(s, "");
    case StopReconnect => StopKeepsInv(s);
    case Disconnect => DisconnectKeepsInv(s);
    case Dispose => StopKeepsInv(s);
    case CloseSettles(fulfilled) => CloseSettlesKeepsInv(s, fulfilled);
    case Resume(generation, draws, made, now) => ResumeKeepsInv(s, generation, draws, made, now);
    case Reports(session, report, now, jitter) =>
      if IsCurrent(s, session) {
        if report.phase.Failed? {
          FailureKeepsInv(s, session, report, now, jitter);
        } else {
          ReportKeepsInv(s, session, report, now, jitter);
        }
      }
    case StartRejected(session, code, now, jitter) => StartRejectedKeepsInv(s, session, code, now, jitter);
    case TimerFires => TimerKeepsInv(s);
  }

  lemma {:induction false} RunKeepsInv(s: Controller, steps: seq<Step>)
    requires ControllerInv(s)
    ensures ControllerInv(Run(s, steps))
    decreases |steps|
  {
    if steps != [] {
      NextKeepsInv(s, steps[0]);
      RunKeepsInv(Next(s, steps[0]), steps[1..]);
    }
  }

  predicate OrderlyRun(s: Controller, steps: seq<Step>)
    decreases |steps|
  {
    steps != [] ==> Orderly(s, steps[0]) && OrderlyRun(Next(s, steps[0]), steps[1..])
  }

  lemma AttemptErrorKeepsOrder(s: Controller, server: ServerId, view: View, code: Option<ErrorCode>, now: int, jitter: Jitter)
    requires TimerInv(s) && CountdownInv(s) && s.active.Some? && s.active.value.ended && !s.disposed && view.ErrorView?
    requires s.attemptStartedAt.None? && s.shortExits < MAX_SHORT_LOCAL_PROCESS_EXITS
    ensures OrderlyInv(AttemptError(s, Some(server), view, code, now, jitter))
  {
  }

  lemma FailureKeepsOrder(s: Controller, step: Step)
    requires ControllerInv(s) && OrderlyInv(s) && step.Reports? && step.report.phase.Failed?
    ensures OrderlyInv(Next(s, step))
  {
    if !IsCurrent(s, step.session) {
      return;
    }
    var recorded := RecordExit(Ended(s), step.report.exited, step.reportedAt);
    if recorded.shortExits < MAX_SHORT_LOCAL_PROCESS_EXITS {
      AttemptErrorKeepsOrder(recorded, s.target.value, ErrorView, step.report.errorCode, step.reportedAt, step.jitter);
    }
    hide IdsInv, BarrierInv, AttemptError, WaitingInv;
  }

  lemma ReportKeepsOrder(s: Controller, step: Step)
    requires ControllerInv(s) && OrderlyInv(s) && Orderly(s, step) && step.Reports? && !step.report.phase.Failed?
    ensures OrderlyInv(Next(s, step))
  {
    hide IdsInv, BarrierInv, AttemptError, WaitingInv;
  }

  lemma RejectionKeepsOrder(s: Controller, step: Step)
    requires ControllerInv(s) && OrderlyInv(s) && step.StartRejected?
    ensures OrderlyInv(Next(s, step))
  {
    hide IdsInv, BarrierInv, Delay, WaitingInv;
  }

  lemma ControlsKeepOrder(s: Controller, step: Step)
    requires ControllerInv(s) && OrderlyInv(s) && !step.Reports? && !step.StartRejected? && !step.Resume?
    ensures OrderlyInv(Next(s, step))
  {
    hide IdsInv, BarrierInv;
  }

  lemma ResumeKeepsOrder(s: Controller, step: Step)
    requires ControllerInv(s) && OrderlyInv(s) && step.Resume?
    ensures OrderlyInv(Next(s, step))
  {
    hide IdsInv, BarrierInv, FirstUsable;
  }

  lemma OrderlyStepKeepsInv(s: Controller, step: Step)
    requires ControllerInv(s) && OrderlyInv(s) && Orderly(s, step)
    ensures ControllerInv(Next(s, step)) && OrderlyInv(Next(s, step))
  {
    hide ControllerInv, OrderlyInv, Next;
    NextKeepsInv(s, step);
    if step.StartRejected? {
      RejectionKeepsOrder(s, step);
    } else if step.Reports? && step.report.phase.Failed? {
      FailureKeepsOrder(s, step);
    } else if step.Reports? {
      ReportKeepsOrder(s, step);
    } else if step.Resume? {
      ResumeKeepsOrder(s, step);
    } else {
      ControlsKeepOrder(s, step);
    }
  }

  lemma {:induction false} OrderlyRunKeepsInv(s: Controller, steps: seq<Step>)
    requires ControllerInv(s) && OrderlyInv(s) && OrderlyRun(s, steps)
    ensures ControllerInv(Run(s, steps)) && OrderlyInv(Run(s, steps))
    decreases |steps|
  {
    hide ControllerInv, OrderlyInv, Next;
    if steps != [] {
      OrderlyStepKeepsInv(s, steps[0]);
      OrderlyRunKeepsInv(Next(s, steps[0]), steps[1..]);
    }
  }

  // ---- Main results -----------------------------------------------------------------------------------

  lemma InitialKeepsInv()
    ensures ControllerInv(InitialController) && OrderlyInv(InitialController)
  {
  }

  lemma OnlyResumptionCreates(s: Controller, step: Step)
    requires ControllerInv(s)
    ensures var s' := Next(s, step);
            s'.created != s.created ==>
              && s'.created == s.created + 1
              && !s.closeFailed
              && (forall k :: 0 <= k < s.created ==> k in s.closed)
              && step.Resume? && step.generation == s.generation
              && s'.active.Some? && s.target == Some(s'.active.value.server)
  {
    OtherStepsNeverCreate(s, step);
    if step.Resume? && CanResume(s, step.generation) && step.generation == s.generation && s.active.None? && !s.closeFailed {
      SettledMeansClosed(s.closes, s.created, s.closed);
    }
    hide IdsInv, ClosesInv, ClosedInv, OneLive, FirstUsable, ShownInv, TimerInv;
    if step.Resume? {
      assert Next(s, step) == ResumeStep(s, step.generation, step.draws, step.made, step.resumedAt);
    }
    hide Next;
  }

  lemma OtherStepsNeverCreate(s: Controller, step: Step)
    ensures !step.Resume? ==> Next(s, step).created == s.created
    ensures s.closeFailed ==> Next(s, step).closeFailed
  {
    hide FirstUsable, Usable, TimerGuard, AttemptError, ResumeStep;
    if step.Reports? && IsCurrent(s, step.session) {
      var recorded := RecordExit(Ended(s), step.report.exited, step.reportedAt);
      AttemptErrorsNeverCreate(recorded, s.target, ViewOf(step.report), step.report.errorCode, step.reportedAt, step.jitter);
    }
    if step.StartRejected? && IsCurrent(s, step.session) {
      AttemptErrorsNeverCreate(Ended(s), Some(s.active.value.server), ErrorView, step.code, step.rejectedAt, step.jitter);
    }
    if step.Resume? {
      ResumingKeepsFailure(s, step.generation, step.draws, step.made, step.resumedAt);
    }
  }

  lemma ResumingKeepsFailure(s: Controller, generation: nat, draws: Draws, made: bool, now: int)
    ensures s.closeFailed ==> ResumeStep(s, generation, draws, made, now).closeFailed
  {
  }

  lemma AttemptErrorsNeverCreate(s: Controller, server: Option<ServerId>, view: View, code: Option<ErrorCode>, now: int, jitter: Jitter)
    ensures var s' := AttemptError(s, server, view, code, now, jitter);
            s'.created == s.created && s'.closeFailed == s.closeFailed
  {
    hide Delay;
  }

  // A session comes into being only when every earlier one has been closed successfully, in the
  // last requested replacement and for the last requested server.
  lemma SessionsAreCreatedOneAfterAnother(steps: seq<Step>, step: Step)
    ensures var s := Run(InitialController, steps);
            var s' := Next(s, step);
            s'.created != s.created ==>
              && s'.created == s.created + 1
              && !s.closeFailed
              && (forall k :: 0 <= k < s.created ==> k in s.closed)
              && step.Resume? && step.generation == s.generation
              && s'.active.Some? && s.target == Some(s'.active.value.server)
  {
    InitialKeepsInv();
    RunKeepsInv(InitialController, steps);
    OnlyResumptionCreates(Run(InitialController, steps), step);
  }

  lemma AtMostOneSessionIsOpen(steps: seq<Step>)
    ensures var s := Run(InitialController, steps);
            forall a, b :: 0 <= a < s.created && 0 <= b < s.created && a !in s.closed && b !in s.closed ==> a == b
  {
    InitialKeepsInv();
    RunKeepsInv(InitialController, steps);
  }

  lemma FailedCloseIsSticky(s: Controller, step: Step)
    requires s.closeFailed
    ensures Next(s, step).closeFailed && Next(s, step).created == s.created
  {
    OtherStepsNeverCreate(s, step);
    if step.Resume? {
      assert Next(s, step) == ResumeStep(s, step.generation, step.draws, step.made, step.resumedAt);
    }
    hide Next, CreateSession;
  }

  lemma {:induction false} FailedCloseStopsCreation(s: Controller, steps: seq<Step>)
    requires s.closeFailed
    ensures Run(s, steps).created == s.created && Run(s, steps).closeFailed
    decreases |steps|
  {
    hide Next;
    if steps != [] {
      FailedCloseIsSticky(s, steps[0]);
      FailedCloseStopsCreation(Next(s, steps[0]), steps[1..]);
    }
  }

  // The checks in the timer's callback never reject: firing always starts a replacement.
  lemma TimerGuardIsRedundant(steps: seq<Step>)
    ensures var s := Run(InitialController, steps);
            s.timer.Some? ==>
              && TimerGuard(s, s.timer.value)
              && TimerStep(s) == Replace(s.(timer := None), s.timer.value.server, true)
  {
    InitialKeepsInv();
    RunKeepsInv(InitialController, steps);
  }

  // Stopped means stopped until the user connects or the session recovers.
  predicate Revives(s: Controller, step: Step) {
    step.Connect? || step.Retry? || (step.Reports? && step.report.phase.Ready?)
  }

  lemma StoppedStaysStopped(s: Controller, step: Step)
    requires ControllerInv(s) && s.reconnectStopped && !Revives(s, step)
    ensures Next(s, step).reconnectStopped && Next(s, step).timer.None?
  {
    NextKeepsInv(s, step);
    hide ActiveInv, WaitingInv, BarrierInv, ShownInv, IdsInv;
  }

  lemma {:induction false} NoTimerWhileStopped(s: Controller, steps: seq<Step>)
    requires ControllerInv(s) && s.reconnectStopped && forall step <- steps :: !Revives(s, step)
    ensures Run(s, steps).reconnectStopped && Run(s, steps).timer.None?
    decreases |steps|
  {
    hide Next, ActiveInv, WaitingInv, BarrierInv, ShownInv, IdsInv;
    if steps != [] {
      StoppedStaysStopped(s, steps[0]);
      assert forall step <- steps[1..] :: step in steps;
      NextKeepsInv(s, steps[0]);
      NoTimerWhileStopped(Next(s, steps[0]), steps[1..]);
    }
  }

  // The announced time of the next attempt is that of the live timer, and three short exits in a
  // row leave neither a timer nor a replacement behind.
  lemma CountdownIsTruthful(steps: seq<Step>)
    requires OrderlyRun(InitialController, steps)
    ensures var s := Run(InitialController, steps);
            && CountdownInv(s)
            && (s.shortExits == MAX_SHORT_LOCAL_PROCESS_EXITS ==> s.timer.None? && !Replacing(s))
            && s.shortExits <= MAX_SHORT_LOCAL_PROCESS_EXITS
  {
    InitialKeepsInv();
    OrderlyRunKeepsInv(InitialController, steps);
  }

  lemma ShownBelongsToTheOpenSession(steps: seq<Step>)
    ensures var s := Run(InitialController, steps);
            !s.disposed ==>
              && (s.shown.client.Some? ==> s.active.Some? && s.shown.client.value == s.active.value.session == s.created - 1)
              && (s.shown.client.Some? ==> s.shown.client !in s.closes)
              && (s.shown.view.ConnectingView? || s.shown.view.InitializingView? || s.shown.view.ReadyView?
                  ==> s.active.Some? || Replacing(s))
  {
    InitialKeepsInv();
    RunKeepsInv(InitialController, steps);
    hide IdsInv;
  }

  // Two ids issued within the retention window differ, so requests are told apart.
  lemma ConnectionIdsAreNotReused(steps: seq<Step>)
    ensures var ids := Run(InitialController, steps).issued;
            && (forall i, j :: 0 <= i < j < |ids| && j - i <= MAX_RETAINED_CONNECTION_IDS ==> ids[i] != ids[j])
            && (forall id <- ids :: IsConnectionId(id))
  {
    InitialKeepsInv();
    RunKeepsInv(InitialController, steps);
  }

  lemma DelayIsWithinTenPercent(attempt: nat, jitter: Jitter)
    requires attempt > 0
    ensures var base := RECONNECT_DELAYS_MS[Min(attempt - 1, 5)];
            base * 9 <= Delay(attempt, jitter) * 10 <= base * 11
  {
    var base := RECONNECT_DELAYS_MS[Min(attempt - 1, |RECONNECT_DELAYS_MS| - 1)];
    assert base % 10 == 0;
    var low := base / 10 * 9;
    assert base as real * 0.9 == low as real;
    assert base as real * jitter <= base as real;
    assert base as real * jitter >= 0.0;
  }

  function Settles(n: nat): (r: seq<Step>)
    ensures |r| == n
  {
    if n == 0 then [] else [CloseSettles(true)] + Settles(n - 1)
  }

  lemma {:induction false} SettlingClosesKeepsTheRest(s: Controller, n: nat)
    requires s.settled + n <= |s.closes| && !s.closeFailed
    ensures var s' := Run(s, Settles(n));
            s' == s.(settled := s.settled + n, closed := s'.closed)
    decreases n
  {
    if n > 0 {
      var s1 := CloseSettlesStep(s, true);
      assert Settles(n)[0] == CloseSettles(true) && Settles(n)[1..] == Settles(n - 1);
      assert Next(s, Settles(n)[0]) == s1;
      SettlingClosesKeepsTheRest(s1, n - 1);
    }
  }

  // Connecting leads to a session for the requested server once the pending closes have fulfilled.
  lemma ConnectCreatesASession(s: Controller, server: ServerId, draws: Draws, now: int)
    requires ControllerInv(s) && !s.disposed && !s.closeFailed
    requires exists id <- draws :: Usable(id, s.connectionIds)
    ensures var s1 := ConnectStep(s, server);
            var s2 := Run(s1, Settles(|s1.closes| - s1.settled));
            var s3 := Next(s2, Resume(s2.generation, draws, true, now));
            s3.created == s.created + 1 && s3.active == Some(Attempt(s.generation + 1, s.created, server, false))
  {
    var s1 := ConnectStep(s, server);
    SettlingClosesKeepsTheRest(s1, |s1.closes| - s1.settled);
    hide ActiveInv, ShownInv, IdsInv, Usable;
  }

  // ---- When a failed attempt is followed by another ---------------------------------------------------------

  // This session's attempt is the current one.
  ghost predicate Attached(s: Controller, session: SessionId) {
    !s.disposed && s.active.Some? && s.active.value.session == session
  }

  // A failure was announced along with the next attempt already.
  ghost predicate Announced(s: Controller) {
    s.shown.view == ErrorView && s.shown.reconnect.Some?
  }

  // The third local process in a row that ended within ten seconds of its start.
  ghost predicate ThirdShortExit(s: Controller, exited: bool, now: int) {
    exited && s.attemptStartedAt.Some? && now - s.attemptStartedAt.value <= 10000 && s.shortExits + 1 >= 3
  }

  ghost predicate MayRetry(s: Controller, code: Option<ErrorCode>) {
    && s.hasReachedReady && !s.reconnectStopped
    && code in {Some(TransportClosed), Some(TransportFailure), Some(TransportConnectFailed)}
  }

  // The next attempt is due after its delay and announced for that time.
  ghost predicate Retries(s: Controller, s': Controller, now: int, jitter: Jitter) {
    var attempt := s.reconnectAttempt + 1;
    var dueAt := now + Delay(attempt, jitter);
    && s'.reconnectAttempt == attempt && s.target.Some?
    && s'.timer == Some(Timer(s.generation, s.target.value, dueAt))
    && s'.shown == Shown(s.target, ErrorView, Some(ReconnectView(attempt, Some(dueAt))), None, ActiveSession(s))
  }

  // There is no next attempt, and none is announced.
  ghost predicate GivesUp(s: Controller, s': Controller) {
    && s'.reconnectAttempt == s.reconnectAttempt && s'.timer.None?
    && s'.shown == Shown(s.target, ErrorView, None, None, ActiveSession(s))
  }

  // What a failure never touches.
  ghost predicate StaysOpen(s: Controller, s': Controller) {
    && (s'.generation, s'.target, s'.closes, s'.created, s'.waiting, s'.hasReachedReady, s'.issued, s'.disposed)
       == (s.generation, s.target, s.closes, s.created, s.waiting, s.hasReachedReady, s.issued, s.disposed)
    && ActiveSession(s') == ActiveSession(s)
  }

  lemma Reachable(steps: seq<Step>)
    requires OrderlyRun(InitialController, steps)
    ensures ControllerInv(Run(InitialController, steps)) && OrderlyInv(Run(InitialController, steps))
  {
    hide ControllerInv, OrderlyInv;
    InitialKeepsInv();
    OrderlyRunKeepsInv(InitialController, steps);
  }

  lemma FailureOutcome(s: Controller, session: SessionId, code: Option<ErrorCode>, exited: bool, now: int, jitter: Jitter)
    requires ControllerInv(s) && OrderlyInv(s) && Attached(s, session) && !Announced(s)
    ensures var s' := Next(s, Reports(session, Report(Failed, code, exited), now, jitter));
            && StaysOpen(s, s')
            && s'.reconnectStopped == (s.reconnectStopped || ThirdShortExit(s, exited, now))
            && (if MayRetry(s, code) && !ThirdShortExit(s, exited, now) then Retries(s, s', now, jitter) else GivesUp(s, s'))
  {
    hide IdsInv, BarrierInv, WaitingInv, Delay;
  }

  // A failure reported for the current attempt is followed by another attempt if and only if the
  // transport was lost or could not be opened, the server was ready before, nobody stopped
  // reconnecting, and it is not the third short exit, which also stops it. A failure that is
  // announced already changes nothing of that.
  lemma FailureIsRetriedIff(steps: seq<Step>, session: SessionId, code: Option<ErrorCode>, exited: bool, now: int, jitter: Jitter)
    requires OrderlyRun(InitialController, steps) && Attached(Run(InitialController, steps), session)
    requires !Announced(Run(InitialController, steps))
    ensures var s := Run(InitialController, steps);
            var s' := Next(s, Reports(session, Report(Failed, code, exited), now, jitter));
            && StaysOpen(s, s')
            && s'.reconnectStopped == (s.reconnectStopped || ThirdShortExit(s, exited, now))
            && (if MayRetry(s, code) && !ThirdShortExit(s, exited, now) then Retries(s, s', now, jitter) else GivesUp(s, s'))
  {
    hide Run, ControllerInv, OrderlyInv, Next, StaysOpen, Retries, GivesUp;
    Reachable(steps);
    FailureOutcome(Run(InitialController, steps), session, code, exited, now, jitter);
  }

  lemma AnnouncedFailureStands(s: Controller, session: SessionId, code: Option<ErrorCode>, exited: bool, now: int, jitter: Jitter)
    requires ControllerInv(s) && Attached(s, session) && Announced(s)
    ensures var s' := Next(s, Reports(session, Report(Failed, code, exited), now, jitter));
            && StaysOpen(s, s') && s'.reconnectAttempt == s.reconnectAttempt
            && (if ThirdShortExit(s, exited, now) then
                  s'.reconnectStopped && GivesUp(s, s')
                else (s'.reconnectStopped, s'.timer, s'.shown) == (s.reconnectStopped, s.timer, s.shown))
  {
    hide IdsInv, BarrierInv, WaitingInv, Delay;
  }

  // Exits are counted only while they are short and nothing else comes between.
  lemma ExitsAreCounted(s: Controller, session: SessionId, code: Option<ErrorCode>, exited: bool, now: int, jitter: Jitter)
    requires ControllerInv(s) && Attached(s, session)
    ensures var s' := Next(s, Reports(session, Report(Failed, code, exited), now, jitter));
            && s'.attemptStartedAt == None
            && s'.shortExits == (if exited && s.attemptStartedAt.Some? && now - s.attemptStartedAt.value <= 10000
                                 then s.shortExits + 1 else 0)
  {
    hide IdsInv, BarrierInv, WaitingInv, Delay;
  }

  lemma RejectionOutcome(s: Controller, session: SessionId, code: Option<ErrorCode>, now: int, jitter: Jitter)
    requires ControllerInv(s) && OrderlyInv(s) && Attached(s, session)
    ensures var s' := Next(s, StartRejected(session, code, now, jitter));
            && StaysOpen(s, s') && s'.reconnectStopped == s.reconnectStopped
            && (if s.shown.view == ErrorView then
                  (s'.reconnectAttempt, s'.timer, s'.shown) == (s.reconnectAttempt, s.timer, s.shown)
                else if MayRetry(s, code) then Retries(s, s', now, jitter) else GivesUp(s, s'))
  {
    hide IdsInv, BarrierInv, WaitingInv, Delay;
  }

  // The same for a start that is rejected, unless an error is shown already.
  lemma RejectedStartIsRetriedIff(steps: seq<Step>, session: SessionId, code: Option<ErrorCode>, now: int, jitter: Jitter)
    requires OrderlyRun(InitialController, steps) && Attached(Run(InitialController, steps), session)
    ensures var s := Run(InitialController, steps);
            var s' := Next(s, StartRejected(session, code, now, jitter));
            && StaysOpen(s, s') && s'.reconnectStopped == s.reconnectStopped
            && (if s.shown.view == ErrorView then
                  (s'.reconnectAttempt, s'.timer, s'.shown) == (s.reconnectAttempt, s.timer, s.shown)
                else if MayRetry(s, code) then Retries(s, s', now, jitter) else GivesUp(s, s'))
  {
    hide Run, ControllerInv, OrderlyInv, Next, StaysOpen, Retries, GivesUp;
    Reachable(steps);
    RejectionOutcome(Run(InitialController, steps), session, code, now, jitter);
  }

  // The delays are the listed ones, varied by a tenth and rounded; the last is for all further attempts.
  lemma DelayIsRounded(attempt: nat, jitter: Jitter)
    requires attempt > 0
    ensures var base := if attempt <= 6 then [1000, 2000, 5000, 10000, 20000, 30000][attempt - 1] else 30000;
            var exact := base as real * (0.9 + jitter * 0.2);
            exact - 0.5 < Delay(attempt, jitter) as real <= exact + 0.5
  {
  }

  // ---- Consecutive failures ---------------------------------------------------------------------------------

  // A failure or rejection that is followed by another attempt.
  ghost predicate Counts(s: Controller, step: Step) {
    match step
    case Reports(session, report, now, _) =>
      report.phase == Failed && Attached(s, session) && !Announced(s)
      && MayRetry(s, report.errorCode) && !ThirdShortExit(s, report.exited, now)
    case StartRejected(session, code, _, _) => Attached(s, session) && s.shown.view != ErrorView && MayRetry(s, code)
    case _ => false
  }

  // The user connects, retries or disconnects, or the current session is ready.
  ghost predicate StartsCountingAgain(s: Controller, step: Step) {
    match step
    case Connect(_) => true
    case Retry => s.target.Some? && !s.disposed
    case Disconnect => !s.disposed
    case Reports(session, report, _, _) => report.phase == Ready && Attached(s, session)
    case _ => false
  }

  ghost function Consecutive(s: Controller, steps: seq<Step>, n: nat): nat
    decreases |steps|
  {
    if steps == [] then n
    else Consecutive(Next(s, steps[0]), steps[1..],
                     if StartsCountingAgain(s, steps[0]) then 0 else if Counts(s, steps[0]) then n + 1 else n)
  }

  lemma FailureCounts(s: Controller, step: Step)
    requires ControllerInv(s) && step.Reports? && step.report.phase.Failed?
    ensures Next(s, step).reconnectAttempt == if Counts(s, step) then s.reconnectAttempt + 1 else s.reconnectAttempt
  {
    hide IdsInv, BarrierInv, WaitingInv, TimerInv, ShownInv, Delay;
  }

  lemma OtherReportsCount(s: Controller, step: Step)
    requires ControllerInv(s) && step.Reports? && !step.report.phase.Failed?
    ensures Next(s, step).reconnectAttempt == if StartsCountingAgain(s, step) then 0 else s.reconnectAttempt
  {
    hide IdsInv, BarrierInv, WaitingInv, TimerInv, ShownInv, AttemptError;
  }

  lemma RejectionCounts(s: Controller, step: Step)
    requires ControllerInv(s) && step.StartRejected?
    ensures Next(s, step).reconnectAttempt == if Counts(s, step) then s.reconnectAttempt + 1 else s.reconnectAttempt
  {
    hide IdsInv, BarrierInv, WaitingInv, TimerInv, ShownInv, Delay;
  }

  lemma StepCounts(s: Controller, step: Step)
    requires ControllerInv(s)
    ensures Next(s, step).reconnectAttempt
            == if StartsCountingAgain(s, step) then 0 else if Counts(s, step) then s.reconnectAttempt + 1 else s.reconnectAttempt
  {
    if step.Reports? && step.report.phase.Failed? {
      FailureCounts(s, step);
    } else if step.Reports? {
      OtherReportsCount(s, step);
    } else if step.StartRejected? {
      RejectionCounts(s, step);
    } else {
      hide ControllerInv, Announced, MayRetry, FirstUsable;
    }
    hide ReportStep, StartRejectedStep, ControllerInv, FirstUsable;
  }

  lemma {:induction false} RunCounts(s: Controller, steps: seq<Step>)
    requires ControllerInv(s)
    ensures Run(s, steps).reconnectAttempt == Consecutive(s, steps, s.reconnectAttempt)
    decreases |steps|
  {
    hide Next, ControllerInv, Counts, StartsCountingAgain;
    if steps != [] {
      StepCounts(s, steps[0]);
      NextKeepsInv(s, steps[0]);
      RunCounts(Next(s, steps[0]), steps[1..]);
    }
  }

  // Over every run the counter is the number of retried failures since the last time the server was
  // ready or the user intervened, so the n-th consecutive failure waits for the n-th delay.
  lemma FailuresAreCounted(steps: seq<Step>)
    ensures Run(InitialController, steps).reconnectAttempt == Consecutive(InitialController, steps, 0)
  {
    InitialKeepsInv();
    RunCounts(InitialController, steps);
  }

  // The timer's callback leads to a new session for the same server once the closes have fulfilled.
  lemma TimerCreatesASession(s: Controller, draws: Draws, now: int)
    requires ControllerInv(s) && s.timer.Some? && !s.closeFailed
    requires exists id <- draws :: Usable(id, s.connectionIds)
    ensures var s1 := Next(s, TimerFires);
            var s2 := Run(s1, Settles(|s1.closes| - s1.settled));
            var s3 := Next(s2, Resume(s2.generation, draws, true, now));
            && s1.shown == Shown(s.target, ConnectingView, Some(ReconnectView(s.reconnectAttempt, None)), None, None)
            && s.active.Some? && s1.closes == s.closes + [Some(s.active.value.session)] && s1.timer.None?
            && s3.created == s.created + 1 && s.target.Some?
            && s3.active == Some(Attempt(s.generation + 1, s.created, s.target.value, false))
            && s3.reconnectAttempt == s.reconnectAttempt && s3.hasReachedReady
  {
    var s1 := Next(s, TimerFires);
    SettlingClosesKeepsTheRest(s1, |s1.closes| - s1.settled);
    hide ShownInv, IdsInv, Usable;
  }

  // ---- What each call and report does -------------------------------------------------------------------------

  // A session that is not the current attempt's is not heard.
  lemma OtherSessionsAreNotHeard(s: Controller, session: SessionId, report: Report, code: Option<ErrorCode>, now: int, jitter: Jitter)
    requires !Attached(s, session)
    ensures Next(s, Reports(session, report, now, jitter)) == Next(s, StartRejected(session, code, now, jitter)) == s
  {
  }

  // A ready session is offered, and everything counted against the server is forgiven.
  lemma ReadySessionIsOffered(s: Controller, session: SessionId, code: Option<ErrorCode>, now: int, jitter: Jitter)
    requires ControllerInv(s) && Attached(s, session)
    ensures Next(s, Reports(session, Report(Ready, code, false), now, jitter)) ==
            s.(hasReachedReady := true, reconnectAttempt := 0, reconnectStopped := false, timer := None,
               shown := Shown(s.target, ReadyView, None, Some(session), Some(session)))
  {
    hide IdsInv, BarrierInv, WaitingInv;
  }

  // Progress on the way there is shown, with the attempt it belongs to; nothing is offered yet.
  lemma ProgressIsShown(s: Controller, session: SessionId, phase: SessionPhase, code: Option<ErrorCode>, now: int, jitter: Jitter)
    requires ControllerInv(s) && Attached(s, session) && phase != Ready && phase != Failed
    ensures var view := if phase == Connecting then ConnectingView else if phase == Initializing then InitializingView
                        else DisconnectedView;
            Next(s, Reports(session, Report(phase, code, false), now, jitter)) ==
            s.(shown := Shown(s.target, view, s.shown.reconnect, None, Some(session)))
  {
    hide IdsInv, BarrierInv, WaitingInv;
  }

  // Connecting forgives everything, and takes the current session's close to be waited for; what was
  // reached before counts only for the same server.
  lemma ConnectStartsOver(s: Controller, server: ServerId)
    requires !s.disposed
    ensures Next(s, Connect(server)) ==
            s.(generation := s.generation + 1, target := Some(server), active := None, timer := None,
               reconnectAttempt := 0, reconnectStopped := false, shortExits := 0, attemptStartedAt := None,
               hasReachedReady := s.hasReachedReady && s.target == Some(server),
               closes := s.closes + [ActiveSession(s)],
               waiting := s.waiting[s.generation + 1 := Replacement(server, |s.closes|)],
               shown := Shown(Some(server), ConnectingView, None, None, None))
    ensures s.target == Some(server) ==> Next(s, Retry) == Next(s, Connect(server))
    ensures s.target.None? ==> Next(s, Retry) == s
  {
  }

  // Stopping ends the countdown and leaves the connection alone.
  lemma StoppingEndsTheCountdown(s: Controller)
    requires ControllerInv(s) && !s.disposed
    ensures var s' := Next(s, StopReconnect);
            && s' == s.(reconnectStopped := true, timer := None, shown := s'.shown)
            && (s'.shown.server, s'.shown.view, s'.shown.reconnect) == (s.shown.server, s.shown.view, None)
            && s'.shown.client == (if s.shown.view == ReadyView then ActiveSession(s) else None)
            && s'.shown.events == ActiveSession(s)
  {
  }

  // Disconnecting detaches the session at once and has it closed; the target stays for a retry.
  lemma DisconnectDetaches(s: Controller)
    requires !s.disposed
    ensures Next(s, Disconnect) ==
            s.(generation := s.generation + 1, active := None, timer := None, reconnectStopped := true,
               reconnectAttempt := 0, attemptStartedAt := None,
               closes := s.closes + [ActiveSession(s)],
               waiting := s.waiting[s.generation + 1 := Disconnection(|s.closes|)],
               shown := Shown(s.target, DisconnectedView, None, None, None))
  {
  }

  // Disposal closes the session and is final: after it nothing is shown, scheduled or created.
  lemma DisposalIsFinal(s: Controller, step: Step)
    ensures !s.disposed ==>
              Next(s, Dispose) == s.(disposed := true, generation := s.generation + 1, active := None, timer := None,
                                     closes := s.closes + [ActiveSession(s)])
    ensures var s' := Next(s, step);
            s.disposed ==>
              && s'.disposed && s'.shown == s.shown && s'.created == s.created && s'.closes == s.closes
              && s'.target == s.target && s'.active == s.active
              && (s.timer.None? ==> s'.timer.None?)
  {
    hide FirstUsable, Delay;
  }

  // A replacement or disconnection that was overtaken does nothing when its wait is over.
  lemma OvertakenCallsDoNothing(s: Controller, generation: nat, draws: Draws, made: bool, now: int)
    requires generation in s.waiting && s.waiting[generation].ticket < s.settled && (s.disposed || generation != s.generation)
    ensures Next(s, Resume(generation, draws, made, now)) == s.(waiting := s.waiting - {generation})
  {
  }

  // With a usable id a replacement goes on: its session is made, or the attempt to make it is shown to have failed.
  ghost predicate GoesOn(s: Controller, s': Controller, server: ServerId, id: string, made: bool, now: int) {
    && s'.issued == s.issued + [id]
    && s'.connectionIds == s'.issued[if |s'.issued| > 1024 then |s'.issued| - 1024 else 0..]
    && (if made then
          s' == s.(issued := s'.issued, connectionIds := s'.connectionIds, created := s.created + 1,
                   active := Some(Attempt(s.generation, s.created, server, false)), attemptStartedAt := Some(now))
        else
          s' == s.(issued := s'.issued, connectionIds := s'.connectionIds,
                   shown := Shown(Some(server), ErrorView, None, None, None)))
  }

  ghost predicate IsFirstUsable(draws: seq<string>, retained: seq<string>, i: nat) {
    i < |draws| && Usable(draws[i], retained) && forall j :: 0 <= j < i ==> !Usable(draws[j], retained)
  }

  lemma {:induction false} FirstUsableIsFirst(draws: seq<string>, retained: seq<string>, i: nat)
    requires IsFirstUsable(draws, retained, i)
    ensures FirstUsable(draws, retained) == Some(draws[i])
  {
    hide Usable;
    if i > 0 {
      FirstUsableIsFirst(draws[1..], retained, i - 1);
    }
  }

  lemma CreatingGoesOn(s: Controller, server: ServerId, draws: Draws, made: bool, now: int, i: nat)
    requires IdsInv(s.connectionIds, s.issued) && s.active.None? && !s.disposed
    requires IsFirstUsable(draws, s.connectionIds, i)
    ensures GoesOn(s, CreateSession(s, server, draws, made, now), server, draws[i], made, now)
  {
    FirstUsableIsFirst(draws, s.connectionIds, i);
    RetainIssued(s.connectionIds, s.issued, draws[i]);
    hide Usable, Retain;
  }

  // When the wait of the newest call is over: a failed close is shown; a disconnection is done; a
  // replacement goes on with the first usable id, or fails when there is none.
  lemma ResumedCallSays(s: Controller, draws: Draws, made: bool, now: int, i: nat)
    requires ControllerInv(s) && s.generation in s.waiting && s.settled == |s.closes|
    ensures var s', call := Next(s, Resume(s.generation, draws, made, now)), s.waiting[s.generation];
            var after := s.(waiting := s.waiting - {s.generation});
            var failed := after.(shown := Shown(s.target, ErrorView, None, None, None));
            if s.closeFailed then s' == failed
            else if call.Disconnection? then s' == after
            else
              && ((forall id <- draws :: !Usable(id, s.connectionIds)) ==> s' == failed)
              && (IsFirstUsable(draws, s.connectionIds, i) ==> GoesOn(after, s', call.server, draws[i], made, now))
  {
    var after := s.(waiting := s.waiting - {s.generation});
    if s.waiting[s.generation].Replacement? && IsFirstUsable(draws, s.connectionIds, i) {
      CreatingGoesOn(after, s.waiting[s.generation].server, draws, made, now, i);
    }
    hide BarrierInv, IdsInv, TimerInv, Usable, GoesOn, IsFirstUsable;
  }

  // ---- The controller object ------------------------------------------------------------------------------

  // The promises chained on the close barrier, the calls suspended on them, and the model's own records.
  datatype Pending = Pending(closes: seq<Option<SessionId>>, settled: nat, closed: set<SessionId>,
                             issued: seq<string>, created: nat, waiting: map<nat, Waiting>)

  class ConfiguredServerConnectionController {
    var generation: nat
    var currentTarget: Option<ServerId>
    var activeAttempt: Option<Attempt>
    var closeFailed: bool
    var disposed: bool
    var reconnectTimer: Option<Timer>
    var reconnectAttempt: nat
    var reconnectStopped: bool
    var hasReachedReady: bool
    var attemptStartedAt: Option<int>
    var shortLocalProcessExitCount: nat
    var usedConnectionIds: set<string>
    var usedConnectionIdOrder: seq<string>
    var pending: Pending
    var snapshot: Shown

    ghost function View(): Controller
      reads this
    {
      Controller(generation, currentTarget, activeAttempt, pending.closes, pending.settled, pending.closed, closeFailed, disposed,
                 reconnectTimer, reconnectAttempt, reconnectStopped, hasReachedReady, attemptStartedAt,
                 shortLocalProcessExitCount, usedConnectionIdOrder, pending.issued, pending.created, pending.waiting, snapshot)
    }

    // The set and the queue of used ids agree.
    ghost predicate IdsAgree()
      reads this
    {
      && usedConnectionIds == (set id | id in usedConnectionIdOrder)
      && (forall i, j :: 0 <= i < j < |usedConnectionIdOrder| ==> usedConnectionIdOrder[i] != usedConnectionIdOrder[j])
    }

    constructor ()
      ensures View() == InitialController && IdsAgree()
    {
      generation, currentTarget, activeAttempt := 0, None, None;
      closeFailed, disposed, pending := false, false, Pending([], 0, {}, [], 0, map[]);
      reconnectTimer, reconnectAttempt, reconnectStopped, hasReachedReady := None, 0, false, false;
      attemptStartedAt, shortLocalProcessExitCount := None, 0;
      usedConnectionIds, usedConnectionIdOrder := {}, [];
      snapshot := Shown(None, DisconnectedView, None, None, None);
    }

    method UpdateSnapshot(server: Option<ServerId>, view: View, reconnect: Option<ReconnectView>)
      modifies this`snapshot
      ensures View() == old(Show(View(), server, view, reconnect))
    {
      if disposed {
        return;
      }
      var session := if activeAttempt.Some? then Some(activeAttempt.value.session) else None;
      snapshot := Shown(server, view, reconnect, if view.ReadyView? then session else None, session);
    }

    method DetachActiveSession() returns (session: Option<SessionId>)
      modifies this`activeAttempt
      ensures session == old(ActiveSession(View())) && activeAttempt.None?
    {
      session := if activeAttempt.Some? then Some(activeAttempt.value.session) else None;
      activeAttempt := None;
    }

    // Outdates every attempt and every suspended call.
    method BeginGeneration(target: Option<ServerId>) returns (previous: Option<SessionId>)
      modifies this`generation, this`currentTarget, this`activeAttempt
      ensures previous == old(ActiveSession(View()))
      ensures View() == old(View().(generation := generation + 1, target := target, active := None))
    {
      generation, currentTarget := generation + 1, target;
      previous := DetachActiveSession();
    }

    method EnqueueClose(session: Option<SessionId>) returns (ticket: nat)
      modifies this`pending
      ensures pending == old(pending.(closes := pending.closes + [session])) && ticket == |old(pending.closes)|
    {
      ticket := |pending.closes|;
      pending := pending.(closes := pending.closes + [session]);
    }

    method ReplaceConnection(server: ServerId, automatic: bool)
      modifies this`generation, this`currentTarget, this`activeAttempt, this`snapshot, this`pending
      ensures View() == old(Replace(View(), server, automatic))
    {
      if disposed {
        return;
      }
      var previous := BeginGeneration(Some(server));
      UpdateSnapshot(Some(server), ConnectingView, if automatic then Some(ReconnectView(reconnectAttempt, None)) else None);
      var ticket := EnqueueClose(previous);
      pending := pending.(waiting := pending.waiting[generation := Replacement(server, ticket)]);
    }

    method ResumeAutomaticReconnect(targetChanged: bool)
      modifies this`reconnectStopped, this`reconnectTimer, this`reconnectAttempt
      modifies this`shortLocalProcessExitCount, this`attemptStartedAt, this`hasReachedReady
      ensures View() == old(ResumeReconnect(View(), targetChanged))
    {
      reconnectStopped, reconnectTimer, reconnectAttempt := false, None, 0;
      shortLocalProcessExitCount, attemptStartedAt := 0, None;
      if targetChanged {
        hasReachedReady := false;
      }
    }

    method Connect(server: ServerId)
      modifies this
      ensures View() == old(ConnectStep(View(), server)) && usedConnectionIds == old(usedConnectionIds)
    {
      ResumeAutomaticReconnect(currentTarget != Some(server));
      ReplaceConnection(server, false);
    }

    method Retry()
      modifies this
      ensures View() == old(RetryStep(View())) && usedConnectionIds == old(usedConnectionIds)
    {
      if currentTarget.None? || disposed {
        return;
      }
      ResumeAutomaticReconnect(false);
      ReplaceConnection(currentTarget.value, false);
    }

    method StopReconnect()
      modifies this`reconnectStopped, this`reconnectTimer, this`snapshot
      ensures View() == old(StopReconnectStep(View()))
    {
      reconnectStopped, reconnectTimer := true, None;
      UpdateSnapshot(snapshot.server, snapshot.view, None);
    }

    method HaltReconnect()
      modifies this`reconnectStopped, this`reconnectTimer, this`reconnectAttempt, this`attemptStartedAt
      ensures View() == old(View().(reconnectStopped := true, timer := None, reconnectAttempt := 0, attemptStartedAt := None))
    {
      reconnectStopped, reconnectTimer, reconnectAttempt, attemptStartedAt := true, None, 0, None;
    }

    method Disconnect()
      modifies this`generation, this`currentTarget, this`reconnectStopped, this`reconnectTimer, this`reconnectAttempt, this`attemptStartedAt
      modifies this`activeAttempt, this`snapshot, this`pending
      ensures View() == old(DisconnectStep(View()))
    {
      if disposed {
        return;
      }
      HaltReconnect();
      var session := BeginGeneration(currentTarget);
      UpdateSnapshot(currentTarget, DisconnectedView, None);
      var ticket := EnqueueClose(session);
      pending := pending.(waiting := pending.waiting[generation := Disconnection(ticket)]);
    }

    method Dispose()
      modifies this`disposed, this`generation, this`reconnectTimer, this`activeAttempt, this`pending
      ensures View() == old(DisposeStep(View()))
    {
      if disposed {
        return;
      }
      disposed, generation, reconnectTimer := true, generation + 1, None;
      var session := DetachActiveSession();
      var ticket := EnqueueClose(session);
    }

    method CloseSettled(fulfilled: bool)
      requires pending.settled < |pending.closes|
      modifies this`pending, this`closeFailed
      ensures View() == old(CloseSettlesStep(View(), fulfilled))
    {
      var session := pending.closes[pending.settled];
      pending := pending.(settled := pending.settled + 1);
      if session.Some? {
        if fulfilled {
          pending := pending.(closed := pending.closed + {session.value});
        } else {
          closeFailed := true;
        }
      }
    }

    // The first usable id that the factory returns, if any; only the newest 1024 stay reserved.
    method AllocateConnectionId(draws: Draws) returns (id: Option<string>)
      requires IdsAgree()
      modifies this`usedConnectionIds, this`usedConnectionIdOrder, this`pending
      ensures IdsAgree()
      ensures id == old(FirstUsable(draws, usedConnectionIdOrder))
      ensures id.None? ==> View() == old(View())
      ensures id.Some? ==> View() == old(View().(connectionIds := Retain(usedConnectionIdOrder, id.value),
                                                 issued := pending.issued + [id.value]))
    {
      var attempt := 0;
      while attempt < MAX_CONNECTION_ID_ALLOCATION_ATTEMPTS
        invariant 0 <= attempt <= MAX_CONNECTION_ID_ALLOCATION_ATTEMPTS
        invariant FirstUsable(draws, usedConnectionIdOrder) == FirstUsable(draws[attempt..], usedConnectionIdOrder)
        invariant View() == old(View()) && usedConnectionIds == old(usedConnectionIds)
      {
        var candidate := draws[attempt];
        if IsConnectionId(candidate) && candidate !in usedConnectionIds {
          Reserve(candidate);
          return Some(candidate);
        }
        attempt := attempt + 1;
      }
      return None;
    }

    method Reserve(id: string)
      requires IdsAgree() && id !in usedConnectionIds
      modifies this`usedConnectionIds, this`usedConnectionIdOrder, this`pending
      ensures IdsAgree()
      ensures View() == old(View().(connectionIds := Retain(usedConnectionIdOrder, id), issued := pending.issued + [id]))
    {
      ghost var all := usedConnectionIdOrder + [id];
      usedConnectionIds := usedConnectionIds + {id};
      usedConnectionIdOrder := usedConnectionIdOrder + [id];
      pending := pending.(issued := pending.issued + [id]);
      if |usedConnectionIdOrder| > MAX_RETAINED_CONNECTION_IDS {
        var expired := usedConnectionIdOrder[0];
        usedConnectionIdOrder := usedConnectionIdOrder[1..];
        usedConnectionIds := usedConnectionIds - {expired};
        assert all == [expired] + usedConnectionIdOrder;
        assert forall x :: x in all <==> x == expired || x in usedConnectionIdOrder;
      }
    }

    // What follows the wait for the close of the previous session.
    method Resume(resumed: nat, draws: Draws, made: bool, now: int)
      requires IdsAgree() && CanResume(View(), resumed)
      modifies this
      ensures View() == old(ResumeStep(View(), resumed, draws, made, now)) && IdsAgree()
    {
      var call := pending.waiting[resumed];
      pending := pending.(waiting := pending.waiting - {resumed});
      if disposed || resumed != generation {
        return;
      }
      if closeFailed {
        UpdateSnapshot(if call.Replacement? then Some(call.server) else currentTarget, ErrorView, None);
        return;
      }
      if call.Disconnection? {
        return;
      }
      var id := AllocateConnectionId(draws);
      if id.None? {
        UpdateSnapshot(Some(call.server), ErrorView, None);
        return;
      }
      if !made {
        activeAttempt := None;
        UpdateSnapshot(Some(call.server), ErrorView, None);
        return;
      }
      activeAttempt := Some(Attempt(generation, pending.created, call.server, false));
      pending := pending.(created := pending.created + 1);
      attemptStartedAt := Some(now);
    }

    method ScheduleReconnect(server: ServerId, view: View, now: int, jitter: Jitter)
      modifies this`reconnectAttempt, this`reconnectTimer, this`snapshot
      ensures View() == old(ScheduleStep(View(), server, view, now, jitter))
    {
      hide Delay;
      reconnectAttempt := reconnectAttempt + 1;
      var nextAttemptAt := now + Delay(reconnectAttempt, jitter);
      UpdateSnapshot(Some(server), view, Some(ReconnectView(reconnectAttempt, Some(nextAttemptAt))));
      reconnectTimer := Some(Timer(generation, server, nextAttemptAt));
    }

    method HandleAttemptError(server: Option<ServerId>, view: View, code: Option<ErrorCode>, now: int, jitter: Jitter)
      modifies this`reconnectAttempt, this`reconnectTimer, this`snapshot
      ensures View() == old(AttemptError(View(), server, view, code, now, jitter))
    {
      if snapshot.view.ErrorView? && snapshot.reconnect.Some? {
        return;
      }
      if server.Some? && hasReachedReady && !reconnectStopped && IsRetryable(code) {
        ScheduleReconnect(server.value, view, now, jitter);
      } else {
        UpdateSnapshot(server, view, None);
      }
    }

    method RecordLocalProcessExit(exited: bool, now: int) returns (stop: bool)
      modifies this`shortLocalProcessExitCount, this`attemptStartedAt
      ensures View() == old(RecordExit(View(), exited, now))
      ensures stop == (exited && shortLocalProcessExitCount >= MAX_SHORT_LOCAL_PROCESS_EXITS)
    {
      if !exited {
        shortLocalProcessExitCount, attemptStartedAt := 0, None;
        return false;
      }
      var short := attemptStartedAt.Some? && now - attemptStartedAt.value <= SHORT_LOCAL_PROCESS_EXIT_MS;
      attemptStartedAt := None;
      shortLocalProcessExitCount := if short then shortLocalProcessExitCount + 1 else 0;
      stop := shortLocalProcessExitCount >= MAX_SHORT_LOCAL_PROCESS_EXITS;
    }

    method HandleFailure(report: Report, now: int, jitter: Jitter)
      requires activeAttempt.Some? && IsCurrent(View(), activeAttempt.value.session) && report.phase.Failed?
      modifies this`activeAttempt, this`reconnectAttempt, this`reconnectStopped, this`reconnectTimer
      modifies this`shortLocalProcessExitCount, this`attemptStartedAt, this`snapshot
      ensures View() == old(ReportStep(View(), activeAttempt.value.session, report, now, jitter))
    {
      activeAttempt := Some(activeAttempt.value.(ended := true));
      var stop := RecordLocalProcessExit(report.exited, now);
      if stop {
        reconnectStopped, reconnectTimer := true, None;
        UpdateSnapshot(currentTarget, ErrorView, None);
      } else {
        HandleAttemptError(currentTarget, ViewOf(report), report.errorCode, now, jitter);
      }
    }

    method HandleSessionState(session: SessionId, report: Report, now: int, jitter: Jitter)
      modifies this`activeAttempt, this`hasReachedReady, this`reconnectAttempt, this`reconnectStopped, this`reconnectTimer
      modifies this`shortLocalProcessExitCount, this`attemptStartedAt, this`snapshot
      ensures View() == old(ReportStep(View(), session, report, now, jitter))
    {
      if disposed || activeAttempt.None? || activeAttempt.value.session != session || activeAttempt.value.generation != generation {
        return;
      }
      if report.phase.Failed? {
        HandleFailure(report, now, jitter);
      } else if report.phase.Ready? {
        hasReachedReady, reconnectAttempt, reconnectStopped, reconnectTimer := true, 0, false, None;
        UpdateSnapshot(currentTarget, ViewOf(report), None);
      } else {
        UpdateSnapshot(currentTarget, ViewOf(report), snapshot.reconnect);
      }
    }

    method StartRejected(session: SessionId, code: Option<ErrorCode>, now: int, jitter: Jitter)
      modifies this`activeAttempt, this`reconnectAttempt, this`reconnectTimer, this`snapshot
      ensures View() == old(StartRejectedStep(View(), session, code, now, jitter))
    {
      if disposed || activeAttempt.None? || activeAttempt.value.session != session || activeAttempt.value.generation != generation {
        return;
      }
      activeAttempt := Some(activeAttempt.value.(ended := true));
      if !snapshot.view.ErrorView? {
        HandleAttemptError(Some(activeAttempt.value.server), ErrorView, code, now, jitter);
      }
    }

    method TimerFired()
      requires reconnectTimer.Some?
      modifies this`reconnectTimer, this`generation, this`currentTarget, this`activeAttempt, this`snapshot
      modifies this`pending
      ensures View() == old(TimerStep(View()))
    {
      var timer := reconnectTimer.value;
      reconnectTimer := None;
      if disposed || reconnectStopped || timer.generation != generation || currentTarget != Some(timer.server) {
        return;
      }
      ReplaceConnection(timer.server, true);
    }
  }
}
