/**
  The connection controller together with the sessions it creates: sessions report their phases, the
  close barrier calls and awaits their closes. What the controller takes for granted about sessions
  is discharged here. Sources: src/app/useConfiguredServerConnection.ts, src/appServer/session.ts.
 */
module ConnectedSessions {
  import opened Prelude
  import C = Connection
  import S = Session

  // `sessions` holds every session created so far, in order.
  datatype World = World(controller: C.Controller, sessions: seq<S.Session>)

  const InitialWorld := World(C.InitialController, [])

  function PhaseOf(phase: S.Phase): C.SessionPhase {
    match phase
    case Idle => C.Idle
    case Connecting => C.Connecting
    case Initializing => C.Initializing
    case Ready => C.Ready
    case Closing => C.Closing
    case Closed => C.Closed
    case Failed => C.Failed
  }

  function CodeOf(code: S.ErrorCode): C.ErrorCode {
    match code
    case TransportClosed => C.TransportClosed
    case TransportFailure => C.TransportFailure
    case TransportConnectFailed => C.TransportConnectFailed
    case _ => C.OtherCode
  }

  // What a session tells about itself; `exited` when its local process ended.
  function ReportOf(s: S.Session, exited: bool): C.Report {
    C.Report(PhaseOf(s.phase), if s.phase.Failed? && s.failureCode.Some? then Some(CodeOf(s.failureCode.value)) else None,
             s.phase.Failed? && exited)
  }

  // Clock and jitter of the moment, and whether a local process ended.
  datatype Moment = Moment(now: int, jitter: C.Jitter, exited: bool)

  function Hear(c: C.Controller, k: nat, report: C.Report, at: Moment): C.Controller {
    C.Next(c, C.Reports(k, report, at.now, at.jitter))
  }

  // The session moves and reports each phase it enters; a failing initialisation request passes
  // through "initializing".
  function Moved(w: World, k: nat, after: S.Session, through: bool, at: Moment): World
    requires k < |w.sessions|
  {
    var heard := if through then Hear(w.controller, k, C.Report(C.Initializing, None, false), at) else w.controller;
    World(if after.phase != w.sessions[k].phase then Hear(heard, k, ReportOf(after, at.exited), at) else heard,
          w.sessions[k := after])
  }

  // Only the barrier closes sessions, and state handlers stay passive.
  predicate OwnStep(step: S.Step) {
    !step.CallClose? && (step.ConnectorResolves? ==> step.reaction.Continue?)
  }

  function SessionStep(w: World, k: nat, step: S.Step, at: Moment): World {
    if k >= |w.sessions| || !OwnStep(step) then w
    else
      var before, after := w.sessions[k], S.Next(w.sessions[k], step);
      Moved(w, k, after, after.phase.Failed? && after.nextEpoch > before.nextEpoch, at)
  }

  type Capacity = n: nat | n > 0 witness 1

  function NewSession(capacity: Capacity, canCancel: bool): S.Session {
    S.Session(capacity, canCancel, S.Idle, None, None, S.NotRequested, 0, None, 1, S.NotStarted, S.NotClosing, false,
              [], true, 0, [], false, [], [])
  }

  // Resuming a replacement creates a session if the controller does.
  function ResumeStep(w: World, generation: nat, draws: C.Draws, made: bool, now: int, capacity: Capacity, canCancel: bool): World {
    var c := C.Next(w.controller, C.Resume(generation, draws, made, now));
    World(c, if c.created > w.controller.created then w.sessions + [NewSession(capacity, canCancel)] else w.sessions)
  }

  // The next link of the barrier, if it has a session and has not settled.
  function Link(w: World): Option<nat> {
    var c := w.controller;
    if c.settled < |c.closes| && c.closes[c.settled].Some? && c.closes[c.settled].value < |w.sessions|
    then c.closes[c.settled] else None
  }

  function CloseCalledStep(w: World, at: Moment): World {
    if Link(w).None? then w else Moved(w, Link(w).value, S.CloseStep(w.sessions[Link(w).value]), false, at)
  }

  // A link without a session settles at once, any other as its session's close does.
  function CloseSettlesStep(w: World): World {
    if Link(w).None? then w.(controller := C.Next(w.controller, C.CloseSettles(true)))
    else
      var close := w.sessions[Link(w).value].close;
      if close.CloseDone? then w.(controller := C.Next(w.controller, C.CloseSettles(close.ok))) else w
  }

  function StartRejectsStep(w: World, k: nat, at: Moment): World {
    if k < |w.sessions| && w.sessions[k].start.StartDone? && w.sessions[k].start.failure.Some? then
      w.(controller := C.Next(w.controller,
        C.StartRejected(k, Some(CodeOf(w.sessions[k].start.failure.value)), at.now, at.jitter)))
    else w
  }

  predicate IsCommand(step: C.Step) {
    step.Connect? || step.Retry? || step.StopReconnect? || step.Disconnect? || step.Dispose? || step.TimerFires?
  }

  datatype Step =
    | Command(command: C.Step)
    | Resume(generation: nat, draws: C.Draws, made: bool, now: int, capacity: Capacity, canCancel: bool)
    | CloseCalled(calledAt: Moment)
    | CloseSettles
    | SessionMoves(k: nat, move: S.Step, movedAt: Moment)
    | StartRejects(rejecting: nat, rejectedAt: Moment)

  function Next(w: World, step: Step): World {
    match step
    case Command(command) => if IsCommand(command) then w.(controller := C.Next(w.controller, command)) else w
    case Resume(generation, draws, made, now, capacity, canCancel) => ResumeStep(w, generation, draws, made, now, capacity, canCancel)
    case CloseCalled(at) => CloseCalledStep(w, at)
    case CloseSettles => CloseSettlesStep(w)
    case SessionMoves(k, move, at) => SessionStep(w, k, move, at)
    case StartRejects(k, at) => StartRejectsStep(w, k, at)
  }

  function Run(w: World, steps: seq<Step>): World
    decreases |steps|
  {
    if steps == [] then w else Run(Next(w, steps[0]), steps[1..])
  }

  // ---- Invariant ------------------------------------------------------------------------------------

  ghost predicate SessionsInv(w: World) {
    && |w.sessions| == w.controller.created
    && (forall k :: 0 <= k < |w.sessions| ==> S.SessionInv(w.sessions[k]))
  }

  // A session's close is called by its link of the barrier only, and counted as fulfilled only then.
  ghost predicate ClosesInv(w: World) {
    && (forall k :: 0 <= k < |w.sessions| && !w.sessions[k].close.NotClosing? ==> Some(k) in w.controller.closes)
    && (forall k <- w.controller.closed :: k < |w.sessions| && w.sessions[k].close == S.CloseDone(true))
  }

  // An attempt is over only if its session has failed.
  ghost predicate EndedInv(w: World) {
    var active := w.controller.active;
    active.Some? && active.value.ended ==>
      active.value.session < |w.sessions| && w.sessions[active.value.session].phase.Failed?
  }

  ghost predicate WorldInv(w: World) {
    && C.ControllerInv(w.controller) && C.OrderlyInv(w.controller)
    && SessionsInv(w) && ClosesInv(w) && EndedInv(w)
  }

  // ---- The session's part ---------------------------------------------------------------------------

  lemma PartsKeepClose(s: S.Session, code: S.ErrorCode, epoch: nat)
    ensures S.FailWith(s, code).close == S.CloseTransport(s).close == S.FlushEarly(s, epoch).close == s.close
  {
  }

  lemma InitializeKeepsClose(s: S.Session, epoch: nat, refusal: Option<S.ErrorCode>)
    ensures S.Initialize(s, epoch, refusal).close == s.close
  {
    PartsKeepClose(s, if refusal.Some? then refusal.value else S.SessionClosed, epoch);
    hide S.FailWith, S.FlushEarly;
  }

  lemma LateConnectorKeepsClose(s: S.Session, transport: S.Transport, refusal: Option<S.ErrorCode>)
    requires !transport.valid || S.Overtaken(s).Some?
    ensures S.ConnectorResolvesStep(s, transport, S.Continue, refusal).close == s.close
  {
    PartsKeepClose(s.(transport := Some(transport)), S.TransportConnectFailed, 0);
    hide S.FailWith, S.CloseTransport, S.Initialize, S.React;
  }

  lemma TimelyConnectorKeepsClose(s: S.Session, transport: S.Transport, refusal: Option<S.ErrorCode>)
    requires transport.valid && S.Overtaken(s).None?
    ensures S.ConnectorResolvesStep(s, transport, S.Continue, refusal).close == s.close
  {
    var obtained := s.(transport := Some(transport));
    InitializeKeepsClose(obtained.(epoch := Some(s.nextEpoch), nextEpoch := s.nextEpoch + 1, phase := S.Initializing), s.nextEpoch, refusal);
    hide S.FailWith, S.CloseTransport, S.Initialize;
  }

  lemma RejectionKeepsClose(s: S.Session)
    ensures S.ConnectorRejectsStep(s).close == s.close
  {
    PartsKeepClose(s, S.TransportConnectFailed, 0);
    hide S.FailWith;
  }

  lemma ReceiveKeepsClose(s: S.Session, json: string)
    ensures S.ReceiveStep(s, json).close == s.close
  {
    PartsKeepClose(s.(delivered := s.delivered + [json]), S.InboundQueueOverflow, 0);
    hide S.FailWith;
  }

  lemma TaskKeepsClose(s: S.Session, parses: bool)
    ensures S.TaskBeginsStep(s, parses).close == s.close
  {
    if s.queue != [] {
      PartsKeepClose(s.(queue := s.queue[1..]), S.InvalidTransportJson, 0);
    }
    hide S.FailWith;
  }

  lemma ClosingKeepsDone(s: S.Session, ok: bool)
    requires s.close.NotClosing? || s.close.CloseDone?
    ensures S.CancelSettlesStep(s, ok) == s && S.CloseContinuesStep(s) == s
  {
  }

  // Of its own accord a session is never closed, and a finished close stays as it is.
  lemma OwnStepsKeepClose(s: S.Session, step: S.Step)
    requires OwnStep(step) && (s.close.NotClosing? || s.close.CloseDone?)
    ensures S.Next(s, step).close == s.close
  {
    match step {
      case ConnectorResolves(transport, _, refusal) =>
        if transport.valid && S.Overtaken(s).None? {
          TimelyConnectorKeepsClose(s, transport, refusal);
        } else {
          LateConnectorKeepsClose(s, transport, refusal);
        }
      case ConnectorRejects => RejectionKeepsClose(s);
      case InitializationFails(code) => PartsKeepClose(s, code, 0);
      case TransportFails(code) => PartsKeepClose(s, code, 0);
      case Receive(json) => ReceiveKeepsClose(s, json);
      case TaskBegins(parses) => TaskKeepsClose(s, parses);
      case TaskEnds(_) => PartsKeepClose(s, S.InboundProcessingFailed, 0);
      case CancelSettles(ok) => ClosingKeepsDone(s, ok);
      case CloseContinues => ClosingKeepsDone(s, true);
      case _ =>
    }
    hide S.ConnectorResolvesStep, S.ConnectorRejectsStep, S.FailWith, S.ReceiveStep, S.TaskBeginsStep,
         S.CancelSettlesStep, S.CloseContinuesStep;
  }

  // A failed session stays failed until it is closed.
  lemma FailedUntilClosed(s: S.Session, step: S.Step)
    requires S.SessionInv(s) && s.close.NotClosing? && OwnStep(step)
    ensures S.SessionInv(S.Next(s, step)) && S.Next(s, step).close.NotClosing?
    ensures s.phase.Failed? ==> S.Next(s, step).phase.Failed?
  {
    S.NextKeepsInv(s, step);
    S.StepFollows(s, step);
    OwnStepsKeepClose(s, step);
    hide S.Next;
  }

  // A start rejects before any close only because the session failed.
  lemma RejectedMeansFailed(s: S.Session)
    requires S.SessionInv(s) && s.close.NotClosing? && s.start.StartDone? && s.start.failure.Some?
    ensures s.phase.Failed?
  {
  }

  // ---- Every step keeps the invariant -------------------------------------------------------------------

  // Whatever is reported of a session that is not over, the controller's invariants survive; of one
  // that is over nothing but its failure is.
  lemma HearingKeepsInv(w: World, k: nat, report: C.Report, at: Moment)
    requires C.ControllerInv(w.controller) && C.OrderlyInv(w.controller) && EndedInv(w) && k < |w.sessions|
    requires w.sessions[k].phase.Failed? && w.controller.active.Some? && w.controller.active.value.session == k ==> report.phase.Failed?
    ensures var c := Hear(w.controller, k, report, at);
            C.ControllerInv(c) && C.OrderlyInv(c)
  {
    hide C.ControllerInv, C.OrderlyInv;
    C.OrderlyStepKeepsInv(w.controller, C.Reports(k, report, at.now, at.jitter));
    hide C.Next;
  }

  // What a report leaves alone, and whose attempt it ends.
  lemma HearingKeepsBarrier(c: C.Controller, k: nat, report: C.Report, at: Moment)
    ensures var c' := Hear(c, k, report, at);
            && c'.created == c.created && c'.closes == c.closes && c'.closed == c.closed
            && (c'.active.Some? ==> c.active.Some? && c'.active.value.session == c.active.value.session)
            && (c'.active.Some? && c'.active.value.ended ==>
                  c.active.value.ended || (report.phase.Failed? && c.active.value.session == k))
  {
    if C.IsCurrent(c, k) && report.phase.Failed? {
      ErrorKeepsBarrier(C.RecordExit(C.Ended(c), report.exited, at.now), c.target, C.ViewOf(report), report.errorCode, at);
    }
    hide C.AttemptError;
  }

  lemma ErrorKeepsBarrier(c: C.Controller, server: Option<C.ServerId>, view: C.View, code: Option<C.ErrorCode>, at: Moment)
    ensures var c' := C.AttemptError(c, server, view, code, at.now, at.jitter);
            c'.created == c.created && c'.closes == c.closes && c'.closed == c.closed && c'.active == c.active
  {
    hide C.Delay;
  }

  ghost predicate Progresses(w: World, k: nat, after: S.Session, through: bool)
    requires k < |w.sessions|
  {
    var before := w.sessions[k];
    && S.SessionInv(after)
    && (!after.close.NotClosing? ==> Some(k) in w.controller.closes)
    && (k in w.controller.closed ==> after.close == S.CloseDone(true))
    && (Some(k) !in w.controller.closes && before.phase.Failed? ==> after.phase.Failed?)
    && (through ==> !before.phase.Failed? && after.phase.Failed?)
  }

  lemma MovedKeepsInv(w: World, k: nat, after: S.Session, through: bool, at: Moment)
    requires WorldInv(w) && k < |w.sessions| && Progresses(w, k, after, through)
    ensures WorldInv(Moved(w, k, after, through, at))
  {
    ActiveIsNotClosed(w.controller, k);
    var opening := C.Report(C.Initializing, None, false);
    var heard := if through then w.(controller := Hear(w.controller, k, opening, at)) else w;
    if through {
      HearingKeepsInv(w, k, opening, at);
      HearingKeepsBarrier(w.controller, k, opening, at);
    }
    var report := ReportOf(after, at.exited);
    if after.phase != w.sessions[k].phase {
      HearingKeepsInv(heard, k, report, at);
      HearingKeepsBarrier(heard.controller, k, report, at);
    }
    hide C.ControllerInv, C.OrderlyInv, S.SessionInv, Hear;
  }

  lemma ActiveIsNotClosed(c: C.Controller, k: nat)
    requires C.ControllerInv(c)
    ensures c.active.Some? && c.active.value.session == k ==> Some(k) !in c.closes && k < c.created
  {
    hide C.IdsInv, C.OneLive, C.ClosedInv, C.ShownInv, C.TimerInv, C.WaitingInv;
  }

  lemma CommandKeepsBarrier(c: C.Controller, command: C.Step)
    requires IsCommand(command)
    ensures var c' := C.Next(c, command);
            && c'.created == c.created && c'.closed == c.closed
            && (forall link <- c.closes :: link in c'.closes)
            && (c'.active.Some? ==> c'.active == c.active)
  {
  }

  lemma CommandKeepsInv(w: World, command: C.Step)
    requires WorldInv(w) && IsCommand(command)
    ensures WorldInv(w.(controller := C.Next(w.controller, command)))
  {
    C.OrderlyStepKeepsInv(w.controller, command);
    CommandKeepsBarrier(w.controller, command);
    hide C.ControllerInv, C.OrderlyInv, C.Next, S.SessionInv;
  }

  // Resuming leaves the barrier alone, and a new session is the active one.
  lemma ResumingKeepsBarrier(c: C.Controller, step: C.Step)
    requires step.Resume?
    ensures var c' := C.Next(c, step);
            && c'.closed == c.closed && c'.closes == c.closes && c.created <= c'.created <= c.created + 1
            && (c'.active.Some? ==> c'.active == c.active || !c'.active.value.ended)
  {
    hide C.FirstUsable;
  }

  lemma NewSessionInv(capacity: Capacity, canCancel: bool)
    ensures S.SessionInv(NewSession(capacity, canCancel)) && NewSession(capacity, canCancel).close.NotClosing?
  {
    S.InitialKeepsInv(NewSession(capacity, canCancel));
    hide S.SessionInv;
  }

  lemma ResumeKeepsInv(w: World, generation: nat, draws: C.Draws, made: bool, now: int, capacity: Capacity, canCancel: bool)
    requires WorldInv(w)
    ensures WorldInv(ResumeStep(w, generation, draws, made, now, capacity, canCancel))
  {
    var step := C.Resume(generation, draws, made, now);
    C.OrderlyStepKeepsInv(w.controller, step);
    ResumingKeepsBarrier(w.controller, step);
    NewSessionInv(capacity, canCancel);
    hide C.ControllerInv, C.OrderlyInv, C.Next, S.SessionInv, NewSession;
  }

  lemma CallingCloses(s: S.Session)
    requires S.SessionInv(s)
    ensures S.SessionInv(S.CloseStep(s)) && (!s.close.NotClosing? ==> S.CloseStep(s) == s)
  {
    S.CloseKeepsInv(s);
    hide S.SessionInv;
  }

  lemma CloseCalledKeepsInv(w: World, at: Moment)
    requires WorldInv(w)
    ensures WorldInv(CloseCalledStep(w, at))
  {
    if Link(w).Some? {
      var k := Link(w).value;
      assert w.controller.closes[w.controller.settled] == Some(k);
      CallingCloses(w.sessions[k]);
      MovedKeepsInv(w, k, S.CloseStep(w.sessions[k]), false, at);
    }
    hide Moved, S.CloseStep, C.ControllerInv, C.OrderlyInv, S.SessionInv;
  }

  lemma CloseSettlesKeepsInv(w: World)
    requires WorldInv(w)
    ensures WorldInv(CloseSettlesStep(w))
  {
    C.OrderlyStepKeepsInv(w.controller, C.CloseSettles(true));
    C.OrderlyStepKeepsInv(w.controller, C.CloseSettles(false));
    LinksAreSessions(w);
    hide C.ControllerInv, C.OrderlyInv, S.SessionInv;
  }

  lemma LinksAreSessions(w: World)
    requires C.ControllerInv(w.controller) && SessionsInv(w)
    ensures var c := w.controller;
            c.settled < |c.closes| && c.closes[c.settled].Some? ==> Link(w) == c.closes[c.settled]
  {
    hide C.IdsInv, C.OneLive, C.ClosedInv, C.ShownInv, C.TimerInv, C.WaitingInv, S.SessionInv;
  }

  lemma SessionStepKeepsInv(w: World, k: nat, step: S.Step, at: Moment)
    requires WorldInv(w)
    ensures WorldInv(SessionStep(w, k, step, at))
  {
    if k < |w.sessions| && OwnStep(step) {
      var before, after := w.sessions[k], S.Next(w.sessions[k], step);
      S.NextKeepsInv(before, step);
      if before.close.NotClosing? {
        FailedUntilClosed(before, step);
      }
      if before.close.CloseDone? {
        OwnStepsKeepClose(before, step);
      }
      if before.phase.Failed? {
        OverNeverOpens(before, step);
      }
      MovedKeepsInv(w, k, after, after.phase.Failed? && after.nextEpoch > before.nextEpoch, at);
    }
    hide Moved, S.Next, C.ControllerInv, C.OrderlyInv, S.SessionInv;
  }

  // A session that is over opens no epoch any more.
  lemma OverNeverOpens(s: S.Session, step: S.Step)
    requires S.SessionInv(s) && s.phase.Failed?
    ensures S.Next(s, step).nextEpoch == s.nextEpoch
  {
  }

  lemma StartRejectsKeepsInv(w: World, k: nat, at: Moment)
    requires WorldInv(w)
    ensures WorldInv(StartRejectsStep(w, k, at))
  {
    if k < |w.sessions| && w.sessions[k].start.StartDone? && w.sessions[k].start.failure.Some? {
      var step := C.StartRejected(k, Some(CodeOf(w.sessions[k].start.failure.value)), at.now, at.jitter);
      C.OrderlyStepKeepsInv(w.controller, step);
      ActiveIsNotClosed(w.controller, k);
      RejectingKeepsBarrier(w.controller, step, at);
      if w.sessions[k].close.NotClosing? {
        RejectedMeansFailed(w.sessions[k]);
      }
    }
    hide C.ControllerInv, C.OrderlyInv, S.SessionInv, C.Next;
  }

  lemma RejectingKeepsBarrier(c: C.Controller, step: C.Step, at: Moment)
    requires step.StartRejected?
    ensures var c' := C.Next(c, step);
            && c'.created == c.created && c'.closes == c.closes && c'.closed == c.closed
            && (c'.active.Some? ==> c.active.Some? && c'.active.value.session == c.active.value.session)
            && (c'.active.Some? && c'.active.value.ended ==> c.active.value.ended || c.active.value.session == step.session)
  {
    if C.IsCurrent(c, step.session) {
      ErrorKeepsBarrier(C.Ended(c), Some(c.active.value.server), C.ErrorView, step.code, Moment(step.rejectedAt, step.jitter, false));
    }
    hide C.AttemptError;
  }

  lemma NextKeepsInv(w: World, step: Step)
    requires WorldInv(w)
    ensures WorldInv(Next(w, step))
  {
    match step {
      case Command(command) => if IsCommand(command) { CommandKeepsInv(w, command); }
      case Resume(generation, draws, made, now, capacity, canCancel) =>
        ResumeKeepsInv(w, generation, draws, made, now, capacity, canCancel);
      case CloseCalled(at) => CloseCalledKeepsInv(w, at);
      case CloseSettles => CloseSettlesKeepsInv(w);
      case SessionMoves(k, move, at) => SessionStepKeepsInv(w, k, move, at);
      case StartRejects(k, at) => StartRejectsKeepsInv(w, k, at);
    }
    hide WorldInv, ResumeStep, CloseCalledStep, CloseSettlesStep, SessionStep, StartRejectsStep, C.Next;
  }

  lemma {:induction false} RunKeepsInv(w: World, steps: seq<Step>)
    requires WorldInv(w)
    ensures WorldInv(Run(w, steps))
    decreases |steps|
  {
    hide WorldInv, Next;
    if steps != [] {
      NextKeepsInv(w, steps[0]);
      RunKeepsInv(Next(w, steps[0]), steps[1..]);
    }
  }

  lemma InitialInv()
    ensures WorldInv(InitialWorld)
  {
    C.InitialKeepsInv();
  }

  // ---- Main results -----------------------------------------------------------------------------------------

  // Nothing of the session is left: its start has settled, its transport is closed, no message waits.
  predicate Released(s: S.Session) {
    && (s.start.StartDone? || s.start.NotStarted?)
    && (s.transport.Some? ==> s.transportClose.Settled?)
    && s.queue == [] && !s.running && s.early == []
  }

  // In every run of the controller with its sessions, all sessions but at most one are released: no
  // two transports are ever open, whatever fails or comes late.
  lemma AtMostOneSessionIsUnreleased(steps: seq<Step>, a: nat, b: nat)
    requires var w := Run(InitialWorld, steps);
             a < |w.sessions| && b < |w.sessions| && !Released(w.sessions[a]) && !Released(w.sessions[b])
    ensures a == b
  {
    InitialInv();
    RunKeepsInv(InitialWorld, steps);
    var w := Run(InitialWorld, steps);
    forall k | 0 <= k < |w.sessions| && w.sessions[k].close == S.CloseDone(true) ensures Released(w.sessions[k]) {
      ClosedIsReleased(w.sessions[k]);
    }
    assert C.OneLive(w.controller.created, w.controller.closed);
    hide C.OrderlyInv, S.SessionInv;
  }

  lemma ClosedIsReleased(s: S.Session)
    requires S.SessionInv(s) && s.close == S.CloseDone(true)
    ensures Released(s)
  {
  }

  // The controller never has the close of its active session called, nor announces attempts of a
  // session that is gone: with real sessions the countdown is truthful in every run.
  lemma CountdownIsTruthful(steps: seq<Step>)
    ensures var w := Run(InitialWorld, steps);
            var c := w.controller;
            && C.CountdownInv(c)
            && c.shortExits <= C.MAX_SHORT_LOCAL_PROCESS_EXITS
            && (c.shortExits == C.MAX_SHORT_LOCAL_PROCESS_EXITS ==> c.timer.None? && !C.Replacing(c))
            && (c.active.Some? ==> c.active.value.session < |w.sessions| && w.sessions[c.active.value.session].close.NotClosing?)
            && (c.timer.Some? ==> c.active.Some? && w.sessions[c.active.value.session].phase.Failed?)
  {
    InitialInv();
    RunKeepsInv(InitialWorld, steps);
    var w := Run(InitialWorld, steps);
    if w.controller.active.Some? {
      ActiveIsNotClosed(w.controller, w.controller.active.value.session);
      ActiveIsASession(w.controller);
    }
    hide C.BarrierInv, C.IdsInv, S.SessionInv;
  }

  lemma ActiveIsASession(c: C.Controller)
    requires C.ControllerInv(c) && c.active.Some?
    ensures c.active.value.session < c.created
  {
    hide C.IdsInv, C.OneLive, C.ClosedInv, C.ShownInv, C.TimerInv, C.WaitingInv;
  }

  // ---- From the sessions to the user ----------------------------------------------------------------------------

  lemma ReachedWorld(steps: seq<Step>)
    ensures var w := Run(InitialWorld, steps);
            && C.ControllerInv(w.controller) && C.OrderlyInv(w.controller)
            && |w.sessions| == w.controller.created
            && (forall k :: 0 <= k < |w.sessions| ==> S.SessionInv(w.sessions[k]))
  {
    InitialInv();
    RunKeepsInv(InitialWorld, steps);
    hide C.ControllerInv, C.OrderlyInv, S.SessionInv, ClosesInv, EndedInv;
  }

  lemma FailedTransportSays(s: S.Session, code: S.ErrorCode)
    requires S.SessionInv(s) && S.Listening(s) && !S.IsOver(s.phase)
    ensures var s' := S.Next(s, S.TransportFails(code));
            s'.phase == S.Failed && s'.failureCode == Some(code) && s'.nextEpoch == s.nextEpoch
  {
    hide S.OrderInv, S.CountInv;
  }

  // In every run of the controller with its sessions: when the transport of the current session fails, the
  // controller announces and schedules another attempt if and only if the transport was lost or could
  // not be opened, the server was ready before, nobody stopped it, and it is not the third short exit.
  lemma FailedTransportIsRetriedIff(steps: seq<Step>, k: nat, code: S.ErrorCode, at: Moment)
    requires var w := Run(InitialWorld, steps);
             && C.Attached(w.controller, k) && !C.Announced(w.controller)
             && k < |w.sessions| && S.Listening(w.sessions[k]) && !S.IsOver(w.sessions[k].phase)
    ensures var w := Run(InitialWorld, steps);
            var c, w' := w.controller, Next(w, SessionMoves(k, S.TransportFails(code), at));
            && |w'.sessions| == |w.sessions| && w'.sessions[k].phase == S.Failed && w'.sessions[k].failureCode == Some(code)
            && (if code in {S.TransportClosed, S.TransportFailure, S.TransportConnectFailed}
                   && c.hasReachedReady && !c.reconnectStopped && !C.ThirdShortExit(c, at.exited, at.now)
                then C.Retries(c, w'.controller, at.now, at.jitter) else C.GivesUp(c, w'.controller))
  {
    hide Run, C.ControllerInv, C.OrderlyInv, S.SessionInv, C.Next, S.Next, C.Retries, C.GivesUp, C.StaysOpen, C.ThirdShortExit,
         C.Announced, C.Attached, S.Listening, S.IsOver;
    var w := Run(InitialWorld, steps);
    ReachedWorld(steps);
    FailedTransportSays(w.sessions[k], code);
    NotOverIsNotFailed(w.sessions[k].phase);
    C.FailureOutcome(w.controller, k, Some(CodeOf(code)), at.exited, at.now, at.jitter);
  }

  lemma NotOverIsNotFailed(phase: S.Phase)
    requires !S.IsOver(phase)
    ensures phase != S.Failed
  {
  }

  lemma InitializedSays(s: S.Session)
    requires S.SessionInv(s) && s.phase == S.Initializing
    ensures var s' := S.Next(s, S.Initialized); s'.phase == S.Ready && s'.nextEpoch == s.nextEpoch
  {
    hide S.OrderInv, S.CountInv;
  }

  // When the current session's initialisation succeeds, the session is offered as ready, and the count of
  // consecutive failures starts over.
  lemma InitializedSessionIsOffered(steps: seq<Step>, k: nat, at: Moment)
    requires var w := Run(InitialWorld, steps);
             C.Attached(w.controller, k) && k < |w.sessions| && w.sessions[k].phase == S.Initializing
    ensures var w := Run(InitialWorld, steps);
            var w' := Next(w, SessionMoves(k, S.Initialized, at));
            w'.controller == w.controller.(hasReachedReady := true, reconnectAttempt := 0, reconnectStopped := false, timer := None,
                                           shown := C.Shown(w.controller.target, C.ReadyView, None, Some(k), Some(k)))
  {
    hide Run, C.ControllerInv, C.OrderlyInv, S.SessionInv, C.Next, S.Next, C.Attached;
    var w := Run(InitialWorld, steps);
    ReachedWorld(steps);
    InitializedSays(w.sessions[k]);
    C.ReadySessionIsOffered(w.controller, k, None, at.now, at.jitter);
  }
}
