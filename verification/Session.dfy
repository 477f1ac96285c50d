/**
  One app-server session: connecting, initialising, the bounded inbound queue, failing and closing.
  One step is one synchronous segment. State handlers run inside a transition; the one whose effect
  the source checks for, at "initializing", may close or fail the session.
  Source: src/appServer/session.ts.
 */
module Session {
  import opened Prelude

  datatype Phase = Idle | Connecting | Initializing | Ready | Closing | Closed | Failed

  datatype ErrorCode =
    | InvalidState | SessionClosed | TransportConnectFailed | TransportConnectCancelFailed | TransportClosed
    | TransportFailure | InvalidTransportJson | InboundQueueOverflow | InboundProcessingFailed
    | InitializationRejected | InvalidInitializationResponse | InitializationWriteFailed
    | InitializationInterrupted | InitializationFailed

  // What the connector delivered; it is a transport only if it can be written to and closed.
  datatype Transport = Transport(valid: bool)

  datatype ClosePromise = NotRequested | Requested | Settled

  // Where the asynchronous start stands, with the error it rejects with, if any.
  datatype Start =
    | NotStarted
    | Scheduled
    | AwaitingConnector
    | AwaitingLateClose(code: ErrorCode)
    | AwaitingInitialization(epoch: nat)
    | StartDone(failure: Option<ErrorCode>)

  // Where the asynchronous close stands; `transportKnown` if there was a transport to wait for.
  datatype Close =
    | NotClosing
    | AwaitingCancel
    | AwaitingStart
    | AwaitingTransport(transportKnown: bool)
    | AwaitingInbound
    | CloseDone(ok: bool)

  // A link of the inbound chain that has not begun.
  datatype Task = Task(epoch: nat, json: string)

  datatype Session = Session(
    capacity: nat, canCancel: bool,
    phase: Phase, failureCode: Option<ErrorCode>,
    transport: Option<Transport>, transportClose: ClosePromise, closeCalls: nat,
    epoch: Option<nat>, nextEpoch: nat,
    start: Start, close: Close, cancelFailed: bool,
    early: seq<string>, buffering: bool, pendingCount: int,
    queue: seq<Task>, running: bool,
    delivered: seq<string>,   // everything the transport delivered
    handed: seq<string>)      // everything given to the router

  predicate IsInitial(s: Session) {
    && s.capacity > 0
    && s == Session(s.capacity, s.canCancel, Idle, None, None, NotRequested, 0, None, 1, NotStarted, NotClosing, false,
                    [], true, 0, [], false, [], [])
  }

  // What the state handler does when it is told "initializing".
  datatype Reaction = Continue | CallsClose | Fails(code: ErrorCode)

  // ---- Parts of steps ---------------------------------------------------------------------------------

  predicate IsOver(phase: Phase) {
    phase.Closing? || phase.Closed? || phase.Failed?
  }

  predicate IsClosingOrClosed(phase: Phase) {
    phase.Closing? || phase.Closed?
  }

  function CloseTransport(s: Session): Session {
    if s.transport.None? || !s.transportClose.NotRequested? then s
    else s.(transportClose := Requested, closeCalls := s.closeCalls + 1)
  }

  function DiscardEarly(s: Session): Session {
    s.(pendingCount := s.pendingCount - |s.early|, early := [])
  }

  function FailWith(s: Session, code: ErrorCode): Session {
    if IsOver(s.phase) then s
    else CloseTransport(DiscardEarly(s.(failureCode := Some(code), epoch := None, phase := Failed)))
  }

  function EnqueueInbound(s: Session, epoch: nat, json: string): Session {
    s.(queue := s.queue + [Task(epoch, json)])
  }

  function Tasks(epoch: nat, messages: seq<string>): (r: seq<Task>)
    ensures |r| == |messages|
    ensures forall i :: 0 <= i < |r| ==> r[i] == Task(epoch, messages[i])
  {
    seq(|messages|, i requires 0 <= i < |messages| => Task(epoch, messages[i]))
  }

  function FlushEarly(s: Session, epoch: nat): Session {
    s.(early := [], buffering := false, queue := s.queue + Tasks(epoch, s.early))
  }

  // ---- Steps ----------------------------------------------------------------------------------------------

  function StartStep(s: Session): Session {
    if !s.phase.Idle? then s else s.(start := Scheduled, phase := Connecting)
  }

  function BeginStep(s: Session): Session {
    if !s.start.Scheduled? then s
    else if IsClosingOrClosed(s.phase) then s.(start := StartDone(Some(SessionClosed)))
    else s.(start := AwaitingConnector)
  }

  // The error a start that was overtaken rejects with.
  function Overtaken(s: Session): Option<ErrorCode> {
    if IsClosingOrClosed(s.phase) then Some(SessionClosed) else s.failureCode
  }

  function ConnectorRejectsStep(s: Session): Session {
    if !s.start.AwaitingConnector? then s
    else if Overtaken(s).Some? then s.(start := StartDone(Overtaken(s)))
    else FailWith(s, TransportConnectFailed).(start := StartDone(Some(TransportConnectFailed)))
  }

  function React(s: Session, reaction: Reaction): Session {
    match reaction
    case Continue => s
    case CallsClose => CloseStep(s)
    case Fails(code) => FailWith(s, code)
  }

  // The connector delivered; `refusal` if sending the initialisation request throws.
  function ConnectorResolvesStep(s: Session, transport: Transport, reaction: Reaction, refusal: Option<ErrorCode>): Session {
    if !s.start.AwaitingConnector? then s
    else
      var obtained := s.(transport := Some(transport));
      if !transport.valid then
        FailWith(obtained, TransportConnectFailed).(start := StartDone(Some(TransportConnectFailed)))
      else if Overtaken(s).Some? then
        CloseTransport(obtained).(start := AwaitingLateClose(Overtaken(s).value))
      else
        var epoch := s.nextEpoch;
        Initialize(React(obtained.(epoch := Some(epoch), nextEpoch := epoch + 1, phase := Initializing), reaction),
                   epoch, refusal)
  }

  // Sends the initialisation request unless the session is over by now.
  function Initialize(s: Session, epoch: nat, refusal: Option<ErrorCode>): Session {
    if Overtaken(s).Some? then s.(start := StartDone(Overtaken(s)))
    else if refusal.Some? then FailWith(s, refusal.value).(start := StartDone(refusal))
    else FlushEarly(s, epoch).(start := AwaitingInitialization(epoch))
  }

  function LateCloseDoneStep(s: Session): Session {
    if s.start.AwaitingLateClose? && s.transportClose.Settled? then s.(start := StartDone(Some(s.start.code))) else s
  }

  function InitializedStep(s: Session): Session {
    if !s.start.AwaitingInitialization? then s
    else if !s.phase.Initializing? || s.epoch != Some(s.start.epoch) then
      s.(start := StartDone(Some(if s.failureCode.Some? then s.failureCode.value else SessionClosed)))
    else s.(phase := Ready, start := StartDone(None))
  }

  function InitializationFailsStep(s: Session, code: ErrorCode): Session {
    if !s.start.AwaitingInitialization? then s
    else if Overtaken(s).Some? then s.(start := StartDone(Overtaken(s)))
    else FailWith(s, code).(start := StartDone(Some(code)))
  }

  function CloseStep(s: Session): Session {
    if !s.close.NotClosing? then s
    else if s.phase.Idle? then s.(phase := Closed, close := CloseDone(true))
    else DiscardEarly(s.(phase := Closing, epoch := None,
                         close := if s.transport.None? && s.canCancel then AwaitingCancel else AwaitingStart))
  }

  function AfterStart(s: Session): Session {
    CloseTransport(s).(close := AwaitingTransport(s.transport.Some?))
  }

  function CancelSettlesStep(s: Session, ok: bool): Session {
    if !s.close.AwaitingCancel? then s
    else if ok then s.(close := AwaitingStart)
    else AfterStart(s.(cancelFailed := true))
  }

  // The close continues as soon as what it waits for has settled.
  function CloseContinuesStep(s: Session): Session {
    match s.close
    case AwaitingStart => if s.start.StartDone? then AfterStart(s) else s
    case AwaitingTransport(known) => if known && !s.transportClose.Settled? then s else s.(close := AwaitingInbound)
    case AwaitingInbound => if s.queue != [] || s.running then s else s.(phase := Closed, close := CloseDone(!s.cancelFailed))
    case _ => s
  }

  function TransportCloseSettlesStep(s: Session): Session {
    if s.transportClose.Requested? then s.(transportClose := Settled) else s
  }

  // The connector was called, so the transport's handlers may be called.
  predicate HandlersKnown(s: Session) {
    !s.start.NotStarted? && !s.start.Scheduled?
  }

  function ReceiveStep(s: Session, json: string): Session {
    if !HandlersKnown(s) then s
    else
      var heard := s.(delivered := s.delivered + [json]);
      if IsOver(s.phase) then heard
      else if s.pendingCount >= s.capacity then FailWith(heard, InboundQueueOverflow)
      else
        var counted := heard.(pendingCount := s.pendingCount + 1);
        if s.buffering || s.epoch.None? then counted.(early := s.early + [json])
        else EnqueueInbound(counted, s.epoch.value, json)
  }

  function TransportFailsStep(s: Session, code: ErrorCode): Session {
    if HandlersKnown(s) then FailWith(s, code) else s
  }

  // The next link of the inbound chain begins; `parses` unless the message is not JSON.
  function TaskBeginsStep(s: Session, parses: bool): Session {
    if s.running || s.queue == [] then s
    else
      var task := s.queue[0];
      var taken := s.(queue := s.queue[1..]);
      if s.epoch != Some(task.epoch) then taken.(pendingCount := s.pendingCount - 1)
      else if !parses then
        var failed := FailWith(taken, InvalidTransportJson);
        failed.(pendingCount := failed.pendingCount - 1)
      else taken.(running := true, handed := s.handed + [task.json])
  }

  function TaskEndsStep(s: Session, ok: bool): Session {
    if !s.running then s
    else
      var ended := if ok then s else FailWith(s, InboundProcessingFailed);
      ended.(running := false, pendingCount := ended.pendingCount - 1)
  }

  datatype Step =
    | CallStart
    | Begin
    | ConnectorResolves(transport: Transport, reaction: Reaction, refusal: Option<ErrorCode>)
    | ConnectorRejects
    | LateCloseDone
    | Initialized
    | InitializationFails(code: ErrorCode)
    | CallClose
    | CancelSettles(ok: bool)
    | CloseContinues
    | TransportCloseSettles
    | Receive(json: string)
    | TransportFails(reason: ErrorCode)
    | TaskBegins(parses: bool)
    | TaskEnds(processed: bool)

  function Next(s: Session, step: Step): Session {
    match step
    case CallStart => StartStep(s)
    case Begin => BeginStep(s)
    case ConnectorResolves(transport, reaction, refusal) => ConnectorResolvesStep(s, transport, reaction, refusal)
    case ConnectorRejects => ConnectorRejectsStep(s)
    case LateCloseDone => LateCloseDoneStep(s)
    case Initialized => InitializedStep(s)
    case InitializationFails(code) => InitializationFailsStep(s, code)
    case CallClose => CloseStep(s)
    case CancelSettles(ok) => CancelSettlesStep(s, ok)
    case CloseContinues => CloseContinuesStep(s)
    case TransportCloseSettles => TransportCloseSettlesStep(s)
    case Receive(json) => ReceiveStep(s, json)
    case TransportFails(code) => TransportFailsStep(s, code)
    case TaskBegins(parses) => TaskBeginsStep(s, parses)
    case TaskEnds(ok) => TaskEndsStep(s, ok)
  }

  function Run(s: Session, steps: seq<Step>): Session
    decreases |steps|
  {
    if steps == [] then s else Run(Next(s, steps[0]), steps[1..])
  }

  // ---- Invariant ----------------------------------------------------------------------------------------

  // The phase, the start and the close belong together.
  ghost predicate PhaseInv(s: Session) {
    && (s.epoch.Some? <==> s.phase.Initializing? || s.phase.Ready?)
    && (s.failureCode.Some? ==> IsOver(s.phase))
    && (s.phase.Failed? ==> s.failureCode.Some?)
    && (s.close.NotClosing? <==> !IsClosingOrClosed(s.phase))
    && (s.close.CloseDone? <==> s.phase.Closed?)
    && (s.phase.Idle? ==> s.start.NotStarted?)
    && (s.start.NotStarted? ==> s.phase.Idle? || s.phase.Closed?)
    && (s.phase.Connecting? ==> s.start.Scheduled? || s.start.AwaitingConnector?)
    && (s.phase.Initializing? ==> s.start == AwaitingInitialization(s.epoch.value))
    && (s.phase.Ready? ==> s.start == StartDone(None))
    && (s.start == StartDone(None) ==> s.transport == Some(Transport(true)))
  }

  // A start that rejects names the recorded failure unless it was closed or got no real transport.
  ghost predicate StartInv(s: Session) {
    && (s.start.StartDone? && s.start.failure.Some? ==>
          s.start.failure == Some(SessionClosed) || s.start.failure == s.failureCode || s.transport == Some(Transport(false)))
    && (s.start.AwaitingLateClose? ==> s.start.code == SessionClosed || s.failureCode == Some(s.start.code))
  }

  ghost predicate CloseInv(s: Session) {
    && (s.close.NotClosing? || s.close.AwaitingCancel? || s.close.AwaitingStart? ==> !s.cancelFailed)
    && (s.close.CloseDone? ==> s.close.ok == !s.cancelFailed)
    && (s.close.AwaitingTransport? || s.close.AwaitingInbound? || s.close.CloseDone? ==>
          s.cancelFailed || s.start.StartDone? || s.start.NotStarted?)
    && (s.close.AwaitingTransport? && !s.cancelFailed ==> s.close.transportKnown == s.transport.Some?)
    && (s.close.AwaitingInbound? || s.close.CloseDone? ==>
          s.cancelFailed || s.transport.None? || s.transportClose.Settled?)
  }

  // A transport is closed at most once, not before the session is over, and then surely.
  ghost predicate TransportInv(s: Session) {
    && s.closeCalls == (if s.transportClose.NotRequested? then 0 else 1)
    && (!s.transportClose.NotRequested? ==> s.transport.Some? && IsOver(s.phase))
    && (s.start.NotStarted? || s.start.Scheduled? || s.start.AwaitingConnector? ==> s.transport.None?)
    && (s.start.AwaitingInitialization? ==> s.transport == Some(Transport(true)))
    && (s.start.AwaitingLateClose? ==> IsOver(s.phase) && s.transport == Some(Transport(true)))
    && (s.transport == Some(Transport(true)) && s.closeCalls == 0 ==>
          !s.phase.Failed? && !s.phase.Closed? && !s.start.AwaitingLateClose? && (s.phase.Closing? ==> s.close.AwaitingStart?))
    && (s.close == AwaitingTransport(true) ==> s.transport.Some? && !s.transportClose.NotRequested?)
  }

  function Messages(queue: seq<Task>): (r: seq<string>)
    ensures |r| == |queue|
    ensures forall i :: 0 <= i < |r| ==> r[i] == queue[i].json
  {
    seq(|queue|, i requires 0 <= i < |queue| => queue[i].json)
  }

  ghost predicate IsPrefix(part: seq<string>, whole: seq<string>) {
    |part| <= |whole| && whole[..|part|] == part
  }

  // Everything delivered is handed over, queued or still buffered, in this order.
  ghost predicate Pipeline(handed: seq<string>, queue: seq<Task>, early: seq<string>, delivered: seq<string>) {
    delivered == handed + Messages(queue) + early
  }

  ghost predicate AllOf(queue: seq<Task>, epoch: nat) {
    forall task <- queue :: task.epoch == epoch
  }

  ghost predicate CountInv(s: Session) {
    && s.pendingCount == |s.early| + |s.queue| + (if s.running then 1 else 0)
    && s.pendingCount <= s.capacity
  }

  ghost predicate OrderInv(s: Session) {
    && IsPrefix(s.handed, s.delivered)
    && (IsOver(s.phase) || !HandlersKnown(s) ==> s.early == [])
    && (s.phase.Idle? || s.phase.Connecting? ==> s.buffering)
    && (s.phase.Idle? || s.phase.Connecting? || s.phase.Closed? ==> s.queue == [] && !s.running)
    && (s.phase.Initializing? || s.phase.Ready? ==> !s.buffering && s.early == [])
    && (!IsOver(s.phase) ==> Pipeline(s.handed, s.queue, s.early, s.delivered))
    && (s.epoch.Some? ==> AllOf(s.queue, s.epoch.value))
  }

  ghost predicate SessionInv(s: Session) {
    PhaseInv(s) && StartInv(s) && CloseInv(s) && TransportInv(s) && CountInv(s) && OrderInv(s)
  }

  // ---- Every step keeps the invariant -------------------------------------------------------------------

  lemma PipelineIsPrefix(handed: seq<string>, queue: seq<Task>, early: seq<string>, delivered: seq<string>)
    requires Pipeline(handed, queue, early, delivered)
    ensures IsPrefix(handed, delivered)
  {
  }

  lemma PrefixGrows(part: seq<string>, whole: seq<string>, more: string)
    requires IsPrefix(part, whole)
    ensures IsPrefix(part, whole + [more])
  {
    assert (whole + [more])[..|part|] == whole[..|part|];
  }

  lemma FlushKeepsPipeline(handed: seq<string>, early: seq<string>, delivered: seq<string>, epoch: nat)
    requires Pipeline(handed, [], early, delivered)
    ensures Pipeline(handed, [] + Tasks(epoch, early), [], delivered) && AllOf([] + Tasks(epoch, early), epoch)
  {
    var tasks := Tasks(epoch, early);
    assert [] + tasks == tasks && Messages([]) == [] && Messages(tasks) == early;
    assert handed + [] == handed && handed + early + [] == handed + early;
  }

  lemma ReceiveKeepsPipeline(handed: seq<string>, queue: seq<Task>, early: seq<string>, delivered: seq<string>, json: string, epoch: nat)
    requires Pipeline(handed, queue, early, delivered)
    ensures Pipeline(handed, queue, early + [json], delivered + [json])
    ensures early == [] ==> Pipeline(handed, queue + [Task(epoch, json)], early, delivered + [json])
    ensures AllOf(queue, epoch) ==> AllOf(queue + [Task(epoch, json)], epoch)
  {
    assert Messages(queue + [Task(epoch, json)]) == Messages(queue) + [json];
    assert handed + Messages(queue) + (early + [json]) == handed + Messages(queue) + early + [json];
    assert handed + (Messages(queue) + [json]) == handed + Messages(queue) + [json];
  }

  lemma TakeKeepsPipeline(handed: seq<string>, queue: seq<Task>, early: seq<string>, delivered: seq<string>, epoch: nat)
    requires Pipeline(handed, queue, early, delivered) && queue != [] && AllOf(queue, epoch)
    ensures Pipeline(handed + [queue[0].json], queue[1..], early, delivered) && AllOf(queue[1..], epoch) && queue[0].epoch == epoch
  {
    var rest := Messages(queue[1..]);
    assert Messages(queue) == [queue[0].json] + rest;
    assert handed + ([queue[0].json] + rest) == handed + [queue[0].json] + rest;
    assert forall task <- queue[1..] :: task in queue;
  }

  lemma FailKeepsInv(s: Session, code: ErrorCode)
    requires SessionInv(s) && HandlersKnown(s)
    ensures SessionInv(FailWith(s, code))
  {
    hide Pipeline, AllOf, IsPrefix;
  }

  lemma SettleStart(s: Session, code: ErrorCode)
    requires SessionInv(s) && HandlersKnown(s) && IsOver(s.phase) && !(s.start.AwaitingLateClose? && s.transportClose.NotRequested?)
    requires code == SessionClosed || s.failureCode == Some(code)
    ensures SessionInv(s.(start := StartDone(Some(code))))
  {
    hide Pipeline, AllOf, IsPrefix;
  }

  lemma StartKeepsInv(s: Session)
    requires SessionInv(s)
    ensures SessionInv(StartStep(s)) && SessionInv(BeginStep(s))
  {
    hide Pipeline, AllOf, IsPrefix;
  }

  lemma ConnectorRejectsKeepsInv(s: Session)
    requires SessionInv(s)
    ensures SessionInv(ConnectorRejectsStep(s))
  {
    if s.start.AwaitingConnector? {
      FailKeepsInv(s, TransportConnectFailed);
      var failed := FailWith(s, TransportConnectFailed);
      SettleStart(failed, if Overtaken(s).Some? then Overtaken(s).value else TransportConnectFailed);
    }
    hide Pipeline, AllOf, IsPrefix, SessionInv, FailWith;
  }

  lemma ObtainInvalid(s: Session)
    requires SessionInv(s) && s.start.AwaitingConnector?
    ensures SessionInv(FailWith(s.(transport := Some(Transport(false))), TransportConnectFailed).(start := StartDone(Some(TransportConnectFailed))))
  {
    hide Pipeline, AllOf, IsPrefix;
  }

  lemma ObtainLate(s: Session, code: ErrorCode)
    requires SessionInv(s) && s.start.AwaitingConnector? && IsOver(s.phase)
    requires code == SessionClosed || s.failureCode == Some(code)
    ensures SessionInv(CloseTransport(s.(transport := Some(Transport(true)))).(start := AwaitingLateClose(code)))
  {
    hide Pipeline, AllOf, IsPrefix;
  }

  // The session after it has become "initializing", before the early messages are flushed.
  function Opened(s: Session): Session {
    s.(transport := Some(Transport(true)), epoch := Some(s.nextEpoch), nextEpoch := s.nextEpoch + 1, phase := Initializing)
  }

  lemma OpenAndFlush(s: Session)
    requires SessionInv(s) && s.start.AwaitingConnector? && !IsOver(s.phase)
    ensures SessionInv(FlushEarly(Opened(s), s.nextEpoch).(start := AwaitingInitialization(s.nextEpoch)))
  {
    FlushKeepsPipeline(s.handed, s.early, s.delivered, s.nextEpoch);
    hide Pipeline, AllOf, IsPrefix;
  }

  lemma OpenAndFail(s: Session, code: ErrorCode)
    requires SessionInv(s) && s.start.AwaitingConnector? && !IsOver(s.phase)
    ensures SessionInv(FailWith(Opened(s), code).(start := StartDone(Some(code))))
  {
    hide Pipeline, AllOf, IsPrefix;
  }

  lemma OpenAndClose(s: Session)
    requires SessionInv(s) && s.start.AwaitingConnector? && !IsOver(s.phase)
    ensures SessionInv(CloseStep(Opened(s)).(start := StartDone(Some(SessionClosed))))
  {
    hide Pipeline, AllOf, IsPrefix;
  }

  lemma ConnectorResolvesKeepsInv(s: Session, transport: Transport, reaction: Reaction, refusal: Option<ErrorCode>)
    requires SessionInv(s)
    ensures SessionInv(ConnectorResolvesStep(s, transport, reaction, refusal))
  {
    if s.start.AwaitingConnector? {
      if !transport.valid {
        ObtainInvalid(s);
      } else if Overtaken(s).Some? {
        ObtainLate(s, Overtaken(s).value);
      } else {
        OpenAndFlush(s);
        OpenAndClose(s);
        if reaction.Fails? {
          OpenAndFail(s, reaction.code);
        }
        if refusal.Some? {
          OpenAndFail(s, refusal.value);
        }
      }
    }
    hide Pipeline, AllOf, IsPrefix, OrderInv, CountInv, TransportInv, FlushEarly;
  }

  lemma InitializedKeepsInv(s: Session)
    requires SessionInv(s)
    ensures SessionInv(InitializedStep(s))
  {
    hide Pipeline, AllOf, IsPrefix;
  }

  lemma TransportClosedKeepsInv(s: Session)
    requires SessionInv(s)
    ensures SessionInv(LateCloseDoneStep(s)) && SessionInv(TransportCloseSettlesStep(s))
  {
    hide Pipeline, AllOf, IsPrefix;
  }

  lemma AfterStartKeepsInv(s: Session)
    requires SessionInv(s) && s.phase.Closing?
    requires s.close.AwaitingCancel? || (s.close.AwaitingStart? && s.start.StartDone?)
    ensures SessionInv(AfterStart(s.(cancelFailed := s.close.AwaitingCancel?)))
  {
    hide Pipeline, AllOf, IsPrefix;
  }

  lemma InitializationFailsKeepsInv(s: Session, code: ErrorCode)
    requires SessionInv(s)
    ensures SessionInv(InitializationFailsStep(s, code))
  {
    if s.start.AwaitingInitialization? {
      FailKeepsInv(s, code);
      SettleStart(FailWith(s, code), if Overtaken(s).Some? then Overtaken(s).value else code);
    }
    hide Pipeline, AllOf, IsPrefix, SessionInv, FailWith;
  }

  lemma CloseKeepsInv(s: Session)
    requires SessionInv(s)
    ensures SessionInv(CloseStep(s))
  {
    hide Pipeline, AllOf, IsPrefix;
  }

  lemma CancelSettlesKeepsInv(s: Session, ok: bool)
    requires SessionInv(s)
    ensures SessionInv(CancelSettlesStep(s, ok))
  {
    if s.close.AwaitingCancel? {
      AfterStartKeepsInv(s);
    }
    hide Pipeline, AllOf, IsPrefix, AfterStart;
  }

  lemma CloseContinuesKeepsInv(s: Session)
    requires SessionInv(s)
    ensures SessionInv(CloseContinuesStep(s))
  {
    if s.close.AwaitingStart? && s.start.StartDone? {
      AfterStartKeepsInv(s);
      assert s.(cancelFailed := false) == s;
    }
    hide Pipeline, AllOf, IsPrefix, AfterStart;
  }

  lemma ReceiveKeepsInv(s: Session, json: string)
    requires SessionInv(s)
    ensures SessionInv(ReceiveStep(s, json))
  {
    PrefixGrows(s.handed, s.delivered, json);
    if !IsOver(s.phase) {
      ReceiveKeepsPipeline(s.handed, s.queue, s.early, s.delivered, json, if s.epoch.Some? then s.epoch.value else 0);
    }
    hide Pipeline, AllOf, IsPrefix;
  }

  lemma TransportFailsKeepsInv(s: Session, code: ErrorCode)
    requires SessionInv(s)
    ensures SessionInv(TransportFailsStep(s, code))
  {
    if HandlersKnown(s) {
      FailKeepsInv(s, code);
    }
  }

  lemma TaskBeginsKeepsInv(s: Session, parses: bool)
    requires SessionInv(s)
    ensures SessionInv(TaskBeginsStep(s, parses))
  {
    if s.queue != [] && s.epoch.Some? {
      TakeKeepsPipeline(s.handed, s.queue, s.early, s.delivered, s.epoch.value);
      PipelineIsPrefix(s.handed + [s.queue[0].json], s.queue[1..], s.early, s.delivered);
    }
    hide Pipeline, AllOf, IsPrefix;
  }

  lemma TaskEndsKeepsInv(s: Session, ok: bool)
    requires SessionInv(s)
    ensures SessionInv(TaskEndsStep(s, ok))
  {
    hide Pipeline, AllOf, IsPrefix;
  }

  lemma {:induction false} NextKeepsInv(s: Session, step: Step)
    requires SessionInv(s)
    ensures SessionInv(Next(s, step))
  {
    match step {
      case CallStart => StartKeepsInv(s);
      case Begin => StartKeepsInv(s);
      case ConnectorResolves(transport, reaction, refusal) => ConnectorResolvesKeepsInv(s, transport, reaction, refusal);
      case ConnectorRejects => ConnectorRejectsKeepsInv(s);
      case LateCloseDone => TransportClosedKeepsInv(s);
      case Initialized => InitializedKeepsInv(s);
      case InitializationFails(code) => InitializationFailsKeepsInv(s, code);
      case CallClose => CloseKeepsInv(s);
      case CancelSettles(ok) => CancelSettlesKeepsInv(s, ok);
      case CloseContinues => CloseContinuesKeepsInv(s);
      case TransportCloseSettles => TransportClosedKeepsInv(s);
      case Receive(json) => ReceiveKeepsInv(s, json);
      case TransportFails(code) => TransportFailsKeepsInv(s, code);
      case TaskBegins(parses) => TaskBeginsKeepsInv(s, parses);
      case TaskEnds(ok) => TaskEndsKeepsInv(s, ok);
    }
    hide SessionInv, StartStep, BeginStep, ConnectorResolvesStep, ConnectorRejectsStep, LateCloseDoneStep, InitializedStep,
         InitializationFailsStep, CloseStep, CancelSettlesStep, CloseContinuesStep, TransportCloseSettlesStep, ReceiveStep,
         TransportFailsStep, TaskBeginsStep, TaskEndsStep;
  }

  lemma {:induction false} RunKeepsInv(s: Session, steps: seq<Step>)
    requires SessionInv(s)
    ensures SessionInv(Run(s, steps))
    decreases |steps|
  {
    hide SessionInv, Next;
    if steps != [] {
      NextKeepsInv(s, steps[0]);
      RunKeepsInv(Next(s, steps[0]), steps[1..]);
    }
  }

  lemma InitialKeepsInv(s: Session)
    requires IsInitial(s)
    ensures SessionInv(s)
  {
    assert Messages([]) == [];
  }

  // ---- Main results ---------------------------------------------------------------------------------------

  // The router sees an in-order prefix of what the transport delivered, and all of it in a healthy
  // session once nothing is buffered or queued.
  lemma HandedIsAPrefixOfDelivered(initial: Session, steps: seq<Step>)
    requires IsInitial(initial)
    ensures var s := Run(initial, steps);
            && IsPrefix(s.handed, s.delivered)
            && (!IsOver(s.phase) && s.early == [] && s.queue == [] ==> s.handed == s.delivered)
  {
    InitialKeepsInv(initial);
    RunKeepsInv(initial, steps);
    assert Messages([]) == [];
    hide CountInv, TransportInv, CloseInv, StartInv;
  }

  lemma InboundCountIsExact(initial: Session, steps: seq<Step>)
    requires IsInitial(initial)
    ensures var s := Run(initial, steps);
            && s.pendingCount == |s.early| + |s.queue| + (if s.running then 1 else 0)
            && 0 <= s.pendingCount <= s.capacity
            && (s.phase.Closed? ==> s.pendingCount == 0)
  {
    InitialKeepsInv(initial);
    RunKeepsInv(initial, steps);
  }

  // No transport leaks, none is closed twice, and a healthy session's transport is left open.
  lemma TransportIsClosedExactlyOnce(initial: Session, steps: seq<Step>)
    requires IsInitial(initial)
    ensures var s := Run(initial, steps);
            && s.closeCalls <= 1
            && (!IsOver(s.phase) ==> s.closeCalls == 0)
            && (s.transport == Some(Transport(true)) ==>
                  && (s.phase.Failed? || s.phase.Closed? ==> s.closeCalls == 1)
                  && (s.phase.Closing? && !s.close.AwaitingStart? ==> s.closeCalls == 1))
  {
    InitialKeepsInv(initial);
    RunKeepsInv(initial, steps);
  }

  // A close that fulfils leaves nothing behind: start settled, transport closed, inbound drained.
  lemma FulfilledCloseReleasesEverything(initial: Session, steps: seq<Step>)
    requires IsInitial(initial)
    ensures var s := Run(initial, steps);
            s.close == CloseDone(true) ==>
              && s.phase.Closed? && !s.cancelFailed
              && (s.start.StartDone? || s.start.NotStarted?)
              && (s.transport.Some? ==> s.transportClose.Settled?)
              && s.queue == [] && !s.running && s.early == []
  {
    InitialKeepsInv(initial);
    RunKeepsInv(initial, steps);
  }

  function Rank(phase: Phase): nat {
    match phase
    case Idle => 0
    case Connecting => 1
    case Initializing => 2
    case Ready => 3
    case Failed => 4
    case Closing => 5
    case Closed => 6
  }

  // A later session state: the phase has not gone back, and what is over hands on nothing more.
  predicate Follows(s: Session, s': Session) {
    && Rank(s.phase) <= Rank(s'.phase)
    && (IsOver(s.phase) ==> IsOver(s'.phase) && s'.handed == s.handed && s'.failureCode == s.failureCode)
  }

  lemma EndingFollows(s: Session, code: ErrorCode)
    requires PhaseInv(s)
    ensures Follows(s, FailWith(s, code)) && Follows(s, CloseTransport(s)) && Follows(s, AfterStart(s)) && Follows(s, CloseStep(s))
    ensures FailWith(s, code).handed == s.handed
  {
  }

  lemma OpenedFollows(s: Session, reaction: Reaction, refusal: Option<ErrorCode>)
    requires PhaseInv(s) && !IsOver(s.phase) && s.start.AwaitingConnector?
    ensures Follows(s, ConnectorResolvesStep(s, Transport(true), reaction, refusal))
  {
    hide DiscardEarly, FlushEarly, CloseTransport;
    assert Rank(s.phase) <= 1;
    FlushKeepsPhase(React(Opened(s), reaction), s.nextEpoch);
    EndingPhases(Opened(s), reaction, refusal);
  }

  lemma FlushKeepsPhase(s: Session, epoch: nat)
    ensures FlushEarly(s, epoch).phase == s.phase
  {
  }

  lemma EndingPhases(s: Session, reaction: Reaction, refusal: Option<ErrorCode>)
    requires s.phase.Initializing?
    ensures Rank(React(s, reaction).phase) >= 2
    ensures refusal.Some? ==> Rank(FailWith(React(s, reaction), refusal.value).phase) >= 2
  {
  }

  lemma LateFollows(s: Session, transport: Transport, reaction: Reaction, refusal: Option<ErrorCode>)
    requires PhaseInv(s) && (IsOver(s.phase) || !transport.valid)
    ensures Follows(s, ConnectorResolvesStep(s, transport, reaction, refusal))
  {
    hide React, FlushEarly;
  }

  lemma StartFollows(s: Session)
    requires PhaseInv(s)
    ensures Follows(s, BeginStep(s))
  {
  }

  lemma InitializedFollows(s: Session)
    requires PhaseInv(s)
    ensures Follows(s, InitializedStep(s))
  {
  }

  lemma CloseContinuesFollows(s: Session)
    requires PhaseInv(s)
    ensures Follows(s, CloseContinuesStep(s))
  {
    EndingFollows(s, SessionClosed);
    hide AfterStart;
  }

  lemma CancelSettlesFollows(s: Session, ok: bool)
    requires PhaseInv(s)
    ensures Follows(s, CancelSettlesStep(s, ok))
  {
    EndingFollows(s.(cancelFailed := true), SessionClosed);
    hide AfterStart;
  }

  lemma ConnectorRejectsFollows(s: Session)
    requires PhaseInv(s)
    ensures Follows(s, ConnectorRejectsStep(s))
  {
    EndingFollows(s, TransportConnectFailed);
    hide FailWith;
  }

  lemma InitializationFailsFollows(s: Session, code: ErrorCode)
    requires PhaseInv(s)
    ensures Follows(s, InitializationFailsStep(s, code))
  {
    EndingFollows(s, code);
    hide FailWith;
  }

  lemma ReceiveFollows(s: Session, json: string)
    requires PhaseInv(s)
    ensures Follows(s, ReceiveStep(s, json))
  {
    EndingFollows(s.(delivered := s.delivered + [json]), InboundQueueOverflow);
    hide FailWith;
  }

  lemma TaskBeginsFollows(s: Session, parses: bool)
    requires PhaseInv(s)
    ensures Follows(s, TaskBeginsStep(s, parses))
  {
    if s.queue != [] {
      EndingFollows(s.(queue := s.queue[1..]), InvalidTransportJson);
    }
    hide FailWith;
  }

  lemma StepFollows(s: Session, step: Step)
    requires PhaseInv(s)
    ensures Follows(s, Next(s, step))
  {
    match step {
      case ConnectorResolves(transport, reaction, refusal) =>
        if IsOver(s.phase) || !transport.valid {
          LateFollows(s, transport, reaction, refusal);
        } else if s.start.AwaitingConnector? {
          OpenedFollows(s, reaction, refusal);
        }
      case Begin => StartFollows(s);
      case Initialized => InitializedFollows(s);
      case CallClose => EndingFollows(s, SessionClosed);
      case ConnectorRejects => ConnectorRejectsFollows(s);
      case InitializationFails(code) => InitializationFailsFollows(s, code);
      case TransportFails(code) => EndingFollows(s, code);
      case TaskEnds(_) => EndingFollows(s, InboundProcessingFailed);
      case Receive(json) => ReceiveFollows(s, json);
      case TaskBegins(parses) => TaskBeginsFollows(s, parses);
      case CancelSettles(ok) => CancelSettlesFollows(s, ok);
      case CloseContinues => CloseContinuesFollows(s);
      case _ =>
    }
    hide BeginStep, ConnectorRejectsStep, InitializedStep, FailWith, React, FlushEarly, PhaseInv,
         InitializationFailsStep, CloseStep, CancelSettlesStep, CloseContinuesStep, ReceiveStep, TaskBeginsStep;
  }

  // Phases only advance; once over, a session hands nothing to the router and keeps its failure.
  lemma {:induction false} PhasesOnlyAdvance(s: Session, steps: seq<Step>)
    requires SessionInv(s)
    ensures Follows(s, Run(s, steps))
    decreases |steps|
  {
    hide PhaseInv, StartInv, CloseInv, TransportInv, CountInv, OrderInv, Next;
    if steps != [] {
      NextKeepsInv(s, steps[0]);
      StepFollows(s, steps[0]);
      assert SessionInv(Next(s, steps[0]));
      PhasesOnlyAdvance(Next(s, steps[0]), steps[1..]);
    }
  }

  // `start()` rejects with the failure that ended the session, or with "closed".
  lemma StartOutcomeIsTruthful(initial: Session, steps: seq<Step>, code: ErrorCode)
    requires IsInitial(initial)
    requires Run(initial, steps).start == StartDone(Some(code))
    ensures var s := Run(initial, steps);
            && IsOver(s.phase)
            && (code == SessionClosed || s.failureCode == Some(code) || s.transport == Some(Transport(false)))
  {
    InitialKeepsInv(initial);
    RunKeepsInv(initial, steps);
    hide OrderInv, CountInv;
  }

  // What a pending close waits for next: the promise that settles, or the continuation that runs.
  function Awaited(s: Session): Step {
    match s.close
    case AwaitingCancel => CancelSettles(true)
    case AwaitingStart =>
      (match s.start
       case Scheduled => Begin
       case AwaitingConnector => ConnectorRejects
       case AwaitingLateClose(_) => if s.transportClose.Settled? then LateCloseDone else TransportCloseSettles
       case AwaitingInitialization(_) => InitializationFails(SessionClosed)
       case _ => CloseContinues)
    case AwaitingTransport(known) => if known && !s.transportClose.Settled? then TransportCloseSettles else CloseContinues
    case _ => if s.running then TaskEnds(true) else if s.queue != [] then TaskBegins(true) else CloseContinues
  }

  function Outstanding(s: Session): nat {
    (match s.close case AwaitingCancel => 4 case AwaitingStart => 3 case AwaitingTransport(_) => 2 case AwaitingInbound => 1 case _ => 0)
    + (match s.start case Scheduled => 3 case AwaitingConnector => 2 case AwaitingLateClose(_) => 1
                     case AwaitingInitialization(_) => 1 case _ => 0)
    + (match s.transportClose case NotRequested => 2 case Requested => 1 case Settled => 0)
    + |s.queue| + (if s.running then 1 else 0)
  }

  lemma StartAdvances(s: Session)
    requires PhaseInv(s) && CloseInv(s) && TransportInv(s) && s.phase.Closing? && s.close.AwaitingStart?
    ensures var s' := Next(s, Awaited(s));
            Outstanding(s') < Outstanding(s) && s'.phase.Closing?
  {
    hide React, ConnectorResolvesStep;
  }

  lemma InboundAdvances(s: Session)
    requires s.phase.Closing? && s.epoch.None? && s.close.AwaitingInbound?
    ensures var s' := Next(s, Awaited(s));
            Outstanding(s') < Outstanding(s) && (s'.phase.Closing? || s'.phase.Closed?)
  {
    if s.running {
      assert Next(s, Awaited(s)) == TaskEndsStep(s, true);
    } else if s.queue != [] {
      assert Next(s, Awaited(s)) == TaskBeginsStep(s, true);
    } else {
      assert Next(s, Awaited(s)) == CloseContinuesStep(s);
    }
    hide Next, FailWith;
  }

  lemma TransportAdvances(s: Session)
    requires s.phase.Closing? && (s.close.AwaitingTransport? || s.close.AwaitingCancel?)
    requires s.close == AwaitingTransport(true) ==> !s.transportClose.NotRequested?
    ensures var s' := Next(s, Awaited(s));
            Outstanding(s') < Outstanding(s) && s'.phase.Closing?
  {
    if s.close.AwaitingCancel? {
      assert Next(s, Awaited(s)) == CancelSettlesStep(s, true);
    } else if s.close.transportKnown && !s.transportClose.Settled? {
      assert Next(s, Awaited(s)) == TransportCloseSettlesStep(s);
    } else {
      assert Next(s, Awaited(s)) == CloseContinuesStep(s);
    }
    hide Next, AfterStart;
  }

  lemma ClosingAdvances(s: Session)
    requires SessionInv(s) && s.phase.Closing?
    ensures var s' := Next(s, Awaited(s));
            Outstanding(s') < Outstanding(s) && (s'.phase.Closing? || s'.phase.Closed?)
  {
    if s.close.AwaitingStart? {
      StartAdvances(s);
    } else if s.close.AwaitingInbound? {
      InboundAdvances(s);
    } else {
      TransportAdvances(s);
    }
    hide Next, Awaited, Outstanding, OrderInv, CountInv, StartInv;
  }

  // A pending close always reaches "closed": settling what it waits for, one thing after the other, ends it.
  lemma {:induction false} PendingCloseCompletes(s: Session) returns (steps: seq<Step>)
    requires SessionInv(s) && s.phase.Closing?
    ensures Run(s, steps).phase.Closed? && |steps| <= Outstanding(s)
    decreases Outstanding(s)
  {
    hide PhaseInv, StartInv, CloseInv, TransportInv, CountInv, OrderInv, Next;
    var step := Awaited(s);
    ClosingAdvances(s);
    NextKeepsInv(s, step);
    var s' := Next(s, step);
    if s'.phase.Closed? {
      steps := [step];
      assert steps[1..] == [] && Run(s', []) == s';
    } else {
      var rest := PendingCloseCompletes(s');
      steps := [step] + rest;
      assert steps[1..] == rest;
    }
  }

  // ---- What ends a session, and how ---------------------------------------------------------------------------

  datatype Ending = Called | Fault(code: ErrorCode)

  // How many messages were received and are not done with.
  function Unfinished(s: Session): nat {
    |s.early| + |s.queue| + (if s.running then 1 else 0)
  }

  // The transport's handlers were handed to the connector.
  predicate Listening(s: Session) {
    s.start != NotStarted && s.start != Scheduled
  }

  // What a step makes end a session that is not over yet, if anything.
  ghost function Cause(s: Session, step: Step): Option<Ending> {
    match step
    case CallClose => Some(Called)
    case Receive(_) => if Listening(s) && Unfinished(s) == s.capacity then Some(Fault(InboundQueueOverflow)) else None
    case TransportFails(code) => if Listening(s) then Some(Fault(code)) else None
    case ConnectorRejects => if s.start == AwaitingConnector then Some(Fault(TransportConnectFailed)) else None
    case ConnectorResolves(transport, reaction, refusal) =>
      if s.start != AwaitingConnector then None
      else if !transport.valid then Some(Fault(TransportConnectFailed))
      else if reaction == CallsClose then Some(Called)
      else if reaction.Fails? then Some(Fault(reaction.code))
      else if refusal.Some? then Some(Fault(refusal.value))
      else None
    case InitializationFails(code) => if s.start.AwaitingInitialization? then Some(Fault(code)) else None
    case TaskBegins(parses) => if !parses && !s.running && s.queue != [] then Some(Fault(InvalidTransportJson)) else None
    case TaskEnds(processed) => if !processed && s.running then Some(Fault(InboundProcessingFailed)) else None
    case _ => None
  }

  // How it ends: a failure is recorded under its code and has the transport closed, a call closes; both
  // drop what was not handed on yet.
  ghost predicate EndsAs(s: Session, s': Session, ending: Ending) {
    && s'.epoch == None && s'.early == []
    && (match ending
        case Called =>
          s'.failureCode == None && s'.phase == (if s.phase == Idle then Closed else Closing) && s'.closeCalls == 0
        case Fault(code) =>
          s'.failureCode == Some(code) && s'.phase == Failed && s'.close == NotClosing
          && s'.closeCalls == (if s'.transport.Some? then 1 else 0))
  }

  ghost predicate GoesOn(s: Session, s': Session) {
    !IsOver(s'.phase) && s'.failureCode == None && s'.close == NotClosing && s'.closeCalls == 0
  }

  lemma PartsEndAs(s: Session, code: ErrorCode)
    requires !IsOver(s.phase) && s.phase != Idle && s.failureCode == None
    requires s.transportClose == NotRequested && s.closeCalls == 0 && s.close == NotClosing
    ensures EndsAs(s, FailWith(s, code), Fault(code)) && FailWith(s, code).phase == Failed
    ensures EndsAs(s, CloseStep(s), Called) && CloseStep(s).phase == Closing
  {
  }

  lemma OpeningEndsIff(s: Session, transport: Transport, reaction: Reaction, refusal: Option<ErrorCode>)
    requires SessionInv(s) && !IsOver(s.phase)
    ensures var step := ConnectorResolves(transport, reaction, refusal);
            var s' := Next(s, step);
            if Cause(s, step).Some? then EndsAs(s, s', Cause(s, step).value) else GoesOn(s, s')
  {
    hide OrderInv, CountInv, StartInv, CloseInv, FailWith, CloseStep;
    if s.start.AwaitingConnector? {
      var obtained := s.(transport := Some(transport));
      var opened' := obtained.(epoch := Some(s.nextEpoch), nextEpoch := s.nextEpoch + 1, phase := Initializing);
      PartsEndAs(obtained, TransportConnectFailed);
      PartsEndAs(opened', if reaction.Fails? then reaction.code else if refusal.Some? then refusal.value else InvalidState);
    }
  }

  lemma InboundEndsIff(s: Session, step: Step)
    requires SessionInv(s) && !IsOver(s.phase) && (step.Receive? || step.TransportFails? || step.TaskBegins? || step.TaskEnds?)
    ensures var s' := Next(s, step);
            if Cause(s, step).Some? then EndsAs(s, s', Cause(s, step).value) else GoesOn(s, s')
  {
    hide Pipeline, IsPrefix;
  }

  lemma OtherStepsEndIff(s: Session, step: Step)
    requires SessionInv(s) && !IsOver(s.phase)
    requires !step.Receive? && !step.TransportFails? && !step.TaskBegins? && !step.TaskEnds? && !step.ConnectorResolves?
    ensures var s' := Next(s, step);
            if Cause(s, step).Some? then EndsAs(s, s', Cause(s, step).value) else GoesOn(s, s')
  {
    hide Pipeline, IsPrefix, AllOf, CountInv;
  }

  // Over every run: a session that is not over ends by exactly the steps listed as its causes, and in the listed way.
  lemma SessionEndsIff(initial: Session, steps: seq<Step>, step: Step)
    requires IsInitial(initial) && !IsOver(Run(initial, steps).phase)
    ensures var s := Run(initial, steps);
            var s' := Next(s, step);
            if Cause(s, step).Some? then EndsAs(s, s', Cause(s, step).value) else GoesOn(s, s')
  {
    hide SessionInv, Run, Next, EndsAs, GoesOn, Cause;
    Reachable(initial, steps);
    var s := Run(initial, steps);
    if step.ConnectorResolves? {
      OpeningEndsIff(s, step.transport, step.reaction, step.refusal);
    } else if step.Receive? || step.TransportFails? || step.TaskBegins? || step.TaskEnds? {
      InboundEndsIff(s, step);
    } else {
      OtherStepsEndIff(s, step);
    }
  }

  lemma Reachable(initial: Session, steps: seq<Step>)
    requires IsInitial(initial)
    ensures SessionInv(Run(initial, steps))
  {
    hide SessionInv;
    InitialKeepsInv(initial);
    RunKeepsInv(initial, steps);
  }

  // ---- What a session makes of a message -----------------------------------------------------------------------

  // The messages that wait to be handed on, in their order.
  function WaitingMessages(s: Session): seq<string> {
    Messages(s.queue) + s.early
  }

  lemma ReceiptSays(s: Session, json: string)
    requires SessionInv(s) && Listening(s)
    ensures var s' := Next(s, Receive(json));
            && s'.delivered == s.delivered + [json]
            && (if IsOver(s.phase) then s' == s.(delivered := s'.delivered)
                else if Unfinished(s) == s.capacity then
                  s'.phase == Failed && s'.failureCode == Some(InboundQueueOverflow) && s'.queue == s.queue
                else
                  && WaitingMessages(s') == WaitingMessages(s) + [json]
                  && s'.pendingCount == s.pendingCount + 1 == Unfinished(s')
                  && (if s.phase == Connecting then s'.queue == s.queue else s'.early == [])
                  && s' == s.(delivered := s'.delivered, queue := s'.queue, early := s'.early, pendingCount := s'.pendingCount))
  {
    if !IsOver(s.phase) && s.phase != Connecting {
      assert Messages(s.queue + [Task(s.epoch.value, json)]) == Messages(s.queue) + [json];
    }
    hide Pipeline, IsPrefix, StartInv, CloseInv;
  }

  // Over every run: a message makes the session fail exactly if it is not over and `capacity` messages
  // are unfinished; below that it becomes the last one waiting, and the session goes on as it was.
  lemma MessageOverflowsIff(initial: Session, steps: seq<Step>, json: string)
    requires IsInitial(initial) && Listening(Run(initial, steps))
    ensures var s := Run(initial, steps);
            var s' := Next(s, Receive(json));
            && s'.delivered == s.delivered + [json]
            && Unfinished(s) <= s.capacity == initial.capacity
            && (s'.phase != s.phase <==> !IsOver(s.phase) && Unfinished(s) == s.capacity)
            && (s'.phase != s.phase ==> s'.phase == Failed && s'.failureCode == Some(InboundQueueOverflow))
            && (!IsOver(s.phase) && Unfinished(s) < s.capacity ==>
                  && WaitingMessages(s') == WaitingMessages(s) + [json] && Unfinished(s') == Unfinished(s) + 1
                  && (s'.epoch, s'.start, s'.transport, s'.handed) == (s.epoch, s.start, s.transport, s.handed))
  {
    hide Run, Next, SessionInv;
    Reachable(initial, steps);
    ReceiptSays(Run(initial, steps), json);
    CapacityIsKept(initial, steps);
    CountIsWithinCapacity(Run(initial, steps));
  }

  lemma CountIsWithinCapacity(s: Session)
    requires SessionInv(s)
    ensures Unfinished(s) <= s.capacity
  {
  }

  lemma PartsKeepCapacity(s: Session, code: ErrorCode)
    ensures CloseTransport(s).capacity == FailWith(s, code).capacity == CloseStep(s).capacity == s.capacity
  {
  }

  lemma OpeningKeepsCapacity(s: Session, transport: Transport, reaction: Reaction, refusal: Option<ErrorCode>)
    ensures ConnectorResolvesStep(s, transport, reaction, refusal).capacity == s.capacity
  {
    hide CloseTransport, FailWith, CloseStep, Tasks;
    var obtained := s.(transport := Some(transport));
    var opened' := obtained.(epoch := Some(s.nextEpoch), nextEpoch := s.nextEpoch + 1, phase := Initializing);
    PartsKeepCapacity(obtained, TransportConnectFailed);
    PartsKeepCapacity(opened', if reaction.Fails? then reaction.code else InvalidState);
    PartsKeepCapacity(React(opened', reaction), if refusal.Some? then refusal.value else InvalidState);
  }

  lemma StepKeepsCapacity(s: Session, step: Step)
    ensures Next(s, step).capacity == s.capacity
  {
    if step.ConnectorResolves? {
      OpeningKeepsCapacity(s, step.transport, step.reaction, step.refusal);
    }
    forall s, code ensures CloseTransport(s).capacity == FailWith(s, code).capacity == CloseStep(s).capacity == s.capacity {
      PartsKeepCapacity(s, code);
    }
    hide ConnectorResolvesStep, CloseTransport, FailWith, CloseStep;
  }

  lemma {:induction false} CapacityIsKept(s: Session, steps: seq<Step>)
    ensures Run(s, steps).capacity == s.capacity
    decreases |steps|
  {
    hide Next;
    if steps != [] {
      StepKeepsCapacity(s, steps[0]);
      CapacityIsKept(Next(s, steps[0]), steps[1..]);
    }
  }

  // The messages are handed on one at a time, the oldest first; once the session is over the rest are
  // taken away unread.
  lemma MessagesAreHandedOn(s: Session)
    requires SessionInv(s)
    ensures !s.running && s.queue != [] ==>
              var taken := s.(queue := s.queue[1..]);
              Next(s, TaskBegins(true)) ==
              if IsOver(s.phase) then taken.(pendingCount := s.pendingCount - 1)
              else taken.(running := true, handed := s.handed + [s.queue[0].json])
    ensures s.running ==> Next(s, TaskEnds(true)) == s.(running := false, pendingCount := s.pendingCount - 1)
    ensures s.running || s.queue == [] ==> forall parses :: Next(s, TaskBegins(parses)) == s
    ensures !s.running ==> forall processed :: Next(s, TaskEnds(processed)) == s
  {
    assert s.queue != [] ==> s.queue[0] in s.queue;
    hide Pipeline, IsPrefix, StartInv, CloseInv, TransportInv;
  }

  // ---- The way to "ready" ----------------------------------------------------------------------------------------

  // A session that is not disturbed becomes ready in four steps, each of which waits for the one before.
  lemma UndisturbedStartAdvances(s: Session, step: Step)
    requires SessionInv(s) && !IsOver(s.phase) && Cause(s, step).None?
    ensures var s' := Next(s, step);
            (s'.phase, s'.start) ==
            if step == CallStart && s.phase == Idle then (Connecting, Scheduled)
            else if step == Begin && s.start == Scheduled then (Connecting, AwaitingConnector)
            else if step.ConnectorResolves? && s.start == AwaitingConnector then (Initializing, AwaitingInitialization(s.nextEpoch))
            else if step == Initialized && s.start.AwaitingInitialization? then (Ready, StartDone(None))
            else (s.phase, s.start)
  {
    hide Pipeline, IsPrefix, AllOf;
  }

  // What came early is queued, in order, ahead of everything that comes later.
  lemma OpeningQueuesEarlyMessages(s: Session)
    requires SessionInv(s) && s.start == AwaitingConnector && s.phase == Connecting
    ensures var s' := Next(s, ConnectorResolves(Transport(true), Continue, None));
            && s'.early == [] && WaitingMessages(s') == WaitingMessages(s)
            && (s'.pendingCount, s'.handed, s'.delivered, s'.running) == (s.pendingCount, s.handed, s.delivered, s.running)
            && s'.transport == Some(Transport(true)) && s'.epoch == Some(s.nextEpoch) && s'.nextEpoch == s.nextEpoch + 1
  {
    assert Messages(Tasks(s.nextEpoch, s.early)) == s.early;
    assert [] + Tasks(s.nextEpoch, s.early) == Tasks(s.nextEpoch, s.early);
    assert Messages([]) == [];
    hide Pipeline, IsPrefix, AllOf;
  }

  // Nothing ends the session in this run.
  ghost predicate Undisturbed(s: Session, steps: seq<Step>)
    decreases |steps|
  {
    steps != [] ==> Cause(s, steps[0]).None? && Undisturbed(Next(s, steps[0]), steps[1..])
  }

  // How many of the four steps were made.
  function Progress(start: Start): nat {
    match start
    case NotStarted => 0
    case Scheduled => 1
    case AwaitingConnector => 2
    case AwaitingInitialization(_) => 3
    case _ => 4
  }

  // How far a start gets that has come to `n`: every step counts when it is its turn.
  function Reaches(steps: seq<Step>, n: nat): nat {
    if steps == [] then n
    else
      var turn := (n == 0 && steps[0] == CallStart) || (n == 1 && steps[0] == Begin)
                  || (n == 2 && steps[0].ConnectorResolves?) || (n == 3 && steps[0] == Initialized);
      Reaches(steps[1..], if turn then n + 1 else n)
  }

  lemma StepProgress(s: Session, step: Step)
    requires SessionInv(s) && !IsOver(s.phase) && Cause(s, step).None?
    ensures var s', n := Next(s, step), Progress(s.start);
            && !IsOver(s'.phase)
            && Progress(s'.start) == Reaches([step], n)
  {
    UndisturbedStartAdvances(s, step);
    assert [step][1..] == [];
    hide Pipeline, IsPrefix, AllOf, StartInv, CloseInv, TransportInv, CountInv, Next, Cause;
  }

  lemma PhaseTellsProgress(s: Session)
    requires SessionInv(s) && !IsOver(s.phase)
    ensures s.phase == Ready <==> Progress(s.start) == 4
  {
  }

  lemma {:induction false} UndisturbedRunReaches(s: Session, steps: seq<Step>)
    requires SessionInv(s) && !IsOver(s.phase) && Undisturbed(s, steps)
    ensures var s' := Run(s, steps);
            SessionInv(s') && !IsOver(s'.phase) && Progress(s'.start) == Reaches(steps, Progress(s.start))
    decreases |steps|
  {
    hide SessionInv, Next, Cause;
    if steps != [] {
      StepProgress(s, steps[0]);
      NextKeepsInv(s, steps[0]);
      assert [steps[0]][1..] == [];
      UndisturbedRunReaches(Next(s, steps[0]), steps[1..]);
    }
  }

  // A session that nothing ends is ready exactly once its start was called and has begun, its connector
  // has delivered and its initialisation has succeeded, one after the other; whatever it receives meanwhile.
  lemma UndisturbedSessionIsReadyIff(initial: Session, steps: seq<Step>)
    requires IsInitial(initial) && Undisturbed(initial, steps)
    ensures Run(initial, steps).phase == Ready <==> Reaches(steps, 0) == 4
  {
    InitialKeepsInv(initial);
    UndisturbedRunReaches(initial, steps);
    PhaseTellsProgress(Run(initial, steps));
    hide SessionInv, Run, Undisturbed;
  }

  // ---- What happens to a session that is over -----------------------------------------------------------------------

  // The reason a session is over for.
  function Reason(s: Session): ErrorCode {
    if s.phase == Failed && s.failureCode.Some? then s.failureCode.value else SessionClosed
  }

  // A transport that comes too late is closed and never initialised; the start then rejects with the
  // reason the session is over for.
  lemma LateTransportIsClosed(s: Session, reaction: Reaction, refusal: Option<ErrorCode>)
    requires SessionInv(s) && IsOver(s.phase) && s.start == AwaitingConnector
    ensures var s' := Next(s, ConnectorResolves(Transport(true), reaction, refusal));
            && s' == s.(transport := Some(Transport(true)), transportClose := Requested, closeCalls := 1, start := s'.start)
            && (s'.start == AwaitingLateClose(Reason(s)))
            && (var s'' := Next(Next(s', TransportCloseSettles), LateCloseDone);
                s''.start == StartDone(Some(Reason(s))))
  {
    hide OrderInv, CountInv;
  }

  // A closing session waits first for the cancelled connection, if there is something to cancel, and
  // then for its start; when cancelling fails it does not wait for the start, and says so at the end.
  lemma ClosingWaitsFor(s: Session, ok: bool)
    requires SessionInv(s)
    ensures s.close == NotClosing && s.phase != Idle ==>
              Next(s, CallClose).close == if s.transport.None? && s.canCancel then AwaitingCancel else AwaitingStart
    ensures s.close != NotClosing ==> Next(s, CallClose) == s
    ensures s.close == AwaitingCancel ==>
              var s' := Next(s, CancelSettles(ok));
              && s'.cancelFailed == !ok && s'.close == (if ok then AwaitingStart else AwaitingTransport(s.transport.Some?))
              && s'.closeCalls == (if !ok && s.transport.Some? then 1 else s.closeCalls)
    ensures s.close == AwaitingStart && s.start.StartDone? ==>
              Next(s, CloseContinues).close == AwaitingTransport(s.transport.Some?)
    ensures s.close == AwaitingStart && !s.start.StartDone? ==> Next(s, CloseContinues) == s
  {
    hide OrderInv, CountInv;
  }

  // A start that has begun too late, or whose session was ended meanwhile, rejects with the reason.
  lemma OvertakenStartRejects(s: Session)
    requires SessionInv(s) && IsOver(s.phase)
    ensures s.start == Scheduled && s.phase != Failed ==> Next(s, Begin) == s.(start := StartDone(Some(SessionClosed)))
    ensures s.start == AwaitingConnector ==> Next(s, ConnectorRejects) == s.(start := StartDone(Some(Reason(s))))
  {
    hide StartInv, CloseInv, TransportInv, OrderInv, CountInv;
  }

  // So does an initialisation, whether it succeeds or fails.
  lemma OvertakenInitializationRejects(s: Session, code: ErrorCode)
    requires SessionInv(s) && IsOver(s.phase) && s.start.AwaitingInitialization?
    ensures Next(s, InitializationFails(code)) == s.(start := StartDone(Some(Reason(s))))
    ensures Next(s, Initialized) == s.(start := StartDone(Some(if s.failureCode.Some? then s.failureCode.value else SessionClosed)))
  {
    hide StartInv, CloseInv, TransportInv, OrderInv, CountInv;
  }

  // ---- The session object -----------------------------------------------------------------------------------

  // The links of the inbound chain, what was delivered and handed on, and how often close was called.
  datatype Surroundings = Surroundings(queue: seq<Task>, running: bool, delivered: seq<string>, handed: seq<string>,
                                       closeCalls: nat, nextEpoch: nat)

  class AppServerSession {
    const inboundQueueCapacity: nat
    const canCancel: bool
    var phase: Phase
    var failureCode: Option<ErrorCode>
    var transport: Option<Transport>
    var transportClosePromise: ClosePromise
    var epoch: Option<nat>
    var startPromise: Start
    var closePromise: Close
    var cancelFailed: bool
    var earlyInboundMessages: seq<string>
    var bufferingInbound: bool
    var pendingInboundCount: int
    var surroundings: Surroundings

    ghost function View(): Session
      reads this
    {
      Session(inboundQueueCapacity, canCancel, phase, failureCode, transport, transportClosePromise, surroundings.closeCalls,
              epoch, surroundings.nextEpoch, startPromise, closePromise, cancelFailed,
              earlyInboundMessages, bufferingInbound, pendingInboundCount,
              surroundings.queue, surroundings.running, surroundings.delivered, surroundings.handed)
    }

    constructor (capacity: nat, canCancel: bool)
      requires capacity > 0
      ensures IsInitial(View()) && inboundQueueCapacity == capacity && this.canCancel == canCancel
    {
      inboundQueueCapacity, this.canCancel := capacity, canCancel;
      phase, failureCode, transport, transportClosePromise, epoch := Idle, None, None, NotRequested, None;
      startPromise, closePromise, cancelFailed := NotStarted, NotClosing, false;
      earlyInboundMessages, bufferingInbound, pendingInboundCount := [], true, 0;
      surroundings := Surroundings([], false, [], [], 0, 1);
    }

    method CloseTransportOnce()
      modifies this`transportClosePromise, this`surroundings
      ensures View() == old(CloseTransport(View()))
    {
      if transport.Some? && transportClosePromise.NotRequested? {
        transportClosePromise := Requested;
        surroundings := surroundings.(closeCalls := surroundings.closeCalls + 1);
      }
    }

    method DiscardEarlyInboundMessages()
      modifies this`pendingInboundCount, this`earlyInboundMessages
      ensures View() == old(DiscardEarly(View()))
    {
      pendingInboundCount := pendingInboundCount - |earlyInboundMessages|;
      earlyInboundMessages := [];
    }

    method Fail(code: ErrorCode)
      modifies this`failureCode, this`epoch, this`pendingInboundCount, this`earlyInboundMessages, this`phase
      modifies this`transportClosePromise, this`surroundings
      ensures View() == old(FailWith(View(), code))
    {
      if phase.Closing? || phase.Closed? || phase.Failed? {
        return;
      }
      failureCode, epoch, phase := Some(code), None, Failed;
      DiscardEarlyInboundMessages();
      hide DiscardEarly;
      CloseTransportOnce();
    }

    // Hands each buffered message to the inbound chain, in order.
    method FlushEarlyInboundMessages(epoch: nat)
      modifies this`earlyInboundMessages, this`bufferingInbound, this`surroundings
      ensures View() == old(FlushEarly(View(), epoch))
    {
      var messages := earlyInboundMessages;
      ghost var queued := surroundings.queue;
      earlyInboundMessages, bufferingInbound := [], false;
      var i := 0;
      while i < |messages|
        invariant 0 <= i <= |messages|
        invariant earlyInboundMessages == [] && !bufferingInbound
        invariant surroundings == old(surroundings).(queue := queued + Tasks(epoch, messages[..i]))
      {
        EnqueueInboundMessage(epoch, messages[i]);
        assert Tasks(epoch, messages[..i + 1]) == Tasks(epoch, messages[..i]) + [Task(epoch, messages[i])];
        i := i + 1;
      }
      assert messages[..i] == messages;
    }

    method EnqueueInboundMessage(epoch: nat, json: string)
      modifies this`surroundings
      ensures surroundings == old(surroundings.(queue := surroundings.queue + [Task(epoch, json)]))
    {
      surroundings := surroundings.(queue := surroundings.queue + [Task(epoch, json)]);
    }

    method ReceiveProtocolMessage(json: string)
      requires HandlersKnown(View())
      modifies this`failureCode, this`epoch, this`pendingInboundCount, this`earlyInboundMessages, this`phase
      modifies this`transportClosePromise, this`surroundings
      ensures View() == old(ReceiveStep(View(), json))
    {
      surroundings := surroundings.(delivered := surroundings.delivered + [json]);
      if phase.Closing? || phase.Closed? || phase.Failed? {
        return;
      }
      if pendingInboundCount >= inboundQueueCapacity {
        Fail(InboundQueueOverflow);
        return;
      }
      pendingInboundCount := pendingInboundCount + 1;
      if bufferingInbound || epoch.None? {
        earlyInboundMessages := earlyInboundMessages + [json];
      } else {
        EnqueueInboundMessage(epoch.value, json);
      }
    }

    method CallStart() returns (ok: bool)
      modifies this`startPromise, this`phase
      ensures ok == old(phase.Idle?) && View() == old(StartStep(View()))
    {
      ok := phase.Idle?;
      if ok {
        startPromise, phase := Scheduled, Connecting;
      }
    }

    method ConnectorRejected()
      requires startPromise.AwaitingConnector?
      modifies this`failureCode, this`epoch, this`pendingInboundCount, this`earlyInboundMessages, this`phase
      modifies this`transportClosePromise, this`surroundings, this`startPromise
      ensures View() == old(ConnectorRejectsStep(View()))
    {
      if phase.Closing? || phase.Closed? {
        startPromise := StartDone(Some(SessionClosed));
      } else if failureCode.Some? {
        startPromise := StartDone(failureCode);
      } else {
        Fail(TransportConnectFailed);
        startPromise := StartDone(Some(TransportConnectFailed));
      }
    }

    // The state handler's effect when it is told "initializing".
    method NotifyInitializing(reaction: Reaction)
      requires phase.Initializing? && transport.Some?
      modifies this`failureCode, this`epoch, this`pendingInboundCount, this`earlyInboundMessages, this`phase
      modifies this`transportClosePromise, this`surroundings, this`closePromise
      ensures View() == old(React(View(), reaction))
    {
      if reaction.CallsClose? {
        CallClose();
      } else if reaction.Fails? {
        Fail(reaction.code);
      }
    }

    // Whether the start has been overtaken by a close or a failure, and then its error.
    method Overtaking() returns (code: Option<ErrorCode>)
      ensures code == Overtaken(View())
    {
      code := if phase.Closing? || phase.Closed? then Some(SessionClosed) else failureCode;
    }

    method OpenRouter(obtained: Transport)
      modifies this`transport, this`epoch, this`phase, this`surroundings
      ensures View() == old(View().(transport := Some(obtained), epoch := Some(surroundings.nextEpoch),
                                    nextEpoch := surroundings.nextEpoch + 1, phase := Initializing))
    {
      transport, epoch, phase := Some(obtained), Some(surroundings.nextEpoch), Initializing;
      surroundings := surroundings.(nextEpoch := surroundings.nextEpoch + 1);
    }

    method RequestInitialization(routerEpoch: nat, refusal: Option<ErrorCode>)
      modifies this`failureCode, this`epoch, this`pendingInboundCount, this`earlyInboundMessages, this`phase, this`bufferingInbound
      modifies this`transportClosePromise, this`surroundings, this`startPromise
      ensures View() == old(Initialize(View(), routerEpoch, refusal))
    {
      hide FlushEarly, FailWith;
      var overtaken := Overtaking();
      if overtaken.Some? {
        startPromise := StartDone(overtaken);
      } else if refusal.Some? {
        Fail(refusal.value);
        startPromise := StartDone(refusal);
      } else {
        FlushEarlyInboundMessages(routerEpoch);
        startPromise := AwaitingInitialization(routerEpoch);
      }
    }

    // A transport was obtained in time: open the router and send the initialisation request.
    method BeginInitialization(obtained: Transport, reaction: Reaction, refusal: Option<ErrorCode>)
      requires startPromise.AwaitingConnector? && obtained.valid && Overtaken(View()).None?
      modifies this`failureCode, this`epoch, this`pendingInboundCount, this`earlyInboundMessages, this`phase, this`bufferingInbound
      modifies this`transportClosePromise, this`surroundings, this`startPromise, this`transport, this`closePromise
      ensures View() == old(ConnectorResolvesStep(View(), obtained, reaction, refusal))
    {
      hide Initialize, React;
      var routerEpoch := surroundings.nextEpoch;
      OpenRouter(obtained);
      NotifyInitializing(reaction);
      RequestInitialization(routerEpoch, refusal);
    }

    method ConnectorResolved(obtained: Transport, reaction: Reaction, refusal: Option<ErrorCode>)
      requires startPromise.AwaitingConnector?
      modifies this`failureCode, this`epoch, this`pendingInboundCount, this`earlyInboundMessages, this`phase, this`bufferingInbound
      modifies this`transportClosePromise, this`surroundings, this`startPromise, this`transport, this`closePromise
      ensures View() == old(ConnectorResolvesStep(View(), obtained, reaction, refusal))
    {
      hide Initialize, FailWith, React;
      var overtaken := Overtaking();
      if !obtained.valid {
        transport := Some(obtained);
        Fail(TransportConnectFailed);
        startPromise := StartDone(Some(TransportConnectFailed));
      } else if overtaken.Some? {
        transport := Some(obtained);
        CloseTransportOnce();
        startPromise := AwaitingLateClose(overtaken.value);
      } else {
        BeginInitialization(obtained, reaction, refusal);
      }
    }

    method InitializationSettled(failure: Option<ErrorCode>)
      requires startPromise.AwaitingInitialization?
      modifies this`failureCode, this`epoch, this`pendingInboundCount, this`earlyInboundMessages, this`phase
      modifies this`transportClosePromise, this`surroundings, this`startPromise
      ensures View() == old(if failure.None? then InitializedStep(View()) else InitializationFailsStep(View(), failure.value))
    {
      if failure.None? {
        if !phase.Initializing? || epoch != Some(startPromise.epoch) {
          startPromise := StartDone(Some(if failureCode.Some? then failureCode.value else SessionClosed));
        } else {
          phase, startPromise := Ready, StartDone(None);
        }
      } else if phase.Closing? || phase.Closed? {
        startPromise := StartDone(Some(SessionClosed));
      } else if failureCode.Some? {
        startPromise := StartDone(failureCode);
      } else {
        Fail(failure.value);
        startPromise := StartDone(failure);
      }
    }

    method CallClose()
      modifies this`phase, this`epoch, this`closePromise, this`pendingInboundCount, this`earlyInboundMessages
      ensures View() == old(CloseStep(View()))
    {
      if !closePromise.NotClosing? {
        return;
      }
      if phase.Idle? {
        phase, closePromise := Closed, CloseDone(true);
        return;
      }
      phase, epoch := Closing, None;
      DiscardEarlyInboundMessages();
      closePromise := if transport.None? && canCancel then AwaitingCancel else AwaitingStart;
    }

    method CancelSettled(ok: bool)
      requires closePromise.AwaitingCancel?
      modifies this`closePromise, this`cancelFailed, this`transportClosePromise, this`surroundings
      ensures View() == old(CancelSettlesStep(View(), ok))
    {
      if ok {
        closePromise := AwaitingStart;
        return;
      }
      cancelFailed := true;
      CloseTransportOnce();
      closePromise := AwaitingTransport(transport.Some?);
    }

    method CloseContinued()
      modifies this`closePromise, this`phase, this`transportClosePromise, this`surroundings
      ensures View() == old(CloseContinuesStep(View()))
    {
      if closePromise.AwaitingStart? && startPromise.StartDone? {
        CloseTransportOnce();
        closePromise := AwaitingTransport(transport.Some?);
      } else if closePromise.AwaitingTransport? && (!closePromise.transportKnown || transportClosePromise.Settled?) {
        closePromise := AwaitingInbound;
      } else if closePromise.AwaitingInbound? && surroundings.queue == [] && !surroundings.running {
        phase, closePromise := Closed, CloseDone(!cancelFailed);
      }
    }

    method BeginInboundTask(parses: bool)
      requires !surroundings.running && surroundings.queue != []
      modifies this`failureCode, this`epoch, this`pendingInboundCount, this`earlyInboundMessages, this`phase
      modifies this`transportClosePromise, this`surroundings
      ensures View() == old(TaskBeginsStep(View(), parses))
    {
      var task := surroundings.queue[0];
      surroundings := surroundings.(queue := surroundings.queue[1..]);
      if epoch != Some(task.epoch) {
        pendingInboundCount := pendingInboundCount - 1;
      } else if !parses {
        Fail(InvalidTransportJson);
        pendingInboundCount := pendingInboundCount - 1;
      } else {
        surroundings := surroundings.(running := true, handed := surroundings.handed + [task.json]);
      }
    }

    method EndInboundTask(ok: bool)
      requires surroundings.running
      modifies this`failureCode, this`epoch, this`pendingInboundCount, this`earlyInboundMessages, this`phase
      modifies this`transportClosePromise, this`surroundings
      ensures View() == old(TaskEndsStep(View(), ok))
    {
      if !ok {
        Fail(InboundProcessingFailed);
      }
      surroundings := surroundings.(running := false);
      pendingInboundCount := pendingInboundCount - 1;
    }
  }
}
