/**
  Debounced delivery of the protocol trace to one subscriber. Every critical section of the state
  mutex is one step; a send happens in a later step while the delivery lock stays held.
  Source: src-tauri/src/protocol_trace.rs.
 */
module TraceDelivery {
  import opened Prelude
  import opened TraceRing

  datatype Subscriber = Subscriber(windowLabel: string, generation: nat)

  datatype Batch = Batch(reset: bool, entries: seq<Entry>, oldestSequence: Option<nat>,
                         retainedCount: nat, retainedBytes: nat, evictedCount: nat)

  datatype Origin = FromSubscribe | FromClear | FromFlush

  // Who holds the delivery lock between leaving the state mutex and the outcome of the send.
  datatype Delivery = Idle | Sending(to: Subscriber, batch: Batch, origin: Origin)

  // The hub's fields, plus what the model must remember about its environment:
  // recorders past the state mutex that have not called schedule_delivery yet, spawned flushes
  // that have not entered their critical section, subscribe calls waiting for the delivery lock,
  // and for each subscription what its channel received since the last reset batch.
  datatype Hub = Hub(ring: Ring, pendingStart: Option<nat>, subscriber: Option<Subscriber>,
                     enabled: bool, deliveryScheduled: bool, nextSequence: nat, nextGeneration: nat,
                     delivery: Delivery, recorders: nat, flushes: nat,
                     subscribing: map<nat, string>, received: map<nat, seq<Entry>>)

  const InitialHub := Hub(EmptyRing, None, None, false, false, 1, 1, Idle, 0, 0, map[], map[])

  function From(entries: seq<Entry>, start: nat): (r: seq<Entry>)
    ensures forall e :: e in r <==> e in entries && e.sequence >= start
  {
    if entries == [] then []
    else if entries[0].sequence >= start then [entries[0]] + From(entries[1..], start)
    else From(entries[1..], start)
  }

  function Snapshot(ring: Ring, reset: bool, entries: seq<Entry>): Batch {
    Batch(reset, entries,
          if ring.entries == [] then None else Some(ring.entries[0].sequence),
          |ring.entries|, ring.retainedBytes, ring.evictedCount)
  }

  function ReceivedBy(s: Hub, generation: nat): seq<Entry> {
    if generation in s.received then s.received[generation] else []
  }

  // The receiver replaces its log on a reset batch and appends otherwise.
  function Absorb(log: seq<Entry>, batch: Batch): seq<Entry> {
    if batch.reset then batch.entries else log + batch.entries
  }

  // ---- Steps ------------------------------------------------------------------------------

  datatype Step =
    | Record(context: Context, direction: Direction, envelope: Envelope, payloadBytes: nat)
    | ScheduleDelivery
    | BeginFlush
    | FinishSend(delivered: bool)
    | AllocateGeneration(window: string)
    | BeginSubscribe(generation: nat)
    | Unsubscribe(window: string, generation: nat)
    | DisconnectWindow(window: string)
    | BeginClear(window: string)

  // The locked part of `record`: the unlocked flag test before it may have seen an older value.
  function RecordStep(s: Hub, context: Context, direction: Direction, envelope: Envelope,
                      payloadBytes: nat): Hub
  {
    if s.subscriber.None? then s
    else Recorded(s, Append(s.ring, context, direction, InspectValue(envelope), payloadBytes, s.nextSequence))
  }

  function Recorded(s: Hub, ring: Ring): Hub {
    s.(ring := ring,
       pendingStart := Some(if s.pendingStart.Some? then s.pendingStart.value else s.nextSequence),
       nextSequence := s.nextSequence + 1,
       recorders := s.recorders + 1)
  }

  function ScheduleStep(s: Hub): Hub {
    if s.recorders == 0 then s
    else if s.deliveryScheduled then s.(recorders := s.recorders - 1)
    else s.(recorders := s.recorders - 1, deliveryScheduled := true, flushes := s.flushes + 1)
  }

  function BeginFlushStep(s: Hub): Hub {
    if s.flushes == 0 || s.delivery.Sending? then s
    else
      var s' := s.(flushes := s.flushes - 1, deliveryScheduled := false, pendingStart := None);
      if s.subscriber.None? || s.pendingStart.None? then s'
      else
        var entries := From(s.ring.entries, s.pendingStart.value);
        if entries == [] then s'
        else s'.(delivery := Sending(s.subscriber.value, Snapshot(s.ring, false, entries), FromFlush))
  }

  function ClearSubscription(s: Hub): Hub {
    s.(subscriber := None, ring := EmptyRing, pendingStart := None, enabled := false)
  }

  function UnsubscribeStep(s: Hub, window: string, generation: nat): Hub {
    if s.subscriber == Some(Subscriber(window, generation)) then ClearSubscription(s) else s
  }

  function DisconnectStep(s: Hub, window: string): Hub {
    if s.subscriber.Some? && s.subscriber.value.windowLabel == window then ClearSubscription(s) else s
  }

  function FinishSendStep(s: Hub, delivered: bool): Hub {
    match s.delivery
    case Idle => s
    case Sending(to, batch, origin) =>
      var s' := s.(delivery := Idle);
      if delivered then
        s'.(received := s.received[to.generation := Absorb(ReceivedBy(s, to.generation), batch)])
      else if origin.FromClear? then DisconnectStep(s', to.windowLabel)
      else UnsubscribeStep(s', to.windowLabel, to.generation)
  }

  function AllocateStep(s: Hub, window: string): Hub {
    s.(nextGeneration := s.nextGeneration + 1, subscribing := s.subscribing[s.nextGeneration := window])
  }

  function BeginSubscribeStep(s: Hub, generation: nat): Hub {
    if generation !in s.subscribing || s.delivery.Sending? then s
    else
      var subscriber := Subscriber(s.subscribing[generation], generation);
      s.(ring := EmptyRing, pendingStart := None, subscriber := Some(subscriber), enabled := true,
         subscribing := s.subscribing - {generation},
         delivery := Sending(subscriber, Batch(true, [], None, 0, 0, 0), FromSubscribe))
  }

  function BeginClearStep(s: Hub, window: string): Hub {
    if s.delivery.Sending? || s.subscriber.None? || s.subscriber.value.windowLabel != window then s
    else s.(ring := EmptyRing, pendingStart := None,
            delivery := Sending(s.subscriber.value, Snapshot(EmptyRing, true, []), FromClear))
  }

  function Next(s: Hub, step: Step): Hub {
    match step
    case Record(context, direction, envelope, bytes) => RecordStep(s, context, direction, envelope, bytes)
    case ScheduleDelivery => ScheduleStep(s)
    case BeginFlush => BeginFlushStep(s)
    case FinishSend(delivered) => FinishSendStep(s, delivered)
    case AllocateGeneration(window) => AllocateStep(s, window)
    case BeginSubscribe(generation) => BeginSubscribeStep(s, generation)
    case Unsubscribe(window, generation) => UnsubscribeStep(s, window, generation)
    case DisconnectWindow(window) => DisconnectStep(s, window)
    case BeginClear(window) => BeginClearStep(s, window)
  }

  // The sanitiser never produces a longer payload.
  predicate StepBounded(step: Step) {
    step.Record? ==> step.payloadBytes <= MAX_PAYLOAD_BYTES + TRUNCATION_MARK_BYTES
  }

  function Run(s: Hub, steps: seq<Step>): Hub
    decreases |steps|
  {
    if steps == [] then s else Run(Next(s, steps[0]), steps[1..])
  }

  // ---- Invariants ---------------------------------------------------------------------------

  // A wake-up is never lost: entries waiting for delivery imply a flush that will look at them,
  // or a recorder that is still about to schedule one.
  ghost predicate WakeUpInv(s: Hub) {
    && s.flushes == (if s.deliveryScheduled then 1 else 0)
    && (s.pendingStart.Some? ==> s.deliveryScheduled || s.recorders > 0)
  }

  ghost predicate SubscriptionInv(s: Hub) {
    && s.enabled == s.subscriber.Some?
    && (s.delivery.Sending? && s.subscriber.Some? ==> s.delivery.to == s.subscriber.value)
    && (s.delivery.Sending? && s.delivery.batch.reset ==> s.delivery.batch.entries == [])
    && (s.subscriber.None? ==> s.ring == EmptyRing && s.pendingStart.None?)
    && (forall g <- s.subscribing :: g < s.nextGeneration)
    && (s.subscriber.Some? ==>
          s.subscriber.value.generation < s.nextGeneration
          && s.subscriber.value.generation !in s.subscribing)
  }

  // What the current subscriber has received once the send in progress lands.
  function Delivered(s: Hub): seq<Entry>
    requires s.subscriber.Some?
  {
    var log := ReceivedBy(s, s.subscriber.value.generation);
    if s.delivery.Sending? then Absorb(log, s.delivery.batch) else log
  }

  function Cut(s: Hub): nat {
    if s.pendingStart.Some? then s.pendingStart.value else s.nextSequence
  }

  ghost predicate StreamInv(delivered: seq<Entry>, retained: seq<Entry>, cut: nat) {
    && Ascending(delivered)
    && (forall d <- delivered :: d.sequence < cut)
    && (forall e <- retained :: e.sequence < cut ==> e in delivered)
    && (forall d <- delivered :: retained != [] && d.sequence >= retained[0].sequence ==> d in retained)
    && (retained == [] ==> delivered == [])
  }

  ghost predicate PendingInv(s: Hub) {
    s.pendingStart.Some? ==>
      && s.ring.entries != []
      && s.ring.entries[|s.ring.entries| - 1].sequence >= s.pendingStart.value
      && s.pendingStart.value < s.nextSequence
  }

  ghost predicate DeliveryInv(s: Hub) {
    s.subscriber.Some? ==> StreamInv(Delivered(s), s.ring.entries, Cut(s))
  }

  ghost predicate HubInv(s: Hub) {
    && RingInv(s.ring, s.nextSequence)
    && WakeUpInv(s)
    && SubscriptionInv(s)
    && PendingInv(s)
    && DeliveryInv(s)
  }

  // ---- Proofs -------------------------------------------------------------------------------

  lemma NonEmptyHasMember(s: seq<Entry>)
    ensures s == [] || exists e :: e in s
  {
    if s != [] {
      assert s[0] in s;
    }
  }

  lemma SameOldest(a: seq<Entry>, b: seq<Entry>)
    requires Ascending(a) && Ascending(b) && a != [] && b != []
    requires a[0] in b && b[0] in a
    ensures a[0] == b[0]
  {
    var i :| 0 <= i < |b| && b[i] == a[0];
    var j :| 0 <= j < |a| && a[j] == b[0];
  }

  lemma OldestIsOnce(a: seq<Entry>)
    requires Ascending(a) && a != []
    ensures Ascending(a[1..]) && forall e :: e in a[1..] <==> e in a && e != a[0]
  {
    assert a == [a[0]] + a[1..];
  }

  lemma {:induction false} AscendingByElements(a: seq<Entry>, b: seq<Entry>)
    requires Ascending(a) && Ascending(b)
    requires forall e :: e in a <==> e in b
    ensures a == b
  {
    NonEmptyHasMember(a);
    NonEmptyHasMember(b);
    if a != [] && b != [] {
      assert a[0] in a && b[0] in b;
      SameOldest(a, b);
      OldestIsOnce(a);
      OldestIsOnce(b);
      hide Ascending;
      AscendingByElements(a[1..], b[1..]);
      assert a == [a[0]] + a[1..] && b == [b[0]] + b[1..];
    }
  }

  lemma {:induction false} FromAscends(entries: seq<Entry>, start: nat)
    requires Ascending(entries)
    ensures Ascending(From(entries, start))
  {
    if entries != [] {
      FromAscends(entries[1..], start);
      var rest := From(entries[1..], start);
      forall e | e in rest ensures entries[0].sequence < e.sequence {
        assert e in entries[1..];
      }
    }
  }

  lemma EmptyRingInv(nextSequence: nat)
    ensures RingInv(EmptyRing, nextSequence)
  {
  }

  // What recording does to the retained entries: append one, then drop some of the oldest.
  ghost predicate Extends(before: seq<Entry>, after: seq<Entry>, e: Entry, k: nat, sequence: nat) {
    && k <= |before|
    && e.sequence == sequence
    && Ascending(before + [e])
    && after == (before + [e])[k..]
  }

  lemma AppendedRing(r: Ring, context: Context, direction: Direction, envelope: Envelope, bytes: nat, sequence: nat)
    returns (e: Entry, k: nat)
    requires RingInv(r, sequence) && bytes <= MAX_PAYLOAD_BYTES + TRUNCATION_MARK_BYTES
    ensures Extends(r.entries, Append(r, context, direction, InspectValue(envelope), bytes, sequence).entries,
                    e, k, sequence)
    ensures RingInv(Append(r, context, direction, InspectValue(envelope), bytes, sequence), sequence + 1)
  {
    AppendKeepsInv(r, context, direction, envelope, bytes, sequence);
    var pushed := Push(r, context, direction, InspectValue(envelope), bytes, sequence);
    PushKeepsConsistent(r, context, direction, envelope, bytes, sequence);
    NewestSurvives(pushed, sequence + 1);
    k := EvictKeepsLongestFittingSuffix(pushed, sequence + 1);
    e := pushed.entries[|r.entries|];
  }

  lemma RecordKeepsInv(s: Hub, context: Context, direction: Direction, envelope: Envelope, bytes: nat)
    requires HubInv(s) && bytes <= MAX_PAYLOAD_BYTES + TRUNCATION_MARK_BYTES
    ensures HubInv(RecordStep(s, context, direction, envelope, bytes))
  {
    if s.subscriber.Some? {
      hide Append, HubInv, RingInv, Extends;
      assert RingInv(s.ring, s.nextSequence) by { RingOfHub(s); }
      var ring := Append(s.ring, context, direction, InspectValue(envelope), bytes, s.nextSequence);
      var e, k := AppendedRing(s.ring, context, direction, envelope, bytes, s.nextSequence);
      RecordedKeepsInv(s, ring, e, k);
    }
  }

  lemma RingOfHub(s: Hub)
    requires HubInv(s)
    ensures RingInv(s.ring, s.nextSequence)
  {
  }

  lemma RecordedKeepsInv(s: Hub, ring: Ring, e: Entry, k: nat)
    requires HubInv(s) && s.subscriber.Some?
    requires RingInv(ring, s.nextSequence + 1) && Extends(s.ring.entries, ring.entries, e, k, s.nextSequence)
    ensures HubInv(Recorded(s, ring))
  {
    hide RingInv, WakeUpInv, SubscriptionInv, PendingInv, DeliveryInv, Extends;
    RecordedKeepsCore(s, ring, e, k);
    RecordedKeepsDelivery(s, ring, e, k);
  }

  lemma RecordedKeepsCore(s: Hub, ring: Ring, e: Entry, k: nat)
    requires WakeUpInv(s) && SubscriptionInv(s) && PendingInv(s) && s.subscriber.Some?
    requires Extends(s.ring.entries, ring.entries, e, k, s.nextSequence)
    ensures WakeUpInv(Recorded(s, ring)) && SubscriptionInv(Recorded(s, ring)) && PendingInv(Recorded(s, ring))
  {
    assert ring.entries[|ring.entries| - 1] == e;
  }

  lemma RecordedKeepsDelivery(s: Hub, ring: Ring, e: Entry, k: nat)
    requires DeliveryInv(s) && PendingInv(s) && s.subscriber.Some?
    requires Extends(s.ring.entries, ring.entries, e, k, s.nextSequence)
    ensures DeliveryInv(Recorded(s, ring))
  {
    RetainingASuffixKeepsStream(Delivered(s), s.ring.entries, e, k, Cut(s));
  }

  lemma RetainingASuffixKeepsStream(delivered: seq<Entry>, retained: seq<Entry>, e: Entry, k: nat, cut: nat)
    requires StreamInv(delivered, retained, cut)
    requires Ascending(retained + [e]) && cut <= e.sequence
    requires k < |retained| + 1
    ensures StreamInv(delivered, (retained + [e])[k..], cut)
  {
    var all := retained + [e];
    forall d <- delivered | d.sequence >= all[k].sequence
      ensures d in all[k..]
    {
      assert d.sequence < e.sequence && all[|retained|] == e;
      assert k < |retained|;
      assert all[0].sequence <= all[k].sequence && all[0] == retained[0];
      var i :| 0 <= i < |retained| && retained[i] == d;
      assert all[i] == d;
      if i < k {
        assert false;
      }
      assert all[k..][i - k] == d;
    }
    forall x <- all[k..] | x.sequence < cut
      ensures x in delivered
    {
      assert x in all;
      assert x in retained;
    }
  }

  lemma BeginFlushKeepsInv(s: Hub)
    requires HubInv(s)
    ensures HubInv(BeginFlushStep(s))
  {
    if s.flushes > 0 && s.delivery.Idle? && s.subscriber.Some? && s.pendingStart.Some? {
      FlushBatchIsNotEmpty(s);
      SendingPendingKeepsStream(Delivered(s), s.ring.entries, s.pendingStart.value, s.nextSequence);
    }
  }

  lemma SendingPendingKeepsStream(delivered: seq<Entry>, retained: seq<Entry>, start: nat, next: nat)
    requires StreamInv(delivered, retained, start) && Ascending(retained)
    requires forall e <- retained :: e.sequence < next
    requires start <= next
    ensures StreamInv(delivered + From(retained, start), retained, next)
  {
    FromAscends(retained, start);
  }

  // The early return on an empty batch is unreachable: the newest recorded entry is still retained
  // and not older than the start of the pending range.
  lemma FlushBatchIsNotEmpty(s: Hub)
    requires HubInv(s) && s.subscriber.Some? && s.pendingStart.Some?
    ensures From(s.ring.entries, s.pendingStart.value) != []
  {
    var newest := s.ring.entries[|s.ring.entries| - 1];
    assert newest in From(s.ring.entries, s.pendingStart.value);
  }

  lemma EndingSubscriptionKeepsInv(s: Hub)
    requires HubInv(s)
    ensures HubInv(ClearSubscription(s))
  {
    EmptyRingInv(s.nextSequence);
  }

  lemma FinishSendKeepsInv(s: Hub, delivered: bool)
    requires HubInv(s)
    ensures HubInv(FinishSendStep(s, delivered))
  {
    hide RingInv, StreamInv;
    if s.delivery.Sending? {
      if delivered {
        LandingKeepsInv(s);
      } else {
        EndingSubscriptionKeepsInv(s);
      }
    }
  }

  lemma LandingKeepsInv(s: Hub)
    requires WakeUpInv(s) && SubscriptionInv(s) && PendingInv(s) && DeliveryInv(s) && s.delivery.Sending?
    ensures var s' := FinishSendStep(s, true);
            WakeUpInv(s') && SubscriptionInv(s') && PendingInv(s') && DeliveryInv(s') && s'.ring == s.ring
  {
    var s' := FinishSendStep(s, true);
    if s.subscriber.Some? {
      assert Delivered(s') == Delivered(s);
    }
  }

  lemma BeginSubscribeKeepsInv(s: Hub, generation: nat)
    requires HubInv(s)
    ensures HubInv(BeginSubscribeStep(s, generation))
  {
    EmptyRingInv(s.nextSequence);
  }

  lemma BeginClearKeepsInv(s: Hub, window: string)
    requires HubInv(s)
    ensures HubInv(BeginClearStep(s, window))
  {
    EmptyRingInv(s.nextSequence);
  }

  lemma ScheduleKeepsInv(s: Hub)
    requires HubInv(s)
    ensures HubInv(ScheduleStep(s))
  {
    hide RingInv, StreamInv;
  }

  lemma AllocateKeepsInv(s: Hub, window: string)
    requires HubInv(s)
    ensures HubInv(AllocateStep(s, window))
  {
    hide RingInv, StreamInv;
  }

  lemma NextKeepsInv(s: Hub, step: Step)
    requires HubInv(s) && StepBounded(step)
    ensures HubInv(Next(s, step))
  {
    hide HubInv;
    match step
    case Record(context, direction, envelope, bytes) => RecordKeepsInv(s, context, direction, envelope, bytes);
    case BeginFlush => BeginFlushKeepsInv(s);
    case FinishSend(delivered) => FinishSendKeepsInv(s, delivered);
    case BeginSubscribe(generation) => BeginSubscribeKeepsInv(s, generation);
    case BeginClear(window) => BeginClearKeepsInv(s, window);
    case Unsubscribe(window, generation) => EndingSubscriptionKeepsInv(s);
    case DisconnectWindow(window) => EndingSubscriptionKeepsInv(s);
    case ScheduleDelivery => ScheduleKeepsInv(s);
    case AllocateGeneration(window) => AllocateKeepsInv(s, window);
  }

  lemma {:induction false} RunKeepsInv(s: Hub, steps: seq<Step>)
    requires HubInv(s)
    requires forall step <- steps :: StepBounded(step)
    ensures HubInv(Run(s, steps))
    decreases |steps|
  {
    if steps != [] {
      NextKeepsInv(s, steps[0]);
      RunKeepsInv(Next(s, steps[0]), steps[1..]);
    }
  }

  lemma InitialHubInv()
    ensures HubInv(InitialHub)
  {
    EmptyRingInv(1);
  }

  // No lost wake-up, over every run from the initial hub.
  lemma NoLostWakeUp(steps: seq<Step>)
    requires forall step <- steps :: StepBounded(step)
    ensures var s := Run(InitialHub, steps);
            s.pendingStart.Some? ==> s.flushes > 0 || s.recorders > 0
  {
    InitialHubInv();
    RunKeepsInv(InitialHub, steps);
  }

  lemma ReceivedTailIsRetained(delivered: seq<Entry>, retained: seq<Entry>, cut: nat)
    requires StreamInv(delivered, retained, cut) && Ascending(retained) && retained != []
    requires forall e <- retained :: e.sequence < cut
    ensures From(delivered, retained[0].sequence) == retained
  {
    FromAscends(delivered, retained[0].sequence);
    AscendingByElements(From(delivered, retained[0].sequence), retained);
  }

  // Over every run, what one subscription received since its last reset has strictly increasing
  // sequence numbers, and each flush brings it up to date: from the oldest retained sequence on,
  // the receiver then has exactly the retained entries.
  lemma EachFlushCatchesUp(steps: seq<Step>)
    requires forall step <- steps :: StepBounded(step)
    requires var s := Run(InitialHub, steps); s.flushes > 0 && s.delivery.Idle? && s.pendingStart.Some?
    ensures var s := Run(InitialHub, steps);
            var sending := BeginFlushStep(s);
            var after := FinishSendStep(sending, true);
            && sending.delivery.Sending?
            && sending.delivery.batch.oldestSequence == Some(s.ring.entries[0].sequence)
            && (var log := ReceivedBy(after, s.subscriber.value.generation);
                Ascending(log) && From(log, s.ring.entries[0].sequence) == s.ring.entries)
  {
    InitialHubInv();
    RunKeepsInv(InitialHub, steps);
    FlushCatchesUp(Run(InitialHub, steps));
  }

  lemma FlushCatchesUp(s: Hub)
    requires HubInv(s) && s.flushes > 0 && s.delivery.Idle? && s.pendingStart.Some?
    ensures var sending := BeginFlushStep(s);
            var after := FinishSendStep(sending, true);
            && sending.delivery.Sending?
            && sending.delivery.batch.oldestSequence == Some(s.ring.entries[0].sequence)
            && (var log := ReceivedBy(after, s.subscriber.value.generation);
                Ascending(log) && From(log, s.ring.entries[0].sequence) == s.ring.entries)
  {
    hide Evict, Tracks;
    FlushBatchIsNotEmpty(s);
    SendingPendingKeepsStream(Delivered(s), s.ring.entries, s.pendingStart.value, s.nextSequence);
    ReceivedTailIsRetained(Delivered(s) + From(s.ring.entries, s.pendingStart.value), s.ring.entries, s.nextSequence);
  }

  // The retained entries that were recorded before the one with this sequence number.
  function Before(entries: seq<Entry>, cut: nat): (r: seq<Entry>)
    ensures forall e :: e in r <==> e in entries && e.sequence < cut
    ensures |r| <= |entries|
  {
    if entries == [] then []
    else if entries[0].sequence < cut then [entries[0]] + Before(entries[1..], cut)
    else Before(entries[1..], cut)
  }

  lemma {:induction false} BeforeAscends(entries: seq<Entry>, cut: nat)
    requires Ascending(entries)
    ensures Ascending(Before(entries, cut))
  {
    if entries != [] {
      BeforeAscends(entries[1..], cut);
      forall e <- Before(entries[1..], cut) ensures entries[0].sequence < e.sequence {
        var i :| 0 <= i < |entries| - 1 && entries[1..][i] == e;
        assert entries[i + 1] == e;
      }
    }
  }

  lemma ReceivedIsRetainedBefore(delivered: seq<Entry>, retained: seq<Entry>, cut: nat)
    requires StreamInv(delivered, retained, cut) && Ascending(retained) && retained != []
    ensures From(delivered, retained[0].sequence) == Before(retained, cut)
  {
    FromAscends(delivered, retained[0].sequence);
    BeforeAscends(retained, cut);
    forall e <- retained ensures e.sequence >= retained[0].sequence {
    }
    AscendingByElements(From(delivered, retained[0].sequence), Before(retained, cut));
  }

  // Every log ever received is ascending since its last reset, and stays so when the send in progress lands.
  ghost predicate LogsAscend(s: Hub) {
    && (forall g <- s.received :: Ascending(s.received[g]))
    && (s.delivery.Sending? ==> Ascending(Absorb(ReceivedBy(s, s.delivery.to.generation), s.delivery.batch)))
  }

  lemma FlushKeepsLogsAscending(s: Hub)
    requires HubInv(BeginFlushStep(s)) && LogsAscend(s)
    ensures LogsAscend(BeginFlushStep(s))
  {
    hide RingInv, WakeUpInv, PendingInv, From, Ascending;
  }

  lemma FinishKeepsLogsAscending(s: Hub, delivered: bool)
    requires LogsAscend(s)
    ensures LogsAscend(FinishSendStep(s, delivered))
  {
    hide Ascending;
  }

  // A step that receives nothing and sends at most a reset.
  lemma QuietStepKeepsLogsAscending(s: Hub, s': Hub)
    requires LogsAscend(s) && s'.received == s.received
    requires s'.delivery == s.delivery
             || (s'.delivery.Sending? && s'.delivery.batch.reset && s'.delivery.batch.entries == [])
    ensures LogsAscend(s')
  {
    assert Ascending([]);
    hide Ascending;
  }

  lemma NextKeepsLogsAscending(s: Hub, step: Step)
    requires HubInv(s) && HubInv(Next(s, step)) && LogsAscend(s)
    ensures LogsAscend(Next(s, step))
  {
    if step.BeginFlush? {
      FlushKeepsLogsAscending(s);
    } else if step.FinishSend? {
      FinishKeepsLogsAscending(s, step.delivered);
    } else {
      hide HubInv, LogsAscend, Append;
      QuietStepKeepsLogsAscending(s, Next(s, step));
    }
  }

  lemma {:induction false} RunKeepsLogsAscending(s: Hub, steps: seq<Step>)
    requires HubInv(s) && LogsAscend(s) && forall step <- steps :: StepBounded(step)
    ensures HubInv(Run(s, steps)) && LogsAscend(Run(s, steps))
    decreases |steps|
  {
    hide HubInv, LogsAscend, Next;
    if steps != [] {
      NextKeepsInv(s, steps[0]);
      NextKeepsLogsAscending(s, steps[0]);
      RunKeepsLogsAscending(Next(s, steps[0]), steps[1..]);
    }
  }

  // At every moment of every run, each subscription's log since its last reset has strictly
  // increasing sequence numbers, so nothing is delivered twice or out of order.
  lemma ReceivedIsAscending(steps: seq<Step>, generation: nat)
    requires forall step <- steps :: StepBounded(step)
    ensures Ascending(ReceivedBy(Run(InitialHub, steps), generation))
  {
    InitialHubInv();
    RunKeepsLogsAscending(InitialHub, steps);
  }

  // Whatever ran between the two halves of a send: when it lands, the subscriber has from the oldest
  // retained entry on exactly the retained entries but those recorded since the flush took over.
  lemma LandedSendCatchesUp(steps: seq<Step>)
    requires forall step <- steps :: StepBounded(step)
    requires var s := Run(InitialHub, steps); s.delivery.Sending? && s.subscriber.Some? && s.ring.entries != []
    ensures var s := FinishSendStep(Run(InitialHub, steps), true);
            && s.subscriber.Some? && s.ring.entries != []
            && (var log := ReceivedBy(s, s.subscriber.value.generation);
                From(log, s.ring.entries[0].sequence)
                == (if s.pendingStart.Some? then Before(s.ring.entries, s.pendingStart.value) else s.ring.entries))
  {
    InitialHubInv();
    RunKeepsInv(InitialHub, steps);
    var s := Run(InitialHub, steps);
    LandingKeepsInv(s);
    var s' := FinishSendStep(s, true);
    if s'.pendingStart.Some? {
      ReceivedIsRetainedBefore(Delivered(s'), s'.ring.entries, Cut(s'));
    } else {
      ReceivedTailIsRetained(Delivered(s'), s'.ring.entries, Cut(s'));
    }
    hide Evict, Tracks, From, Before, Run;
  }

  // When nothing is left to run, the subscriber holds every retained entry.
  lemma QuiescentSubscriberIsUpToDate(steps: seq<Step>)
    requires forall step <- steps :: StepBounded(step)
    requires var s := Run(InitialHub, steps);
             s.recorders == 0 && s.flushes == 0 && s.delivery.Idle? && s.subscriber.Some?
    ensures var s := Run(InitialHub, steps);
            var log := ReceivedBy(s, s.subscriber.value.generation);
            var oldest := if s.ring.entries == [] then 0 else s.ring.entries[0].sequence;
            Ascending(log) && From(log, oldest) == s.ring.entries
  {
    InitialHubInv();
    RunKeepsInv(InitialHub, steps);
    var s := Run(InitialHub, steps);
    if s.ring.entries != [] {
      ReceivedTailIsRetained(Delivered(s), s.ring.entries, Cut(s));
    }
  }

  // ---- What each step does to the subscription -------------------------------------------------

  // The subscription is gone and nothing of it is retained; everything else is as it was.
  ghost predicate Ends(s: Hub, s': Hub) {
    s' == s.(subscriber := None, enabled := false, ring := Ring([], 0, 0, map[]), pendingStart := None)
  }

  // Unsubscribing is heard by exactly the generation it names: a late call of an earlier
  // subscription of the same window changes nothing.
  lemma UnsubscribeEndsOnlyItsGeneration(s: Hub, window: string, generation: nat)
    ensures var s' := Next(s, Unsubscribe(window, generation));
            if s.subscriber == Some(Subscriber(window, generation)) then Ends(s, s') else s' == s
  {
  }

  // Losing a window ends its subscription of whatever generation, and no other window's.
  lemma DisconnectEndsOnlyItsWindow(s: Hub, window: string)
    ensures var s' := Next(s, DisconnectWindow(window));
            if s.subscriber.Some? && s.subscriber.value.windowLabel == window then Ends(s, s') else s' == s
  {
  }

  // A failed send releases the delivery lock and ends the subscription it was for; only after a
  // failed reset of a cleared trace does it end a later subscription of the same window.
  lemma FailedSendEndsItsSubscription(s: Hub)
    requires s.delivery.Sending?
    ensures var idle, s', to := s.(delivery := Idle), Next(s, FinishSend(false)), s.delivery.to;
            var meant := s.subscriber.Some?
                         && (if s.delivery.origin == FromClear then s.subscriber.value.windowLabel == to.windowLabel
                             else s.subscriber.value == to);
            if meant then Ends(idle, s') else s' == idle
  {
  }

  // In reachable states that later subscription cannot exist: it would have had to wait for the lock.
  lemma FailedSendNamesTheSubscriber(s: Hub)
    requires HubInv(s) && s.delivery.Sending? && s.subscriber.Some?
    ensures s.delivery.to == s.subscriber.value
    ensures Ends(s.(delivery := Idle), Next(s, FinishSend(false)))
  {
    hide RingInv, WakeUpInv, PendingInv, DeliveryInv;
  }

  // A landed send is received by the subscription it was sent to, and nothing else changes.
  lemma LandedSendIsReceived(s: Hub)
    requires s.delivery.Sending?
    ensures var s', batch, to := Next(s, FinishSend(true)), s.delivery.batch, s.delivery.to.generation;
            && s' == s.(delivery := Idle, received := s'.received)
            && ReceivedBy(s', to) == (if batch.reset then [] else ReceivedBy(s, to)) + batch.entries
            && forall g :: g != to ==> ReceivedBy(s', g) == ReceivedBy(s, g)
  {
  }

  // A waiting subscription that gets the lock takes over, with nothing retained and an empty reset
  // on its way.
  lemma SubscribingStartsAfresh(s: Hub, generation: nat)
    requires generation in s.subscribing && s.delivery.Idle?
    ensures var s' := Next(s, BeginSubscribe(generation));
            && s'.subscriber == Some(Subscriber(s.subscribing[generation], generation)) && s'.enabled
            && s'.ring == Ring([], 0, 0, map[]) && s'.pendingStart == None
            && s'.delivery == Sending(s'.subscriber.value, Batch(true, [], None, 0, 0, 0), FromSubscribe)
            && s'.subscribing == s.subscribing - {generation}
            && (s'.nextSequence, s'.nextGeneration, s'.received, s'.recorders, s'.flushes, s'.deliveryScheduled)
               == (s.nextSequence, s.nextGeneration, s.received, s.recorders, s.flushes, s.deliveryScheduled)
  {
  }

  // Clearing keeps the subscription of the window that asked and sends it an empty reset; another
  // window's request is refused.
  lemma ClearingKeepsTheSubscription(s: Hub, window: string)
    requires s.delivery.Idle?
    ensures var s' := Next(s, BeginClear(window));
            if s.subscriber.Some? && s.subscriber.value.windowLabel == window then
              s' == s.(ring := Ring([], 0, 0, map[]), pendingStart := None,
                       delivery := Sending(s.subscriber.value, Batch(true, [], None, 0, 0, 0), FromClear))
            else s' == s
  {
  }

  // Generations are never handed out twice.
  lemma GenerationsAreFresh(s: Hub, window: string)
    requires HubInv(s)
    ensures var s' := Next(s, AllocateGeneration(window));
            && s' == s.(nextGeneration := s'.nextGeneration, subscribing := s'.subscribing)
            && (exists g: nat :: g !in s.subscribing && s'.subscribing == s.subscribing[g := window]
                            && (s.subscriber.Some? ==> g != s.subscriber.value.generation) && g < s'.nextGeneration)
            && s.nextGeneration < s'.nextGeneration
  {
    hide RingInv, WakeUpInv, PendingInv, DeliveryInv;
    assert s.nextGeneration !in s.subscribing;
  }

  // The steps that can end a subscription: by its generation, by its window, by a failed send to
  // it, or because another one that was waiting for the lock takes over.
  ghost predicate Names(s: Hub, step: Step, subscriber: Subscriber) {
    match step
    case Unsubscribe(window, generation) => subscriber == Subscriber(window, generation)
    case DisconnectWindow(window) => subscriber.windowLabel == window
    case FinishSend(delivered) => !delivered && s.delivery.Sending? && s.delivery.to == subscriber
    case BeginSubscribe(generation) =>
      generation in s.subscribing && s.delivery.Idle? && generation != subscriber.generation
    case _ => false
  }

  lemma SubscriptionEndsIffNamed(s: Hub, step: Step)
    requires HubInv(s) && s.subscriber.Some?
    ensures Next(s, step).subscriber == s.subscriber <==> !Names(s, step, s.subscriber.value)
  {
    hide RingInv, WakeUpInv, PendingInv, DeliveryInv, Append, From;
  }

  // A subscription that is over stays over: its generation is spent.
  ghost predicate Spent(s: Hub, subscriber: Subscriber) {
    && s.subscriber != Some(subscriber)
    && subscriber.generation < s.nextGeneration
    && subscriber.generation !in s.subscribing
  }

  lemma SpentStaysSpent(s: Hub, step: Step, subscriber: Subscriber)
    requires Spent(s, subscriber)
    ensures Spent(Next(s, step), subscriber)
  {
    hide Append, From;
  }

  lemma EndedIsSpent(s: Hub, step: Step)
    requires HubInv(s) && s.subscriber.Some? && Names(s, step, s.subscriber.value)
    ensures Spent(Next(s, step), s.subscriber.value)
  {
    hide RingInv, WakeUpInv, PendingInv, DeliveryInv, Append, From;
  }

  lemma {:induction false} SpentStaysSpentInRuns(s: Hub, steps: seq<Step>, subscriber: Subscriber)
    requires Spent(s, subscriber)
    ensures Spent(Run(s, steps), subscriber)
    decreases |steps|
  {
    hide Spent, Next;
    if steps != [] {
      SpentStaysSpent(s, steps[0], subscriber);
      SpentStaysSpentInRuns(Next(s, steps[0]), steps[1..], subscriber);
    }
  }

  // Over every run: a subscription lasts exactly until the first step that names it.
  lemma {:induction false} SubscriptionLastsUntilNamed(s: Hub, steps: seq<Step>)
    requires HubInv(s) && s.subscriber.Some? && forall step <- steps :: StepBounded(step)
    ensures Run(s, steps).subscriber == s.subscriber
            <==> forall i :: 0 <= i < |steps| ==> !Names(Run(s, steps[..i]), steps[i], s.subscriber.value)
    decreases |steps|
  {
    hide HubInv, Names, Next, Spent;
    var subscriber := s.subscriber.value;
    if steps != [] {
      var s', rest := Next(s, steps[0]), steps[1..];
      assert steps[..0] == [];
      forall i | 0 <= i < |rest| ensures Run(s, steps[..i + 1]) == Run(s', rest[..i]) && steps[i + 1] == rest[i] {
        assert steps[..i + 1][0] == steps[0] && steps[..i + 1][1..] == rest[..i];
      }
      SubscriptionEndsIffNamed(s, steps[0]);
      if Names(s, steps[0], subscriber) {
        EndedIsSpent(s, steps[0]);
        SpentStaysSpentInRuns(s', rest, subscriber);
        SpentIsOver(Run(s, steps), subscriber);
        assert Names(Run(s, steps[..0]), steps[0], subscriber);
      } else {
        NextKeepsInv(s, steps[0]);
        SubscriptionLastsUntilNamed(s', rest);
        forall i | 0 <= i < |steps| ensures i > 0 ==> Run(s, steps[..i]) == Run(s', rest[..i - 1]) && steps[i] == rest[i - 1] {
        }
      }
    }
  }

  lemma SpentIsOver(s: Hub, subscriber: Subscriber)
    requires Spent(s, subscriber)
    ensures s.subscriber != Some(subscriber)
  {
  }

  // ---- What recording and flushing do -----------------------------------------------------------

  ghost predicate IsEntryOf(e: Entry, sequence: nat, context: Context, direction: Direction, envelope: Envelope,
                            payloadBytes: nat) {
    && (e.sequence, e.direction, e.connectionId, e.requestId, e.payloadBytes)
       == (sequence, direction, context.connectionId, envelope.id, payloadBytes)
    && (e.kind == Request <==> envelope.rpcMethod.Some? && envelope.id.Some?)
    && (e.kind == Notification <==> envelope.rpcMethod.Some? && envelope.id.None?)
    && (e.kind == Response <==> envelope.rpcMethod.None? && envelope.id.Some? && envelope.hasOutcome)
    && (e.kind != Response ==> e.rpcMethod == envelope.rpcMethod && e.windowLabel == context.windowLabel)
  }

  // The retained entries become the longest suffix that fits of what was retained and the new entry.
  ghost predicate RetainsWith(before: Ring, after: Ring, e: Entry, k: nat) {
    && k <= |before.entries| && after.entries == (before.entries + [e])[k..] && Fits(after.entries)
    && (forall j :: 0 <= j < k ==> !Fits((before.entries + [e])[j..]))
    && after.evictedCount == Min(before.evictedCount + k, Max(before.evictedCount, U64_MAX))
  }

  lemma AppendRetains(r: Ring, context: Context, direction: Direction, envelope: Envelope, bytes: nat, sequence: nat)
    returns (e: Entry, k: nat)
    requires RingInv(r, sequence) && bytes <= MAX_PAYLOAD_BYTES + TRUNCATION_MARK_BYTES
    ensures IsEntryOf(e, sequence, context, direction, envelope, bytes)
    ensures RetainsWith(r, Append(r, context, direction, InspectValue(envelope), bytes, sequence), e, k)
  {
    var pushed := Push(r, context, direction, InspectValue(envelope), bytes, sequence);
    PushKeepsConsistent(r, context, direction, envelope, bytes, sequence);
    NewestSurvives(pushed, sequence + 1);
    k := EvictKeepsLongestFittingSuffix(pushed, sequence + 1);
    e := pushed.entries[|r.entries|];
  }

  // Without a subscriber nothing is recorded; with one the message joins the retained entries under
  // the next sequence number, and waits for delivery behind what is waiting already.
  lemma RecordingAppends(s: Hub, context: Context, direction: Direction, envelope: Envelope, bytes: nat)
    returns (e: Entry, k: nat)
    requires HubInv(s) && bytes <= MAX_PAYLOAD_BYTES + TRUNCATION_MARK_BYTES
    ensures var s' := Next(s, Record(context, direction, envelope, bytes));
            if s.subscriber.None? then s' == s
            else
              && IsEntryOf(e, s.nextSequence, context, direction, envelope, bytes)
              && RetainsWith(s.ring, s'.ring, e, k)
              && s'.pendingStart == (if s.pendingStart.None? then Some(e.sequence) else s.pendingStart)
              && s' == s.(ring := s'.ring, pendingStart := s'.pendingStart, nextSequence := s.nextSequence + 1,
                          recorders := s.recorders + 1)
  {
    RingOfHub(s);
    hide RingInv, HubInv, Append, RetainsWith, IsEntryOf, InspectValue;
    e, k := AppendRetains(s.ring, context, direction, envelope, bytes, s.nextSequence);
  }

  // A flush with something to deliver sends it to the subscriber along with what the ring holds.
  lemma FlushReportsTheRing(s: Hub)
    requires HubInv(s) && s.flushes > 0 && s.delivery.Idle? && s.pendingStart.Some?
    ensures var s' := Next(s, BeginFlush);
            && s'.delivery.Sending? && s.subscriber == Some(s'.delivery.to) && s'.delivery.origin == FromFlush
            && (var batch := s'.delivery.batch;
                && !batch.reset
                && (forall e :: e in batch.entries <==> e in s.ring.entries && e.sequence >= s.pendingStart.value)
                && Ascending(batch.entries)
                && (batch.oldestSequence, batch.retainedCount, batch.retainedBytes, batch.evictedCount)
                   == (Some(s.ring.entries[0].sequence), |s.ring.entries|, TotalBytes(s.ring.entries), s.ring.evictedCount))
            && s' == s.(delivery := s'.delivery, flushes := s.flushes - 1, deliveryScheduled := false, pendingStart := None)
  {
    hide HubInv, From, Ascending, Next, TotalBytes;
    RingCounts(s);
    FlushSends(s);
    FromAscends(s.ring.entries, s.pendingStart.value);
  }

  lemma FlushSends(s: Hub)
    requires HubInv(s) && s.flushes > 0 && s.delivery.Idle? && s.pendingStart.Some?
    ensures s.subscriber.Some? && s.ring.entries != []
    ensures var batch := Batch(false, From(s.ring.entries, s.pendingStart.value), Some(s.ring.entries[0].sequence),
                               |s.ring.entries|, s.ring.retainedBytes, s.ring.evictedCount);
            Next(s, BeginFlush) == s.(delivery := Sending(s.subscriber.value, batch, FromFlush), flushes := s.flushes - 1,
                                      deliveryScheduled := false, pendingStart := None)
  {
    RingCounts(s);
    FlushBatchIsNotEmpty(s);
    hide HubInv, From;
  }

  lemma RingCounts(s: Hub)
    requires HubInv(s)
    ensures Ascending(s.ring.entries) && s.ring.retainedBytes == TotalBytes(s.ring.entries)
    ensures s.pendingStart.Some? ==> s.subscriber.Some? && s.ring.entries != []
  {
    hide Tracks, DeliveryInv, WakeUpInv, Ascending;
  }

  // ---- The hub object -------------------------------------------------------------------------

  // The hub with its fields updated in place; each method is one critical section (or the
  // compare-exchange, or the outcome of a send) and refines the step of the same name.
  class ProtocolTraceHub {
    var entries: seq<Entry>
    var retainedBytes: nat
    var evictedCount: nat
    var pendingRequests: map<Key, PendingRequest>
    var pendingDeliveryStart: Option<nat>
    var subscriber: Option<Subscriber>
    var enabled: bool
    var deliveryScheduled: bool
    var nextSequence: nat
    var nextSubscriptionGeneration: nat
    var delivery: Delivery
    var recorders: nat
    var flushes: nat
    var subscribing: map<nat, string>
    var received: map<nat, seq<Entry>>

    ghost function RingView(): Ring
      reads this
    {
      Ring(entries, retainedBytes, evictedCount, pendingRequests)
    }

    ghost function View(): Hub
      reads this
    {
      Hub(RingView(), pendingDeliveryStart, subscriber, enabled, deliveryScheduled, nextSequence,
          nextSubscriptionGeneration, delivery, recorders, flushes, subscribing, received)
    }

    constructor ()
      ensures View() == InitialHub && HubInv(View())
    {
      entries, retainedBytes, evictedCount, pendingRequests := [], 0, 0, map[];
      pendingDeliveryStart, subscriber := None, None;
      enabled, deliveryScheduled := false, false;
      nextSequence, nextSubscriptionGeneration := 1, 1;
      delivery, recorders, flushes, subscribing, received := Idle, 0, 0, map[], map[];
      new;
      InitialHubInv();
    }

    method CorrelateMessage(context: Context, direction: Direction, message: Message, sequence: nat)
      returns (answer: Correlation)
      modifies `pendingRequests
      ensures answer == CorrelateAnswer(old(pendingRequests), context, direction, message)
      ensures pendingRequests == CorrelatePending(old(pendingRequests), context, direction, message, sequence)
    {
      answer := Correlation(None, None);
      if message.requestId.None? {
        return;
      }
      var id := message.requestId.value;
      match message.kind
      case Request =>
        if message.rpcMethod.Some? {
          pendingRequests := pendingRequests[Key(context.connectionId, id, direction.Opposite())
            := PendingRequest(message.rpcMethod.value, context.windowLabel, sequence)];
        }
      case Response =>
        var key := Key(context.connectionId, id, direction);
        if key in pendingRequests {
          var request := pendingRequests[key];
          answer := Correlation(Some(request.rpcMethod), request.windowLabel);
        }
        pendingRequests := pendingRequests - {key};
      case _ =>
    }

    method EvictOverflow()
      modifies `entries, `retainedBytes, `evictedCount, `pendingRequests
      ensures RingView() == Evict(old(RingView()))
    {
      while |entries| > MAX_RETAINED_ENTRIES || retainedBytes > MAX_RETAINED_BYTES
        invariant Evict(RingView()) == Evict(old(RingView()))
        decreases |entries|
      {
        if entries == [] {
          break;
        }
        var entry := entries[0];
        entries := entries[1..];
        if entry.kind.Request? && entry.requestId.Some? {
          var key := Key(entry.connectionId, entry.requestId.value, entry.direction.Opposite());
          if key in pendingRequests && pendingRequests[key].sequence == entry.sequence {
            pendingRequests := pendingRequests - {key};
          }
        }
        retainedBytes := if entry.payloadBytes <= retainedBytes then retainedBytes - entry.payloadBytes else 0;
        evictedCount := if evictedCount < U64_MAX then evictedCount + 1 else evictedCount;
      }
    }

    method Record(context: Context, direction: Direction, envelope: Envelope, payloadBytes: nat)
      modifies this
      ensures View() == old(RecordStep(View(), context, direction, envelope, payloadBytes))
    {
      hide Push, Evict, InspectValue, HubInv;
      if subscriber.None? {
        return;
      }
      var sequence := nextSequence;
      nextSequence := nextSequence + 1;
      PushEntry(context, direction, InspectValue(envelope), payloadBytes, sequence);
      if pendingDeliveryStart.None? {
        pendingDeliveryStart := Some(sequence);
      }
      EvictOverflow();
      recorders := recorders + 1;
    }

    method PushEntry(context: Context, direction: Direction, message: Message, payloadBytes: nat, sequence: nat)
      modifies `entries, `retainedBytes, `pendingRequests
      ensures RingView() == Push(old(RingView()), context, direction, message, payloadBytes, sequence)
    {
      var answer := CorrelateMessage(context, direction, message, sequence);
      var entry := Entry(sequence, direction, context.connectionId,
                         Coalesce(answer.windowLabel, context.windowLabel), message.kind,
                         Coalesce(answer.rpcMethod, message.rpcMethod), message.requestId, payloadBytes);
      retainedBytes := retainedBytes + payloadBytes;
      entries := entries + [entry];
    }

    // The compare-exchange after the state mutex was released.
    method ScheduleDelivery()
      requires recorders > 0
      modifies this
      ensures View() == old(ScheduleStep(View()))
    {
      recorders := recorders - 1;
      if !deliveryScheduled {
        deliveryScheduled := true;
        flushes := flushes + 1;
      }
    }

    method BeginFlush()
      requires flushes > 0 && delivery.Idle?
      modifies this
      ensures View() == old(BeginFlushStep(View()))
    {
      flushes := flushes - 1;
      deliveryScheduled := false;
      var pendingStart := pendingDeliveryStart;
      pendingDeliveryStart := None;
      if subscriber.Some? && pendingStart.Some? {
        var batch := From(entries, pendingStart.value);
        if batch != [] {
          var oldest := if entries == [] then None else Some(entries[0].sequence);
          delivery := Sending(subscriber.value,
                              Batch(false, batch, oldest, |entries|, retainedBytes, evictedCount), FromFlush);
        }
      }
    }

    method ClearState()
      modifies `entries, `pendingRequests, `pendingDeliveryStart, `retainedBytes, `evictedCount
      ensures RingView() == EmptyRing && pendingDeliveryStart == None
    {
      entries := [];
      pendingRequests := map[];
      pendingDeliveryStart := None;
      retainedBytes := 0;
      evictedCount := 0;
    }

    method FinishSend(delivered: bool)
      requires delivery.Sending?
      modifies this
      ensures View() == old(FinishSendStep(View(), delivered))
    {
      var sent := delivery;
      delivery := Idle;
      if delivered {
        var log := if sent.to.generation in received then received[sent.to.generation] else [];
        received := received[sent.to.generation
          := if sent.batch.reset then sent.batch.entries else log + sent.batch.entries];
      } else if sent.origin.FromClear? {
        DisconnectWindow(sent.to.windowLabel);
      } else {
        Unsubscribe(sent.to.windowLabel, sent.to.generation);
      }
    }

    method AllocateGeneration(window: string) returns (generation: nat)
      modifies this
      ensures View() == old(AllocateStep(View(), window))
      ensures generation == old(nextSubscriptionGeneration)
    {
      generation := nextSubscriptionGeneration;
      nextSubscriptionGeneration := nextSubscriptionGeneration + 1;
      subscribing := subscribing[generation := window];
    }

    method BeginSubscribe(generation: nat)
      requires generation in subscribing && delivery.Idle?
      modifies this
      ensures View() == old(BeginSubscribeStep(View(), generation))
    {
      ClearState();
      subscriber := Some(Subscriber(subscribing[generation], generation));
      enabled := true;
      subscribing := subscribing - {generation};
      delivery := Sending(subscriber.value, Batch(true, [], None, 0, 0, 0), FromSubscribe);
    }

    method Unsubscribe(window: string, generation: nat)
      modifies this
      ensures View() == old(UnsubscribeStep(View(), window, generation))
    {
      if subscriber == Some(Subscriber(window, generation)) {
        subscriber := None;
        ClearState();
        enabled := false;
      }
    }

    method DisconnectWindow(window: string)
      modifies this
      ensures View() == old(DisconnectStep(View(), window))
    {
      if subscriber.Some? && subscriber.value.windowLabel == window {
        subscriber := None;
        ClearState();
        enabled := false;
      }
    }

    // False when the caller is not the subscribed window: the source's invalid_window error.
    method BeginClear(window: string) returns (accepted: bool)
      requires delivery.Idle?
      modifies this
      ensures View() == old(BeginClearStep(View(), window))
      ensures accepted == (old(subscriber).Some? && old(subscriber).value.windowLabel == window)
    {
      accepted := subscriber.Some? && subscriber.value.windowLabel == window;
      if accepted {
        ClearState();
        delivery := Sending(subscriber.value, Batch(true, [], None, 0, 0, 0), FromClear);
      }
    }
  }
}
