/**
  The ring buffer of the protocol trace hub: retained entries bounded by count and bytes,
  and the request/response correlation table whose life is tied to eviction.
  Source: src-tauri/src/protocol_trace.rs.
 */
module TraceRing {
  import opened Prelude

  const MAX_RETAINED_ENTRIES: nat := 5000
  const MAX_RETAINED_BYTES: nat := 32 * 1024 * 1024
  const MAX_PAYLOAD_BYTES: nat := 1024 * 1024
  // UTF-8 length of the marker appended to a truncated payload.
  const TRUNCATION_MARK_BYTES: nat := 21
  const U64_MAX: nat := 0xFFFF_FFFF_FFFF_FFFF

  datatype Direction = Inbound | Outbound {
    function Opposite(): Direction {
      match this
      case Inbound => Outbound
      case Outbound => Inbound
    }
  }

  datatype Kind = Request | Response | Notification | Unknown

  datatype Message = Message(kind: Kind, rpcMethod: Option<string>, requestId: Option<string>)

  // What the classifier looks at: the method and id fields of the JSON object (absent when
  // missing or of another type) and whether it has a "result" or "error" field.
  datatype Envelope = Envelope(rpcMethod: Option<string>, id: Option<string>, hasOutcome: bool)

  function InspectValue(v: Envelope): (m: Message)
  {
    var kind :=
      if v.rpcMethod.Some? then
        if v.id.Some? then Request else Notification
      else if v.id.Some? && v.hasOutcome then Response
      else Unknown;
    Message(kind, v.rpcMethod, v.id)
  }

  datatype Context = Context(connectionId: string, windowLabel: Option<string>)

  datatype Entry = Entry(sequence: nat, direction: Direction, connectionId: string,
                         windowLabel: Option<string>, kind: Kind, rpcMethod: Option<string>,
                         requestId: Option<string>, payloadBytes: nat)

  datatype Key = Key(connectionId: string, requestId: string, responseDirection: Direction)

  datatype PendingRequest = PendingRequest(rpcMethod: string, windowLabel: Option<string>, sequence: nat)

  datatype Correlation = Correlation(rpcMethod: Option<string>, windowLabel: Option<string>)

  datatype Ring = Ring(entries: seq<Entry>, retainedBytes: nat, evictedCount: nat,
                       pending: map<Key, PendingRequest>)

  const EmptyRing := Ring([], 0, 0, map[])

  function Lookup(pending: map<Key, PendingRequest>, key: Key): Option<PendingRequest> {
    if key in pending then Some(pending[key]) else None
  }

  // ---- Correlation ----------------------------------------------------------------------

  function CorrelatePending(pending: map<Key, PendingRequest>, context: Context,
                            direction: Direction, message: Message, sequence: nat)
    : map<Key, PendingRequest>
  {
    if message.requestId.None? then pending
    else match message.kind
      case Request =>
        if message.rpcMethod.None? then pending
        else
          pending[Key(context.connectionId, message.requestId.value, direction.Opposite())
                  := PendingRequest(message.rpcMethod.value, context.windowLabel, sequence)]
      case Response =>
        pending - {Key(context.connectionId, message.requestId.value, direction)}
      case _ => pending
  }

  function CorrelateAnswer(pending: map<Key, PendingRequest>, context: Context,
                           direction: Direction, message: Message): Correlation
  {
    if message.requestId.Some? && message.kind.Response? then
      match Lookup(pending, Key(context.connectionId, message.requestId.value, direction))
      case Some(request) => Correlation(Some(request.rpcMethod), request.windowLabel)
      case None => Correlation(None, None)
    else
      Correlation(None, None)
  }

  function MakeEntry(pending: map<Key, PendingRequest>, context: Context, direction: Direction,
                     message: Message, payloadBytes: nat, sequence: nat): Entry
  {
    var answer := CorrelateAnswer(pending, context, direction, message);
    Entry(sequence, direction, context.connectionId,
          Coalesce(answer.windowLabel, context.windowLabel), message.kind,
          Coalesce(answer.rpcMethod, message.rpcMethod), message.requestId, payloadBytes)
  }

  // ---- Eviction -------------------------------------------------------------------------

  predicate Overflows(r: Ring) {
    |r.entries| > MAX_RETAINED_ENTRIES || r.retainedBytes > MAX_RETAINED_BYTES
  }

  function SaturatingSub(a: nat, b: nat): nat {
    if b <= a then a - b else 0
  }

  function SaturatingIncrement(a: nat): nat {
    if a < U64_MAX then a + 1 else a
  }

  function RequestKey(e: Entry): Option<Key> {
    if e.kind.Request? && e.requestId.Some?
    then Some(Key(e.connectionId, e.requestId.value, e.direction.Opposite()))
    else None
  }

  function ResponseKey(e: Entry): Option<Key> {
    if e.kind.Response? && e.requestId.Some?
    then Some(Key(e.connectionId, e.requestId.value, e.direction))
    else None
  }

  function ForgetRequest(pending: map<Key, PendingRequest>, e: Entry): map<Key, PendingRequest> {
    var key := RequestKey(e);
    if key.Some? && key.value in pending && pending[key.value].sequence == e.sequence
    then pending - {key.value}
    else pending
  }

  function EvictOldest(r: Ring): Ring
    requires r.entries != []
  {
    Ring(r.entries[1..],
         SaturatingSub(r.retainedBytes, r.entries[0].payloadBytes),
         SaturatingIncrement(r.evictedCount),
         ForgetRequest(r.pending, r.entries[0]))
  }

  function Evict(r: Ring): Ring
    decreases |r.entries|
  {
    if Overflows(r) && r.entries != [] then Evict(EvictOldest(r)) else r
  }

  function Push(r: Ring, context: Context, direction: Direction, message: Message,
                payloadBytes: nat, sequence: nat): Ring
  {
    Ring(r.entries + [MakeEntry(r.pending, context, direction, message, payloadBytes, sequence)],
         r.retainedBytes + payloadBytes,
         r.evictedCount,
         CorrelatePending(r.pending, context, direction, message, sequence))
  }

  function Append(r: Ring, context: Context, direction: Direction, message: Message,
                  payloadBytes: nat, sequence: nat): Ring
  {
    Evict(Push(r, context, direction, message, payloadBytes, sequence))
  }

  // ---- Reference definitions: only the retained entries are consulted ----------------------

  function TotalBytes(entries: seq<Entry>): nat {
    if entries == [] then 0 else entries[0].payloadBytes + TotalBytes(entries[1..])
  }

  // The request a response with this key would answer: scanning the retained entries from the
  // newest to the oldest, the first relevant one decides. A request is outstanding; a response
  // means that nothing is.
  function Outstanding(entries: seq<Entry>, key: Key): Option<PendingRequest> {
    if entries == [] then None
    else
      var last := entries[|entries| - 1];
      if RequestKey(last) == Some(key) && last.rpcMethod.Some? then
        Some(PendingRequest(last.rpcMethod.value, last.windowLabel, last.sequence))
      else if ResponseKey(last) == Some(key) then None
      else Outstanding(entries[..|entries| - 1], key)
  }

  predicate Fits(entries: seq<Entry>) {
    |entries| <= MAX_RETAINED_ENTRIES && TotalBytes(entries) <= MAX_RETAINED_BYTES
  }

  ghost predicate Ascending(entries: seq<Entry>) {
    forall i, j :: 0 <= i < j < |entries| ==> entries[i].sequence < entries[j].sequence
  }

  ghost predicate WellFormedEntries(entries: seq<Entry>, nextSequence: nat) {
    && Ascending(entries)
    && (forall e <- entries :: e.sequence < nextSequence)
    && (forall e <- entries :: e.payloadBytes <= MAX_PAYLOAD_BYTES + TRUNCATION_MARK_BYTES)
    && (forall e <- entries :: e.kind.Request? ==> e.rpcMethod.Some? && e.requestId.Some?)
  }

  ghost predicate Tracks(pending: map<Key, PendingRequest>, entries: seq<Entry>) {
    forall key :: Lookup(pending, key) == Outstanding(entries, key)
  }

  // Everything but the size bounds: true also between pushing and evicting.
  ghost predicate Consistent(r: Ring, nextSequence: nat) {
    && WellFormedEntries(r.entries, nextSequence)
    && r.retainedBytes == TotalBytes(r.entries)
    && Tracks(r.pending, r.entries)
  }

  ghost predicate RingInv(r: Ring, nextSequence: nat) {
    Consistent(r, nextSequence) && Fits(r.entries)
  }

  // ---- Lemmas -----------------------------------------------------------------------------

  lemma {:induction false} TotalBytesSnoc(entries: seq<Entry>, e: Entry)
    ensures TotalBytes(entries + [e]) == TotalBytes(entries) + e.payloadBytes
  {
    if entries == [] {
      assert entries + [e] == [e];
    } else {
      TotalBytesSnoc(entries[1..], e);
      assert (entries + [e])[1..] == entries[1..] + [e];
    }
  }

  // An outstanding request is one of the retained request entries: same connection, id,
  // opposite direction, sequence, method and window.
  lemma {:induction false} OutstandingIsRetained(entries: seq<Entry>, key: Key) returns (i: nat)
    requires Outstanding(entries, key).Some?
    ensures i < |entries|
    ensures RequestKey(entries[i]) == Some(key) && entries[i].rpcMethod.Some?
    ensures Outstanding(entries, key) ==
            Some(PendingRequest(entries[i].rpcMethod.value, entries[i].windowLabel, entries[i].sequence))
  {
    i := |entries| - 1;
    if !(RequestKey(entries[i]) == Some(key) && entries[i].rpcMethod.Some?) {
      i := OutstandingIsRetained(entries[..i], key);
    }
  }

  // Dropping the oldest entry forgets exactly the request that entry itself recorded.
  lemma {:induction false} OutstandingWithoutOldest(entries: seq<Entry>, key: Key)
    requires entries != [] && Ascending(entries)
    ensures Outstanding(entries[1..], key) ==
            (var o := Outstanding(entries, key);
             if o.Some? && o.value.sequence == entries[0].sequence then None else o)
  {
    var n := |entries| - 1;
    if n == 0 {
      assert entries[..0] == [];
    } else {
      var init := entries[..n];
      assert init[1..] == entries[1..][..n - 1];
      assert entries[1..][n - 1] == entries[n];
      assert entries[0].sequence < entries[n].sequence;
      OutstandingWithoutOldest(init, key);
    }
  }

  lemma EvictOldestKeepsTracking(r: Ring, nextSequence: nat)
    requires Consistent(r, nextSequence) && r.entries != []
    ensures Consistent(EvictOldest(r), nextSequence)
    // the saturating subtraction never saturates
    ensures r.entries[0].payloadBytes <= r.retainedBytes
  {
    var e := r.entries[0];
    var after := EvictOldest(r);
    forall key
      ensures Lookup(after.pending, key) == Outstanding(after.entries, key)
    {
      OutstandingWithoutOldest(r.entries, key);
      var o := Outstanding(r.entries, key);
      assert Lookup(r.pending, key) == o;
      if o.Some? && o.value.sequence == e.sequence {
        var i := OutstandingIsRetained(r.entries, key);
        assert i == 0;
      }
    }
  }

  lemma {:induction false} EvictKeepsConsistent(r: Ring, nextSequence: nat)
    requires Consistent(r, nextSequence)
    ensures RingInv(Evict(r), nextSequence)
    decreases |r.entries|
  {
    if Overflows(r) && r.entries != [] {
      EvictOldestKeepsTracking(r, nextSequence);
      EvictKeepsConsistent(EvictOldest(r), nextSequence);
    }
  }

  // Eviction keeps the longest suffix that fits the bounds, and counts what it dropped.
  lemma {:induction false} EvictKeepsLongestFittingSuffix(r: Ring, nextSequence: nat) returns (k: nat)
    requires Consistent(r, nextSequence)
    ensures k <= |r.entries| && Evict(r).entries == r.entries[k..]
    ensures Fits(r.entries[k..])
    ensures forall j :: 0 <= j < k ==> !Fits(r.entries[j..])
    ensures Evict(r).evictedCount == Min(r.evictedCount + k, Max(r.evictedCount, U64_MAX))
    decreases |r.entries|
  {
    if Overflows(r) && r.entries != [] {
      EvictOldestKeepsTracking(r, nextSequence);
      var next := EvictOldest(r);
      var k' := EvictKeepsLongestFittingSuffix(next, nextSequence);
      k := k' + 1;
      assert next.entries[k'..] == r.entries[k..];
      forall j | 0 <= j < k
        ensures !Fits(r.entries[j..])
      {
        if j == 0 {
          assert r.entries[0..] == r.entries;
        } else {
          assert next.entries[j - 1..] == r.entries[j..];
        }
      }
    } else {
      k := 0;
      assert r.entries[0..] == r.entries;
    }
  }

  // A single entry always fits, so eviction stops before the newest one.
  lemma NewestSurvives(r: Ring, nextSequence: nat)
    requires Consistent(r, nextSequence) && r.entries != []
    ensures Evict(r).entries != []
    ensures Evict(r).entries[|Evict(r).entries| - 1] == r.entries[|r.entries| - 1]
  {
    var k := EvictKeepsLongestFittingSuffix(r, nextSequence);
    var newest := r.entries[|r.entries| - 1];
    assert r.entries[|r.entries| - 1..] == [newest];
    assert TotalBytes([newest]) == newest.payloadBytes + TotalBytes([newest][1..]);
    assert Fits([newest]);
  }

  // A pushed message is outstanding exactly if the pending table says so.
  lemma PushKeepsTracking(r: Ring, context: Context, direction: Direction, v: Envelope,
                          payloadBytes: nat, sequence: nat, key: Key)
    requires Lookup(r.pending, key) == Outstanding(r.entries, key)
    ensures var after := Push(r, context, direction, InspectValue(v), payloadBytes, sequence);
            Lookup(after.pending, key) == Outstanding(after.entries, key)
  {
    var after := Push(r, context, direction, InspectValue(v), payloadBytes, sequence);
    assert after.entries[..|r.entries|] == r.entries;
    assert after.entries[|r.entries|] == MakeEntry(r.pending, context, direction, InspectValue(v), payloadBytes, sequence);
  }

  lemma PushKeepsConsistent(r: Ring, context: Context, direction: Direction, v: Envelope,
                            payloadBytes: nat, sequence: nat)
    requires Consistent(r, sequence)
    requires payloadBytes <= MAX_PAYLOAD_BYTES + TRUNCATION_MARK_BYTES
    ensures Consistent(Push(r, context, direction, InspectValue(v), payloadBytes, sequence), sequence + 1)
  {
    var after := Push(r, context, direction, InspectValue(v), payloadBytes, sequence);
    TotalBytesSnoc(r.entries, after.entries[|r.entries|]);
    forall key
      ensures Lookup(after.pending, key) == Outstanding(after.entries, key)
    {
      PushKeepsTracking(r, context, direction, v, payloadBytes, sequence, key);
    }
    hide Lookup, Outstanding, CorrelatePending, CorrelateAnswer;
  }

  // Main invariant: one recorded message keeps the ring within bounds, the byte counter exact and
  // the correlation table equal to what the retained entries alone determine.
  lemma AppendKeepsInv(r: Ring, context: Context, direction: Direction, v: Envelope,
                       payloadBytes: nat, sequence: nat)
    requires RingInv(r, sequence)
    requires payloadBytes <= MAX_PAYLOAD_BYTES + TRUNCATION_MARK_BYTES
    ensures RingInv(Append(r, context, direction, InspectValue(v), payloadBytes, sequence), sequence + 1)
  {
    PushKeepsConsistent(r, context, direction, v, payloadBytes, sequence);
    EvictKeepsConsistent(Push(r, context, direction, InspectValue(v), payloadBytes, sequence), sequence + 1);
  }

  // A response is labelled with the method and window of the latest unanswered, still retained
  // request with its key, or with its own context when there is none; the entry is retained.
  lemma ResponseIsLabelledByLatestRequest(r: Ring, context: Context, direction: Direction, id: string,
                                          payloadBytes: nat, sequence: nat)
    requires RingInv(r, sequence)
    requires payloadBytes <= MAX_PAYLOAD_BYTES + TRUNCATION_MARK_BYTES
    ensures var after := Append(r, context, direction, InspectValue(Envelope(None, Some(id), true)),
                                payloadBytes, sequence).entries;
            && after != []
            && (var entry := after[|after| - 1];
                match Outstanding(r.entries, Key(context.connectionId, id, direction))
                case Some(request) =>
                  && entry.rpcMethod == Some(request.rpcMethod)
                  && entry.windowLabel == Coalesce(request.windowLabel, context.windowLabel)
                case None =>
                  entry.rpcMethod == None && entry.windowLabel == context.windowLabel)
  {
    var v := Envelope(None, Some(id), true);
    var key := Key(context.connectionId, id, direction);
    PushKeepsConsistent(r, context, direction, v, payloadBytes, sequence);
    NewestSurvives(Push(r, context, direction, InspectValue(v), payloadBytes, sequence), sequence + 1);
    assert Lookup(r.pending, key) == Outstanding(r.entries, key);
  }

  // Every pending request points at a retained entry, and different keys at different entries, so
  // the table is never larger than the ring even when request ids are reused.
  lemma PendingBoundedByRing(r: Ring, nextSequence: nat)
    requires RingInv(r, nextSequence)
    ensures |r.pending| <= |r.entries| <= 5000
    ensures r.retainedBytes <= 32 * 1024 * 1024
  {
    PendingInjects(r.pending, r.entries);
  }

  lemma {:induction false} PendingInjects(pending: map<Key, PendingRequest>, entries: seq<Entry>)
    requires Ascending(entries)
    requires forall key <- pending :: Some(pending[key]) == Outstanding(entries, key)
    ensures |pending| <= |entries|
    decreases |entries|
  {
    if entries == [] {
      assert pending.Keys == {};
    } else {
      var e := entries[0];
      var rest := entries[1..];
      var without := ForgetRequest(pending, e);
      forall key <- without
        ensures Some(without[key]) == Outstanding(rest, key)
      {
        OutstandingWithoutOldest(entries, key);
        var i := OutstandingIsRetained(entries, key);
        assert i > 0 ==> e.sequence < entries[i].sequence;
      }
      PendingInjects(without, rest);
      if without != pending {
        var key := RequestKey(e).value;
        assert without.Keys == pending.Keys - {key};
        assert |without.Keys| == |pending.Keys| - 1;
      }
    }
  }
}
