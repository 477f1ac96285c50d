/**
  The versioned event store and the synchroniser that re-reads what notifications invalidate.
  One step is one synchronous segment; "the read returned" and "its in-flight entry is gone" are one
  step. Sources: src/appServer/serverEventState.ts and src/appServer/serverEventSync.ts.
 */
module EventSync {
  import opened Prelude

  const ENTITY_LIMIT: nat := 100

  type Item = string

  // What the store consumed so far, oldest first; the model's own record.
  datatype Event = QueueChanged(thread: string) | Cleared(thread: string) | ProjectChanged | Disconnected

  // One answer: the cursor it was asked for with, its entries, and the cursor of what comes next.
  datatype Page = Page(asked: Option<string>, items: seq<Item>, next: Option<string>)

  // Ready remembers when its read sent the first request (a position in the log) and its pages.
  datatype Status = Pending | Ready(from: nat, pages: seq<Page>) | Failed | Stale

  datatype Listing = Listing(version: nat, status: Status, entries: seq<Item>)

  datatype Slot = Slot(thread: string, listing: Listing)

  datatype Store = Store(connected: bool, deleted: set<string>, queueVersions: map<string, nat>,
                         queues: seq<Slot>, projectVersion: nat, projects: Listing, log: seq<Event>)

  // A paginated read in progress, started at `version` when the log had length `from`; the request
  // that is out carries `cursor`.
  datatype Read = Read(version: nat, from: nat, data: seq<Item>, cursor: Option<string>, cursors: set<string>,
                       pages: seq<Page>)

  datatype Sync = Sync(disposed: bool, queueReads: map<string, Read>, projectRead: Option<Read>)

  datatype System = System(store: Store, sync: Sync)

  const InitialStore := Store(true, {}, map[], [], 0, Listing(0, Pending, []), [])
  const InitialSystem := System(InitialStore, Sync(false, map[], None))

  // ---- Store operations ---------------------------------------------------------------------------

  function QueueVersion(s: Store, thread: string): nat {
    if thread in s.queueVersions then s.queueVersions[thread] else 0
  }

  function Omit(slots: seq<Slot>, thread: string): (r: seq<Slot>)
    ensures |r| <= |slots|
    ensures forall slot :: slot in r <==> slot in slots && slot.thread != thread
  {
    if slots == [] then []
    else if slots[0].thread == thread then Omit(slots[1..], thread)
    else [slots[0]] + Omit(slots[1..], thread)
  }

  // The bounded cache: the entry moves to the end, the oldest entries beyond the limit are dropped.
  function Put(slots: seq<Slot>, thread: string, listing: Listing): (r: seq<Slot>) {
    var all := Omit(slots, thread) + [Slot(thread, listing)];
    if |all| > ENTITY_LIMIT then all[|all| - ENTITY_LIMIT..] else all
  }

  function MarkUnknown(slots: seq<Slot>): (r: seq<Slot>)
    ensures |r| == |slots|
    ensures forall i :: 0 <= i < |r| ==> r[i] == Slot(slots[i].thread, slots[i].listing.(status := Stale))
  {
    seq(|slots|, i requires 0 <= i < |slots| => Slot(slots[i].thread, slots[i].listing.(status := Stale)))
  }

  function Bumped(versions: map<string, nat>): map<string, nat> {
    map t | t in versions :: versions[t] + 1
  }

  function QueueChangedStore(s: Store, thread: string): Store {
    var version := QueueVersion(s, thread) + 1;
    s.(queueVersions := s.queueVersions[thread := version],
       queues := Put(s.queues, thread, Listing(version, Pending, [])),
       log := s.log + [QueueChanged(thread)])
  }

  // thread/reverted, and thread/deleted which also remembers the deletion.
  function ClearedStore(s: Store, thread: string, gone: bool): Store {
    s.(queueVersions := s.queueVersions[thread := QueueVersion(s, thread) + 1],
       queues := Omit(s.queues, thread),
       deleted := if gone then s.deleted + {thread} else s.deleted,
       log := s.log + [Cleared(thread)])
  }

  function ProjectChangedStore(s: Store): Store {
    s.(projectVersion := s.projectVersion + 1,
       projects := s.projects.(version := s.projectVersion + 1, status := Pending),
       log := s.log + [ProjectChanged])
  }

  function DisconnectStore(s: Store): Store {
    if !s.connected then s
    else s.(connected := false, queueVersions := Bumped(s.queueVersions), queues := MarkUnknown(s.queues),
            projectVersion := s.projectVersion + 1, projects := s.projects.(status := Stale),
            log := s.log + [Disconnected])
  }

  function ConnectStore(s: Store): Store {
    s.(connected := true)
  }

  function Take(data: seq<Item>, n: nat): (r: seq<Item>) {
    if |data| <= n then data else data[..n]
  }

  predicate CanHydrate(s: Store, thread: string, version: nat) {
    s.connected && thread !in s.deleted && QueueVersion(s, thread) == version
  }

  function HydrateQueueStore(s: Store, thread: string, read: Read): Store {
    if !CanHydrate(s, thread, read.version) then s
    else s.(queues := Put(s.queues, thread,
                          Listing(read.version, Ready(read.from, read.pages), Take(read.data, ENTITY_LIMIT))))
  }

  function FailQueueStore(s: Store, thread: string, version: nat): Store {
    if !CanHydrate(s, thread, version) then s
    else s.(queues := Put(s.queues, thread, Listing(version, Failed, [])))
  }

  function HydrateProjectsStore(s: Store, read: Read): Store {
    if !s.connected || s.projectVersion != read.version then s
    else s.(projects := Listing(read.version, Ready(read.from, read.pages), Take(read.data, ENTITY_LIMIT)))
  }

  function FailProjectsStore(s: Store, version: nat): Store {
    if !s.connected || s.projectVersion != version then s
    else s.(projects := s.projects.(version := version, status := Failed))
  }

  // ---- Synchroniser steps ---------------------------------------------------------------------------

  predicate CanSync(s: System, thread: string) {
    !s.sync.disposed && s.store.connected && thread !in s.store.deleted
  }

  function NewRead(version: nat, log: seq<Event>): Read {
    Read(version, |log|, [], None, {}, [])
  }

  function Reading(s: System, thread: string, read: Option<Read>): System {
    s.(sync := s.sync.(queueReads := if read.Some? then s.sync.queueReads[thread := read.value]
                                     else s.sync.queueReads - {thread}))
  }

  function RefreshQueueStep(s: System, thread: string): System {
    if thread in s.sync.queueReads || !CanSync(s, thread) then s
    else Reading(s, thread, Some(NewRead(QueueVersion(s.store, thread), s.store.log)))
  }

  function RefreshProjectsStep(s: System): System {
    if s.sync.projectRead.Some? || s.sync.disposed || !s.store.connected then s
    else s.(sync := s.sync.(projectRead := Some(NewRead(s.store.projectVersion, s.store.log))))
  }

  // The last page arrived or the read failed: merge only at the version the read started from,
  // otherwise start over.
  function SettleQueue(s: System, thread: string, read: Read, failed: bool): System
    requires thread in s.sync.queueReads
  {
    if read.version != QueueVersion(s.store, thread) then
      Reading(s, thread, Some(NewRead(QueueVersion(s.store, thread), s.store.log)))
    else
      Reading(s, thread, None).(
        store := if failed then FailQueueStore(s.store, thread, read.version)
                 else HydrateQueueStore(s.store, thread, read))
  }

  function WithPage(read: Read, page: seq<Item>, cursor: Option<string>): Read {
    var room := ENTITY_LIMIT + 1 - |read.data|;
    read.(data := read.data + Take(page, if room > 0 then room else 0),
          cursor := cursor,
          cursors := if cursor.Some? then read.cursors + {cursor.value} else read.cursors,
          pages := read.pages + [Page(read.cursor, page, cursor)])
  }

  function QueuePageStep(s: System, thread: string, page: seq<Item>, cursor: Option<string>): System {
    if thread !in s.sync.queueReads then s
    else if !CanSync(s, thread) then Reading(s, thread, None)
    else
      var read := s.sync.queueReads[thread];
      var next := WithPage(read, page, cursor);
      if cursor.Some? && cursor.value in read.cursors then SettleQueue(s, thread, next, true)
      else if cursor.Some? && |next.data| <= ENTITY_LIMIT then Reading(s, thread, Some(next))
      else SettleQueue(s, thread, next, false)
  }

  function QueueErrorStep(s: System, thread: string): System {
    if thread !in s.sync.queueReads then s
    else if !CanSync(s, thread) then Reading(s, thread, None)
    else SettleQueue(s, thread, s.sync.queueReads[thread], true)
  }

  function SettleProjects(s: System, read: Read, failed: bool): System {
    if read.version != s.store.projectVersion then
      s.(sync := s.sync.(projectRead :=
        if s.store.connected then Some(NewRead(s.store.projectVersion, s.store.log)) else None))
    else
      s.(sync := s.sync.(projectRead := None),
         store := if failed then FailProjectsStore(s.store, read.version) else HydrateProjectsStore(s.store, read))
  }

  function ProjectPageStep(s: System, page: seq<Item>, cursor: Option<string>): System {
    if s.sync.projectRead.None? then s
    else if s.sync.disposed || !s.store.connected then s.(sync := s.sync.(projectRead := None))
    else
      var read := s.sync.projectRead.value;
      var next := WithPage(read, page, cursor);
      if cursor.Some? && cursor.value in read.cursors then SettleProjects(s, next, true)
      else if cursor.Some? && |next.data| <= ENTITY_LIMIT then s.(sync := s.sync.(projectRead := Some(next)))
      else SettleProjects(s, next, false)
  }

  function ProjectErrorStep(s: System): System {
    if s.sync.projectRead.None? then s
    else if s.sync.disposed then s.(sync := s.sync.(projectRead := None))
    else SettleProjects(s, s.sync.projectRead.value, true)
  }

  datatype Step =
    | NotifyQueueChanged(thread: string)
    | NotifyProjectChanged
    | NotifyCleared(thread: string, gone: bool)
    | RestoreThread(thread: string)
    | RefreshProjects
    | QueuePage(thread: string, page: seq<Item>, cursor: Option<string>)
    | QueueError(thread: string)
    | ProjectPage(page: seq<Item>, cursor: Option<string>)
    | ProjectError
    | Disconnect
    | Connect
    | Dispose

  // The store hears a notification before the synchroniser, which hears none after disposal.
  function NotifyQueueStep(s: System, thread: string): System {
    var heard := s.(store := QueueChangedStore(s.store, thread));
    if s.sync.disposed then heard else RefreshQueueStep(heard, thread)
  }

  function NotifyProjectStep(s: System): System {
    var heard := s.(store := ProjectChangedStore(s.store));
    if s.sync.disposed then heard else RefreshProjectsStep(heard)
  }

  function Next(s: System, step: Step): System {
    match step
    case NotifyQueueChanged(thread) => NotifyQueueStep(s, thread)
    case NotifyProjectChanged => NotifyProjectStep(s)
    case NotifyCleared(thread, gone) => s.(store := ClearedStore(s.store, thread, gone))
    case RestoreThread(thread) => RefreshQueueStep(s, thread)
    case RefreshProjects => RefreshProjectsStep(s)
    case QueuePage(thread, page, cursor) => QueuePageStep(s, thread, page, cursor)
    case QueueError(thread) => QueueErrorStep(s, thread)
    case ProjectPage(page, cursor) => ProjectPageStep(s, page, cursor)
    case ProjectError => ProjectErrorStep(s)
    case Disconnect => s.(store := DisconnectStore(s.store))
    case Connect => s.(store := ConnectStore(s.store))
    case Dispose => s.(sync := s.sync.(disposed := true))
  }

  function Run(s: System, steps: seq<Step>): System
    decreases |steps|
  {
    if steps == [] then s else Run(Next(s, steps[0]), steps[1..])
  }

  // ---- Reference definitions over the log ---------------------------------------------------------------

  // How often a thread's queue was invalidated; a disconnection counts once it was invalidated before.
  function Version(log: seq<Event>, thread: string): nat {
    if log == [] then 0
    else
      var before := Version(log[..|log| - 1], thread);
      match log[|log| - 1]
      case QueueChanged(t) => if t == thread then before + 1 else before
      case Cleared(t) => if t == thread then before + 1 else before
      case Disconnected => if before > 0 then before + 1 else before
      case _ => before
  }

  function ProjectVersionAt(log: seq<Event>): nat {
    if log == [] then 0
    else
      var before := ProjectVersionAt(log[..|log| - 1]);
      match log[|log| - 1]
      case ProjectChanged => before + 1
      case Disconnected => before + 1
      case _ => before
  }

  // No change of the thread's queue was reported at or after position `from`.
  ghost predicate Unchanged(log: seq<Event>, from: nat, thread: string) {
    forall i :: from <= i < |log| ==> log[i] != QueueChanged(thread) && log[i] != Cleared(thread)
  }

  ghost predicate ProjectsUnchanged(log: seq<Event>, from: nat) {
    forall i :: from <= i < |log| ==> log[i] != ProjectChanged && log[i] != Disconnected
  }

  function Flatten(pages: seq<Page>): seq<Item> {
    if pages == [] then [] else Flatten(pages[..|pages| - 1]) + pages[|pages| - 1].items
  }

  // ---- Invariant ------------------------------------------------------------------------------------------

  ghost predicate VersionsInv(s: Store) {
    && (forall t :: QueueVersion(s, t) == Version(s.log, t))
    && (forall t <- s.queueVersions :: s.queueVersions[t] > 0)
    && s.projectVersion == ProjectVersionAt(s.log)
  }

  // What was read so far is the pages' contents, one more than the limit at most.
  ghost predicate ReadInv(read: Read, log: seq<Event>) {
    && read.from <= |log|
    && read.data == Take(Flatten(read.pages), ENTITY_LIMIT + 1)
  }

  ghost predicate QueueReadInv(read: Read, log: seq<Event>, thread: string) {
    ReadInv(read, log) && read.version == Version(log[..read.from], thread)
  }

  ghost predicate ProjectReadInv(read: Read, log: seq<Event>) {
    ReadInv(read, log) && read.version == ProjectVersionAt(log[..read.from])
  }

  ghost predicate ReadyInv(listing: Listing, log: seq<Event>) {
    listing.status.Ready? ==>
      && listing.status.from <= |log|
      && listing.entries == Take(Flatten(listing.status.pages), ENTITY_LIMIT)
  }

  ghost predicate SlotInv(slot: Slot, log: seq<Event>) {
    && ReadyInv(slot.listing, log)
    && (slot.listing.status.Ready? ==>
          slot.listing.version == Version(log, slot.thread) == Version(log[..slot.listing.status.from], slot.thread))
  }

  ghost predicate DistinctSlots(slots: seq<Slot>) {
    forall i, j :: 0 <= i < j < |slots| ==> slots[i].thread != slots[j].thread
  }

  ghost predicate QueuesInv(s: Store) {
    && |s.queues| <= ENTITY_LIMIT
    && DistinctSlots(s.queues)
    && (forall slot <- s.queues :: SlotInv(slot, s.log))
  }

  ghost predicate ProjectsInv(s: Store) {
    && ReadyInv(s.projects, s.log)
    && (s.projects.status.Ready? ==>
          s.projects.version == ProjectVersionAt(s.log) == ProjectVersionAt(s.log[..s.projects.status.from]))
  }

  ghost predicate ReadsInv(s: System) {
    && (forall t <- s.sync.queueReads :: QueueReadInv(s.sync.queueReads[t], s.store.log, t))
    && (s.sync.projectRead.Some? ==> ProjectReadInv(s.sync.projectRead.value, s.store.log))
  }

  ghost predicate SystemInv(s: System) {
    VersionsInv(s.store) && QueuesInv(s.store) && ProjectsInv(s.store) && ReadsInv(s)
  }

  // ---- Lemmas about the log -----------------------------------------------------------------------------------

  lemma {:induction false} SameVersionMeansUnchanged(log: seq<Event>, from: nat, thread: string)
    requires from <= |log|
    ensures Version(log[..from], thread) <= Version(log, thread)
    ensures Version(log[..from], thread) == Version(log, thread) ==> Unchanged(log, from, thread)
    decreases |log|
  {
    if from == |log| {
      assert log[..from] == log;
    } else {
      var init := log[..|log| - 1];
      assert init[..from] == log[..from];
      SameVersionMeansUnchanged(init, from, thread);
      assert forall i :: from <= i < |init| ==> init[i] == log[i];
    }
  }

  lemma {:induction false} SameProjectVersionMeansUnchanged(log: seq<Event>, from: nat)
    requires from <= |log|
    ensures ProjectVersionAt(log[..from]) <= ProjectVersionAt(log)
    ensures ProjectVersionAt(log[..from]) == ProjectVersionAt(log) ==> ProjectsUnchanged(log, from)
    decreases |log|
  {
    if from == |log| {
      assert log[..from] == log;
    } else {
      var init := log[..|log| - 1];
      assert init[..from] == log[..from];
      SameProjectVersionMeansUnchanged(init, from);
      assert forall i :: from <= i < |init| ==> init[i] == log[i];
    }
  }

  lemma LogSnoc(log: seq<Event>, e: Event)
    ensures (log + [e])[..|log|] == log
    ensures forall from :: 0 <= from <= |log| ==> (log + [e])[..from] == log[..from]
  {
    var longer := log + [e];
    assert forall i :: 0 <= i < |log| ==> longer[i] == log[i] && longer[..i] == log[..i];
    assert longer[|log|] == e && longer[..|log|] == log;
  }

  lemma PutSays(slots: seq<Slot>, thread: string, listing: Listing)
    requires |slots| <= ENTITY_LIMIT && DistinctSlots(slots)
    ensures var r := Put(slots, thread, listing);
            && |r| <= ENTITY_LIMIT
            && DistinctSlots(r)
            && Slot(thread, listing) in r
            && (forall slot <- r :: slot == Slot(thread, listing) || (slot in slots && slot.thread != thread))
  {
    OmitKeepsDistinct(slots, thread);
    var kept := Omit(slots, thread);
    var all := kept + [Slot(thread, listing)];
    assert forall i :: 0 <= i < |kept| ==> all[i] in kept;
    assert DistinctSlots(all);
    assert all[|all| - 1] == Slot(thread, listing);
    var r := Put(slots, thread, listing);
    assert r[|r| - 1] == all[|all| - 1];
    assert forall slot <- r :: slot in all;
  }

  lemma {:induction false} OmitKeepsDistinct(slots: seq<Slot>, thread: string)
    requires DistinctSlots(slots)
    ensures DistinctSlots(Omit(slots, thread))
  {
    if slots != [] {
      var tail := slots[1..];
      assert DistinctSlots(tail) by {
        assert forall i :: 0 <= i < |tail| ==> tail[i] == slots[i + 1];
      }
      OmitKeepsDistinct(tail, thread);
      var rest := Omit(tail, thread);
      assert forall slot <- tail :: slot.thread != slots[0].thread;
      assert forall i :: 0 <= i < |rest| ==> rest[i] in tail;
    }
  }

  lemma {:induction false} OmitOnePosition(slots: seq<Slot>, index: nat)
    requires index < |slots| && DistinctSlots(slots)
    ensures Omit(slots, slots[index].thread) == slots[..index] + slots[index + 1..]
  {
    DistinctBehind(slots);
    if index == 0 {
      OmitNothing(slots[1..], slots[0].thread);
      assert slots[..0] + slots[1..] == slots[1..];
    } else {
      OmitOnePosition(slots[1..], index - 1);
      assert [slots[0]] + (slots[1..][..index - 1] + slots[1..][index..]) == slots[..index] + slots[index + 1..];
    }
  }

  lemma DistinctBehind(slots: seq<Slot>)
    requires slots != [] && DistinctSlots(slots)
    ensures DistinctSlots(slots[1..]) && forall i :: 0 < i < |slots| ==> slots[i].thread != slots[0].thread
  {
  }

  lemma {:induction false} OmitNothing(slots: seq<Slot>, thread: string)
    requires forall slot <- slots :: slot.thread != thread
    ensures Omit(slots, thread) == slots
  {
    if slots != [] {
      assert slots == [slots[0]] + slots[1..];
      OmitNothing(slots[1..], thread);
    }
  }

  // A known thread's entry moves to the end and every other one stays; a new one is added there, and
  // only the oldest entry of a full cache makes room for it.
  lemma PutKeepsTheNewest(slots: seq<Slot>, index: nat, thread: string, listing: Listing)
    requires |slots| <= 100 && DistinctSlots(slots)
    ensures index < |slots| && slots[index].thread == thread ==>
              Put(slots, thread, listing) == slots[..index] + slots[index + 1..] + [Slot(thread, listing)]
    ensures (forall slot <- slots :: slot.thread != thread) ==>
              Put(slots, thread, listing) == (if |slots| < 100 then slots else slots[1..]) + [Slot(thread, listing)]
  {
    hide DistinctSlots, Omit;
    if index < |slots| && slots[index].thread == thread {
      OmitOnePosition(slots, index);
    }
    if forall slot <- slots :: slot.thread != thread {
      OmitNothing(slots, thread);
      assert |slots| == 100 ==> (slots + [Slot(thread, listing)])[1..] == slots[1..] + [Slot(thread, listing)];
    }
  }

  // ---- Steps that extend the log ---------------------------------------------------------------------------------

  lemma ReadsSurviveEvent(s: System, e: Event)
    requires ReadsInv(s)
    ensures forall t <- s.sync.queueReads :: QueueReadInv(s.sync.queueReads[t], s.store.log + [e], t)
    ensures s.sync.projectRead.Some? ==> ProjectReadInv(s.sync.projectRead.value, s.store.log + [e])
  {
    hide Flatten, Take;
    LogSnoc(s.store.log, e);
  }

  lemma SlotSurvivesEvent(slot: Slot, log: seq<Event>, e: Event)
    requires SlotInv(slot, log)
    requires e != QueueChanged(slot.thread) && e != Cleared(slot.thread) && !e.Disconnected?
    ensures SlotInv(slot, log + [e])
  {
    hide Flatten, Take;
    LogSnoc(log, e);
  }

  lemma QueueChangeKeepsStoreInv(s: System, thread: string)
    requires SystemInv(s)
    ensures var store := QueueChangedStore(s.store, thread);
            VersionsInv(store) && QueuesInv(store) && ProjectsInv(store)
  {
    hide Flatten, Take, Put;
    var e := QueueChanged(thread);
    LogSnoc(s.store.log, e);
    var store := QueueChangedStore(s.store, thread);
    var listing := Listing(QueueVersion(s.store, thread) + 1, Pending, []);
    PutSays(s.store.queues, thread, listing);
    forall slot <- store.queues ensures SlotInv(slot, store.log) {
      if slot != Slot(thread, listing) {
        SlotSurvivesEvent(slot, s.store.log, e);
      }
    }
    forall t ensures QueueVersion(store, t) == Version(store.log, t) {
      assert QueueVersion(s.store, t) == Version(s.store.log, t);
    }
  }

  lemma NotifyQueueKeepsInv(s: System, thread: string)
    requires SystemInv(s)
    ensures SystemInv(NotifyQueueStep(s, thread))
  {
    hide Flatten, Take, Put, SlotInv, ReadInv, ReadyInv;
    var e := QueueChanged(thread);
    QueueChangeKeepsStoreInv(s, thread);
    LogSnoc(s.store.log, e);
    ReadsSurviveEvent(s, e);
    NewReadInv(QueueVersion(s.store, thread) + 1, s.store.log + [e]);
    PutSays(s.store.queues, thread, Listing(QueueVersion(s.store, thread) + 1, Pending, []));
  }

  lemma NotifyProjectKeepsInv(s: System)
    requires SystemInv(s)
    ensures SystemInv(NotifyProjectStep(s))
  {
    var e := ProjectChanged;
    LogSnoc(s.store.log, e);
    ReadsSurviveEvent(s, e);
    var heard := s.(store := ProjectChangedStore(s.store));
    forall slot <- heard.store.queues ensures SlotInv(slot, heard.store.log) {
      SlotSurvivesEvent(slot, s.store.log, e);
    }
    assert forall t :: QueueVersion(heard.store, t) == Version(heard.store.log, t) by {
      forall t ensures QueueVersion(heard.store, t) == Version(heard.store.log, t) {
        assert QueueVersion(s.store, t) == Version(s.store.log, t);
      }
    }
    assert heard.store.log[..|heard.store.log|] == heard.store.log;
  }

  lemma NotifyClearedKeepsInv(s: System, thread: string, gone: bool)
    requires SystemInv(s)
    ensures SystemInv(s.(store := ClearedStore(s.store, thread, gone)))
  {
    hide Flatten, Take;
    var e := Cleared(thread);
    LogSnoc(s.store.log, e);
    ReadsSurviveEvent(s, e);
    OmitKeepsDistinct(s.store.queues, thread);
    var s' := s.(store := ClearedStore(s.store, thread, gone));
    forall slot <- s'.store.queues ensures SlotInv(slot, s'.store.log) {
      SlotSurvivesEvent(slot, s.store.log, e);
    }
    forall t ensures QueueVersion(s'.store, t) == Version(s'.store.log, t) {
      assert QueueVersion(s.store, t) == Version(s.store.log, t);
    }
  }

  lemma DisconnectKeepsInv(s: System)
    requires SystemInv(s)
    ensures SystemInv(s.(store := DisconnectStore(s.store)))
  {
    hide Flatten, Take;
    if s.store.connected {
      var e := Disconnected;
      LogSnoc(s.store.log, e);
      ReadsSurviveEvent(s, e);
      var s' := s.(store := DisconnectStore(s.store));
      forall t ensures QueueVersion(s'.store, t) == Version(s'.store.log, t) {
        assert QueueVersion(s.store, t) == Version(s.store.log, t);
      }
      forall slot <- s'.store.queues ensures slot.listing.status.Stale? {
        var i :| 0 <= i < |s'.store.queues| && s'.store.queues[i] == slot;
      }
    }
  }

  lemma ConnectKeepsInv(s: System)
    requires SystemInv(s)
    ensures SystemInv(s.(store := ConnectStore(s.store)))
  {
    hide Flatten, Take;
  }

  // ---- Steps of reads --------------------------------------------------------------------------------------------

  lemma TakeTake(data: seq<Item>, page: seq<Item>)
    ensures var kept := Take(data, ENTITY_LIMIT + 1);
            var room := ENTITY_LIMIT + 1 - |kept|;
            Take(data + page, ENTITY_LIMIT + 1) == kept + Take(page, room)
    ensures Take(Take(data, ENTITY_LIMIT + 1), ENTITY_LIMIT) == Take(data, ENTITY_LIMIT)
  {
    assert forall n | 0 <= n <= |page| :: (data + page)[..|data| + n] == data + page[..n];
    if |data| > ENTITY_LIMIT + 1 {
      assert (data + page)[..ENTITY_LIMIT + 1] == data[..ENTITY_LIMIT + 1];
    }
    if |data| >= ENTITY_LIMIT + 1 {
      assert data[..ENTITY_LIMIT + 1][..ENTITY_LIMIT] == data[..ENTITY_LIMIT];
    }
  }

  lemma WithPageKeepsReadInv(read: Read, page: seq<Item>, cursor: Option<string>, log: seq<Event>)
    requires ReadInv(read, log)
    ensures ReadInv(WithPage(read, page, cursor), log)
  {
    var pages := read.pages + [Page(read.cursor, page, cursor)];
    assert pages[..|read.pages|] == read.pages;
    TakeTake(Flatten(read.pages), page);
  }

  lemma NewReadInv(version: nat, log: seq<Event>)
    ensures ReadInv(NewRead(version, log), log) && log[..|log|] == log
  {
  }

  lemma ReadingKeepsInv(s: System, thread: string, read: Read)
    requires SystemInv(s) && QueueReadInv(read, s.store.log, thread)
    ensures SystemInv(Reading(s, thread, Some(read)))
  {
    hide VersionsInv, QueuesInv, ProjectsInv, QueueReadInv, ProjectReadInv;
  }

  lemma StartingKeepsInv(s: System, thread: string)
    requires SystemInv(s)
    ensures SystemInv(Reading(s, thread, Some(NewRead(QueueVersion(s.store, thread), s.store.log))))
  {
    hide QueuesInv, ProjectsInv;
    NewReadInv(QueueVersion(s.store, thread), s.store.log);
    ReadingKeepsInv(s, thread, NewRead(QueueVersion(s.store, thread), s.store.log));
  }

  // A read ends without a result only when the thread cannot be synchronised any more.
  lemma AbandoningKeepsInv(s: System, thread: string)
    requires SystemInv(s) && !CanSync(s, thread)
    ensures SystemInv(Reading(s, thread, None))
  {
    hide VersionsInv, QueuesInv, ProjectsInv, QueueReadInv, ProjectReadInv;
  }

  // Merging a read at the version it started from: nothing changed in between.
  lemma MergingKeepsInv(s: System, thread: string, read: Read, failed: bool)
    requires SystemInv(s) && CanSync(s, thread) && thread in s.sync.queueReads
    requires QueueReadInv(read, s.store.log, thread) && read.version == QueueVersion(s.store, thread)
    ensures SystemInv(SettleQueue(s, thread, read, failed))
  {
    hide Flatten, Take, Put, ReadyInv, ReadInv, Version;
    var listing :=
      if failed then Listing(read.version, Failed, [])
      else Listing(read.version, Ready(read.from, read.pages), Take(read.data, ENTITY_LIMIT));
    PutSays(s.store.queues, thread, listing);
    var s' := SettleQueue(s, thread, read, failed);
    assert s'.store == s.store.(queues := Put(s.store.queues, thread, listing));
    forall slot <- s'.store.queues ensures SlotInv(slot, s'.store.log) {
      if slot == Slot(thread, listing) {
        MergedSlotInv(s.store.log, thread, read, failed);
        assert Version(s.store.log, thread) == read.version;
      }
    }
  }

  lemma MergedSlotInv(log: seq<Event>, thread: string, read: Read, failed: bool)
    requires QueueReadInv(read, log, thread) && read.version == Version(log, thread)
    ensures SlotInv(Slot(thread, if failed then Listing(read.version, Failed, [])
                                 else Listing(read.version, Ready(read.from, read.pages), Take(read.data, ENTITY_LIMIT))), log)
  {
    TakeTake(Flatten(read.pages), []);
  }

  lemma SettleQueueKeepsInv(s: System, thread: string, read: Read, failed: bool)
    requires SystemInv(s) && CanSync(s, thread) && thread in s.sync.queueReads
    requires QueueReadInv(read, s.store.log, thread)
    ensures SystemInv(SettleQueue(s, thread, read, failed))
  {
    hide SystemInv, QueueReadInv;
    if read.version != QueueVersion(s.store, thread) {
      StartingKeepsInv(s, thread);
    } else {
      MergingKeepsInv(s, thread, read, failed);
    }
  }

  lemma QueuePageKeepsInv(s: System, thread: string, page: seq<Item>, cursor: Option<string>)
    requires SystemInv(s)
    ensures SystemInv(QueuePageStep(s, thread, page, cursor))
  {
    hide SystemInv, SettleQueue;
    if thread in s.sync.queueReads {
      if !CanSync(s, thread) {
        AbandoningKeepsInv(s, thread);
      } else {
        PagedReadInv(s, thread, page, cursor);
        var next := WithPage(s.sync.queueReads[thread], page, cursor);
        ReadingKeepsInv(s, thread, next);
        SettleQueueKeepsInv(s, thread, next, true);
        SettleQueueKeepsInv(s, thread, next, false);
      }
    }
  }

  lemma PagedReadInv(s: System, thread: string, page: seq<Item>, cursor: Option<string>)
    requires SystemInv(s) && thread in s.sync.queueReads
    ensures QueueReadInv(s.sync.queueReads[thread], s.store.log, thread)
    ensures QueueReadInv(WithPage(s.sync.queueReads[thread], page, cursor), s.store.log, thread)
  {
    hide VersionsInv, QueuesInv, ProjectsInv;
    WithPageKeepsReadInv(s.sync.queueReads[thread], page, cursor, s.store.log);
  }

  lemma QueueErrorKeepsInv(s: System, thread: string)
    requires SystemInv(s)
    ensures SystemInv(QueueErrorStep(s, thread))
  {
    hide SystemInv, SettleQueue;
    if thread in s.sync.queueReads {
      if !CanSync(s, thread) {
        AbandoningKeepsInv(s, thread);
      } else {
        PagedReadInv(s, thread, [], None);
        SettleQueueKeepsInv(s, thread, s.sync.queueReads[thread], true);
      }
    }
  }

  lemma RefreshQueueKeepsInv(s: System, thread: string)
    requires SystemInv(s)
    ensures SystemInv(RefreshQueueStep(s, thread))
  {
    hide SystemInv;
    StartingKeepsInv(s, thread);
  }

  lemma ProjectReadingKeepsInv(s: System, read: Read)
    requires SystemInv(s) && ProjectReadInv(read, s.store.log)
    ensures SystemInv(s.(sync := s.sync.(projectRead := Some(read))))
  {
    hide VersionsInv, QueuesInv, ProjectsInv, QueueReadInv, ProjectReadInv;
  }

  lemma ProjectAbandoningKeepsInv(s: System)
    requires SystemInv(s) && (s.sync.disposed || !s.store.connected)
    ensures SystemInv(s.(sync := s.sync.(projectRead := None)))
  {
    hide VersionsInv, QueuesInv, ProjectsInv, QueueReadInv, ProjectReadInv;
  }

  lemma RefreshProjectsKeepsInv(s: System)
    requires SystemInv(s)
    ensures SystemInv(RefreshProjectsStep(s))
    ensures SystemInv(s.(sync := s.sync.(projectRead := Some(NewRead(s.store.projectVersion, s.store.log)))))
  {
    hide QueuesInv, ProjectsInv;
    NewReadInv(s.store.projectVersion, s.store.log);
    ProjectReadingKeepsInv(s, NewRead(s.store.projectVersion, s.store.log));
  }

  lemma ProjectMergingKeepsInv(s: System, read: Read, failed: bool)
    requires SystemInv(s) && ProjectReadInv(read, s.store.log) && read.version == s.store.projectVersion
    requires s.store.connected
    ensures SystemInv(SettleProjects(s, read, failed))
  {
    hide Flatten, SlotInv, QueueReadInv;
    TakeTake(Flatten(read.pages), []);
  }

  lemma SettleProjectsKeepsInv(s: System, read: Read, failed: bool)
    requires SystemInv(s) && ProjectReadInv(read, s.store.log)
    requires !failed ==> s.store.connected
    ensures SystemInv(SettleProjects(s, read, failed))
  {
    hide SystemInv, ProjectReadInv, HydrateProjectsStore;
    if read.version != s.store.projectVersion {
      if s.store.connected {
        RefreshProjectsKeepsInv(s);
      } else {
        ProjectAbandoningKeepsInv(s);
      }
    } else if s.store.connected {
      ProjectMergingKeepsInv(s, read, failed);
    } else {
      ProjectAbandoningKeepsInv(s);
    }
  }

  lemma PagedProjectReadInv(s: System, page: seq<Item>, cursor: Option<string>)
    requires SystemInv(s) && s.sync.projectRead.Some?
    ensures ProjectReadInv(s.sync.projectRead.value, s.store.log)
    ensures ProjectReadInv(WithPage(s.sync.projectRead.value, page, cursor), s.store.log)
  {
    hide VersionsInv, QueuesInv, ProjectsInv;
    WithPageKeepsReadInv(s.sync.projectRead.value, page, cursor, s.store.log);
  }

  lemma ProjectPageKeepsInv(s: System, page: seq<Item>, cursor: Option<string>)
    requires SystemInv(s)
    ensures SystemInv(ProjectPageStep(s, page, cursor))
  {
    hide SystemInv, SettleProjects;
    if s.sync.projectRead.Some? {
      if s.sync.disposed || !s.store.connected {
        ProjectAbandoningKeepsInv(s);
      } else {
        PagedProjectReadInv(s, page, cursor);
        var next := WithPage(s.sync.projectRead.value, page, cursor);
        ProjectReadingKeepsInv(s, next);
        SettleProjectsKeepsInv(s, next, true);
        SettleProjectsKeepsInv(s, next, false);
      }
    }
  }

  lemma ProjectErrorKeepsInv(s: System)
    requires SystemInv(s)
    ensures SystemInv(ProjectErrorStep(s))
  {
    hide SystemInv, SettleProjects;
    if s.sync.projectRead.Some? {
      if s.sync.disposed {
        ProjectAbandoningKeepsInv(s);
      } else {
        PagedProjectReadInv(s, [], None);
        SettleProjectsKeepsInv(s, s.sync.projectRead.value, true);
      }
    }
  }

  lemma DisposeKeepsInv(s: System)
    requires SystemInv(s)
    ensures SystemInv(s.(sync := s.sync.(disposed := true)))
  {
    hide VersionsInv, QueuesInv, ProjectsInv, QueueReadInv, ProjectReadInv;
  }

  lemma NextKeepsInv(s: System, step: Step)
    requires SystemInv(s)
    ensures SystemInv(Next(s, step))
  {
    hide SystemInv;
    match step
    case NotifyQueueChanged(thread) => NotifyQueueKeepsInv(s, thread);
    case NotifyProjectChanged => NotifyProjectKeepsInv(s);
    case NotifyCleared(thread, gone) => NotifyClearedKeepsInv(s, thread, gone);
    case RestoreThread(thread) => RefreshQueueKeepsInv(s, thread);
    case RefreshProjects => RefreshProjectsKeepsInv(s);
    case QueuePage(thread, page, cursor) => QueuePageKeepsInv(s, thread, page, cursor);
    case QueueError(thread) => QueueErrorKeepsInv(s, thread);
    case ProjectPage(page, cursor) => ProjectPageKeepsInv(s, page, cursor);
    case ProjectError => ProjectErrorKeepsInv(s);
    case Disconnect => DisconnectKeepsInv(s);
    case Connect => ConnectKeepsInv(s);
    case Dispose => DisposeKeepsInv(s);
  }

  lemma {:induction false} RunKeepsInv(s: System, steps: seq<Step>)
    requires SystemInv(s)
    ensures SystemInv(Run(s, steps))
    decreases |steps|
  {
    hide SystemInv, Next;
    if steps != [] {
      NextKeepsInv(s, steps[0]);
      RunKeepsInv(Next(s, steps[0]), steps[1..]);
    }
  }

  lemma InitialInv()
    ensures SystemInv(InitialSystem)
  {
  }

  // ---- Main results ----------------------------------------------------------------------------------------------

  // A queue marked ready shows the first hundred entries of pages that were all requested after its
  // version was set, and no change of that queue has been reported since the first request.
  lemma ReadyQueueIsCurrent(steps: seq<Step>, slot: Slot)
    requires slot in Run(InitialSystem, steps).store.queues && slot.listing.status.Ready?
    ensures var log := Run(InitialSystem, steps).store.log;
            var from := slot.listing.status.from;
            && from <= |log|
            && slot.listing.version == Version(log[..from], slot.thread)
            && Unchanged(log, from, slot.thread)
            && (var all := Flatten(slot.listing.status.pages);
                slot.listing.entries == if |all| <= 100 then all else all[..100])
  {
    InitialInv();
    RunKeepsInv(InitialSystem, steps);
    hide VersionsInv, ProjectsInv, ReadsInv;
    var log := Run(InitialSystem, steps).store.log;
    assert SlotInv(slot, log);
    SameVersionMeansUnchanged(log, slot.listing.status.from, slot.thread);
  }

  lemma ReadyProjectsAreCurrent(steps: seq<Step>)
    requires Run(InitialSystem, steps).store.projects.status.Ready?
    ensures var s := Run(InitialSystem, steps).store;
            var from := s.projects.status.from;
            && from <= |s.log|
            && s.projects.version == ProjectVersionAt(s.log[..from])
            && ProjectsUnchanged(s.log, from)
            && (var all := Flatten(s.projects.status.pages);
                s.projects.entries == if |all| <= 100 then all else all[..100])
  {
    InitialInv();
    RunKeepsInv(InitialSystem, steps);
    hide VersionsInv, QueuesInv, ReadsInv;
    var s := Run(InitialSystem, steps).store;
    SameProjectVersionMeansUnchanged(s.log, s.projects.status.from);
  }

  // ---- A listing is read to its end -----------------------------------------------------------------------------

  // The first page is asked for without a cursor, every later one with the cursor before it.
  ghost predicate Chained(pages: seq<Page>) {
    forall i :: 0 <= i < |pages| ==> pages[i].asked == NextAfter(pages[..i])
  }

  // The cursor of what comes after these pages; the start when there are none.
  function NextAfter(pages: seq<Page>): Option<string> {
    if pages == [] then None else pages[|pages| - 1].next
  }

  // Every page names what comes next, and no two the same.
  ghost predicate GoOn(pages: seq<Page>) {
    && (forall i :: 0 <= i < |pages| ==> pages[i].next.Some?)
    && (forall i, j :: 0 <= i < j < |pages| ==> pages[i].next != pages[j].next)
  }

  ghost predicate Repeats(pages: seq<Page>, cursor: Option<string>) {
    cursor.Some? && exists page <- pages :: page.next == cursor
  }

  // A listing that was read as far as it is shown: only its last page may be without a next cursor,
  // no cursor came twice, and it ends with its last page or as soon as the limit is exceeded.
  ghost predicate Whole(pages: seq<Page>) {
    && pages != []
    && Chained(pages)
    && (var earlier, last := pages[..|pages| - 1], pages[|pages| - 1];
        && GoOn(earlier) && !Repeats(earlier, last.next)
        && |Flatten(earlier)| <= ENTITY_LIMIT
        && (last.next.None? || |Flatten(pages)| > ENTITY_LIMIT))
  }

  // A read in flight: all that came so far is kept, and the request for what comes next is out.
  ghost predicate Unfinished(read: Read) {
    && Chained(read.pages) && GoOn(read.pages)
    && read.cursor == NextAfter(read.pages)
    && (forall cursor :: cursor in read.cursors <==> Repeats(read.pages, Some(cursor)))
    && read.data == Flatten(read.pages) && |read.data| <= ENTITY_LIMIT
  }

  ghost predicate WholeIfReady(listing: Listing) {
    listing.status.Ready? ==> Whole(listing.status.pages)
  }

  ghost predicate PagesInv(s: System) {
    && (forall t <- s.sync.queueReads :: Unfinished(s.sync.queueReads[t]))
    && (s.sync.projectRead.Some? ==> Unfinished(s.sync.projectRead.value))
    && (forall slot <- s.store.queues :: WholeIfReady(slot.listing))
    && WholeIfReady(s.store.projects)
  }

  lemma NewReadIsUnfinished(version: nat, log: seq<Event>)
    ensures Unfinished(NewRead(version, log))
  {
  }

  lemma ChainedSnoc(pages: seq<Page>, items: seq<Item>, next: Option<string>)
    requires Chained(pages)
    ensures Chained(pages + [Page(NextAfter(pages), items, next)])
  {
    var all := pages + [Page(NextAfter(pages), items, next)];
    forall i | 0 <= i < |all| ensures all[i].asked == NextAfter(all[..i]) {
      assert all[..i] == pages[..i];
      assert all[..|pages|] == pages;
      assert i < |pages| ==> all[i] == pages[i];
    }
  }

  lemma GoOnSnoc(pages: seq<Page>, page: Page)
    requires GoOn(pages) && page.next.Some? && !Repeats(pages, page.next)
    ensures GoOn(pages + [page])
    ensures forall cursor :: Repeats(pages + [page], Some(cursor)) <==> Repeats(pages, Some(cursor)) || Some(cursor) == page.next
  {
    var all := pages + [page];
    assert forall p <- pages :: p in all;
    assert all[|pages|] == page && page in all;
    forall i, j | 0 <= i < j < |all| ensures all[i].next != all[j].next {
      assert all[i] == pages[i] && pages[i] in pages;
    }
  }

  lemma FlattenSnoc(pages: seq<Page>, page: Page)
    ensures Flatten(pages + [page]) == Flatten(pages) + page.items
  {
    assert (pages + [page])[..|pages|] == pages;
  }

  lemma TakingAPage(data: seq<Item>, page: seq<Item>)
    requires |data| <= ENTITY_LIMIT
    ensures var longer := data + Take(page, ENTITY_LIMIT + 1 - |data|);
            && (|longer| <= ENTITY_LIMIT <==> |data + page| <= ENTITY_LIMIT)
            && (|longer| <= ENTITY_LIMIT ==> longer == data + page)
            && Take(longer, ENTITY_LIMIT) == Take(data + page, ENTITY_LIMIT)
  {
  }

  lemma PagedData(read: Read, page: seq<Item>, cursor: Option<string>)
    requires read.data == Flatten(read.pages) && |read.data| <= ENTITY_LIMIT
    ensures var next := WithPage(read, page, cursor);
            && next.pages == read.pages + [Page(read.cursor, page, cursor)]
            && (|next.data| <= ENTITY_LIMIT <==> |Flatten(next.pages)| <= ENTITY_LIMIT)
            && (|next.data| <= ENTITY_LIMIT ==> next.data == Flatten(next.pages))
            && Take(next.data, ENTITY_LIMIT) == Take(Flatten(next.pages), ENTITY_LIMIT)
  {
    hide Flatten, Take;
    FlattenSnoc(read.pages, Page(read.cursor, page, cursor));
    TakingAPage(read.data, page);
  }

  lemma PagedRead(read: Read, page: seq<Item>, cursor: Option<string>)
    requires Unfinished(read) && !Repeats(read.pages, cursor)
    ensures var next := WithPage(read, page, cursor);
            && (cursor.Some? && |next.data| <= ENTITY_LIMIT ==> Unfinished(next))
            && (cursor.None? || |next.data| > ENTITY_LIMIT ==> Whole(next.pages))
  {
    hide Flatten, Take, Chained, GoOn, Repeats;
    var last := Page(read.cursor, page, cursor);
    PagedData(read, page, cursor);
    ChainedSnoc(read.pages, page, cursor);
    if cursor.Some? {
      GoOnSnoc(read.pages, last);
    }
    assert (read.pages + [last])[..|read.pages|] == read.pages;
  }

  // What one more page makes of a read.
  lemma WithPageSays(read: Read, page: seq<Item>, cursor: Option<string>)
    requires Unfinished(read)
    ensures var next := WithPage(read, page, cursor);
            && next.pages == read.pages + [Page(read.cursor, page, cursor)]
            && (cursor.Some? ==> (cursor.value in read.cursors <==> Repeats(read.pages, cursor)))
            && (|next.data| <= ENTITY_LIMIT <==> |Flatten(next.pages)| <= ENTITY_LIMIT)
            && Take(next.data, ENTITY_LIMIT) == Take(Flatten(next.pages), ENTITY_LIMIT)
            && (cursor.Some? && !Repeats(read.pages, cursor) && |next.data| <= ENTITY_LIMIT ==> Unfinished(next))
            && (!Repeats(read.pages, cursor) && (cursor.None? || |next.data| > ENTITY_LIMIT) ==> Whole(next.pages))
  {
    PagedData(read, page, cursor);
    if !Repeats(read.pages, cursor) {
      PagedRead(read, page, cursor);
    }
    hide WithPage, Whole, Flatten, Take, Chained, GoOn;
  }

  lemma SettlingKeepsPages(s: System, thread: string, read: Read, failed: bool)
    requires PagesInv(s) && thread in s.sync.queueReads && (!failed ==> Whole(read.pages))
    ensures PagesInv(SettleQueue(s, thread, read, failed))
  {
    hide Put, Take, Unfinished, Whole;
    NewReadIsUnfinished(QueueVersion(s.store, thread), s.store.log);
    PutMembers(s.store.queues, thread, Listing(read.version, Failed, []));
    PutMembers(s.store.queues, thread, Listing(read.version, Ready(read.from, read.pages), Take(read.data, ENTITY_LIMIT)));
  }

  lemma ReadingKeepsPages(s: System, thread: string, read: Read)
    requires PagesInv(s)
    ensures PagesInv(Reading(s, thread, None))
    ensures Unfinished(read) ==> PagesInv(Reading(s, thread, Some(read)))
  {
    hide Unfinished, Whole;
  }

  lemma QueuePageKeepsPages(s: System, thread: string, page: seq<Item>, cursor: Option<string>)
    requires PagesInv(s)
    ensures PagesInv(QueuePageStep(s, thread, page, cursor)) && PagesInv(QueueErrorStep(s, thread))
  {
    if thread in s.sync.queueReads {
      var read := s.sync.queueReads[thread];
      var next := WithPage(read, page, cursor);
      WithPageSays(read, page, cursor);
      ReadingKeepsPages(s, thread, next);
      hide WithPage, PagesInv, Unfinished, Whole, Flatten, Repeats;
      if Whole(next.pages) {
        SettlingKeepsPages(s, thread, next, false);
      }
      SettlingKeepsPages(s, thread, next, true);
      SettlingKeepsPages(s, thread, read, true);
    }
    hide SettleQueue, Reading;
  }

  lemma SettlingProjectsKeepsPages(s: System, read: Read, failed: bool)
    requires PagesInv(s) && (!failed ==> Whole(read.pages))
    ensures PagesInv(SettleProjects(s, read, failed))
  {
    hide Take, Unfinished, Whole;
    NewReadIsUnfinished(s.store.projectVersion, s.store.log);
  }

  lemma ProjectPageKeepsPages(s: System, page: seq<Item>, cursor: Option<string>)
    requires PagesInv(s)
    ensures PagesInv(ProjectPageStep(s, page, cursor)) && PagesInv(ProjectErrorStep(s))
  {
    if s.sync.projectRead.Some? {
      var read := s.sync.projectRead.value;
      var next := WithPage(read, page, cursor);
      WithPageSays(read, page, cursor);
      if Whole(next.pages) {
        SettlingProjectsKeepsPages(s, next, false);
      }
      SettlingProjectsKeepsPages(s, next, true);
      SettlingProjectsKeepsPages(s, read, true);
    }
    hide SettleProjects, WithPage, Unfinished, Whole, Flatten, Repeats;
  }

  lemma RefreshingKeepsPages(s: System, thread: string)
    requires PagesInv(s)
    ensures PagesInv(RefreshQueueStep(s, thread)) && PagesInv(RefreshProjectsStep(s))
  {
    hide Unfinished, Whole;
    NewReadIsUnfinished(QueueVersion(s.store, thread), s.store.log);
    NewReadIsUnfinished(s.store.projectVersion, s.store.log);
  }

  lemma NotifyingKeepsPages(s: System, thread: string, gone: bool)
    requires PagesInv(s)
    ensures PagesInv(s.(store := QueueChangedStore(s.store, thread)))
    ensures PagesInv(s.(store := ProjectChangedStore(s.store)))
    ensures PagesInv(s.(store := ClearedStore(s.store, thread, gone)))
    ensures PagesInv(s.(store := DisconnectStore(s.store)))
  {
    hide Unfinished, Whole, Put;
    PutMembers(s.store.queues, thread, Listing(QueueVersion(s.store, thread) + 1, Pending, []));
    MarkedAreStale(s.store.queues);
  }

  lemma NextKeepsPages(s: System, step: Step)
    requires PagesInv(s)
    ensures PagesInv(Next(s, step))
  {
    match step {
      case NotifyQueueChanged(thread) =>
        NotifyingKeepsPages(s, thread, false);
        RefreshingKeepsPages(s.(store := QueueChangedStore(s.store, thread)), thread);
      case NotifyProjectChanged =>
        NotifyingKeepsPages(s, "", false);
        RefreshingKeepsPages(s.(store := ProjectChangedStore(s.store)), "");
      case NotifyCleared(thread, gone) => NotifyingKeepsPages(s, thread, gone);
      case RestoreThread(thread) => RefreshingKeepsPages(s, thread);
      case RefreshProjects => RefreshingKeepsPages(s, "");
      case QueuePage(thread, page, cursor) => QueuePageKeepsPages(s, thread, page, cursor);
      case QueueError(thread) => QueuePageKeepsPages(s, thread, [], None);
      case ProjectPage(page, cursor) => ProjectPageKeepsPages(s, page, cursor);
      case ProjectError => ProjectPageKeepsPages(s, [], None);
      case Disconnect => NotifyingKeepsPages(s, "", false);
      case _ =>
    }
    hide Unfinished, Whole, QueueChangedStore, ProjectChangedStore, ClearedStore, DisconnectStore, RefreshQueueStep,
         RefreshProjectsStep, QueuePageStep, QueueErrorStep, ProjectPageStep, ProjectErrorStep;
  }

  lemma {:induction false} RunKeepsPages(s: System, steps: seq<Step>)
    requires PagesInv(s)
    ensures PagesInv(Run(s, steps))
    decreases |steps|
  {
    hide PagesInv, Next;
    if steps != [] {
      NextKeepsPages(s, steps[0]);
      RunKeepsPages(Next(s, steps[0]), steps[1..]);
    }
  }

  // Over every run: a queue or project list marked ready was read to its end, or until more entries
  // had come than are kept, each page asked for with the cursor of the page before, and no cursor
  // coming twice.
  lemma ReadyListingsAreWhole(steps: seq<Step>)
    ensures var store := Run(InitialSystem, steps).store;
            && (forall slot <- store.queues :: slot.listing.status.Ready? ==> Whole(slot.listing.status.pages))
            && (store.projects.status.Ready? ==> Whole(store.projects.status.pages))
  {
    hide Whole, Unfinished;
    RunKeepsPages(InitialSystem, steps);
  }

  // The store shows this listing for the thread; no other queue is added or changed.
  ghost predicate Shows(before: Store, after: Store, thread: string, listing: Listing) {
    && after == before.(queues := after.queues)
    && Slot(thread, listing) in after.queues
    && (forall slot <- after.queues :: slot == Slot(thread, listing) || (slot in before.queues && slot.thread != thread))
  }

  ghost predicate StartsOver(read: Read, version: nat, log: seq<Event>) {
    (read.version, read.from, read.data, read.cursor, read.cursors, read.pages) == (version, |log|, [], None, {}, [])
  }

  // What a listing becomes when all these pages are read, the last of them perhaps in vain.
  function Outcome(read: Read, pages: seq<Page>, repeated: bool): Listing {
    if repeated then Listing(read.version, Failed, [])
    else Listing(read.version, Ready(read.from, pages), Take(Flatten(pages), ENTITY_LIMIT))
  }

  lemma PutShows(store: Store, thread: string, listing: Listing)
    requires |store.queues| <= ENTITY_LIMIT && DistinctSlots(store.queues)
    ensures Shows(store, store.(queues := Put(store.queues, thread, listing)), thread, listing)
  {
    PutSays(store.queues, thread, listing);
    hide Put, SlotInv, DistinctSlots;
  }

  ghost predicate SettlesAs(s: System, s': System, thread: string, version: nat, listing: Listing) {
    if version != QueueVersion(s.store, thread) then
      && thread in s'.sync.queueReads
      && s' == s.(sync := s.sync.(queueReads := s.sync.queueReads[thread := s'.sync.queueReads[thread]]))
      && StartsOver(s'.sync.queueReads[thread], QueueVersion(s.store, thread), s.store.log)
    else
      && s'.sync == s.sync.(queueReads := s.sync.queueReads - {thread})
      && Shows(s.store, s'.store, thread, listing)
  }

  lemma SettlingShows(s: System, thread: string, read: Read, failed: bool)
    requires QueuesInv(s.store) && thread in s.sync.queueReads && s.store.connected && thread !in s.store.deleted
    requires failed || Take(read.data, ENTITY_LIMIT) == Take(Flatten(read.pages), ENTITY_LIMIT)
    ensures SettlesAs(s, SettleQueue(s, thread, read, failed), thread, read.version, Outcome(read, read.pages, failed))
  {
    PutShows(s.store, thread, Outcome(read, read.pages, failed));
    hide SlotInv, DistinctSlots, Put, Take, Flatten, Shows;
  }

  // The read goes on and asks for what comes after these pages.
  ghost predicate GoesOnWith(read: Read, read': Read, pages: seq<Page>) {
    (read'.version, read'.from, read'.cursor, read'.pages) == (read.version, read.from, NextAfter(pages), pages)
  }

  ghost predicate Continues(read: Read, pages: seq<Page>, cursor: Option<string>) {
    cursor.Some? && !Repeats(read.pages, cursor) && |Flatten(pages)| <= ENTITY_LIMIT
  }

  lemma WithPageGoesOn(read: Read, page: seq<Item>, cursor: Option<string>)
    requires Unfinished(read)
    ensures var next := WithPage(read, page, cursor);
            var pages := read.pages + [Page(read.cursor, page, cursor)];
            && next.pages == pages && next.version == read.version && next.from == read.from
            && (cursor.Some? ==> (cursor.value in read.cursors <==> Repeats(read.pages, cursor)))
            && (cursor.None? ==> !Repeats(read.pages, cursor))
            && Take(next.data, ENTITY_LIMIT) == Take(Flatten(pages), ENTITY_LIMIT)
            && (Continues(read, pages, cursor) <==>
                cursor.Some? && cursor.value !in read.cursors && |next.data| <= ENTITY_LIMIT)
            && GoesOnWith(read, next, pages)
  {
    WithPageSays(read, page, cursor);
    hide Flatten, Repeats, Whole, Unfinished;
  }

  // A page with a new next cursor and room for more makes the read go on with that cursor. Otherwise
  // the read is over: it starts again if the queue has changed since it began, and else the queue is
  // ready with what was read, or failed if the cursor came before.
  lemma QueuePageOutcome(steps: seq<Step>, thread: string, page: seq<Item>, cursor: Option<string>)
    requires var s := Run(InitialSystem, steps);
             thread in s.sync.queueReads && !s.sync.disposed && s.store.connected && thread !in s.store.deleted
    ensures var s := Run(InitialSystem, steps);
            var s', read := Next(s, QueuePage(thread, page, cursor)), s.sync.queueReads[thread];
            var pages := read.pages + [Page(read.cursor, page, cursor)];
            if Continues(read, pages, cursor) then
              && thread in s'.sync.queueReads && GoesOnWith(read, s'.sync.queueReads[thread], pages)
              && s' == s.(sync := s.sync.(queueReads := s.sync.queueReads[thread := s'.sync.queueReads[thread]]))
            else SettlesAs(s, s', thread, read.version, Outcome(read, pages, Repeats(read.pages, cursor)))
  {
    hide Run, WithPage, SettleQueue, SettlesAs, Take, Flatten, Repeats, SystemInv, PagesInv, Unfinished, GoesOnWith, Continues,
         QueuesInv, DistinctSlots;
    var s := Run(InitialSystem, steps);
    var read := s.sync.queueReads[thread];
    var next := WithPage(read, page, cursor);
    ReachableReads(steps, thread);
    WithPageGoesOn(read, page, cursor);
    SettlingShows(s, thread, next, true);
    SettlingShows(s, thread, next, false);
  }

  lemma ReachableReads(steps: seq<Step>, thread: string)
    ensures var s := Run(InitialSystem, steps);
            && QueuesInv(s.store)
            && (thread in s.sync.queueReads ==> Unfinished(s.sync.queueReads[thread]))
            && (s.sync.projectRead.Some? ==> Unfinished(s.sync.projectRead.value))
  {
    InitialInv();
    RunKeepsInv(InitialSystem, steps);
    RunKeepsPages(InitialSystem, steps);
    hide QueuesInv, VersionsInv, ProjectsInv, ReadsInv, Unfinished, Whole;
  }

  // A failed request ends the read too: it starts again if the queue has changed, and else the queue failed.
  lemma QueueErrorOutcome(steps: seq<Step>, thread: string)
    requires var s := Run(InitialSystem, steps);
             thread in s.sync.queueReads && !s.sync.disposed && s.store.connected && thread !in s.store.deleted
    ensures var s := Run(InitialSystem, steps);
            var read := s.sync.queueReads[thread];
            SettlesAs(s, Next(s, QueueError(thread)), thread, read.version, Listing(read.version, Failed, []))
  {
    hide Run, SettleQueue, SettlesAs, QueuesInv, Unfinished;
    ReachableReads(steps, thread);
    SettlingShows(Run(InitialSystem, steps), thread, Run(InitialSystem, steps).sync.queueReads[thread], true);
  }

  ghost predicate ProjectsSettleAs(s: System, s': System, version: nat, listing: Listing) {
    if version != s.store.projectVersion then
      && s' == s.(sync := s.sync.(projectRead := s'.sync.projectRead)) && s'.sync.projectRead.Some?
      && StartsOver(s'.sync.projectRead.value, s.store.projectVersion, s.store.log)
    else s' == System(s.store.(projects := listing), s.sync.(projectRead := None))
  }

  lemma SettlingProjectsShows(s: System, read: Read, failed: bool)
    requires s.store.connected && s.sync.projectRead.Some?
    requires failed || Take(read.data, ENTITY_LIMIT) == Take(Flatten(read.pages), ENTITY_LIMIT)
    ensures ProjectsSettleAs(s, SettleProjects(s, read, failed), read.version,
                             if failed then s.store.projects.(version := read.version, status := Failed)
                             else Outcome(read, read.pages, false))
  {
    hide Take, Flatten;
  }

  // The project list is read in the same way; when its read fails, the entries of before stay.
  lemma ProjectPageOutcome(steps: seq<Step>, page: seq<Item>, cursor: Option<string>)
    requires var s := Run(InitialSystem, steps);
             s.sync.projectRead.Some? && !s.sync.disposed && s.store.connected
    ensures var s := Run(InitialSystem, steps);
            var s', read := Next(s, ProjectPage(page, cursor)), s.sync.projectRead.value;
            var pages := read.pages + [Page(read.cursor, page, cursor)];
            if Continues(read, pages, cursor) then
              && s'.sync.projectRead.Some? && GoesOnWith(read, s'.sync.projectRead.value, pages)
              && s' == s.(sync := s.sync.(projectRead := s'.sync.projectRead))
            else if Repeats(read.pages, cursor) then
              ProjectsSettleAs(s, s', read.version, s.store.projects.(version := read.version, status := Failed))
            else ProjectsSettleAs(s, s', read.version, Outcome(read, pages, false))
  {
    hide Run, WithPage, SettleProjects, ProjectsSettleAs, Take, Flatten, Repeats, Unfinished, GoesOnWith, Continues, QueuesInv;
    var s := Run(InitialSystem, steps);
    var next := WithPage(s.sync.projectRead.value, page, cursor);
    ReachableReads(steps, "");
    WithPageGoesOn(s.sync.projectRead.value, page, cursor);
    SettlingProjectsShows(s, next, true);
    SettlingProjectsShows(s, next, false);
  }

  lemma ProjectErrorOutcome(s: System)
    requires s.sync.projectRead.Some? && !s.sync.disposed && s.store.connected
    ensures var read := s.sync.projectRead.value;
            ProjectsSettleAs(s, Next(s, ProjectError), read.version, s.store.projects.(version := read.version, status := Failed))
  {
  }

  // Once nobody listens, or the thread is gone, an answer only ends its read.
  lemma LateAnswersChangeNothing(s: System, thread: string, page: seq<Item>, cursor: Option<string>)
    requires s.sync.disposed || !s.store.connected || thread in s.store.deleted
    ensures Next(s, QueuePage(thread, page, cursor)) == Next(s, QueueError(thread))
            == s.(sync := s.sync.(queueReads := s.sync.queueReads - {thread}))
    ensures s.sync.disposed || !s.store.connected ==>
              Next(s, ProjectPage(page, cursor)) == s.(sync := s.sync.(projectRead := None))
  {
  }

  // A change, or the restoration of its thread, has a queue read from the start unless a read is under
  // way, which then notices the change; so does a change of the projects or a request for them.
  lemma ChangesAreRead(s: System, thread: string)
    requires !s.sync.disposed && s.store.connected
    ensures thread !in s.store.deleted ==>
              forall step <- [NotifyQueueChanged(thread), RestoreThread(thread)] ::
                var s' := Next(s, step);
                && s'.sync.queueReads.Keys == s.sync.queueReads.Keys + {thread}
                && (if thread in s.sync.queueReads then s'.sync.queueReads == s.sync.queueReads
                    else StartsOver(s'.sync.queueReads[thread], QueueVersion(s'.store, thread), s'.store.log))
    ensures forall step <- [NotifyProjectChanged, RefreshProjects] ::
              var s' := Next(s, step);
              && s'.sync.projectRead.Some?
              && (if s.sync.projectRead.Some? then s'.sync == s.sync
                  else StartsOver(s'.sync.projectRead.value, s'.store.projectVersion, s'.store.log))
  {
    hide Put;
  }

  // What the store makes of each report. A changed queue is pending and empty,
  lemma ChangedQueueIsPending(s: System, thread: string)
    requires SystemInv(s)
    ensures var after := Next(s, NotifyQueueChanged(thread)).store;
            var version := QueueVersion(s.store, thread) + 1;
            && QueueVersion(after, thread) == version
            && Shows(s.store.(queueVersions := after.queueVersions, log := after.log), after, thread, Listing(version, Pending, []))
  {
    var store := QueueChangedStore(s.store, thread);
    PutShows(s.store.(queueVersions := store.queueVersions, log := store.log), thread,
             Listing(QueueVersion(s.store, thread) + 1, Pending, []));
    hide Put, SlotInv, DistinctSlots, VersionsInv, ProjectsInv, ReadsInv, Shows;
  }

  // a reverted or deleted thread has no queue,
  lemma ClearedQueueIsGone(s: System, thread: string, gone: bool)
    ensures var s' := Next(s, NotifyCleared(thread, gone));
            && s' == s.(store := s'.store)
            && QueueVersion(s'.store, thread) == QueueVersion(s.store, thread) + 1
            && (forall slot :: slot in s'.store.queues <==> slot in s.store.queues && slot.thread != thread)
            && s'.store.deleted == s.store.deleted + (if gone then {thread} else {})
            && s'.store.projects == s.store.projects && s'.store.connected == s.store.connected
  {
  }

  // and a changed project list is pending with the entries of before.
  lemma ChangedProjectsArePending(s: System)
    ensures var after := Next(s, NotifyProjectChanged).store;
            && after.projects == Listing(s.store.projectVersion + 1, Pending, s.store.projects.entries)
            && after.projectVersion == s.store.projectVersion + 1
            && after == s.store.(projects := after.projects, projectVersion := after.projectVersion, log := after.log)
  {
  }

  // A disconnection raises every version and marks every list unknown; the entries stay to be seen.
  lemma DisconnectionInvalidates(s: System)
    requires s.store.connected
    ensures var after := Next(s, Disconnect).store;
            && !after.connected && after.projectVersion == s.store.projectVersion + 1
            && after.projects == s.store.projects.(status := Stale)
            && after.queueVersions.Keys == s.store.queueVersions.Keys
            && (forall t <- s.store.queueVersions :: after.queueVersions[t] == s.store.queueVersions[t] + 1)
            && |after.queues| == |s.store.queues|
            && (forall i :: 0 <= i < |after.queues| ==>
                  after.queues[i] == s.store.queues[i].(listing := s.store.queues[i].listing.(status := Stale)))
  {
  }

  // ---- No invalidation is lost ---------------------------------------------------------------------------------

  // Nothing in the program reconnects a store: each session has its own, and disconnects it for good.
  predicate NeverReconnects(steps: seq<Step>) {
    forall step <- steps :: !step.Connect?
  }

  ghost predicate QueuesAreRead(s: System) {
    forall slot <- s.store.queues :: slot.listing.status.Pending? && CanSync(s, slot.thread) ==> slot.thread in s.sync.queueReads
  }

  // The project list starts out pending; before its first change, only a request to refresh it has it read.
  ghost predicate ProjectsAreRead(s: System, asked: bool) {
    s.store.connected && !s.sync.disposed ==>
      && s.store.projects.version == s.store.projectVersion
      && (s.sync.projectRead.Some? ==> s.store.projectVersion > 0 || asked)
      && (s.store.projects.status.Pending? && (s.store.projectVersion > 0 || asked) ==> s.sync.projectRead.Some?)
  }

  lemma PutMembers(slots: seq<Slot>, thread: string, listing: Listing)
    ensures forall slot <- Put(slots, thread, listing) :: slot == Slot(thread, listing) || (slot in slots && slot.thread != thread)
  {
    var all := Omit(slots, thread) + [Slot(thread, listing)];
    assert forall slot <- Put(slots, thread, listing) :: slot in all;
  }

  lemma MarkedAreStale(slots: seq<Slot>)
    ensures forall slot <- MarkUnknown(slots) :: slot.listing.status.Stale?
  {
    forall slot <- MarkUnknown(slots) ensures slot.listing.status.Stale? {
      var i :| 0 <= i < |slots| && MarkUnknown(slots)[i] == slot;
    }
  }

  lemma SettlingKeepsQueuesRead(s: System, thread: string, read: Read, failed: bool)
    requires QueuesAreRead(s) && CanSync(s, thread) && thread in s.sync.queueReads
    ensures QueuesAreRead(SettleQueue(s, thread, read, failed))
  {
    hide Put, Take;
    PutMembers(s.store.queues, thread, Listing(read.version, Failed, []));
    PutMembers(s.store.queues, thread, Listing(read.version, Ready(read.from, read.pages), Take(read.data, ENTITY_LIMIT)));
  }

  lemma AnswersKeepQueuesRead(s: System, thread: string, page: seq<Item>, cursor: Option<string>)
    requires QueuesAreRead(s)
    ensures QueuesAreRead(QueuePageStep(s, thread, page, cursor)) && QueuesAreRead(QueueErrorStep(s, thread))
  {
    if thread in s.sync.queueReads && CanSync(s, thread) {
      var next := WithPage(s.sync.queueReads[thread], page, cursor);
      SettlingKeepsQueuesRead(s, thread, next, true);
      SettlingKeepsQueuesRead(s, thread, next, false);
      SettlingKeepsQueuesRead(s, thread, s.sync.queueReads[thread], true);
    }
    hide SettleQueue, WithPage;
  }

  lemma NextKeepsQueuesRead(s: System, step: Step)
    requires QueuesAreRead(s) && !step.Connect?
    ensures QueuesAreRead(Next(s, step))
  {
    match step {
      case NotifyQueueChanged(thread) => PutMembers(s.store.queues, thread, Listing(QueueVersion(s.store, thread) + 1, Pending, []));
      case QueuePage(thread, page, cursor) => AnswersKeepQueuesRead(s, thread, page, cursor);
      case QueueError(thread) => AnswersKeepQueuesRead(s, thread, [], None);
      case Disconnect => MarkedAreStale(s.store.queues);
      case _ =>
    }
    hide QueuePageStep, QueueErrorStep, Put, Omit;
  }

  lemma NextKeepsProjectsRead(s: System, step: Step, asked: bool)
    requires ProjectsAreRead(s, asked) && !step.Connect?
    ensures ProjectsAreRead(Next(s, step), asked || step.RefreshProjects?)
  {
    hide Put, Omit, WithPage, Take, MarkUnknown, Bumped;
  }

  lemma {:induction false} RunKeepsRead(s: System, steps: seq<Step>, asked: bool)
    requires QueuesAreRead(s) && ProjectsAreRead(s, asked) && NeverReconnects(steps)
    ensures QueuesAreRead(Run(s, steps)) && ProjectsAreRead(Run(s, steps), asked || RefreshProjects in steps)
    decreases |steps|
  {
    hide QueuesAreRead, ProjectsAreRead, Next;
    if steps != [] {
      assert steps == [steps[0]] + steps[1..];
      NextKeepsQueuesRead(s, steps[0]);
      NextKeepsProjectsRead(s, steps[0], asked);
      RunKeepsRead(Next(s, steps[0]), steps[1..], asked || steps[0].RefreshProjects?);
    }
  }

  // While connected, not disposed and not deleted, a queue marked pending has a read in flight.
  lemma PendingQueueIsBeingRead(steps: seq<Step>, slot: Slot)
    requires NeverReconnects(steps)
    requires var s := Run(InitialSystem, steps);
             slot in s.store.queues && slot.listing.status.Pending? && CanSync(s, slot.thread)
    ensures slot.thread in Run(InitialSystem, steps).sync.queueReads
  {
    RunKeepsRead(InitialSystem, steps, false);
  }

  // The pending project list has a read in flight exactly once it has changed or a refresh was asked for.
  lemma PendingProjectsAreBeingRead(steps: seq<Step>)
    requires NeverReconnects(steps)
    requires var s := Run(InitialSystem, steps);
             s.store.projects.status.Pending? && s.store.connected && !s.sync.disposed
    ensures var s := Run(InitialSystem, steps);
            s.sync.projectRead.Some? <==> s.store.projects.version > 0 || RefreshProjects in steps
  {
    RunKeepsRead(InitialSystem, steps, false);
  }

  // ---- Why a store must not be reconnected ------------------------------------------------------------------------

  predicate Answers(step: Step, thread: string) {
    (step.QueuePage? || step.QueueError?) && step.thread == thread
  }

  predicate SlotsPending(slots: seq<Slot>, thread: string, pending: bool) {
    forall slot <- slots :: slot.thread == thread ==> (slot.listing.status.Pending? <==> pending)
  }

  // While disconnected a change marks the queue pending, no read starts, and an answer ends the read it is for.
  lemma OfflineStep(s: System, step: Step, thread: string, changed: bool)
    requires !s.store.connected && !step.Connect? && SlotsPending(s.store.queues, thread, changed)
    ensures var s' := Next(s, step);
            && !s'.store.connected
            && SlotsPending(s'.store.queues, thread, changed || step == NotifyQueueChanged(thread))
            && (thread in s'.sync.queueReads <==> thread in s.sync.queueReads && !Answers(step, thread))
  {
    if step.NotifyQueueChanged? {
      PutMembers(s.store.queues, step.thread, Listing(QueueVersion(s.store, step.thread) + 1, Pending, []));
    }
    hide Put, Omit;
  }

  lemma {:induction false} OfflineRun(s: System, steps: seq<Step>, thread: string, changed: bool)
    requires !s.store.connected && NeverReconnects(steps) && SlotsPending(s.store.queues, thread, changed)
    ensures var s' := Run(s, steps);
            && !s'.store.connected
            && SlotsPending(s'.store.queues, thread, changed || NotifyQueueChanged(thread) in steps)
            && (thread in s'.sync.queueReads <==> thread in s.sync.queueReads && forall step <- steps :: !Answers(step, thread))
    decreases |steps|
  {
    hide Next, SlotsPending;
    if steps != [] {
      assert steps == [steps[0]] + steps[1..];
      OfflineStep(s, steps[0], thread, changed);
      OfflineRun(Next(s, steps[0]), steps[1..], thread, changed || steps[0] == NotifyQueueChanged(thread));
    }
  }

  // Reconnecting after one disconnection would leave a pending queue unread exactly if the queue
  // changed while disconnected and no read from before was still waiting for its answer.
  lemma ReconnectionForgetsIff(before: seq<Step>, offline: seq<Step>, slot: Slot)
    requires NeverReconnects(before) && NeverReconnects(offline) && Run(InitialSystem, before).store.connected
    requires var s := Run(Next(Run(InitialSystem, before), Disconnect), offline);
             slot in s.store.queues && !s.sync.disposed && slot.thread !in s.store.deleted
    ensures var online := Run(InitialSystem, before);
            var s := Next(Run(Next(online, Disconnect), offline), Connect);
            && slot in s.store.queues && CanSync(s, slot.thread)
            && (slot.listing.status.Pending? && slot.thread !in s.sync.queueReads <==>
                && NotifyQueueChanged(slot.thread) in offline
                && (slot.thread !in online.sync.queueReads || exists step <- offline :: Answers(step, slot.thread)))
  {
    var online := Run(InitialSystem, before);
    MarkedAreStale(online.store.queues);
    OfflineRun(Next(online, Disconnect), offline, slot.thread, false);
  }

  // The shortest such run.
  lemma OfflineChangeIsForgotten(thread: string)
    ensures var s := Run(InitialSystem, [Disconnect, NotifyQueueChanged(thread), Connect]);
            && CanSync(s, thread) && thread !in s.sync.queueReads
            && s.store.queues == [Slot(thread, Listing(1, Pending, []))]
  {
    var s1 := Next(InitialSystem, Disconnect);
    assert s1.store.queueVersions == map[] && s1.store.queues == [];
    var s2 := Next(s1, NotifyQueueChanged(thread));
    assert s2.store.queues == [Slot(thread, Listing(1, Pending, []))];
    var s3 := Next(s2, Connect);
    var steps := [Disconnect, NotifyQueueChanged(thread), Connect];
    assert steps[1..] == [NotifyQueueChanged(thread), Connect];
    assert steps[1..][1..] == [Connect];
    assert Run(s3, []) == s3;
    assert Run(s2, [Connect]) == s3;
    assert Run(s1, steps[1..]) == s3;
  }

  // ---- The store and synchroniser objects --------------------------------------------------------------------------

  class ServerEventStore {
    var connected: bool
    var deletedThreadIds: set<string>
    var queueVersionsByThread: map<string, nat>
    var queuesByThread: seq<Slot>
    var projectVersion: nat
    var projectsSnapshot: Listing
    var log: seq<Event>

    ghost function View(): Store
      reads this
    {
      Store(connected, deletedThreadIds, queueVersionsByThread, queuesByThread, projectVersion, projectsSnapshot, log)
    }

    constructor ()
      ensures View() == InitialStore
    {
      connected, deletedThreadIds, queueVersionsByThread, queuesByThread := true, {}, map[], [];
      projectVersion, projectsSnapshot, log := 0, Listing(0, Pending, []), [];
    }

    method ConsumeQueueChanged(thread: string)
      modifies this
      ensures View() == old(QueueChangedStore(View(), thread))
    {
      var version := (if thread in queueVersionsByThread then queueVersionsByThread[thread] else 0) + 1;
      queueVersionsByThread := queueVersionsByThread[thread := version];
      queuesByThread := Put(queuesByThread, thread, Listing(version, Pending, []));
      log := log + [QueueChanged(thread)];
    }

    method ConsumeCleared(thread: string, gone: bool)
      modifies this
      ensures View() == old(ClearedStore(View(), thread, gone))
    {
      var version := if thread in queueVersionsByThread then queueVersionsByThread[thread] else 0;
      queueVersionsByThread := queueVersionsByThread[thread := version + 1];
      queuesByThread := Omit(queuesByThread, thread);
      if gone {
        deletedThreadIds := deletedThreadIds + {thread};
      }
      log := log + [Cleared(thread)];
    }

    method ConsumeProjectChanged()
      modifies this
      ensures View() == old(ProjectChangedStore(View()))
    {
      projectVersion := projectVersion + 1;
      projectsSnapshot := projectsSnapshot.(version := projectVersion, status := Pending);
      log := log + [ProjectChanged];
    }

    method HydrateQueue(thread: string, read: Read) returns (merged: bool)
      modifies this
      ensures View() == old(HydrateQueueStore(View(), thread, read))
      ensures merged == old(CanHydrate(View(), thread, read.version))
    {
      merged := connected && thread !in deletedThreadIds
                && (if thread in queueVersionsByThread then queueVersionsByThread[thread] else 0) == read.version;
      if merged {
        queuesByThread := Put(queuesByThread, thread,
          Listing(read.version, Ready(read.from, read.pages), Take(read.data, ENTITY_LIMIT)));
      }
    }

    method FailQueue(thread: string, version: nat)
      modifies this
      ensures View() == old(FailQueueStore(View(), thread, version))
    {
      if connected && thread !in deletedThreadIds
         && (if thread in queueVersionsByThread then queueVersionsByThread[thread] else 0) == version {
        queuesByThread := Put(queuesByThread, thread, Listing(version, Failed, []));
      }
    }

    method HydrateProjects(read: Read)
      modifies this
      ensures View() == old(HydrateProjectsStore(View(), read))
    {
      if connected && projectVersion == read.version {
        projectsSnapshot := Listing(read.version, Ready(read.from, read.pages), Take(read.data, ENTITY_LIMIT));
      }
    }

    method FailProjects(version: nat)
      modifies this
      ensures View() == old(FailProjectsStore(View(), version))
    {
      if connected && projectVersion == version {
        projectsSnapshot := projectsSnapshot.(version := version, status := Failed);
      }
    }

    method Disconnect()
      modifies this
      ensures View() == old(DisconnectStore(View()))
    {
      if !connected {
        return;
      }
      connected := false;
      queueVersionsByThread := Bumped(queueVersionsByThread);
      queuesByThread := MarkUnknown(queuesByThread);
      projectVersion := projectVersion + 1;
      projectsSnapshot := projectsSnapshot.(status := Stale);
      log := log + [Disconnected];
    }

    method Connect()
      modifies this
      ensures View() == old(ConnectStore(View()))
    {
      connected := true;
    }
  }

  class ServerEventSync {
    const store: ServerEventStore
    var disposed: bool
    var queues: map<string, Read>
    var projects: Option<Read>

    ghost function View(): System
      reads this, store
    {
      System(store.View(), Sync(disposed, queues, projects))
    }

    constructor (store: ServerEventStore)
      ensures this.store == store && View() == System(store.View(), Sync(false, map[], None))
    {
      this.store := store;
      disposed, queues, projects := false, map[], None;
    }

    method QueueVersionNow(thread: string) returns (version: nat)
      ensures version == QueueVersion(store.View(), thread)
    {
      version := if thread in store.queueVersionsByThread then store.queueVersionsByThread[thread] else 0;
    }

    method CanSyncThread(thread: string) returns (ok: bool)
      ensures ok == CanSync(View(), thread)
    {
      ok := !disposed && store.connected && thread !in store.deletedThreadIds;
    }

    method StartQueueRead(thread: string)
      modifies this
      ensures View() == old(Reading(View(), thread, Some(NewRead(QueueVersion(store.View(), thread), store.log))))
    {
      var version := QueueVersionNow(thread);
      queues := queues[thread := Read(version, |store.log|, [], None, {}, [])];
    }

    method RefreshQueue(thread: string)
      modifies this
      ensures View() == old(RefreshQueueStep(View(), thread))
    {
      if thread in queues {
        return;
      }
      var ok := CanSyncThread(thread);
      if ok {
        StartQueueRead(thread);
      }
    }

    // The end of one turn of the reading loop: start over, merge, or record the failure.
    method FinishQueueRead(thread: string, read: Read, failed: bool)
      requires thread in queues
      modifies this, store
      ensures View() == old(SettleQueue(View(), thread, read, failed))
    {
      var version := QueueVersionNow(thread);
      if read.version != version {
        StartQueueRead(thread);
        return;
      }
      queues := queues - {thread};
      if failed {
        store.FailQueue(thread, read.version);
      } else {
        var merged := store.HydrateQueue(thread, read);
      }
    }

    // The answer to one page request.
    method QueuePageArrived(thread: string, page: seq<Item>, cursor: Option<string>)
      requires thread in queues
      modifies this, store
      ensures View() == old(QueuePageStep(View(), thread, page, cursor))
    {
      var ok := CanSyncThread(thread);
      if !ok {
        queues := queues - {thread};
        return;
      }
      var read := queues[thread];
      var room := ENTITY_LIMIT + 1 - |read.data|;
      var next := read.(data := read.data + Take(page, if room > 0 then room else 0), cursor := cursor,
                        pages := read.pages + [Page(read.cursor, page, cursor)]);
      if cursor.Some? {
        next := next.(cursors := next.cursors + {cursor.value});
        if cursor.value in read.cursors {
          FinishQueueRead(thread, next, true);
          return;
        }
        if |next.data| <= ENTITY_LIMIT {
          queues := queues[thread := next];
          return;
        }
      }
      FinishQueueRead(thread, next, false);
    }

    method QueueRequestFailed(thread: string)
      requires thread in queues
      modifies this, store
      ensures View() == old(QueueErrorStep(View(), thread))
    {
      var ok := CanSyncThread(thread);
      if ok {
        FinishQueueRead(thread, queues[thread], true);
      } else {
        queues := queues - {thread};
      }
    }

    method RefreshProjectList()
      modifies this
      ensures View() == old(RefreshProjectsStep(View()))
    {
      if projects.None? && !disposed && store.connected {
        projects := Some(Read(store.projectVersion, |store.log|, [], None, {}, []));
      }
    }

    method FinishProjectRead(read: Read, failed: bool)
      modifies this, store
      ensures View() == old(SettleProjects(View(), read, failed))
    {
      if read.version != store.projectVersion {
        projects := if store.connected then Some(Read(store.projectVersion, |store.log|, [], None, {}, [])) else None;
        return;
      }
      projects := None;
      if failed {
        store.FailProjects(read.version);
      } else {
        store.HydrateProjects(read);
      }
    }

    method ProjectPageArrived(page: seq<Item>, cursor: Option<string>)
      requires projects.Some?
      modifies this, store
      ensures View() == old(ProjectPageStep(View(), page, cursor))
    {
      if disposed || !store.connected {
        projects := None;
        return;
      }
      var read := projects.value;
      var room := ENTITY_LIMIT + 1 - |read.data|;
      var next := read.(data := read.data + Take(page, if room > 0 then room else 0), cursor := cursor,
                        pages := read.pages + [Page(read.cursor, page, cursor)]);
      if cursor.Some? {
        next := next.(cursors := next.cursors + {cursor.value});
        if cursor.value in read.cursors {
          FinishProjectRead(next, true);
          return;
        }
        if |next.data| <= ENTITY_LIMIT {
          projects := Some(next);
          return;
        }
      }
      FinishProjectRead(next, false);
    }

    method ProjectRequestFailed()
      requires projects.Some?
      modifies this, store
      ensures View() == old(ProjectErrorStep(View()))
    {
      if disposed {
        projects := None;
        return;
      }
      FinishProjectRead(projects.value, true);
    }

    method OnQueueChanged(thread: string)
      modifies this, store
      ensures View() == old(NotifyQueueStep(View(), thread))
    {
      store.ConsumeQueueChanged(thread);
      if !disposed {
        RefreshQueue(thread);
      }
    }

    method OnProjectChanged()
      modifies this, store
      ensures View() == old(NotifyProjectStep(View()))
    {
      store.ConsumeProjectChanged();
      if !disposed {
        RefreshProjectList();
      }
    }

    method Dispose()
      modifies this
      ensures View() == old(View().(sync := View().sync.(disposed := true)))
    {
      disposed := true;
    }
  }
}
