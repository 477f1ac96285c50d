/**
  Notifications between their arrival and the state that is shown: text deltas wait for the next
  animation frame, and everything waits while a thread is being resumed. The conversation view and
  the thread session both work this way.
  Sources: src/app/useConversation.ts, src/app/useThreadSession.ts.
 */
module Batching {

  // `early` is what arrived while resuming, `queued` what waits for the frame.
  datatype Feed<S, N> = Feed(shown: S, resuming: bool, early: seq<N>, queued: seq<N>, frame: bool)

  datatype Event<!S, N> =
    | Arrives(note: N)
    | FrameFires
    | Resumed(restored: S)
    | ResumeFails
    | Touches(change: S -> S)     // any other update of the shown state
    | Switches(another: S, resumes: bool)   // another thread, or a new history of this one

  function FoldAll<S, N>(reduce: (S, N) -> S, s: S, notes: seq<N>): S
    decreases |notes|
  {
    if notes == [] then s else FoldAll(reduce, reduce(s, notes[0]), notes[1..])
  }

  function Step<S, N>(reduce: (S, N) -> S, isDelta: N -> bool, feed: Feed<S, N>, event: Event<S, N>): Feed<S, N> {
    match event
    case Arrives(note) =>
      if feed.resuming then feed.(early := feed.early + [note])
      else if isDelta(note) then feed.(queued := feed.queued + [note], frame := true)
      else feed.(shown := FoldAll(reduce, feed.shown, feed.queued + [note]), queued := [], frame := false)
    case FrameFires =>
      if feed.frame then feed.(shown := FoldAll(reduce, feed.shown, feed.queued), queued := [], frame := false) else feed
    case Resumed(restored) =>
      if feed.resuming then feed.(shown := FoldAll(reduce, restored, feed.early), early := [], resuming := false) else feed
    case ResumeFails =>
      if feed.resuming then feed.(shown := FoldAll(reduce, feed.shown, feed.early), early := [], resuming := false) else feed
    case Touches(change) => feed.(shown := change(feed.shown))
    case Switches(another, resumes) => StartFeed(another, resumes)
  }

  // Nothing waits yet; what waited for another thread is thrown away.
  function StartFeed<S, N>(s: S, resuming: bool): Feed<S, N> {
    Feed(s, resuming, [], [], false)
  }

  function Run<S, N>(reduce: (S, N) -> S, isDelta: N -> bool, feed: Feed<S, N>, events: seq<Event<S, N>>): Feed<S, N>
    decreases |events|
  {
    if events == [] then feed else Run(reduce, isDelta, Step(reduce, isDelta, feed, events[0]), events[1..])
  }

  // ---- An observer that never waits -----------------------------------------------------------------

  // It applies every notification at once; `since` is what it saw while the thread was being resumed.
  datatype Observer<S, N> = Observer(s: S, resuming: bool, since: seq<N>)

  function Observe<S, N>(reduce: (S, N) -> S, o: Observer<S, N>, event: Event<S, N>): Observer<S, N> {
    match event
    case Arrives(note) => o.(s := reduce(o.s, note), since := if o.resuming then o.since + [note] else o.since)
    case FrameFires => o
    case Resumed(restored) =>
      if o.resuming then Observer(FoldAll(reduce, restored, o.since), false, []) else o
    case ResumeFails => if o.resuming then o.(resuming := false, since := []) else o
    case Touches(change) => o.(s := change(o.s))
    case Switches(another, resumes) => Observer(another, resumes, [])
  }

  function ObserveAll<S, N>(reduce: (S, N) -> S, o: Observer<S, N>, events: seq<Event<S, N>>): Observer<S, N>
    decreases |events|
  {
    if events == [] then o else ObserveAll(reduce, Observe(reduce, o, events[0]), events[1..])
  }

  // An update from elsewhere must not depend on notifications that still wait.
  ghost predicate Commutes<S(!new), N>(reduce: (S, N) -> S, change: S -> S, notes: seq<N>) {
    forall s, i :: 0 <= i < |notes| ==> reduce(change(s), notes[i]) == change(reduce(s, notes[i]))
  }

  ghost predicate Allowed<S(!new), N>(reduce: (S, N) -> S, feed: Feed<S, N>, event: Event<S, N>) {
    event.Touches? ==> Commutes(reduce, event.change, feed.early) && Commutes(reduce, event.change, feed.queued)
  }

  ghost predicate AllAllowed<S(!new), N>(reduce: (S, N) -> S, isDelta: N -> bool, feed: Feed<S, N>, events: seq<Event<S, N>>)
    decreases |events|
  {
    events != [] ==>
      Allowed(reduce, feed, events[0]) && AllAllowed(reduce, isDelta, Step(reduce, isDelta, feed, events[0]), events[1..])
  }

  // The shown state with everything that waits is the observer's state; whatever waits has a frame
  // or the resumption to wait for.
  ghost predicate Faithful<S, N>(reduce: (S, N) -> S, feed: Feed<S, N>, o: Observer<S, N>) {
    && FoldAll(reduce, feed.shown, feed.early + feed.queued) == o.s
    && feed.resuming == o.resuming && feed.early == o.since
    && (feed.resuming ==> feed.queued == [])
    && (!feed.resuming ==> feed.early == [])
    && (feed.frame <==> feed.queued != [])
  }

  lemma {:induction false} FoldConcat<S, N>(reduce: (S, N) -> S, s: S, a: seq<N>, b: seq<N>)
    ensures FoldAll(reduce, s, a + b) == FoldAll(reduce, FoldAll(reduce, s, a), b)
    decreases |a|
  {
    if a == [] {
      assert a + b == b;
    } else {
      assert (a + b)[1..] == a[1..] + b;
      FoldConcat(reduce, reduce(s, a[0]), a[1..], b);
    }
  }

  lemma FoldOne<S, N>(reduce: (S, N) -> S, s: S, note: N)
    ensures FoldAll(reduce, s, [note]) == reduce(s, note)
  {
    assert [note][1..] == [];
  }

  lemma {:induction false} ChangeThenFold<S(!new), N>(reduce: (S, N) -> S, change: S -> S, s: S, notes: seq<N>)
    requires Commutes(reduce, change, notes)
    ensures FoldAll(reduce, change(s), notes) == change(FoldAll(reduce, s, notes))
    decreases |notes|
  {
    if notes != [] {
      assert reduce(change(s), notes[0]) == change(reduce(s, notes[0]));
      forall t, i | 0 <= i < |notes| - 1 ensures reduce(change(t), notes[1..][i]) == change(reduce(t, notes[1..][i])) {
        assert notes[1..][i] == notes[i + 1];
      }
      ChangeThenFold(reduce, change, reduce(s, notes[0]), notes[1..]);
    }
  }

  lemma StepIsFaithful<S(!new), N>(reduce: (S, N) -> S, isDelta: N -> bool, feed: Feed<S, N>, o: Observer<S, N>, event: Event<S, N>)
    requires Faithful(reduce, feed, o) && Allowed(reduce, feed, event)
    ensures Faithful(reduce, Step(reduce, isDelta, feed, event), Observe(reduce, o, event))
  {
    var none: seq<N> := [];
    assert feed.early + none == feed.early && none + feed.queued == feed.queued && none + none == none;
    match event
    case Arrives(note) =>
      var waiting := feed.early + feed.queued;
      FoldConcat(reduce, feed.shown, waiting, [note]);
      FoldOne(reduce, o.s, note);
      assert waiting + [note] == if feed.resuming then (feed.early + [note]) + feed.queued else feed.early + (feed.queued + [note]);
      assert [] + (feed.queued + [note]) == feed.queued + [note];
      assert (feed.early + [note]) + [] == feed.early + [note];
    case FrameFires =>
    case Resumed(restored) =>
    case ResumeFails =>
    case Switches(another, resumes) =>
    case Touches(change) =>
      ChangeThenFold(reduce, change, feed.shown, if feed.resuming then feed.early else feed.queued);
  }

  lemma {:induction false} RunIsFaithful<S(!new), N>(reduce: (S, N) -> S, isDelta: N -> bool, feed: Feed<S, N>,
                                                     o: Observer<S, N>, events: seq<Event<S, N>>)
    requires Faithful(reduce, feed, o) && AllAllowed(reduce, isDelta, feed, events)
    ensures Faithful(reduce, Run(reduce, isDelta, feed, events), ObserveAll(reduce, o, events))
    decreases |events|
  {
    hide Step, Observe;
    if events != [] {
      StepIsFaithful(reduce, isDelta, feed, o, events[0]);
      RunIsFaithful(reduce, isDelta, Step(reduce, isDelta, feed, events[0]), Observe(reduce, o, events[0]), events[1..]);
    }
  }

  // Only text deltas wait for a frame.
  ghost predicate QueuesDeltas<S, N>(isDelta: N -> bool, feed: Feed<S, N>) {
    forall i :: 0 <= i < |feed.queued| ==> isDelta(feed.queued[i])
  }

  lemma StepQueuesDeltas<S, N>(reduce: (S, N) -> S, isDelta: N -> bool, feed: Feed<S, N>, event: Event<S, N>)
    requires QueuesDeltas(isDelta, feed)
    ensures QueuesDeltas(isDelta, Step(reduce, isDelta, feed, event))
  {
  }

  // Batching is invisible: whatever arrives and wherever the frames fall, at rest the shown state is
  // that of an observer who applied everything at once, and a frame is due whenever it is not at rest.
  lemma BatchingIsInvisible<S(!new), N>(reduce: (S, N) -> S, isDelta: N -> bool, s: S, resuming: bool, events: seq<Event<S, N>>)
    requires AllAllowed(reduce, isDelta, StartFeed(s, resuming), events)
    ensures var feed := Run(reduce, isDelta, StartFeed(s, resuming), events);
            var seen := ObserveAll(reduce, Observer(s, resuming, []), events);
            && FoldAll(reduce, feed.shown, feed.early + feed.queued) == seen.s
            && (!feed.resuming && !feed.frame ==> feed.shown == seen.s)
            && (!feed.resuming ==> Step(reduce, isDelta, feed, FrameFires).shown == seen.s)
  {
    var feed := StartFeed<S, N>(s, resuming);
    assert feed.early + feed.queued == [];
    RunIsFaithful(reduce, isDelta, feed, Observer(s, resuming, []), events);
    var end := Run(reduce, isDelta, feed, events);
    assert !end.resuming ==> end.early + end.queued == end.queued;
  }
}
