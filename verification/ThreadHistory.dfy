/**
  The restored history of a thread: notifications, pages of older turns, pages of a turn's items and
  resumption. Source: src/app/useThreadSession.ts.
 */
module ThreadHistory {
  import opened Prelude
  import opened Batching
  import opened Conversation

  // What is loaded of one turn's items.
  datatype ItemPage = ItemPage(items: seq<Item>, nextCursor: Option<string>, complete: bool, loading: bool, failed: bool)

  const EmptyItemPage := ItemPage([], None, false, false, false)

  // `metadata` holds project, name, status and model settings.
  datatype Thread = Thread(turns: seq<Turn>, metadata: map<string, string>)

  datatype Phase = Idle | Loading | Ready | Failed

  datatype Session = Session(phase: Phase, restored: Option<Thread>, resumed: bool, olderCursor: Option<string>,
                             itemPages: map<string, ItemPage>, loadingOlder: bool, olderFailed: bool,
                             deleted: bool, offline: bool, failed: bool)

  datatype ThreadNote =
    | MetadataChanged(key: string, value: string)
    | ThreadDeleted
    | Projected(note: Note)

  function ReduceTurns(turns: seq<Turn>, note: Note): seq<Turn> {
    Reduce(State(turns, None, false, false, None), note).turns
  }

  // What a notification other than a deletion does to the restored thread.
  function ReduceRestored(thread: Thread, note: ThreadNote): Thread
    requires !note.ThreadDeleted?
  {
    match note
    case MetadataChanged(key, value) => thread.(metadata := thread.metadata[key := value])
    case Projected(projected) => thread.(turns := ReduceTurns(thread.turns, projected))
  }

  function ReduceThread(s: Session, note: ThreadNote): Session {
    if note.ThreadDeleted? then Session(Ready, None, false, None, map[], false, false, true, false, false)
    else if s.restored.None? then s
    else s.(restored := Some(ReduceRestored(s.restored.value, note)))
  }

  predicate IsProjectionDelta(note: ThreadNote) {
    note.Projected? && IsTextDelta(note.note)
  }

  // ---- Item pages ---------------------------------------------------------------------------------------

  function Upserted(items: seq<Item>, item: Item): seq<Item> {
    var index := LastIndex(items, item.id);
    if index.None? then items + [item] else items[index.value := item]
  }

  // Building a map from ids to indexes keeps the last index of an id.
  function LastIndex(items: seq<Item>, id: string): (index: Option<nat>)
    ensures index.Some? ==> index.value < |items| && items[index.value].id == id
                            && forall j :: index.value < j < |items| ==> items[j].id != id
    ensures index.None? <==> forall j :: 0 <= j < |items| ==> items[j].id != id
  {
    if items == [] then None
    else if items[|items| - 1].id == id then Some(|items| - 1)
    else LastIndex(items[..|items| - 1], id)
  }

  function MergeUnique(existing: seq<Item>, incoming: seq<Item>): seq<Item>
    decreases |incoming|
  {
    if incoming == [] then existing else MergeUnique(Upserted(existing, incoming[0]), incoming[1..])
  }

  // The index map of the loop below.
  ghost predicate Indexes(indexes: map<string, nat>, items: seq<Item>) {
    && (forall id :: id in indexes <==> LastIndex(items, id).Some?)
    && (forall id <- indexes :: LastIndex(items, id) == Some(indexes[id]))
  }

  lemma IndexOfAppended(indexes: map<string, nat>, items: seq<Item>, item: Item)
    requires Indexes(indexes, items)
    ensures Indexes(indexes[item.id := |items|], items + [item])
  {
    assert (items + [item])[..|items|] == items;
  }

  lemma IndexOfReplaced(items: seq<Item>, index: nat, item: Item, id: string)
    requires index < |items| && items[index].id == item.id
    ensures LastIndex(items[index := item], id) == LastIndex(items, id)
  {
    var items' := items[index := item];
    assert forall j :: 0 <= j < |items| ==> items'[j].id == items[j].id;
  }

  lemma IndexesOfReplaced(indexes: map<string, nat>, items: seq<Item>, index: nat, item: Item)
    requires Indexes(indexes, items) && index < |items| && items[index].id == item.id
    ensures Indexes(indexes, items[index := item])
  {
    forall id ensures LastIndex(items[index := item], id) == LastIndex(items, id) {
      IndexOfReplaced(items, index, item, id);
    }
    hide LastIndex;
  }

  lemma NothingIndexed(items: seq<Item>)
    requires items == []
    ensures Indexes(map[], items)
  {
  }

  method IndexItems(items: seq<Item>) returns (indexes: map<string, nat>)
    ensures Indexes(indexes, items)
  {
    hide Indexes, LastIndex;
    indexes := map[];
    NothingIndexed(items[..0]);
    var i := 0;
    while i < |items|
      invariant 0 <= i <= |items|
      invariant Indexes(indexes, items[..i])
    {
      assert items[..i + 1] == items[..i] + [items[i]];
      IndexOfAppended(indexes, items[..i], items[i]);
      indexes := indexes[items[i].id := i];
      i := i + 1;
    }
    assert items[..i] == items;
  }

  method MergeUniqueItems(existing: seq<Item>, incoming: seq<Item>) returns (items: seq<Item>)
    ensures items == MergeUnique(existing, incoming)
  {
    items := existing;
    var indexes: map<string, nat> := IndexItems(existing);
    var i := 0;
    while i < |incoming|
      invariant 0 <= i <= |incoming|
      invariant Indexes(indexes, items)
      invariant MergeUnique(items, incoming[i..]) == MergeUnique(existing, incoming)
    {
      var item := incoming[i];
      assert incoming[i..][0] == item && incoming[i..][1..] == incoming[i + 1..];
      if item.id !in indexes {
        IndexOfAppended(indexes, items, item);
        indexes := indexes[item.id := |items|];
        items := items + [item];
      } else {
        var index := indexes[item.id];
        IndexesOfReplaced(indexes, items, index, item);
        items := items[index := item];
      }
      i := i + 1;
    }
  }

  lemma {:induction false} UpsertedKeeps(items: seq<Item>, item: Item)
    requires DistinctItems(items)
    ensures var r := Upserted(items, item);
            && DistinctItems(r) && |items| <= |r|
            && (forall i :: 0 <= i < |items| ==> r[i].id == items[i].id)
            && (forall i :: 0 <= i < |r| ==> r[i] == (if r[i].id == item.id then item else items[i]))
            && (exists i :: 0 <= i < |r| && r[i] == item)
  {
    var r := Upserted(items, item);
    var index := LastIndex(items, item.id);
    var at := if index.None? then |items| else index.value;
    assert r[at] == item;
  }

  // Merging keeps the loaded items in their places and brings no duplicates.
  lemma {:induction false} MergeUniqueKeepsPlaces(existing: seq<Item>, incoming: seq<Item>)
    requires DistinctItems(existing)
    ensures var r := MergeUnique(existing, incoming);
            && DistinctItems(r) && |existing| <= |r|
            && (forall i :: 0 <= i < |existing| ==> r[i].id == existing[i].id)
    decreases |incoming|
  {
    if incoming != [] {
      UpsertedKeeps(existing, incoming[0]);
      MergeUniqueKeepsPlaces(Upserted(existing, incoming[0]), incoming[1..]);
    }
  }

  // Every id carries its newest version, all that came in is there, and nothing is invented.
  lemma {:induction false} MergeUniqueIsNewest(existing: seq<Item>, incoming: seq<Item>)
    requires DistinctItems(existing)
    ensures var r := MergeUnique(existing, incoming);
            && |existing| <= |r|
            && (forall i :: 0 <= i < |r| ==>
                  var newest := ItemById(incoming, r[i].id);
                  if newest.Some? then r[i] == newest.value else i < |existing| && r[i] == existing[i])
            && (forall item <- incoming :: LastIndex(r, item.id).Some?)
    decreases |incoming|
  {
    MergeUniqueKeepsPlaces(existing, incoming);
    if incoming != [] {
      var next, r := Upserted(existing, incoming[0]), MergeUnique(existing, incoming);
      UpsertedKeeps(existing, incoming[0]);
      MergeUniqueKeepsPlaces(next, incoming[1..]);
      MergeUniqueIsNewest(next, incoming[1..]);
      forall i | 0 <= i < |r|
        ensures var newest := ItemById(incoming, r[i].id);
                if newest.Some? then r[i] == newest.value else i < |existing| && r[i] == existing[i] {
        ItemByIdOfCons(incoming, r[i].id);
        hide MergeUnique, Upserted, LastIndex;
      }
      forall item <- incoming ensures LastIndex(r, item.id).Some? {
        if item == incoming[0] {
          var i :| 0 <= i < |next| && next[i] == item;
          assert r[i].id == item.id;
        }
      }
    }
  }

  lemma {:induction false} ItemByIdOfCons(items: seq<Item>, id: string)
    requires items != []
    ensures ItemById(items, id) == if ItemById(items[1..], id).Some? then ItemById(items[1..], id)
                                   else if items[0].id == id then Some(items[0]) else None
    decreases |items|
  {
    if |items| == 1 {
      assert items[1..] == [] && items[..0] == [];
    } else {
      var init := items[..|items| - 1];
      ItemByIdOfCons(init, id);
      assert items[1..][..|items| - 2] == init[1..];
    }
  }

  // Loading the same page again changes nothing.
  lemma MergeUniqueIsIdempotent(existing: seq<Item>, incoming: seq<Item>)
    requires DistinctItems(existing)
    ensures var r := MergeUnique(existing, incoming); MergeUnique(r, incoming) == r
  {
    var r := MergeUnique(existing, incoming);
    MergeUniqueKeepsPlaces(existing, incoming);
    MergeUniqueIsNewest(existing, incoming);
    MergeUniqueKeepsPlaces(r, incoming);
    MergeUniqueIsNewest(r, incoming);
    var again := MergeUnique(r, incoming);
    if |again| > |r| {
      var id := again[|r|].id;
      ItemByIdFinds(incoming, id);
      assert false;
    }
    assert forall i :: 0 <= i < |r| ==> again[i] == r[i];
  }

  function WithItemPage(turn: Turn, loaded: seq<Item>, complete: bool): Turn {
    turn.(items := if complete then loaded else loaded + NewItems(turn.items, loaded),
          itemsView := Some(if complete then Full else Summary),
          partial := !complete)
  }

  lemma {:induction false} NewItemsTwice(items: seq<Item>, known: seq<Item>)
    ensures NewItems(NewItems(items, known), known) == NewItems(items, known)
  {
    if items != [] {
      NewItemsTwice(items[1..], known);
      var r := NewItems(items, known);
      if FindItem(known, items[0].id).None? {
        assert r[1..] == NewItems(items[1..], known);
      }
    }
  }

  lemma {:induction false} NewItemsConcat(a: seq<Item>, b: seq<Item>, known: seq<Item>)
    ensures NewItems(a + b, known) == NewItems(a, known) + NewItems(b, known)
  {
    if a == [] {
      assert a + b == b;
    } else {
      assert (a + b)[1..] == a[1..] + b;
      NewItemsConcat(a[1..], b, known);
    }
  }

  // Applying a turn's loaded items twice is the same as applying them once; live items that no page
  // has brought yet are kept behind the loaded ones.
  lemma ItemPageIsIdempotent(turn: Turn, loaded: seq<Item>, complete: bool)
    ensures WithItemPage(WithItemPage(turn, loaded, complete), loaded, complete) == WithItemPage(turn, loaded, complete)
    ensures !complete ==> forall item <- turn.items :: FindItem(WithItemPage(turn, loaded, complete).items, item.id).Some?
  {
    forall item <- loaded ensures FindItem(loaded, item.id).Some? {
    }
    NothingNew(loaded, loaded);
    NewItemsConcat(loaded, NewItems(turn.items, loaded), loaded);
    NewItemsTwice(turn.items, loaded);
    var none: seq<Item> := [];
    assert none + NewItems(turn.items, loaded) == NewItems(turn.items, loaded);
    forall item | item in turn.items ensures FindItem(loaded + NewItems(turn.items, loaded), item.id).Some? {
      var known := FindItem(loaded, item.id);
      if known.Some? {
        assert (loaded + NewItems(turn.items, loaded))[known.value].id == item.id;
      } else {
        assert item in NewItems(turn.items, loaded);
        assert item in loaded + NewItems(turn.items, loaded);
      }
    }
  }

  // ---- Older turns -----------------------------------------------------------------------------------------

  function Reversed(turns: seq<Turn>): (r: seq<Turn>)
    ensures |r| == |turns| && forall i :: 0 <= i < |r| ==> r[i] == turns[|turns| - 1 - i]
  {
    seq(|turns|, i requires 0 <= i < |turns| => turns[|turns| - 1 - i])
  }

  function NewTurns(page: seq<Turn>, turns: seq<Turn>): (r: seq<Turn>)
    ensures forall turn :: turn in r <==> turn in page && FindTurn(turns, turn.id).None?
  {
    if page == [] then []
    else if FindTurn(turns, page[0].id).Some? then NewTurns(page[1..], turns)
    else [page[0]] + NewTurns(page[1..], turns)
  }

  function WithLoadedItems(turn: Turn, pages: map<string, ItemPage>): (r: Turn)
    ensures r.id == turn.id
  {
    if turn.id in pages then WithItemPage(turn, pages[turn.id].items, pages[turn.id].complete) else turn
  }

  function AllWithLoadedItems(turns: seq<Turn>, pages: map<string, ItemPage>): (r: seq<Turn>)
    ensures |r| == |turns| && forall i :: 0 <= i < |r| ==> r[i] == WithLoadedItems(turns[i], pages)
  {
    seq(|turns|, i requires 0 <= i < |turns| => WithLoadedItems(turns[i], pages))
  }

  // The page comes newest first.
  function OlderTurns(page: seq<Turn>, turns: seq<Turn>, pages: map<string, ItemPage>): seq<Turn> {
    AllWithLoadedItems(NewTurns(Reversed(page), turns), pages)
  }

  function WithOlderPage(s: Session, page: seq<Turn>, nextCursor: Option<string>): Session {
    if s.restored.None? then s
    else
      var thread := s.restored.value;
      s.(restored := Some(thread.(turns := OlderTurns(page, thread.turns, s.itemPages) + thread.turns)),
         olderCursor := nextCursor, loadingOlder := false, olderFailed := false)
  }

  // What may arrive while a page is on its way without the order mattering: anything but a deletion
  // or reversion, about no turn, a loaded turn, or a turn that is not on the page.
  predicate TurnOf(note: Note, id: string) {
    match note
    case TurnStarted(turn) => turn.id == id
    case TurnCompleted(turn) => turn.id == id
    case Reverted => false
    case Unrelated => false
    case _ => note.turnId == id
  }

  predicate OnPage(page: seq<Turn>, note: Note) {
    exists i :: 0 <= i < |page| && TurnOf(note, page[i].id)
  }

  predicate IsLoaded(turns: seq<Turn>, note: Note) {
    exists i :: 0 <= i < |turns| && TurnOf(note, turns[i].id)
  }

  lemma {:induction false} NewTurnsAreDistinct(page: seq<Turn>, turns: seq<Turn>)
    requires DistinctTurns(page)
    ensures DistinctTurns(NewTurns(page, turns))
  {
    if page != [] {
      NewTurnsAreDistinct(page[1..], turns);
      forall turn <- NewTurns(page[1..], turns) ensures turn.id != page[0].id {
        var i :| 0 <= i < |page| - 1 && page[1..][i] == turn;
        assert page[i + 1] == turn;
      }
    }
  }

  lemma OlderTurnsAreNew(page: seq<Turn>, turns: seq<Turn>, pages: map<string, ItemPage>)
    ensures forall i :: 0 <= i < |OlderTurns(page, turns, pages)| ==> FindTurn(turns, OlderTurns(page, turns, pages)[i].id).None?
    ensures DistinctTurns(page) ==> DistinctTurns(OlderTurns(page, turns, pages))
  {
    var new' := NewTurns(Reversed(page), turns);
    forall i | 0 <= i < |new'| ensures FindTurn(turns, new'[i].id).None? {
      assert new'[i] in new';
    }
    if DistinctTurns(page) {
      assert DistinctTurns(Reversed(page));
      NewTurnsAreDistinct(Reversed(page), turns);
    }
  }

  lemma PageIsShown(page: seq<Turn>, turns: seq<Turn>, pages: map<string, ItemPage>, turn: Turn)
    requires turn in page
    ensures FindTurn(OlderTurns(page, turns, pages) + turns, turn.id).Some?
  {
    var older, reversed := OlderTurns(page, turns, pages), Reversed(page);
    var k :| 0 <= k < |page| && page[k] == turn;
    assert reversed[|page| - 1 - k] == turn;
    var known := FindTurn(turns, turn.id);
    if known.Some? {
      assert (older + turns)[|older| + known.value].id == turn.id;
    } else {
      assert turn in NewTurns(reversed, turns);
      var i :| 0 <= i < |older| && NewTurns(reversed, turns)[i] == turn;
      assert (older + turns)[i].id == turn.id;
    }
  }

  // Loading an older page keeps turn ids distinct and the loaded turns as they are, at the end.
  lemma OlderPageKeepsHistory(s: Session, page: seq<Turn>, nextCursor: Option<string>)
    requires s.restored.Some? && DistinctTurns(s.restored.value.turns) && DistinctTurns(page)
    ensures var before, after := s.restored.value.turns, WithOlderPage(s, page, nextCursor).restored.value.turns;
            && DistinctTurns(after)
            && |before| <= |after| && after[|after| - |before|..] == before
            && (forall turn <- page :: FindTurn(after, turn.id).Some?)
  {
    var before := s.restored.value.turns;
    var older := OlderTurns(page, before, s.itemPages);
    OlderTurnsAreNew(page, before, s.itemPages);
    hide OlderTurns;
    forall turn <- page ensures FindTurn(older + before, turn.id).Some? {
      PageIsShown(page, before, s.itemPages, turn);
    }
    DistinctTogether(older, before);
    assert (older + before)[|older|..] == before;
  }

  lemma DistinctTogether(older: seq<Turn>, turns: seq<Turn>)
    requires DistinctTurns(older) && DistinctTurns(turns)
    requires forall i :: 0 <= i < |older| ==> FindTurn(turns, older[i].id).None?
    ensures DistinctTurns(older + turns)
  {
    var all := older + turns;
    forall i, j | 0 <= i < j < |all| ensures all[i].id != all[j].id {
      if j < |older| {
        assert all[i] == older[i] && all[j] == older[j];
      } else if i < |older| {
        assert all[i] == older[i] && all[j] == turns[j - |older|];
      } else {
        assert all[i] == turns[i - |older|] && all[j] == turns[j - |older|];
      }
    }
  }

  function Shifted(index: Option<nat>, offset: nat): Option<nat> {
    if index.Some? then Some(offset + index.value) else None
  }

  lemma FindFirst(turn: Turn, turns: seq<Turn>, id: string)
    ensures FindTurn([turn] + turns, id) == if turn.id == id then Some(0) else Shifted(FindTurn(turns, id), 1)
  {
    assert ([turn] + turns)[1..] == turns;
  }

  lemma {:induction false} FindBehind(older: seq<Turn>, turns: seq<Turn>, id: string)
    requires FindTurn(older, id).None?
    ensures FindTurn(older + turns, id) == Shifted(FindTurn(turns, id), |older|)
  {
    hide FindTurn;
    if older == [] {
      assert older + turns == turns;
    } else {
      var first, rest := older[0], older[1..];
      assert older == [first] + rest;
      assert older + turns == [first] + (rest + turns);
      FindFirst(first, rest, id);
      FindFirst(first, rest + turns, id);
      FindBehind(rest, turns, id);
    }
  }

  lemma PutAtBehind(older: seq<Turn>, turns: seq<Turn>, turn: Turn)
    requires FindTurn(older, turn.id).None?
    ensures PutAt(older + turns, turn) == older + PutAt(turns, turn)
    ensures CurrentTurn(older + turns, turn.id) == CurrentTurn(turns, turn.id)
    ensures FindTurn(older + turns, turn.id) == Shifted(FindTurn(turns, turn.id), |older|)
  {
    FindBehind(older, turns, turn.id);
    var index := FindTurn(turns, turn.id);
    hide FindTurn;
    if index.None? {
      assert older + turns + [turn] == older + (turns + [turn]);
    } else {
      assert (older + turns)[|older| + index.value := turn] == older + turns[index.value := turn];
    }
  }

  lemma MergedBehind(older: seq<Turn>, turns: seq<Turn>, turn: Turn)
    requires FindTurn(older, turn.id).None?
    ensures MergedTurn(older + turns, turn) == MergedTurn(turns, turn)
  {
    hide FindTurn, MergeTurn;
    FindBehind(older, turns, turn.id);
    var index := FindTurn(turns, turn.id);
    if index.Some? {
      assert (older + turns)[|older| + index.value] == turns[index.value];
    }
  }

  lemma PutTurnBehind(older: seq<Turn>, turns: seq<Turn>, turn: Turn)
    requires FindTurn(older, turn.id).None?
    ensures PutTurn(older + turns, turn) == older + PutTurn(turns, turn)
  {
    hide PutAt, CurrentTurn, PutTurn, MergedTurn;
    MergedBehind(older, turns, turn);
    PutTurnIsPut(older + turns, turn);
    PutTurnIsPut(turns, turn);
    PutAtBehind(older, turns, MergedTurn(turns, turn));
  }

  lemma UpdateTurnsBehind(older: seq<Turn>, turns: seq<Turn>, note: Note)
    requires IsItemNote(note) && FindTurn(older, note.turnId).None?
    ensures var behind := UpdateTurns(turns, note);
            UpdateTurns(older + turns, note) == if behind.None? then None else Some(older + behind.value)
  {
    hide UpdateTurns, UpdatedTurn, PutAt, CurrentTurn;
    var turn := UpdatedTurn(CurrentTurn(turns, note.turnId), note);
    PutAtBehind(older, turns, NewTurn(note.turnId));
    UpdateTurnsIsPut(older + turns, note);
    UpdateTurnsIsPut(turns, note);
    if turn.Some? {
      PutAtBehind(older, turns, turn.value);
    }
  }

  // A notification about a turn that is not among the older ones does not see them.
  lemma ReduceBehind(older: seq<Turn>, turns: seq<Turn>, note: Note)
    requires !note.Reverted? && !IsLoaded(older, note)
    ensures ReduceTurns(older + turns, note) == older + ReduceTurns(turns, note)
  {
    hide UpdateTurns, PutTurn;
    if IsItemNote(note) {
      NotAmong(older, note, note.turnId);
      UpdateTurnsBehind(older, turns, note);
    } else if !note.Unrelated? {
      NotAmong(older, note, note.turn.id);
      PutTurnBehind(older, turns, note.turn);
    }
  }

  lemma NotAmong(turns: seq<Turn>, note: Note, id: string)
    requires TurnOf(note, id) && !IsLoaded(turns, note)
    ensures FindTurn(turns, id).None?
  {
    forall j | 0 <= j < |turns| ensures turns[j].id != id {
    }
  }

  lemma TurnsStay(turns: seq<Turn>, note: Note)
    requires !note.Reverted?
    ensures KeepsPlaces(turns, ReduceTurns(turns, note))
  {
    TurnsKeepTheirPlaces(State(turns, None, false, false, None), note);
    hide Reduce;
  }

  // The ids after a notification are those before, and perhaps its own.
  lemma ReducedIds(turns: seq<Turn>, note: Note, id: string)
    requires !note.Reverted? && (!TurnOf(note, id) || IsLoaded(turns, note))
    ensures FindTurn(ReduceTurns(turns, note), id).Some? <==> FindTurn(turns, id).Some?
  {
    TurnsStay(turns, note);
    hide ReduceTurns;
    var turns' := ReduceTurns(turns, note);
    if FindTurn(turns, id).Some? {
      assert turns'[FindTurn(turns, id).value].id == id;
    }
    if |turns'| > |turns| {
      AppendedIsMentioned(turns, note);
    }
    if FindTurn(turns', id).Some? && FindTurn(turns', id).value < |turns| {
      assert turns[FindTurn(turns', id).value].id == id;
    }
  }

  lemma AppendedIsMentioned(turns: seq<Turn>, note: Note)
    requires !note.Reverted? && |ReduceTurns(turns, note)| > |turns|
    ensures !IsLoaded(turns, note) && TurnOf(note, ReduceTurns(turns, note)[|turns|].id)
  {
    if IsItemNote(note) {
      UpdateTurnsIsPut(turns, note);
    } else if !note.Unrelated? {
      PutTurnIsPut(turns, note.turn);
    }
    hide UpdateTurns, UpdatedTurn, PutTurn, MergedTurn;
  }

  lemma {:induction false} SameNewTurns(page: seq<Turn>, turns: seq<Turn>, turns': seq<Turn>)
    requires forall i :: 0 <= i < |page| ==> (FindTurn(turns', page[i].id).Some? <==> FindTurn(turns, page[i].id).Some?)
    ensures NewTurns(page, turns') == NewTurns(page, turns)
  {
    if page != [] {
      assert forall i :: 0 <= i < |page| - 1 ==> page[1..][i] == page[i + 1];
      SameNewTurns(page[1..], turns, turns');
    }
  }

  lemma OlderTurnsCommute(page: seq<Turn>, turns: seq<Turn>, pages: map<string, ItemPage>, note: Note)
    requires !note.Reverted? && (OnPage(page, note) ==> IsLoaded(turns, note))
    ensures ReduceTurns(OlderTurns(page, turns, pages) + turns, note) ==
              OlderTurns(page, ReduceTurns(turns, note), pages) + ReduceTurns(turns, note)
  {
    var older, reversed := OlderTurns(page, turns, pages), Reversed(page);
    forall i | 0 <= i < |older| ensures !TurnOf(note, older[i].id) {
      OlderIsUnmentioned(page, turns, pages, note, i);
    }
    ReduceBehind(older, turns, note);
    forall i | 0 <= i < |reversed|
      ensures FindTurn(ReduceTurns(turns, note), reversed[i].id).Some? <==> FindTurn(turns, reversed[i].id).Some? {
      assert reversed[i] == page[|page| - 1 - i];
      ReducedIds(turns, note, reversed[i].id);
    }
    SameNewTurns(reversed, turns, ReduceTurns(turns, note));
  }

  lemma OlderIsUnmentioned(page: seq<Turn>, turns: seq<Turn>, pages: map<string, ItemPage>, note: Note, i: nat)
    requires (OnPage(page, note) ==> IsLoaded(turns, note)) && i < |OlderTurns(page, turns, pages)|
    ensures !TurnOf(note, OlderTurns(page, turns, pages)[i].id)
  {
    var reversed := Reversed(page);
    var turn := NewTurns(reversed, turns)[i];
    assert turn in NewTurns(reversed, turns);
    var k :| 0 <= k < |reversed| && reversed[k] == turn;
    assert page[|page| - 1 - k] == turn;
  }

  // An older page and a notification may come in either order.
  lemma OlderPageCommutes(s: Session, page: seq<Turn>, nextCursor: Option<string>, note: ThreadNote)
    requires !note.ThreadDeleted?
    requires note.Projected? && s.restored.Some? ==>
               !note.note.Reverted? && (OnPage(page, note.note) ==> IsLoaded(s.restored.value.turns, note.note))
    ensures ReduceThread(WithOlderPage(s, page, nextCursor), note) == WithOlderPage(ReduceThread(s, note), page, nextCursor)
  {
    if note.Projected? && s.restored.Some? {
      OlderTurnsCommute(page, s.restored.value.turns, s.itemPages, note.note);
    }
    hide OlderTurns, ReduceTurns;
  }

  // A notification about a loaded turn leaves the last turn the last.
  lemma LastTurnStays(turns: seq<Turn>, note: Note)
    requires !note.Reverted? && turns != [] && IsLoaded(turns, note)
    ensures var turns' := ReduceTurns(turns, note);
            turns' != [] && turns'[|turns'| - 1].id == turns[|turns| - 1].id
  {
    if |ReduceTurns(turns, note)| > |turns| {
      AppendedIsMentioned(turns, note);
    }
    TurnsStay(turns, note);
    hide ReduceTurns;
  }

  // The condition is exact where the notification opens a turn and something was loaded: its turn
  // must not be on the page, which would come without the turn's history.
  lemma OlderTurnsCommuteIff(page: seq<Turn>, turns: seq<Turn>, pages: map<string, ItemPage>, note: Note)
    requires !note.Reverted? && turns != [] && |ReduceTurns(turns, note)| > |turns|
    ensures ReduceTurns(OlderTurns(page, turns, pages) + turns, note) ==
              OlderTurns(page, ReduceTurns(turns, note), pages) + ReduceTurns(turns, note)
            <==> !OnPage(page, note)
  {
    var turns' := ReduceTurns(turns, note);
    AppendedIsMentioned(turns, note);
    if OnPage(page, note) {
      OrdersDiffer(page, turns, pages, note);
    } else {
      OlderTurnsCommute(page, turns, pages, note);
    }
    hide OlderTurns, ReduceTurns;
  }

  lemma OrdersDiffer(page: seq<Turn>, turns: seq<Turn>, pages: map<string, ItemPage>, note: Note)
    requires !note.Reverted? && turns != [] && |ReduceTurns(turns, note)| > |turns| && OnPage(page, note)
    ensures ReduceTurns(OlderTurns(page, turns, pages) + turns, note) !=
              OlderTurns(page, ReduceTurns(turns, note), pages) + ReduceTurns(turns, note)
  {
    hide ReduceTurns, OlderTurns, FindTurn;
    var turns' := ReduceTurns(turns, note);
    AppendedIsMentioned(turns, note);
    var k :| 0 <= k < |page| && TurnOf(note, page[k].id);
    var all := OlderTurns(page, turns, pages) + turns;
    PageIsShown(page, turns, pages, page[k]);
    assert TurnOf(note, all[FindTurn(all, page[k].id).value].id);
    LastTurnStays(all, note);
    TurnsStay(turns, note);
    var other := OlderTurns(page, turns', pages) + turns';
    assert other[|other| - 1] == turns'[|turns|];
    assert all[|all| - 1] == turns[|turns| - 1];
  }

  lemma {:induction false} FindAhead(older: seq<Turn>, turns: seq<Turn>, id: string)
    requires FindTurn(older, id).Some?
    ensures FindTurn(older + turns, id) == FindTurn(older, id)
  {
    hide FindTurn;
    if older != [] {
      var first, rest := older[0], older[1..];
      assert older == [first] + rest;
      assert older + turns == [first] + (rest + turns);
      FindFirst(first, rest, id);
      FindFirst(first, rest + turns, id);
      if first.id != id {
        FindAhead(rest, turns, id);
      }
    }
  }

  lemma PutAtAhead(older: seq<Turn>, turns: seq<Turn>, turn: Turn)
    requires FindTurn(older, turn.id).Some?
    ensures PutAt(older + turns, turn) == PutAt(older, turn) + turns
    ensures CurrentTurn(older + turns, turn.id) == CurrentTurn(older, turn.id)
    ensures MergedTurn(older + turns, turn) == MergedTurn(older, turn)
  {
    FindAhead(older, turns, turn.id);
    hide FindTurn, MergeTurn;
    var index := FindTurn(older, turn.id).value;
    assert (older + turns)[index] == older[index];
    assert (older + turns)[index := turn] == older[index := turn] + turns;
  }

  // A notification about one of the older turns does not see the later ones.
  lemma ReduceAhead(older: seq<Turn>, turns: seq<Turn>, note: Note, id: string)
    requires !note.Reverted? && TurnOf(note, id) && FindTurn(older, id).Some?
    ensures ReduceTurns(older + turns, note) == ReduceTurns(older, note) + turns
  {
    if IsItemNote(note) {
      UpdateTurnsIsPut(older + turns, note);
      UpdateTurnsIsPut(older, note);
      PutAtAhead(older, turns, CurrentTurn(older, id));
      var turn := UpdatedTurn(CurrentTurn(older, id), note);
      if turn.Some? {
        PutAtAhead(older, turns, turn.value);
      }
    } else {
      PutTurnIsPut(older + turns, note.turn);
      PutTurnIsPut(older, note.turn);
      PutAtAhead(older, turns, note.turn);
      PutAtAhead(older, turns, MergedTurn(older, note.turn));
    }
    hide UpdateTurns, UpdatedTurn, PutTurn, PutAt, MergedTurn;
  }

  // Unless it opens a turn, a notification about a turn that is not loaded does nothing.
  lemma UnopenedIsIgnored(turns: seq<Turn>, note: Note)
    requires !note.Reverted? && !IsLoaded(turns, note) && |ReduceTurns(turns, note)| == |turns|
    ensures ReduceTurns(turns, note) == turns
  {
    if IsItemNote(note) {
      NotAmong(turns, note, note.turnId);
      UpdateTurnsIsPut(turns, note);
    } else if !note.Unrelated? {
      NotAmong(turns, note, note.turn.id);
    }
    hide UpdateTurns, UpdatedTurn, FindTurn;
  }

  // The exact condition for any notification but a reversion, on a loaded history: its turn is not
  // on the page, or already loaded, or it has nothing to change there.
  lemma OlderTurnsCommuteExactly(page: seq<Turn>, turns: seq<Turn>, pages: map<string, ItemPage>, note: Note)
    requires !note.Reverted? && turns != []
    ensures var older := OlderTurns(page, turns, pages);
            (ReduceTurns(older + turns, note) == OlderTurns(page, ReduceTurns(turns, note), pages) + ReduceTurns(turns, note)
             <==> || !OnPage(page, note) || IsLoaded(turns, note)
                  || (|ReduceTurns(turns, note)| == |turns| && ReduceTurns(older, note) == older))
  {
    var older := OlderTurns(page, turns, pages);
    if !OnPage(page, note) || IsLoaded(turns, note) {
      OlderTurnsCommute(page, turns, pages, note);
    } else if |ReduceTurns(turns, note)| > |turns| {
      OlderTurnsCommuteIff(page, turns, pages, note);
    } else {
      TurnsStay(turns, note);
      UnopenedIsIgnored(turns, note);
      var k :| 0 <= k < |page| && TurnOf(note, page[k].id);
      PageHasTurn(page, turns, pages, page[k], note);
      ReduceAhead(older, turns, note, page[k].id);
      SameTail(ReduceTurns(older, note), older, turns);
    }
    hide OlderTurns, ReduceTurns, FindTurn;
  }

  lemma SameTail(a: seq<Turn>, b: seq<Turn>, turns: seq<Turn>)
    ensures a + turns == b + turns <==> a == b
  {
    if a + turns == b + turns {
      assert |a| == |b|;
      assert a == (a + turns)[..|a|] && b == (b + turns)[..|b|];
    }
  }

  lemma PageHasTurn(page: seq<Turn>, turns: seq<Turn>, pages: map<string, ItemPage>, turn: Turn, note: Note)
    requires turn in page && TurnOf(note, turn.id) && !IsLoaded(turns, note)
    ensures FindTurn(OlderTurns(page, turns, pages), turn.id).Some?
  {
    var older := OlderTurns(page, turns, pages);
    PageIsShown(page, turns, pages, turn);
    NotAmong(turns, note, turn.id);
    if FindTurn(older, turn.id).None? {
      FindBehind(older, turns, turn.id);
    }
  }

  // What may wait or arrive while an older page is merged.
  predicate Clear(page: seq<Turn>, note: ThreadNote) {
    match note
    case MetadataChanged(_, _) => true
    case ThreadDeleted => false
    case Projected(projected) => !projected.Reverted? && !OnPage(page, projected)
  }

  function OlderPage(page: seq<Turn>, nextCursor: Option<string>): Session -> Session {
    (s: Session) => WithOlderPage(s, page, nextCursor)
  }

  lemma OlderPageCommutesWithAll(page: seq<Turn>, nextCursor: Option<string>, notes: seq<ThreadNote>)
    requires forall i :: 0 <= i < |notes| ==> Clear(page, notes[i])
    ensures Commutes(ReduceThread, OlderPage(page, nextCursor), notes)
  {
    forall s: Session, i | 0 <= i < |notes|
      ensures ReduceThread(OlderPage(page, nextCursor)(s), notes[i]) == OlderPage(page, nextCursor)(ReduceThread(s, notes[i])) {
      OlderPageCommutes(s, page, nextCursor, notes[i]);
      hide WithOlderPage, ReduceThread;
    }
  }

  // Any number of notifications may come before or after the page.
  lemma OlderPageCommutesWithRun(s: Session, page: seq<Turn>, nextCursor: Option<string>, notes: seq<ThreadNote>)
    requires forall i :: 0 <= i < |notes| ==> Clear(page, notes[i])
    ensures FoldAll(ReduceThread, WithOlderPage(s, page, nextCursor), notes)
            == WithOlderPage(FoldAll(ReduceThread, s, notes), page, nextCursor)
  {
    OlderPageCommutesWithAll(page, nextCursor, notes);
    ChangeThenFold(ReduceThread, OlderPage(page, nextCursor), s, notes);
    hide WithOlderPage, ReduceThread, FoldAll;
  }

  // ---- Item pages of the session ------------------------------------------------------------------------------

  function PageOf(s: Session, turnId: string): ItemPage {
    if turnId in s.itemPages then s.itemPages[turnId] else EmptyItemPage
  }

  datatype Entry = Entry(turnId: string, item: Item)

  function ItemsOf(entries: seq<Entry>): (r: seq<Item>)
    ensures |r| == |entries| && forall i :: 0 <= i < |r| ==> r[i] == entries[i].item
  {
    seq(|entries|, i requires 0 <= i < |entries| => entries[i].item)
  }

  // The answer concerns the turn and gets further.
  predicate IsUsable(turnId: string, entries: seq<Entry>, cursor: Option<string>, nextCursor: Option<string>) {
    (forall entry <- entries :: entry.turnId == turnId) && (cursor.Some? ==> nextCursor != cursor)
  }

  function WithItems(turns: seq<Turn>, turnId: string, items: seq<Item>, complete: bool): (r: seq<Turn>)
    ensures |r| == |turns|
    ensures forall i :: 0 <= i < |r| ==>
              r[i] == if turns[i].id == turnId then WithItemPage(turns[i], items, complete) else turns[i]
  {
    seq(|turns|, i requires 0 <= i < |turns| =>
      if turns[i].id == turnId then WithItemPage(turns[i], items, complete) else turns[i])
  }

  function WithLoadedPage(s: Session, turnId: string, entries: seq<Entry>, cursor: Option<string>, nextCursor: Option<string>): Session {
    if !IsUsable(turnId, entries, cursor, nextCursor) then
      s.(itemPages := s.itemPages[turnId := PageOf(s, turnId).(loading := false, failed := true)])
    else if s.restored.None? then s
    else
      var items := MergeUnique(PageOf(s, turnId).items, ItemsOf(entries));
      WithPage(s, turnId, ItemPage(items, nextCursor, nextCursor.None?, false, false))
  }

  function WithPage(s: Session, turnId: string, page: ItemPage): Session
    requires s.restored.Some?
  {
    s.(restored := Some(WithTurnItems(s.restored.value, turnId, page)), itemPages := s.itemPages[turnId := page])
  }

  function WithTurnItems(thread: Thread, turnId: string, page: ItemPage): Thread {
    thread.(turns := WithItems(thread.turns, turnId, page.items, page.complete))
  }

  function LoadedPage(turnId: string, entries: seq<Entry>, cursor: Option<string>, nextCursor: Option<string>): Session -> Session {
    (s: Session) => WithLoadedPage(s, turnId, entries, cursor, nextCursor)
  }

  // What may wait while a page of the turn's items is merged.
  predicate ClearOf(turnId: string, note: ThreadNote) {
    match note
    case MetadataChanged(_, _) => true
    case ThreadDeleted => false
    case Projected(projected) => !projected.Reverted? && !TurnOf(projected, turnId)
  }

  lemma {:induction false} SameFind(turns: seq<Turn>, turns': seq<Turn>, id: string)
    requires |turns'| == |turns| && forall i :: 0 <= i < |turns| ==> turns'[i].id == turns[i].id
    ensures FindTurn(turns', id) == FindTurn(turns, id)
  {
    if turns != [] {
      assert forall i :: 0 <= i < |turns| - 1 ==> turns[1..][i] == turns[i + 1] && turns'[1..][i] == turns'[i + 1];
      SameFind(turns[1..], turns'[1..], id);
    }
  }

  lemma PutBesideItems(turns: seq<Turn>, turnId: string, items: seq<Item>, complete: bool, turn: Turn)
    requires turn.id != turnId
    ensures PutAt(WithItems(turns, turnId, items, complete), turn) == WithItems(PutAt(turns, turn), turnId, items, complete)
    ensures CurrentTurn(WithItems(turns, turnId, items, complete), turn.id) == CurrentTurn(turns, turn.id)
    ensures MergedTurn(WithItems(turns, turnId, items, complete), turn) == MergedTurn(turns, turn)
  {
    var turns' := WithItems(turns, turnId, items, complete);
    SameFind(turns, turns', turn.id);
    hide WithItemPage, FindTurn, MergeTurn;
    var index := FindTurn(turns, turn.id);
    if index.Some? {
      assert turns'[index.value] == turns[index.value];
    }
    assert PutAt(turns', turn) == WithItems(PutAt(turns, turn), turnId, items, complete);
  }

  lemma ReduceBesideItems(turns: seq<Turn>, turnId: string, items: seq<Item>, complete: bool, note: Note)
    requires !note.Reverted? && !TurnOf(note, turnId)
    ensures ReduceTurns(WithItems(turns, turnId, items, complete), note)
            == WithItems(ReduceTurns(turns, note), turnId, items, complete)
  {
    var turns' := WithItems(turns, turnId, items, complete);
    hide UpdateTurns, UpdatedTurn, PutTurn, PutAt, MergedTurn, CurrentTurn, NewTurn, WithItems;
    if IsItemNote(note) {
      UpdateTurnsIsPut(turns', note);
      UpdateTurnsIsPut(turns, note);
      var turn := UpdatedTurn(CurrentTurn(turns, note.turnId), note);
      PutBesideItems(turns, turnId, items, complete, NewTurnOf(note));
      if turn.Some? {
        PutBesideItems(turns, turnId, items, complete, turn.value);
      }
    } else if !note.Unrelated? {
      PutTurnIsPut(turns', note.turn);
      PutTurnIsPut(turns, note.turn);
      PutBesideItems(turns, turnId, items, complete, note.turn);
      PutBesideItems(turns, turnId, items, complete, MergedTurn(turns, note.turn));
    }
  }

  function NewTurnOf(note: Note): (r: Turn)
    requires IsItemNote(note)
    ensures r.id == note.turnId
  {
    NewTurn(note.turnId)
  }

  // An item page and a notification about another turn may come in either order.
  lemma ItemPageCommutes(s: Session, turnId: string, entries: seq<Entry>, cursor: Option<string>, nextCursor: Option<string>,
                         note: ThreadNote)
    requires ClearOf(turnId, note)
    ensures ReduceThread(WithLoadedPage(s, turnId, entries, cursor, nextCursor), note)
            == WithLoadedPage(ReduceThread(s, note), turnId, entries, cursor, nextCursor)
  {
    if !IsUsable(turnId, entries, cursor, nextCursor) {
      ReduceIgnoresPages(s, s.itemPages[turnId := PageOf(s, turnId).(loading := false, failed := true)], note);
    } else if s.restored.Some? {
      var items := MergeUnique(PageOf(s, turnId).items, ItemsOf(entries));
      PageCommutes(s, turnId, ItemPage(items, nextCursor, nextCursor.None?, false, false), note);
    }
    ReduceKeepsPages(s, note);
    hide IsUsable, MergeUnique, WithPage, ReduceThread, ClearOf;
  }

  // Notifications do not depend on the item pages.
  lemma ReduceIgnoresPages(s: Session, pages: map<string, ItemPage>, note: ThreadNote)
    requires !note.ThreadDeleted?
    ensures ReduceThread(s.(itemPages := pages), note) == ReduceThread(s, note).(itemPages := pages)
  {
    hide ReduceRestored;
    if s.restored.Some? {
      var thread := ReduceRestored(s.restored.value, note);
      assert ReduceThread(s, note) == s.(restored := Some(thread));
      assert ReduceThread(s.(itemPages := pages), note) == s.(itemPages := pages, restored := Some(thread));
    }
  }

  lemma ReduceKeepsPages(s: Session, note: ThreadNote)
    requires !note.ThreadDeleted?
    ensures ReduceThread(s, note).itemPages == s.itemPages
    ensures ReduceThread(s, note).restored.Some? <==> s.restored.Some?
  {
    hide ReduceRestored;
  }

  lemma TurnItemsCommute(thread: Thread, turnId: string, page: ItemPage, note: ThreadNote)
    requires ClearOf(turnId, note)
    ensures ReduceRestored(WithTurnItems(thread, turnId, page), note) == WithTurnItems(ReduceRestored(thread, note), turnId, page)
  {
    hide WithItems, ReduceTurns, TurnOf;
    if note.Projected? {
      ReduceBesideItems(thread.turns, turnId, page.items, page.complete, note.note);
    }
  }

  lemma PageCommutes(s: Session, turnId: string, page: ItemPage, note: ThreadNote)
    requires s.restored.Some? && ClearOf(turnId, note)
    ensures ReduceThread(s, note).restored.Some?
    ensures ReduceThread(WithPage(s, turnId, page), note) == WithPage(ReduceThread(s, note), turnId, page)
  {
    TurnItemsCommute(s.restored.value, turnId, page, note);
    assert !note.ThreadDeleted?;
    hide ReduceRestored, WithTurnItems, ClearOf;
  }

  lemma ItemPageCommutesWithAll(turnId: string, entries: seq<Entry>, cursor: Option<string>, nextCursor: Option<string>,
                                notes: seq<ThreadNote>)
    requires forall i :: 0 <= i < |notes| ==> ClearOf(turnId, notes[i])
    ensures Commutes(ReduceThread, LoadedPage(turnId, entries, cursor, nextCursor), notes)
  {
    forall s: Session, i | 0 <= i < |notes|
      ensures ReduceThread(LoadedPage(turnId, entries, cursor, nextCursor)(s), notes[i])
              == LoadedPage(turnId, entries, cursor, nextCursor)(ReduceThread(s, notes[i])) {
      ItemPageCommutes(s, turnId, entries, cursor, nextCursor, notes[i]);
      hide WithLoadedPage, ReduceThread;
    }
  }

  // ---- The thread session's feed ----------------------------------------------------------------------------

  const LoadingSession := Session(Loading, None, false, None, map[], false, false, false, false, false)

  function ResumedSession(current: Session, thread: Thread, olderCursor: Option<string>): Session {
    Session(Ready, Some(thread.(turns := AllWithLoadedItems(thread.turns, current.itemPages))), true, olderCursor,
            current.itemPages, false, false, false, false, false)
  }

  function ResumeFailed(s: Session): Session {
    s.(phase := if s.restored.None? then Failed else Ready, offline := s.restored.Some?, failed := true)
  }

  datatype SessionEvent =
    | Notified(note: ThreadNote)
    | Frame
    | ResumeSucceeds(restored: Session)
    | ResumeBreaks
    | OlderPageArrives(page: seq<Turn>, nextCursor: Option<string>)
    | ItemPageArrives(turnId: string, entries: seq<Entry>, cursor: Option<string>, next: Option<string>)
    | HistoryReplaced     // reverted
    | SourceSwitched(another: Session, resumes: bool)

  function ToEvent(event: SessionEvent): Event<Session, ThreadNote> {
    match event
    case Notified(note) => Arrives(note)
    case Frame => FrameFires
    case ResumeSucceeds(restored) => Resumed(restored)
    case ResumeBreaks => ResumeFails
    case OlderPageArrives(page, nextCursor) => Touches(OlderPage(page, nextCursor))
    case ItemPageArrives(turnId, entries, cursor, next) => Touches(LoadedPage(turnId, entries, cursor, next))
    case HistoryReplaced => Switches(LoadingSession, true)
    case SourceSwitched(another, resumes) => Switches(another, resumes)
  }

  function ToEvents(events: seq<SessionEvent>): (r: seq<Event<Session, ThreadNote>>)
    ensures |r| == |events|
    ensures forall i :: 0 <= i < |r| ==> r[i] == ToEvent(events[i])
  {
    seq(|events|, i requires 0 <= i < |events| => ToEvent(events[i]))
  }

  // The page does not overlap with what waits.
  predicate IsClear(event: SessionEvent, notes: seq<ThreadNote>) {
    && (event.OlderPageArrives? ==> forall i :: 0 <= i < |notes| ==> Clear(event.page, notes[i]))
    && (event.ItemPageArrives? ==> forall i :: 0 <= i < |notes| ==> ClearOf(event.turnId, notes[i]))
  }

  predicate PagesAreClear(feed: Feed<Session, ThreadNote>, events: seq<SessionEvent>)
    decreases |events|
  {
    events != [] ==>
      && IsClear(events[0], feed.early) && IsClear(events[0], feed.queued)
      && PagesAreClear(Step(ReduceThread, IsProjectionDelta, feed, ToEvent(events[0])), events[1..])
  }

  lemma {:induction false} ClearEventsAreAllowed(feed: Feed<Session, ThreadNote>, events: seq<SessionEvent>)
    requires PagesAreClear(feed, events)
    ensures AllAllowed(ReduceThread, IsProjectionDelta, feed, ToEvents(events))
    decreases |events|
  {
    hide ReduceThread, Clear, ClearOf, Step, OlderPage, LoadedPage;
    if events != [] {
      match events[0] {
        case OlderPageArrives(page, nextCursor) =>
          OlderPageCommutesWithAll(page, nextCursor, feed.early);
          OlderPageCommutesWithAll(page, nextCursor, feed.queued);
        case ItemPageArrives(turnId, entries, cursor, next) =>
          ItemPageCommutesWithAll(turnId, entries, cursor, next, feed.early);
          ItemPageCommutesWithAll(turnId, entries, cursor, next, feed.queued);
        case _ =>
      }
      assert ToEvents(events)[0] == ToEvent(events[0]) && ToEvents(events)[1..] == ToEvents(events[1..]);
      ClearEventsAreAllowed(Step(ReduceThread, IsProjectionDelta, feed, ToEvent(events[0])), events[1..]);
    }
  }

  // Resumption, frames, older pages, item pages, reversions and changes of the thread in any interleaving: once resumed and with no frame due, the
  // session shows what applying every notification on arrival amounts to.
  lemma WaitingIsInvisible(s: Session, resuming: bool, events: seq<SessionEvent>)
    requires PagesAreClear(StartFeed(s, resuming), events)
    ensures var feed := Run(ReduceThread, IsProjectionDelta, StartFeed(s, resuming), ToEvents(events));
            var seen := ObserveAll(ReduceThread, Observer(s, resuming, []), ToEvents(events));
            && (!feed.resuming && !feed.frame ==> feed.shown == seen.s)
            && (!feed.resuming ==> Step(ReduceThread, IsProjectionDelta, feed, FrameFires).shown == seen.s)
  {
    ClearEventsAreAllowed(StartFeed(s, resuming), events);
    BatchingIsInvisible(ReduceThread, IsProjectionDelta, s, resuming, ToEvents(events));
    hide ReduceThread, Step;
  }

  // ---- Turns and their item pages ---------------------------------------------------------------------------

  // Every loaded item shows in its turn: the turn is what merging its page again would give.
  ghost predicate PagesShown(s: Session) {
    s.restored.Some? ==>
      forall i :: 0 <= i < |s.restored.value.turns| ==>
        var turn := s.restored.value.turns[i];
        WithLoadedItems(turn, s.itemPages) == turn
  }

  // Loading item pages, and resuming with pages loaded earlier, leaves every turn in step with its page.
  lemma LoadedPagesShow(s: Session, turnId: string, entries: seq<Entry>, cursor: Option<string>, nextCursor: Option<string>)
    requires PagesShown(s) && s.restored.Some? && IsUsable(turnId, entries, cursor, nextCursor)
    ensures PagesShown(WithLoadedPage(s, turnId, entries, cursor, nextCursor))
  {
    hide WithItemPage, WithLoadedItems, MergeUnique, IsUsable;
    var items := MergeUnique(PageOf(s, turnId).items, ItemsOf(entries));
    var page := ItemPage(items, nextCursor, nextCursor.None?, false, false);
    var turns := s.restored.value.turns;
    var turns' := WithItems(turns, turnId, items, page.complete);
    forall i | 0 <= i < |turns| ensures WithLoadedItems(turns'[i], s.itemPages[turnId := page]) == turns'[i] {
      LoadedPageShows(turns[i], s.itemPages, turnId, page);
    }
    hide WithItems;
  }

  lemma LoadedPageShows(turn: Turn, pages: map<string, ItemPage>, turnId: string, page: ItemPage)
    requires WithLoadedItems(turn, pages) == turn
    ensures var turn' := if turn.id == turnId then WithItemPage(turn, page.items, page.complete) else turn;
            WithLoadedItems(turn', pages[turnId := page]) == turn'
  {
    ItemPageIsIdempotent(turn, page.items, page.complete);
    WithItemPageKeepsId(turn, page);
    hide WithItemPage;
  }

  lemma WithItemPageKeepsId(turn: Turn, page: ItemPage)
    ensures WithItemPage(turn, page.items, page.complete).id == turn.id
  {
  }

  lemma ResumptionShowsPages(current: Session, thread: Thread, olderCursor: Option<string>)
    ensures PagesShown(ResumedSession(current, thread, olderCursor))
  {
    forall i | 0 <= i < |thread.turns|
      ensures var turn := WithLoadedItems(thread.turns[i], current.itemPages); WithLoadedItems(turn, current.itemPages) == turn {
      LoadedTwice(thread.turns[i], current.itemPages);
    }
    hide WithLoadedItems;
  }

  lemma LoadedTwice(turn: Turn, pages: map<string, ItemPage>)
    ensures WithLoadedItems(WithLoadedItems(turn, pages), pages) == WithLoadedItems(turn, pages)
  {
    if turn.id in pages {
      ItemPageIsIdempotent(turn, pages[turn.id].items, pages[turn.id].complete);
    }
    hide WithItemPage;
  }

  lemma OlderPageShowsPages(s: Session, page: seq<Turn>, nextCursor: Option<string>)
    requires PagesShown(s)
    ensures PagesShown(WithOlderPage(s, page, nextCursor))
  {
    if s.restored.Some? {
      var turns := s.restored.value.turns;
      var new' := NewTurns(Reversed(page), turns);
      forall i | 0 <= i < |new'|
        ensures var turn := WithLoadedItems(new'[i], s.itemPages); WithLoadedItems(turn, s.itemPages) == turn {
        LoadedTwice(new'[i], s.itemPages);
      }
    }
    hide WithLoadedItems;
  }

  // ---- What each arrival does -------------------------------------------------------------------------------

  // A deletion leaves nothing; metadata and the turns change one at a time, the turns as in the
  // conversation view; without a history nothing else changes.
  lemma NotificationsChangeOnePart(s: Session, key: string, value: string, note: Note)
    ensures ReduceThread(s, ThreadDeleted) == Session(Ready, None, false, None, map[], false, false, true, false, false)
    ensures s.restored.None? ==> ReduceThread(s, MetadataChanged(key, value)) == ReduceThread(s, Projected(note)) == s
    ensures s.restored.Some? ==>
              var thread := s.restored.value;
              var conversation := State(thread.turns, None, false, false, None);
              && ReduceThread(s, MetadataChanged(key, value)) == s.(restored := Some(Thread(thread.turns, thread.metadata[key := value])))
              && ReduceThread(s, Projected(note)) == s.(restored := Some(Thread(Reduce(conversation, note).turns, thread.metadata)))
  {
    hide Reduce;
  }

  // A turn with what is loaded of its items: just these if they are all, else followed by the live items
  // that are not among them, and marked as put together.
  lemma LoadedItemsComeFirst(turn: Turn, loaded: seq<Item>, complete: bool)
    ensures var r := WithItemPage(turn, loaded, complete);
            && r == turn.(items := r.items, itemsView := Some(if complete then Full else Summary), partial := !complete)
            && |r.items| >= |loaded| && r.items[..|loaded|] == loaded
            && (complete ==> |r.items| == |loaded|)
            && (!complete ==> forall item :: item in r.items[|loaded|..] <==> item in turn.items && FindItem(loaded, item.id).None?)
  {
    if !complete {
      assert WithItemPage(turn, loaded, complete).items[|loaded|..] == NewItems(turn.items, loaded);
    }
  }

  lemma {:induction false} NewTurnsInOrder(page: seq<Turn>, turns: seq<Turn>) returns (positions: seq<nat>)
    ensures Embeds(positions, NewTurns(page, turns), page)
  {
    positions := [];
    if page != [] {
      hide Embeds;
      var rest := NewTurnsInOrder(page[1..], turns);
      positions := EmbedsBehind(rest, NewTurns(page[1..], turns), page);
      if FindTurn(turns, page[0].id).None? {
        EmbedsFirst(positions, NewTurns(page[1..], turns), page);
        positions := [0] + positions;
      }
    }
  }

  // The turns of a page in the order of time; the page lists the newest first.
  ghost predicate InOrderOfTime(older: seq<Turn>, page: seq<Turn>, pages: map<string, ItemPage>, positions: seq<nat>) {
    && |positions| == |older|
    && (forall i :: 0 <= i < |older| ==> positions[i] < |page| && older[i] == WithLoadedItems(page[positions[i]], pages))
    && (forall i, j :: 0 <= i < j < |older| ==> positions[i] > positions[j])
  }

  lemma OlderTurnsInOrder(page: seq<Turn>, turns: seq<Turn>, pages: map<string, ItemPage>) returns (positions: seq<nat>)
    ensures InOrderOfTime(OlderTurns(page, turns, pages), page, pages, positions)
  {
    var found := NewTurnsInOrder(Reversed(page), turns);
    positions := seq(|found|, i requires 0 <= i < |found| => |page| - 1 - found[i]);
    hide NewTurns, WithLoadedItems, FindTurn;
  }

  lemma NewTurnIsOlder(page: seq<Turn>, turns: seq<Turn>, pages: map<string, ItemPage>, turn: Turn)
    requires turn in page && FindTurn(turns, turn.id).None?
    ensures WithLoadedItems(turn, pages) in OlderTurns(page, turns, pages)
  {
    var k :| 0 <= k < |page| && page[k] == turn;
    assert Reversed(page)[|page| - 1 - k] == turn;
    var new' := NewTurns(Reversed(page), turns);
    var i :| 0 <= i < |new'| && new'[i] == turn;
    assert OlderTurns(page, turns, pages)[i] == WithLoadedItems(turn, pages);
    hide NewTurns, WithLoadedItems, FindTurn;
  }

  // An older page puts exactly the turns that are not loaded yet before the loaded ones, in the order of
  // time and with their loaded items; what comes next is asked for from where the page ends.
  lemma OlderPageComesFirst(s: Session, page: seq<Turn>, nextCursor: Option<string>) returns (positions: seq<nat>)
    ensures s.restored.None? ==> WithOlderPage(s, page, nextCursor) == s
    ensures s.restored.Some? ==>
              var before, s' := s.restored.value.turns, WithOlderPage(s, page, nextCursor);
              && s'.restored.Some? && |s'.restored.value.turns| >= |before|
              && (var after := s'.restored.value.turns;
                  var older := after[..|after| - |before|];
                  && after == older + before
                  && InOrderOfTime(older, page, s.itemPages, positions)
                  && (forall turn <- older :: FindTurn(before, turn.id).None?)
                  && (forall turn <- page :: FindTurn(before, turn.id).None? ==> WithLoadedItems(turn, s.itemPages) in older)
                  && s' == s.(restored := Some(Thread(after, s.restored.value.metadata)), olderCursor := nextCursor,
                              loadingOlder := false, olderFailed := false))
  {
    positions := [];
    if s.restored.Some? {
      var before := s.restored.value.turns;
      var older := OlderTurns(page, before, s.itemPages);
      positions := OlderTurnsInOrder(page, before, s.itemPages);
      assert (older + before)[..|older|] == older;
      OlderTurnsAreNew(page, before, s.itemPages);
      forall turn <- page | FindTurn(before, turn.id).None? ensures WithLoadedItems(turn, s.itemPages) in older {
        NewTurnIsOlder(page, before, s.itemPages, turn);
      }
    }
    hide OlderTurns, InOrderOfTime, WithLoadedItems, FindTurn;
  }

  // A page of a turn's items that is not about the turn, or does not get further, is refused and leaves
  // what is loaded as it was.
  lemma UselessItemPageIsRefused(s: Session, turnId: string, entries: seq<Entry>, cursor: Option<string>, nextCursor: Option<string>)
    requires (exists entry <- entries :: entry.turnId != turnId) || (cursor.Some? && nextCursor == cursor)
    ensures var loaded := if turnId in s.itemPages then s.itemPages[turnId] else ItemPage([], None, false, false, false);
            WithLoadedPage(s, turnId, entries, cursor, nextCursor)
            == s.(itemPages := s.itemPages[turnId := loaded.(loading := false, failed := true)])
  {
  }

  // Any other joins what is loaded of the turn, and shows in that turn alone; there is more exactly if it
  // names what comes next.
  lemma ItemPageJoinsItsTurn(s: Session, turnId: string, entries: seq<Entry>, cursor: Option<string>, nextCursor: Option<string>)
    requires (forall entry <- entries :: entry.turnId == turnId) && (cursor.None? || nextCursor != cursor)
    ensures var s' := WithLoadedPage(s, turnId, entries, cursor, nextCursor);
            var loaded := if turnId in s.itemPages then s.itemPages[turnId].items else [];
            var items := MergeUnique(loaded, ItemsOf(entries));
            if s.restored.None? then s' == s
            else
              && s'.itemPages == s.itemPages[turnId := ItemPage(items, nextCursor, nextCursor.None?, false, false)]
              && s' == s.(restored := s'.restored, itemPages := s'.itemPages)
              && s'.restored == Some(s.restored.value.(turns := WithItems(s.restored.value.turns, turnId, items, nextCursor.None?)))
  {
    hide MergeUnique, WithItems;
  }

  // Resumption brings the answer's turns with the items loaded before, and no error; a failure keeps the
  // history that is there, offline, or shows that there is none.
  lemma ResumptionSays(s: Session, thread: Thread, olderCursor: Option<string>)
    ensures var s' := ResumedSession(s, thread, olderCursor);
            && s'.restored.Some? && |s'.restored.value.turns| == |thread.turns|
            && (forall i :: 0 <= i < |thread.turns| ==> s'.restored.value.turns[i] == WithLoadedItems(thread.turns[i], s.itemPages))
            && s' == Session(Ready, Some(thread.(turns := s'.restored.value.turns)), true, olderCursor, s.itemPages,
                             false, false, false, false, false)
    ensures ResumeFailed(s) == (if s.restored.Some? then s.(phase := Ready, offline := true, failed := true)
                                else s.(phase := Phase.Failed, offline := false, failed := true))
  {
    hide WithLoadedItems;
  }

  // A reversion forgets the history and everything that waits, and resumes anew.
  lemma ReversionForgets(feed: Feed<Session, ThreadNote>)
    ensures Step(ReduceThread, IsProjectionDelta, feed, ToEvent(HistoryReplaced)) ==
            Feed(Session(Loading, None, false, None, map[], false, false, false, false, false), true, [], [], false)
  {
  }

  // Only text deltas wait for the frame; while resuming everything waits for the resumption.
  lemma ArrivalsWait(feed: Feed<Session, ThreadNote>, note: ThreadNote)
    ensures var after := Step(ReduceThread, IsProjectionDelta, feed, Arrives(note));
            if feed.resuming then after == feed.(early := feed.early + [note])
            else if note.Projected?
                    && (note.note.AgentMessageDelta? || note.note.PlanDelta? || note.note.OutputDelta? || note.note.ReasoningDelta?) then
              after == feed.(queued := feed.queued + [note], frame := true)
            else
              after == feed.(shown := ReduceThread(FoldAll(ReduceThread, feed.shown, feed.queued), note), queued := [], frame := false)
  {
    if !feed.resuming && !IsProjectionDelta(note) {
      FoldConcat(ReduceThread, feed.shown, feed.queued, [note]);
      assert [note][1..] == [];
      assert FoldAll(ReduceThread, FoldAll(ReduceThread, feed.shown, feed.queued), [note])
          == ReduceThread(FoldAll(ReduceThread, feed.shown, feed.queued), note);
    }
    hide ReduceThread;
  }

  // The subscription of a thread session. A reversion replaces the history: it starts a new source,
  // and answers to requests of an earlier source are dropped.
  class ThreadSession {
    var source: nat
    var state: Session
    var resumePending: bool
    var notificationsDuringResume: seq<ThreadNote>
    var queued: seq<ThreadNote>
    var frame: bool

    ghost function View(): Feed<Session, ThreadNote>
      reads this
    {
      Feed(state, resumePending, notificationsDuringResume, queued, frame)
    }

    constructor (initial: Session, resuming: bool)
      ensures View() == StartFeed(initial, resuming) && source == 0
    {
      source, state, resumePending := 0, initial, resuming;
      notificationsDuringResume, queued, frame := [], [], false;
    }

    method Apply(notes: seq<ThreadNote>)
      modifies this`state
      ensures state == old(FoldAll(ReduceThread, state, notes))
    {
      var i := 0;
      while i < |notes|
        invariant 0 <= i <= |notes|
        invariant FoldAll(ReduceThread, state, notes[i..]) == old(FoldAll(ReduceThread, state, notes))
      {
        assert notes[i..][1..] == notes[i + 1..];
        state := ReduceThread(state, notes[i]);
        i := i + 1;
      }
    }

    method OnNotification(note: ThreadNote)
      modifies this
      ensures View() == old(Step(ReduceThread, IsProjectionDelta, View(), Arrives(note))) && source == old(source)
    {
      if resumePending {
        notificationsDuringResume := notificationsDuringResume + [note];
        return;
      }
      if IsProjectionDelta(note) {
        queued, frame := queued + [note], true;
        return;
      }
      var pending := queued + [note];
      queued, frame := [], false;
      Apply(pending);
    }

    method Flush()
      requires frame
      modifies this
      ensures View() == old(Step(ReduceThread, IsProjectionDelta, View(), FrameFires)) && source == old(source)
    {
      var pending := queued;
      queued, frame := [], false;
      Apply(pending);
    }

    method OnReverted()
      modifies this
      ensures source == old(source) + 1
      ensures View() == old(Step(ReduceThread, IsProjectionDelta, View(), Switches(LoadingSession, true)))
    {
      source := source + 1;
      state := LoadingSession;
      resumePending, notificationsDuringResume, queued, frame := true, [], [], false;
    }

    method OnResumed(requested: nat, thread: Thread, olderCursor: Option<string>)
      requires requested == source ==> resumePending
      modifies this
      ensures source == old(source)
      ensures View() == if requested == source
                        then old(Step(ReduceThread, IsProjectionDelta, View(), Resumed(ResumedSession(state, thread, olderCursor))))
                        else old(View())
    {
      if requested != source {
        return;
      }
      resumePending := false;
      state := ResumedSession(state, thread, olderCursor);
      var pending := notificationsDuringResume;
      notificationsDuringResume := [];
      Apply(pending);
    }

    method OnResumeFailed(requested: nat)
      requires requested == source ==> resumePending
      modifies this
      ensures source == old(source)
      ensures View() == if requested == source
                        then old(var settled := Step(ReduceThread, IsProjectionDelta, View(), ResumeFails);
                                 settled.(shown := ResumeFailed(settled.shown)))
                        else old(View())
    {
      if requested != source {
        return;
      }
      resumePending := false;
      var pending := notificationsDuringResume;
      notificationsDuringResume := [];
      Apply(pending);
      state := ResumeFailed(state);
    }

    method OnOlderPage(requested: nat, page: seq<Turn>, nextCursor: Option<string>)
      modifies this
      ensures source == old(source)
      ensures View() == if requested == source
                        then old(Step(ReduceThread, IsProjectionDelta, View(), Touches(OlderPage(page, nextCursor))))
                        else old(View())
    {
      if requested == source {
        state := WithOlderPage(state, page, nextCursor);
      }
    }

    method OnItemPage(requested: nat, turnId: string, entries: seq<Entry>, cursor: Option<string>, nextCursor: Option<string>)
      modifies this
      ensures source == old(source)
      ensures View() == if requested == source
                        then old(View().(shown := WithLoadedPage(state, turnId, entries, cursor, nextCursor)))
                        else old(View())
    {
      if requested != source {
        return;
      }
      var page := if turnId in state.itemPages then state.itemPages[turnId] else EmptyItemPage;
      if !IsUsable(turnId, entries, cursor, nextCursor) {
        state := state.(itemPages := state.itemPages[turnId := page.(loading := false, failed := true)]);
      } else if state.restored.Some? {
        var items := MergeUniqueItems(page.items, ItemsOf(entries));
        var complete := nextCursor.None?;
        state := state.(restored := Some(state.restored.value.(turns := WithItems(state.restored.value.turns, turnId, items, complete))),
                        itemPages := state.itemPages[turnId := ItemPage(items, nextCursor, complete, false, false)]);
      }
    }
  }
}
