/**
  Resuming a thread while it is live: the answer may already contain some of the notifications that
  were buffered meanwhile and are replayed on it. Reports of turns and items converge, text deltas
  are applied twice. Sources: src/app/useThreadSession.ts, src/app/useConversation.ts.
 */
module Resumption {
  import opened Prelude
  import opened Batching
  import opened Conversation
  import opened ThreadHistory

  predicate IsTurnNote(note: Note) {
    note.TurnStarted? || note.TurnCompleted?
  }

  // A notification that tells the newest state of a turn or an item.
  ghost predicate IsReport(note: Note) {
    note.Unrelated? || note.ItemReported? || (IsTurnNote(note) && DistinctItems(note.turn.items))
  }

  ghost predicate AreReports(notes: seq<Note>) {
    forall note <- notes :: IsReport(note)
  }

  // ---- One turn -----------------------------------------------------------------------------------------

  // What a report makes of one turn.
  function TurnAfter(turn: Option<Turn>, note: Note, id: string): Option<Turn> {
    if !TurnOf(note, id) then turn
    else if IsTurnNote(note) then Some(if turn.None? then note.turn else MergeTurn(turn.value, note.turn))
    else if IsItemNote(note) then
      var before := if turn.None? then NewTurn(id) else turn.value;
      var after := UpdatedTurn(before, note);
      if after.None? then turn else after
    else turn
  }

  function FoldTurn(turn: Option<Turn>, notes: seq<Note>, id: string): Option<Turn> {
    if notes == [] then turn
    else TurnAfter(FoldTurn(turn, notes[..|notes| - 1], id), notes[|notes| - 1], id)
  }

  // The report replaces the whole turn.
  predicate Overwrites(note: Note, id: string) {
    TurnOf(note, id) && IsTurnNote(note)
    && (note.turn.itemsView.None? || note.turn.itemsView == Some(Full) || note.turn.partial)
  }

  lemma {:induction false} OverwritingForgets(a: Option<Turn>, b: Option<Turn>, notes: seq<Note>, id: string)
    requires exists note <- notes :: Overwrites(note, id)
    ensures FoldTurn(a, notes, id) == FoldTurn(b, notes, id)
  {
    var init, last := notes[..|notes| - 1], notes[|notes| - 1];
    if !Overwrites(last, id) {
      assert notes == init + [last];
      OverwritingForgets(a, b, init, id);
    }
  }

  // The version of an item that a report brings.
  function Brought(note: Note, id: string, itemId: string): Option<Item> {
    if !TurnOf(note, id) then None
    else if note.ItemReported? then (if note.item.id == itemId then Some(note.item) else None)
    else if IsTurnNote(note) && note.turn.itemsView == Some(Summary) then ItemById(note.turn.items, itemId)
    else None
  }

  // Nothing is left for the report to add to the turn but versions and fields.
  ghost predicate Reflects(turn: Turn, note: Note) {
    TurnOf(note, turn.id) ==>
      && (forall itemId :: Brought(note, turn.id, itemId).Some? ==> FindItem(turn.items, itemId).Some?)
      && (IsTurnNote(note) && note.turn.itemsView == Some(Summary) ==> turn.itemsView in {Some(Full), Some(Summary)})
      && (IsTurnNote(note) && note.turn.itemsView == Some(NotLoaded) ==> turn.itemsView.Some? && !turn.partial)
  }

  // A report on a turn that reflects it changes versions and fields only.
  ghost predicate Refreshes(turn: Turn, note: Note, turn': Turn) {
    && turn'.id == turn.id && turn'.itemsView == turn.itemsView && turn'.partial == turn.partial
    && |turn'.items| == |turn.items|
    && (forall i :: 0 <= i < |turn.items| ==>
          var brought := Brought(note, turn.id, turn.items[i].id);
          turn'.items[i] == if brought.Some? then brought.value else turn.items[i])
    && (if TurnOf(note, turn.id) && IsTurnNote(note)
        then turn'.inProgress == note.turn.inProgress && turn'.rest == note.turn.rest
        else turn'.inProgress == turn.inProgress && turn'.rest == turn.rest)
  }

  lemma ItemRefreshes(turn: Turn, note: Note)
    requires note.ItemReported? && TurnOf(note, turn.id) && DistinctItems(turn.items) && Reflects(turn, note)
    ensures TurnAfter(Some(turn), note, turn.id).Some? && Refreshes(turn, note, TurnAfter(Some(turn), note, turn.id).value)
  {
    assert Brought(note, turn.id, note.item.id) == Some(note.item);
    var at := FindItem(turn.items, note.item.id).value;
    forall i | 0 <= i < |turn.items| && i != at ensures turn.items[i].id != note.item.id {
      assert turn.items[at].id == note.item.id;
    }
  }

  lemma TurnRefreshes(turn: Turn, note: Note)
    requires IsTurnNote(note) && IsReport(note) && TurnOf(note, turn.id) && !Overwrites(note, turn.id) && Reflects(turn, note)
    ensures Refreshes(turn, note, MergeTurn(turn, note.turn))
  {
    match note.turn.itemsView {
      case Some(Summary) =>
        forall item <- note.turn.items ensures FindItem(turn.items, item.id).Some? {
          ItemByIdFinds(note.turn.items, item.id);
        }
        NothingNew(note.turn.items, turn.items);
        assert Replaced(turn.items, note.turn.items) + [] == Replaced(turn.items, note.turn.items);
      case Some(NotLoaded) =>
      case Some(Full) =>
      case None =>
    }
  }

  lemma RefreshedReflects(turn: Turn, turn': Turn, note: Note, other: Note)
    requires Reflects(turn, other) && Refreshes(turn, note, turn') && DistinctItems(turn.items) && IsReport(note)
    ensures Reflects(turn', other) && DistinctItems(turn'.items)
    ensures forall i :: 0 <= i < |turn.items| ==> turn'.items[i].id == turn.items[i].id
  {
    forall i | 0 <= i < |turn.items| ensures turn'.items[i].id == turn.items[i].id {
      BroughtHasId(note, turn.id, turn.items[i].id);
    }
    forall itemId | FindItem(turn.items, itemId).Some? ensures FindItem(turn'.items, itemId).Some? {
      assert turn'.items[FindItem(turn.items, itemId).value].id == itemId;
    }
  }

  lemma BroughtHasId(note: Note, id: string, itemId: string)
    ensures var brought := Brought(note, id, itemId); brought.Some? ==> brought.value.id == itemId
  {
    if IsTurnNote(note) {
      ItemByIdFinds(note.turn.items, itemId);
    }
  }

  // ---- One turn after all reports --------------------------------------------------------------------------

  // The newest version of an item, and the newest report of the turn itself.
  function LastBrought(notes: seq<Note>, id: string, itemId: string): Option<Item> {
    if notes == [] then None
    else
      var brought := Brought(notes[|notes| - 1], id, itemId);
      if brought.Some? then brought else LastBrought(notes[..|notes| - 1], id, itemId)
  }

  function LastTurn(notes: seq<Note>, id: string): Option<Turn> {
    if notes == [] then None
    else
      var last := notes[|notes| - 1];
      if TurnOf(last, id) && IsTurnNote(last) then Some(last.turn) else LastTurn(notes[..|notes| - 1], id)
  }

  // The turn shows the newest version of everything that was reported.
  ghost predicate UpToDate(turn: Turn, notes: seq<Note>) {
    && DistinctItems(turn.items)
    && (forall note <- notes :: Reflects(turn, note))
    && (forall i :: 0 <= i < |turn.items| ==>
          var brought := LastBrought(notes, turn.id, turn.items[i].id); brought.Some? ==> turn.items[i] == brought.value)
    && (var last := LastTurn(notes, turn.id);
        last.Some? ==> turn.inProgress == last.value.inProgress && turn.rest == last.value.rest)
  }

  ghost predicate Known(turn: Option<Turn>, notes: seq<Note>, id: string) {
    match turn
    case Some(t) => t.id == id && UpToDate(t, notes)
    case None => forall note <- notes :: !TurnOf(note, id)
  }

  lemma {:induction false} UnmentionedIsUnbrought(notes: seq<Note>, id: string, itemId: string)
    requires forall note <- notes :: !TurnOf(note, id)
    ensures LastBrought(notes, id, itemId).None? && LastTurn(notes, id).None?
  {
    if notes != [] {
      UnmentionedIsUnbrought(notes[..|notes| - 1], id, itemId);
    }
  }

  // A turn may only grow under reports that do not replace it.
  ghost predicate Grows(turn: Turn, note: Note, turn': Turn) {
    && turn'.id == turn.id && DistinctItems(turn'.items) && |turn.items| <= |turn'.items|
    && (forall i :: 0 <= i < |turn.items| ==> turn'.items[i].id == turn.items[i].id)
    && (forall i :: 0 <= i < |turn'.items| ==>
          var brought := Brought(note, turn.id, turn'.items[i].id);
          if brought.Some? then turn'.items[i] == brought.value else i < |turn.items| && turn'.items[i] == turn.items[i])
    && (turn.itemsView in {Some(Full), Some(Summary)} ==> turn'.itemsView in {Some(Full), Some(Summary)})
    && (turn.itemsView.Some? && !turn.partial ==> turn'.itemsView.Some? && !turn'.partial)
    && (if IsTurnNote(note)
        then turn'.inProgress == note.turn.inProgress && turn'.rest == note.turn.rest
        else turn'.inProgress == turn.inProgress && turn'.rest == turn.rest)
    && Reflects(turn', note)
  }

  lemma ItemGrows(turn: Turn, note: Note)
    requires note.ItemReported? && TurnOf(note, turn.id) && DistinctItems(turn.items)
    ensures TurnAfter(Some(turn), note, turn.id).Some? && Grows(turn, note, TurnAfter(Some(turn), note, turn.id).value)
  {
    var index := FindItem(turn.items, note.item.id);
    var turn' := TurnAfter(Some(turn), note, turn.id).value;
    assert turn'.items == UpdatedItems(turn.items, note.item.id, note.item);
    var at := if index.Some? then index.value else |turn.items|;
    assert turn'.items[at] == note.item;
    assert forall i :: 0 <= i < |turn'.items| && i != at ==> turn'.items[i] == turn.items[i];
    if index.Some? {
      forall i | 0 <= i < |turn.items| && i != at ensures turn.items[i].id != note.item.id {
        assert turn.items[at].id == note.item.id;
      }
    }
  }

  lemma MergedVersions(items: seq<Item>, incoming: seq<Item>)
    requires DistinctItems(incoming)
    ensures var r := Replaced(items, incoming) + NewItems(incoming, items);
            && (forall i :: 0 <= i < |items| ==> r[i].id == items[i].id)
            && (forall i :: |items| <= i < |r| ==> FindItem(items, r[i].id).None?)
            && (forall i :: 0 <= i < |r| ==>
                  var brought := ItemById(incoming, r[i].id);
                  if brought.Some? then r[i] == brought.value else i < |items| && r[i] == items[i])
  {
    var replaced, new' := Replaced(items, incoming), NewItems(incoming, items);
    ReplacedVersions(items, incoming);
    NewVersions(items, incoming);
    hide FindItem, ItemById, Replaced, NewItems;
    var r := replaced + new';
    assert forall i :: 0 <= i < |items| ==> r[i] == replaced[i];
    assert forall i :: |items| <= i < |r| ==> r[i] == new'[i - |items|];
  }

  lemma ReplacedVersions(items: seq<Item>, incoming: seq<Item>)
    ensures forall i :: 0 <= i < |items| ==>
              var item := Replaced(items, incoming)[i];
              var brought := ItemById(incoming, item.id);
              item.id == items[i].id && item == if brought.Some? then brought.value else items[i]
  {
    forall i | 0 <= i < |items| ensures Replaced(items, incoming)[i].id == items[i].id {
      ItemByIdFinds(incoming, items[i].id);
    }
    hide ItemById;
  }

  lemma NewVersions(items: seq<Item>, incoming: seq<Item>)
    requires DistinctItems(incoming)
    ensures forall i :: 0 <= i < |NewItems(incoming, items)| ==>
              var item := NewItems(incoming, items)[i];
              FindItem(items, item.id).None? && ItemById(incoming, item.id) == Some(item)
  {
    forall i | 0 <= i < |NewItems(incoming, items)|
      ensures var item := NewItems(incoming, items)[i];
              FindItem(items, item.id).None? && ItemById(incoming, item.id) == Some(item) {
      var item := NewItems(incoming, items)[i];
      assert item in NewItems(incoming, items);
      var k :| 0 <= k < |incoming| && incoming[k] == item;
      ItemByIdFinds(incoming, item.id);
      assert FindItem(incoming, item.id) == Some(k);
    }
  }

  lemma MergedPresence(items: seq<Item>, incoming: seq<Item>, itemId: string)
    requires DistinctItems(incoming) && ItemById(incoming, itemId).Some?
    ensures FindItem(Replaced(items, incoming) + NewItems(incoming, items), itemId).Some?
  {
    MergedVersions(items, incoming);
    ItemByIdFinds(incoming, itemId);
    var r := Replaced(items, incoming) + NewItems(incoming, items);
    var known := FindItem(items, itemId);
    if known.Some? {
      assert r[known.value].id == itemId;
    } else {
      assert ItemById(incoming, itemId).value in NewItems(incoming, items);
      assert ItemById(incoming, itemId).value in r;
    }
  }

  lemma DistinctTogether(a: seq<Item>, b: seq<Item>)
    requires DistinctItems(a) && DistinctItems(b)
    requires forall i, j :: 0 <= i < |a| && 0 <= j < |b| ==> a[i].id != b[j].id
    ensures DistinctItems(a + b)
  {
    var r := a + b;
    forall i, j | 0 <= i < j < |r| ensures r[i].id != r[j].id {
      assert r[i] == if i < |a| then a[i] else b[i - |a|];
      assert r[j] == if j < |a| then a[j] else b[j - |a|];
    }
  }

  lemma ReplacedKeepsIds(items: seq<Item>, incoming: seq<Item>)
    ensures forall i :: 0 <= i < |items| ==> Replaced(items, incoming)[i].id == items[i].id
    ensures DistinctItems(items) ==> DistinctItems(Replaced(items, incoming))
  {
    forall i | 0 <= i < |items| ensures Replaced(items, incoming)[i].id == items[i].id {
      ItemByIdFinds(incoming, items[i].id);
    }
    hide ItemById;
  }

  lemma NewAreUnknown(items: seq<Item>, incoming: seq<Item>)
    ensures forall i, j :: 0 <= i < |items| && 0 <= j < |NewItems(incoming, items)| ==> items[i].id != NewItems(incoming, items)[j].id
  {
    forall j | 0 <= j < |NewItems(incoming, items)| ensures FindItem(items, NewItems(incoming, items)[j].id).None? {
      assert NewItems(incoming, items)[j] in NewItems(incoming, items);
    }
    hide FindItem, NewItems;
  }

  lemma MergedDistinct(items: seq<Item>, incoming: seq<Item>)
    requires DistinctItems(items) && DistinctItems(incoming)
    ensures DistinctItems(Replaced(items, incoming) + NewItems(incoming, items))
  {
    ReplacedKeepsIds(items, incoming);
    NewItemsAreDistinct(incoming, items);
    NewAreUnknown(items, incoming);
    hide Replaced, NewItems, DistinctItems;
    DistinctTogether(Replaced(items, incoming), NewItems(incoming, items));
  }

  lemma {:induction false} NewItemsAreDistinct(items: seq<Item>, known: seq<Item>)
    requires DistinctItems(items)
    ensures DistinctItems(NewItems(items, known))
  {
    if items != [] {
      NewItemsAreDistinct(items[1..], known);
      forall item <- NewItems(items[1..], known) ensures item.id != items[0].id {
        var i :| 0 <= i < |items| - 1 && items[1..][i] == item;
        assert items[i + 1] == item;
      }
    }
  }

  // The items after merging a summary.
  ghost predicate ItemsGrow(items: seq<Item>, incoming: seq<Item>, items': seq<Item>) {
    && DistinctItems(items') && |items| <= |items'|
    && (forall i :: 0 <= i < |items| ==> items'[i].id == items[i].id)
    && (forall i :: 0 <= i < |items'| ==>
          var brought := ItemById(incoming, items'[i].id);
          if brought.Some? then items'[i] == brought.value else i < |items| && items'[i] == items[i])
    && (forall itemId :: ItemById(incoming, itemId).Some? ==> FindItem(items', itemId).Some?)
  }

  lemma MergedItemsGrow(items: seq<Item>, incoming: seq<Item>)
    requires DistinctItems(items) && DistinctItems(incoming)
    ensures ItemsGrow(items, incoming, Replaced(items, incoming) + NewItems(incoming, items))
  {
    var r := Replaced(items, incoming) + NewItems(incoming, items);
    MergedVersions(items, incoming);
    MergedDistinct(items, incoming);
    forall itemId | ItemById(incoming, itemId).Some? ensures FindItem(r, itemId).Some? {
      MergedPresence(items, incoming, itemId);
    }
    hide FindItem, ItemById, Replaced, NewItems, DistinctItems;
  }

  lemma SummaryReflects(turn: Turn, note: Note)
    requires IsTurnNote(note) && TurnOf(note, turn.id) && note.turn.itemsView == Some(Summary) && !note.turn.partial
    requires ItemsGrow(turn.items, note.turn.items, MergeTurn(turn, note.turn).items)
    ensures Reflects(MergeTurn(turn, note.turn), note)
  {
    hide FindItem, ItemById, Replaced, NewItems, DistinctItems;
  }

  lemma SummaryGrows(turn: Turn, note: Note)
    requires IsTurnNote(note) && IsReport(note) && TurnOf(note, turn.id) && DistinctItems(turn.items)
    requires note.turn.itemsView == Some(Summary) && !note.turn.partial
    ensures Grows(turn, note, MergeTurn(turn, note.turn))
  {
    hide FindItem, ItemById, Replaced, NewItems, DistinctItems;
    MergedItemsGrow(turn.items, note.turn.items);
    var turn' := MergeTurn(turn, note.turn);
    assert turn'.items == Replaced(turn.items, note.turn.items) + NewItems(note.turn.items, turn.items);
    SummaryReflects(turn, note);
    forall i | 0 <= i < |turn'.items|
      ensures Brought(note, turn.id, turn'.items[i].id) == ItemById(note.turn.items, turn'.items[i].id) {
    }
    hide Brought, Reflects, TurnOf;
  }

  lemma NotLoadedGrows(turn: Turn, note: Note)
    requires IsTurnNote(note) && TurnOf(note, turn.id) && DistinctItems(turn.items)
    requires note.turn.itemsView == Some(NotLoaded) && !note.turn.partial
    ensures Grows(turn, note, MergeTurn(turn, note.turn))
  {
    hide FindItem, ItemById, Replaced, NewItems, DistinctItems;
  }

  lemma MergedTurnGrows(turn: Turn, note: Note)
    requires IsTurnNote(note) && IsReport(note) && TurnOf(note, turn.id) && !Overwrites(note, turn.id) && DistinctItems(turn.items)
    ensures Grows(turn, note, MergeTurn(turn, note.turn))
  {
    match note.turn.itemsView {
      case Some(Summary) => SummaryGrows(turn, note);
      case Some(NotLoaded) => NotLoadedGrows(turn, note);
      case Some(Full) =>
      case None =>
    }
    hide Grows, MergeTurn;
  }

  // A grown turn still reflects what it reflected.
  lemma GrownReflects(turn: Turn, note: Note, turn': Turn, other: Note)
    requires Grows(turn, note, turn') && Reflects(turn, other)
    ensures Reflects(turn', other)
  {
    forall itemId | FindItem(turn.items, itemId).Some? ensures FindItem(turn'.items, itemId).Some? {
      assert turn'.items[FindItem(turn.items, itemId).value].id == itemId;
    }
    hide Brought, TurnOf, FindItem;
  }

  lemma LastOfSnoc(notes: seq<Note>, note: Note, id: string, itemId: string)
    ensures var brought := Brought(note, id, itemId);
            LastBrought(notes + [note], id, itemId) == if brought.Some? then brought else LastBrought(notes, id, itemId)
    ensures LastTurn(notes + [note], id) == if TurnOf(note, id) && IsTurnNote(note) then Some(note.turn) else LastTurn(notes, id)
  {
    assert (notes + [note])[..|notes|] == notes;
  }

  lemma GrowingKeepsUpToDate(turn: Turn, notes: seq<Note>, note: Note, turn': Turn)
    requires UpToDate(turn, notes) && Grows(turn, note, turn') && TurnOf(note, turn.id)
    ensures UpToDate(turn', notes + [note])
  {
    forall other <- notes ensures Reflects(turn', other) {
      GrownReflects(turn, note, turn', other);
    }
    forall i | 0 <= i < |turn'.items|
      ensures var brought := LastBrought(notes + [note], turn'.id, turn'.items[i].id);
              brought.Some? ==> turn'.items[i] == brought.value {
      LastOfSnoc(notes, note, turn.id, turn'.items[i].id);
    }
    LastOfSnoc(notes, note, turn.id, "");
    assert forall other <- notes + [note] :: other in notes || other == note;
    hide Reflects, LastBrought, LastTurn, Brought;
  }

  // The first report about a turn.
  lemma FirstReport(notes: seq<Note>, note: Note, id: string)
    requires IsReport(note) && TurnOf(note, id) && !Overwrites(note, id) && forall other <- notes :: !TurnOf(other, id)
    ensures Known(TurnAfter(None, note, id), notes + [note], id)
  {
    var empty := NewTurn(id);
    UnmentionedIsUnbrought(notes, id, "");
    assert UpToDate(empty, notes);
    if note.ItemReported? {
      ItemGrows(empty, note);
      assert TurnAfter(None, note, id) == TurnAfter(Some(empty), note, id);
      GrowingKeepsUpToDate(empty, notes, note, TurnAfter(Some(empty), note, id).value);
    } else {
      FirstTurnReport(notes, note);
    }
  }

  lemma FirstTurnReport(notes: seq<Note>, note: Note)
    requires IsReport(note) && IsTurnNote(note) && !Overwrites(note, note.turn.id)
    requires forall other <- notes :: !TurnOf(other, note.turn.id)
    ensures UpToDate(note.turn, notes + [note])
  {
    var turn := note.turn;
    forall i | 0 <= i < |turn.items|
      ensures var brought := LastBrought(notes + [note], turn.id, turn.items[i].id);
              brought.Some? ==> turn.items[i] == brought.value {
      LastOfSnoc(notes, note, turn.id, turn.items[i].id);
      UnmentionedIsUnbrought(notes, turn.id, turn.items[i].id);
      ItemByIdFinds(turn.items, turn.items[i].id);
      assert FindItem(turn.items, turn.items[i].id) == Some(i);
    }
    LastOfSnoc(notes, note, turn.id, "");
    forall itemId {
      ItemByIdFinds(turn.items, itemId);
    }
    assert Reflects(turn, note);
    assert forall other <- notes + [note] :: other in notes || other == note;
  }

  lemma ReportKeepsKnown(turn: Option<Turn>, notes: seq<Note>, note: Note, id: string)
    requires Known(turn, notes, id) && IsReport(note) && !Overwrites(note, id)
    ensures Known(TurnAfter(turn, note, id), notes + [note], id)
  {
    assert forall other <- notes + [note] :: other in notes || other == note;
    if !TurnOf(note, id) {
      if turn.Some? {
        forall i | 0 <= i < |turn.value.items|
          ensures LastBrought(notes + [note], id, turn.value.items[i].id) == LastBrought(notes, id, turn.value.items[i].id) {
          LastOfSnoc(notes, note, id, turn.value.items[i].id);
        }
        LastOfSnoc(notes, note, id, "");
        hide LastBrought, LastTurn, Brought;
      }
    } else if turn.None? {
      FirstReport(notes, note, id);
    } else if note.ItemReported? {
      ItemGrows(turn.value, note);
      GrowingKeepsUpToDate(turn.value, notes, note, TurnAfter(turn, note, id).value);
      hide UpToDate, Grows, TurnAfter;
    } else {
      MergedTurnGrows(turn.value, note);
      GrowingKeepsUpToDate(turn.value, notes, note, MergeTurn(turn.value, note.turn));
      hide UpToDate, MergeTurn;
    }
  }

  lemma {:induction false} FoldIsKnown(turn: Option<Turn>, notes: seq<Note>, id: string)
    requires turn.Some? ==> turn.value.id == id && DistinctItems(turn.value.items)
    requires AreReports(notes) && forall note <- notes :: !Overwrites(note, id)
    ensures Known(FoldTurn(turn, notes, id), notes, id)
  {
    if notes != [] {
      var init, last := notes[..|notes| - 1], notes[|notes| - 1];
      assert notes == init + [last];
      FoldIsKnown(turn, init, id);
      ReportKeepsKnown(FoldTurn(turn, init, id), init, last, id);
      hide Known, TurnAfter;
    }
  }

  // The turn after a replay: nothing but versions and fields may differ.
  ghost predicate Replayed(turn: Turn, notes: seq<Note>, turn': Turn) {
    && turn'.id == turn.id && turn'.itemsView == turn.itemsView && turn'.partial == turn.partial
    && |turn'.items| == |turn.items| && DistinctItems(turn'.items)
    && (forall i :: 0 <= i < |turn.items| ==>
          && turn'.items[i].id == turn.items[i].id
          && (var brought := LastBrought(notes, turn.id, turn.items[i].id);
              turn'.items[i] == if brought.Some? then brought.value else turn.items[i]))
    && (var last := LastTurn(notes, turn.id);
        if last.Some? then turn'.inProgress == last.value.inProgress && turn'.rest == last.value.rest
        else turn'.inProgress == turn.inProgress && turn'.rest == turn.rest)
    && (forall other :: Reflects(turn, other) ==> Reflects(turn', other))
  }

  lemma ReportRefreshes(turn: Turn, note: Note)
    requires IsReport(note) && !Overwrites(note, turn.id) && DistinctItems(turn.items) && Reflects(turn, note)
    ensures TurnAfter(Some(turn), note, turn.id).Some? && Refreshes(turn, note, TurnAfter(Some(turn), note, turn.id).value)
  {
    if TurnOf(note, turn.id) {
      if note.ItemReported? {
        ItemRefreshes(turn, note);
      } else {
        TurnRefreshes(turn, note);
      }
    }
    hide Reflects, MergeTurn, UpdatedTurn;
  }

  lemma RefreshKeepsReplayed(turn: Turn, notes: seq<Note>, turn': Turn, note: Note, turn'': Turn)
    requires Replayed(turn, notes, turn') && Refreshes(turn', note, turn'') && IsReport(note)
    ensures Replayed(turn, notes + [note], turn'')
  {
    forall i | 0 <= i < |turn.items|
      ensures turn''.items[i].id == turn.items[i].id
      ensures var brought := LastBrought(notes + [note], turn.id, turn.items[i].id);
              turn''.items[i] == if brought.Some? then brought.value else turn.items[i] {
      LastOfSnoc(notes, note, turn.id, turn.items[i].id);
      BroughtHasId(note, turn.id, turn.items[i].id);
    }
    LastOfSnoc(notes, note, turn.id, "");
    forall other | Reflects(turn, other) ensures Reflects(turn'', other) && DistinctItems(turn''.items) {
      RefreshedReflects(turn', turn'', note, other);
    }
    assert DistinctItems(turn''.items);
    hide Reflects, LastBrought, LastTurn, Brought;
  }

  lemma {:induction false} ReplayingRefreshes(turn: Turn, notes: seq<Note>)
    requires AreReports(notes) && DistinctItems(turn.items)
    requires forall note <- notes :: !Overwrites(note, turn.id) && Reflects(turn, note)
    ensures FoldTurn(Some(turn), notes, turn.id).Some? && Replayed(turn, notes, FoldTurn(Some(turn), notes, turn.id).value)
  {
    if notes != [] {
      var init, last := notes[..|notes| - 1], notes[|notes| - 1];
      assert notes == init + [last];
      ReplayingRefreshes(turn, init);
      var turn' := FoldTurn(Some(turn), init, turn.id).value;
      ReportRefreshes(turn', last);
      RefreshKeepsReplayed(turn, init, turn', last, TurnAfter(Some(turn'), last, turn.id).value);
    }
    hide TurnAfter, Refreshes;
  }

  // Replaying reports on one turn that has seen them changes nothing.
  lemma TurnReplayIsIdempotent(turn: Option<Turn>, notes: seq<Note>, id: string)
    requires turn.Some? ==> turn.value.id == id && DistinctItems(turn.value.items)
    requires AreReports(notes)
    ensures FoldTurn(FoldTurn(turn, notes, id), notes, id) == FoldTurn(turn, notes, id)
  {
    if exists note <- notes :: Overwrites(note, id) {
      OverwritingForgets(FoldTurn(turn, notes, id), turn, notes, id);
    } else {
      FoldIsKnown(turn, notes, id);
      var folded := FoldTurn(turn, notes, id);
      if folded.None? {
        UnmentionedIsIgnored(notes, id);
      } else {
        ReplayingRefreshes(folded.value, notes);
        var again := FoldTurn(folded, notes, id).value;
        assert again.items == folded.value.items;
        hide FoldTurn, LastBrought, LastTurn, Reflects;
      }
    }
  }

  lemma {:induction false} UnmentionedIsIgnored(notes: seq<Note>, id: string)
    requires forall note <- notes :: !TurnOf(note, id)
    ensures FoldTurn(None, notes, id).None?
  {
    if notes != [] {
      UnmentionedIsIgnored(notes[..|notes| - 1], id);
    }
  }

  // ---- All turns ----------------------------------------------------------------------------------------------

  function Content(turns: seq<Turn>, id: string): (r: Option<Turn>)
    ensures r.Some? ==> r.value.id == id && r.value in turns
  {
    var index := FindTurn(turns, id);
    if index.None? then None else Some(turns[index.value])
  }

  lemma FindBeside(turns: seq<Turn>, turn: Turn, id: string)
    requires turn.id != id
    ensures FindTurn(PutAt(turns, turn), id) == FindTurn(turns, id)
  {
    if FindTurn(turns, turn.id).Some? {
      SameFind(turns, PutAt(turns, turn), id);
    } else if FindTurn(turns, id).Some? {
      FindAhead(turns, [turn], id);
    } else {
      FindBehind(turns, [turn], id);
      assert [turn][0].id != id;
    }
  }

  lemma ContentOfPut(turns: seq<Turn>, turn: Turn, id: string)
    ensures Content(PutAt(turns, turn), id) == if turn.id == id then Some(turn) else Content(turns, id)
  {
    if turn.id == id {
      FindPutTurn(turns, turn, turn);
    } else {
      FindBeside(turns, turn, id);
    }
  }

  // A report acts on its own turn as on that turn alone.
  lemma ContentFollows(turns: seq<Turn>, note: Note, id: string)
    requires IsReport(note)
    ensures Content(ReduceTurns(turns, note), id) == TurnAfter(Content(turns, id), note, id)
  {
    if note.ItemReported? {
      UpdateTurnsIsPut(turns, note);
      var turn := UpdatedTurn(CurrentTurn(turns, note.turnId), note);
      ContentOfPut(turns, turn.value, id);
    } else if !note.Unrelated? {
      PutTurnIsPut(turns, note.turn);
      ContentOfPut(turns, MergedTurn(turns, note.turn), id);
    }
    hide UpdateTurns, PutTurn, PutAt, MergeTurn, FindItem, UpdatedItems;
  }

  lemma {:induction false} ContentFollowsAll(turns: seq<Turn>, notes: seq<Note>, id: string)
    requires AreReports(notes)
    ensures Content(FoldAll(ReduceTurns, turns, notes), id) == FoldTurn(Content(turns, id), notes, id)
  {
    if notes != [] {
      var init, last := notes[..|notes| - 1], notes[|notes| - 1];
      assert notes == init + [last];
      ContentFollowsAll(turns, init, id);
      FoldConcat(ReduceTurns, turns, init, [last]);
      FoldOne(ReduceTurns, FoldAll(ReduceTurns, turns, init), last);
      ContentFollows(FoldAll(ReduceTurns, turns, init), last, id);
    }
    hide ReduceTurns, TurnAfter, Content;
  }

  lemma {:induction false} MentionedIsKept(turn: Option<Turn>, notes: seq<Note>, id: string)
    requires AreReports(notes) && (turn.Some? || exists note <- notes :: TurnOf(note, id))
    ensures FoldTurn(turn, notes, id).Some?
  {
    if notes != [] {
      var init, last := notes[..|notes| - 1], notes[|notes| - 1];
      assert notes == init + [last] && IsReport(last);
      if !TurnOf(last, id) || turn.Some? {
        MentionedIsKept(turn, init, id);
      }
      if last.ItemReported? {
        assert UpdatedTurn(NewTurn(id), last).Some?;
      }
    }
  }

  // Once every turn that is mentioned exists, replaying only changes turns in their places.
  ghost predicate SameIds(a: seq<Turn>, b: seq<Turn>) {
    |a| == |b| && forall i :: 0 <= i < |a| ==> a[i].id == b[i].id
  }

  ghost predicate AllLoaded(turns: seq<Turn>, notes: seq<Note>) {
    forall note <- notes :: note.Unrelated? || IsLoaded(turns, note)
  }

  lemma LoadedKeepsIds(turns: seq<Turn>, note: Note)
    requires !note.Reverted? && (note.Unrelated? || IsLoaded(turns, note))
    ensures SameIds(turns, ReduceTurns(turns, note))
  {
    TurnsStay(turns, note);
    if |ReduceTurns(turns, note)| > |turns| {
      AppendedIsMentioned(turns, note);
      if note.Unrelated? {
        assert false;
      }
    }
    hide ReduceTurns;
  }

  lemma {:induction false} ReplayKeepsIds(turns: seq<Turn>, notes: seq<Note>)
    requires AreReports(notes) && AllLoaded(turns, notes)
    ensures SameIds(turns, FoldAll(ReduceTurns, turns, notes))
    decreases |notes|
  {
    if notes != [] {
      var next := ReduceTurns(turns, notes[0]);
      assert notes[0] in notes;
      LoadedKeepsIds(turns, notes[0]);
      forall note <- notes[1..] ensures note.Unrelated? || IsLoaded(next, note) {
        assert note in notes;
        if !note.Unrelated? {
          var i :| 0 <= i < |turns| && TurnOf(note, turns[i].id);
          assert TurnOf(note, next[i].id);
        }
      }
      assert AreReports(notes[1..]) by { assert forall note <- notes[1..] :: note in notes; }
      ReplayKeepsIds(next, notes[1..]);
    }
    hide ReduceTurns;
  }

  lemma {:induction false} FoldKeepsDistinct(turns: seq<Turn>, notes: seq<Note>)
    requires AreReports(notes) && DistinctTurns(turns)
    ensures DistinctTurns(FoldAll(ReduceTurns, turns, notes))
    decreases |notes|
  {
    if notes != [] {
      assert notes[0] in notes;
      TurnsStay(turns, notes[0]);
      assert AreReports(notes[1..]) by { assert forall note <- notes[1..] :: note in notes; }
      FoldKeepsDistinct(ReduceTurns(turns, notes[0]), notes[1..]);
    }
    hide ReduceTurns;
  }

  // Which turn a report is about.
  function TurnIdOf(note: Note): (id: string)
    requires note.ItemReported? || IsTurnNote(note)
    ensures TurnOf(note, id) && forall other :: TurnOf(note, other) ==> other == id
  {
    if note.ItemReported? then note.turnId else note.turn.id
  }

  lemma FoldLoadsAll(turns: seq<Turn>, notes: seq<Note>)
    requires AreReports(notes)
    ensures AllLoaded(FoldAll(ReduceTurns, turns, notes), notes)
  {
    var folded := FoldAll(ReduceTurns, turns, notes);
    forall note <- notes | !note.Unrelated? ensures IsLoaded(folded, note) {
      var id := TurnIdOf(note);
      ContentFollowsAll(turns, notes, id);
      MentionedIsKept(Content(turns, id), notes, id);
      var i :| 0 <= i < |folded| && folded[i] == Content(folded, id).value;
    }
    hide ReduceTurns, FoldTurn, FoldAll;
  }

  ghost predicate WellFormed(turns: seq<Turn>) {
    DistinctTurns(turns) && forall turn <- turns :: DistinctItems(turn.items)
  }

  lemma ContentAt(turns: seq<Turn>, i: nat)
    requires DistinctTurns(turns) && i < |turns|
    ensures Content(turns, turns[i].id) == Some(turns[i])
  {
    FoundAt(turns, turns[i].id, i);
  }

  lemma FoundAt(turns: seq<Turn>, id: string, at: nat)
    requires at < |turns| && turns[at].id == id && forall j :: 0 <= j < at ==> turns[j].id != id
    ensures FindTurn(turns, id) == Some(at)
  {
  }

  // Replaying reports of turns and items that are already reflected changes nothing.
  lemma ReportsReplayIdempotently(turns: seq<Turn>, notes: seq<Note>)
    requires WellFormed(turns) && AreReports(notes)
    ensures var folded := FoldAll(ReduceTurns, turns, notes);
            FoldAll(ReduceTurns, folded, notes) == folded
  {
    hide ReduceTurns, FoldTurn, FoldAll, Content, TurnAfter;
    var folded := FoldAll(ReduceTurns, turns, notes);
    var again := FoldAll(ReduceTurns, folded, notes);
    FoldKeepsDistinct(turns, notes);
    FoldKeepsDistinct(folded, notes);
    FoldLoadsAll(turns, notes);
    ReplayKeepsIds(folded, notes);
    forall i | 0 <= i < |folded| ensures again[i] == folded[i] {
      var id := folded[i].id;
      ContentAt(folded, i);
      ContentAt(again, i);
      ContentFollowsAll(turns, notes, id);
      ContentFollowsAll(folded, notes, id);
      TurnReplayIsIdempotent(Content(turns, id), notes, id);
    }
  }

  // An answer to the resumption that already contains the first of the buffered notifications, as
  // long as these are reports, converges to what an observer of everything shows.
  lemma ResumedSnapshotConverges(turns: seq<Turn>, seen: seq<Note>, later: seq<Note>)
    requires WellFormed(turns) && AreReports(seen)
    ensures FoldAll(ReduceTurns, FoldAll(ReduceTurns, turns, seen), seen + later) == FoldAll(ReduceTurns, turns, seen + later)
  {
    FoldConcat(ReduceTurns, FoldAll(ReduceTurns, turns, seen), seen, later);
    ReportsReplayIdempotently(turns, seen);
    FoldConcat(ReduceTurns, turns, seen, later);
  }

  // ---- Text deltas ------------------------------------------------------------------------------------------------

  // The delta meets no command to append to.
  predicate MeetsNothing(s: State, note: Note)
    requires IsTextDelta(note)
  {
    note.OutputDelta? &&
    var item := CurrentItem(CurrentTurn(s.turns, note.turnId).items, note.itemId);
    item.None? || !item.value.CommandExecution?
  }

  lemma LongerDeltaDiffers(note: Note, a: string, b: string, existing: Option<Item>)
    requires IsTextDelta(note) && |a| != |b|
    requires note.OutputDelta? ==> existing.Some? && existing.value.CommandExecution?
    ensures Update(WithDelta(note, a), existing).Some? && Update(WithDelta(note, b), existing).Some?
    ensures Update(WithDelta(note, a), existing) != Update(WithDelta(note, b), existing)
  {
    match note {
      case AgentMessageDelta(_, _, _) =>
        var text := if existing.Some? && existing.value.AgentMessage? then existing.value.text else "";
        assert |text + a| != |text + b|;
      case PlanDelta(_, _, _) =>
        var text := if existing.Some? && existing.value.Plan? then existing.value.text else "";
        assert |text + a| != |text + b|;
      case OutputDelta(_, _, _) =>
        assert |TextOf(existing.value.output) + a| != |TextOf(existing.value.output) + b|;
      case ReasoningDelta(_, _, part, index, _) =>
        var item := if existing.Some? && existing.value.Reasoning? then existing.value else Reasoning(note.itemId, None, None, "");
        var parts := if part.SummaryPart? then item.summary else item.content;
        assert |ExtendedPart(parts, index, a)[index]| != |ExtendedPart(parts, index, b)[index]|;
    }
  }

  lemma DeltaChangesTurn(turn: Turn, note: Note, a: string, b: string)
    requires IsTextDelta(note) && |a| != |b|
    requires note.OutputDelta? ==>
               var item := CurrentItem(turn.items, note.itemId); item.Some? && item.value.CommandExecution?
    ensures var ta, tb := UpdatedTurn(turn, WithDelta(note, a)), UpdatedTurn(turn, WithDelta(note, b));
            ta.Some? && tb.Some? && ta != tb && ta.value.id == tb.value.id == turn.id
  {
    var item := CurrentItem(turn.items, note.itemId);
    var na, nb := WithDelta(note, a), WithDelta(note, b);
    LongerDeltaDiffers(note, a, b, item);
    UpdateKeepsId(na, item);
    UpdateKeepsId(nb, item);
    var ia, ib := Update(na, item).value, Update(nb, item).value;
    hide Update, UpdatedItems;
    FindUpdatedItem(turn.items, note.itemId, ia, ia);
    FindUpdatedItem(turn.items, note.itemId, ib, ib);
    assert CurrentItem(UpdatedTurn(turn, na).value.items, note.itemId) != CurrentItem(UpdatedTurn(turn, nb).value.items, note.itemId);
  }

  lemma DeltaChangesTurns(s: State, note: Note, a: string, b: string)
    requires IsTextDelta(note) && |a| != |b| && !MeetsNothing(s, note)
    ensures Reduce(s, WithDelta(note, a)) != Reduce(s, WithDelta(note, b))
  {
    var turn := CurrentTurn(s.turns, note.turnId);
    var na, nb := WithDelta(note, a), WithDelta(note, b);
    DeltaChangesTurn(turn, note, a, b);
    UpdateTurnsIsPut(s.turns, na);
    UpdateTurnsIsPut(s.turns, nb);
    hide UpdateTurns, PutAt, CurrentTurn, CurrentItem, UpdatedTurn;
    var ta, tb := UpdatedTurn(turn, na).value, UpdatedTurn(turn, nb).value;
    FindPutTurn(s.turns, ta, ta);
    FindPutTurn(s.turns, tb, tb);
  }

  // A text delta is the exception: replayed on a state that contains it, it is there twice, unless
  // it is empty or meets nothing to append to.
  lemma DeltaIsDuplicatedIff(s: State, note: Note)
    requires IsTextDelta(note)
    ensures Reduce(Reduce(s, note), note) == Reduce(s, WithDelta(note, note.delta + note.delta))
    ensures Reduce(Reduce(s, note), note) == Reduce(s, note) <==> note.delta == "" || MeetsNothing(s, note)
  {
    assert WithDelta(note, note.delta) == note;
    SplitDelta(s, note, note.delta, note.delta);
    if note.delta == "" {
      assert note.delta + note.delta == note.delta;
    } else if MeetsNothing(s, note) {
      NothingMet(s, note);
    } else {
      DeltaChangesTurns(s, note, note.delta + note.delta, note.delta);
    }
    hide Reduce;
  }

  lemma NothingMet(s: State, note: Note)
    requires IsTextDelta(note) && MeetsNothing(s, note)
    ensures Reduce(Reduce(s, note), note) == Reduce(s, note)
  {
    var turn := CurrentTurn(s.turns, note.turnId);
    var item := CurrentItem(turn.items, note.itemId);
    UpdateTurnsIsPut(s.turns, note);
    if item.Some? {
      FindUpdatedItem(turn.items, note.itemId, item.value, item.value);
      var turn' := UpdatedTurn(turn, note).value;
      FindPutTurn(s.turns, turn', turn');
      UpdateTurnsIsPut(PutAt(s.turns, turn'), note);
    }
    hide UpdateTurns, PutAt, UpdatedItems, CurrentItem, CurrentTurn;
  }
}
