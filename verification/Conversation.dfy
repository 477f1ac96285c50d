/**
  The projection of a thread's turns and items from notifications, shared by the conversation view
  and the thread session. Source: src/app/useConversation.ts.
 */
module Conversation {
  import opened Prelude
  import opened Batching

  datatype Item =
    | AgentMessage(id: string, text: string, rest: string)
    | Plan(id: string, text: string, rest: string)
    | CommandExecution(id: string, output: Option<string>, rest: string)
    | FileChange(id: string, changes: string, rest: string)
    | Reasoning(id: string, summary: Option<seq<string>>, content: Option<seq<string>>, rest: string)
    | OtherItem(id: string, rest: string)

  datatype ItemsView = Full | Summary | NotLoaded

  // `partial` stands for clientItemsView, `rest` for the fields no step looks at.
  datatype Turn = Turn(id: string, items: seq<Item>, itemsView: Option<ItemsView>, partial: bool,
                       inProgress: bool, rest: string)

  datatype State = State(turns: seq<Turn>, activeTurnId: Option<string>, submitting: bool, stopping: bool,
                         error: Option<string>)

  const EmptyState := State([], None, false, false, None)

  datatype Part = SummaryPart | ContentPart

  datatype Note =
    | Reverted
    | TurnStarted(turn: Turn)
    | TurnCompleted(turn: Turn)
    | ItemReported(turnId: string, item: Item)
    | AgentMessageDelta(turnId: string, itemId: string, delta: string)
    | PlanDelta(turnId: string, itemId: string, delta: string)
    | OutputDelta(turnId: string, itemId: string, delta: string)
    | PatchUpdated(turnId: string, itemId: string, changes: string)
    | ReasoningPartAdded(turnId: string, itemId: string, index: nat)
    | ReasoningDelta(turnId: string, itemId: string, part: Part, index: nat, delta: string)
    | Unrelated

  // ---- Items ------------------------------------------------------------------------------------------

  function TextOf(text: Option<string>): string {
    if text.Some? then text.value else ""
  }

  function Blanks(n: nat): (r: seq<string>)
    ensures |r| == n && forall i :: 0 <= i < n ==> r[i] == ""
  {
    seq(n, _ => "")
  }

  // The parts with the text appended to the indexed one, after filling up with empty parts.
  function ExtendedPart(parts: Option<seq<string>>, index: nat, delta: string): (r: seq<string>)
    ensures var old' := if parts.Some? then parts.value else [];
            && |r| == Max(|old'|, index + 1)
            && (forall i :: 0 <= i < |r| && i != index ==> r[i] == (if i < |old'| then old'[i] else ""))
            && r[index] == (if index < |old'| then old'[index] else "") + delta
  {
    var given := if parts.Some? then parts.value else [];
    var padded := if |given| <= index then given + Blanks(index + 1 - |given|) else given;
    padded[index := padded[index] + delta]
  }

  function ExtendedReasoning(existing: Option<Item>, itemId: string, part: Part, index: nat, delta: string): Item {
    var item := if existing.Some? && existing.value.Reasoning? then existing.value else Reasoning(itemId, None, None, "");
    match part
    case SummaryPart => item.(summary := Some(ExtendedPart(item.summary, index, delta)))
    case ContentPart => item.(content := Some(ExtendedPart(item.content, index, delta)))
  }

  predicate IsItemNote(note: Note) {
    !note.Reverted? && !note.TurnStarted? && !note.TurnCompleted? && !note.Unrelated?
  }

  function ItemIdOf(note: Note): string
    requires IsItemNote(note)
  {
    if note.ItemReported? then note.item.id else note.itemId
  }

  // The item after the notification; None leaves everything as it is.
  function Update(note: Note, existing: Option<Item>): Option<Item>
    requires IsItemNote(note)
  {
    match note
    case ItemReported(_, item) => Some(item)
    case AgentMessageDelta(_, itemId, delta) =>
      Some(if existing.Some? && existing.value.AgentMessage? then existing.value.(text := existing.value.text + delta)
           else AgentMessage(itemId, delta, ""))
    case PlanDelta(_, itemId, delta) =>
      Some(if existing.Some? && existing.value.Plan? then existing.value.(text := existing.value.text + delta)
           else Plan(itemId, delta, ""))
    case OutputDelta(_, _, delta) =>
      if existing.Some? && existing.value.CommandExecution?
      then Some(existing.value.(output := Some(TextOf(existing.value.output) + delta))) else existing
    case PatchUpdated(_, _, changes) =>
      if existing.Some? && existing.value.FileChange? then Some(existing.value.(changes := changes)) else existing
    case ReasoningPartAdded(_, itemId, index) => Some(ExtendedReasoning(existing, itemId, SummaryPart, index, ""))
    case ReasoningDelta(_, itemId, part, index, delta) => Some(ExtendedReasoning(existing, itemId, part, index, delta))
  }

  // ---- Turns ------------------------------------------------------------------------------------------

  function FindItem(items: seq<Item>, id: string): (index: Option<nat>)
    ensures index.Some? ==> index.value < |items| && items[index.value].id == id
                            && forall j :: 0 <= j < index.value ==> items[j].id != id
    ensures index.None? <==> forall j :: 0 <= j < |items| ==> items[j].id != id
  {
    if items == [] then None
    else if items[0].id == id then Some(0)
    else
      var rest := FindItem(items[1..], id);
      if rest.Some? then Some(rest.value + 1) else None
  }

  function FindTurn(turns: seq<Turn>, id: string): (index: Option<nat>)
    ensures index.Some? ==> index.value < |turns| && turns[index.value].id == id
                            && forall j :: 0 <= j < index.value ==> turns[j].id != id
    ensures index.None? <==> forall j :: 0 <= j < |turns| ==> turns[j].id != id
  {
    if turns == [] then None
    else if turns[0].id == id then Some(0)
    else
      var rest := FindTurn(turns[1..], id);
      if rest.Some? then Some(rest.value + 1) else None
  }

  // The last turn in progress.
  function ActiveTurnId(turns: seq<Turn>): Option<string> {
    if turns == [] then None
    else if turns[|turns| - 1].inProgress then Some(turns[|turns| - 1].id)
    else ActiveTurnId(turns[..|turns| - 1])
  }

  function ItemById(items: seq<Item>, id: string): Option<Item> {
    if items == [] then None
    else if items[|items| - 1].id == id then Some(items[|items| - 1])
    else ItemById(items[..|items| - 1], id)
  }

  // Every item replaced by the last replacement with its id, if there is one.
  function Replaced(items: seq<Item>, replacements: seq<Item>): (r: seq<Item>)
    ensures |r| == |items|
    ensures forall i :: 0 <= i < |r| ==>
              r[i] == (var found := ItemById(replacements, items[i].id); if found.Some? then found.value else items[i])
  {
    seq(|items|, i requires 0 <= i < |items| =>
      var found := ItemById(replacements, items[i].id); if found.Some? then found.value else items[i])
  }

  function NewItems(items: seq<Item>, known: seq<Item>): (r: seq<Item>)
    ensures forall item :: item in r <==> item in items && FindItem(known, item.id).None?
  {
    if items == [] then []
    else if FindItem(known, items[0].id).Some? then NewItems(items[1..], known)
    else [items[0]] + NewItems(items[1..], known)
  }

  function MergeTurn(existing: Turn, incoming: Turn): Turn {
    if incoming.itemsView.None? || incoming.itemsView == Some(Full) then incoming
    else if incoming.partial then incoming
    else if incoming.itemsView == Some(NotLoaded) then
      incoming.(items := existing.items,
                itemsView := if existing.itemsView.Some? then existing.itemsView else Some(Full))
    else
      incoming.(items := Replaced(existing.items, incoming.items) + NewItems(incoming.items, existing.items),
                itemsView := Some(if existing.itemsView == Some(Full) then Full else Summary),
                partial := existing.partial)
  }

  function PutTurn(turns: seq<Turn>, turn: Turn): seq<Turn> {
    var index := FindTurn(turns, turn.id);
    if index.None? then turns + [turn] else turns[index.value := MergeTurn(turns[index.value], turn)]
  }

  function UpdatedItems(items: seq<Item>, itemId: string, item: Item): seq<Item> {
    var index := FindItem(items, itemId);
    if index.None? then items + [item] else items[index.value := item]
  }

  function NewTurn(id: string): Turn {
    Turn(id, [], Some(Full), false, true, "")
  }

  // The turns after an item's notification; None leaves the whole state as it is.
  function UpdateTurns(turns: seq<Turn>, note: Note): Option<seq<Turn>>
    requires IsItemNote(note)
  {
    var turnIndex := FindTurn(turns, note.turnId);
    var turn := if turnIndex.None? then NewTurn(note.turnId) else turns[turnIndex.value];
    var itemIndex := FindItem(turn.items, ItemIdOf(note));
    var next := Update(note, if itemIndex.None? then None else Some(turn.items[itemIndex.value]));
    if next.None? then None
    else
      var nextTurn := turn.(items := UpdatedItems(turn.items, ItemIdOf(note), next.value));
      Some(if turnIndex.None? then turns + [nextTurn] else turns[turnIndex.value := nextTurn])
  }

  function Reduce(s: State, note: Note): State {
    match note
    case Reverted => EmptyState
    case Unrelated => s
    case TurnStarted(turn) => s.(turns := PutTurn(s.turns, turn), activeTurnId := Some(turn.id))
    case TurnCompleted(turn) =>
      s.(turns := PutTurn(s.turns, turn), stopping := false,
         activeTurnId := if s.activeTurnId == Some(turn.id) then None else s.activeTurnId)
    case _ =>
      var turns := UpdateTurns(s.turns, note);
      if turns.None? then s else s.(turns := turns.value, activeTurnId := ActiveTurnId(turns.value))
  }

  // ---- Splitting text -------------------------------------------------------------------------------------

  predicate IsTextDelta(note: Note) {
    note.AgentMessageDelta? || note.PlanDelta? || note.OutputDelta? || note.ReasoningDelta?
  }

  function WithDelta(note: Note, delta: string): (r: Note)
    requires IsTextDelta(note)
    ensures IsTextDelta(r) && IsItemNote(r) && r.delta == delta && r.turnId == note.turnId && r.itemId == note.itemId
  {
    match note
    case AgentMessageDelta(turnId, itemId, _) => AgentMessageDelta(turnId, itemId, delta)
    case PlanDelta(turnId, itemId, _) => PlanDelta(turnId, itemId, delta)
    case OutputDelta(turnId, itemId, _) => OutputDelta(turnId, itemId, delta)
    case ReasoningDelta(turnId, itemId, part, index, _) => ReasoningDelta(turnId, itemId, part, index, delta)
  }

  lemma ExtendTwice(parts: Option<seq<string>>, index: nat, a: string, b: string)
    ensures ExtendedPart(Some(ExtendedPart(parts, index, a)), index, b) == ExtendedPart(parts, index, a + b)
  {
    var given := if parts.Some? then parts.value else [];
    var text := if index < |given| then given[index] else "";
    assert text + a + b == text + (a + b);
  }

  lemma UpdateTwice(note: Note, a: string, b: string, existing: Option<Item>)
    requires IsTextDelta(note)
    ensures Update(WithDelta(note, b), Update(WithDelta(note, a), existing)) == Update(WithDelta(note, a + b), existing)
  {
    match note
    case AgentMessageDelta(_, _, _) =>
      if existing.Some? && existing.value.AgentMessage? {
        assert existing.value.text + a + b == existing.value.text + (a + b);
      }
    case PlanDelta(_, _, _) =>
      if existing.Some? && existing.value.Plan? {
        assert existing.value.text + a + b == existing.value.text + (a + b);
      }
    case OutputDelta(_, _, _) =>
      if existing.Some? && existing.value.CommandExecution? {
        assert TextOf(existing.value.output) + a + b == TextOf(existing.value.output) + (a + b);
      }
    case ReasoningDelta(_, _, part, index, _) =>
      var item := if existing.Some? && existing.value.Reasoning? then existing.value else Reasoning(note.itemId, None, None, "");
      ExtendTwice(if part.SummaryPart? then item.summary else item.content, index, a, b);
  }

  function CurrentItem(items: seq<Item>, itemId: string): Option<Item> {
    var index := FindItem(items, itemId);
    if index.None? then None else Some(items[index.value])
  }

  function CurrentTurn(turns: seq<Turn>, turnId: string): Turn {
    var index := FindTurn(turns, turnId);
    if index.None? then NewTurn(turnId) else turns[index.value]
  }

  function PutAt(turns: seq<Turn>, turn: Turn): seq<Turn> {
    var index := FindTurn(turns, turn.id);
    if index.None? then turns + [turn] else turns[index.value := turn]
  }

  // Looking up what was just put in place finds it where it was put.
  lemma FindUpdatedItem(items: seq<Item>, itemId: string, item: Item, item': Item)
    requires item.id == itemId
    ensures var items' := UpdatedItems(items, itemId, item);
            && CurrentItem(items', itemId) == Some(item)
            && UpdatedItems(items', itemId, item') == UpdatedItems(items, itemId, item')
  {
    var items' := UpdatedItems(items, itemId, item);
    var at := if FindItem(items, itemId).Some? then FindItem(items, itemId).value else |items|;
    assert items'[at].id == itemId;
    assert forall j :: 0 <= j < at ==> items'[j] == items[j];
    assert FindItem(items', itemId) == Some(at);
  }

  lemma FindPutTurn(turns: seq<Turn>, turn: Turn, turn': Turn)
    requires turn'.id == turn.id
    ensures var turns' := PutAt(turns, turn);
            CurrentTurn(turns', turn.id) == turn && PutAt(turns', turn') == PutAt(turns, turn')
  {
    var turns' := PutAt(turns, turn);
    var at := if FindTurn(turns, turn.id).Some? then FindTurn(turns, turn.id).value else |turns|;
    assert turns'[at].id == turn.id;
    assert forall j :: 0 <= j < at ==> turns'[j] == turns[j];
    assert FindTurn(turns', turn.id) == Some(at);
  }

  lemma UpdateKeepsId(note: Note, existing: Option<Item>)
    requires IsItemNote(note) && (existing.Some? ==> existing.value.id == ItemIdOf(note))
    ensures var next := Update(note, existing); next.Some? ==> next.value.id == ItemIdOf(note)
  {
  }

  // The turn with its item updated, if the notification touches it.
  function UpdatedTurn(turn: Turn, note: Note): Option<Turn>
    requires IsItemNote(note)
  {
    var next := Update(note, CurrentItem(turn.items, ItemIdOf(note)));
    if next.None? then None else Some(turn.(items := UpdatedItems(turn.items, ItemIdOf(note), next.value)))
  }

  lemma UpdateTurnsIsPut(turns: seq<Turn>, note: Note)
    requires IsItemNote(note)
    ensures var turn := UpdatedTurn(CurrentTurn(turns, note.turnId), note);
            UpdateTurns(turns, note) == if turn.None? then None else Some(PutAt(turns, turn.value))
    ensures var turn := UpdatedTurn(CurrentTurn(turns, note.turnId), note);
            turn.Some? ==> turn.value.id == note.turnId
  {
    hide Update;
  }

  lemma SplitTurn(turn: Turn, note: Note, a: string, b: string)
    requires IsTextDelta(note)
    ensures var first := UpdatedTurn(turn, WithDelta(note, a));
            var once := UpdatedTurn(turn, WithDelta(note, a + b));
            && (first.None? <==> once.None?)
            && (first.Some? ==> UpdatedTurn(first.value, WithDelta(note, b)) == once)
  {
    var item := CurrentItem(turn.items, note.itemId);
    UpdateTwice(note, a, b, item);
    UpdateKeepsId(WithDelta(note, a), item);
    var next, last := Update(WithDelta(note, a), item), Update(WithDelta(note, a + b), item);
    TextDeltaTouches(note, a, b, item);
    if next.Some? {
      FindUpdatedItem(turn.items, note.itemId, next.value, last.value);
    }
    hide Update, UpdatedItems, CurrentItem;
  }

  lemma TextDeltaTouches(note: Note, a: string, b: string, existing: Option<Item>)
    requires IsTextDelta(note)
    ensures Update(WithDelta(note, a), existing).None? <==> Update(WithDelta(note, b), existing).None?
    ensures Update(WithDelta(note, a), existing).None? <==> Update(WithDelta(note, a + b), existing).None?
  {
  }

  lemma SplitUpdate(turns: seq<Turn>, note: Note, a: string, b: string)
    requires IsTextDelta(note)
    ensures var once := UpdateTurns(turns, WithDelta(note, a + b));
            var first := UpdateTurns(turns, WithDelta(note, a));
            && (first.None? <==> once.None?)
            && (first.Some? ==> UpdateTurns(first.value, WithDelta(note, b)) == once)
  {
    var turn := CurrentTurn(turns, note.turnId);
    UpdateTurnsIsPut(turns, WithDelta(note, a));
    UpdateTurnsIsPut(turns, WithDelta(note, a + b));
    SplitTurn(turn, note, a, b);
    var first, once := UpdatedTurn(turn, WithDelta(note, a)), UpdatedTurn(turn, WithDelta(note, a + b));
    if first.Some? {
      FindPutTurn(turns, first.value, once.value);
      UpdateTurnsIsPut(PutAt(turns, first.value), WithDelta(note, b));
    }
    hide UpdateTurns, UpdatedTurn, PutAt, CurrentTurn;
  }

  // A text delta may arrive in two pieces,
  lemma SplitDelta(s: State, note: Note, a: string, b: string)
    requires IsTextDelta(note)
    ensures Reduce(Reduce(s, WithDelta(note, a)), WithDelta(note, b)) == Reduce(s, WithDelta(note, a + b))
  {
    SplitUpdate(s.turns, note, a, b);
    hide UpdateTurns;
  }

  function Pieces(note: Note, pieces: seq<string>): (r: seq<Note>)
    requires IsTextDelta(note)
    ensures |r| == |pieces|
    ensures forall i :: 0 <= i < |r| ==> r[i] == WithDelta(note, pieces[i])
  {
    seq(|pieces|, i requires 0 <= i < |pieces| => WithDelta(note, pieces[i]))
  }

  function Joined(pieces: seq<string>): string {
    if pieces == [] then "" else pieces[0] + Joined(pieces[1..])
  }

  // or in any number of pieces, without a difference to the final state.
  lemma {:induction false} PiecesMakeTheWhole(s: State, note: Note, pieces: seq<string>)
    requires IsTextDelta(note) && pieces != []
    ensures FoldAll(Reduce, s, Pieces(note, pieces)) == Reduce(s, WithDelta(note, Joined(pieces)))
    decreases |pieces|
  {
    hide Reduce;
    var notes := Pieces(note, pieces);
    if |pieces| == 1 {
      assert Joined(pieces) == pieces[0] + "" == pieces[0];
      assert notes[1..] == [];
    } else {
      var merged := [pieces[0] + pieces[1]] + pieces[2..];
      SplitDelta(s, note, pieces[0], pieces[1]);
      PiecesMakeTheWhole(s, note, merged);
      var notes' := Pieces(note, merged);
      assert notes[1..][1..] == notes'[1..];
      assert pieces[1..][1..] == pieces[2..];
      assert pieces[0] + (pieces[1] + Joined(pieces[2..])) == (pieces[0] + pieces[1]) + Joined(pieces[2..]);
      assert merged[1..] == pieces[2..];
      var first := Reduce(s, notes[0]);
      assert FoldAll(Reduce, s, notes) == FoldAll(Reduce, first, notes[1..]);
      assert FoldAll(Reduce, first, notes[1..]) == FoldAll(Reduce, Reduce(first, notes[1]), notes[1..][1..]);
    }
  }

  // ---- Merging turns ---------------------------------------------------------------------------------------

  ghost predicate DistinctTurns(turns: seq<Turn>) {
    forall i, j :: 0 <= i < j < |turns| ==> turns[i].id != turns[j].id
  }

  ghost predicate DistinctItems(items: seq<Item>) {
    forall i, j :: 0 <= i < j < |items| ==> items[i].id != items[j].id
  }

  // The turns are kept in their places, and at most one is appended.
  ghost predicate KeepsPlaces(turns: seq<Turn>, turns': seq<Turn>) {
    && |turns| <= |turns'| <= |turns| + 1
    && (forall i :: 0 <= i < |turns| ==> turns'[i].id == turns[i].id)
    && (DistinctTurns(turns) ==> DistinctTurns(turns'))
  }

  lemma PutAtKeepsPlaces(turns: seq<Turn>, turn: Turn)
    ensures KeepsPlaces(turns, PutAt(turns, turn))
  {
  }

  // No notification duplicates a turn, and none but a reversion removes or reorders one.
  lemma TurnsKeepTheirPlaces(s: State, note: Note)
    requires !note.Reverted?
    ensures KeepsPlaces(s.turns, Reduce(s, note).turns)
  {
    if IsItemNote(note) {
      UpdateTurnsIsPut(s.turns, note);
      var turn := UpdatedTurn(CurrentTurn(s.turns, note.turnId), note);
      if turn.Some? {
        PutAtKeepsPlaces(s.turns, turn.value);
      }
    } else if !note.Unrelated? {
      var turn := note.turn;
      PutTurnIsPut(s.turns, turn);
      PutAtKeepsPlaces(s.turns, MergedTurn(s.turns, turn));
    }
    hide UpdateTurns, UpdatedTurn, PutAt, CurrentTurn, PutTurn, MergedTurn;
  }

  function MergedTurn(turns: seq<Turn>, turn: Turn): (r: Turn)
    ensures r.id == turn.id
  {
    var index := FindTurn(turns, turn.id);
    if index.None? then turn else MergeTurn(turns[index.value], turn)
  }

  lemma PutTurnIsPut(turns: seq<Turn>, turn: Turn)
    ensures PutTurn(turns, turn) == PutAt(turns, MergedTurn(turns, turn))
  {
  }

  lemma {:induction false} ItemByIdFinds(items: seq<Item>, id: string)
    ensures ItemById(items, id).Some? ==> ItemById(items, id).value in items && ItemById(items, id).value.id == id
    ensures ItemById(items, id).None? <==> FindItem(items, id).None?
    ensures DistinctItems(items) && ItemById(items, id).Some? ==> items[FindItem(items, id).value] == ItemById(items, id).value
  {
    if items != [] {
      var init := items[..|items| - 1];
      ItemByIdFinds(init, id);
      if items[|items| - 1].id != id && FindItem(init, id).Some? {
        assert init[FindItem(init, id).value] == items[FindItem(init, id).value];
      }
      if FindItem(items, id).Some? && items[|items| - 1].id != id {
        assert init[FindItem(items, id).value].id == id;
      }
    }
  }

  // A summary of a turn never takes away an item that was there, nor its place; it only adds
  // items and brings newer versions.
  lemma SummaryKeepsItems(existing: Turn, incoming: Turn)
    requires incoming.itemsView == Some(Summary) && !incoming.partial
    ensures var merged := MergeTurn(existing, incoming);
            && merged.id == incoming.id
            && |existing.items| <= |merged.items|
            && (forall i :: 0 <= i < |existing.items| ==>
                  && merged.items[i].id == existing.items[i].id
                  && (merged.items[i] == existing.items[i] || merged.items[i] in incoming.items))
            && (forall item <- incoming.items :: FindItem(merged.items, item.id).Some?)
            && (existing.itemsView == Some(Full) ==> merged.itemsView == Some(Full))
  {
    var merged := MergeTurn(existing, incoming);
    forall i | 0 <= i < |existing.items| ensures merged.items[i].id == existing.items[i].id
      && (merged.items[i] == existing.items[i] || merged.items[i] in incoming.items) {
      ItemByIdFinds(incoming.items, existing.items[i].id);
      assert merged.items[i] == Replaced(existing.items, incoming.items)[i];
    }
    forall item <- incoming.items ensures FindItem(merged.items, item.id).Some? {
      var at := FindItem(existing.items, item.id);
      if at.Some? {
        assert merged.items[at.value].id == item.id;
      } else {
        assert item in NewItems(incoming.items, existing.items);
        assert item in merged.items;
      }
    }
  }

  lemma {:induction false} NothingNew(items: seq<Item>, known: seq<Item>)
    requires forall item <- items :: FindItem(known, item.id).Some?
    ensures NewItems(items, known) == []
  {
    if items != [] {
      NothingNew(items[1..], known);
    }
  }

  lemma MergedItemsAreStable(known: seq<Item>, incoming: seq<Item>)
    requires DistinctItems(incoming)
    ensures var merged := Replaced(known, incoming) + NewItems(incoming, known);
            Replaced(merged, incoming) == merged && NewItems(incoming, merged) == []
  {
    var replaced, new' := Replaced(known, incoming), NewItems(incoming, known);
    var merged := replaced + new';
    forall i | 0 <= i < |merged| ensures Replaced(merged, incoming)[i] == merged[i] {
      ItemByIdFinds(incoming, merged[i].id);
      if i < |known| {
        ItemByIdFinds(incoming, known[i].id);
        assert merged[i] == replaced[i];
      } else {
        assert merged[i] in new';
        var k :| 0 <= k < |incoming| && incoming[k] == merged[i];
        assert FindItem(incoming, merged[i].id) == Some(k);
      }
    }
    forall item <- incoming ensures FindItem(merged, item.id).Some? {
      var at := FindItem(known, item.id);
      if at.Some? {
        ItemByIdFinds(incoming, item.id);
        assert merged[at.value] == replaced[at.value] && replaced[at.value].id == item.id;
      } else {
        assert item in new' && item in merged;
      }
    }
    NothingNew(incoming, merged);
  }

  // Receiving the same turn twice is the same as receiving it once.
  lemma MergeIsIdempotent(existing: Turn, incoming: Turn)
    requires DistinctItems(incoming.items)
    ensures MergeTurn(MergeTurn(existing, incoming), incoming) == MergeTurn(existing, incoming)
  {
    match incoming.itemsView {
      case Some(Summary) =>
        if !incoming.partial {
          var once := MergeTurn(existing, incoming);
          var merged := Replaced(existing.items, incoming.items) + NewItems(incoming.items, existing.items);
          MergedItemsAreStable(existing.items, incoming.items);
          var none: seq<Item> := [];
          assert once.items == merged;
          assert MergeTurn(once, incoming).items == merged + none == merged;
        }
      case Some(NotLoaded) =>
      case Some(Full) =>
      case None =>
    }
  }

  // ---- What each notification does -----------------------------------------------------------------------------

  function ItemOf(s: State, turnId: string, itemId: string): Option<Item> {
    CurrentItem(CurrentTurn(s.turns, turnId).items, itemId)
  }

  // The texts of a list of parts, with the text appended to the one at the index; nothing else changes.
  ghost predicate AppendsAt(before: Option<seq<string>>, after: Option<seq<string>>, index: nat, delta: string) {
    var old' := if before.Some? then before.value else [];
    && after.Some?
    && |after.value| == (if index < |old'| then |old'| else index + 1)
    && (forall i :: 0 <= i < |after.value| ==>
          after.value[i] == (if i < |old'| then old'[i] else "") + (if i == index then delta else ""))
  }

  // An item of another kind, or none, is replaced by an empty one first.
  function TextSoFar(item: Option<Item>): string {
    if item.Some? && (item.value.AgentMessage? || item.value.Plan?) then item.value.text else ""
  }

  function RestSoFar(item: Option<Item>): string {
    if item.Some? then item.value.rest else ""
  }

  // What the notification makes of the item it names.
  ghost predicate Shows(note: Note, before: Option<Item>, after: Option<Item>)
    requires IsItemNote(note)
  {
    match note
    case ItemReported(_, item) => after == Some(item)
    case AgentMessageDelta(_, id, delta) =>
      var known := if before.Some? && before.value.AgentMessage? then before else None;
      after == Some(AgentMessage(id, TextSoFar(known) + delta, RestSoFar(known)))
    case PlanDelta(_, id, delta) =>
      var known := if before.Some? && before.value.Plan? then before else None;
      after == Some(Plan(id, TextSoFar(known) + delta, RestSoFar(known)))
    case OutputDelta(_, id, delta) =>
      if before.Some? && before.value.CommandExecution? then
        after == Some(CommandExecution(id, Some((if before.value.output.Some? then before.value.output.value else "") + delta),
                                       before.value.rest))
      else after == before
    case PatchUpdated(_, id, changes) =>
      if before.Some? && before.value.FileChange? then after == Some(FileChange(id, changes, before.value.rest))
      else after == before
    case ReasoningPartAdded(_, id, index) => ExtendsReasoning(id, SummaryPart, index, "", before, after)
    case ReasoningDelta(_, id, part, index, delta) => ExtendsReasoning(id, part, index, delta, before, after)
  }

  // Only the named one of summary and content is extended.
  ghost predicate ExtendsReasoning(id: string, part: Part, index: nat, delta: string, before: Option<Item>, after: Option<Item>) {
    var known := before.Some? && before.value.Reasoning?;
    var summary := if known then before.value.summary else None;
    var content := if known then before.value.content else None;
    && after.Some? && after.value.Reasoning?
    && after.value.id == id && after.value.rest == (if known then before.value.rest else "")
    && (if part == SummaryPart then AppendsAt(summary, after.value.summary, index, delta) else after.value.summary == summary)
    && (if part == ContentPart then AppendsAt(content, after.value.content, index, delta) else after.value.content == content)
  }

  lemma UpdateShows(note: Note, before: Option<Item>)
    requires IsItemNote(note) && (before.Some? ==> before.value.id == ItemIdOf(note))
    ensures Shows(note, before, Update(note, before))
  {
    match note {
      case ReasoningPartAdded(_, id, index) => ReasoningExtends(before, id, SummaryPart, index, "");
      case ReasoningDelta(_, id, part, index, delta) => ReasoningExtends(before, id, part, index, delta);
      case AgentMessageDelta(_, _, delta) => assert "" + delta == delta;
      case PlanDelta(_, _, delta) => assert "" + delta == delta;
      case _ =>
    }
    hide ExtendsReasoning, ExtendedReasoning;
  }

  lemma ReasoningExtends(before: Option<Item>, id: string, part: Part, index: nat, delta: string)
    requires before.Some? ==> before.value.id == id
    ensures ExtendsReasoning(id, part, index, delta, before, Some(ExtendedReasoning(before, id, part, index, delta)))
  {
    hide ExtendedPart;
    var known := before.Some? && before.value.Reasoning?;
    PartExtends(if known then before.value.summary else None, index, delta);
    PartExtends(if known then before.value.content else None, index, delta);
    hide AppendsAt;
  }

  lemma PartExtends(parts: Option<seq<string>>, index: nat, delta: string)
    ensures AppendsAt(parts, Some(ExtendedPart(parts, index, delta)), index, delta)
  {
    var old' := if parts.Some? then parts.value else [];
    var r := ExtendedPart(parts, index, delta);
    forall i | 0 <= i < |r| ensures r[i] == (if i < |old'| then old'[i] else "") + (if i == index then delta else "") {
      assert i != index ==> r[i] + "" == r[i];
    }
    hide ExtendedPart;
  }

  // An item's notification changes the item it names as its kind demands, wherever the item is.
  lemma NoteShowsInItsItem(s: State, note: Note)
    requires IsItemNote(note)
    ensures Shows(note, ItemOf(s, note.turnId, ItemIdOf(note)), ItemOf(Reduce(s, note), note.turnId, ItemIdOf(note)))
  {
    var turn := CurrentTurn(s.turns, note.turnId);
    var before := CurrentItem(turn.items, ItemIdOf(note));
    UpdateShows(note, before);
    UpdateTurnsIsPut(s.turns, note);
    var next := Update(note, before);
    if next.Some? {
      UpdateKeepsId(note, before);
      FindUpdatedItem(turn.items, ItemIdOf(note), next.value, next.value);
      var turn' := UpdatedTurn(turn, note).value;
      FindPutTurn(s.turns, turn', turn');
    }
    hide Shows, Update, UpdateTurns, CurrentItem, CurrentTurn, UpdatedItems, PutAt;
  }

  lemma OtherItemsAreKept(items: seq<Item>, itemId: string, item: Item, other: string)
    requires item.id == itemId != other
    ensures CurrentItem(UpdatedItems(items, itemId, item), other) == CurrentItem(items, other)
  {
    var items' := UpdatedItems(items, itemId, item);
    var at := FindItem(items, other);
    if at.Some? {
      assert items'[at.value] == items[at.value];
      assert forall j :: 0 <= j < at.value ==> items'[j].id != other;
      assert FindItem(items', other) == at;
    } else {
      assert forall j :: 0 <= j < |items'| ==> items'[j].id != other;
    }
  }

  lemma OtherTurnsAreKept(turns: seq<Turn>, turn: Turn, other: string)
    requires turn.id != other
    ensures CurrentTurn(PutAt(turns, turn), other) == CurrentTurn(turns, other)
    ensures FindTurn(PutAt(turns, turn), other).Some? <==> FindTurn(turns, other).Some?
  {
    var turns' := PutAt(turns, turn);
    var at := FindTurn(turns, other);
    if at.Some? {
      assert turns'[at.value] == turns[at.value];
      assert forall j :: 0 <= j < at.value ==> turns'[j].id != other;
      assert FindTurn(turns', other) == at;
    } else {
      assert forall j :: 0 <= j < |turns'| ==> turns'[j].id != other;
    }
  }

  // Items keep their places, and at most one is appended.
  ghost predicate ItemsKeepPlaces(items: seq<Item>, items': seq<Item>) {
    && |items| <= |items'| <= |items| + 1
    && forall i :: 0 <= i < |items| ==> items'[i].id == items[i].id
  }

  // Nothing else of the conversation changes: no other turn, and of the turn no other item and nothing
  // but its items, none of which moves. A turn that was unknown is there with no other item.
  lemma NoteTouchesOnlyItsTurn(s: State, note: Note, turnId: string)
    requires IsItemNote(note)
    ensures var s' := Reduce(s, note);
            && (turnId != note.turnId ==> CurrentTurn(s'.turns, turnId) == CurrentTurn(s.turns, turnId)
                                          && (FindTurn(s'.turns, turnId).Some? <==> FindTurn(s.turns, turnId).Some?))
            && (s'.submitting, s'.stopping, s'.error) == (s.submitting, s.stopping, s.error)
  {
    UpdateTurnsIsPut(s.turns, note);
    var turn := UpdatedTurn(CurrentTurn(s.turns, note.turnId), note);
    if turn.Some? && turnId != note.turnId {
      OtherTurnsAreKept(s.turns, turn.value, turnId);
    }
    hide UpdateTurns, UpdatedTurn, CurrentTurn, PutAt;
  }

  lemma NoteTouchesOnlyItsItem(s: State, note: Note, itemId: string)
    requires IsItemNote(note)
    ensures var before, after := CurrentTurn(s.turns, note.turnId), CurrentTurn(Reduce(s, note).turns, note.turnId);
            && after == before.(items := after.items) && ItemsKeepPlaces(before.items, after.items)
            && (itemId != ItemIdOf(note) ==> CurrentItem(after.items, itemId) == CurrentItem(before.items, itemId))
  {
    var turn := CurrentTurn(s.turns, note.turnId);
    UpdateTurnsIsPut(s.turns, note);
    var turn' := UpdatedTurn(turn, note);
    if turn'.Some? {
      UpdatedTurnKeepsItems(turn, note, itemId);
      FindPutTurn(s.turns, turn'.value, turn'.value);
    }
    hide UpdateTurns, UpdatedTurn, CurrentItem, CurrentTurn, PutAt;
  }

  lemma UpdatedTurnKeepsItems(turn: Turn, note: Note, itemId: string)
    requires IsItemNote(note) && UpdatedTurn(turn, note).Some?
    ensures var after := UpdatedTurn(turn, note).value;
            && after == turn.(items := after.items) && ItemsKeepPlaces(turn.items, after.items)
            && (itemId != ItemIdOf(note) ==> CurrentItem(after.items, itemId) == CurrentItem(turn.items, itemId))
  {
    var before := CurrentItem(turn.items, ItemIdOf(note));
    var next := Update(note, before);
    UpdateKeepsId(note, before);
    ItemsStayInPlace(turn.items, ItemIdOf(note), next.value);
    if itemId != ItemIdOf(note) {
      OtherItemsAreKept(turn.items, ItemIdOf(note), next.value, itemId);
    }
    hide Update, UpdatedItems;
  }

  lemma ItemsStayInPlace(items: seq<Item>, itemId: string, item: Item)
    requires item.id == itemId
    ensures ItemsKeepPlaces(items, UpdatedItems(items, itemId, item))
  {
  }

  ghost predicate IsLastInProgress(turns: seq<Turn>, active: Option<string>) {
    match active
    case None => forall i :: 0 <= i < |turns| ==> !turns[i].inProgress
    case Some(id) =>
      exists i :: 0 <= i < |turns| && turns[i].inProgress && turns[i].id == id
                  && forall j :: i < j < |turns| ==> !turns[j].inProgress
  }

  lemma {:induction false} ActiveTurnIsLastInProgress(turns: seq<Turn>)
    ensures IsLastInProgress(turns, ActiveTurnId(turns))
  {
    if turns != [] {
      var n := |turns| - 1;
      if turns[n].inProgress {
        assert turns[n].id == ActiveTurnId(turns).value;
      } else {
        var init := turns[..n];
        ActiveTurnIsLastInProgress(init);
        if ActiveTurnId(init).Some? {
          var i :| 0 <= i < |init| && init[i].inProgress && init[i].id == ActiveTurnId(init).value
                   && forall j :: i < j < |init| ==> !init[j].inProgress;
          assert turns[i] == init[i];
          assert forall j :: i < j < |turns| ==> j == n || turns[j] == init[j];
        } else {
          assert forall j :: 0 <= j < |turns| ==> j == n || turns[j] == init[j];
        }
      }
    }
  }

  // After it, the active turn is the last one in progress; only a patch or output for an item that is
  // not there leaves everything as it is.
  lemma NoteFindsTheActiveTurn(s: State, note: Note)
    requires IsItemNote(note)
    ensures var s' := Reduce(s, note);
            if (note.OutputDelta? || note.PatchUpdated?) && ItemOf(s, note.turnId, note.itemId).None? then s' == s
            else IsLastInProgress(s'.turns, s'.activeTurnId)
  {
    UpdateTurnsIsPut(s.turns, note);
    var turns := UpdateTurns(s.turns, note);
    if turns.Some? {
      ActiveTurnIsLastInProgress(turns.value);
    }
    hide UpdateTurns, ActiveTurnId, IsLastInProgress, PutAt, CurrentTurn, CurrentItem, UpdatedItems;
  }

  // A turn that is started or completed is merged with what is known of it, or appended, and no other
  // turn changes. A started turn is the active one; a completed one no longer is, and nothing is being stopped.
  lemma TurnReportsChangeTheTurn(s: State, turn: Turn, other: string)
    ensures var known := FindTurn(s.turns, turn.id);
            var merged := if known.None? then turn else MergeTurn(s.turns[known.value], turn);
            forall note <- [TurnStarted(turn), TurnCompleted(turn)] ::
              var s' := Reduce(s, note);
              && s'.turns == (if known.None? then s.turns + [turn] else s.turns[known.value := merged])
              && CurrentTurn(s'.turns, turn.id) == merged
              && (other != turn.id ==> CurrentTurn(s'.turns, other) == CurrentTurn(s.turns, other))
              && (s'.submitting, s'.error) == (s.submitting, s.error)
              && s'.stopping == (note == TurnStarted(turn) && s.stopping)
              && s'.activeTurnId == (if note == TurnStarted(turn) then Some(turn.id)
                                     else if s.activeTurnId == Some(turn.id) then None else s.activeTurnId)
    ensures Reduce(s, Reverted) == State([], None, false, false, None) && Reduce(s, Unrelated) == s
  {
    var merged := MergedTurn(s.turns, turn);
    PutTurnIsPut(s.turns, turn);
    FindPutTurn(s.turns, merged, merged);
    if other != turn.id {
      OtherTurnsAreKept(s.turns, merged, other);
    }
    hide CurrentTurn, MergeTurn;
  }

  // What a turn's report replaces: everything, if it brings all items or is put together by the
  // application; all but the items, if it was not loaded; and with a summary, exactly the items that it
  // brings newer versions of, to which it adds the ones that were unknown.
  lemma MergeTakesTheNewer(existing: Turn, incoming: Turn)
    ensures incoming.itemsView in {None, Some(Full)} || incoming.partial ==> MergeTurn(existing, incoming) == incoming
    ensures incoming.itemsView == Some(NotLoaded) && !incoming.partial ==>
              MergeTurn(existing, incoming) ==
              incoming.(items := existing.items, itemsView := if existing.itemsView.None? then Some(Full) else existing.itemsView)
    ensures incoming.itemsView == Some(Summary) && !incoming.partial && DistinctItems(incoming.items) ==>
              var merged := MergeTurn(existing, incoming);
              && merged == incoming.(items := merged.items, partial := existing.partial,
                                     itemsView := if existing.itemsView == Some(Full) then Some(Full) else Some(Summary))
              && |merged.items| >= |existing.items|
              && (forall i :: 0 <= i < |existing.items| ==>
                    var newer := FindItem(incoming.items, existing.items[i].id);
                    merged.items[i] == if newer.Some? then incoming.items[newer.value] else existing.items[i])
              && (forall item :: item in merged.items[|existing.items|..] <==>
                                 item in incoming.items && FindItem(existing.items, item.id).None?)
  {
    if incoming.itemsView == Some(Summary) && !incoming.partial && DistinctItems(incoming.items) {
      var merged := MergeTurn(existing, incoming);
      forall i | 0 <= i < |existing.items|
        ensures var newer := FindItem(incoming.items, existing.items[i].id);
                merged.items[i] == if newer.Some? then incoming.items[newer.value] else existing.items[i]
      {
        ItemByIdFinds(incoming.items, existing.items[i].id);
        assert merged.items[i] == Replaced(existing.items, incoming.items)[i];
      }
      assert merged.items[|existing.items|..] == NewItems(incoming.items, existing.items);
    }
    hide DistinctItems, FindItem, Replaced, NewItems;
  }

  // The unknown items are added in the order they came in.
  lemma {:induction false} NewItemsInOrder(items: seq<Item>, known: seq<Item>) returns (positions: seq<nat>)
    ensures Embeds(positions, NewItems(items, known), items)
  {
    positions := [];
    if items != [] {
      hide Embeds;
      var rest := NewItemsInOrder(items[1..], known);
      positions := EmbedsBehind(rest, NewItems(items[1..], known), items);
      if FindItem(known, items[0].id).None? {
        EmbedsFirst(positions, NewItems(items[1..], known), items);
        positions := [0] + positions;
      }
    }
  }

  // Exactly the five kinds of text deltas wait for the frame; any other notification is applied at
  // once, after what was waiting.
  lemma DeltasWait(feed: Feed<State, Note>, note: Note)
    requires !feed.resuming
    ensures var after := Step(Reduce, IsTextDelta, feed, Arrives(note));
            if note.AgentMessageDelta? || note.PlanDelta? || note.OutputDelta? || note.ReasoningDelta? then
              after == feed.(queued := feed.queued + [note], frame := true)
            else
              after == feed.(shown := Reduce(FoldAll(Reduce, feed.shown, feed.queued), note), queued := [], frame := false)
  {
    if !IsTextDelta(note) {
      FoldConcat(Reduce, feed.shown, feed.queued, [note]);
      assert [note][1..] == [];
      assert FoldAll(Reduce, FoldAll(Reduce, feed.shown, feed.queued), [note])
          == Reduce(FoldAll(Reduce, feed.shown, feed.queued), note);
    }
    hide Reduce;
  }

  // ---- The conversation view's feed --------------------------------------------------------------------------

  datatype ViewEvent =
    | Notified(note: Note)
    | Frame
    | FlagsSet(submitting: Option<bool>, stopping: Option<bool>, error: Option<Option<string>>)
    | ThreadSwitched(shown: State)

  function WithFlags(event: ViewEvent): State -> State
    requires event.FlagsSet?
  {
    (s: State) => s.(submitting := if event.submitting.Some? then event.submitting.value else s.submitting,
                     stopping := if event.stopping.Some? then event.stopping.value else s.stopping,
                     error := if event.error.Some? then event.error.value else s.error)
  }

  function ToEvent(event: ViewEvent): Event<State, Note> {
    match event
    case Notified(note) => Arrives(note)
    case Frame => FrameFires
    case FlagsSet(_, _, _) => Touches(WithFlags(event))
    case ThreadSwitched(shown) => Switches(shown, false)
  }

  function ToEvents(events: seq<ViewEvent>): (r: seq<Event<State, Note>>)
    ensures |r| == |events|
    ensures forall i :: 0 <= i < |r| ==> r[i] == ToEvent(events[i])
  {
    seq(|events|, i requires 0 <= i < |events| => ToEvent(events[i]))
  }

  lemma FlagsCommute(event: ViewEvent, notes: seq<Note>)
    requires event.FlagsSet? && forall i :: 0 <= i < |notes| ==> IsTextDelta(notes[i])
    ensures Commutes(Reduce, WithFlags(event), notes)
  {
    forall s, i | 0 <= i < |notes| ensures Reduce(WithFlags(event)(s), notes[i]) == WithFlags(event)(Reduce(s, notes[i])) {
      assert IsItemNote(notes[i]);
      hide UpdateTurns;
    }
  }

  lemma {:induction false} ViewEventsAreAllowed(feed: Feed<State, Note>, events: seq<ViewEvent>)
    requires !feed.resuming && feed.early == [] && QueuesDeltas(IsTextDelta, feed)
    ensures AllAllowed(Reduce, IsTextDelta, feed, ToEvents(events))
    decreases |events|
  {
    hide Reduce;
    if events != [] {
      var event := ToEvents(events)[0];
      if events[0].FlagsSet? {
        FlagsCommute(events[0], feed.early);
        FlagsCommute(events[0], feed.queued);
      }
      StepQueuesDeltas(Reduce, IsTextDelta, feed, event);
      assert ToEvents(events)[1..] == ToEvents(events[1..]);
      ViewEventsAreAllowed(Step(Reduce, IsTextDelta, feed, event), events[1..]);
    }
  }

  // Frames are invisible in the conversation view, with its other state changing in between and the
  // thread being switched: each frame brings exactly the state of applying everything on arrival.
  lemma FramesAreInvisible(s: State, events: seq<ViewEvent>)
    ensures var feed := Run(Reduce, IsTextDelta, StartFeed(s, false), ToEvents(events));
            var seen := ObserveAll(Reduce, Observer(s, false, []), ToEvents(events));
            && !feed.resuming
            && (!feed.frame ==> feed.shown == seen.s)
            && Step(Reduce, IsTextDelta, feed, FrameFires).shown == seen.s
  {
    ViewEventsAreAllowed(StartFeed(s, false), events);
    BatchingIsInvisible(Reduce, IsTextDelta, s, false, ToEvents(events));
    NeverResumes(StartFeed(s, false), events);
    hide Step, Reduce;
  }

  lemma {:induction false} NeverResumes(feed: Feed<State, Note>, events: seq<ViewEvent>)
    requires !feed.resuming
    ensures !Run(Reduce, IsTextDelta, feed, ToEvents(events)).resuming
    decreases |events|
  {
    if events != [] {
      assert ToEvents(events)[1..] == ToEvents(events[1..]);
      NeverResumes(Step(Reduce, IsTextDelta, feed, ToEvents(events)[0]), events[1..]);
    }
  }

  // The subscription of the conversation view.
  class ConversationFeed {
    var state: State
    var queued: seq<Note>
    var frame: bool

    ghost function View(): Feed<State, Note>
      reads this
    {
      Feed(state, false, [], queued, frame)
    }

    constructor (initial: State)
      ensures View() == StartFeed(initial, false)
    {
      state, queued, frame := initial, [], false;
    }

    method Apply(notes: seq<Note>)
      modifies this`state
      ensures state == old(FoldAll(Reduce, state, notes))
    {
      var i := 0;
      while i < |notes|
        invariant 0 <= i <= |notes|
        invariant FoldAll(Reduce, state, notes[i..]) == old(FoldAll(Reduce, state, notes))
      {
        assert notes[i..][1..] == notes[i + 1..];
        state := Reduce(state, notes[i]);
        i := i + 1;
      }
    }

    // The old subscription ends: its frame is cancelled and its queue thrown away.
    method SwitchThread(shown: State)
      modifies this
      ensures View() == old(Step(Reduce, IsTextDelta, View(), Switches(shown, false)))
    {
      state, queued, frame := shown, [], false;
    }

    method OnNotification(note: Note)
      modifies this
      ensures View() == old(Step(Reduce, IsTextDelta, View(), Arrives(note)))
    {
      if IsTextDelta(note) {
        queued, frame := queued + [note], true;
        return;
      }
      var pending := queued + [note];
      queued, frame := [], false;
      Apply(pending);
    }

    method Flush()
      requires frame
      modifies this
      ensures View() == old(Step(Reduce, IsTextDelta, View(), FrameFires))
    {
      var pending := queued;
      queued, frame := [], false;
      Apply(pending);
    }
  }
}
