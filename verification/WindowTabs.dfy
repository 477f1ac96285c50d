/**
  Window states and tabs: what the repository accepts, and what the controller predicts.
  Sources: src-tauri/src/window_state.rs (validate_tabs, open_tab_for_server) and
  src/app/useWindowState.ts (applyTabsMutation, sameTabs, assertMutationResult).
 */
module WindowTabs {
  import opened Prelude

  const MAX_SAFE_INTEGER: nat := 9_007_199_254_740_991
  const MAX_THREAD_ID_BYTES: nat := 1024
  const MAX_TAB_ID_BYTES: nat := 64
  const MAX_TABS: nat := 100

  type ServerId = string

  datatype Tab = Tab(id: string, threadId: Option<string>)

  datatype WindowState = WindowState(windowId: string, version: nat, serverId: Option<ServerId>,
                                     tabs: seq<Tab>, activeTabId: Option<string>, updatedAtMs: nat)

  datatype RepositoryError =
    | InvalidVersion | InvalidTabs | InvalidThreadId | TabsWithoutServer | WindowNotFound
    | ServerNotFound | ServerAlreadyOpen(windowId: string) | VersionConflict | Corrupt | Database

  // ---- Validation on the repository side ------------------------------------------------------

  // A text is a sequence of UTF-8 bytes, one char per byte.
  predicate ValidText(text: string, maxBytes: nat) {
    text != "" && |text| <= maxBytes && '\0' !in text
  }

  predicate ValidOptionalText(text: Option<string>, maxBytes: nat) {
    text.Some? ==> ValidText(text.value, maxBytes)
  }

  ghost predicate DistinctIds(tabs: seq<Tab>) {
    forall i, j :: 0 <= i < j < |tabs| ==> tabs[i].id != tabs[j].id
  }

  ghost predicate DistinctThreads(tabs: seq<Tab>) {
    forall i, j :: 0 <= i < j < |tabs| && tabs[i].threadId.Some? ==> tabs[i].threadId != tabs[j].threadId
  }

  ghost predicate ValidTexts(tabs: seq<Tab>) {
    forall tab <- tabs ::
      ValidText(tab.id, MAX_TAB_ID_BYTES) && ValidOptionalText(tab.threadId, MAX_THREAD_ID_BYTES)
  }

  ghost predicate ValidTabs(tabs: seq<Tab>, activeTabId: string) {
    && 1 <= |tabs| <= MAX_TABS
    && ValidTexts(tabs)
    && DistinctIds(tabs)
    && DistinctThreads(tabs)
    && exists tab <- tabs :: tab.id == activeTabId
  }

  // The error for one tab, given the ids and threads of the tabs before it.
  function TabError(tab: Tab, ids: set<string>, threads: set<string>): Option<RepositoryError> {
    if !ValidText(tab.id, MAX_TAB_ID_BYTES) then Some(InvalidTabs)
    else if !ValidOptionalText(tab.threadId, MAX_THREAD_ID_BYTES) then Some(InvalidThreadId)
    else if tab.id in ids || (tab.threadId.Some? && tab.threadId.value in threads) then Some(InvalidTabs)
    else None
  }

  function Ids(tabs: seq<Tab>): (r: set<string>) {
    set tab <- tabs :: tab.id
  }

  function Threads(tabs: seq<Tab>): (r: set<string>) {
    set tab | tab in tabs && tab.threadId.Some? :: tab.threadId.value
  }

  // The first error in tab order among tabs[i..].
  function FirstTabError(tabs: seq<Tab>, i: nat): Option<RepositoryError>
    requires i <= |tabs|
    decreases |tabs| - i
  {
    if i == |tabs| then None
    else
      var error := TabError(tabs[i], Ids(tabs[..i]), Threads(tabs[..i]));
      if error.Some? then error else FirstTabError(tabs, i + 1)
  }

  function TabsError(tabs: seq<Tab>, activeTabId: string): Option<RepositoryError> {
    if tabs == [] || |tabs| > MAX_TABS then Some(InvalidTabs)
    else if !ValidText(activeTabId, MAX_TAB_ID_BYTES) then Some(InvalidTabs)
    else if FirstTabError(tabs, 0).Some? then FirstTabError(tabs, 0)
    else if activeTabId !in Ids(tabs) then Some(InvalidTabs)
    else None
  }

  method ValidateTabs(tabs: seq<Tab>, activeTabId: string) returns (error: Option<RepositoryError>)
    ensures error == TabsError(tabs, activeTabId)
  {
    if tabs == [] || |tabs| > MAX_TABS {
      return Some(InvalidTabs);
    }
    if !ValidText(activeTabId, MAX_TAB_ID_BYTES) {
      return Some(InvalidTabs);
    }
    var tabIds: set<string> := {};
    var threadIds: set<string> := {};
    for i := 0 to |tabs|
      invariant tabIds == Ids(tabs[..i]) && threadIds == Threads(tabs[..i])
      invariant FirstTabError(tabs, 0) == FirstTabError(tabs, i)
    {
      var tab := tabs[i];
      if !ValidText(tab.id, MAX_TAB_ID_BYTES) {
        return Some(InvalidTabs);
      }
      if !ValidOptionalText(tab.threadId, MAX_THREAD_ID_BYTES) {
        return Some(InvalidThreadId);
      }
      if tab.id in tabIds {
        return Some(InvalidTabs);
      }
      assert tabs[..i + 1] == tabs[..i] + [tab];
      tabIds := tabIds + {tab.id};
      if tab.threadId.Some? {
        if tab.threadId.value in threadIds {
          return Some(InvalidTabs);
        }
        threadIds := threadIds + {tab.threadId.value};
      }
    }
    assert tabs[..|tabs|] == tabs;
    if activeTabId !in tabIds {
      return Some(InvalidTabs);
    }
    return None;
  }

  ghost predicate ValidUpTo(tabs: seq<Tab>) {
    ValidTexts(tabs) && DistinctIds(tabs) && DistinctThreads(tabs)
  }

  lemma SnocIds(before: seq<Tab>, tab: Tab)
    requires DistinctIds(before)
    ensures DistinctIds(before + [tab]) <==> tab.id !in Ids(before)
  {
    var after := before + [tab];
    if tab.id in Ids(before) {
      var i :| 0 <= i < |before| && before[i].id == tab.id;
      assert after[i].id == after[|before|].id;
    } else {
      assert forall i :: 0 <= i < |before| ==> before[i].id in Ids(before);
    }
  }

  lemma SnocThreads(before: seq<Tab>, tab: Tab)
    requires DistinctThreads(before)
    ensures DistinctThreads(before + [tab]) <==> !(tab.threadId.Some? && tab.threadId.value in Threads(before))
  {
    var after := before + [tab];
    if tab.threadId.Some? && tab.threadId.value in Threads(before) {
      var i :| 0 <= i < |before| && before[i].threadId == tab.threadId;
      assert after[i].threadId == after[|before|].threadId;
    } else {
      forall i | 0 <= i < |before| && before[i].threadId.Some?
        ensures before[i].threadId != tab.threadId
      {
        assert before[i].threadId.value in Threads(before);
      }
    }
  }

  lemma SnocTexts(before: seq<Tab>, tab: Tab)
    requires ValidTexts(before)
    ensures ValidTexts(before + [tab]) <==>
            ValidText(tab.id, MAX_TAB_ID_BYTES) && ValidOptionalText(tab.threadId, MAX_THREAD_ID_BYTES)
  {
    assert tab in before + [tab];
    assert forall t <- before + [tab] :: t == tab || t in before;
  }

  lemma TabErrorSays(tabs: seq<Tab>, i: nat)
    requires i < |tabs| && ValidUpTo(tabs[..i])
    ensures TabError(tabs[i], Ids(tabs[..i]), Threads(tabs[..i])).None? <==> ValidUpTo(tabs[..i + 1])
  {
    hide ValidTexts, DistinctIds, DistinctThreads;
    SnocIds(tabs[..i], tabs[i]);
    SnocThreads(tabs[..i], tabs[i]);
    SnocTexts(tabs[..i], tabs[i]);
    assert tabs[..i + 1] == tabs[..i] + [tabs[i]];
  }

  lemma {:induction false} FirstTabErrorSays(tabs: seq<Tab>, i: nat)
    requires i <= |tabs| && ValidUpTo(tabs[..i])
    ensures FirstTabError(tabs, i).None? <==> ValidUpTo(tabs)
    decreases |tabs| - i
  {
    if i == |tabs| {
      assert tabs[..i] == tabs;
    } else {
      TabErrorSays(tabs, i);
      if ValidUpTo(tabs[..i + 1]) {
        FirstTabErrorSays(tabs, i + 1);
      } else {
        PrefixIsValid(tabs, i + 1);
      }
    }
  }

  lemma PrefixIsValid(tabs: seq<Tab>, n: nat)
    requires n <= |tabs|
    ensures ValidUpTo(tabs) ==> ValidUpTo(tabs[..n])
  {
    assert forall j :: 0 <= j < n ==> tabs[..n][j] == tabs[j];
    assert forall tab <- tabs[..n] :: tab in tabs;
  }

  // The validation loop accepts exactly the valid tab lists.
  lemma TabsErrorIffInvalid(tabs: seq<Tab>, activeTabId: string)
    ensures TabsError(tabs, activeTabId).None? <==> ValidTabs(tabs, activeTabId)
  {
    assert tabs[..0] == [];
    FirstTabErrorSays(tabs, 0);
  }

  // What that means: up to a hundred tabs with different ids, and threads shown once at most; an id has
  // 1 to 64 bytes, a thread 1 to 1024, none of them zero; the active tab is one of them.
  lemma ValidTabsAre(tabs: seq<Tab>, activeTabId: string)
    ensures ValidTabs(tabs, activeTabId) <==>
            && 1 <= |tabs| <= 100
            && (forall i :: 0 <= i < |tabs| ==> 1 <= |tabs[i].id| <= 64 && '\0' !in tabs[i].id)
            && (forall i :: 0 <= i < |tabs| && tabs[i].threadId.Some? ==>
                  1 <= |tabs[i].threadId.value| <= 1024 && '\0' !in tabs[i].threadId.value)
            && (forall i, j :: 0 <= i < j < |tabs| ==> tabs[i].id != tabs[j].id)
            && (forall i, j :: 0 <= i < j < |tabs| && tabs[i].threadId.Some? ==> tabs[i].threadId != tabs[j].threadId)
            && (exists i :: 0 <= i < |tabs| && tabs[i].id == activeTabId)
  {
    TextsAre(tabs);
    hide ValidTexts;
  }

  lemma TextsAre(tabs: seq<Tab>)
    ensures ValidTexts(tabs) <==>
            && (forall i :: 0 <= i < |tabs| ==> 1 <= |tabs[i].id| <= 64 && '\0' !in tabs[i].id)
            && (forall i :: 0 <= i < |tabs| && tabs[i].threadId.Some? ==>
                  1 <= |tabs[i].threadId.value| <= 1024 && '\0' !in tabs[i].threadId.value)
  {
    if ValidTexts(tabs) {
      forall i | 0 <= i < |tabs| ensures ValidText(tabs[i].id, 64) && ValidOptionalText(tabs[i].threadId, 1024) {
        assert tabs[i] in tabs;
      }
    }
  }

  // ---- Predictions on the controller side -------------------------------------------------------

  datatype Mutation =
    | BindServer(serverId: Option<ServerId>)
    | ReplaceActiveThread(threadId: Option<string>)
    | OpenTab(tab: Tab)
    | ActivateTab(tabId: string)
    | CloseTab(tabId: string, replacementTabId: string)
    | CloseTabs(tabIds: set<string>, activeTabId: string)
    | AttachThread(tabId: string, thread: string)

  datatype ControllerError = StateUnavailable | OperationFailed | ServerIsAlreadyOpen

  datatype TabsResult = TabsResult(tabs: seq<Tab>, activeTabId: string)

  function SameTabs(left: seq<Tab>, right: seq<Tab>): (same: bool)
    ensures same <==> left == right
  {
    |left| == |right|
    && forall i :: 0 <= i < |left| ==> left[i].id == right[i].id && left[i].threadId == right[i].threadId
  }

  // The index of the first tab showing a thread, or |tabs|.
  function FindThread(tabs: seq<Tab>, threadId: Option<string>): (i: nat)
    ensures i <= |tabs|
    ensures i < |tabs| ==> tabs[i].threadId == threadId
    ensures forall j :: 0 <= j < i ==> tabs[j].threadId != threadId
  {
    if tabs == [] || tabs[0].threadId == threadId then 0 else 1 + FindThread(tabs[1..], threadId)
  }

  function FindId(tabs: seq<Tab>, id: string): (i: nat)
    ensures i <= |tabs|
    ensures i < |tabs| ==> tabs[i].id == id
    ensures forall j :: 0 <= j < i ==> tabs[j].id != id
  {
    if tabs == [] || tabs[0].id == id then 0 else 1 + FindId(tabs[1..], id)
  }

  function WithoutIds(tabs: seq<Tab>, ids: set<string>): (r: seq<Tab>)
    ensures |r| <= |tabs|
    ensures forall tab :: tab in r <==> tab in tabs && tab.id !in ids
    ensures (forall tab <- tabs :: tab.id !in ids) ==> r == tabs
    ensures (exists tab <- tabs :: tab.id in ids) ==> |r| < |tabs|
  {
    if tabs == [] then []
    else
      assert tabs == [tabs[0]] + tabs[1..];
      if tabs[0].id in ids then WithoutIds(tabs[1..], ids)
      else [tabs[0]] + WithoutIds(tabs[1..], ids)
  }

  function WithThread(tabs: seq<Tab>, id: string, threadId: Option<string>): (r: seq<Tab>)
    ensures |r| == |tabs|
    ensures forall i :: 0 <= i < |tabs| ==>
              r[i] == if tabs[i].id == id then tabs[i].(threadId := threadId) else tabs[i]
  {
    seq(|tabs|, i requires 0 <= i < |tabs| =>
      if tabs[i].id == id then tabs[i].(threadId := threadId) else tabs[i])
  }

  // `tabs.find(...)` of the thread, then activate it unless it is active already.
  function ActivateExisting(tabs: seq<Tab>, index: nat, activeTabId: string): Option<TabsResult>
    requires index < |tabs|
  {
    if tabs[index].id == activeTabId then None else Some(TabsResult(tabs, tabs[index].id))
  }

  function ApplyTabsMutation(state: WindowState, mutation: Mutation): Result<Option<TabsResult>, ControllerError>
    requires !mutation.BindServer?
  {
    if state.serverId.None? || state.activeTabId.None? then Err(StateUnavailable)
    else
      var tabs, active := state.tabs, state.activeTabId.value;
      match mutation
      case ReplaceActiveThread(threadId) =>
        var existing := if threadId.None? then |tabs| else FindThread(tabs, threadId);
        if existing < |tabs| then Ok(ActivateExisting(tabs, existing, active))
        else
          var replaced := WithThread(tabs, active, threadId);
          Ok(if SameTabs(replaced, tabs) then None else Some(TabsResult(replaced, active)))
      case OpenTab(tab) =>
        var existing := if tab.threadId.None? then |tabs| else FindThread(tabs, tab.threadId);
        if existing < |tabs| then Ok(ActivateExisting(tabs, existing, active))
        else Ok(Some(TabsResult(tabs + [tab], tab.id)))
      case ActivateTab(tabId) =>
        if FindId(tabs, tabId) == |tabs| then Err(OperationFailed)
        else Ok(if tabId == active then None else Some(TabsResult(tabs, tabId)))
      case CloseTab(tabId, replacementTabId) =>
        var index := FindId(tabs, tabId);
        if index == |tabs| then Ok(None)
        else if |tabs| == 1 then Ok(Some(TabsResult([Tab(replacementTabId, None)], replacementTabId)))
        else
          var rest := WithoutIds(tabs, {tabId});
          if tabId != active then Ok(Some(TabsResult(rest, active)))
          else if index < |rest| then Ok(Some(TabsResult(rest, rest[index].id)))
          else if 0 < index <= |rest| then Ok(Some(TabsResult(rest, rest[index - 1].id)))
          else Err(OperationFailed)
      case CloseTabs(tabIds, activeTabId) =>
        var rest := WithoutIds(tabs, tabIds);
        if SameTabs(rest, tabs) then Ok(None)
        else if rest == [] || FindId(rest, activeTabId) == |rest| then Err(OperationFailed)
        else Ok(Some(TabsResult(rest, activeTabId)))
      case AttachThread(tabId, thread) =>
        var source := FindId(tabs, tabId);
        if source == |tabs| then Err(OperationFailed)
        else
          var others := WithoutIds(tabs, {tabId});
          var existing := FindThread(others, Some(thread));
          if existing < |others| then Ok(Some(TabsResult(others, others[existing].id)))
          else if tabs[source].threadId == Some(thread) then Ok(None)
          else Ok(Some(TabsResult(WithThread(tabs, tabId, Some(thread)), active)))
  }

  // The check of a reply against the prediction: true when nothing is thrown.
  predicate MutationResultAccepted(previous: WindowState, next: WindowState, mutation: Mutation) {
    && next.windowId == previous.windowId
    && next.version == previous.version + 1
    && next.updatedAtMs >= previous.updatedAtMs
    && match mutation
       case BindServer(serverId) => next.serverId == serverId
       case _ =>
         var expected := ApplyTabsMutation(previous, mutation);
         && expected.Ok? && expected.value.Some?
         && next.serverId == previous.serverId
         && next.activeTabId == Some(expected.value.value.activeTabId)
         && SameTabs(next.tabs, expected.value.value.tabs)
  }

  // ---- The prediction is acceptable to the repository ---------------------------------------------

  ghost predicate ValidWindow(state: WindowState) {
    match state.serverId
    case None => state.tabs == [] && state.activeTabId.None?
    case Some(_) => state.activeTabId.Some? && ValidTabs(state.tabs, state.activeTabId.value)
  }

  // Identifiers the application generates itself (random UUIDs) are new, and thread ids come from
  // the server as valid texts.
  ghost predicate SaneMutation(state: WindowState, mutation: Mutation) {
    match mutation
    case ReplaceActiveThread(threadId) => ValidOptionalText(threadId, MAX_THREAD_ID_BYTES)
    case OpenTab(tab) =>
      && ValidText(tab.id, MAX_TAB_ID_BYTES) && ValidOptionalText(tab.threadId, MAX_THREAD_ID_BYTES)
      && forall t <- state.tabs :: t.id != tab.id
    case CloseTab(_, replacementTabId) =>
      && ValidText(replacementTabId, MAX_TAB_ID_BYTES)
      && forall t <- state.tabs :: t.id != replacementTabId
    case AttachThread(_, thread) => ValidText(thread, MAX_THREAD_ID_BYTES)
    case _ => true
  }

  lemma {:induction false} WithoutIdsEmbeds(tabs: seq<Tab>, ids: set<string>) returns (positions: seq<nat>)
    ensures Embeds(positions, WithoutIds(tabs, ids), tabs)
  {
    if tabs == [] {
      positions := [];
    } else {
      var rest := WithoutIdsEmbeds(tabs[1..], ids);
      positions := EmbedsBehind(rest, WithoutIds(tabs[1..], ids), tabs);
      if tabs[0].id !in ids {
        EmbedsFirst(positions, WithoutIds(tabs[1..], ids), tabs);
        positions := [0] + positions;
      }
      hide Embeds;
    }
  }

  lemma WithoutIdsKeepsValid(tabs: seq<Tab>, ids: set<string>)
    requires ValidUpTo(tabs)
    ensures ValidUpTo(WithoutIds(tabs, ids))
  {
    var p := WithoutIdsEmbeds(tabs, ids);
  }

  lemma WithThreadKeepsValid(tabs: seq<Tab>, id: string, threadId: Option<string>)
    requires ValidUpTo(tabs) && ValidOptionalText(threadId, MAX_THREAD_ID_BYTES)
    requires threadId.Some? ==> forall tab <- tabs :: tab.id != id ==> tab.threadId != threadId
    ensures ValidUpTo(WithThread(tabs, id, threadId))
  {
    var r := WithThread(tabs, id, threadId);
    forall tab <- r
      ensures ValidText(tab.id, MAX_TAB_ID_BYTES) && ValidOptionalText(tab.threadId, MAX_THREAD_ID_BYTES)
    {
      var i :| 0 <= i < |r| && r[i] == tab;
      assert tabs[i] in tabs;
    }
    forall i, j | 0 <= i < j < |r| && r[i].threadId.Some?
      ensures r[i].threadId != r[j].threadId
    {
      assert tabs[i] in tabs && tabs[j] in tabs && tabs[i].id != tabs[j].id;
    }
  }

  lemma FindIdOf(tabs: seq<Tab>, id: string)
    ensures FindId(tabs, id) < |tabs| <==> exists tab <- tabs :: tab.id == id
  {
    if tab :| tab in tabs && tab.id == id {
      var i :| 0 <= i < |tabs| && tabs[i] == tab;
      assert FindId(tabs, id) <= i;
    }
    if FindId(tabs, id) < |tabs| {
      assert tabs[FindId(tabs, id)] in tabs;
    }
  }

  ghost predicate Sendable(state: WindowState, mutation: Mutation) {
    && !mutation.BindServer? && state.serverId.Some? && ValidWindow(state)
    && SaneMutation(state, mutation)
    && ApplyTabsMutation(state, mutation).Ok? && ApplyTabsMutation(state, mutation).value.Some?
  }

  function Sent(state: WindowState, mutation: Mutation): TabsResult
    requires Sendable(state, mutation)
  {
    ApplyTabsMutation(state, mutation).value.value
  }

  // Every change the controller predicts really is a change, so the repository's shortcut for an
  // unchanged request cannot answer it without committing.
  lemma PredictionIsAChange(state: WindowState, mutation: Mutation)
    requires Sendable(state, mutation)
    ensures var r := Sent(state, mutation);
            r.tabs != state.tabs || r.activeTabId != state.activeTabId.value
  {
    var tabs := state.tabs;
    match mutation
    case CloseTab(tabId, replacementTabId) =>
      FindIdOf(tabs, tabId);
      if |tabs| == 1 {
        assert tabs[0] in tabs;
      }
    case AttachThread(tabId, thread) =>
      FindIdOf(tabs, tabId);
      var source := FindId(tabs, tabId);
      if source < |tabs| {
        assert WithThread(tabs, tabId, Some(thread))[source].threadId == Some(thread);
      }
    case _ =>
  }

  lemma KeepsActive(tabs: seq<Tab>, active: string, after: seq<Tab>)
    requires exists tab <- tabs :: tab.id == active
    requires |after| == |tabs| && forall i :: 0 <= i < |tabs| ==> after[i].id == tabs[i].id
    ensures exists tab <- after :: tab.id == active
  {
    var tab :| tab in tabs && tab.id == active;
    var i :| 0 <= i < |tabs| && tabs[i] == tab;
    assert after[i] in after;
  }

  lemma ReplaceActiveThreadIsValid(state: WindowState, mutation: Mutation)
    requires mutation.ReplaceActiveThread? && Sendable(state, mutation)
    ensures ValidTabs(Sent(state, mutation).tabs, Sent(state, mutation).activeTabId)
  {
    var tabs, active, threadId := state.tabs, state.activeTabId.value, mutation.threadId;
    var existing := if threadId.None? then |tabs| else FindThread(tabs, threadId);
    if existing < |tabs| {
      assert tabs[existing] in tabs;
    } else {
      assert threadId.Some? ==> forall tab <- tabs :: tab.threadId != threadId;
      WithThreadKeepsValid(tabs, active, threadId);
      KeepsActive(tabs, active, WithThread(tabs, active, threadId));
    }
  }

  lemma OpenTabIsValidIffRoom(state: WindowState, mutation: Mutation)
    requires mutation.OpenTab? && Sendable(state, mutation)
    ensures ValidTabs(Sent(state, mutation).tabs, Sent(state, mutation).activeTabId)
            <==> (|state.tabs| < MAX_TABS || Sent(state, mutation).tabs == state.tabs)
  {
    var tabs, tab := state.tabs, mutation.tab;
    var existing := if tab.threadId.None? then |tabs| else FindThread(tabs, tab.threadId);
    if existing < |tabs| {
      assert tabs[existing] in tabs;
    } else {
      SnocIds(tabs, tab);
      SnocThreads(tabs, tab);
      SnocTexts(tabs, tab);
      assert tab in tabs + [tab];
    }
  }

  lemma CloseTabIsValid(state: WindowState, mutation: Mutation)
    requires mutation.CloseTab? && Sendable(state, mutation)
    ensures ValidTabs(Sent(state, mutation).tabs, Sent(state, mutation).activeTabId)
  {
    var tabs, tabId, r := state.tabs, mutation.tabId, Sent(state, mutation);
    if |tabs| == 1 {
      assert Tab(mutation.replacementTabId, None) in r.tabs;
    } else {
      FindIdOf(tabs, tabId);
      RemovingOneTab(tabs, tabId);
      if tabId != state.activeTabId.value {
        var tab :| tab in tabs && tab.id == state.activeTabId.value;
        assert tab in r.tabs;
      }
    }
  }

  lemma CloseTabsIsValid(state: WindowState, mutation: Mutation)
    requires mutation.CloseTabs? && Sendable(state, mutation)
    ensures ValidTabs(Sent(state, mutation).tabs, Sent(state, mutation).activeTabId)
  {
    WithoutIdsKeepsValid(state.tabs, mutation.tabIds);
    FindIdOf(Sent(state, mutation).tabs, mutation.activeTabId);
  }

  lemma AttachThreadIsValid(state: WindowState, mutation: Mutation)
    requires mutation.AttachThread? && Sendable(state, mutation)
    ensures ValidTabs(Sent(state, mutation).tabs, Sent(state, mutation).activeTabId)
  {
    var tabs, active, tabId, thread := state.tabs, state.activeTabId.value, mutation.tabId, mutation.thread;
    var others := WithoutIds(tabs, {tabId});
    var existing := FindThread(others, Some(thread));
    if existing < |others| {
      WithoutIdsKeepsValid(tabs, {tabId});
      assert others[existing] in others;
    } else {
      assert forall tab <- tabs :: tab.id != tabId ==> tab in others;
      WithThreadKeepsValid(tabs, tabId, Some(thread));
      KeepsActive(tabs, active, WithThread(tabs, tabId, Some(thread)));
    }
  }

  // Whatever the controller sends, other than a hundred-and-first tab, passes the repository's
  // validation.
  lemma PredictionIsValidIffRoom(state: WindowState, mutation: Mutation)
    requires Sendable(state, mutation)
    ensures var r := Sent(state, mutation);
            ValidTabs(r.tabs, r.activeTabId)
            <==> !(mutation.OpenTab? && |state.tabs| == MAX_TABS && r.tabs != state.tabs)
  {
    match mutation
    case ReplaceActiveThread(_) => ReplaceActiveThreadIsValid(state, mutation);
    case OpenTab(_) => OpenTabIsValidIffRoom(state, mutation);
    case ActivateTab(tabId) => FindIdOf(state.tabs, tabId);
    case CloseTab(_, _) => CloseTabIsValid(state, mutation);
    case CloseTabs(_, _) => CloseTabsIsValid(state, mutation);
    case AttachThread(_, _) => AttachThreadIsValid(state, mutation);
  }

  // Closing the active tab activates its right neighbour, or the left one when it was the last.
  lemma CloseTabActivatesNeighbour(state: WindowState, index: nat, replacementTabId: string)
    requires state.serverId.Some? && ValidWindow(state) && 1 < |state.tabs| && index < |state.tabs|
    requires state.activeTabId == Some(state.tabs[index].id)
    ensures ApplyTabsMutation(state, CloseTab(state.tabs[index].id, replacementTabId)) ==
            Ok(Some(TabsResult(state.tabs[..index] + state.tabs[index + 1..],
                               if index + 1 < |state.tabs| then state.tabs[index + 1].id
                               else state.tabs[index - 1].id)))
  {
    hide ValidTexts, DistinctThreads, WithoutIds;
    var tabs := state.tabs;
    WithoutOnePosition(tabs, index);
    var rest := WithoutIds(tabs, {tabs[index].id});
    assert FindId(tabs, tabs[index].id) == index;
    if index < |rest| {
      assert rest[index] == tabs[index + 1];
    } else {
      assert rest[index - 1] == tabs[index - 1];
    }
  }

  lemma DistinctBehind(tabs: seq<Tab>)
    requires tabs != [] && DistinctIds(tabs)
    ensures DistinctIds(tabs[1..])
    ensures forall j :: 0 < j < |tabs| ==> tabs[j].id != tabs[0].id
  {
  }

  lemma WithoutFirst(tabs: seq<Tab>)
    requires tabs != [] && DistinctIds(tabs)
    ensures WithoutIds(tabs, {tabs[0].id}) == tabs[1..]
  {
    assert forall tab <- tabs[1..] :: tab.id != tabs[0].id;
  }

  lemma WithoutIdsBehind(tabs: seq<Tab>, id: string)
    requires tabs != [] && tabs[0].id != id
    ensures WithoutIds(tabs, {id}) == [tabs[0]] + WithoutIds(tabs[1..], {id})
  {
  }

  lemma CutBehind(tabs: seq<Tab>, index: nat)
    requires 0 < index < |tabs|
    ensures tabs[..index] + tabs[index + 1..] == [tabs[0]] + (tabs[1..][..index - 1] + tabs[1..][index..])
  {
  }

  lemma {:induction false} WithoutOnePosition(tabs: seq<Tab>, index: nat)
    requires index < |tabs| && DistinctIds(tabs)
    ensures WithoutIds(tabs, {tabs[index].id}) == tabs[..index] + tabs[index + 1..]
  {
    if index == 0 {
      WithoutFirst(tabs);
    } else {
      DistinctBehind(tabs);
      WithoutIdsBehind(tabs, tabs[index].id);
      CutBehind(tabs, index);
      hide DistinctIds, WithoutIds;
      WithoutOnePosition(tabs[1..], index - 1);
    }
  }

  lemma RemovingOneTab(tabs: seq<Tab>, id: string)
    requires ValidUpTo(tabs) && |tabs| > 1 && exists tab <- tabs :: tab.id == id
    ensures ValidUpTo(WithoutIds(tabs, {id})) && |WithoutIds(tabs, {id})| >= 1
  {
    WithoutIdsKeepsValid(tabs, {id});
    assert tabs[0].id != tabs[1].id && tabs[0] in tabs && tabs[1] in tabs;
    var other := if tabs[0].id == id then tabs[1] else tabs[0];
    assert other in WithoutIds(tabs, {id});
  }

  // ---- What each mutation does to the tabs -----------------------------------------------------------

  ghost predicate IsOpen(state: WindowState) {
    state.serverId.Some? && ValidWindow(state)
  }

  lemma FindIdAt(tabs: seq<Tab>, index: nat)
    requires DistinctIds(tabs) && index < |tabs|
    ensures FindId(tabs, tabs[index].id) == index
  {
  }

  lemma FindThreadAt(tabs: seq<Tab>, index: nat)
    requires DistinctThreads(tabs) && index < |tabs| && tabs[index].threadId.Some?
    ensures FindThread(tabs, tabs[index].threadId) == index
  {
    var found := FindThread(tabs, tabs[index].threadId);
    assert found <= index;
  }

  lemma WithThreadAt(tabs: seq<Tab>, index: nat, threadId: Option<string>)
    requires DistinctIds(tabs) && index < |tabs|
    ensures WithThread(tabs, tabs[index].id, threadId) == tabs[index := Tab(tabs[index].id, threadId)]
  {
  }

  lemma ActiveTabIsOpen(state: WindowState, index: nat)
    requires IsOpen(state) && index < |state.tabs| && state.activeTabId != Some(state.tabs[index].id)
    ensures |state.tabs| > 1 && DistinctIds(state.tabs) && state.serverId.Some? && state.activeTabId.Some?
  {
    var active :| active in state.tabs && Some(active.id) == state.activeTabId;
    assert active != state.tabs[index];
  }

  lemma ClosingInactiveTab(state: WindowState, tabId: string, replacementTabId: string)
    requires state.serverId.Some? && state.activeTabId.Some? && state.activeTabId != Some(tabId)
    requires |state.tabs| > 1 && FindId(state.tabs, tabId) < |state.tabs|
    ensures ApplyTabsMutation(state, CloseTab(tabId, replacementTabId)) ==
            Ok(Some(TabsResult(WithoutIds(state.tabs, {tabId}), state.activeTabId.value)))
  {
    hide WithoutIds, FindId;
  }

  // Closing a tab in the background removes just it; the active tab stays active.
  lemma CloseInactiveTabKeepsActive(state: WindowState, index: nat, replacementTabId: string)
    requires IsOpen(state) && index < |state.tabs| && state.activeTabId != Some(state.tabs[index].id)
    ensures ApplyTabsMutation(state, CloseTab(state.tabs[index].id, replacementTabId)) ==
            Ok(Some(TabsResult(state.tabs[..index] + state.tabs[index + 1..], state.activeTabId.value)))
  {
    ActiveTabIsOpen(state, index);
    hide IsOpen, DistinctIds, WithoutIds, FindId, ApplyTabsMutation;
    FindIdAt(state.tabs, index);
    ClosingInactiveTab(state, state.tabs[index].id, replacementTabId);
    WithoutOnePosition(state.tabs, index);
  }

  // Closing the only tab leaves a blank one.
  lemma CloseOnlyTabLeavesABlankOne(state: WindowState, replacementTabId: string)
    requires IsOpen(state) && |state.tabs| == 1
    ensures ApplyTabsMutation(state, CloseTab(state.tabs[0].id, replacementTabId)) ==
            Ok(Some(TabsResult([Tab(replacementTabId, None)], replacementTabId)))
  {
  }

  // A tab that is gone cannot be activated or given a thread, and need not be closed.
  lemma MissingTabs(state: WindowState, tabId: string, other: string)
    requires IsOpen(state) && forall tab <- state.tabs :: tab.id != tabId
    ensures ApplyTabsMutation(state, ActivateTab(tabId)) == Err(OperationFailed)
    ensures ApplyTabsMutation(state, AttachThread(tabId, other)) == Err(OperationFailed)
    ensures ApplyTabsMutation(state, CloseTab(tabId, other)) == Ok(None)
  {
    FindIdOf(state.tabs, tabId);
  }

  lemma ClosedWindowsHaveNoTabs(state: WindowState, mutation: Mutation)
    requires !mutation.BindServer? && (state.serverId.None? || state.activeTabId.None?)
    ensures ApplyTabsMutation(state, mutation) == Err(StateUnavailable)
  {
  }

  // Activating a tab changes nothing but the active tab.
  lemma ActivateTabNamesIt(state: WindowState, index: nat)
    requires IsOpen(state) && index < |state.tabs|
    ensures ApplyTabsMutation(state, ActivateTab(state.tabs[index].id)) ==
            Ok(if state.activeTabId == Some(state.tabs[index].id) then None
               else Some(TabsResult(state.tabs, state.tabs[index].id)))
  {
    FindIdAt(state.tabs, index);
  }

  // A thread that a tab shows already is activated there, whether it is to be opened or to replace another.
  lemma ShownThreadIsActivated(state: WindowState, index: nat, tabId: string)
    requires IsOpen(state) && index < |state.tabs| && state.tabs[index].threadId.Some?
    ensures var expected := Ok(if state.activeTabId == Some(state.tabs[index].id) then None
                               else Some(TabsResult(state.tabs, state.tabs[index].id)));
            && ApplyTabsMutation(state, ReplaceActiveThread(state.tabs[index].threadId)) == expected
            && ApplyTabsMutation(state, OpenTab(Tab(tabId, state.tabs[index].threadId))) == expected
  {
    FindThreadAt(state.tabs, index);
  }

  ghost predicate ShowsNowhere(tabs: seq<Tab>, threadId: Option<string>) {
    threadId.Some? ==> forall tab <- tabs :: tab.threadId != threadId
  }

  // Any other thread, or none, takes the place of the active tab's; every other tab is as it was.
  lemma ReplacingChangesTheActiveTab(state: WindowState, index: nat, threadId: Option<string>)
    requires IsOpen(state) && index < |state.tabs| && state.activeTabId == Some(state.tabs[index].id)
    requires ShowsNowhere(state.tabs, threadId)
    ensures ApplyTabsMutation(state, ReplaceActiveThread(threadId)) ==
            Ok(if state.tabs[index].threadId == threadId then None
               else Some(TabsResult(state.tabs[index := Tab(state.tabs[index].id, threadId)], state.tabs[index].id)))
  {
    WithThreadAt(state.tabs, index, threadId);
    var found := FindThread(state.tabs, threadId);
    assert found < |state.tabs| ==> state.tabs[found] in state.tabs;
    assert state.tabs[index := Tab(state.tabs[index].id, threadId)][index] == Tab(state.tabs[index].id, threadId);
  }

  // Any other tab is opened at the end and activated.
  lemma OpeningAppends(state: WindowState, tab: Tab)
    requires IsOpen(state) && ShowsNowhere(state.tabs, tab.threadId)
    ensures ApplyTabsMutation(state, OpenTab(tab)) == Ok(Some(TabsResult(state.tabs + [tab], tab.id)))
  {
    var found := FindThread(state.tabs, tab.threadId);
    assert found < |state.tabs| ==> state.tabs[found] in state.tabs;
  }

  // The tabs that are kept, in their order.
  ghost predicate KeptAreTheRest(tabs: seq<Tab>, tabIds: set<string>, kept: seq<Tab>) {
    && (forall tab :: tab in kept <==> tab in tabs && tab.id !in tabIds)
    && (exists positions: seq<nat> :: Embeds(positions, kept, tabs))
  }

  lemma WithoutIdsAreTheRest(tabs: seq<Tab>, tabIds: set<string>)
    ensures KeptAreTheRest(tabs, tabIds, WithoutIds(tabs, tabIds))
  {
    var positions := WithoutIdsEmbeds(tabs, tabIds);
  }

  // Closing several tabs keeps exactly the others and activates the one that is named; it fails if
  // that one is not kept, and is nothing if none of the named tabs is open.
  lemma CloseTabsKeepsTheRest(state: WindowState, tabIds: set<string>, activeTabId: string)
    requires IsOpen(state)
    ensures var outcome := ApplyTabsMutation(state, CloseTabs(tabIds, activeTabId));
            && (outcome == Ok(None) <==> forall tab <- state.tabs :: tab.id !in tabIds)
            && (outcome.Err? <==> (exists tab <- state.tabs :: tab.id in tabIds)
                                  && forall tab <- state.tabs :: tab.id == activeTabId ==> tab.id in tabIds)
            && (outcome.Err? ==> outcome == Err(OperationFailed))
            && (outcome.Ok? && outcome.value.Some? ==>
                  KeptAreTheRest(state.tabs, tabIds, outcome.value.value.tabs) && outcome.value.value.activeTabId == activeTabId)
  {
    hide ValidTabs, KeptAreTheRest, Embeds, WithoutIds, FindId;
    WithoutIdsAreTheRest(state.tabs, tabIds);
    FindIdOf(WithoutIds(state.tabs, tabIds), activeTabId);
  }

  // The first tab other than the one at `index` that shows a thread.
  lemma FindThreadInRest(tabs: seq<Tab>, index: nat, thread: string)
    requires index < |tabs| && DistinctThreads(tabs)
    ensures var others := tabs[..index] + tabs[index + 1..];
            var found := FindThread(others, Some(thread));
            && (found == |others| <==> forall j :: 0 <= j < |tabs| && j != index ==> tabs[j].threadId != Some(thread))
            && (forall j :: 0 <= j < |tabs| && j != index && tabs[j].threadId == Some(thread) ==>
                  found < |others| && others[found] == tabs[j])
  {
    hide DistinctThreads;
    var others := tabs[..index] + tabs[index + 1..];
    var found := FindThread(others, Some(thread));
    forall j | 0 <= j < |tabs| && j != index && tabs[j].threadId == Some(thread)
      ensures found < |others| && others[found] == tabs[j]
    {
      assert others[if j < index then j else j - 1] == tabs[j];
      var i := if found < index then found else found + 1;
      assert others[found] == tabs[i];
      SameThreadSameTab(tabs, i, j);
    }
    if found < |others| {
      assert others[found] == tabs[if found < index then found else found + 1];
    }
  }

  lemma SameThreadSameTab(tabs: seq<Tab>, i: nat, j: nat)
    requires DistinctThreads(tabs) && i < |tabs| && j < |tabs| && tabs[i].threadId == tabs[j].threadId && tabs[i].threadId.Some?
    ensures i == j
  {
  }

  // A thread that another tab shows already moves the user there and closes this tab.
  lemma AttachingShownThreadClosesTheTab(state: WindowState, index: nat, other: nat)
    requires IsOpen(state) && index < |state.tabs| && other < |state.tabs| && index != other && state.tabs[other].threadId.Some?
    ensures ApplyTabsMutation(state, AttachThread(state.tabs[index].id, state.tabs[other].threadId.value)) ==
            Ok(Some(TabsResult(state.tabs[..index] + state.tabs[index + 1..], state.tabs[other].id)))
  {
    hide ValidTexts, DistinctIds, DistinctThreads, WithoutIds, FindThread, FindId, WithThread;
    WithoutOnePosition(state.tabs, index);
    FindIdAt(state.tabs, index);
    FindThreadInRest(state.tabs, index, state.tabs[other].threadId.value);
  }

  // Any other thread is put into the named tab; the active tab stays active.
  lemma AttachingChangesTheTab(state: WindowState, index: nat, thread: string)
    requires IsOpen(state) && index < |state.tabs|
    requires forall j :: 0 <= j < |state.tabs| && j != index ==> state.tabs[j].threadId != Some(thread)
    ensures ApplyTabsMutation(state, AttachThread(state.tabs[index].id, thread)) ==
            Ok(if state.tabs[index].threadId == Some(thread) then None
               else Some(TabsResult(state.tabs[index := Tab(state.tabs[index].id, Some(thread))], state.activeTabId.value)))
  {
    hide ValidTexts, DistinctIds, DistinctThreads, WithoutIds, FindThread, FindId, WithThread;
    WithoutOnePosition(state.tabs, index);
    FindIdAt(state.tabs, index);
    FindThreadInRest(state.tabs, index, thread);
    WithThreadAt(state.tabs, index, Some(thread));
  }

  // A reply is accepted exactly if it is the predicted next state, but for a time that is not earlier; for
  // another server, if it names that server.
  lemma ReplyIsAcceptedIff(previous: WindowState, next: WindowState, mutation: Mutation)
    ensures mutation.BindServer? ==>
              (MutationResultAccepted(previous, next, mutation) <==>
                next.windowId == previous.windowId && next.version == previous.version + 1
                && next.updatedAtMs >= previous.updatedAtMs && next.serverId == mutation.serverId)
    ensures !mutation.BindServer? ==>
              (MutationResultAccepted(previous, next, mutation) <==>
                && next.updatedAtMs >= previous.updatedAtMs
                && (var predicted := ApplyTabsMutation(previous, mutation);
                    && predicted.Ok? && predicted.value.Some?
                    && next == WindowState(previous.windowId, previous.version + 1, previous.serverId,
                                           predicted.value.value.tabs, Some(predicted.value.value.activeTabId), next.updatedAtMs)))
  {
    hide ApplyTabsMutation;
  }

  // ---- The two ends agree on opening a tab ---------------------------------------------------------

  // The repository's own decision for a thread opened from another window.
  function OpenedTabs(tabs: seq<Tab>, threadId: Option<string>, newTabId: string): TabsResult {
    match threadId
    case Some(_) =>
      var i := FindThread(tabs, threadId);
      if i < |tabs| then TabsResult(tabs, tabs[i].id)
      else TabsResult(tabs + [Tab(newTabId, threadId)], newTabId)
    case None => TabsResult(tabs + [Tab(newTabId, None)], newTabId)
  }

  // Opening the same thread with the same new tab id gives the same tabs and active tab on both
  // ends; the controller's "nothing to do" is the repository's unchanged state.
  lemma BothEndsOpenTheSameTab(state: WindowState, threadId: Option<string>, newTabId: string)
    requires state.serverId.Some? && state.activeTabId.Some?
    ensures var mine := ApplyTabsMutation(state, OpenTab(Tab(newTabId, threadId)));
            var theirs := OpenedTabs(state.tabs, threadId, newTabId);
            && mine.Ok?
            && theirs == (if mine.value.Some? then mine.value.value
                          else TabsResult(state.tabs, state.activeTabId.value))
  {
  }
}
