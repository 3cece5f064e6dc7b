/** The event-triggered agent: its TODO list, tool dispatch, error
    suggestions, partial file reads and the event-handling loop that runs
    until the model replies with a "FINAL ANSWER:" marker. The language
    model is a scripted sequence of replies; handlers that touch the host
    (file reads and writes, code and shell execution) are outcomes supplied
    with each tool call. */
module EventAgent {
  import opened Common
  import EventTypes

  // ---------------------------------------------------------------------
  // TODO items

  datatype TodoStatus = Pending | InProgress | Completed | Cancelled

  function StatusValue(s: TodoStatus): string {
    match s
    case Pending => "pending"
    case InProgress => "in_progress"
    case Completed => "completed"
    case Cancelled => "cancelled"
  }

  /** `TodoStatus(s)`, or None where Python raises ValueError. */
  function ParseStatus(s: string): (r: Option<TodoStatus>)
    ensures r.Some? ==> StatusValue(r.value) == s
    ensures r.None? ==> forall t: TodoStatus :: StatusValue(t) != s
  {
    if s == "pending" then Some(Pending)
    else if s == "in_progress" then Some(InProgress)
    else if s == "completed" then Some(Completed)
    else if s == "cancelled" then Some(Cancelled)
    else None
  }

  /** A TODO entry. Its content is whatever the rewrite iterated over, kept
      as the JSON value it is, since Python does not check that it is a
      string. */
  datatype TodoItem = TodoItem(
    id: int,
    content: Json,
    status: TodoStatus,
    createdAt: string,
    updatedAt: Option<string>)

  predicate Finished(item: TodoItem) {
    item.status == Completed || item.status == Cancelled
  }

  /** Ids strictly increase along the list and all lie below `bound`. */
  predicate IdsIncreasingBelow(items: seq<TodoItem>, bound: int) {
    (forall i, j :: 0 <= i < j < |items| ==> items[i].id < items[j].id)
    && (forall i :: 0 <= i < |items| ==> items[i].id < bound)
  }

  /** The completed and cancelled items, in their original order. */
  function Kept(items: seq<TodoItem>): seq<TodoItem> {
    if |items| == 0 then []
    else (if Finished(items[0]) then [items[0]] else []) + Kept(items[1..])
  }

  /** The pending items created for `contents`, numbered from `firstId`. */
  function NewItems(contents: seq<Json>, firstId: int, now: string): (r: seq<TodoItem>)
    ensures |r| == |contents|
  {
    seq(|contents|, k requires 0 <= k < |contents| =>
      TodoItem(firstId + k, contents[k], Pending, now, None))
  }

  /** Exactly the finished items survive a rewrite, and only items of the list. */
  lemma {:induction false} KeptMembers(items: seq<TodoItem>)
    ensures forall x :: x in Kept(items) <==> x in items && Finished(x)
  {
    if |items| > 0 {
      KeptMembers(items[1..]);
      assert items == [items[0]] + items[1..];
    }
  }

  lemma {:induction false} KeptIds(items: seq<TodoItem>, bound: int)
    requires IdsIncreasingBelow(items, bound)
    ensures IdsIncreasingBelow(Kept(items), bound)
  {
    if |items| > 0 {
      KeptIds(items[1..], bound);
      KeptMembers(items[1..]);
      var rest := Kept(items[1..]);
      forall x | x in rest ensures items[0].id < x.id {
        var k :| 0 <= k < |items[1..]| && items[1..][k] == x;
        assert items[k + 1] == x;
      }
    }
  }

  /** A list whose ids increase below `b` keeps doing so after a rewrite that
      numbers the new items from `b`. */
  lemma RewriteKeepsIds(items: seq<TodoItem>, contents: seq<Json>, next: int, now: string)
    requires IdsIncreasingBelow(items, next)
    ensures IdsIncreasingBelow(Kept(items) + NewItems(contents, next, now), next + |contents|)
  {
    KeptIds(items, next);
  }

  /** Position of the first item carrying `id`. */
  function FirstWithId(items: seq<TodoItem>, id: int): (r: Option<nat>)
    ensures r.Some? ==> r.value < |items| && items[r.value].id == id
    ensures r.Some? ==> forall k :: 0 <= k < r.value ==> items[k].id != id
    ensures r.None? ==> forall k :: 0 <= k < |items| ==> items[k].id != id
  {
    if |items| == 0 then None
    else if items[0].id == id then Some(0)
    else match FirstWithId(items[1..], id)
      case None => None
      case Some(k) => Some(k + 1)
  }

  /** One status update: the first item with the id gets the new status and
      update time; an unknown id leaves the list as it is. */
  function SetStatus(items: seq<TodoItem>, id: int, status: TodoStatus, now: string): (r: seq<TodoItem>)
    ensures |r| == |items|
  {
    match FirstWithId(items, id)
    case None => items
    case Some(f) => items[f := items[f].(status := status, updatedAt := Some(now))]
  }

  /** A status update never adds, removes, renumbers or rewrites items, and
      touches at most the first item with the id. */
  lemma SetStatusFrame(items: seq<TodoItem>, id: int, status: TodoStatus, now: string)
    ensures |SetStatus(items, id, status, now)| == |items|
    ensures forall k :: 0 <= k < |items| ==>
      SetStatus(items, id, status, now)[k].id == items[k].id
      && SetStatus(items, id, status, now)[k].content == items[k].content
      && SetStatus(items, id, status, now)[k].createdAt == items[k].createdAt
    ensures (forall k :: 0 <= k < |items| ==> items[k].id != id) ==>
      SetStatus(items, id, status, now) == items
    ensures forall k :: 0 <= k < |items| && items[k].id == id ==>
      (forall j :: 0 <= j < k ==> items[j].id != id) ==>
        SetStatus(items, id, status, now)[k].status == status
        && SetStatus(items, id, status, now)[k].updatedAt == Some(now)
        && (forall j :: 0 <= j < |items| && j != k ==>
              SetStatus(items, id, status, now)[j] == items[j])
  {
  }

  /** No two items share an id. */
  predicate DistinctIds(items: seq<TodoItem>) {
    forall i, j :: 0 <= i < j < |items| ==> items[i].id != items[j].id
  }

  lemma FirstWithIdByIds(a: seq<TodoItem>, b: seq<TodoItem>, id: int)
    requires |a| == |b| && forall k :: 0 <= k < |a| ==> a[k].id == b[k].id
    ensures FirstWithId(a, id) == FirstWithId(b, id)
  {
    var x, y := FirstWithId(a, id), FirstWithId(b, id);
    if x.Some? && y.Some? {
      assert !(x.value < y.value) && !(y.value < x.value);
    }
  }

  // ---------------------------------------------------------------------
  // Status updates

  /** The integer an update's id equals under `item.id == item_id`: an
      integral number, or a boolean, since `True == 1` and `False == 0`;
      any other value equals no id. */
  function IdKey(j: Json): Option<int> {
    match j
    case JNum(n) => if n == n.Floor as real then Some(n.Floor) else None
    case JBool(b) => Some(if b then 1 else 0)
    case _ => None
  }

  /** The TypeError `update["id"]` raises on an entry that is not a dict. */
  function NotSubscriptable(u: Json): string {
    match u
    case JArr(_) => "list indices must be integers or slices, not str"
    case JStr(_) => "string indices must be integers, not 'str'"
    case JNum(n) => if n == n.Floor as real then "'int' object is not subscriptable" else "'float' object is not subscriptable"
    case JBool(_) => "'bool' object is not subscriptable"
    case JNull => "'NoneType' object is not subscriptable"
    case JObj(_) => "'dict' object is not subscriptable"
  }

  /** One entry of `updates` as the loop reads it: the exception it raises,
      or the id it names and its new status. */
  datatype Entry = Change(id: Option<int>, status: TodoStatus) | Bad(excType: string, message: string)

  function ReadEntry(u: Json): Entry {
    if !u.JObj? then Bad("TypeError", NotSubscriptable(u))
    else if "id" !in u.fields then Bad("KeyError", "'id'")
    else if "status" !in u.fields then Bad("KeyError", "'status'")
    else
      var st := u.fields["status"];
      var parsed := if st.JStr? then ParseStatus(st.s) else None;
      if parsed.None? then Bad("ValueError", (if st.JStr? then "'" + st.s + "'" else "value") + " is not a valid TodoStatus")
      else Change(IdKey(u.fields["id"]), parsed.value)
  }

  /** Every entry of `updates` as the loop reads it. */
  function Entries(updates: seq<Json>): (es: seq<Entry>)
    ensures |es| == |updates| && forall k :: 0 <= k < |updates| ==> es[k] == ReadEntry(updates[k])
  {
    seq(|updates|, k requires 0 <= k < |updates| => ReadEntry(updates[k]))
  }

  /** The state of the update loop: the list, the count of entries that
      found their item, the number of entries applied, and the bad entry
      that stopped the loop. */
  datatype UpdateRun = UpdateRun(items: seq<TodoItem>, updated: nat, applied: nat, failure: Option<Entry>)

  /** One more entry, unless an earlier one raised. */
  function ApplyEntry(r: UpdateRun, e: Entry, now: string): (r': UpdateRun)
    ensures |r'.items| == |r.items| && r.applied <= r'.applied <= r.applied + 1
  {
    if r.failure.Some? then r
    else match e
      case Bad(_, _) => r.(failure := Some(e))
      case Change(None, _) => r.(applied := r.applied + 1)
      case Change(Some(id), s) =>
        UpdateRun(SetStatus(r.items, id, s, now), r.updated + (if FirstWithId(r.items, id).Some? then 1 else 0),
                  r.applied + 1, None)
  }

  /** `_tool_update_todo_status` entry by entry, stopping at the first
      entry that raises. */
  function RunUpdates(items: seq<TodoItem>, es: seq<Entry>, now: string): (r: UpdateRun)
    ensures |r.items| == |items| && r.applied <= |es|
  {
    if |es| == 0 then UpdateRun(items, 0, 0, None)
    else ApplyEntry(RunUpdates(items, es[..|es| - 1], now), es[|es| - 1], now)
  }

  /** Whether an entry names `id`. */
  predicate Names(es: seq<Entry>, id: int) {
    exists k :: 0 <= k < |es| && es[k].Change? && es[k].id == Some(id)
  }

  /** The status of the last entry naming `id`, or `s` when none does. */
  function LastStatus(es: seq<Entry>, id: int, s: TodoStatus): TodoStatus {
    if |es| == 0 then s
    else
      var e := es[|es| - 1];
      if e.Change? && e.id == Some(id) then e.status else LastStatus(es[..|es| - 1], id, s)
  }

  /** The number of entries whose id is carried by an item of the list. */
  function CountFound(items: seq<TodoItem>, es: seq<Entry>): nat {
    if |es| == 0 then 0
    else
      var e := es[|es| - 1];
      CountFound(items, es[..|es| - 1])
      + (if e.Change? && e.id.Some? && FirstWithId(items, e.id.value).Some? then 1 else 0)
  }

  /** The entries before the first bad one are applied, and the run stops
      exactly at that bad entry; items are never added, removed, renumbered
      or rewritten. */
  lemma {:induction false} RunUpdatesShape(items: seq<TodoItem>, es: seq<Entry>, now: string)
    ensures var r := RunUpdates(items, es, now);
      && (forall k :: 0 <= k < r.applied ==> es[k].Change?)
      && (r.failure.None? ==> r.applied == |es|)
      && (r.failure.Some? ==> r.applied < |es| && r.failure.value == es[r.applied] && es[r.applied].Bad?)
      && (forall k :: 0 <= k < |items| ==>
            r.items[k].id == items[k].id && r.items[k].content == items[k].content
            && r.items[k].createdAt == items[k].createdAt)
  {
    if |es| > 0 {
      var pre := es[..|es| - 1];
      RunUpdatesShape(items, pre, now);
      var p := RunUpdates(items, pre, now);
      var e := es[|es| - 1];
      if p.failure.None? && e.Change? && e.id.Some? {
        SetStatusFrame(p.items, e.id.value, e.status, now);
      }
      assert forall k :: 0 <= k < |pre| ==> es[k] == pre[k];
    }
  }

  /** With distinct ids an update changes exactly the item carrying the id. */
  lemma SetStatusAt(items: seq<TodoItem>, id: int, s: TodoStatus, now: string, k: nat)
    requires DistinctIds(items) && k < |items|
    ensures SetStatus(items, id, s, now)[k]
            == if items[k].id == id then items[k].(status := s, updatedAt := Some(now)) else items[k]
  {
    var f := FirstWithId(items, id);
    if f.Some? && f.value != k {
      assert items[k].id != id;
    }
  }

  lemma NamesSnoc(es: seq<Entry>, id: int)
    requires |es| > 0
    ensures var e := es[|es| - 1];
      Names(es, id) <==> Names(es[..|es| - 1], id) || (e.Change? && e.id == Some(id))
  {
    var pre := es[..|es| - 1];
    if Names(es, id) {
      var k :| 0 <= k < |es| && es[k].Change? && es[k].id == Some(id);
      if k < |pre| {
        assert pre[k] == es[k];
      }
    }
    if Names(pre, id) {
      var k :| 0 <= k < |pre| && pre[k].Change? && pre[k].id == Some(id);
      assert es[k] == pre[k];
    }
  }

  /** An entry that reads as a change moves the reference facts from the
      entries before it to the entries including it. */
  lemma ChangeMeaning(items: seq<TodoItem>, p: UpdateRun, es: seq<Entry>, now: string)
    requires DistinctIds(items) && |es| > 0 && es[|es| - 1].Change?
    requires p.failure.None? && |p.items| == |items|
    requires forall k :: 0 <= k < |items| ==> p.items[k].id == items[k].id
    requires var pre := es[..|es| - 1];
      && p.updated == CountFound(items, pre)
      && forall k :: 0 <= k < |items| ==>
           p.items[k].status == LastStatus(pre, items[k].id, items[k].status)
           && p.items[k].updatedAt == (if Names(pre, items[k].id) then Some(now) else items[k].updatedAt)
    ensures var r := ApplyEntry(p, es[|es| - 1], now);
      && r.updated == CountFound(items, es)
      && forall k :: 0 <= k < |items| ==>
           r.items[k].status == LastStatus(es, items[k].id, items[k].status)
           && r.items[k].updatedAt == (if Names(es, items[k].id) then Some(now) else items[k].updatedAt)
  {
    var e := es[|es| - 1];
    var r := ApplyEntry(p, e, now);
    forall k | 0 <= k < |items|
      ensures r.items[k].status == LastStatus(es, items[k].id, items[k].status)
      ensures r.items[k].updatedAt == (if Names(es, items[k].id) then Some(now) else items[k].updatedAt)
    {
      NamesSnoc(es, items[k].id);
      if e.id.Some? {
        SetStatusAt(p.items, e.id.value, e.status, now, k);
      }
    }
    if e.id.Some? {
      FirstWithIdByIds(p.items, items, e.id.value);
    }
  }

  /** Every item ends with the status of the last applied entry naming its
      id and is stamped exactly when such an entry exists; `updated_items`
      counts the applied entries whose id an item carries. */
  lemma {:induction false} RunUpdatesMeaning(items: seq<TodoItem>, es: seq<Entry>, now: string)
    requires DistinctIds(items)
    ensures var r := RunUpdates(items, es, now);
      var done := es[..r.applied];
      && r.updated == CountFound(items, done)
      && forall k :: 0 <= k < |items| ==>
           r.items[k].status == LastStatus(done, items[k].id, items[k].status)
           && r.items[k].updatedAt == (if Names(done, items[k].id) then Some(now) else items[k].updatedAt)
    decreases |es|
  {
    if |es| > 0 {
      RunUpdatesMeaning(items, es[..|es| - 1], now);
      RunUpdatesMeaningStep(items, es, now);
    } else {
      assert es[..0] == [];
    }
  }

  /** The meaning of a run carries over from the entries before the last
      one to all of them. */
  lemma RunUpdatesMeaningStep(items: seq<TodoItem>, es: seq<Entry>, now: string)
    requires DistinctIds(items) && |es| > 0
    requires var pre := es[..|es| - 1];
      var p := RunUpdates(items, pre, now);
      var done := pre[..p.applied];
      && p.updated == CountFound(items, done)
      && forall k :: 0 <= k < |items| ==>
           p.items[k].status == LastStatus(done, items[k].id, items[k].status)
           && p.items[k].updatedAt == (if Names(done, items[k].id) then Some(now) else items[k].updatedAt)
    ensures var r := RunUpdates(items, es, now);
      var done := es[..r.applied];
      && r.updated == CountFound(items, done)
      && forall k :: 0 <= k < |items| ==>
           r.items[k].status == LastStatus(done, items[k].id, items[k].status)
           && r.items[k].updatedAt == (if Names(done, items[k].id) then Some(now) else items[k].updatedAt)
  {
    var pre := es[..|es| - 1];
    var p := RunUpdates(items, pre, now);
    var r := RunUpdates(items, es, now);
    assert r == ApplyEntry(p, es[|es| - 1], now);
    RunUpdatesShape(items, pre, now);
    if p.failure.None? && es[|es| - 1].Change? {
      assert pre[..p.applied] == pre;
      assert es[..r.applied] == es;
      ChangeMeaning(items, p, es, now);
    } else {
      assert r.items == p.items && r.updated == p.updated && r.applied == p.applied;
      assert es[..r.applied] == pre[..p.applied];
    }
  }

  /** Once an entry raised, later entries change nothing. */
  lemma {:induction false} FailureSticks(items: seq<TodoItem>, es: seq<Entry>, i: nat, now: string)
    requires i <= |es| && RunUpdates(items, es[..i], now).failure.Some?
    ensures RunUpdates(items, es, now) == RunUpdates(items, es[..i], now)
    decreases |es|
  {
    if |es| > i {
      var pre := es[..|es| - 1];
      assert pre[..i] == es[..i];
      FailureSticks(items, pre, i, now);
    } else {
      assert es[..i] == es;
    }
  }

  /** The run over one entry more is that entry applied to the run so far:
      a change to the list `next`, counted when `found`. */
  lemma RunUpdatesSnoc(items: seq<TodoItem>, done: seq<Entry>, e: Entry, now: string,
                       r: UpdateRun, next: seq<TodoItem>, found: bool)
    requires RunUpdates(items, done, now) == r && r.failure.None? && e.Change?
    requires e.id.Some? ==>
      next == SetStatus(r.items, e.id.value, e.status, now) && (found <==> FirstWithId(r.items, e.id.value).Some?)
    requires e.id.None? ==> next == r.items && !found
    ensures RunUpdates(items, done + [e], now) == UpdateRun(next, r.updated + (if found then 1 else 0), r.applied + 1, None)
  {
    assert (done + [e])[..|done|] == done;
  }

  /** An entry that raises ends the run: the run is the one so far with
      that entry as its failure. */
  lemma RunUpdatesStops(items: seq<TodoItem>, es: seq<Entry>, i: nat, now: string, r: UpdateRun)
    requires i < |es| && RunUpdates(items, es[..i], now) == r && r.failure.None? && es[i].Bad?
    ensures RunUpdates(items, es, now) == r.(failure := Some(es[i]))
  {
    assert es[..i + 1][..i] == es[..i];
    FailureSticks(items, es, i + 1, now);
  }

  /** `item_id = update["id"]` and `TodoStatus(update["status"])` for one
      entry, with the exception each raises. */
  method ReadUpdate(u: Json) returns (e: Entry)
    ensures e == ReadEntry(u)
  {
    if !u.JObj? {
      return Bad("TypeError", NotSubscriptable(u));
    }
    if "id" !in u.fields {
      return Bad("KeyError", "'id'");
    }
    if "status" !in u.fields {
      return Bad("KeyError", "'status'");
    }
    var st := u.fields["status"];
    var parsed := if st.JStr? then ParseStatus(st.s) else None;
    if parsed.None? {
      return Bad("ValueError", (if st.JStr? then "'" + st.s + "'" else "value") + " is not a valid TodoStatus");
    }
    e := Change(IdKey(u.fields["id"]), parsed.value);
  }

  /** Formatting one line of the TODO display. */
  function StatusSymbol(s: TodoStatus): char {
    match s
    case Pending => '\U{23F3}'
    case InProgress => '\U{1F504}'
    case Completed => '\U{2705}'
    case Cancelled => '\U{274C}'
  }

  lemma SymbolIdentifiesStatus(s: TodoStatus, t: TodoStatus)
    requires StatusSymbol(s) == StatusSymbol(t)
    ensures s == t
  {
  }

  /** `str(v)`, as the f-string of the listing renders a content: a string
      is itself, a whole number its decimal digits (a JSON integer is a
      Python int), and `true`, `false` and `null` read "True", "False" and
      "None". A fractional number, a list or a dictionary would be written
      with its `repr`, which is not modelled: it renders as "". */
  function ContentText(v: Json): (r: string)
    ensures v.JStr? ==> r == v.s
    ensures v.JNum? && v.n == v.n.Floor as real ==> r == IntToDecimal(v.n.Floor)
  {
    match v
    case JStr(s) => s
    case JBool(b) => if b then "True" else "False"
    case JNull => "None"
    case JNum(n) => if n == n.Floor as real then IntToDecimal(n.Floor) else ""
    case _ => ""
  }

  function FormatItem(item: TodoItem): string {
    "  [" + IntToDecimal(item.id) + "] " + [StatusSymbol(item.status)] + " "
    + ContentText(item.content) + " (" + StatusValue(item.status) + ")"
  }

  /** `_format_todo_list`. */
  function FormatTodoList(items: seq<TodoItem>): (r: string)
    ensures StartsWith(r, "TODO List:")
  {
    if |items| == 0 then "TODO List: Empty"
    else
      var lines := seq(|items|, k requires 0 <= k < |items| => FormatItem(items[k]));
      assert (["TODO List:"] + lines)[1..] == lines;
      "TODO List:" + "\n" + Join(lines, "\n")
  }

  /** The empty display is reserved for the empty list. */
  lemma FormatEmptyIff(items: seq<TodoItem>)
    ensures FormatTodoList(items) == "TODO List: Empty" <==> |items| == 0
  {
    if |items| > 0 {
      var r := FormatTodoList(items);
      assert r[10] == '\n';
    }
  }

  // ---------------------------------------------------------------------
  // Error suggestions

  datatype ErrorCategory =
    | PermissionIssue | MissingPath | SyntaxIssue | TimeoutIssue | ImportIssue | Uncategorised

  /** The first category, in priority order, that the lower-cased message or
      the exception type points to. */
  function Categorise(message: string, excType: string): ErrorCategory {
    var s := Lower(message);
    if Contains(s, "permission") || excType == "PermissionError" then PermissionIssue
    else if Contains(s, "not found") || Contains(s, "no such file") || excType == "FileNotFoundError"
    then MissingPath
    else if Contains(s, "syntax") || excType == "SyntaxError" then SyntaxIssue
    else if Contains(s, "timeout") then TimeoutIssue
    else if Contains(s, "import") || excType == "ImportError" then ImportIssue
    else Uncategorised
  }

  function SuggestionList(c: ErrorCategory): seq<string> {
    match c
    case PermissionIssue => [
      "Check file/directory permissions",
      "Try using a different directory or running with appropriate permissions"]
    case MissingPath => [
      "Verify the file/directory path exists",
      "Check the current working directory",
      "Use absolute paths or create the file/directory first"]
    case SyntaxIssue => [
      "Check the code syntax",
      "Ensure proper indentation and valid Python syntax"]
    case TimeoutIssue => [
      "The operation took too long",
      "Try with simpler input or break into smaller steps"]
    case ImportIssue => [
      "Required module not available in restricted environment",
      "Use only built-in Python modules"]
    case Uncategorised => []
  }

  /** The text offered for one category. */
  function SuggestionText(c: ErrorCategory): string {
    Join(SuggestionList(c), " | ")
  }

  /** The five texts have five different lengths, hence are pairwise distinct. */
  lemma SuggestionTextLengths()
    ensures |SuggestionText(PermissionIssue)| == 106
    ensures |SuggestionText(MissingPath)| == 131
    ensures |SuggestionText(SyntaxIssue)| == 73
    ensures |SuggestionText(TimeoutIssue)| == 80
    ensures |SuggestionText(ImportIssue)| == 90
    ensures SuggestionText(Uncategorised) == ""
  {
    PermissionTextLength();
    MissingPathTextLength();
    SyntaxTextLength();
    TimeoutTextLength();
    ImportTextLength();
  }

  lemma PermissionTextLength()
    ensures |SuggestionText(PermissionIssue)| == 106
  {
    JoinTwo(SuggestionList(PermissionIssue), " | ");
  }

  lemma MissingPathTextLength()
    ensures |SuggestionText(MissingPath)| == 131
  {
    JoinThree(SuggestionList(MissingPath), " | ");
  }

  lemma SyntaxTextLength()
    ensures |SuggestionText(SyntaxIssue)| == 73
  {
    JoinTwo(SuggestionList(SyntaxIssue), " | ");
  }

  lemma TimeoutTextLength()
    ensures |SuggestionText(TimeoutIssue)| == 80
  {
    JoinTwo(SuggestionList(TimeoutIssue), " | ");
  }

  lemma ImportTextLength()
    ensures |SuggestionText(ImportIssue)| == 90
  {
    JoinTwo(SuggestionList(ImportIssue), " | ");
  }

  lemma JoinTwo(parts: seq<string>, sep: string)
    requires |parts| == 2
    ensures |Join(parts, sep)| == |parts[0]| + |sep| + |parts[1]|
  {
    assert Join(parts[1..], sep) == parts[1];
  }

  lemma JoinThree(parts: seq<string>, sep: string)
    requires |parts| == 3
    ensures |Join(parts, sep)| == |parts[0]| + |sep| + |parts[1]| + |sep| + |parts[2]|
  {
    JoinTwo(parts[1..], sep);
  }

  /** `_get_error_suggestions`: the suggestions of one category joined by " | ". */
  function ErrorSuggestions(message: string, excType: string): (r: string)
    ensures r == "" <==> Categorise(message, excType) == Uncategorised
  {
    SuggestionTextLengths();
    SuggestionText(Categorise(message, excType))
  }

  /** Reading the category back from a suggestion text. */
  function CategoryOfSuggestions(r: string): ErrorCategory {
    if r == SuggestionText(PermissionIssue) then PermissionIssue
    else if r == SuggestionText(MissingPath) then MissingPath
    else if r == SuggestionText(SyntaxIssue) then SyntaxIssue
    else if r == SuggestionText(TimeoutIssue) then TimeoutIssue
    else if r == SuggestionText(ImportIssue) then ImportIssue
    else Uncategorised
  }

  lemma {:induction false} JoinStartsWithFirst(parts: seq<string>, sep: string)
    requires |parts| >= 1
    ensures StartsWith(Join(parts, sep), parts[0])
  {
    if |parts| > 1 {
      assert Join(parts, sep) == parts[0] + (sep + Join(parts[1..], sep));
    }
  }

  /** The suggestion text names exactly one category: the one the classifier
      chose, so at most one category ever contributes. */
  lemma SuggestionsIdentifyCategory(message: string, excType: string)
    ensures CategoryOfSuggestions(ErrorSuggestions(message, excType)) == Categorise(message, excType)
  {
    SuggestionTextLengths();
  }

  /** `_get_detailed_error`; `argsDump` is the indented JSON rendering of the
      arguments and `traceback` the formatted traceback (present when verbose). */
  function DetailedError(tool: string, excType: string, message: string, argsDump: string,
                         traceback: Option<string>): (r: string)
    ensures StartsWith(r, "Tool '" + tool + "' failed with " + excType + ": " + message)
  {
    var head := "Tool '" + tool + "' failed with " + excType + ": " + message;
    var parts := [head, "Arguments: " + argsDump]
      + (if traceback.Some? then ["Traceback:\n" + traceback.value] else [])
      + (var s := ErrorSuggestions(message, excType); if s != "" then ["Suggestions: " + s] else []);
    JoinStartsWithFirst(parts, "\n");
    Join(parts, "\n")
  }

  // ---------------------------------------------------------------------
  // Partial file reads


  datatype ReadOutcome =
    | WholeFile(content: string)
    | BeyondEnd(requestedBegin: Option<int>, totalLines: nat)
    | Window(content: string, totalLines: nat, beginLine: int, endLine: int, linesRead: nat)

  /** First line index of the window (0-based). */
  function WindowStart(begin: Option<int>): (s: nat) {
    if begin.Some? && begin.value - 1 > 0 then begin.value - 1 else 0
  }

  /** `_tool_read_file` once the file's lines are known: a window read when
      `begin_line` or `number_lines` is given, the whole text otherwise. */
  function ReadLines(lines: seq<string>, begin: Option<int>, number: Option<int>): (r: ReadOutcome)
    ensures begin.None? && number.None? ==> r == WholeFile(Concat(lines))
    ensures (begin.Some? || number.Some?) ==> (r.BeyondEnd? <==> WindowStart(begin) >= |lines|)
    ensures r.BeyondEnd? ==> r.totalLines == |lines|
    ensures r.Window? ==> r.beginLine == WindowStart(begin) + 1 && r.totalLines == |lines|
  {
    if begin.None? && number.None? then WholeFile(Concat(lines))
    else
      var start := WindowStart(begin);
      if start >= |lines| then BeyondEnd(begin, |lines|)
      else
        var end := if number.Some? then
            (if start + number.value < |lines| then start + number.value else |lines|)
          else |lines|;
        var selected := PySlice(lines, start, end);
        Window(Concat(selected), |lines|, start + 1, end, |selected|)
  }

  /** With a non-negative count (or none) the window is the 1-based lines
      `begin_line`..`end_line` of the file, where `end_line` stops at the
      count or at the end of the file. */
  lemma WindowContents(lines: seq<string>, begin: Option<int>, number: Option<int>)
    requires ReadLines(lines, begin, number).Window?
    requires number.None? || number.value >= 0
    ensures var r := ReadLines(lines, begin, number);
      1 <= r.beginLine <= r.endLine + 1 && r.endLine <= |lines|
      && r.linesRead == r.endLine - r.beginLine + 1
      && r.content == Concat(lines[r.beginLine - 1..r.endLine])
      && r.endLine == if number.Some? && WindowStart(begin) + number.value < |lines|
                      then WindowStart(begin) + number.value else |lines|
  {
  }

  lemma FirstWindow(lines: seq<string>, k: nat)
    requires 0 < k < |lines|
    ensures ReadLines(lines, Some(1), Some(k)) == Window(Concat(lines[..k]), |lines|, 1, k, k)
  {
    assert WindowStart(Some(1)) == 0;
    assert PySlice(lines, 0, k) == lines[..k];
  }

  lemma RestWindow(lines: seq<string>, k: nat)
    requires 0 < k < |lines|
    ensures ReadLines(lines, Some(k + 1), None)
            == Window(Concat(lines[k..]), |lines|, k + 1, |lines|, |lines| - k)
  {
    assert WindowStart(Some(k + 1)) == k;
    assert PySlice(lines, k, |lines|) == lines[k..];
  }

  /** Two consecutive windows read the whole file back. */
  lemma WindowsTile(lines: seq<string>, k: nat)
    requires 0 < k < |lines|
    ensures ReadLines(lines, Some(1), Some(k)).Window?
    ensures ReadLines(lines, Some(k + 1), None).Window?
    ensures ReadLines(lines, Some(1), Some(k)).content
            + ReadLines(lines, Some(k + 1), None).content == Concat(lines)
  {
    FirstWindow(lines, k);
    RestWindow(lines, k);
    ConcatSplit(lines, k);
  }

  /** A negative `number_lines` is not rejected: from the first line, a
      count of -1 selects every line but the last, through Python's
      negative slice bound, while `end_line` reports -1. */
  lemma NegativeCountReadsFromEnd(lines: seq<string>)
    requires |lines| >= 2
    ensures ReadLines(lines, None, Some(-1)) ==
      Window(Concat(lines[..|lines| - 1]), |lines|, 1, -1, |lines| - 1)
  {
  }

  // ---------------------------------------------------------------------
  // Tool dispatch and the event loop

  /** What a host-side handler did: returned a result or raised. */
  datatype HandlerOutcome =
    | Returned(result: Json)
    | Raised(excType: string, message: string, traceback: string)

  datatype AgentConfig = AgentConfig(
    enableTimestamps: bool,
    enableToolCounter: bool,
    enableDetailedErrors: bool,
    verbose: bool)

  /** Parsed tool arguments: whatever value `json.loads` gives, an object
      or not, or the message of the JSON decoding error. */
  datatype ParsedArgs = ArgsOk(value: Json) | ArgsBad(message: string)

  /** A tool call as the model emits it. `argsDump` is the indented JSON
      rendering of the arguments and `trace` the text `traceback.format_exc()`
      gives should the call raise; both are taken as given. `external` is
      what a host-side handler (read_file, write_file, code_interpreter,
      execute_command) does. */
  datatype ToolCallReq = ToolCallReq(
    id: string,
    name: string,
    args: ParsedArgs,
    argsDump: string,
    trace: string,
    external: HandlerOutcome)

  /** One provider call: a message, or an exception from the client. */
  datatype Reply =
    | Answer(content: Option<string>, toolCalls: seq<ToolCallReq>)
    | ProviderError(message: string)

  datatype Message =
    | SystemMsg(prompt: string)
    | UserMsg(text: string)
    | AssistantMsg(content: Option<string>, toolCallIds: seq<string>)
    | ToolMsg(toolCallId: string, header: Option<string>, result: Json)

  datatype ToolCallRecord = ToolCallRecord(
    toolName: string,
    arguments: Json,
    result: Option<Json>,
    error: Option<string>,
    callNumber: nat)

  datatype HandleOutcome =
    | Handled(finalAnswer: Option<string>, iterations: nat, success: bool)
    | Aborted(error: string, iterations: nat)

  const Marker := "FINAL ANSWER:"

  const BuiltinTools: set<string> := {
    "read_file", "write_file", "code_interpreter", "execute_command",
    "rewrite_todo_list", "update_todo_status"}

  /** The built-in tools whose handlers are host-side. */
  const HostTools: set<string> := {"read_file", "write_file", "code_interpreter", "execute_command"}

  predicate HasMarker(r: Reply) {
    r.Answer? && r.content.Some? && r.content.value != "" && Find(r.content.value, Marker, 0).Some?
  }

  /** The marker test is Python's `"FINAL ANSWER:" in content` on a non-empty content. */
  lemma HasMarkerMeaning(r: Reply)
    ensures HasMarker(r) <==>
      r.Answer? && r.content.Some? && r.content.value != "" && Contains(r.content.value, Marker)
  {
    if r.Answer? && r.content.Some? {
      FindContains(r.content.value, Marker);
    }
  }

  /** The text between the first marker and the next one (or the end), stripped. */
  function FinalAnswer(content: string): (a: string)
    requires Find(content, Marker, 0).Some?
    ensures a == PyStrip(SecondPiece(content, Marker))
  {
    SplitSecondAt(content, Marker);
    PyStrip(Split(content, Marker)[1])
  }

  /** The reply of the `k`-th provider call; once the script is exhausted the
      client raises. */
  function ReplyAt(replies: seq<Reply>, k: nat): Reply {
    if k < |replies| then replies[k] else ProviderError("no scripted reply")
  }

  /** The tool calls a reply makes the agent run: none when it carries the marker. */
  function CallsRun(r: Reply): seq<ToolCallReq> {
    if r.Answer? && !HasMarker(r) then r.toolCalls else []
  }

  function CallIds(calls: seq<ToolCallReq>): (r: seq<string>)
    ensures |r| == |calls|
  {
    seq(|calls|, k requires 0 <= k < |calls| => calls[k].id)
  }

  function CallNames(calls: seq<ToolCallReq>): (r: seq<string>)
    ensures |r| == |calls|
  {
    seq(|calls|, k requires 0 <= k < |calls| => calls[k].name)
  }

  /** The tool-call ids carried by the tool messages, in order. */
  function ToolIds(ms: seq<Message>): seq<string> {
    if |ms| == 0 then []
    else ToolIds(ms[..|ms| - 1]) + (if ms[|ms| - 1].ToolMsg? then [ms[|ms| - 1].toolCallId] else [])
  }

  lemma {:induction false} ToolIdsAppend(ms: seq<Message>, m: Message)
    ensures ToolIds(ms + [m]) == ToolIds(ms) + (if m.ToolMsg? then [m.toolCallId] else [])
  {
    assert (ms + [m])[..|ms|] == ms;
  }

  /** One more message keeps the first `keep` and adds its id, if it is a
      tool message, to the ids after them. */
  lemma SnocKeeps(h: seq<Message>, m: Message, keep: nat)
    requires keep <= |h|
    ensures (h + [m])[..keep] == h[..keep]
    ensures ToolIds((h + [m])[keep..]) == ToolIds(h[keep..]) + (if m.ToolMsg? then [m.toolCallId] else [])
  {
    assert (h + [m])[keep..] == h[keep..] + [m];
    ToolIdsAppend(h[keep..], m);
  }

  /** Counter of each tool name, bumped once per call. */
  function Bump(counts: map<string, nat>, name: string): map<string, nat> {
    counts[name := (if name in counts then counts[name] else 0) + 1]
  }

  function BumpAll(counts: map<string, nat>, names: seq<string>): map<string, nat> {
    if |names| == 0 then counts else Bump(BumpAll(counts, names[..|names| - 1]), names[|names| - 1])
  }

  function Occurrences(names: seq<string>, name: string): nat {
    if |names| == 0 then 0
    else Occurrences(names[..|names| - 1], name) + (if names[|names| - 1] == name then 1 else 0)
  }

  /** After a run of calls each tool's counter has grown by the number of its calls. */
  lemma {:induction false} BumpAllCounts(counts: map<string, nat>, names: seq<string>, name: string)
    ensures name in BumpAll(counts, names) <==> name in counts || Occurrences(names, name) > 0
    ensures name in BumpAll(counts, names) ==>
      BumpAll(counts, names)[name]
      == (if name in counts then counts[name] else 0) + Occurrences(names, name)
  {
    if |names| > 0 {
      BumpAllCounts(counts, names[..|names| - 1], name);
    }
  }

  lemma CallIdsAppend(a: seq<ToolCallReq>, b: seq<ToolCallReq>)
    ensures CallIds(a + b) == CallIds(a) + CallIds(b)
    ensures CallNames(a + b) == CallNames(a) + CallNames(b)
  {
  }

  /** The ids and names of one more call. */
  lemma CallsSnoc(calls: seq<ToolCallReq>, j: nat)
    requires j < |calls|
    ensures CallIds(calls[..j + 1]) == CallIds(calls[..j]) + [calls[j].id]
    ensures CallNames(calls[..j + 1]) == CallNames(calls[..j]) + [calls[j].name]
  {
  }

  lemma {:induction false} BumpAllAppend(counts: map<string, nat>, a: seq<string>, b: seq<string>)
    ensures BumpAll(counts, a + b) == BumpAll(BumpAll(counts, a), b)
    decreases |b|
  {
    if |b| == 0 {
      assert a + b == a;
    } else {
      BumpAllAppend(counts, a, b[..|b| - 1]);
      assert (a + b)[..|a + b| - 1] == a + b[..|b| - 1];
    }
  }

  /** All tool calls run by the first `n` provider replies, in emission order. */
  function CallsUpTo(replies: seq<Reply>, n: nat): seq<ToolCallReq> {
    if n == 0 then [] else CallsUpTo(replies, n - 1) + CallsRun(ReplyAt(replies, n - 1))
  }

  /** The TypeError `v[:100]` raises when `v` cannot be sliced, with
      Python 3.11's texts (a JSON integer is a Python int). */
  function SliceError(v: Json): (r: Option<string>)
    ensures r.None? <==> v.JStr? || v.JArr?
  {
    match v
    case JNull => Some("'NoneType' object is not subscriptable")
    case JBool(_) => Some("'bool' object is not subscriptable")
    case JNum(n) => Some(if n == n.Floor as real then "'int' object is not subscriptable"
                         else "'float' object is not subscriptable")
    case JObj(_) => Some("unhashable type: 'slice'")
    case _ => None
  }

  /** The exception the logging after `_execute_tool` raises, if any. With
      no error text, a dict result is described: a successful one by its
      output, content or path, which never raises; one whose "success" is
      exactly False and which is not flagged binary by the first 100 items
      of its "error" entry, "Unknown error" when there is none. The slice is
      taken before anything is printed, so an entry that cannot be sliced
      raises there. */
  function LogRaises(result: Json, error: Option<string>): (r: Option<string>)
    ensures r.Some? ==>
      && (error.None? || error == Some(""))
      && result.JObj? && "success" in result.fields && result.fields["success"] == JBool(false)
      && "error" in result.fields && r == SliceError(result.fields["error"])
    ensures r.None? && (error.None? || error == Some("")) && result.JObj?
            && "success" in result.fields && result.fields["success"] == JBool(false)
            && "error" in result.fields && !result.fields["error"].JStr? && !result.fields["error"].JArr?
            ==> "is_binary" in result.fields && Truthy(result.fields["is_binary"])
  {
    if error.Some? && error.value != "" then None
    else if !result.JObj? then None
    else
      var f := result.fields;
      if Get(f, "success", JNull) != JBool(false) then None
      else if Truthy(Get(f, "is_binary", JNull)) then None
      else if "error" !in f then None
      else SliceError(f["error"])
  }

  /** The exception a call's logging raises, from the call alone: only a
      host-side handler that is reached and returns can produce a failed
      result with no error text; every other outcome comes with an error
      text or reports success. */
  function LogCrash(call: ToolCallReq): Option<string>
    requires call.args.ArgsOk?
  {
    if call.name in HostTools && call.args.value.JObj? && call.external.Returned?
    then LogRaises(call.external.result, None)
    else None
  }

  /** `_tool_execute_command`'s result for a command that ran: stderr is
      reported as "error" only when it is not empty. */
  function CommandResult(command: string, stdout: string, stderr: string, code: int, dir: string): Json {
    JObj(map[
      "success" := JBool(code == 0),
      "command" := JStr(command),
      "output" := JStr(stdout),
      "error" := if stderr != "" then JStr(stderr) else JNull,
      "return_code" := JNum(code as real),
      "working_dir" := JStr(dir)])
  }

  /** A command that fails without writing to stderr (`false`, a `grep`
      that matches nothing) makes the logging raise; every other command
      result is logged. */
  lemma CommandLogging(command: string, stdout: string, stderr: string, code: int, dir: string)
    ensures LogRaises(CommandResult(command, stdout, stderr, code, dir), None)
            == if code != 0 && stderr == "" then Some("'NoneType' object is not subscriptable") else None
  {
    var f := CommandResult(command, stdout, stderr, code, dir).fields;
    assert f["success"] == JBool(code == 0) && "is_binary" !in f;
    assert f["error"] == if stderr != "" then JStr(stderr) else JNull;
  }

  /** The exception one call of a batch ends the event with, if any: the
      decoding error of its arguments, or the TypeError its logging raises. */
  function CallAbort(call: ToolCallReq): (r: Option<string>)
    ensures call.args.ArgsBad? ==> r == Some(call.args.message)
    ensures call.args.ArgsOk? ==> r == LogCrash(call)
  {
    if call.args.ArgsBad? then Some(call.args.message) else LogCrash(call)
  }

  /** The first exception among a batch of calls, in emission order. */
  function FirstAbort(calls: seq<ToolCallReq>): (r: Option<string>)
    ensures r.None? <==> forall k :: 0 <= k < |calls| ==> CallAbort(calls[k]).None?
    ensures forall k :: 0 <= k < |calls| && CallAbort(calls[k]).Some? ==> r.Some?
  {
    if |calls| == 0 then None
    else if CallAbort(calls[0]).Some? then CallAbort(calls[0])
    else
      var rest := FirstAbort(calls[1..]);
      assert forall k :: 1 <= k < |calls| ==> calls[k] == calls[1..][k - 1];
      rest
  }

  /** The iteration bound: `range(max_iterations)` runs no pass for a negative bound. */
  function Bound(maxIterations: int): (b: nat)
    ensures maxIterations >= 0 ==> b == maxIterations
  {
    if maxIterations < 0 then 0 else maxIterations
  }

  /** The outcome the event loop reaches from provider call `i` on: a provider
      error, a bad tool-call argument or a call whose logging raises aborts,
      a reply with the marker ends with its answer, and exhausting the bound
      ends without one. */
  function Expected(replies: seq<Reply>, bound: nat, i: nat): HandleOutcome
    requires i <= bound
    decreases bound - i
  {
    if i == bound then Handled(None, bound, false)
    else
      var reply := ReplyAt(replies, i);
      if reply.ProviderError? then Aborted(reply.message, i + 1)
      else if HasMarker(reply) then Handled(Some(FinalAnswer(reply.content.value)), i + 1, true)
      else if FirstAbort(reply.toolCalls).Some? then Aborted(FirstAbort(reply.toolCalls).value, i + 1)
      else Expected(replies, bound, i + 1)
  }

  /** The loop stops within the bound and asks for at least one reply when
      the bound allows one. */
  lemma {:induction false} ExpectedBounds(replies: seq<Reply>, bound: nat, i: nat)
    requires i <= bound
    ensures i <= Expected(replies, bound, i).iterations <= bound
    ensures i < bound ==> i < Expected(replies, bound, i).iterations
    decreases bound - i
  {
    if i < bound {
      var reply := ReplyAt(replies, i);
      if !reply.ProviderError? && !HasMarker(reply) && FirstAbort(reply.toolCalls).None? {
        ExpectedBounds(replies, bound, i + 1);
      }
    }
  }

  /** Success is reported exactly when an answer was found; the answer is
      taken from the first reply with the marker, and every reply before the
      last one asked for lacks it. */
  lemma {:induction false} ExpectedAnswer(replies: seq<Reply>, bound: nat, i: nat)
    requires i <= bound
    ensures var o := Expected(replies, bound, i);
      o.Handled? ==> (o.success <==> o.finalAnswer.Some?)
    ensures var o := Expected(replies, bound, i);
      forall k :: i <= k < o.iterations - 1 ==> !HasMarker(ReplyAt(replies, k))
    ensures var o := Expected(replies, bound, i);
      o.Handled? && o.finalAnswer.Some? ==>
        o.iterations >= 1
        && HasMarker(ReplyAt(replies, o.iterations - 1))
        && o.finalAnswer.value == FinalAnswer(ReplyAt(replies, o.iterations - 1).content.value)
    decreases bound - i
  {
    if i < bound {
      var reply := ReplyAt(replies, i);
      if !reply.ProviderError? && !HasMarker(reply) && FirstAbort(reply.toolCalls).None? {
        ExpectedAnswer(replies, bound, i + 1);
      }
    }
  }

  /** Running out of passes means no reply within the bound carried the marker. */
  lemma {:induction false} ExpectedExhausted(replies: seq<Reply>, bound: nat, i: nat)
    requires i <= bound
    requires Expected(replies, bound, i).Handled? && Expected(replies, bound, i).finalAnswer.None?
    ensures Expected(replies, bound, i).iterations == bound
    ensures forall k :: i <= k < bound ==> !HasMarker(ReplyAt(replies, k))
    decreases bound - i
  {
    if i < bound {
      ExpectedExhausted(replies, bound, i + 1);
    }
  }

  /** An aborted loop names the error: a provider error from the last reply
      it asked for, or the first exception among that reply's tool calls, a
      bad argument or a logging TypeError. */
  lemma {:induction false} ExpectedAbort(replies: seq<Reply>, bound: nat, i: nat)
    requires i <= bound
    requires Expected(replies, bound, i).Aborted?
    ensures i < Expected(replies, bound, i).iterations
    ensures var o := Expected(replies, bound, i);
      var last := ReplyAt(replies, o.iterations - 1);
      ((last.ProviderError? && o.error == last.message)
          || (last.Answer? && !HasMarker(last) && FirstAbort(last.toolCalls) == Some(o.error)))
    decreases bound - i
  {
    var reply := ReplyAt(replies, i);
    if !reply.ProviderError? && !HasMarker(reply) && FirstAbort(reply.toolCalls).None? {
      ExpectedAbort(replies, bound, i + 1);
    }
  }

  /** A reply whose first call runs a command that fails silently ends the
      event with the logging TypeError, in the pass that asked for it. */
  lemma SilentFailureAborts(replies: seq<Reply>, bound: nat, i: nat, m: map<string, Json>,
                            command: string, stdout: string, code: int, dir: string)
    requires i < bound && code != 0
    requires ReplyAt(replies, i).Answer? && !HasMarker(ReplyAt(replies, i))
    requires |ReplyAt(replies, i).toolCalls| > 0
    requires ReplyAt(replies, i).toolCalls[0].name == "execute_command"
    requires ReplyAt(replies, i).toolCalls[0].args == ArgsOk(JObj(m))
    requires ReplyAt(replies, i).toolCalls[0].external == Returned(CommandResult(command, stdout, "", code, dir))
    ensures Expected(replies, bound, i) == Aborted("'NoneType' object is not subscriptable", i + 1)
  {
    CommandLogging(command, stdout, "", code, dir);
  }

  /** Counters after a run of calls: bumped per call when counting is on. */
  function Counted(counts: map<string, nat>, calls: seq<ToolCallReq>, config: AgentConfig): map<string, nat> {
    if config.enableToolCounter then BumpAll(counts, CallNames(calls)) else counts
  }

  /** The state of the event loop after the replies that ran `calls`:
      the history still starts with `front`, answers exactly those calls
      with tool messages in order, and counts and records them. */
  /** A history that starts with `front + [m]` starts with `front`, and `m`
      comes right after it. */
  lemma ExtendedPrefix<T>(h: seq<T>, front: seq<T>, m: T)
    requires |h| >= |front| + 1 && h[..|front| + 1] == front + [m]
    ensures |h| > |front| && h[..|front|] == front && h[|front|] == m
  {
    assert h[..|front|] == h[..|front| + 1][..|front|];
  }

  ghost predicate Progress(h: seq<Message>, counts: map<string, nat>, nCalls: nat,
                           front: seq<Message>, counts0: map<string, nat>, nCalls0: nat,
                           calls: seq<ToolCallReq>, config: AgentConfig)
  {
    |h| >= |front| && h[..|front|] == front
    && ToolIds(h[|front|..]) == CallIds(calls)
    && counts == Counted(counts0, calls, config)
    && nCalls == nCalls0 + |calls|
  }

  lemma ProgressExtend(h: seq<Message>, counts: map<string, nat>, nCalls: nat,
                       front: seq<Message>, counts0: map<string, nat>, nCalls0: nat,
                       calls: seq<ToolCallReq>, config: AgentConfig,
                       h': seq<Message>, counts': map<string, nat>, nCalls': nat,
                       more: seq<ToolCallReq>)
    requires Progress(h, counts, nCalls, front, counts0, nCalls0, calls, config)
    requires |h'| >= |h| && h'[..|front|] == h[..|front|]
    requires ToolIds(h'[|front|..]) == ToolIds(h[|front|..]) + CallIds(more)
    requires counts' == Counted(counts, more, config)
    requires nCalls' == nCalls + |more|
    ensures Progress(h', counts', nCalls', front, counts0, nCalls0, calls + more, config)
  {
    CallIdsAppend(calls, more);
    BumpAllAppend(counts0, CallNames(calls), CallNames(more));
  }

  /** The user message an event becomes, with the timestamp prefix when enabled. */
  function UserMessage(e: EventTypes.Event, config: AgentConfig, stamp: string): string {
    (if config.enableTimestamps then "[" + stamp + "] " else "") + EventTypes.ToUserMessage(e)
  }

  function ErrorObject(message: string): Json {
    JObj(map["error" := JStr(message)])
  }

  // ---------------------------------------------------------------------
  // Calling a handler with `**arguments`

  /** The class whose bound methods the handlers are, and the module it is
      imported from; Python names a method by its qualified name in a
      binding error, and by its module and qualified name when `**` is given
      something other than a mapping. */
  const AgentClass := "EventTriggeredAgent"
  const AgentModule := "agent"

  /** The name of the Python type `json.loads` gives for `v`. */
  function PyTypeName(v: Json): string {
    match v
    case JNull => "NoneType"
    case JBool(_) => "bool"
    case JNum(n) => if n == n.Floor as real then "int" else "float"
    case JStr(_) => "str"
    case JArr(_) => "list"
    case JObj(_) => "dict"
  }

  /** The TypeError of `self._tool_<name>(**v)` for a `v` that is not a
      dict; it is raised before the handler runs. */
  function MappingError(name: string, v: Json): (r: string)
    requires !v.JObj?
    ensures exists pre :: r == pre + "() argument after ** must be a mapping, not " + PyTypeName(v)
  {
    var pre := AgentModule + "." + AgentClass + "._tool_" + name;
    pre + "() argument after ** must be a mapping, not " + PyTypeName(v)
  }

  /** The TypeError of binding `**args` to `name(self, param)`, if binding
      fails. Python goes through the keywords in the dictionary's order and
      stops at the first one that is not `param`, which is `extra` here:
      `self` is bound already, any other name is unknown. Only when every
      keyword is `param` does it look for the missing argument. */
  function BindError(name: string, param: string, args: map<string, Json>, extra: string): (r: Option<string>)
    ensures r.None? <==> args.Keys == {param}
  {
    if args.Keys - {param} != {} then
      if extra == "self" then Some(AgentClass + "." + name + "() got multiple values for argument 'self'")
      else Some(AgentClass + "." + name + "() got an unexpected keyword argument '" + extra + "'")
    else if param !in args then
      Some(AgentClass + "." + name + "() missing 1 required positional argument: '" + param + "'")
    else None
  }

  /** The TypeError `for x in v` raises when `v` is not iterable. */
  function NotIterable(v: Json): (r: Option<string>)
    ensures r.None? <==> v.JArr? || v.JStr? || v.JObj?
  {
    match v
    case JNum(n) => Some(if n == n.Floor as real then "'int' object is not iterable" else "'float' object is not iterable")
    case JBool(_) => Some("'bool' object is not iterable")
    case JNull => Some("'NoneType' object is not iterable")
    case _ => None
  }

  /** `order` lists every key of `m` exactly once, as the dictionary's
      insertion order does. */
  ghost predicate KeyOrder(order: seq<string>, m: map<string, Json>) {
    |order| == |m.Keys| && forall k :: k in m.Keys <==> k in order
  }

  /** What `for x in v` yields from an iterable `v`: a list's items, a
      string's characters as one-character strings, a dictionary's keys in
      its insertion order `order`. */
  function Elements(v: Json, order: seq<string>): (r: seq<Json>)
    requires NotIterable(v).None?
  {
    match v
    case JArr(items) => items
    case JStr(s) => seq(|s|, k requires 0 <= k < |s| => JStr([s[k]]))
    case JObj(_) => seq(|order|, k requires 0 <= k < |order| => JStr(order[k]))
  }

  /** What a TODO handler gets to loop over, or the TypeError it raises
      before its loop. */
  datatype HandlerInput = Iterated(values: seq<Json>) | Refused(message: string)

  /** `self.<name>(**args)` up to the handler's `for x in <param>`: binding
      the keywords, then iterating the argument. */
  function ToolInput(name: string, param: string, args: map<string, Json>, extra: string, order: seq<string>): HandlerInput {
    var bad := BindError(name, param, args, extra);
    if bad.Some? then Refused(bad.value)
    else if NotIterable(args[param]).Some? then Refused(NotIterable(args[param]).value)
    else Iterated(Elements(args[param], order))
  }

  /** A dict result whose "success" is True. */
  predicate Succeeded(j: Json) {
    j.JObj? && "success" in j.fields && j.fields["success"] == JBool(true)
  }

  /** `extra` and `order` stand for the orders the map does not keep: the
      first keyword that is not `param`, and the insertion order of a
      dictionary passed as `param`. */
  ghost predicate Orders(args: map<string, Json>, param: string, extra: string, order: seq<string>) {
    && (args.Keys - {param} != {} ==> extra in args.Keys - {param})
    && (param in args && args[param].JObj? ==> KeyOrder(order, args[param].fields))
  }

  /** The handler's input: it refuses exactly when the keywords are not
      `param` alone or the argument is not iterable, with the binding error
      first; otherwise it loops over a list's items in order, over a
      string's characters in order, or over each key of a dictionary once. */
  lemma ToolInputMeaning(name: string, param: string, args: map<string, Json>, extra: string, order: seq<string>)
    requires Orders(args, param, extra, order)
    ensures var r := ToolInput(name, param, args, extra, order);
      && (r.Refused? <==> args.Keys != {param} || !(args[param].JArr? || args[param].JStr? || args[param].JObj?))
      && (args.Keys != {param} ==> r == Refused(BindError(name, param, args, extra).value))
      && (args.Keys - {param} != {} && extra != "self" ==>
            r.message == AgentClass + "." + name + "() got an unexpected keyword argument '" + extra + "'"
            && extra in args && extra != param)
      && (args.Keys == {} ==> r.message == AgentClass + "." + name + "() missing 1 required positional argument: '" + param + "'")
      && (args.Keys == {param} && args[param].JNull? ==> r == Refused("'NoneType' object is not iterable"))
      && (args.Keys == {param} && args[param].JArr? ==> r == Iterated(args[param].items))
      && (args.Keys == {param} && args[param].JStr? ==>
            r.Iterated? && |r.values| == |args[param].s|
            && forall k :: 0 <= k < |r.values| ==> r.values[k] == JStr([args[param].s[k]]))
      && (args.Keys == {param} && args[param].JObj? ==>
            r.Iterated? && |r.values| == |args[param].fields|
            && forall k :: k in args[param].fields <==> JStr(k) in r.values)
  {
    var r := ToolInput(name, param, args, extra, order);
    if args.Keys == {param} && args[param].JObj? {
      var m := args[param].fields;
      forall k ensures k in m <==> JStr(k) in r.values {
        if k in m {
          var i :| 0 <= i < |order| && order[i] == k;
          assert r.values[i] == JStr(k);
        }
      }
    }
  }

  /** A string argument is looped over character by character: rewriting
      with `"ab"` adds the items "a" and "b". */
  lemma StringIteratedByCharacter(extra: string, order: seq<string>)
    ensures ToolInput("_tool_rewrite_todo_list", "items", map["items" := JStr("ab")], extra, order)
            == Iterated([JStr("a"), JStr("b")])
  {
  }

  /** A dictionary of updates is looped over by key, and a key is a string,
      so the first update raises the same TypeError whatever the order;
      an empty dictionary or string applies nothing. */
  lemma KeyedUpdatesRaise(items: seq<TodoItem>, m: map<string, Json>, order: seq<string>, now: string)
    requires KeyOrder(order, m)
    ensures var es := Entries(Elements(JObj(m), order));
      RunUpdates(items, es, now)
        == if |m| == 0 then UpdateRun(items, 0, 0, None)
           else UpdateRun(items, 0, 0, Some(Bad("TypeError", "string indices must be integers, not 'str'")))
  {
    var es := Entries(Elements(JObj(m), order));
    if |m| > 0 {
      var k :| k in m;
      assert |es| > 0;
      assert es[..0] == [];
      RunUpdatesStops(items, es, 0, now, UpdateRun(items, 0, 0, None));
    } else {
      assert es == [];
    }
  }

  /** One keyword that is not `param`, if there is one: the one Python
      reports. Which one comes first is not kept by the map. */
  method UnexpectedKey(args: map<string, Json>, param: string) returns (extra: string)
    ensures args.Keys - {param} != {} ==> extra in args.Keys - {param}
  {
    extra := "";
    if args.Keys - {param} != {} {
      extra :| extra in args.Keys - {param};
    }
  }

  /** What `_tool_rewrite_todo_list` does with its input, from the list
      `items` and the next id `next` to `items'` and `next'`: a refused
      input raises its TypeError and changes nothing; otherwise the finished
      items are kept, one pending item per value looped over is added with
      consecutive ids, and the counts are returned. */
  ghost predicate Rewrote(items: seq<TodoItem>, next: int, items': seq<TodoItem>, next': int,
                          input: HandlerInput, outcome: HandlerOutcome, now: string, trace: string)
  {
    && (input.Refused? ==>
          outcome == Raised("TypeError", input.message, trace) && items' == items && next' == next)
    && (input.Iterated? ==>
          && items' == Kept(items) + NewItems(input.values, next, now)
          && next' == next + |input.values|
          && outcome == Returned(JObj(map[
               "success" := JBool(true),
               "kept_items" := JNum(|Kept(items)| as real),
               "new_items" := JNum(|input.values| as real),
               "total_items" := JNum(|items'| as real)])))
  }

  /** What `_tool_update_todo_status` does with its input: a refused input
      raises its TypeError and changes nothing; otherwise the list becomes
      that of the update run over the values looped over, which raises the
      first bad entry's exception or returns the counts. */
  ghost predicate Updated(items: seq<TodoItem>, items': seq<TodoItem>, input: HandlerInput,
                          outcome: HandlerOutcome, now: string, trace: string)
  {
    && (input.Refused? ==> outcome == Raised("TypeError", input.message, trace) && items' == items)
    && (input.Iterated? ==>
          var run := RunUpdates(items, Entries(input.values), now);
          && items' == run.items
          && (outcome.Raised? <==> run.failure.Some?)
          && (outcome.Raised? ==> run.failure == Some(Bad(outcome.excType, outcome.message)) && outcome.traceback == trace)
          && (outcome.Returned? ==>
                outcome.result == JObj(map[
                  "success" := JBool(true),
                  "updated_items" := JNum(run.updated as real),
                  "total_items" := JNum(|items'| as real)])))
  }

  /** The keys of `m`, each once, in the order a loop over the dictionary
      meets them. */
  method KeysInOrder(m: map<string, Json>) returns (order: seq<string>)
    ensures KeyOrder(order, m)
  {
    order := [];
    var rest := m.Keys;
    while rest != {}
      invariant rest <= m.Keys && |order| + |rest| == |m.Keys|
      invariant forall k :: k in m.Keys <==> k in order || k in rest
      invariant forall k :: k in order ==> k !in rest
      decreases |rest|
    {
      var k :| k in rest;
      order := order + [k];
      rest := rest - {k};
    }
  }

  /** The error text a raised handler turns into. */
  function RaisedText(config: AgentConfig, name: string, e: HandlerOutcome, argsDump: string): string
    requires e.Raised?
  {
    if config.enableDetailedErrors then
      DetailedError(name, e.excType, e.message, argsDump,
                    if config.verbose then Some(e.traceback) else None)
    else e.message
  }

  /** The result and error a handler's outcome becomes: its return value,
      or an `{"error": …}` pair with the plain or detailed text. */
  function HandlerReply(config: AgentConfig, call: ToolCallReq, outcome: HandlerOutcome): (r: (Json, Option<string>))
    ensures outcome.Returned? ==> r == (outcome.result, None)
    ensures outcome.Raised? ==>
      r.1 == Some(RaisedText(config, call.name, outcome, call.argsDump)) && r.0 == ErrorObject(r.1.value)
  {
    if outcome.Returned? then (outcome.result, None)
    else
      var text := RaisedText(config, call.name, outcome, call.argsDump);
      (ErrorObject(text), Some(text))
  }

  /** How `_execute_tool` answers the TODO tools, from the list `items` and
      next id `next` to `items'` and `next'`: there are keyword and key
      orders (the ones the map does not keep) under which the handler's
      input, its effect on the list and its outcome are as `Rewrote` or
      `Updated` say, with the call's traceback on an exception, and the
      result and error are that outcome's reply. */
  ghost predicate TodoDispatched(config: AgentConfig, call: ToolCallReq, args: map<string, Json>, now: string,
                                 items: seq<TodoItem>, next: int, items': seq<TodoItem>, next': int,
                                 result: Json, error: Option<string>)
  {
    && (call.name == "rewrite_todo_list" ==>
          exists extra, order, outcome :: Orders(args, "items", extra, order)
            && Rewrote(items, next, items', next',
                       ToolInput("_tool_rewrite_todo_list", "items", args, extra, order), outcome, now, call.trace)
            && (result, error) == HandlerReply(config, call, outcome))
    && (call.name == "update_todo_status" ==>
          && next' == next
          && (exists extra, order, outcome :: Orders(args, "updates", extra, order)
                && Updated(items, items', ToolInput("_tool_update_todo_status", "updates", args, extra, order),
                           outcome, now, call.trace)
                && (result, error) == HandlerReply(config, call, outcome)))
  }

  /** The header of a tool message: the timestamp and the call number, each
      when enabled, joined by a space. */
  function ToolHeader(config: AgentConfig, stamp: string, callNumber: nat, name: string): (r: Option<string>)
    ensures r.Some? <==> config.enableTimestamps || config.enableToolCounter
  {
    var parts := (if config.enableTimestamps then ["[" + stamp + "]"] else [])
      + (if config.enableToolCounter
         then ["[Tool call #" + NatToDecimal(callNumber) + " for '" + name + "']"]
         else []);
    if |parts| > 0 then Some(Join(parts, " ")) else None
  }

  class Agent {
    var todoList: seq<TodoItem>
    var nextTodoId: int
    var toolCallCounts: map<string, nat>
    var toolCalls: seq<ToolCallRecord>
    var history: seq<Message>
    const config: AgentConfig
    const systemPrompt: string

    ghost predicate Valid()
      reads this
    {
      nextTodoId >= 1 && IdsIncreasingBelow(todoList, nextTodoId)
    }

    constructor(config: AgentConfig, systemPrompt: string)
      ensures Valid()
      ensures this.config == config && this.systemPrompt == systemPrompt
      ensures todoList == [] && nextTodoId == 1
      ensures toolCallCounts == map[] && toolCalls == []
      ensures history == [SystemMsg(systemPrompt)]
    {
      this.config := config;
      this.systemPrompt := systemPrompt;
      todoList := [];
      nextTodoId := 1;
      toolCallCounts := map[];
      toolCalls := [];
      history := [SystemMsg(systemPrompt)];
    }

    /** `reset`: back to an empty TODO list numbered from 1 and a fresh conversation. */
    method Reset()
      modifies this
      ensures Valid()
      ensures todoList == [] && nextTodoId == 1
      ensures toolCallCounts == map[] && toolCalls == []
      ensures history == [SystemMsg(systemPrompt)]
    {
      toolCallCounts := map[];
      toolCalls := [];
      todoList := [];
      nextTodoId := 1;
      history := [SystemMsg(systemPrompt)];
    }

    /** `_tool_rewrite_todo_list`: keep the finished items, then one pending
        item per string, numbered on from `nextTodoId`. */
    method RewriteTodoList(items: seq<Json>, now: string) returns (kept: nat, added: nat, total: nat)
      requires Valid()
      modifies this`todoList, this`nextTodoId
      ensures Valid()
      ensures todoList == Kept(old(todoList)) + NewItems(items, old(nextTodoId), now)
      ensures nextTodoId == old(nextTodoId) + |items|
      ensures kept == |Kept(old(todoList))| && added == |items| && total == kept + added
      ensures total == |todoList|
    {
      var keptItems := Kept(todoList);
      var newItems: seq<TodoItem> := [];
      var i := 0;
      while i < |items|
        invariant 0 <= i <= |items|
        invariant nextTodoId == old(nextTodoId) + i
        invariant newItems == NewItems(items[..i], old(nextTodoId), now)
      {
        newItems := newItems + [TodoItem(nextTodoId, items[i], Pending, now, None)];
        nextTodoId := nextTodoId + 1;
        i := i + 1;
      }
      assert items[..i] == items;
      todoList := keptItems + newItems;
      RewriteKeepsIds(old(todoList), items, old(nextTodoId), now);
      kept, added, total := |keptItems|, |newItems|, |todoList|;
    }

    /** One update: the first item carrying `id` takes the new status. */
    method SetFirstStatus(id: int, status: TodoStatus, now: string) returns (found: bool)
      requires Valid()
      modifies this`todoList
      ensures Valid()
      ensures todoList == SetStatus(old(todoList), id, status, now)
      ensures found <==> FirstWithId(old(todoList), id).Some?
    {
      var j := 0;
      found := false;
      while j < |todoList|
        invariant 0 <= j <= |todoList|
        invariant todoList == old(todoList)
        invariant forall k :: 0 <= k < j ==> todoList[k].id != id
      {
        if todoList[j].id == id {
          todoList := todoList[j := todoList[j].(status := status, updatedAt := Some(now))];
          found := true;
          assert FirstWithId(old(todoList), id) == Some(j);
          return;
        }
        j := j + 1;
      }
    }

    /** The loop of `_tool_update_todo_status`: entries are applied in
        order until one raises. */
    method ApplyUpdates(updates: seq<Json>, now: string) returns (updated: nat, applied: nat, failure: Option<Entry>)
      requires Valid()
      modifies this`todoList
      ensures Valid()
      ensures RunUpdates(old(todoList), Entries(updates), now) == UpdateRun(todoList, updated, applied, failure)
    {
      ghost var es := Entries(updates);
      ghost var done: seq<Entry> := [];
      updated, applied, failure := 0, 0, None;
      while applied < |updates|
        invariant applied <= |updates| && done == es[..applied]
        invariant Valid()
        invariant RunUpdates(old(todoList), done, now) == UpdateRun(todoList, updated, applied, None)
      {
        var e := ReadUpdate(updates[applied]);
        assert es[applied] == e;
        ghost var r := UpdateRun(todoList, updated, applied, None);
        if e.Bad? {
          failure := Some(e);
          RunUpdatesStops(old(todoList), es, applied, now, r);
          return;
        }
        var found := false;
        if e.id.Some? {
          found := SetFirstStatus(e.id.value, e.status, now);
        }
        RunUpdatesSnoc(old(todoList), done, e, now, r, todoList, found);
        TakeSnoc(es, applied);
        done := done + [e];
        if found {
          updated := updated + 1;
        }
        applied := applied + 1;
      }
      assert es[..applied] == es;
    }

    /** `_tool_update_todo_status`. Entries are applied in order; an entry
        that is not a dict, lacks "id" or "status", or has a status outside
        the enum raises there, after the earlier entries took effect. The
        new list, the count and the exception are those of RunUpdates,
        whose meaning RunUpdatesShape and RunUpdatesMeaning state. */
    method UpdateTodoStatus(updates: seq<Json>, now: string, trace: string) returns (outcome: HandlerOutcome, applied: nat)
      requires Valid()
      modifies this`todoList
      ensures Valid()
      ensures var run := RunUpdates(old(todoList), Entries(updates), now);
        && todoList == run.items && applied == run.applied
        && (outcome.Raised? <==> run.failure.Some?)
        && (outcome.Raised? ==> run.failure == Some(Bad(outcome.excType, outcome.message)) && outcome.traceback == trace)
        && (outcome.Returned? ==>
              outcome.result == JObj(map[
                "success" := JBool(true),
                "updated_items" := JNum(run.updated as real),
                "total_items" := JNum(|todoList| as real)]))
      ensures applied <= |updates|
      ensures outcome.Returned? ==> applied == |updates|
      ensures outcome.Raised? ==> applied < |updates|
      ensures |todoList| == |old(todoList)|
      ensures forall k :: 0 <= k < |todoList| ==>
        todoList[k].id == old(todoList)[k].id && todoList[k].content == old(todoList)[k].content
    {
      var updated, failure;
      updated, applied, failure := ApplyUpdates(updates, now);
      RunUpdatesShape(old(todoList), Entries(updates), now);
      if failure.Some? {
        outcome := Raised(failure.value.excType, failure.value.message, trace);
      } else {
        outcome := Returned(JObj(map[
          "success" := JBool(true),
          "updated_items" := JNum(updated as real),
          "total_items" := JNum(|todoList| as real)]));
      }
    }

    /** `self._tool_rewrite_todo_list(**args)`, with `extra` and `order` the
        keyword and key orders it went by and `trace` the traceback of an
        exception: the binding or iteration error, or the rewrite over
        whatever the loop yields. */
    method RewriteCall(args: map<string, Json>, now: string, trace: string)
      returns (outcome: HandlerOutcome, extra: string, order: seq<string>)
      requires Valid()
      modifies this`todoList, this`nextTodoId
      ensures Valid() && Orders(args, "items", extra, order)
      ensures Rewrote(old(todoList), old(nextTodoId), todoList, nextTodoId,
                      ToolInput("_tool_rewrite_todo_list", "items", args, extra, order), outcome, now, trace)
    {
      extra := UnexpectedKey(args, "items");
      order := [];
      if "items" in args && args["items"].JObj? {
        order := KeysInOrder(args["items"].fields);
      }
      var input := ToolInput("_tool_rewrite_todo_list", "items", args, extra, order);
      if input.Refused? {
        outcome := Raised("TypeError", input.message, trace);
      } else {
        var kept, added, total := RewriteTodoList(input.values, now);
        outcome := Returned(JObj(map[
          "success" := JBool(true),
          "kept_items" := JNum(kept as real),
          "new_items" := JNum(added as real),
          "total_items" := JNum(total as real)]));
      }
    }

    /** `self._tool_update_todo_status(**args)`, with `extra`, `order` and
        `trace` as above: the binding or iteration error, or the update run
        over whatever the loop yields. */
    method UpdateCall(args: map<string, Json>, now: string, trace: string)
      returns (outcome: HandlerOutcome, extra: string, order: seq<string>)
      requires Valid()
      modifies this`todoList
      ensures Valid() && Orders(args, "updates", extra, order)
      ensures Updated(old(todoList), todoList, ToolInput("_tool_update_todo_status", "updates", args, extra, order),
                      outcome, now, trace)
    {
      extra := UnexpectedKey(args, "updates");
      order := [];
      if "updates" in args && args["updates"].JObj? {
        order := KeysInOrder(args["updates"].fields);
      }
      var input := ToolInput("_tool_update_todo_status", "updates", args, extra, order);
      if input.Refused? {
        outcome := Raised("TypeError", input.message, trace);
      } else {
        var applied;
        outcome, applied := UpdateTodoStatus(input.values, now, trace);
      }
    }

    /** A built-in tool's handler called with `**arguments`: anything but a
        dict raises before the handler runs; a host-side handler's outcome is
        given; a TODO handler runs as RewriteCall or UpdateCall say, and
        reports success whenever it returns. */
    method Dispatch(call: ToolCallReq, now: string)
      returns (outcome: HandlerOutcome, extra: string, order: seq<string>)
      requires Valid() && call.args.ArgsOk? && call.name in BuiltinTools
      modifies this`todoList, this`nextTodoId
      ensures Valid()
      ensures !call.args.value.JObj? ==>
        outcome == Raised("TypeError", MappingError(call.name, call.args.value), call.trace)
      ensures !call.args.value.JObj? || call.name in HostTools ==>
        todoList == old(todoList) && nextTodoId == old(nextTodoId)
      ensures call.args.value.JObj? && call.name in HostTools ==> outcome == call.external
      ensures call.args.value.JObj? && call.name == "rewrite_todo_list" ==>
        Orders(call.args.value.fields, "items", extra, order)
        && Rewrote(old(todoList), old(nextTodoId), todoList, nextTodoId,
                   ToolInput("_tool_rewrite_todo_list", "items", call.args.value.fields, extra, order),
                   outcome, now, call.trace)
      ensures call.args.value.JObj? && call.name == "update_todo_status" ==>
        nextTodoId == old(nextTodoId) && Orders(call.args.value.fields, "updates", extra, order)
        && Updated(old(todoList), todoList,
                   ToolInput("_tool_update_todo_status", "updates", call.args.value.fields, extra, order),
                   outcome, now, call.trace)
      ensures call.name !in HostTools && outcome.Returned? ==> Succeeded(outcome.result)
    {
      extra, order := "", [];
      var v := call.args.value;
      if !v.JObj? {
        outcome := Raised("TypeError", MappingError(call.name, v), call.trace);
      } else if call.name in HostTools {
        outcome := call.external;
      } else if call.name == "rewrite_todo_list" {
        outcome, extra, order := RewriteCall(v.fields, now, call.trace);
      } else {
        outcome, extra, order := UpdateCall(v.fields, now, call.trace);
      }
    }

    /** `_execute_tool` for the built-in tools: never raises; an unknown
        name or a raising handler becomes an `{"error": …}` result. Whether
        the logging that follows raises depends on the call alone, as
        LogCrash says. */
    method ExecuteTool(call: ToolCallReq, now: string)
      returns (result: Json, error: Option<string>)
      requires Valid() && call.args.ArgsOk?
      modifies this`todoList, this`nextTodoId
      ensures Valid()
      ensures call.name !in BuiltinTools ==>
        result == ErrorObject("Unknown tool: " + call.name)
        && error == Some("Unknown tool: " + call.name)
        && todoList == old(todoList) && nextTodoId == old(nextTodoId)
      ensures error.Some? ==> result == ErrorObject(error.value)
      ensures call.name in BuiltinTools && !call.args.value.JObj? ==>
        todoList == old(todoList) && nextTodoId == old(nextTodoId)
        && (result, error) == HandlerReply(config, call,
             Raised("TypeError", MappingError(call.name, call.args.value), call.trace))
      ensures call.name in HostTools && call.args.value.JObj? ==>
        todoList == old(todoList) && nextTodoId == old(nextTodoId)
        && (result, error) == HandlerReply(config, call, call.external)
      ensures call.args.value.JObj? ==>
        TodoDispatched(config, call, call.args.value.fields, now,
                       old(todoList), old(nextTodoId), todoList, nextTodoId, result, error)
      ensures LogRaises(result, error) == LogCrash(call)
    {
      if call.name !in BuiltinTools {
        var msg := "Unknown tool: " + call.name;
        return ErrorObject(msg), Some(msg);
      }
      var outcome, extra, order := Dispatch(call, now);
      result, error := HandlerReply(config, call, outcome).0, HandlerReply(config, call, outcome).1;
      if call.args.value.JObj? && call.name == "rewrite_todo_list" {
        assert Rewrote(old(todoList), old(nextTodoId), todoList, nextTodoId,
                       ToolInput("_tool_rewrite_todo_list", "items", call.args.value.fields, extra, order),
                       outcome, now, call.trace);
      } else if call.args.value.JObj? && call.name == "update_todo_status" {
        assert Updated(old(todoList), todoList,
                       ToolInput("_tool_update_todo_status", "updates", call.args.value.fields, extra, order),
                       outcome, now, call.trace);
      }
    }

    /** Runs one tool call whose arguments parsed: bumps its counter and
        executes it; unless the logging then raises, records it and answers
        it with exactly one tool message carrying its id. */
    method RunToolCall(call: ToolCallReq, stamp: string, now: string) returns (abort: Option<string>)
      requires Valid() && call.args.ArgsOk?
      modifies this
      ensures Valid()
      ensures abort == LogCrash(call)
      ensures toolCallCounts == if config.enableToolCounter
                                then Bump(old(toolCallCounts), call.name)
                                else old(toolCallCounts)
      ensures abort.Some? ==> history == old(history) && toolCalls == old(toolCalls)
      ensures abort.None? ==>
        |history| == |old(history)| + 1 && history == old(history) + [history[|old(history)|]]
      ensures abort.None? ==>
        history[|old(history)|].ToolMsg? && history[|old(history)|].toolCallId == call.id
      ensures abort.None? ==>
        |toolCalls| == |old(toolCalls)| + 1 && toolCalls[..|old(toolCalls)|] == old(toolCalls)
    {
      var callNumber := CountCall(call.name);
      abort := AnswerCall(call, callNumber, stamp, now);
    }

    /** Bumps the tool's call counter when counting is enabled; the call's
        number is its new count, or 1 without counting. */
    method CountCall(name: string) returns (callNumber: nat)
      modifies this`toolCallCounts
      ensures toolCallCounts == if config.enableToolCounter then Bump(old(toolCallCounts), name)
                                else old(toolCallCounts)
      ensures callNumber == if config.enableToolCounter then toolCallCounts[name] else 1
    {
      callNumber := 1;
      if config.enableToolCounter {
        toolCallCounts := Bump(toolCallCounts, name);
        callNumber := toolCallCounts[name];
      }
    }

    /** Executes a counted call, then logs it: when the logging raises, the
        call is neither recorded nor answered; otherwise it is recorded and
        answered with its tool message. */
    method AnswerCall(call: ToolCallReq, callNumber: nat, stamp: string, now: string)
      returns (abort: Option<string>)
      requires Valid() && call.args.ArgsOk?
      modifies this`todoList, this`nextTodoId, this`toolCalls, this`history
      ensures Valid()
      ensures abort == LogCrash(call)
      ensures abort.Some? ==> toolCalls == old(toolCalls) && history == old(history)
      ensures abort.None? ==> exists result: Json, error: Option<string> ::
        && toolCalls == old(toolCalls) + [ToolCallRecord(call.name, call.args.value,
             if error.None? || error == Some("") then Some(result) else None, error, callNumber)]
        && history == old(history) + [ToolMsg(call.id, ToolHeader(config, stamp, callNumber, call.name), result)]
    {
      var result, error := ExecuteTool(call, now);
      abort := LogRaises(result, error);
      if abort.None? {
        RecordCall(call, result, error, callNumber, stamp);
      }
    }

    /** Records an executed call and answers it with its tool message; the
        record keeps the result unless there is a non-empty error text. */
    method RecordCall(call: ToolCallReq, result: Json, error: Option<string>,
                      callNumber: nat, stamp: string)
      requires Valid() && call.args.ArgsOk?
      modifies this`toolCalls, this`history
      ensures Valid()
      ensures toolCalls == old(toolCalls) + [ToolCallRecord(call.name, call.args.value,
        if error.None? || error == Some("") then Some(result) else None, error, callNumber)]
      ensures history == old(history) + [ToolMsg(call.id, ToolHeader(config, stamp, callNumber, call.name), result)]
    {
      toolCalls := toolCalls + [ToolCallRecord(call.name, call.args.value,
        if error.None? || error == Some("") then Some(result) else None, error, callNumber)];
      history := history + [ToolMsg(call.id, ToolHeader(config, stamp, callNumber, call.name), result)];
    }

    /** Runs the tool calls of one reply in emission order, one tool message
        each; a call whose arguments do not parse, or whose logging raises,
        aborts the batch. */
    method RunToolCalls(calls: seq<ToolCallReq>, keep: nat, stamp: string, now: string)
      returns (error: Option<string>)
      requires Valid() && |history| >= keep
      modifies this
      ensures Valid()
      ensures |history| >= |old(history)| && history[..keep] == old(history)[..keep]
      ensures error.None? ==>
        ToolIds(history[keep..]) == ToolIds(old(history)[keep..]) + CallIds(calls)
      ensures error.None? ==> toolCallCounts == Counted(old(toolCallCounts), calls, config)
      ensures !config.enableToolCounter ==> toolCallCounts == old(toolCallCounts)
      ensures error.None? ==> |toolCalls| == |old(toolCalls)| + |calls|
      ensures error == FirstAbort(calls)
    {
      var j := 0;
      while j < |calls|
        invariant 0 <= j <= |calls|
        invariant Valid()
        invariant FirstAbort(calls) == FirstAbort(calls[j..])
        invariant |history| >= |old(history)| && history[..keep] == old(history)[..keep]
        invariant ToolIds(history[keep..]) == ToolIds(old(history)[keep..]) + CallIds(calls[..j])
        invariant toolCallCounts == Counted(old(toolCallCounts), calls[..j], config)
        invariant |toolCalls| == |old(toolCalls)| + j
      {
        var call := calls[j];
        assert calls[j..][0] == call && calls[j..][1..] == calls[j + 1..];
        if call.args.ArgsBad? {
          return Some(call.args.message);
        }
        ghost var h := history;
        var abort := RunToolCall(call, stamp, now);
        if abort.Some? {
          return abort;
        }
        SnocKeeps(h, history[|h|], keep);
        CallsSnoc(calls, j);
        BumpAllAppend(old(toolCallCounts), CallNames(calls[..j]), [call.name]);
        j := j + 1;
      }
      assert calls[..j] == calls;
      assert calls[j..] == [];
      return None;
    }

    /** A reply carrying the marker: it is recorded and the loop ends with
        the answer; none of its tool calls runs. */
    method FinishReply(reply: Reply, keep: nat) returns (answer: string)
      requires |history| >= keep && HasMarker(reply)
      modifies this`history
      ensures history == old(history) + [AssistantMsg(reply.content, CallIds(reply.toolCalls))]
      ensures history[..keep] == old(history)[..keep]
      ensures ToolIds(history[keep..]) == ToolIds(old(history)[keep..])
      ensures answer == FinalAnswer(reply.content.value)
    {
      answer := FinalAnswer(reply.content.value);
      AppendKeepsPrefix(keep, AssistantMsg(reply.content, CallIds(reply.toolCalls)));
    }

    /** A reply without the marker: its tool calls run in order until one
        aborts (bad arguments, or logging that raises), or its plain content
        is recorded. */
    method ContinueReply(reply: Reply, keep: nat, stamp: string, now: string)
      returns (error: Option<string>)
      requires Valid() && |history| >= keep
      requires reply.Answer? && !HasMarker(reply)
      modifies this
      ensures Valid()
      ensures |history| >= |old(history)| && history[..keep] == old(history)[..keep]
      ensures error.None? ==>
        ToolIds(history[keep..]) == ToolIds(old(history)[keep..]) + CallIds(reply.toolCalls)
      ensures error.None? ==> toolCallCounts == Counted(old(toolCallCounts), reply.toolCalls, config)
      ensures error.None? ==> |toolCalls| == |old(toolCalls)| + |reply.toolCalls|
      ensures error == FirstAbort(reply.toolCalls)
    {
      if |reply.toolCalls| > 0 {
        AppendKeepsPrefix(keep, AssistantMsg(reply.content, CallIds(reply.toolCalls)));
        error := RunToolCalls(reply.toolCalls, keep, stamp, now);
      } else {
        error := None;
        if reply.content.Some? && reply.content.value != "" {
          AppendKeepsPrefix(keep, AssistantMsg(reply.content, []));
        }
      }
    }

    /** `handle_event`: up to `maxIterations` provider calls, stopping at the
        first reply whose content holds the marker. `stamp` is the clock text
        used for timestamp prefixes and `now` for TODO update times. The
        outcome is the one `Expected` predicts from the scripted replies, and
        a handled event leaves the history answering every tool call run. */
    method HandleEvent(event: EventTypes.Event, maxIterations: int, replies: seq<Reply>,
                       stamp: string, now: string)
      returns (outcome: HandleOutcome)
      requires Valid()
      modifies this
      ensures Valid()
      ensures |history| > |old(history)| && history[..|old(history)|] == old(history)
      ensures history[|old(history)|] == UserMsg(UserMessage(event, config, stamp))
      ensures outcome == Expected(replies, Bound(maxIterations), 0)
      ensures outcome.Handled? ==>
        Progress(history, toolCallCounts, |toolCalls|,
                 old(history) + [UserMsg(UserMessage(event, config, stamp))],
                 old(toolCallCounts), |old(toolCalls)|, CallsUpTo(replies, outcome.iterations), config)
    {
      var um := UserMsg(UserMessage(event, config, stamp));
      history := history + [um];
      outcome := EventLoop(replies, Bound(maxIterations), stamp, now);
      ExtendedPrefix(history, old(history), um);
    }

    /** The `for` loop of `handle_event` over a history that already holds
        the user message. */
    method EventLoop(replies: seq<Reply>, bound: nat, stamp: string, now: string)
      returns (outcome: HandleOutcome)
      requires Valid()
      modifies this
      ensures Valid()
      ensures |history| >= |old(history)| && history[..|old(history)|] == old(history)
      ensures outcome == Expected(replies, bound, 0)
      ensures outcome.Handled? ==>
        Progress(history, toolCallCounts, |toolCalls|, old(history),
                 old(toolCallCounts), |old(toolCalls)|, CallsUpTo(replies, outcome.iterations), config)
    {
      ghost var front, counts0, calls0 := history, toolCallCounts, |toolCalls|;
      var keep := |history|;
      assert history[keep..] == [];
      var iteration: nat := 0;
      while iteration < bound
        invariant iteration <= bound
        invariant Valid()
        invariant Expected(replies, bound, iteration) == Expected(replies, bound, 0)
        invariant Progress(history, toolCallCounts, |toolCalls|, front, counts0, calls0,
                           CallsUpTo(replies, iteration), config)
      {
        var stop := Step(replies, bound, iteration, keep, stamp, now, front, counts0, calls0);
        if stop.Some? {
          return stop.value;
        }
        iteration := iteration + 1;
      }
      return Handled(None, iteration, false);
    }

    /** One pass of the loop: asks for reply `iteration` and either stops with
        the outcome `Expected` gives there or runs the reply's tool calls. */
    method Step(replies: seq<Reply>, bound: nat, iteration: nat, keep: nat, stamp: string, now: string,
                ghost front: seq<Message>, ghost counts0: map<string, nat>, ghost calls0: nat)
      returns (stop: Option<HandleOutcome>)
      requires Valid() && iteration < bound && keep == |front|
      requires Progress(history, toolCallCounts, |toolCalls|, front, counts0, calls0,
                        CallsUpTo(replies, iteration), config)
      modifies this
      ensures Valid()
      ensures |history| >= keep && history[..keep] == front
      ensures stop.Some? ==> stop.value == Expected(replies, bound, iteration)
      ensures stop.Some? ==> stop.value.iterations == iteration + 1
      ensures stop.None? ==> Expected(replies, bound, iteration + 1) == Expected(replies, bound, iteration)
      ensures stop.None? || stop.value.Handled? ==>
        Progress(history, toolCallCounts, |toolCalls|, front, counts0, calls0,
                 CallsUpTo(replies, iteration + 1), config)
    {
      var reply := ReplyAt(replies, iteration);
      ghost var h, c, n, done := history, toolCallCounts, |toolCalls|, CallsUpTo(replies, iteration);
      if reply.ProviderError? {
        return Some(Aborted(reply.message, iteration + 1));
      }
      if HasMarker(reply) {
        var answer := FinishReply(reply, keep);
        assert done + CallsRun(reply) == done + [];
        ProgressExtend(h, c, n, front, counts0, calls0, done, config,
                       history, toolCallCounts, |toolCalls|, []);
        return Some(Handled(Some(answer), iteration + 1, true));
      }
      var err := ContinueReply(reply, keep, stamp, now);
      if err.Some? {
        return Some(Aborted(err.value, iteration + 1));
      }
      ProgressExtend(h, c, n, front, counts0, calls0, done, config,
                     history, toolCallCounts, |toolCalls|, reply.toolCalls);
      return None;
    }

    /** Appending a non-tool message keeps the prefix and the tool-id record. */
    method AppendKeepsPrefix(keep: nat, m: Message)
      requires |history| >= keep
      requires !m.ToolMsg?
      modifies this`history
      ensures history == old(history) + [m]
      ensures history[..keep] == old(history)[..keep]
      ensures ToolIds(history[keep..]) == ToolIds(old(history)[keep..])
    {
      ghost var h := history;
      history := history + [m];
      assert history[keep..] == h[keep..] + [m];
      ToolIdsAppend(h[keep..], m);
    }
  }
}
