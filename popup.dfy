/**
 * The popup's state and its deletion controller (src/popup/popup.ts): the
 * active tab, the two loaded lists, the selection, the progress counter and
 * the delete button, and `handleDelete`, which deletes the selection in
 * groups of five. How each delete call settles is an oracle `outcome`.
 */
module Popup {
  import opened Messages
  import Relay

  const MAX_DELETION: nat := 50
  const BATCH_SIZE: nat := 5
  const UNKNOWN_ERROR := "Unknown error"

  /** `state.activeTab`: `'chat'` or `'memory'`. */
  datatype ActiveTab = Chat | MemoryTab

  /** A conversation as listed by the remote service (src/popup/types.ts). */
  datatype Conversation = Conversation(id: string, title: string, createTime: Option<int>, updateTime: Option<int>)

  /** A stored memory entry as listed by the remote service (src/popup/types.ts). */
  datatype Memory = Memory(
    id: string, content: string, updatedAt: string, gizmoId: Option<string>, status: string,
    conversationId: Option<string>, createdTimestamp: Option<string>, lastUpdated: Option<string>,
    labels: Option<seq<string>>)

  function ConversationId(c: Conversation): string {
    c.id
  }

  function MemoryId(m: Memory): string {
    m.id
  }

  /** The ids of a list, in list order. */
  function Ids<T>(items: seq<T>, idOf: T -> string): seq<string> {
    seq(|items|, k requires 0 <= k < |items| => idOf(items[k]))
  }

  // ---------------------------------------------------------------------------
  // The selection: a JavaScript Set, which keeps insertion order

  predicate Distinct(s: seq<string>) {
    forall i, j :: 0 <= i < j < |s| ==> s[i] != s[j]
  }

  /** `Set.add`: an id already present keeps its place, a new one goes last. */
  function Add(s: seq<string>, x: string): seq<string> {
    if x in s then s else s + [x]
  }

  /** Adding to a Set leaves a Set holding the old members and the new one. */
  lemma AddMembers(s: seq<string>, x: string)
    requires Distinct(s)
    ensures Distinct(Add(s, x))
    ensures forall y :: y in Add(s, x) <==> y in s || y == x
  {
  }

  /** `Set.delete`. */
  function Without(s: seq<string>, x: string): seq<string>
    decreases |s|
  {
    if s == [] then []
    else if s[0] == x then Without(s[1..], x)
    else [s[0]] + Without(s[1..], x)
  }

  /** Deleting from a Set leaves a Set holding exactly the other members. */
  lemma {:induction false} WithoutMembers(s: seq<string>, x: string)
    ensures forall y :: y in Without(s, x) <==> y in s && y != x
    ensures Distinct(s) ==> Distinct(Without(s, x))
    decreases |s|
  {
    if s != [] {
      WithoutMembers(s[1..], x);
      assert forall y :: y in s <==> y == s[0] || y in s[1..];
      if s[0] != x && Distinct(s) {
        var w := Without(s[1..], x);
        assert s[0] !in s[1..];
        assert s[0] !in w;
        forall i, j | 0 <= i < j < |[s[0]] + w|
          ensures ([s[0]] + w)[i] != ([s[0]] + w)[j]
        {
          if i > 0 {
            assert ([s[0]] + w)[i] == w[i - 1];
          }
          assert ([s[0]] + w)[j] == w[j - 1];
        }
      }
    }
  }

  /** The Set built by adding the ids of `s` one after the other. */
  function Dedup(s: seq<string>): seq<string>
    decreases |s|
  {
    if s == [] then [] else Add(Dedup(s[..|s| - 1]), s[|s| - 1])
  }

  /** That Set holds each id of `s` once, and is `s` itself when `s` has no repeats. */
  lemma {:induction false} DedupMembers(s: seq<string>)
    ensures Distinct(Dedup(s))
    ensures forall y :: y in Dedup(s) <==> y in s
    ensures Distinct(s) ==> Dedup(s) == s
    decreases |s|
  {
    if s != [] {
      var front, last := s[..|s| - 1], s[|s| - 1];
      assert s == front + [last];
      DedupMembers(front);
      assert Dedup(s) == Add(Dedup(front), last);
      AddMembers(Dedup(front), last);
      assert forall y :: y in s <==> y in front || y == last;
      if Distinct(s) {
        assert Distinct(front) by {
          forall i, j | 0 <= i < j < |front|
            ensures front[i] != front[j]
          {
            assert front[i] == s[i] && front[j] == s[j];
          }
        }
        assert last !in front by {
          forall i | 0 <= i < |front|
            ensures front[i] != last
          {
            assert front[i] == s[i];
          }
        }
      }
    }
  }

  /** Removing the first id of a Set that starts with it leaves the rest. */
  lemma {:induction false} WithoutHead(s: seq<string>, k: nat)
    requires Distinct(s) && k < |s|
    ensures Without(s[k..], s[k]) == s[k + 1..]
  {
    WithoutAbsent(s[k + 1..], s[k]);
  }

  lemma {:induction false} WithoutAbsent(s: seq<string>, x: string)
    requires x !in s
    ensures Without(s, x) == s
    decreases |s|
  {
    if s != [] {
      WithoutAbsent(s[1..], x);
    }
  }

  // ---------------------------------------------------------------------------
  // Lists: `filter(c => c.id !== id)`

  /** The items whose id is not in `gone`, in their original order. */
  function Retain<T(!new)>(items: seq<T>, idOf: T -> string, gone: set<string>): (r: seq<T>)
    ensures |r| <= |items|
    decreases |items|
  {
    if items == [] then []
    else (if idOf(items[0]) in gone then [] else [items[0]]) + Retain(items[1..], idOf, gone)
  }

  /** An item stays exactly when its id is not among those removed. */
  lemma {:induction false} RetainMembers<T(!new)>(items: seq<T>, idOf: T -> string, gone: set<string>)
    ensures forall x :: x in Retain(items, idOf, gone) <==> x in items && idOf(x) !in gone
    decreases |items|
  {
    if items != [] {
      RetainMembers(items[1..], idOf, gone);
      assert forall x :: x in items <==> x == items[0] || x in items[1..];
    }
  }

  /** Filtering keeps relative order: it works piecewise on a concatenation. */
  lemma {:induction false} RetainConcat<T(!new)>(a: seq<T>, b: seq<T>, idOf: T -> string, gone: set<string>)
    ensures Retain(a + b, idOf, gone) == Retain(a, idOf, gone) + Retain(b, idOf, gone)
    decreases |a|
  {
    if a != [] {
      assert (a + b)[0] == a[0];
      assert (a + b)[1..] == a[1..] + b;
      RetainConcat(a[1..], b, idOf, gone);
      var head := if idOf(a[0]) in gone then [] else [a[0]];
      calc {
        Retain(a + b, idOf, gone);
        head + Retain(a[1..] + b, idOf, gone);
        head + (Retain(a[1..], idOf, gone) + Retain(b, idOf, gone));
        (head + Retain(a[1..], idOf, gone)) + Retain(b, idOf, gone);
        Retain(a, idOf, gone) + Retain(b, idOf, gone);
      }
    } else {
      assert a + b == b;
    }
  }

  /** Filtering out no id keeps the list as it is. */
  lemma {:induction false} RetainNothing<T(!new)>(items: seq<T>, idOf: T -> string)
    ensures Retain(items, idOf, {}) == items
    decreases |items|
  {
    if items != [] {
      RetainNothing(items[1..], idOf);
      assert [items[0]] + items[1..] == items;
    }
  }

  /** Filtering out one more id after a set of ids is filtering out the union. */
  lemma {:induction false} RetainStep<T(!new)>(items: seq<T>, idOf: T -> string, gone: set<string>, id: string)
    ensures Retain(Retain(items, idOf, gone), idOf, {id}) == Retain(items, idOf, gone + {id})
    decreases |items|
  {
    if items != [] {
      RetainStep(items[1..], idOf, gone, id);
      var head := if idOf(items[0]) in gone then [] else [items[0]];
      RetainConcat(head, Retain(items[1..], idOf, gone), idOf, {id});
    }
  }

  // ---------------------------------------------------------------------------
  // Groups of five

  /** `idsToDelete.slice(i, i + 5)` for i = 0, 5, 10, …: consecutive groups in selection order. */
  function Chunks(ids: seq<string>): seq<seq<string>>
    decreases |ids|
  {
    if ids == [] then []
    else if |ids| <= BATCH_SIZE then [ids]
    else [ids[..BATCH_SIZE]] + Chunks(ids[BATCH_SIZE..])
  }

  function Flatten(groups: seq<seq<string>>): seq<string>
    decreases |groups|
  {
    if groups == [] then [] else groups[0] + Flatten(groups[1..])
  }

  /** The groups put back together are the ids, in the same order. */
  lemma {:induction false} ChunksRebuild(ids: seq<string>)
    ensures Flatten(Chunks(ids)) == ids
    decreases |ids|
  {
    if |ids| > BATCH_SIZE {
      ChunksRebuild(ids[BATCH_SIZE..]);
      assert ids[..BATCH_SIZE] + ids[BATCH_SIZE..] == ids;
    }
  }

  /** There are ⌈n/5⌉ groups, every group but the last has five ids, and the last has one to five. */
  lemma {:induction false} ChunksShape(ids: seq<string>)
    ensures |Chunks(ids)| == (|ids| + BATCH_SIZE - 1) / BATCH_SIZE
    ensures forall k :: 0 <= k < |Chunks(ids)| ==> 1 <= |Chunks(ids)[k]| <= BATCH_SIZE
    ensures forall k :: 0 <= k < |Chunks(ids)| - 1 ==> |Chunks(ids)[k]| == BATCH_SIZE
    decreases |ids|
  {
    if |ids| > BATCH_SIZE {
      ChunksShape(ids[BATCH_SIZE..]);
      var rest := Chunks(ids[BATCH_SIZE..]);
      assert Chunks(ids) == [ids[..BATCH_SIZE]] + rest;
      forall k | 1 <= k < |Chunks(ids)|
        ensures Chunks(ids)[k] == rest[k - 1]
      {
      }
    }
  }

  /** The group taken next is the head of the groups still to come. */
  lemma NextGroup(ids: seq<string>, i: nat, end: nat, groups: seq<seq<string>>)
    requires i < end <= |ids| && end == (if i + BATCH_SIZE < |ids| then i + BATCH_SIZE else |ids|)
    requires groups + Chunks(ids[i..]) == Chunks(ids)
    ensures (groups + [ids[i..end]]) + Chunks(ids[end..]) == Chunks(ids)
  {
    var batch, rest := ids[i..end], Chunks(ids[end..]);
    ChunksUnfold(ids, i);
    calc {
      (groups + [batch]) + rest;
      groups + ([batch] + rest);
      groups + Chunks(ids[i..]);
    }
  }

  /** The calls of one group extend those already issued. */
  lemma NextCalls(tab: ActiveTab, ids: seq<string>, i: nat, end: nat)
    requires i <= end <= |ids|
    ensures DeleteCalls(tab, ids[..i]) + DeleteCalls(tab, ids[i..end]) == DeleteCalls(tab, ids[..end])
  {
  }

  /** One step of the loop: the next group is the head of what is left. */
  lemma ChunksUnfold(ids: seq<string>, i: nat)
    requires i < |ids|
    ensures var end := if i + BATCH_SIZE < |ids| then i + BATCH_SIZE else |ids|;
      Chunks(ids[i..]) == [ids[i..end]] + Chunks(ids[end..])
  {
    var end := if i + BATCH_SIZE < |ids| then i + BATCH_SIZE else |ids|;
    if end == |ids| {
      assert ids[i..end] == ids[i..];
      assert ids[end..] == [];
    } else {
      assert ids[i..][..BATCH_SIZE] == ids[i..end];
      assert ids[i..][BATCH_SIZE..] == ids[end..];
    }
  }

  // ---------------------------------------------------------------------------
  // Outcomes of a run

  /** An entry of the `errors` list. */
  datatype DeleteError = DeleteError(id: string, error: string)

  /** What the run tells the user. */
  datatype Report = NothingSelected | OverLimit(selected: nat) | Declined | Completed(succeeded: nat, errors: seq<DeleteError>)

  /** `errorMsg || 'Unknown error'`. */
  function ErrorText(message: string): (t: string)
    ensures t != ""
    ensures message != "" ==> t == message
    ensures message == "" ==> t == UNKNOWN_ERROR
  {
    if message == "" then UNKNOWN_ERROR else message
  }

  /** The ids among `ids` whose delete call was fulfilled. */
  function Succeeded(ids: seq<string>, outcome: string -> Result<Option<Data>>): set<string>
    decreases |ids|
  {
    if ids == [] then {}
    else
      var id := ids[|ids| - 1];
      Succeeded(ids[..|ids| - 1], outcome) + (if outcome(id).Ok? then {id} else {})
  }

  /** The successes are exactly the ids whose call was fulfilled. */
  lemma {:induction false} SucceededMembers(ids: seq<string>, outcome: string -> Result<Option<Data>>)
    ensures forall id :: id in Succeeded(ids, outcome) <==> id in ids && outcome(id).Ok?
    decreases |ids|
  {
    if ids != [] {
      var front := ids[..|ids| - 1];
      SucceededMembers(front, outcome);
      assert forall x :: x in ids <==> x in front || x == ids[|ids| - 1];
    }
  }

  /** The `errors` list: one entry per failed id, in processing order. */
  function Errors(ids: seq<string>, outcome: string -> Result<Option<Data>>): (e: seq<DeleteError>)
    ensures |e| <= |ids|
    decreases |ids|
  {
    if ids == [] then []
    else
      var id := ids[|ids| - 1];
      Errors(ids[..|ids| - 1], outcome) + (if outcome(id).Err? then [DeleteError(id, ErrorText(outcome(id).message))] else [])
  }

  /** Every entry is a failed id of the run, with the message its call failed with. */
  lemma {:induction false} ErrorsAreFailures(ids: seq<string>, outcome: string -> Result<Option<Data>>)
    ensures forall k :: 0 <= k < |Errors(ids, outcome)| ==>
      var e := Errors(ids, outcome)[k];
      e.id in ids && outcome(e.id).Err? && e.error == ErrorText(outcome(e.id).message)
    decreases |ids|
  {
    if ids != [] {
      var front := ids[..|ids| - 1];
      ErrorsAreFailures(front, outcome);
      assert forall x :: x in front ==> x in ids;
    }
  }

  /** No failure goes unreported: every id whose call failed has its entry, with its message. */
  lemma {:induction false} FailuresAreListed(ids: seq<string>, outcome: string -> Result<Option<Data>>, id: string)
    requires id in ids && outcome(id).Err?
    ensures DeleteError(id, ErrorText(outcome(id).message)) in Errors(ids, outcome)
    decreases |ids|
  {
    var front := ids[..|ids| - 1];
    if id != ids[|ids| - 1] {
      assert id in front;
      FailuresAreListed(front, outcome, id);
    }
  }

  /** Each id ends up counted once: as a success or as an error. */
  lemma {:induction false} ErrorsCount(ids: seq<string>, outcome: string -> Result<Option<Data>>)
    requires Distinct(ids)
    ensures |Errors(ids, outcome)| + |Succeeded(ids, outcome)| == |ids|
    decreases |ids|
  {
    if ids != [] {
      var n := |ids| - 1;
      var front := ids[..n];
      var id := ids[n];
      assert ids == front + [id];
      DistinctFront(ids);
      ErrorsCount(front, outcome);
      ProcessedStep(ids, n, outcome);
      SucceededMembers(front, outcome);
      assert id !in Succeeded(front, outcome);
    }
  }

  lemma DistinctFront(ids: seq<string>)
    requires Distinct(ids) && ids != []
    ensures Distinct(ids[..|ids| - 1]) && ids[|ids| - 1] !in ids[..|ids| - 1]
  {
  }

  /** The relay calls of one group, in issue order. */
  function DeleteCalls(tab: ActiveTab, ids: seq<string>): seq<Relay.ClientCall> {
    seq(|ids|, k requires 0 <= k < |ids| => DeleteCall(tab, ids[k]))
  }

  /** `apiClient.deleteConversation(id)` on the chat tab, `apiClient.deleteMemory(id)` on the memory tab. */
  function DeleteCall(tab: ActiveTab, id: string): Relay.ClientCall {
    if tab == Chat then Relay.DeleteConversation(id) else Relay.DeleteMemory(id)
  }

  // ---------------------------------------------------------------------------
  // The popup

  /** The module-level `state` object, the `selectedIds` Set, and the delete button's `disabled`. */
  class PopupState {
    var activeTab: ActiveTab
    var conversations: seq<Conversation>
    var memories: seq<Memory>
    var isLoading: bool
    var isDeleting: bool
    var progressCurrent: nat
    var progressTotal: nat
    var selectedIds: seq<string>
    var deleteDisabled: bool

    ghost predicate Valid()
      reads this
    {
      Distinct(selectedIds)
    }

    /** The ids of the list the active tab shows. */
    function ActiveIds(): seq<string>
      reads this
    {
      if activeTab == Chat then Ids(conversations, ConversationId) else Ids(memories, MemoryId)
    }

    /** The popup's invariant: only items of the active list are selected. */
    ghost predicate SelectionInActiveList()
      reads this
    {
      forall x :: x in selectedIds ==> x in ActiveIds()
    }

    /** The rule `updateUI` applies to the delete button. */
    ghost predicate ButtonFollowsRule()
      reads this
    {
      deleteDisabled == (|selectedIds| == 0 || isDeleting)
    }

    /**
     * The initial `state`, after `init` has cleared the selection. The delete
     * button's first `disabled` value comes from the popup's markup, which is
     * not part of this model; it is taken to start disabled.
     */
    constructor ()
      ensures Valid() && SelectionInActiveList() && ButtonFollowsRule()
      ensures activeTab == Chat && conversations == [] && memories == []
      ensures !isLoading && !isDeleting && progressCurrent == 0 && progressTotal == 0
      ensures selectedIds == []
    {
      activeTab := Chat;
      conversations, memories := [], [];
      isLoading, isDeleting := false, false;
      progressCurrent, progressTotal := 0, 0;
      selectedIds := [];
      deleteDisabled := true;
    }

    /** `updateUI`: the button is disabled iff nothing is selected or a run is in progress. */
    method UpdateUI()
      modifies this`deleteDisabled
      ensures ButtonFollowsRule()
    {
      deleteDisabled := |selectedIds| == 0 || isDeleting;
    }

    /** A checkbox of the active list being ticked: `selectedIds.add(id)`. */
    method Select(id: string)
      requires Valid()
      modifies this`selectedIds, this`deleteDisabled
      ensures Valid() && ButtonFollowsRule()
      ensures selectedIds == Add(old(selectedIds), id)
      ensures old(SelectionInActiveList()) && id in ActiveIds() ==> SelectionInActiveList()
    {
      AddMembers(selectedIds, id);
      selectedIds := Add(selectedIds, id);
      UpdateUI();
    }

    /** A checkbox being cleared: `selectedIds.delete(id)`. */
    method Deselect(id: string)
      requires Valid()
      modifies this`selectedIds, this`deleteDisabled
      ensures Valid() && ButtonFollowsRule()
      ensures selectedIds == Without(old(selectedIds), id)
      ensures old(SelectionInActiveList()) ==> SelectionInActiveList()
    {
      WithoutMembers(selectedIds, id);
      selectedIds := Without(selectedIds, id);
      UpdateUI();
    }

    /** `switchTab`: the other kind becomes active and the selection is emptied. */
    method SwitchTab(tab: ActiveTab)
      requires Valid()
      modifies this`activeTab, this`selectedIds, this`deleteDisabled
      ensures Valid() && SelectionInActiveList() && ButtonFollowsRule()
      ensures activeTab == tab && selectedIds == []
    {
      activeTab := tab;
      selectedIds := [];
      UpdateUI();
    }

    /** `selectAll`: the selection becomes exactly the ids of the active list. */
    method SelectAll()
      requires Valid()
      modifies this`selectedIds, this`deleteDisabled
      ensures Valid() && SelectionInActiveList() && ButtonFollowsRule()
      ensures forall x :: x in selectedIds <==> x in ActiveIds()
      ensures selectedIds == Dedup(ActiveIds())
    {
      selectedIds := [];
      var ids := ActiveIds();
      var i := 0;
      while i < |ids|
        invariant 0 <= i <= |ids|
        invariant selectedIds == Dedup(ids[..i])
      {
        assert ids[..i + 1][..i] == ids[..i];
        selectedIds := Add(selectedIds, ids[i]);
        i := i + 1;
      }
      assert ids[..|ids|] == ids;
      UpdateUI();
      assert ids == ActiveIds() && selectedIds == Dedup(ids);
      DedupMembers(ids);
    }

    /** `deselectAll`. */
    method DeselectAll()
      requires Valid()
      modifies this`selectedIds, this`deleteDisabled
      ensures Valid() && SelectionInActiveList() && ButtonFollowsRule()
      ensures selectedIds == []
    {
      selectedIds := [];
      UpdateUI();
    }

    /**
     * The handler `results.forEach` runs for one settled call: the id at
     * position `done` of the run leaves the selection either way; on success
     * its item leaves the active list, on failure an error entry is recorded.
     */
    method RecordResult(ids: seq<string>, done: nat, result: Result<Option<Data>>, errors: seq<DeleteError>)
      returns (errorsAfter: seq<DeleteError>)
      requires done < |ids| && Distinct(ids) && selectedIds == ids[done..]
      modifies this`conversations, this`memories, this`selectedIds, this`progressCurrent
      ensures selectedIds == ids[done + 1..] && progressCurrent == done + 1
      ensures conversations ==
        if result.Ok? && activeTab == Chat then Retain(old(conversations), ConversationId, {ids[done]})
        else old(conversations)
      ensures memories ==
        if result.Ok? && activeTab == MemoryTab then Retain(old(memories), MemoryId, {ids[done]})
        else old(memories)
      ensures errorsAfter ==
        if result.Ok? then errors else errors + [DeleteError(ids[done], ErrorText(result.message))]
    {
      var id := ids[done];
      WithoutHead(ids, done);
      errorsAfter := errors;
      if result.Ok? {
        if activeTab == Chat {
          conversations := Retain(conversations, ConversationId, {id});
        } else {
          memories := Retain(memories, MemoryId, {id});
        }
        selectedIds := Without(selectedIds, id);
      } else {
        errorsAfter := errors + [DeleteError(id, ErrorText(result.message))];
        selectedIds := Without(selectedIds, id);
      }
      progressCurrent := done + 1;
    }

    /** `RecordResult` for the id at position `done`, keeping the run's invariant. */
    method SettleOne(
      ids: seq<string>, done: nat, outcome: string -> Result<Option<Data>>,
      ghost conversations0: seq<Conversation>, ghost memories0: seq<Memory>, errors: seq<DeleteError>)
      returns (errorsAfter: seq<DeleteError>)
      requires done < |ids|
      requires Settled(ids, done, outcome, activeTab, conversations0, memories0,
                       conversations, memories, selectedIds, errors)
      modifies this`conversations, this`memories, this`selectedIds, this`progressCurrent
      ensures Settled(ids, done + 1, outcome, activeTab, conversations0, memories0,
                      conversations, memories, selectedIds, errorsAfter)
      ensures progressCurrent == done + 1
    {
      SettleNext(ids, done, outcome, activeTab, conversations0, memories0,
                 conversations, memories, selectedIds, errors);
      errorsAfter := RecordResult(ids, done, outcome(ids[done]), errors);
    }

    /** `results.forEach` over one group: settles the ids at positions `start` to `end` in order. */
    method SettleBatch(
      ids: seq<string>, start: nat, end: nat, outcome: string -> Result<Option<Data>>,
      ghost conversations0: seq<Conversation>, ghost memories0: seq<Memory>, errors: seq<DeleteError>)
      returns (errorsAfter: seq<DeleteError>)
      requires start < end <= |ids|
      requires Settled(ids, start, outcome, activeTab, conversations0, memories0,
                       conversations, memories, selectedIds, errors)
      modifies this`conversations, this`memories, this`selectedIds, this`progressCurrent
      ensures Settled(ids, end, outcome, activeTab, conversations0, memories0,
                      conversations, memories, selectedIds, errorsAfter)
      ensures progressCurrent == end
    {
      errorsAfter := errors;
      var k := start;
      while k < end
        invariant start <= k <= end
        invariant Settled(ids, k, outcome, activeTab, conversations0, memories0,
                          conversations, memories, selectedIds, errorsAfter)
        invariant k > start ==> progressCurrent == k
      {
        errorsAfter := SettleOne(ids, k, outcome, conversations0, memories0, errorsAfter);
        k := k + 1;
      }
    }

    /**
     * `handleDelete`, up to the reload that follows a run. An empty selection,
     * one above the cap, or a declined confirmation return at once, calling
     * nothing and changing nothing. Otherwise the token cache is asked to
     * clear, the selection is deleted in groups of five, and every processed
     * id leaves the selection, whether its call succeeded or failed.
     */
    method HandleDelete(confirmed: bool, outcome: string -> Result<Option<Data>>)
      returns (report: Report, calls: seq<Relay.ClientCall>, ghost groups: seq<seq<string>>)
      requires Valid()
      modifies this
      ensures Valid()
      ensures |old(selectedIds)| == 0 ==>
        report == NothingSelected && calls == [] && unchanged(this)
      ensures |old(selectedIds)| > MAX_DELETION ==>
        report == OverLimit(|old(selectedIds)|) && calls == [] && unchanged(this)
      ensures 0 < |old(selectedIds)| <= MAX_DELETION && !confirmed ==>
        report == Declined && calls == [] && unchanged(this)
      ensures 0 < |old(selectedIds)| <= MAX_DELETION && confirmed ==>
        Ran(old(selectedIds), outcome, old(activeTab), old(conversations), old(memories), old(isLoading), report, calls, groups)
    {
      if |selectedIds| == 0 {
        return NothingSelected, [], [];
      }
      if |selectedIds| > MAX_DELETION {
        return OverLimit(|selectedIds|), [], [];
      }
      if !confirmed {
        return Declined, [], [];
      }
      report, calls, groups := Run(outcome);
    }

    /**
     * The state a confirmed run over `ids` leaves behind: the cache-clearing
     * call and one delete call per id went out, the active list lost exactly
     * the items whose call succeeded, the selection is empty, the progress
     * counter reads `|ids|` of `|ids|`, and the report counts the successes
     * and lists the failures.
     */
    ghost predicate Ran(
      ids: seq<string>, outcome: string -> Result<Option<Data>>, tab: ActiveTab,
      conversations0: seq<Conversation>, memories0: seq<Memory>, isLoading0: bool,
      report: Report, calls: seq<Relay.ClientCall>, groups: seq<seq<string>>)
      reads this
    {
      && groups == Chunks(ids)
      && calls == [Relay.ClearTokenCache] + DeleteCalls(tab, ids)
      && report == Completed(|ids| - |Errors(ids, outcome)|, Errors(ids, outcome))
      && activeTab == tab
      && (tab == Chat ==>
            conversations == Retain(conversations0, ConversationId, Succeeded(ids, outcome)) &&
            memories == memories0)
      && (tab == MemoryTab ==>
            memories == Retain(memories0, MemoryId, Succeeded(ids, outcome)) &&
            conversations == conversations0)
      && selectedIds == []
      && progressCurrent == |ids| && progressTotal == |ids|
      && !isDeleting && deleteDisabled && isLoading == isLoading0
    }

    /** The confirmed part of `handleDelete`. */
    method Run(outcome: string -> Result<Option<Data>>)
      returns (report: Report, calls: seq<Relay.ClientCall>, ghost groups: seq<seq<string>>)
      requires Valid() && selectedIds != []
      modifies this
      ensures Valid()
      ensures Ran(old(selectedIds), outcome, old(activeTab), old(conversations), old(memories), old(isLoading),
                  report, calls, groups)
    {
      var ids := selectedIds;
      ghost var tab, conversations0, memories0 := activeTab, conversations, memories;
      isDeleting, deleteDisabled := true, true;
      progressCurrent, progressTotal := 0, |ids|;
      calls := [Relay.ClearTokenCache];

      var errors, deletes;
      errors, deletes, groups := DeleteInGroups(ids, outcome);
      calls := calls + deletes;
      isDeleting := false;
      deleteDisabled := false;
      report := Completed(|ids| - |errors|, errors);
      UpdateUI();
    }

    /**
     * The `for` loop of `handleDelete`: the ids go out in consecutive groups of
     * five, one delete call per id, and every group is settled before the next
     * one starts.
     */
    method DeleteInGroups(ids: seq<string>, outcome: string -> Result<Option<Data>>)
      returns (errors: seq<DeleteError>, calls: seq<Relay.ClientCall>, ghost groups: seq<seq<string>>)
      requires ids != [] && Distinct(ids) && selectedIds == ids
      modifies this`conversations, this`memories, this`selectedIds, this`progressCurrent
      ensures errors == Errors(ids, outcome) && selectedIds == []
      ensures activeTab == Chat ==>
        conversations == Retain(old(conversations), ConversationId, Succeeded(ids, outcome)) &&
        memories == old(memories)
      ensures activeTab == MemoryTab ==>
        memories == Retain(old(memories), MemoryId, Succeeded(ids, outcome)) &&
        conversations == old(conversations)
      ensures calls == DeleteCalls(activeTab, ids)
      ensures groups == Chunks(ids)
      ensures progressCurrent == |ids|
    {
      ghost var conversations0, memories0 := conversations, memories;
      SettledStart(ids, outcome, activeTab, conversations, memories);
      errors, calls, groups := [], [], [];
      var processed: nat := 0;
      var i := 0;
      while i < |ids|
        invariant processed == (if i < |ids| then i else |ids|)
        invariant Settled(ids, processed, outcome, activeTab, conversations0, memories0,
                          conversations, memories, selectedIds, errors)
        invariant groups + Chunks(ids[processed..]) == Chunks(ids)
        invariant calls == DeleteCalls(activeTab, ids[..processed])
        invariant i > 0 ==> progressCurrent == processed
        decreases |ids| - i
      {
        var end := if i + BATCH_SIZE < |ids| then i + BATCH_SIZE else |ids|;
        var batch := ids[i..end];
        NextGroup(ids, i, end, groups);
        NextCalls(activeTab, ids, i, end);
        groups := groups + [batch];
        calls := calls + DeleteCalls(activeTab, batch);
        errors := SettleBatch(ids, i, end, outcome, conversations0, memories0, errors);
        processed := end;
        i := i + BATCH_SIZE;
      }
      SettledEnd(ids, outcome, activeTab, conversations0, memories0, conversations, memories, selectedIds, errors);
      assert ids[..|ids|] == ids;
    }
  }

  /**
   * How far a run over `ids` has got: the first `done` ids are settled, the
   * rest are still selected, the active list has lost exactly the items whose
   * call succeeded, and the errors list the failures in processing order.
   */
  ghost predicate Settled(
    ids: seq<string>, done: nat, outcome: string -> Result<Option<Data>>, tab: ActiveTab,
    conversations0: seq<Conversation>, memories0: seq<Memory>,
    conversations: seq<Conversation>, memories: seq<Memory>, selected: seq<string>, errors: seq<DeleteError>)
  {
    && done <= |ids| && Distinct(ids) && selected == ids[done..]
    && errors == Errors(ids[..done], outcome)
    && (tab == Chat ==>
          conversations == Retain(conversations0, ConversationId, Succeeded(ids[..done], outcome)) &&
          memories == memories0)
    && (tab == MemoryTab ==>
          memories == Retain(memories0, MemoryId, Succeeded(ids[..done], outcome)) &&
          conversations == conversations0)
  }

  lemma SettledStart(ids: seq<string>, outcome: string -> Result<Option<Data>>, tab: ActiveTab,
                     conversations: seq<Conversation>, memories: seq<Memory>)
    requires Distinct(ids)
    ensures Settled(ids, 0, outcome, tab, conversations, memories, conversations, memories, ids, [])
  {
    RetainNothing(conversations, ConversationId);
    RetainNothing(memories, MemoryId);
    assert Succeeded(ids[..0], outcome) == {};
  }

  /** A run that has settled every id. */
  lemma SettledEnd(
    ids: seq<string>, outcome: string -> Result<Option<Data>>, tab: ActiveTab,
    conversations0: seq<Conversation>, memories0: seq<Memory>,
    conversations: seq<Conversation>, memories: seq<Memory>, selected: seq<string>, errors: seq<DeleteError>)
    requires Settled(ids, |ids|, outcome, tab, conversations0, memories0, conversations, memories, selected, errors)
    ensures errors == Errors(ids, outcome) && selected == []
    ensures tab == Chat ==>
      conversations == Retain(conversations0, ConversationId, Succeeded(ids, outcome)) && memories == memories0
    ensures tab == MemoryTab ==>
      memories == Retain(memories0, MemoryId, Succeeded(ids, outcome)) && conversations == conversations0
  {
    assert ids[..|ids|] == ids;
  }

  /** Settling the next id keeps the run's invariant. */
  lemma SettleNext(
    ids: seq<string>, done: nat, outcome: string -> Result<Option<Data>>, tab: ActiveTab,
    conversations0: seq<Conversation>, memories0: seq<Memory>,
    conversations: seq<Conversation>, memories: seq<Memory>, selected: seq<string>, errors: seq<DeleteError>)
    requires Settled(ids, done, outcome, tab, conversations0, memories0, conversations, memories, selected, errors)
    requires done < |ids|
    ensures var id := ids[done];
      var ok := outcome(id).Ok?;
      Settled(ids, done + 1, outcome, tab, conversations0, memories0,
        if ok && tab == Chat then Retain(conversations, ConversationId, {id}) else conversations,
        if ok && tab == MemoryTab then Retain(memories, MemoryId, {id}) else memories,
        ids[done + 1..],
        if ok then errors else errors + [DeleteError(id, ErrorText(outcome(id).message))])
  {
    var id := ids[done];
    var before := Succeeded(ids[..done], outcome);
    ProcessedStep(ids, done, outcome);
    if outcome(id).Ok? {
      assert Succeeded(ids[..done + 1], outcome) == before + {id};
      if tab == Chat {
        RetainStep(conversations0, ConversationId, before, id);
      } else {
        RetainStep(memories0, MemoryId, before, id);
      }
    } else {
      assert Succeeded(ids[..done + 1], outcome) == before;
    }
  }

  /** What processing the id at position k adds to the successes and to the errors. */
  lemma ProcessedStep(ids: seq<string>, k: nat, outcome: string -> Result<Option<Data>>)
    requires k < |ids|
    ensures Succeeded(ids[..k + 1], outcome) ==
      Succeeded(ids[..k], outcome) + (if outcome(ids[k]).Ok? then {ids[k]} else {})
    ensures Errors(ids[..k + 1], outcome) ==
      Errors(ids[..k], outcome) +
      (if outcome(ids[k]).Err? then [DeleteError(ids[k], ErrorText(outcome(ids[k]).message))] else [])
  {
    assert ids[..k + 1][..k] == ids[..k];
    assert forall x :: x in ids[..k + 1] <==> x in ids[..k] || x == ids[k];
  }

  // ---------------------------------------------------------------------------
  // Display

  /** `truncate`: the text when it fits, else its first `maxLength` characters and `'...'`. */
  function Truncate(text: string, maxLength: int): (r: string)
    ensures |text| <= maxLength ==> r == text
    ensures |text| > maxLength ==>
      && |r| == (if maxLength < 0 then 0 else maxLength) + 3
      && r[..|r| - 3] == text[..|r| - 3]
      && r[|r| - 3..] == "..."
  {
    if |text| <= maxLength then text
    else (if maxLength < 0 then "" else text[..maxLength]) + "..."
  }
}
