/**
 * InventorySystem (ecs/systems/InventorySystem.java): the player's block
 * selection and the collection of substances. The player's inventory is an
 * ordered table of substances and counts; the next and previous item
 * commands move the selection to the nearest stocked substance after or
 * before the current one; a tick acts on the last queued command only and
 * announces a changed selection on the event bus; collected items are added
 * to the inventory one by one.
 *
 * The inventory is a sequence of entries in the order the player
 * inventory's table iterates its keys; adding to it stands for
 * `collect_substance`, whose class is not part of this model. The event bus
 * is the sequence of events emitted so far.
 */
module Inventory {
  import opened Wrappers

  /** A substance, known by its enum constant's name. */
  datatype Solid = Solid(name: string)

  /** One row of the player's inventory: a substance and how many of it the player holds. */
  datatype Entry = Entry(solid: Solid, count: int)

  datatype EventType = NextItem | PrevItem | ItemChange | ItemPlacing | WindowResize | SelectBlock

  /** The events of the bus this system and the HUD exchange. */
  datatype Event =
    | Signal(kind: EventType)
    | Message(kind: EventType, message: string)
    | BlockSelected(kind: EventType, block: Option<Solid>)

  /** No substance has two rows, as in the table the rows come from. */
  predicate DistinctSolids(entries: seq<Entry>)
  {
    forall i, j :: 0 <= i < j < |entries| ==> entries[i].solid != entries[j].solid
  }

  /** `indexOf`: the first row of the substance, or -1. */
  function IndexOf(entries: seq<Entry>, s: Solid): (i: int)
    ensures -1 <= i < |entries|
    ensures i >= 0 ==> entries[i].solid == s && forall k :: 0 <= k < i ==> entries[k].solid != s
    ensures i == -1 <==> forall k :: 0 <= k < |entries| ==> entries[k].solid != s
  {
    IndexFrom(entries, s, 0)
  }

  function IndexFrom(entries: seq<Entry>, s: Solid, from: nat): (i: int)
    requires from <= |entries|
    ensures i == -1 || from <= i < |entries|
    ensures i >= 0 ==> entries[i].solid == s && forall k :: from <= k < i ==> entries[k].solid != s
    ensures i == -1 <==> forall k :: from <= k < |entries| ==> entries[k].solid != s
    decreases |entries| - from
  {
    if from == |entries| then -1
    else if entries[from].solid == s then from
    else IndexFrom(entries, s, from + 1)
  }

  /** The first stocked row at or after `from`, or |entries| when there is none. */
  function NextStocked(entries: seq<Entry>, from: int): (j: int)
    requires 0 <= from <= |entries|
    ensures from <= j <= |entries|
    ensures j < |entries| ==> entries[j].count > 0
    ensures forall k :: from <= k < j ==> entries[k].count <= 0
    decreases |entries| - from
  {
    if from == |entries| then from
    else if entries[from].count > 0 then from
    else NextStocked(entries, from + 1)
  }

  /** The last stocked row before `below`, or -1 when there is none. */
  function PrevStocked(entries: seq<Entry>, below: int): (j: int)
    requires -1 <= below <= |entries|
    ensures -1 <= j < below || (j == -1 && below == -1)
    ensures j >= 0 ==> entries[j].count > 0
    ensures forall k :: j < k < below ==> entries[k].count <= 0
    decreases below + 1
  {
    if below <= 0 then -1
    else if entries[below - 1].count > 0 then below - 1
    else PrevStocked(entries, below - 1)
  }

  /** Where `findNextItem` starts looking from: after the current item's row, or from the first row. */
  function StartOfNext(entries: seq<Entry>, current: Option<Solid>): int
  {
    if current.None? then -1 else IndexOf(entries, current.value)
  }

  /** Where `findPrevItem` starts looking from: before the current item's row, or from the last row. */
  function StartOfPrev(entries: seq<Entry>, current: Option<Solid>): int
  {
    if current.None? then |entries| else IndexOf(entries, current.value)
  }

  /**
   * `findNextItem`: the first stocked substance in a row after the current
   * item's (after none: from the first row; after a substance without a
   * row: also from the first row), or none when every later row is empty.
   */
  function NextItemOf(entries: seq<Entry>, current: Option<Solid>): (r: Option<Solid>)
    ensures var start := StartOfNext(entries, current);
            r.None? <==> forall k :: start < k < |entries| ==> entries[k].count <= 0
    ensures var start := StartOfNext(entries, current);
            r.Some? ==> exists j :: start < j < |entries| && entries[j].solid == r.value && entries[j].count > 0
                                    && forall k :: start < k < j ==> entries[k].count <= 0
  {
    var j := NextStocked(entries, StartOfNext(entries, current) + 1);
    if j < |entries| then Some(entries[j].solid) else None
  }

  /**
   * `findPrevItem`: the last stocked substance in a row before the current
   * item's (before none: from the last row), or none. A current substance
   * without a row finds nothing, since the search starts below row -1.
   */
  function PrevItemOf(entries: seq<Entry>, current: Option<Solid>): (r: Option<Solid>)
    ensures var start := StartOfPrev(entries, current);
            r.None? <==> forall k :: 0 <= k < start ==> entries[k].count <= 0
    ensures var start := StartOfPrev(entries, current);
            r.Some? ==> exists j :: 0 <= j < start && entries[j].solid == r.value && entries[j].count > 0
                                    && forall k :: j < k < start ==> entries[k].count <= 0
  {
    var j := PrevStocked(entries, StartOfPrev(entries, current));
    if j >= 0 then Some(entries[j].solid) else None
  }

  /** The loop of `findNextItem`. */
  method FindNextItem(entries: seq<Entry>, current: Option<Solid>) returns (r: Option<Solid>)
    ensures r == NextItemOf(entries, current)
  {
    var startIndex := if current.None? then -1 else IndexOf(entries, current.value);
    var i := startIndex + 1;
    while i < |entries|
      invariant startIndex + 1 <= i <= |entries|
      invariant NextStocked(entries, startIndex + 1) == NextStocked(entries, i)
    {
      if entries[i].count > 0 {
        return Some(entries[i].solid);
      }
      i := i + 1;
    }
    r := None;
  }

  /** The loop of `findPrevItem`. */
  method FindPrevItem(entries: seq<Entry>, current: Option<Solid>) returns (r: Option<Solid>)
    ensures r == PrevItemOf(entries, current)
  {
    var startIndex := if current.None? then |entries| else IndexOf(entries, current.value);
    var i := startIndex - 1;
    while i >= 0
      invariant -2 <= i < startIndex
      invariant PrevStocked(entries, startIndex) == PrevStocked(entries, if i < -1 then -1 else i + 1)
    {
      if entries[i].count > 0 {
        return Some(entries[i].solid);
      }
      i := i - 1;
    }
    r := None;
  }

  /** Row j holds the substance found at row j. */
  lemma IndexOfDistinct(entries: seq<Entry>, j: int)
    requires DistinctSolids(entries) && 0 <= j < |entries|
    ensures IndexOf(entries, entries[j].solid) == j
  {
  }

  /**
   * Stepping forward from a stocked item and then back returns to it: the
   * rows between the two are all empty.
   */
  lemma {:induction false} NextThenPrevReturns(entries: seq<Entry>, c: Solid)
    requires DistinctSolids(entries)
    requires IndexOf(entries, c) >= 0 && entries[IndexOf(entries, c)].count > 0
    requires NextItemOf(entries, Some(c)).Some?
    ensures PrevItemOf(entries, NextItemOf(entries, Some(c))) == Some(c)
  {
    var i := IndexOf(entries, c);
    var j := NextStocked(entries, i + 1);
    IndexOfDistinct(entries, j);
    PrevStopsAt(entries, i, j);
  }

  /** Stepping back from a stocked item and then forward returns to it. */
  lemma {:induction false} PrevThenNextReturns(entries: seq<Entry>, c: Solid)
    requires DistinctSolids(entries)
    requires IndexOf(entries, c) >= 0 && entries[IndexOf(entries, c)].count > 0
    requires PrevItemOf(entries, Some(c)).Some?
    ensures NextItemOf(entries, PrevItemOf(entries, Some(c))) == Some(c)
  {
    var i := IndexOf(entries, c);
    var j := PrevStocked(entries, i);
    IndexOfDistinct(entries, j);
    NextStopsAt(entries, j + 1, i);
  }

  /** The backward search from `below` stops at a stocked row i when every row between is empty. */
  lemma {:induction false} PrevStopsAt(entries: seq<Entry>, i: int, below: int)
    requires 0 <= i < below <= |entries| && entries[i].count > 0
    requires forall k :: i < k < below ==> entries[k].count <= 0
    ensures PrevStocked(entries, below) == i
    decreases below
  {
    if below - 1 != i {
      PrevStopsAt(entries, i, below - 1);
    }
  }

  /** The forward search from `from` stops at a stocked row i when every row between is empty. */
  lemma {:induction false} NextStopsAt(entries: seq<Entry>, from: int, i: int)
    requires 0 <= from <= i < |entries| && entries[i].count > 0
    requires forall k :: from <= k < i ==> entries[k].count <= 0
    ensures NextStocked(entries, from) == i
    decreases i - from
  {
    if from != i {
      NextStopsAt(entries, from + 1, i);
    }
  }

  // ---- the tick ----

  /** The selection one command leads to; other event types select nothing. */
  function Selected(evt: Event, entries: seq<Entry>, current: Option<Solid>): Option<Solid>
  {
    if evt.kind == NextItem then NextItemOf(entries, current)
    else if evt.kind == PrevItem then PrevItemOf(entries, current)
    else None
  }

  /** The selection after a tick that found `queue` waiting: only the last command counts. */
  function SelectionAfter(queue: seq<Event>, entries: seq<Entry>, current: Option<Solid>): Option<Solid>
  {
    if queue == [] then current else Selected(queue[|queue| - 1], entries, current)
  }

  /** Commands queued before the last one have no effect. */
  lemma EarlierCommandsAreDropped(earlier: seq<Event>, last: Event, entries: seq<Entry>, current: Option<Solid>)
    ensures SelectionAfter(earlier + [last], entries, current) == SelectionAfter([last], entries, current)
  {
  }

  /** The label announced for a selection: the substance's name, or "-". */
  function PlacingName(block: Option<Solid>): (name: string)
    ensures block.Some? ==> name == block.value.name
    ensures block.None? ==> name == "-"
  {
    if block.None? then "-" else block.value.name
  }

  /** The events a tick emits when the selection changes to `next`. */
  function Announcement(next: Option<Solid>): seq<Event>
  {
    [Message(ItemPlacing, PlacingName(next)), BlockSelected(SelectBlock, next)]
  }

  // ---- collecting ----

  /** How many of a substance the inventory holds: its row's count, or 0. */
  function CountOf(entries: seq<Entry>, s: Solid): int
  {
    var i := IndexOf(entries, s);
    if i >= 0 then entries[i].count else 0
  }

  /** `collect_substance(s, qty)`: qty more of s, in its row or a new last row. */
  function Collect(entries: seq<Entry>, s: Solid, qty: int): (r: seq<Entry>)
    requires DistinctSolids(entries)
    ensures DistinctSolids(r)
    ensures CountOf(r, s) == CountOf(entries, s) + qty
    ensures forall t :: t != s ==> CountOf(r, t) == CountOf(entries, t)
  {
    var i := IndexOf(entries, s);
    if i >= 0 then
      var r := entries[i := Entry(s, entries[i].count + qty)];
      assert forall t :: IndexOf(r, t) == IndexOf(entries, t) by {
        forall t ensures IndexOf(r, t) == IndexOf(entries, t) {
          SameSolidsSameIndex(entries, r, t);
        }
      }
      r
    else
      var r := entries + [Entry(s, qty)];
      assert forall t :: IndexOf(r, t) == if t == s then |entries| else IndexOf(entries, t) by {
        forall t ensures IndexOf(r, t) == if t == s then |entries| else IndexOf(entries, t) {
          IndexOfAppend(entries, Entry(s, qty), t);
        }
      }
      r
  }

  /** Appending a row: substances with an earlier row keep it, the new one is found last. */
  lemma IndexOfAppend(entries: seq<Entry>, e: Entry, t: Solid)
    ensures IndexOf(entries + [e], t)
            == if IndexOf(entries, t) >= 0 then IndexOf(entries, t) else if e.solid == t then |entries| else -1
  {
    var r := entries + [e];
    var i, j := IndexOf(entries, t), IndexOf(r, t);
    if i >= 0 {
      assert r[i].solid == t;
      assert !(j < i) && !(i < j);
    } else if e.solid == t {
      assert r[|entries|].solid == t;
      assert !(j < |entries|);
    } else {
      assert forall k :: 0 <= k < |r| ==> r[k].solid != t by {
        forall k | 0 <= k < |r| ensures r[k].solid != t {
          if k < |entries| { assert r[k] == entries[k]; }
        }
      }
    }
  }

  /** Rows with the same substances in the same order find a substance at the same row. */
  lemma SameSolidsSameIndex(a: seq<Entry>, b: seq<Entry>, t: Solid)
    requires |a| == |b| && forall k :: 0 <= k < |a| ==> a[k].solid == b[k].solid
    ensures IndexOf(a, t) == IndexOf(b, t)
  {
    var i, j := IndexOf(a, t), IndexOf(b, t);
    if i >= 0 && j >= 0 {
      assert !(i < j) && !(j < i);
    }
  }

  /** The inventory after each collected item has added 1 to its substance's count, in order. */
  function CollectAll(entries: seq<Entry>, collected: seq<Solid>): (r: seq<Entry>)
    requires DistinctSolids(entries)
    ensures DistinctSolids(r)
    decreases |collected|
  {
    if collected == [] then entries
    else Collect(CollectAll(entries, collected[..|collected| - 1]), collected[|collected| - 1], 1)
  }

  /** Collecting one more item of the list. */
  lemma CollectAllStep(entries: seq<Entry>, collected: seq<Solid>, i: int)
    requires DistinctSolids(entries) && 0 <= i < |collected|
    ensures CollectAll(entries, collected[..i + 1]) == Collect(CollectAll(entries, collected[..i]), collected[i], 1)
  {
    assert collected[..i + 1][..i] == collected[..i];
  }

  /** Each substance's count grows by the number of times it was collected. */
  lemma {:induction false} CollectAllTally(entries: seq<Entry>, collected: seq<Solid>, t: Solid)
    requires DistinctSolids(entries)
    ensures CountOf(CollectAll(entries, collected), t) == CountOf(entries, t) + multiset(collected)[t]
    decreases |collected|
  {
    if collected != [] {
      var front := collected[..|collected| - 1];
      assert collected == front + [collected[|collected| - 1]];
      CollectAllTally(entries, front, t);
    }
  }

  class InventorySystem {
    /** The player's inventory rows (`player_inventory.solid_counts()`). */
    var inventory: seq<Entry>
    /** The selected substance, none at first (`current_block`). */
    var current_block: Option<Solid>
    /** The commands received from the bus and not yet handled (`event_queue`). */
    var event_queue: seq<Event>
    /** The events emitted on the bus so far. */
    var emitted: seq<Event>
    /** The block the player's block cursor places. */
    var cursor_block: Option<Solid>

    ghost predicate Valid()
      reads this
    {
      DistinctSolids(inventory)
    }

    constructor(inventory: seq<Entry>)
      requires DistinctSolids(inventory)
      ensures Valid()
      ensures this.inventory == inventory && current_block == None && event_queue == [] && emitted == [] && cursor_block == None
    {
      this.inventory := inventory;
      current_block := None;
      event_queue := [];
      emitted := [];
      cursor_block := None;
    }

    /**
     * `tick`: the queue is drained keeping only the last command; without
     * one nothing happens. When the command leads to the current selection
     * nothing is emitted; otherwise the new selection's name is announced,
     * the selection changes, it is announced as the selected block, and the
     * block cursor takes it.
     */
    method Tick()
      requires Valid()
      modifies this`current_block, this`event_queue, this`emitted, this`cursor_block
      ensures Valid()
      ensures event_queue == []
      ensures current_block == SelectionAfter(old(event_queue), inventory, old(current_block))
      ensures current_block == old(current_block) ==> emitted == old(emitted) && cursor_block == old(cursor_block)
      ensures current_block != old(current_block) ==> emitted == old(emitted) + Announcement(current_block) && cursor_block == current_block
    {
      var evt := PollLast();
      if evt.None? {
        return;
      }
      var next_block := SelectFor(evt.value);
      if next_block == current_block {
        return;
      }
      emitted := emitted + [Message(ItemPlacing, PlacingName(next_block))];
      current_block := next_block;
      emitted := emitted + [BlockSelected(SelectBlock, current_block)];
      cursor_block := current_block;
    }

    /** The choice of `tick`: the next or previous item for those commands, none otherwise. */
    method SelectFor(evt: Event) returns (next_block: Option<Solid>)
      ensures next_block == Selected(evt, inventory, current_block)
    {
      next_block := None;
      if evt.kind == NextItem {
        next_block := FindNextItem(inventory, current_block);
      }
      if evt.kind == PrevItem {
        next_block := FindPrevItem(inventory, current_block);
      }
    }

    /** The polling loop of `tick`: the queue is emptied and its last event kept. */
    method PollLast() returns (evt: Option<Event>)
      modifies this`event_queue
      ensures event_queue == []
      ensures evt.None? <==> old(event_queue) == []
      ensures evt.Some? ==> evt.value == old(event_queue)[|old(event_queue)| - 1]
    {
      evt := None;
      ghost var consumed: seq<Event> := [];
      while event_queue != []
        invariant old(event_queue) == consumed + event_queue
        invariant evt.None? <==> consumed == []
        invariant evt.Some? ==> evt.value == consumed[|consumed| - 1]
        decreases |event_queue|
      {
        evt := Some(event_queue[0]);
        consumed := consumed + [event_queue[0]];
        event_queue := event_queue[1..];
      }
    }

    /**
     * `unload_collected`: each collected item adds 1 to its substance's
     * count, and one item-change event follows when anything was collected.
     */
    method UnloadCollected(collected: seq<Solid>)
      requires Valid()
      modifies this`inventory, this`emitted
      ensures Valid()
      ensures inventory == CollectAll(old(inventory), collected)
      ensures emitted == old(emitted) + (if |collected| > 0 then [Signal(ItemChange)] else [])
    {
      var collected_count := |collected|;
      if collected_count > 0 {
        var counts := inventory;
        var i := 0;
        while i < collected_count
          invariant 0 <= i <= collected_count
          invariant DistinctSolids(counts)
          invariant inventory == old(inventory) && emitted == old(emitted)
          invariant counts == CollectAll(inventory, collected[..i])
        {
          CollectAllStep(inventory, collected, i);
          counts := Collect(counts, collected[i], 1);
          i := i + 1;
        }
        assert collected[..collected_count] == collected;
        inventory := counts;
        emitted := emitted + [Signal(ItemChange)];
      }
    }
  }
}
