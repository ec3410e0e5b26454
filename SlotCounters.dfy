/**
 * The six slot counters kept by the sector allocators (points, edges, hulls,
 * entities, hull bones, entity bones) as a value, with the two bulk updates
 * the allocators share: expand (add a count per kind) and compact (subtract
 * the per-kind shift counts that the delete scan produces).
 */
module SlotCounters {
  /** The kinds of object a sector allocator hands out slots for. */
  datatype Kind = Point | Edge | Hull | Entity | HullBone | EntityBone

  datatype Counters = Counters(point: int, edge: int, hull: int, entity: int, hullBone: int, entityBone: int)
  {
    function Get(k: Kind): int
    {
      match k
      case Point => point
      case Edge => edge
      case Hull => hull
      case Entity => entity
      case HullBone => hullBone
      case EntityBone => entityBone
    }

    /** These counters with the one for `k` replaced by `v`. */
    function With(k: Kind, v: int): (r: Counters)
      ensures r.Get(k) == v
      ensures forall j :: j != k ==> r.Get(j) == Get(j)
    {
      match k
      case Point => this.(point := v)
      case Edge => this.(edge := v)
      case Hull => this.(hull := v)
      case Entity => this.(entity := v)
      case HullBone => this.(hullBone := v)
      case EntityBone => this.(entityBone := v)
    }
  }

  const Zero := Counters(0, 0, 0, 0, 0, 0)

  /** Two counter values are equal exactly when they agree on every kind. */
  lemma {:induction false} Extensional(a: Counters, b: Counters)
    requires forall k :: a.Get(k) == b.Get(k)
    ensures a == b
  {
    assert a.point == b.point by { assert a.Get(Point) == b.Get(Point); }
    assert a.edge == b.edge by { assert a.Get(Edge) == b.Get(Edge); }
    assert a.hull == b.hull by { assert a.Get(Hull) == b.Get(Hull); }
    assert a.entity == b.entity by { assert a.Get(Entity) == b.Get(Entity); }
    assert a.hullBone == b.hullBone by { assert a.Get(HullBone) == b.Get(HullBone); }
    assert a.entityBone == b.entityBone by { assert a.Get(EntityBone) == b.Get(EntityBone); }
  }

  /** expand: every counter grows by the amount given for its kind. */
  function Expanded(c: Counters, amounts: Counters): (r: Counters)
    ensures forall k :: r.Get(k) == c.Get(k) + amounts.Get(k)
  {
    Counters(c.point + amounts.point, c.edge + amounts.edge, c.hull + amounts.hull,
             c.entity + amounts.entity, c.hullBone + amounts.hullBone, c.entityBone + amounts.entityBone)
  }

  /**
   * Where each kind's shift count sits in the shift_counts array that the
   * delete scan fills: edge, hull bone, point, hull, entity, entity bone.
   */
  function ShiftSlot(k: Kind): (i: nat)
    ensures i < 6
  {
    match k
    case Edge => 0
    case HullBone => 1
    case Point => 2
    case Hull => 3
    case Entity => 4
    case EntityBone => 5
  }

  /** The kind whose shift count sits at position `i` of shift_counts. */
  function SlotKind(i: nat): Kind
    requires i < 6
  {
    if i == 0 then Edge else if i == 1 then HullBone else if i == 2 then Point
    else if i == 3 then Hull else if i == 4 then Entity else EntityBone
  }

  /** The slot layout is a bijection between the six kinds and positions 0..5. */
  lemma ShiftSlotBijective()
    ensures forall k :: SlotKind(ShiftSlot(k)) == k
    ensures forall i: nat :: i < 6 ==> ShiftSlot(SlotKind(i)) == i
  {
  }

  /** compact: every counter shrinks by the shift count stored in its kind's slot. */
  function Compacted(c: Counters, shiftCounts: seq<int>): (r: Counters)
    requires |shiftCounts| >= 6
    ensures forall k :: r.Get(k) == c.Get(k) - shiftCounts[ShiftSlot(k)]
  {
    Counters(c.point - shiftCounts[2], c.edge - shiftCounts[0], c.hull - shiftCounts[3],
             c.entity - shiftCounts[4], c.hullBone - shiftCounts[1], c.entityBone - shiftCounts[5])
  }

  /** Per-kind amounts laid out in the order compact reads them. */
  function ShiftCountsOf(amounts: Counters): (s: seq<int>)
    ensures |s| == 6
    ensures forall k :: s[ShiftSlot(k)] == amounts.Get(k)
  {
    [amounts.edge, amounts.hullBone, amounts.point, amounts.hull, amounts.entity, amounts.entityBone]
  }

  /** Expanding by some amounts and then compacting by the same amounts, laid out in compact's order, restores the counters. */
  lemma {:induction false} ExpandThenCompact(c: Counters, amounts: Counters)
    ensures Compacted(Expanded(c, amounts), ShiftCountsOf(amounts)) == c
  {
    var r := Compacted(Expanded(c, amounts), ShiftCountsOf(amounts));
    forall k ensures r.Get(k) == c.Get(k) {
    }
    Extensional(r, c);
  }

  /** Compacting by the amounts of an expand undoes it, in the other order too. */
  lemma {:induction false} CompactThenExpand(c: Counters, amounts: Counters)
    ensures Expanded(Compacted(c, ShiftCountsOf(amounts)), amounts) == c
  {
    var r := Expanded(Compacted(c, ShiftCountsOf(amounts)), amounts);
    forall k ensures r.Get(k) == c.Get(k) {
    }
    Extensional(r, c);
  }
}
