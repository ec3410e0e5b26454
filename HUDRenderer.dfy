/**
 * HUDRenderer (rendering/renderers/HUDRenderer.java): the text overlay.
 * Every letter on screen is drawn by one indirect draw command of its own,
 * built once into a command buffer. The overlay holds fixed text boxes and
 * one label per stocked substance, each label padded to the longest
 * substance name so the counts line up. Window resizes and inventory
 * changes mark the overlay dirty; a message event replaces the text of the
 * "placing" box; a dirty overlay is rebuilt before it is drawn.
 *
 * The glyph geometry written into the vertex buffers, the font atlas and
 * the GL calls are not part of this model; floats are reals.
 */
module Hud {
  import opened Wrappers
  import opened Inventory
  import C = Constants
  import JavaText

  /** Vertices per letter: one triangle strip of four. */
  const VerticesPerLetter: int := 4
  /** The y offset of the first inventory label. */
  const SolidLabelYOffset: real := 150.0
  const InventoryTextScale: real := 0.5

  /** Where a text box is anchored; Unsnapped is the enum's NONE. */
  datatype SnapPosition = Unsnapped | Top | Bottom | Left | Right | TopLeft | TopRight | BottomLeft | BottomRight

  datatype TextContainer = TextContainer(snap: SnapPosition, message: string, x: real, y: real, scale: real)

  // ---- the command buffer ----

  /** Int k of the command buffer: command k / 4 is (vertex count 4, instance count 1, first vertex 4i, base instance i). */
  function CommandWord(k: int): int
    requires k >= 0
  {
    var i := k / 4;
    var field := k % 4;
    if field == 0 then VerticesPerLetter
    else if field == 1 then 1
    else if field == 2 then i * VerticesPerLetter
    else i
  }

  /** Command i draws letter i: its four vertices, once, as instance i. */
  lemma CommandOfLetter(i: int)
    requires i >= 0
    ensures CommandWord(4 * i) == 4 && CommandWord(4 * i + 1) == 1
    ensures CommandWord(4 * i + 2) == 4 * i && CommandWord(4 * i + 3) == i
  {
    assert (4 * i) / 4 == i && (4 * i + 1) / 4 == i && (4 * i + 2) / 4 == i && (4 * i + 3) / 4 == i;
  }

  /** Consecutive letters' vertex ranges meet without overlapping: command i ends where command i + 1 starts. */
  lemma LettersTileTheVertexBuffer(i: int)
    requires i >= 0
    ensures CommandWord(4 * i + 2) + CommandWord(4 * i) == CommandWord(4 * (i + 1) + 2)
  {
    CommandOfLetter(i);
    CommandOfLetter(i + 1);
  }

  // ---- labels ----

  /** n spaces; none for n <= 0. */
  function Spaces(n: int): (r: string)
    ensures |r| == if n <= 0 then 0 else n
    ensures forall k :: 0 <= k < |r| ==> r[k] == ' '
    decreases n
  {
    if n <= 0 then [] else Spaces(n - 1) + [' ']
  }

  /** A name followed by as many spaces as it is shorter than `width`. */
  function Padded(name: string, width: int): string
  {
    name + Spaces(width - |name|)
  }

  /**
   * A padded name starts with the name, continues with spaces only, and
   * is `width` long, or as long as the name when the name is longer.
   */
  lemma PaddedShape(name: string, width: int)
    ensures |Padded(name, width)| == if |name| >= width then |name| else width
    ensures Padded(name, width)[..|name|] == name
    ensures forall k :: |name| <= k < |Padded(name, width)| ==> Padded(name, width)[k] == ' '
  {
  }

  /** Labels no longer than the width pad to the same length, so what follows them lines up. */
  lemma PaddedLabelsAlign(a: string, b: string, width: int)
    requires |a| <= width && |b| <= width
    ensures |Padded(a, width)| == |Padded(b, width)| == width
  {
  }

  /** The text of a substance's label: its padded name, " : " and its count. */
  function LabelText(e: Entry, width: int): string
  {
    Padded(e.solid.name, width) + " : " + JavaText.Decimal(e.count)
  }

  /** The label of a substance shown in position `rank` among the stocked ones. */
  function Label(e: Entry, rank: int, width: int, charHeight: real): TextContainer
  {
    TextContainer(TopLeft, LabelText(e, width), 100.0, SolidLabelYOffset + rank as real * (charHeight * InventoryTextScale), InventoryTextScale)
  }

  /** How many of the first n rows are stocked. */
  function StockedBefore(entries: seq<Entry>, n: int): (c: int)
    requires 0 <= n <= |entries|
    ensures 0 <= c <= n
  {
    if n == 0 then 0 else StockedBefore(entries, n - 1) + (if entries[n - 1].count > 0 then 1 else 0)
  }

  /** The labels of the stocked rows among the first n, each at its rank. */
  function LabelsUpTo(entries: seq<Entry>, n: int, width: int, charHeight: real): map<Solid, TextContainer>
    requires 0 <= n <= |entries|
  {
    if n == 0 then map[]
    else
      var m := LabelsUpTo(entries, n - 1, width, charHeight);
      var e := entries[n - 1];
      if e.count > 0 then m[e.solid := Label(e, StockedBefore(entries, n - 1), width, charHeight)] else m
  }

  /** One more row: a stocked row adds its label at the next rank. */
  lemma LabelsStep(entries: seq<Entry>, i: int, width: int, charHeight: real)
    requires 0 <= i < |entries|
    ensures StockedBefore(entries, i + 1) == StockedBefore(entries, i) + (if entries[i].count > 0 then 1 else 0)
    ensures LabelsUpTo(entries, i + 1, width, charHeight)
            == if entries[i].count > 0
               then LabelsUpTo(entries, i, width, charHeight)[entries[i].solid := Label(entries[i], StockedBefore(entries, i), width, charHeight)]
               else LabelsUpTo(entries, i, width, charHeight)
  {
  }

  /** The label `rebuild_inventory` assembles from its parts is the row's label. */
  lemma LabelOfParts(e: Entry, rank: int, width: int, charHeight: real, padded: string, msg: string, offset: real)
    requires padded == Padded(e.solid.name, width) && msg == padded + " : " + JavaText.Decimal(e.count)
    requires offset == SolidLabelYOffset + rank as real * (charHeight * InventoryTextScale)
    ensures TextContainer(TopLeft, msg, 100.0, offset, InventoryTextScale) == Label(e, rank, width, charHeight)
  {
  }

  /** Exactly the stocked substances get a label. */
  lemma {:induction false} LabelledExactlyStocked(entries: seq<Entry>, n: int, width: int, charHeight: real, s: Solid)
    requires 0 <= n <= |entries|
    ensures s in LabelsUpTo(entries, n, width, charHeight) <==> exists i :: 0 <= i < n && entries[i].solid == s && entries[i].count > 0
  {
    if n > 0 {
      LabelledExactlyStocked(entries, n - 1, width, charHeight, s);
      if entries[n - 1].solid == s && entries[n - 1].count > 0 {
        assert s in LabelsUpTo(entries, n, width, charHeight);
      }
    }
  }

  /**
   * With one row per substance, a stocked row's label carries its padded
   * name and count, at the height of its rank among the stocked rows.
   */
  lemma {:induction false} LabelOfStockedRow(entries: seq<Entry>, n: int, width: int, charHeight: real, i: int)
    requires DistinctSolids(entries) && 0 <= i < n <= |entries| && entries[i].count > 0
    ensures entries[i].solid in LabelsUpTo(entries, n, width, charHeight)
    ensures LabelsUpTo(entries, n, width, charHeight)[entries[i].solid] == Label(entries[i], StockedBefore(entries, i), width, charHeight)
  {
    if n - 1 != i {
      LabelOfStockedRow(entries, n - 1, width, charHeight, i);
      assert entries[n - 1].solid != entries[i].solid;
    }
  }

  /** Later stocked rows are drawn lower down the list: their ranks grow. */
  lemma {:induction false} RanksGrow(entries: seq<Entry>, i: int, j: int)
    requires 0 <= i < j <= |entries| && entries[i].count > 0
    ensures StockedBefore(entries, i) < StockedBefore(entries, j)
    decreases j - i
  {
    if j - 1 != i {
      RanksGrow(entries, i, j - 1);
    }
  }

  // ---- events ----

  /** Whether an event marks the overlay dirty: a resize, an inventory change or a message. */
  predicate Dirties(e: Event)
  {
    e.kind == WindowResize || e.kind == ItemChange || e.Message?
  }

  /** Whether any of the events marks the overlay dirty. */
  predicate AnyDirties(events: seq<Event>)
  {
    exists k :: 0 <= k < |events| && Dirties(events[k])
  }

  /** The text boxes after the events: each message replaces the text of the "placing" box. */
  function Placed(boxes: map<string, TextContainer>, events: seq<Event>): map<string, TextContainer>
    requires "placing" in boxes
    ensures "placing" in Placed(boxes, events) && Placed(boxes, events).Keys == boxes.Keys
    decreases |events|
  {
    if events == [] then boxes
    else
      var before := Placed(boxes, events[..|events| - 1]);
      var e := events[|events| - 1];
      if e.Message? then before["placing" := before["placing"].(message := e.message)] else before
  }

  /** Handling one more event. */
  lemma EventStep(boxes: map<string, TextContainer>, events: seq<Event>, e: Event)
    requires "placing" in boxes
    ensures AnyDirties(events + [e]) == (AnyDirties(events) || Dirties(e))
    ensures Placed(boxes, events + [e])
            == var before := Placed(boxes, events);
               if e.Message? then before["placing" := before["placing"].(message := e.message)] else before
  {
    assert (events + [e])[..|events|] == events;
    if AnyDirties(events) {
      var k :| 0 <= k < |events| && Dirties(events[k]);
      assert (events + [e])[k] == events[k];
    }
    if AnyDirties(events + [e]) && !Dirties(e) {
      var k :| 0 <= k < |events| + 1 && Dirties((events + [e])[k]);
      assert k < |events| && events[k] == (events + [e])[k];
    }
    assert (events + [e])[|events|] == e;
  }

  /** Only messages touch the text boxes, and only the "placing" box's text. */
  lemma {:induction false} PlacedChangesOnlyPlacingText(boxes: map<string, TextContainer>, events: seq<Event>)
    requires "placing" in boxes
    ensures forall key :: key in boxes && key != "placing" ==> Placed(boxes, events)[key] == boxes[key]
    ensures Placed(boxes, events)["placing"] == boxes["placing"].(message := Placed(boxes, events)["placing"].message)
    decreases |events|
  {
    if events != [] {
      PlacedChangesOnlyPlacingText(boxes, events[..|events| - 1]);
    }
  }

  /** After the inventory announces a selection, the "placing" box shows its name. */
  lemma PlacingShowsSelection(boxes: map<string, TextContainer>, next: Option<Solid>)
    requires "placing" in boxes
    ensures Placed(boxes, Announcement(next))["placing"].message == PlacingName(next)
  {
    var a := Announcement(next);
    assert a[..1] == [a[0]] && a[..1][..0] == [];
  }

  class HUDRenderer {
    /** The draw commands, four ints per letter (`raw_cmd`). */
    const raw_cmd: array<int>
    /** The player's inventory rows, read when the labels are rebuilt. */
    var inventory: seq<Entry>
    var text_boxes: map<string, TextContainer>
    var solid_labels: map<Solid, TextContainer>
    /** The events received from the bus and not yet handled (`event_queue`). */
    var event_queue: seq<Event>
    var dirty: bool
    var max_char_height: real
    var max_label_chars: int

    ghost predicate Valid()
      reads this
    {
      raw_cmd.Length == VerticesPerLetter * C.MaxBatchSize && "placing" in text_boxes
    }

    /**
     * The constructor: the command buffer is built, the four fixed text
     * boxes are placed, and the metrics are gathered from the glyph heights
     * and the substance names.
     */
    constructor(inventory: seq<Entry>, glyph_heights: seq<real>, solid_names: seq<string>)
      ensures Valid()
      ensures fresh(raw_cmd)
      ensures forall k :: 0 <= k < raw_cmd.Length ==> raw_cmd[k] == CommandWord(k)
      ensures this.inventory == inventory && event_queue == [] && dirty && solid_labels == map[]
      ensures text_boxes == map["debug" := TextContainer(BottomLeft, "BVGE Prototype 2024.6.0", 100.0, 100.0, 0.75),
                                "debug2" := TextContainer(TopRight, "Placing", 100.0, 100.0, 0.75),
                                "placing" := TextContainer(TopRight, "-", 100.0, 150.0, 0.75),
                                "inventory" := TextContainer(TopLeft, "Inventory", 100.0, 100.0, 0.75)]
      ensures forall name :: name in solid_names ==> |name| <= max_label_chars
      ensures forall h :: h in glyph_heights ==> h <= max_char_height
    {
      raw_cmd := new int[VerticesPerLetter * C.MaxBatchSize];
      this.inventory := inventory;
      event_queue := [];
      dirty := true;
      solid_labels := map[];
      text_boxes := map[];
      max_char_height := 0.0;
      max_label_chars := 0;
      new;
      BuildCmd();
      text_boxes := map["debug" := TextContainer(BottomLeft, "BVGE Prototype 2024.6.0", 100.0, 100.0, 0.75),
                        "debug2" := TextContainer(TopRight, "Placing", 100.0, 100.0, 0.75),
                        "placing" := TextContainer(TopRight, "-", 100.0, 150.0, 0.75),
                        "inventory" := TextContainer(TopLeft, "Inventory", 100.0, 100.0, 0.75)];
      GatherTextMetrics(glyph_heights, solid_names);
    }

    /** `build_cmd`: one command per letter of the batch. */
    method BuildCmd()
      requires raw_cmd.Length == VerticesPerLetter * C.MaxBatchSize
      modifies raw_cmd
      ensures forall k :: 0 <= k < raw_cmd.Length ==> raw_cmd[k] == CommandWord(k)
    {
      var cmd_offset := 0;
      var i := 0;
      while i < C.MaxBatchSize
        invariant 0 <= i <= C.MaxBatchSize && cmd_offset == 4 * i
        invariant forall k :: 0 <= k < cmd_offset ==> raw_cmd[k] == CommandWord(k)
      {
        var index := i * VerticesPerLetter;
        CommandOfLetter(i);
        raw_cmd[cmd_offset] := VerticesPerLetter;
        raw_cmd[cmd_offset + 1] := 1;
        raw_cmd[cmd_offset + 2] := index;
        raw_cmd[cmd_offset + 3] := i;
        cmd_offset := cmd_offset + 4;
        i := i + 1;
      }
    }

    /**
     * `gather_text_metrics`: the tallest glyph and the longest substance
     * name, never below the values already held.
     */
    method GatherTextMetrics(glyph_heights: seq<real>, solid_names: seq<string>)
      modifies this`max_char_height, this`max_label_chars
      ensures forall h :: h in glyph_heights ==> h <= max_char_height
      ensures max_char_height == old(max_char_height) || max_char_height in glyph_heights
      ensures old(max_char_height) <= max_char_height
      ensures forall name :: name in solid_names ==> |name| <= max_label_chars
      ensures max_label_chars == old(max_label_chars) || exists name :: name in solid_names && |name| == max_label_chars
      ensures old(max_label_chars) <= max_label_chars
    {
      var i := 0;
      while i < |glyph_heights|
        invariant 0 <= i <= |glyph_heights|
        invariant max_label_chars == old(max_label_chars)
        invariant forall k :: 0 <= k < i ==> glyph_heights[k] <= max_char_height
        invariant max_char_height == old(max_char_height) || max_char_height in glyph_heights
        invariant old(max_char_height) <= max_char_height
      {
        if glyph_heights[i] > max_char_height {
          max_char_height := glyph_heights[i];
        }
        i := i + 1;
      }
      var j := 0;
      while j < |solid_names|
        invariant 0 <= j <= |solid_names|
        invariant forall h :: h in glyph_heights ==> h <= max_char_height
        invariant max_char_height == old(max_char_height) || max_char_height in glyph_heights
        invariant old(max_char_height) <= max_char_height
        invariant forall k :: 0 <= k < j ==> |solid_names[k]| <= max_label_chars
        invariant max_label_chars == old(max_label_chars) || exists name :: name in solid_names && |name| == max_label_chars
        invariant old(max_label_chars) <= max_label_chars
      {
        if |solid_names[j]| > max_label_chars {
          max_label_chars := |solid_names[j]|;
        }
        j := j + 1;
      }
    }

    /** `pad_label`: the label padded with spaces to the longest name's length. */
    method PadLabel(name: string) returns (r: string)
      ensures r == Padded(name, max_label_chars)
    {
      if |name| == max_label_chars {
        return name;
      }
      var padding := max_label_chars - |name|;
      r := name;
      var i := 0;
      while i < padding
        invariant 0 <= i && (padding <= 0 ==> i == 0) && (padding > 0 ==> i <= padding)
        invariant r == name + Spaces(i)
      {
        r := r + " ";
        i := i + 1;
      }
    }

    /** `rebuild_inventory`: one name per stocked row, in row order. */
    method RebuildInventory()
      modifies this`solid_labels
      ensures solid_labels == LabelsUpTo(inventory, |inventory|, max_label_chars, max_char_height)
    {
      var entries, width, height := inventory, max_label_chars, max_char_height;
      var labels: map<Solid, TextContainer> := map[];
      var solid_count := 0;
      var i := 0;
      while i < |entries|
        invariant 0 <= i <= |entries|
        invariant labels == LabelsUpTo(entries, i, width, height)
        invariant solid_count == StockedBefore(entries, i)
      {
        var e := entries[i];
        LabelsStep(entries, i, width, height);
        if e.count > 0 {
          var padded := PadLabel(e.solid.name);
          var msg := padded + " : " + JavaText.Decimal(e.count);
          var offset := SolidLabelYOffset + solid_count as real * (height * InventoryTextScale);
          var made := TextContainer(TopLeft, msg, 100.0, offset, InventoryTextScale);
          LabelOfParts(e, solid_count, width, height, padded, msg, offset);
          labels := labels[e.solid := made];
          solid_count := solid_count + 1;
        }
        i := i + 1;
      }
      solid_labels := labels;
    }

    /**
     * The event loop of `render`: every queued event is handled; the
     * overlay becomes dirty when one of them is a resize, an inventory
     * change or a message, and each message replaces the "placing" text.
     */
    method HandleEvents()
      requires Valid()
      modifies this`event_queue, this`dirty, this`text_boxes
      ensures Valid()
      ensures event_queue == []
      ensures dirty == (old(dirty) || AnyDirties(old(event_queue)))
      ensures text_boxes == Placed(old(text_boxes), old(event_queue))
    {
      // The queue is polled until empty: event i is handled after the first i.
      var events, boxes0 := event_queue, text_boxes;
      var d := dirty;
      var boxes := boxes0;
      var i := 0;
      while i < |events|
        invariant "placing" in boxes0
        invariant 0 <= i <= |events|
        invariant d == (old(dirty) || AnyDirties(events[..i]))
        invariant boxes == Placed(boxes0, events[..i])
      {
        var next_event := events[i];
        EventStep(boxes0, events[..i], next_event);
        assert events[..i + 1] == events[..i] + [next_event];
        if next_event.kind == WindowResize || next_event.kind == ItemChange {
          d := true;
        }
        if next_event.Message? {
          var current := boxes["placing"];
          boxes := boxes["placing" := current.(message := next_event.message)];
          d := true;
        }
        i := i + 1;
      }
      assert events[..i] == events;
      event_queue := [];
      dirty := d;
      text_boxes := boxes;
    }

    /**
     * `render` without the drawing: the events are handled and a dirty
     * overlay has its labels rebuilt and is clean again.
     */
    method Render()
      requires Valid()
      modifies this`event_queue, this`dirty, this`text_boxes, this`solid_labels
      ensures Valid()
      ensures event_queue == [] && !dirty
      ensures text_boxes == Placed(old(text_boxes), old(event_queue))
      ensures old(dirty) || AnyDirties(old(event_queue)) ==> solid_labels == LabelsUpTo(inventory, |inventory|, max_label_chars, max_char_height)
      ensures !(old(dirty) || AnyDirties(old(event_queue))) ==> solid_labels == old(solid_labels)
    {
      HandleEvents();
      if dirty {
        RebuildInventory();
        dirty := false;
      }
    }
  }
}
