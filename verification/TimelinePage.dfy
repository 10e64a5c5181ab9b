/**
 The planner of one Answer page. Elements are their serialized JSON texts, so the
 length of a serialized element array is exact. Rendering is any function: what a
 page keeps of a message is cut wherever the renderer likes, as long as it moves on.
 */
module TimelinePage {
  import opened Common
  import opened ToolGroups

  type Element = string

  datatype Renderer = Renderer(
    cut: (string, nat, nat) -> nat,             // where a page of a message's markdown ends
    text: string -> Element,                    // a markdown element
    group: (seq<Item>, nat) -> Element,         // a parent with its children, for the available length
    single: (Item, nat, bool) -> Option<Element>)

  // ------------------------------------------------------------------ cursors

  datatype Section = MessageSection | CommandSection | ResultSection

  datatype Cursor = Cursor(itemIndex: int, markdownOffset: int, section: Option<Section>, offset: Option<int>)

  function At(itemIndex: nat, markdownOffset: nat): Cursor { Cursor(itemIndex, markdownOffset, None, None) }

  function StartIndex(c: Option<Cursor>): nat
  {
    if c.None? then 0 else Max(0, c.value.itemIndex)
  }

  // A cursor may carry its offset under the older name, or one that is not a message's.
  function StartOffset(c: Option<Cursor>): nat
  {
    if c.None? then 0
    else if c.value.section.Some? && c.value.section.value != MessageSection then 0
    else Max(0, if c.value.offset.Some? then c.value.offset.value else c.value.markdownOffset)
  }

  // -------------------------------------------------------------------- pages

  datatype Page = Page(elements: seq<Element>, items: seq<Item>, projectedItemIds: seq<string>, nextCursor: Option<Cursor>)

  const BLANK := Page([], [], [], None)

  function Total(elements: seq<Element>): nat
  {
    if elements == [] then 0 else |elements[0]| + Total(elements[1..])
  }

  // The length of the JSON array: two brackets, the elements, and the commas between them.
  function Serialized(elements: seq<Element>): nat
  {
    2 + Total(elements) + if |elements| > 1 then |elements| - 1 else 0
  }

  function Available(elements: seq<Element>, limit: int): nat { Max(1, limit - Serialized(elements)) }

  function Ids(items: seq<Item>): seq<string> { seq(|items|, i requires 0 <= i < |items| => items[i].id) }

  // The slice of a message that starts at `from`: it ends beyond `from`, unless nothing is left.
  function SliceEnd(r: Renderer, markdown: string, from: nat, available: nat): (e: nat)
    requires from <= |markdown|
    ensures from <= e <= |markdown|
    ensures from < |markdown| ==> from < e
  {
    if from == |markdown| then from
    else Max(from + 1, Min(r.cut(markdown, from, available), |markdown|))
  }

  /** Where the renderer moves on within the message, the slice ends exactly there. */
  lemma SliceEndsAtCut(r: Renderer, markdown: string, from: nat, available: nat)
    requires from < r.cut(markdown, from, available) <= |markdown|
    ensures SliceEnd(r, markdown, from, available) == r.cut(markdown, from, available)
  {
  }

  predicate Fits(page: Page, more: seq<Element>, limit: int)
  {
    page.elements == [] || Serialized(page.elements + more) <= limit
  }

  function Put(page: Page, more: seq<Element>, items: seq<Item>): Page
  {
    page.(elements := page.elements + more, items := page.items + items, projectedItemIds := page.projectedItemIds + Ids(items))
  }

  function Stop(page: Page, itemIndex: nat, markdownOffset: nat): Page
  {
    page.(nextCursor := Some(At(itemIndex, markdownOffset)))
  }

  function Optional(e: Option<Element>): seq<Element> { if e.Some? then [e.value] else [] }

  // The element or elements of the panel that starts at i.
  function Panel(r: Renderer, ordered: seq<Item>, i: nat, available: nat, preserve: bool): (es: seq<Element>)
    requires i < |ordered|
    ensures |es| <= 1
  {
    if GroupAt(ordered, i) then [r.group(ordered[i..PanelEnd(ordered, i)], available)]
    else Optional(r.single(ordered[i], available, preserve))
  }

  // A message's slice is put on the page under its item's id, once.
  function PutSlice(page: Page, e: Element, item: Item, slice: string): Page
    requires item.Message?
  {
    var ids := if item.id in page.projectedItemIds then page.projectedItemIds else page.projectedItemIds + [item.id];
    page.(elements := page.elements + [e], items := page.items + [item.(markdown := slice)], projectedItemIds := ids)
  }

  // One turn of the main loop: the page is complete, or it goes on at a later item.
  datatype Turn = Halt(page: Page) | Go(i: nat, off: nat, page: Page)

  function StepMessage(r: Renderer, item: Item, i: nat, off: nat, limit: int, page: Page): Turn
    requires item.Message?
  {
    var from := Min(off, |item.markdown|);
    var e := SliceEnd(r, item.markdown, from, Max(1, limit - Serialized(page.elements) - 80));
    if from == e then Go(i + 1, 0, page)
    else
      var element := r.text(item.markdown[from..e]);
      if !Fits(page, [element], limit) then Halt(Stop(page, i, off))
      else
        var filled := PutSlice(page, element, item, item.markdown[from..e]);
        if e < |item.markdown| then Halt(Stop(filled, i, e)) else Go(i + 1, 0, filled)
  }

  function StepPanel(r: Renderer, ordered: seq<Item>, i: nat, off: nat, limit: int, page: Page): Turn
    requires i < |ordered| && (ordered[i].ToolItem? || ordered[i].Note?)
  {
    var tool := ordered[i].ToolItem?;
    var e := PanelEnd(ordered, i);
    var panel := Panel(r, ordered, i, Available(page.elements, limit), !tool);
    if !Fits(page, panel, limit) then Halt(Stop(page, i, 0))
    // After a tool the offset is reset; after a note it is not.
    else Go(e, if tool then 0 else off, Put(page, panel, ordered[i..e]))
  }

  function Advance(r: Renderer, ordered: seq<Item>, i: nat, off: nat, limit: int, page: Page): (t: Turn)
    requires i < |ordered|
    ensures t.Go? ==> i < t.i <= |ordered|
  {
    if ordered[i].Human? then
      if page.items != [] || page.elements != [] then Halt(Stop(page, i, 0)) else Go(i + 1, 0, page)
    else if ordered[i].Message? then StepMessage(r, ordered[i], i, off, limit, page)
    else StepPanel(r, ordered, i, off, limit, page)
  }

  // The main loop, from the item `i` and the offset `off` on, with `page` filled so far.
  function Fill(r: Renderer, ordered: seq<Item>, i: nat, off: nat, limit: int, page: Page): Page
    decreases |ordered| - i
  {
    if i >= |ordered| then page
    else
      match Advance(r, ordered, i, off, limit, page)
      case Halt(done) => done
      case Go(i', off', page') => Fill(r, ordered, i', off', limit, page')
  }

  // Late results come first, as long as they fit; the first that does not ends them.
  function Lead(r: Renderer, late: seq<Item>, i: nat, limit: int, page: Page): Page
    decreases |late| - i
  {
    if i >= |late| then page
    else if late[i].Human? then Lead(r, late, i + 1, limit, page)
    else
      var e := PanelEnd(late, i);
      var panel := Panel(r, late, i, Available(page.elements, limit), true);
      if Serialized(page.elements + panel) > limit then page
      else Lead(r, late, e, limit, Put(page, panel, late[i..e]))
  }

  function Plan(r: Renderer, ordered: seq<Item>, cursor: Option<Cursor>, limit: int, late: seq<Item>): Page
  {
    Fill(r, ordered, StartIndex(cursor), StartOffset(cursor), limit, Lead(r, late, 0, limit, BLANK))
  }

  /**
   Every form of a cursor starts a page where its plain form does: an offset counts under
   its newer name first, only a message has one, and nothing starts before the timeline.
   */
  lemma CursorForms(r: Renderer, ordered: seq<Item>, k: int, x: int, y: int, section: Section, limit: int, late: seq<Item>)
    ensures var index, offset := Max(0, k), Max(0, y);
      && Plan(r, ordered, Some(Cursor(k, y, None, None)), limit, late) == Plan(r, ordered, Some(At(index, offset)), limit, late)
      && Plan(r, ordered, Some(Cursor(k, x, None, Some(y))), limit, late) == Plan(r, ordered, Some(At(index, offset)), limit, late)
      && Plan(r, ordered, Some(Cursor(k, x, Some(section), Some(y))), limit, late)
         == Plan(r, ordered, Some(At(index, if section == MessageSection then offset else 0)), limit, late)
      && Plan(r, ordered, Some(Cursor(k, y, Some(section), None)), limit, late)
         == Plan(r, ordered, Some(At(index, if section == MessageSection then offset else 0)), limit, late)
    ensures Plan(r, ordered, None, limit, late) == Plan(r, ordered, Some(At(0, 0)), limit, late)
  {
  }

  // ---------------------------------------------------------------- execution

  method RenderPanel(r: Renderer, ordered: seq<Item>, i: nat, available: nat, preserve: bool) returns (rendered: seq<Element>, end: nat)
    requires i < |ordered|
    ensures rendered == Panel(r, ordered, i, available, preserve) && end == PanelEnd(ordered, i)
  {
    var childCount := ProjectGroupAt(ordered, i);
    end := i + 1 + childCount;
    rendered := if childCount > 0 then [r.group(ordered[i..end], available)] else Optional(r.single(ordered[i], available, preserve));
  }

  // The late results, one panel at a time.
  method LeadPage(r: Renderer, late: seq<Item>, limit: int) returns (page: Page)
    ensures page == Lead(r, late, 0, limit, BLANK)
  {
    page := BLANK;
    var i := 0;
    while i < |late|
      invariant Lead(r, late, i, limit, page) == Lead(r, late, 0, limit, BLANK)
    {
      if late[i].Human? {
        i := i + 1;
      } else {
        var rendered, end := RenderPanel(r, late, i, Available(page.elements, limit), true);
        if Serialized(page.elements + rendered) > limit { return; }
        page := Put(page, rendered, late[i..end]);
        i := end;
      }
    }
  }

  // The next slice of a message; the page is complete when it does not fit or does not end the message.
  method PlaceMessage(r: Renderer, item: Item, itemIndex: nat, markdownOffset: nat, limit: int, page: Page) returns (complete: bool, placed: Page)
    requires item.Message?
    ensures StepMessage(r, item, itemIndex, markdownOffset, limit, page) == if complete then Halt(placed) else Go(itemIndex + 1, 0, placed)
  {
    var from := Min(markdownOffset, |item.markdown|);
    var end := SliceEnd(r, item.markdown, from, Max(1, limit - Serialized(page.elements) - 80));
    if from == end { return false, page; }
    var candidate := r.text(item.markdown[from..end]);
    if |page.elements| > 0 && Serialized(page.elements + [candidate]) > limit { return true, Stop(page, itemIndex, markdownOffset); }
    placed := PutSlice(page, candidate, item, item.markdown[from..end]);
    complete := end < |item.markdown|;
    if complete { placed := Stop(placed, itemIndex, end); }
  }

  /** The planner's loops compute the planned page. */
  method PlanAnswerTimelinePage(r: Renderer, ordered: seq<Item>, cursor: Option<Cursor>, limit: int, late: seq<Item>) returns (page: Page)
    ensures page == Plan(r, ordered, cursor, limit, late)
  {
    var itemIndex, markdownOffset := StartIndex(cursor), StartOffset(cursor);
    page := LeadPage(r, late, limit);
    while itemIndex < |ordered|
      invariant Fill(r, ordered, itemIndex, markdownOffset, limit, page) == Plan(r, ordered, cursor, limit, late)
    {
      var item := ordered[itemIndex];
      if item.Human? {
        if |page.items| > 0 || |page.elements| > 0 { return Stop(page, itemIndex, 0); }
        itemIndex, markdownOffset := itemIndex + 1, 0;
      } else if item.Message? {
        var complete;
        complete, page := PlaceMessage(r, item, itemIndex, markdownOffset, limit, page);
        if complete { return; }
        itemIndex, markdownOffset := itemIndex + 1, 0;
      } else {
        var rendered, end := RenderPanel(r, ordered, itemIndex, Available(page.elements, limit), !item.ToolItem?);
        if |page.elements| > 0 && Serialized(page.elements + rendered) > limit { return Stop(page, itemIndex, 0); }
        page := Put(page, rendered, ordered[itemIndex..end]);
        itemIndex := end;
        if item.ToolItem? { markdownOffset := 0; }
      }
    }
  }

  // ---------------------------------------------------------------- progress

  predicate Before(i: nat, off: nat, c: Cursor)
  {
    c.itemIndex > i || (c.itemIndex == i && c.markdownOffset > off)
  }

  predicate Empty(page: Page) { page.items == [] && page.elements == [] }

  // A cursor the planner hands out: into the timeline, and with an offset only inside a message.
  predicate Proper(ordered: seq<Item>, c: Cursor)
  {
    && 0 <= c.itemIndex < |ordered| && 0 <= c.markdownOffset && c.section == None && c.offset == None
    && (c.markdownOffset > 0 ==> ordered[c.itemIndex].Message? && c.markdownOffset < |ordered[c.itemIndex].markdown|)
  }

  lemma StepProgress(r: Renderer, ordered: seq<Item>, i: nat, off: nat, limit: int, page: Page)
    requires i < |ordered| && page.nextCursor == None
    ensures var t := Advance(r, ordered, i, off, limit, page);
      if t.Go? then t.page.nextCursor == None && (Empty(page) || !Empty(t.page)) && (off == 0 || ordered[i].Message? ==> t.off == 0)
      else
        && t.page.nextCursor.Some? && !Empty(t.page)
        && t.page.nextCursor.value.itemIndex == i
        && (Empty(page) ==> Before(i, off, t.page.nextCursor.value) && ordered[i].Message? && Proper(ordered, t.page.nextCursor.value))
        && (off == 0 || ordered[i].Message? ==> Proper(ordered, t.page.nextCursor.value))
  {}

  lemma {:induction false} FillProgress(r: Renderer, ordered: seq<Item>, i: nat, off: nat, limit: int, page: Page)
    requires page.nextCursor == None
    ensures var c := Fill(r, ordered, i, off, limit, page).nextCursor;
      c.Some? ==>
        && i <= c.value.itemIndex < |ordered|
        && (Empty(page) ==> Before(i, off, c.value))
        && (Empty(page) && c.value.itemIndex == i ==> ordered[i].Message? && Proper(ordered, c.value))
        && (off == 0 || (i < |ordered| && ordered[i].Message?) ==> Proper(ordered, c.value))
    decreases |ordered| - i
  {
    if i < |ordered| {
      StepProgress(r, ordered, i, off, limit, page);
      match Advance(r, ordered, i, off, limit, page)
      case Halt(_) =>
      case Go(i', off', page') => FillProgress(r, ordered, i', off', limit, page');
    }
  }

  /** Without late results a page that is not the last ends strictly beyond the cursor it started at. */
  lemma PageMakesProgress(r: Renderer, ordered: seq<Item>, cursor: Option<Cursor>, limit: int)
    ensures var next := Plan(r, ordered, cursor, limit, []).nextCursor;
      next.Some? ==> Before(StartIndex(cursor), StartOffset(cursor), next.value) && next.value.itemIndex < |ordered|
  {
    FillProgress(r, ordered, StartIndex(cursor), StartOffset(cursor), limit, BLANK);
  }
}
