/**
 What is sent: the elements of a page are the renderings of the parts of the timeline
 that its items are, in order and each drawn for the room that was left, and a page
 that is not the last has no room for what comes next.
 */
module TimelineElements {
  import opened Common
  import opened ToolGroups
  import opened TimelinePage
  import opened TimelineCoverage

  // ------------------------------------------------------------------- lengths

  function Joined(elements: seq<Element>): string
  {
    if elements == [] then "" else if |elements| == 1 then elements[0] else elements[0] + "," + Joined(elements[1..])
  }

  // The JSON text of an array of elements.
  function Json(elements: seq<Element>): string { "[" + Joined(elements) + "]" }

  lemma {:induction false} JoinedLength(elements: seq<Element>)
    ensures |Joined(elements)| == Total(elements) + if |elements| > 1 then |elements| - 1 else 0
  {
    if elements != [] { JoinedLength(elements[1..]); }
  }

  /** The length that the planner works with is that of the JSON text. */
  lemma SerializedIsJson(elements: seq<Element>)
    ensures Serialized(elements) == |Json(elements)|
  {
    JoinedLength(elements);
  }

  // The room that is left beside these elements, never less than one character.
  function Room(elements: seq<Element>, limit: int): nat { Max(1, limit - |Json(elements)|) }

  // --------------------------------------------------------------------- parts

  // A panel of the late results, a slice of a message, or a panel of the timeline.
  datatype Part = Late(at: nat) | Slice(at: nat, from: nat) | Regular(at: nat)

  predicate PartOk(late: seq<Item>, ordered: seq<Item>, p: Part)
  {
    match p
    case Late(at) => at < |late| && !late[at].Human?
    case Slice(at, from) => at < |ordered| && ordered[at].Message? && from < |ordered[at].markdown|
    case Regular(at) => at < |ordered| && (ordered[at].ToolItem? || ordered[at].Note?)
  }

  ghost predicate PartsOk(late: seq<Item>, ordered: seq<Item>, parts: seq<Part>)
  {
    forall k :: 0 <= k < |parts| ==> PartOk(late, ordered, parts[k])
  }

  // The items of a part; a slice goes as far as the renderer cuts for the room, less 80 characters.
  function PartItems(r: Renderer, late: seq<Item>, ordered: seq<Item>, limit: int, before: seq<Element>, p: Part): seq<Item>
    requires PartOk(late, ordered, p)
  {
    match p
    case Late(at) => late[at..PanelEnd(late, at)]
    case Regular(at) => ordered[at..PanelEnd(ordered, at)]
    case Slice(at, from) =>
      var md := ordered[at].markdown;
      [ordered[at].(markdown := md[from..SliceEnd(r, md, from, Max(1, limit - |Json(before)| - 80))])]
  }

  // Their rendering: a message's text, one element for a group, or at most one for a single item.
  function Rendering(r: Renderer, items: seq<Item>, room: nat, p: Part): seq<Element>
    requires items != []
  {
    if p.Slice? && items[0].Message? then [r.text(items[0].markdown)]
    else if |items| > 1 then [r.group(items, room)]
    else Optional(r.single(items[0], room, p.Late? || items[0].Note?))
  }

  ghost function Elements(r: Renderer, late: seq<Item>, ordered: seq<Item>, limit: int, parts: seq<Part>): seq<Element>
    requires PartsOk(late, ordered, parts)
  {
    if parts == [] then []
    else
      var before, p := Elements(r, late, ordered, limit, parts[..|parts| - 1]), parts[|parts| - 1];
      before + Rendering(r, PartItems(r, late, ordered, limit, before, p), Room(before, limit), p)
  }

  ghost function Items(r: Renderer, late: seq<Item>, ordered: seq<Item>, limit: int, parts: seq<Part>): seq<Item>
    requires PartsOk(late, ordered, parts)
  {
    if parts == [] then []
    else
      var before, p := parts[..|parts| - 1], parts[|parts| - 1];
      Items(r, late, ordered, limit, before) + PartItems(r, late, ordered, limit, Elements(r, late, ordered, limit, before), p)
  }

  // Their ids, but a message is not named again that is named already.
  function Named(before: seq<string>, items: seq<Item>, p: Part): seq<string>
  {
    if p.Slice? && Ids(items) != [] && Ids(items)[0] in before then before else before + Ids(items)
  }

  ghost function Names(r: Renderer, late: seq<Item>, ordered: seq<Item>, limit: int, parts: seq<Part>): seq<string>
    requires PartsOk(late, ordered, parts)
  {
    if parts == [] then []
    else
      var before, p := parts[..|parts| - 1], parts[|parts| - 1];
      Named(Names(r, late, ordered, limit, before), PartItems(r, late, ordered, limit, Elements(r, late, ordered, limit, before), p), p)
  }

  // The page is these parts, drawn one after the other.
  ghost predicate Drawn(r: Renderer, late: seq<Item>, ordered: seq<Item>, limit: int, parts: seq<Part>, page: Page)
  {
    && PartsOk(late, ordered, parts)
    && page.elements == Elements(r, late, ordered, limit, parts) && page.items == Items(r, late, ordered, limit, parts)
    && page.projectedItemIds == Names(r, late, ordered, limit, parts)
  }

  lemma OnePartMore(r: Renderer, late: seq<Item>, ordered: seq<Item>, limit: int, parts: seq<Part>, page: Page, p: Part, now: Page)
    requires Drawn(r, late, ordered, limit, parts, page) && PartOk(late, ordered, p)
    requires var items := PartItems(r, late, ordered, limit, page.elements, p);
      && now.items == page.items + items && now.elements == page.elements + Rendering(r, items, Room(page.elements, limit), p)
      && now.projectedItemIds == Named(page.projectedItemIds, items, p)
    ensures Drawn(r, late, ordered, limit, parts + [p], now)
  {
    assert (parts + [p])[..|parts|] == parts;
  }

  lemma SliceDrawn(r: Renderer, late: seq<Item>, ordered: seq<Item>, i: nat, from: nat, limit: int, parts: seq<Part>, page: Page)
    requires Drawn(r, late, ordered, limit, parts, page) && PartOk(late, ordered, Slice(i, from))
    ensures var md := ordered[i].markdown;
      var slice := md[from..SliceEnd(r, md, from, Max(1, limit - Serialized(page.elements) - 80))];
      Drawn(r, late, ordered, limit, parts + [Slice(i, from)], PutSlice(page, r.text(slice), ordered[i], slice))
  {
    SerializedIsJson(page.elements);
    var md := ordered[i].markdown;
    var slice := md[from..SliceEnd(r, md, from, Max(1, limit - Serialized(page.elements) - 80))];
    var now := PutSlice(page, r.text(slice), ordered[i], slice);
    var item := ordered[i].(markdown := slice);
    assert PartItems(r, late, ordered, limit, page.elements, Slice(i, from)) == [item] && Ids([item]) == [item.id];
    OnePartMore(r, late, ordered, limit, parts, page, Slice(i, from), now);
  }

  lemma PanelDrawn(r: Renderer, late: seq<Item>, ordered: seq<Item>, i: nat, limit: int, parts: seq<Part>, page: Page)
    requires Drawn(r, late, ordered, limit, parts, page) && PartOk(late, ordered, Regular(i))
    ensures var panel := Panel(r, ordered, i, Available(page.elements, limit), ordered[i].Note?);
      Drawn(r, late, ordered, limit, parts + [Regular(i)], Put(page, panel, ordered[i..PanelEnd(ordered, i)]))
  {
    var panel := Panel(r, ordered, i, Available(page.elements, limit), ordered[i].Note?);
    SerializedIsJson(page.elements);
    OnePartMore(r, late, ordered, limit, parts, page, Regular(i), Put(page, panel, ordered[i..PanelEnd(ordered, i)]));
  }

  lemma SameDrawn(r: Renderer, late: seq<Item>, ordered: seq<Item>, limit: int, parts: seq<Part>, page: Page, now: Page)
    requires Drawn(r, late, ordered, limit, parts, page) && now == page.(nextCursor := now.nextCursor)
    ensures Drawn(r, late, ordered, limit, parts, now)
  {
  }

  lemma StepMessageDrawn(r: Renderer, late: seq<Item>, ordered: seq<Item>, i: nat, off: nat, limit: int, parts: seq<Part>, page: Page) returns (more: seq<Part>)
    requires Drawn(r, late, ordered, limit, parts, page) && i < |ordered| && ordered[i].Message?
    ensures Drawn(r, late, ordered, limit, more, StepMessage(r, ordered[i], i, off, limit, page).page)
  {
    var now, md := StepMessage(r, ordered[i], i, off, limit, page).page, ordered[i].markdown;
    var from := Min(off, |md|);
    var e := SliceEnd(r, md, from, Max(1, limit - Serialized(page.elements) - 80));
    if from < e && Fits(page, [r.text(md[from..e])], limit) {
      more := parts + [Slice(i, from)];
      var filled := PutSlice(page, r.text(md[from..e]), ordered[i], md[from..e]);
      SliceDrawn(r, late, ordered, i, from, limit, parts, page);
      assert now == filled.(nextCursor := now.nextCursor);
      SameDrawn(r, late, ordered, limit, more, filled, now);
    } else {
      more := parts;
      SameDrawn(r, late, ordered, limit, parts, page, now);
    }
  }

  lemma StepPanelDrawn(r: Renderer, late: seq<Item>, ordered: seq<Item>, i: nat, off: nat, limit: int, parts: seq<Part>, page: Page) returns (more: seq<Part>)
    requires Drawn(r, late, ordered, limit, parts, page) && PartOk(late, ordered, Regular(i))
    ensures Drawn(r, late, ordered, limit, more, StepPanel(r, ordered, i, off, limit, page).page)
  {
    if Fits(page, Panel(r, ordered, i, Available(page.elements, limit), ordered[i].Note?), limit) {
      more := parts + [Regular(i)];
      PanelDrawn(r, late, ordered, i, limit, parts, page);
    } else {
      more := parts;
      SameDrawn(r, late, ordered, limit, parts, page, StepPanel(r, ordered, i, off, limit, page).page);
    }
  }

  lemma StepDrawn(r: Renderer, late: seq<Item>, ordered: seq<Item>, i: nat, off: nat, limit: int, parts: seq<Part>, page: Page) returns (more: seq<Part>)
    requires Drawn(r, late, ordered, limit, parts, page) && i < |ordered|
    ensures Drawn(r, late, ordered, limit, more, Advance(r, ordered, i, off, limit, page).page)
  {
    if ordered[i].Human? {
      more := parts;
      SameDrawn(r, late, ordered, limit, parts, page, Advance(r, ordered, i, off, limit, page).page);
    } else if ordered[i].Message? {
      more := StepMessageDrawn(r, late, ordered, i, off, limit, parts, page);
    } else {
      more := StepPanelDrawn(r, late, ordered, i, off, limit, parts, page);
    }
  }

  lemma {:induction false} FillDrawn(r: Renderer, late: seq<Item>, ordered: seq<Item>, i: nat, off: nat, limit: int, parts: seq<Part>, page: Page)
    returns (all: seq<Part>)
    requires Drawn(r, late, ordered, limit, parts, page)
    ensures Drawn(r, late, ordered, limit, all, Fill(r, ordered, i, off, limit, page))
    decreases |ordered| - i
  {
    all := parts;
    if i < |ordered| {
      var more := StepDrawn(r, late, ordered, i, off, limit, parts, page);
      match Advance(r, ordered, i, off, limit, page)
      case Halt(_) => all := more;
      case Go(i', off', page') => all := FillDrawn(r, late, ordered, i', off', limit, more, page');
    }
  }

  lemma LatePanelDrawn(r: Renderer, late: seq<Item>, ordered: seq<Item>, i: nat, limit: int, parts: seq<Part>, page: Page)
    requires Drawn(r, late, ordered, limit, parts, page) && i < |late| && !late[i].Human?
    ensures var panel := Panel(r, late, i, Available(page.elements, limit), true);
      Drawn(r, late, ordered, limit, parts + [Late(i)], Put(page, panel, late[i..PanelEnd(late, i)]))
  {
    var panel := Panel(r, late, i, Available(page.elements, limit), true);
    SerializedIsJson(page.elements);
    OnePartMore(r, late, ordered, limit, parts, page, Late(i), Put(page, panel, late[i..PanelEnd(late, i)]));
  }

  lemma {:induction false} LeadDrawn(r: Renderer, late: seq<Item>, ordered: seq<Item>, i: nat, limit: int, parts: seq<Part>, page: Page)
    returns (all: seq<Part>)
    requires Drawn(r, late, ordered, limit, parts, page)
    ensures Drawn(r, late, ordered, limit, all, Lead(r, late, i, limit, page))
    decreases |late| - i
  {
    all := parts;
    if i < |late| {
      if late[i].Human? {
        all := LeadDrawn(r, late, ordered, i + 1, limit, parts, page);
      } else {
        var e, panel := PanelEnd(late, i), Panel(r, late, i, Available(page.elements, limit), true);
        if Serialized(page.elements + panel) <= limit {
          LatePanelDrawn(r, late, ordered, i, limit, parts, page);
          all := LeadDrawn(r, late, ordered, e, limit, parts + [Late(i)], Put(page, panel, late[i..e]));
        }
      }
    }
  }

  /**
   The elements of any planned page, late results included, are the renderings of the parts
   whose items the page lists, in order: a message's slice is drawn as its text, a group as
   one element and any other item by itself, each for the room left when its turn came. The
   ids it reports are those of its items, in order.
   */
  lemma PageIsDrawn(r: Renderer, ordered: seq<Item>, cursor: Option<Cursor>, limit: int, late: seq<Item>) returns (parts: seq<Part>)
    ensures Drawn(r, late, ordered, limit, parts, Plan(r, ordered, cursor, limit, late))
  {
    var lead := LeadDrawn(r, late, ordered, 0, limit, [], BLANK);
    parts := FillDrawn(r, late, ordered, StartIndex(cursor), StartOffset(cursor), limit, lead, Lead(r, late, 0, limit, BLANK));
  }

  // ------------------------------------------------------------------ fullness

  // With these elements on it the page would be too long.
  predicate TooLong(page: Page, more: seq<Element>, limit: int) { page.elements != [] && |Json(page.elements + more)| > limit }

  // The last item on the page is the part of this message that ends at `off`.
  predicate ShownUpTo(page: Page, item: Item, off: nat)
    requires item.Message?
  {
    && page.items != [] && var last := page.items[|page.items| - 1];
    last.Message? && 0 < |last.markdown| <= off < |item.markdown| && last == item.(markdown := item.markdown[off - |last.markdown|..off])
  }

  // What ends a page before the timeline does: a human message after something else, a
  // message that goes on beyond what the page shows of it, or no room for what comes next.
  predicate Ends(r: Renderer, ordered: seq<Item>, limit: int, page: Page, i: nat, off: nat)
  {
    && i < |ordered|
    && match ordered[i]
       case Human(_) => page.items != [] || page.elements != []
       case Message(_, _, md) =>
         || ShownUpTo(page, ordered[i], off)
         || (off < |md| && TooLong(page, [r.text(md[off..SliceEnd(r, md, off, Max(1, limit - |Json(page.elements)| - 80))])], limit))
       case _ => TooLong(page, Rendering(r, ordered[i..PanelEnd(ordered, i)], Room(page.elements, limit), Regular(i)), limit)
  }

  lemma StepMessageEnds(r: Renderer, ordered: seq<Item>, i: nat, off: nat, limit: int, page: Page)
    requires i < |ordered| && ordered[i].Message? && StepMessage(r, ordered[i], i, off, limit, page).Halt?
    ensures var now := StepMessage(r, ordered[i], i, off, limit, page).page;
      now.nextCursor.Some? && Ends(r, ordered, limit, now, StartIndex(now.nextCursor), StartOffset(now.nextCursor))
  {
    var md := ordered[i].markdown;
    var from := Min(off, |md|);
    var e := SliceEnd(r, md, from, Max(1, limit - Serialized(page.elements) - 80));
    SerializedIsJson(page.elements);
    SerializedIsJson(page.elements + [r.text(md[from..e])]);
    var now := StepMessage(r, ordered[i], i, off, limit, page).page;
    if Fits(page, [r.text(md[from..e])], limit) { assert ShownUpTo(now, ordered[i], e); }
  }

  lemma StepPanelEnds(r: Renderer, ordered: seq<Item>, i: nat, off: nat, limit: int, page: Page)
    requires i < |ordered| && (ordered[i].ToolItem? || ordered[i].Note?) && StepPanel(r, ordered, i, off, limit, page).Halt?
    ensures var now := StepPanel(r, ordered, i, off, limit, page).page;
      now.nextCursor.Some? && Ends(r, ordered, limit, now, StartIndex(now.nextCursor), StartOffset(now.nextCursor))
  {
    SerializedIsJson(page.elements);
    SerializedIsJson(page.elements + Panel(r, ordered, i, Available(page.elements, limit), ordered[i].Note?));
  }

  lemma {:induction false} FillEnds(r: Renderer, ordered: seq<Item>, i: nat, off: nat, limit: int, page: Page)
    requires page.nextCursor == None
    ensures var full := Fill(r, ordered, i, off, limit, page);
      full.nextCursor.Some? ==> Ends(r, ordered, limit, full, StartIndex(full.nextCursor), StartOffset(full.nextCursor))
    decreases |ordered| - i
  {
    if i < |ordered| {
      StepProgress(r, ordered, i, off, limit, page);
      match Advance(r, ordered, i, off, limit, page)
      case Halt(_) =>
        if ordered[i].Message? { StepMessageEnds(r, ordered, i, off, limit, page); }
        else if !ordered[i].Human? { StepPanelEnds(r, ordered, i, off, limit, page); }
      case Go(i', off', page') => FillEnds(r, ordered, i', off', limit, page');
    }
  }

  /**
   No page ends early: one that is not the last ends before a human message, inside a
   message of which it shows the part up to the cut, or because what comes next would make
   it longer than the limit.
   */
  lemma PageIsFull(r: Renderer, ordered: seq<Item>, cursor: Option<Cursor>, limit: int, late: seq<Item>)
    ensures var page := Plan(r, ordered, cursor, limit, late);
      page.nextCursor.Some? ==> Ends(r, ordered, limit, page, StartIndex(page.nextCursor), StartOffset(page.nextCursor))
  {
    LeadIsOpen(r, late, 0, limit, BLANK);
    FillEnds(r, ordered, StartIndex(cursor), StartOffset(cursor), limit, Lead(r, late, 0, limit, BLANK));
  }

  // -------------------------------------------------------------- late results

  function WithoutHumans(items: seq<Item>): seq<Item>
  {
    if items == [] then []
    else
      var last := |items| - 1;
      WithoutHumans(items[..last]) + if items[last].Human? then [] else [items[last]]
  }

  lemma {:induction false} NoHumansAmong(items: seq<Item>, more: seq<Item>)
    requires forall k :: 0 <= k < |more| ==> !more[k].Human?
    ensures WithoutHumans(items + more) == WithoutHumans(items) + more
  {
    if more == [] {
      assert items + more == items;
    } else {
      var last := |more| - 1;
      NoHumansAmong(items, more[..last]);
      assert (items + more)[..|items + more| - 1] == items + more[..last];
      assert more == more[..last] + [more[last]];
      assert WithoutHumans(items) + more == WithoutHumans(items) + more[..last] + [more[last]];
    }
  }

  // The late result at k would make the page too long.
  predicate NoRoomFor(r: Renderer, late: seq<Item>, k: nat, limit: int, lead: Page)
    requires k < |late|
  {
    && !late[k].Human?
    && |Json(lead.elements + Rendering(r, late[k..PanelEnd(late, k)], Room(lead.elements, limit), Late(k)))| > limit
  }

  lemma {:induction false} LeadShows(r: Renderer, late: seq<Item>, i: nat, limit: int, page: Page) returns (k: nat)
    requires i <= |late| && page.items == WithoutHumans(late[..i])
    ensures var lead := Lead(r, late, i, limit, page);
      && i <= k <= |late| && lead.items == WithoutHumans(late[..k])
      && (k < |late| ==> NoRoomFor(r, late, k, limit, lead))
    decreases |late| - i
  {
    k := i;
    if i < |late| {
      if late[i].Human? {
        assert late[..i + 1][..i] == late[..i];
        k := LeadShows(r, late, i + 1, limit, page);
      } else {
        var e, panel := PanelEnd(late, i), Panel(r, late, i, Available(page.elements, limit), true);
        if Serialized(page.elements + panel) <= limit {
          PanelAmong(late, i);
          k := LeadShows(r, late, e, limit, Put(page, panel, late[i..e]));
        } else {
          LeadStops(r, late, i, limit, page);
        }
      }
    }
  }

  lemma LeadStops(r: Renderer, late: seq<Item>, i: nat, limit: int, page: Page)
    requires i < |late| && !late[i].Human? && Serialized(page.elements + Panel(r, late, i, Available(page.elements, limit), true)) > limit
    ensures NoRoomFor(r, late, i, limit, page)
  {
    SerializedIsJson(page.elements);
    SerializedIsJson(page.elements + Panel(r, late, i, Available(page.elements, limit), true));
  }

  lemma PanelAmong(late: seq<Item>, i: nat)
    requires i < |late| && !late[i].Human?
    ensures WithoutHumans(late[..PanelEnd(late, i)]) == WithoutHumans(late[..i]) + late[i..PanelEnd(late, i)]
  {
    var e := PanelEnd(late, i);
    PanelHasNoHumans(late, i);
    NoHumansAmong(late[..i], late[i..e]);
    assert late[..e] == late[..i] + late[i..e];
  }

  lemma PanelHasNoHumans(items: seq<Item>, i: nat)
    requires i < |items| && !items[i].Human?
    ensures forall k :: 0 <= k < PanelEnd(items, i) - i ==> !items[i..PanelEnd(items, i)][k].Human?
  {
  }

  /** Late results stand first, in order and without gaps, up to the first that would make the page too long. */
  lemma LateResultsComeFirst(r: Renderer, late: seq<Item>, limit: int) returns (k: nat)
    ensures var lead := Lead(r, late, 0, limit, BLANK);
      && k <= |late| && lead.items == WithoutHumans(late[..k])
      && (k < |late| ==> NoRoomFor(r, late, k, limit, lead))
  {
    k := LeadShows(r, late, 0, limit, BLANK);
  }

  // The page goes on behind the late results.
  lemma {:induction false} FillGoesOn(r: Renderer, ordered: seq<Item>, i: nat, off: nat, limit: int, page: Page)
    ensures page.items <= Fill(r, ordered, i, off, limit, page).items && page.elements <= Fill(r, ordered, i, off, limit, page).elements
    decreases |ordered| - i
  {
    if i < |ordered| {
      match Advance(r, ordered, i, off, limit, page)
      case Halt(_) =>
      case Go(i', off', page') => FillGoesOn(r, ordered, i', off', limit, page');
    }
  }

  /** Late results stand before what the cursor promises, of which nothing is lost for them. */
  lemma LateResultsLoseNothing(r: Renderer, ordered: seq<Item>, cursor: Option<Cursor>, limit: int, late: seq<Item>)
    requires Sound(ordered, StartIndex(cursor), StartOffset(cursor))
    ensures var page, lead := Plan(r, ordered, cursor, limit, late), Lead(r, late, 0, limit, BLANK);
      && lead.items <= page.items && lead.elements <= page.elements
      && Stream(page.items) + Rest(ordered, page.nextCursor) == Stream(lead.items) + StreamAt(ordered, cursor)
  {
    var lead := Lead(r, late, 0, limit, BLANK);
    LeadIsOpen(r, late, 0, limit, BLANK);
    FillGoesOn(r, ordered, StartIndex(cursor), StartOffset(cursor), limit, lead);
    FillStreams(r, ordered, StartIndex(cursor), StartOffset(cursor), limit, lead);
  }
}
