/** What the pages of a timeline contain: everything once, in order, and nothing that later items can change. */
module TimelineCoverage {
  import opened Common
  import opened ToolGroups
  import opened TimelinePage

  // ---------------------------------------------------------------- contents

  // What a reader sees: the characters of messages, and other items as a whole.
  datatype Unit = Glyph(id: string, c: char) | Whole(item: Item)

  function Text(id: string, s: string): seq<Unit>
  {
    if s == "" then [] else Text(id, s[..|s| - 1]) + [Glyph(id, s[|s| - 1])]
  }

  lemma Assoc<T>(a: seq<T>, b: seq<T>, c: seq<T>)
    ensures a + b + c == a + (b + c)
  {}

  lemma {:induction false} TextConcat(id: string, a: string, b: string)
    ensures Text(id, a + b) == Text(id, a) + Text(id, b)
  {
    if b == "" {
      assert a + b == a;
    } else {
      var shorter, last := b[..|b| - 1], [Glyph(id, b[|b| - 1])];
      TextConcat(id, a, shorter);
      assert (a + b)[..|a + b| - 1] == a + shorter;
      Assoc(Text(id, a), Text(id, shorter), last);
    }
  }

  function Show(item: Item): seq<Unit>
  {
    match item
    case Human(_) => []
    case Message(id, _, md) => Text(id, md)
    case _ => [Whole(item)]
  }

  function Stream(items: seq<Item>): seq<Unit>
  {
    if items == [] then [] else Stream(items[..|items| - 1]) + Show(items[|items| - 1])
  }

  lemma LastApart<T>(a: seq<T>, b: seq<T>)
    requires b != []
    ensures b == b[..|b| - 1] + [b[|b| - 1]] && a + b == (a + b[..|b| - 1]) + [b[|b| - 1]]
  {
  }

  lemma {:induction false} StreamConcat(a: seq<Item>, b: seq<Item>)
    ensures Stream(a + b) == Stream(a) + Stream(b)
  {
    if b == [] {
      assert a + b == a;
    } else {
      var shorter, last := b[..|b| - 1], b[|b| - 1];
      StreamConcat(a, shorter);
      LastApart(a, b);
      StreamAppend(a + shorter, last);
      ShownNext(a, shorter, last);
    }
  }

  lemma ShownNext(a: seq<Item>, b: seq<Item>, item: Item)
    ensures Stream(a) + Stream(b) + Show(item) == Stream(a) + Stream(b + [item])
  {
    StreamAppend(b, item);
    Assoc(Stream(a), Stream(b), Show(item));
  }

  lemma ShownBefore(items: seq<Item>, item: Item, later: seq<Unit>)
    ensures Stream(items + [item]) + later == Stream(items) + (Show(item) + later)
  {
    StreamAppend(items, item);
    Assoc(Stream(items), Show(item), later);
  }

  lemma StreamOne(item: Item)
    ensures Stream([item]) == Show(item)
  {
    assert [item][..0] == [];
    assert Stream([item]) == [] + Show(item);
  }

  // What the planner shows from a position on. Notes do not consume an offset.
  function StreamFrom(ordered: seq<Item>, i: nat, off: nat): seq<Unit>
    decreases |ordered| - i
  {
    if i >= |ordered| then []
    else
      match ordered[i]
      case Message(id, _, md) => Text(id, md[Min(off, |md|)..]) + StreamFrom(ordered, i + 1, 0)
      case Note(_, _) => Show(ordered[i]) + StreamFrom(ordered, i + 1, off)
      case _ => Show(ordered[i]) + StreamFrom(ordered, i + 1, 0)
  }

  function StreamAt(ordered: seq<Item>, c: Option<Cursor>): seq<Unit>
  {
    StreamFrom(ordered, StartIndex(c), StartOffset(c))
  }

  // What is left after a page.
  function Rest(ordered: seq<Item>, c: Option<Cursor>): seq<Unit>
  {
    if c.None? then [] else StreamAt(ordered, c)
  }

  lemma StreamCons(items: seq<Item>, i: nat, e: nat)
    requires i < e <= |items|
    ensures Stream(items[i..e]) == Show(items[i]) + Stream(items[i + 1..e])
  {
    assert items[i..e] == [items[i]] + items[i + 1..e];
    StreamConcat([items[i]], items[i + 1..e]);
    StreamOne(items[i]);
  }

  lemma {:induction false} StreamFromZero(ordered: seq<Item>, i: nat)
    requires i <= |ordered|
    ensures StreamFrom(ordered, i, 0) == Stream(ordered[i..|ordered|])
    decreases |ordered| - i
  {
    if i < |ordered| {
      StreamFromZero(ordered, i + 1);
      StreamCons(ordered, i, |ordered|);
      StreamFromStep(ordered, i);
    } else {
      assert ordered[i..|ordered|] == [];
    }
  }

  lemma StreamFromStep(ordered: seq<Item>, i: nat)
    requires i < |ordered|
    ensures StreamFrom(ordered, i, 0) == Show(ordered[i]) + StreamFrom(ordered, i + 1, 0)
  {
    if ordered[i].Message? { assert ordered[i].markdown[0..] == ordered[i].markdown; }
  }

  // ------------------------------------------------- one page keeps everything

  // What is on the page and what is still to come are together the same after a turn.
  predicate Kept(ordered: seq<Item>, page: Page, i: nat, off: nat, t: Turn)
  {
    Stream(page.items) + StreamFrom(ordered, i, off) ==
    Stream(t.page.items) + (if t.Go? then StreamFrom(ordered, t.i, t.off) else Rest(ordered, t.page.nextCursor))
  }

  // Moving a slice of a message from what is to come onto the page.
  lemma SliceShown(items: seq<Item>, item: Item, from: nat, e: nat, later: seq<Unit>)
    requires item.Message? && from <= e <= |item.markdown|
    ensures var md := item.markdown;
      Stream(items) + (Text(item.id, md[from..]) + later) ==
      Stream(items + [item.(markdown := md[from..e])]) + (Text(item.id, md[e..]) + later)
  {
    var md, slice := item.markdown, item.(markdown := item.markdown[from..e]);
    StreamAppend(items, slice);
    TextSplit(item.id, md, from, e);
    Regroup(Stream(items), Text(item.id, md[from..e]), Text(item.id, md[e..]), later);
  }

  lemma StreamAppend(items: seq<Item>, item: Item)
    ensures Stream(items + [item]) == Stream(items) + Show(item)
  {
    assert (items + [item])[..|items|] == items;
  }

  lemma TextSplit(id: string, s: string, from: nat, e: nat)
    requires from <= e <= |s|
    ensures Text(id, s[from..]) == Text(id, s[from..e]) + Text(id, s[e..])
  {
    assert s[from..] == s[from..e] + s[e..];
    TextConcat(id, s[from..e], s[e..]);
  }

  lemma Regroup<T>(p: seq<T>, a: seq<T>, b: seq<T>, c: seq<T>)
    ensures p + ((a + b) + c) == (p + a) + (b + c)
  {}

  lemma MessageAt(ordered: seq<Item>, i: nat, off: nat)
    requires i < |ordered| && ordered[i].Message?
    ensures var md := ordered[i].markdown;
      StreamFrom(ordered, i, off) == Text(ordered[i].id, md[Min(off, |md|)..]) + StreamFrom(ordered, i + 1, 0)
    ensures off >= |ordered[i].markdown| ==> StreamFrom(ordered, i, off) == StreamFrom(ordered, i + 1, 0)
  {
    if off >= |ordered[i].markdown| {
      assert ordered[i].markdown[|ordered[i].markdown|..] == "";
      NothingFirst(StreamFrom(ordered, i + 1, 0));
    }
  }

  lemma StepMessageStreams(r: Renderer, ordered: seq<Item>, i: nat, off: nat, limit: int, page: Page)
    requires i < |ordered| && ordered[i].Message? && page.nextCursor == None
    ensures Kept(ordered, page, i, off, StepMessage(r, ordered[i], i, off, limit, page))
  {
    var item := ordered[i];
    var from := Min(off, |item.markdown|);
    var e := SliceEnd(r, item.markdown, from, Max(1, limit - Serialized(page.elements) - 80));
    var t := StepMessage(r, item, i, off, limit, page);
    MessageAt(ordered, i, off);
    if from < e {
      var element := r.text(item.markdown[from..e]);
      if Fits(page, [element], limit) {
        SliceShown(page.items, item, from, e, StreamFrom(ordered, i + 1, 0));
        MessageAt(ordered, i, e);
        assert t.page.items == page.items + [item.(markdown := item.markdown[from..e])];
        assert t.Halt? ==> Rest(ordered, t.page.nextCursor) == StreamFrom(ordered, i, e);
        assert t.Go? ==> StreamFrom(ordered, t.i, t.off) == StreamFrom(ordered, i, e);
      } else {
        assert Rest(ordered, t.page.nextCursor) == StreamFrom(ordered, i, off);
      }
    }
  }

  lemma NothingFirst<T>(s: seq<T>)
    ensures [] + s == s
  {}

  // Tools are shown whole, and the offset does not survive them.
  lemma {:induction false} StreamTools(ordered: seq<Item>, i: nat, e: nat, off: nat)
    requires i < e <= |ordered| && forall k :: i <= k < e ==> ordered[k].ToolItem?
    ensures StreamFrom(ordered, i, off) == Stream(ordered[i..e]) + StreamFrom(ordered, e, 0)
    decreases e - i
  {
    StreamCons(ordered, i, e);
    if i + 1 == e {
      assert ordered[e..e] == [];
    } else {
      StreamTools(ordered, i + 1, e, 0);
    }
    Assoc(Show(ordered[i]), Stream(ordered[i + 1..e]), StreamFrom(ordered, e, 0));
  }

  lemma PanelShown(ordered: seq<Item>, i: nat, off: nat)
    requires i < |ordered| && (ordered[i].ToolItem? || (ordered[i].Note? && off == 0))
    ensures StreamFrom(ordered, i, off) == Stream(ordered[i..PanelEnd(ordered, i)]) + StreamFrom(ordered, PanelEnd(ordered, i), 0)
  {
    if ordered[i].ToolItem? {
      StreamTools(ordered, i, PanelEnd(ordered, i), off);
    } else {
      assert ordered[i..i + 1] == [ordered[i]];
      StreamOne(ordered[i]);
    }
  }

  lemma StepPanelStreams(r: Renderer, ordered: seq<Item>, i: nat, off: nat, limit: int, page: Page)
    requires i < |ordered| && (ordered[i].ToolItem? || (ordered[i].Note? && off == 0)) && page.nextCursor == None
    ensures Kept(ordered, page, i, off, StepPanel(r, ordered, i, off, limit, page))
  {
    var e := PanelEnd(ordered, i);
    PanelShown(ordered, i, off);
    PanelShown(ordered, i, 0);
    StreamConcat(page.items, ordered[i..e]);
    Assoc(Stream(page.items), Stream(ordered[i..e]), StreamFrom(ordered, e, 0));
  }

  // Where the planner really starts to use an offset: past any notes.
  predicate Sound(ordered: seq<Item>, i: nat, off: nat)
  {
    off == 0 || i >= |ordered| || !ordered[i].Note?
  }

  lemma StepStreams(r: Renderer, ordered: seq<Item>, i: nat, off: nat, limit: int, page: Page)
    requires i < |ordered| && page.nextCursor == None && Sound(ordered, i, off)
    ensures Kept(ordered, page, i, off, Advance(r, ordered, i, off, limit, page))
  {
    if ordered[i].Message? { StepMessageStreams(r, ordered, i, off, limit, page); }
    else if !ordered[i].Human? { StepPanelStreams(r, ordered, i, off, limit, page); }
    else { NothingFirst(StreamFrom(ordered, i + 1, 0)); }
  }

  lemma {:induction false} FillStreams(r: Renderer, ordered: seq<Item>, i: nat, off: nat, limit: int, page: Page)
    requires page.nextCursor == None && Sound(ordered, i, off)
    ensures var full := Fill(r, ordered, i, off, limit, page);
      Stream(full.items) + Rest(ordered, full.nextCursor) == Stream(page.items) + StreamFrom(ordered, i, off)
    decreases |ordered| - i
  {
    if i < |ordered| {
      StepStreams(r, ordered, i, off, limit, page);
      StepProgress(r, ordered, i, off, limit, page);
      match Advance(r, ordered, i, off, limit, page)
      case Halt(_) =>
      case Go(i', off', page') => FillStreams(r, ordered, i', off', limit, page');
    }
  }

  /** A page and what is left after it are exactly what its cursor promised, late results aside. */
  lemma PageKeepsEverything(r: Renderer, ordered: seq<Item>, cursor: Option<Cursor>, limit: int)
    requires Sound(ordered, StartIndex(cursor), StartOffset(cursor))
    ensures var page := Plan(r, ordered, cursor, limit, []);
      Stream(page.items) + Rest(ordered, page.nextCursor) == StreamAt(ordered, cursor)
  {
    FillStreams(r, ordered, StartIndex(cursor), StartOffset(cursor), limit, BLANK);
    assert Stream(BLANK.items) == [];
  }

  // ------------------------------------------------------------------- chains

  // Every page from a cursor on, each starting where the one before it ended.
  function Pages(r: Renderer, ordered: seq<Item>, cursor: Option<Cursor>, limit: int): seq<Page>
    decreases Max(0, |ordered| - StartIndex(cursor)), LeftIn(ordered, cursor)
  {
    var page := Plan(r, ordered, cursor, limit, []);
    FillProgress(r, ordered, StartIndex(cursor), StartOffset(cursor), limit, BLANK);
    if page.nextCursor.None? then [page] else [page] + Pages(r, ordered, page.nextCursor, limit)
  }

  // How much of the message at the cursor is still to come.
  function LeftIn(ordered: seq<Item>, cursor: Option<Cursor>): nat
  {
    var i := StartIndex(cursor);
    if i < |ordered| && ordered[i].Message? then Max(0, |ordered[i].markdown| - StartOffset(cursor)) else 0
  }

  function AllItems(pages: seq<Page>): seq<Item>
  {
    if pages == [] then [] else pages[0].items + AllItems(pages[1..])
  }

  lemma {:induction false} ChainKeepsEverything(r: Renderer, ordered: seq<Item>, cursor: Option<Cursor>, limit: int)
    requires Sound(ordered, StartIndex(cursor), StartOffset(cursor))
    ensures Stream(AllItems(Pages(r, ordered, cursor, limit))) == StreamAt(ordered, cursor)
    decreases Max(0, |ordered| - StartIndex(cursor)), LeftIn(ordered, cursor)
  {
    var next := Plan(r, ordered, cursor, limit, []).nextCursor;
    PageKeepsEverything(r, ordered, cursor, limit);
    ItemsOfPages(r, ordered, cursor, limit);
    if next.Some? {
      FillProgress(r, ordered, StartIndex(cursor), StartOffset(cursor), limit, BLANK);
      SoundAfter(r, ordered, cursor, limit);
      ChainKeepsEverything(r, ordered, next, limit);
    }
  }

  // What the pages from a cursor on show beyond the first of them.
  function Later(r: Renderer, ordered: seq<Item>, next: Option<Cursor>, limit: int): seq<Unit>
  {
    if next.None? then [] else Stream(AllItems(Pages(r, ordered, next, limit)))
  }

  lemma ItemsOfPages(r: Renderer, ordered: seq<Item>, cursor: Option<Cursor>, limit: int)
    ensures var page := Plan(r, ordered, cursor, limit, []);
      Stream(AllItems(Pages(r, ordered, cursor, limit))) == Stream(page.items) + Later(r, ordered, page.nextCursor, limit)
  {
    var page := Plan(r, ordered, cursor, limit, []);
    ItemsOfFirst(page, if page.nextCursor.None? then [] else Pages(r, ordered, page.nextCursor, limit));
    assert [page] + [] == [page];
  }

  lemma ItemsOfFirst(page: Page, later: seq<Page>)
    ensures Stream(AllItems([page] + later)) == Stream(page.items) + Stream(AllItems(later))
  {
    assert ([page] + later)[1..] == later;
    StreamConcat(page.items, AllItems(later));
  }

  // A page that starts at a sound position ends at one.
  lemma SoundAfter(r: Renderer, ordered: seq<Item>, cursor: Option<Cursor>, limit: int)
    requires Sound(ordered, StartIndex(cursor), StartOffset(cursor))
    ensures var next := Plan(r, ordered, cursor, limit, []).nextCursor;
      next.Some? ==> Sound(ordered, StartIndex(next), StartOffset(next)) && Proper(ordered, next.value)
  {
    SoundFill(r, ordered, StartIndex(cursor), StartOffset(cursor), limit, BLANK);
  }

  lemma {:induction false} SoundFill(r: Renderer, ordered: seq<Item>, i: nat, off: nat, limit: int, page: Page)
    requires page.nextCursor == None && Sound(ordered, i, off)
    ensures var next := Fill(r, ordered, i, off, limit, page).nextCursor;
      next.Some? ==> Proper(ordered, next.value)
    decreases |ordered| - i
  {
    if i < |ordered| {
      StepProgress(r, ordered, i, off, limit, page);
      match Advance(r, ordered, i, off, limit, page)
      case Halt(_) =>
      case Go(i', off', page') => SoundFill(r, ordered, i', off', limit, page');
    }
  }

  /**
   From the beginning the chain of pages ends, and its pages together show every
   character of every message and every other item that is not a human message,
   once each and in order.
   */
  lemma AllPagesShowTheTimeline(r: Renderer, ordered: seq<Item>, limit: int)
    ensures Stream(AllItems(Pages(r, ordered, None, limit))) == Stream(ordered)
  {
    ChainKeepsEverything(r, ordered, None, limit);
    StreamFromZero(ordered, 0);
    assert ordered[0..|ordered|] == ordered;
  }

  // ---------------------------------------------------------- carried offsets

  // What a cursor should show: its offset belongs to a message, and to nothing else.
  function Intended(ordered: seq<Item>, cursor: Option<Cursor>): seq<Unit>
  {
    var i := StartIndex(cursor);
    StreamFrom(ordered, i, if i < |ordered| && ordered[i].Message? then StartOffset(cursor) else 0)
  }

  // The notes from i on all fit on the page, one after the other, and a message with text follows them.
  predicate NotesReachText(r: Renderer, ordered: seq<Item>, i: nat, limit: int, page: Page)
    decreases |ordered| - i
  {
    && i < |ordered|
    && if ordered[i].Note? then
         var panel := Panel(r, ordered, i, Available(page.elements, limit), true);
         Fits(page, panel, limit) && NotesReachText(r, ordered, i + 1, limit, Put(page, panel, ordered[i..i + 1]))
       else ordered[i].Message? && ordered[i].markdown != ""
  }

  // The offset that the planner really applies to what follows.
  function Applied(r: Renderer, ordered: seq<Item>, i: nat, off: nat, limit: int, page: Page): nat
  {
    if NotesReachText(r, ordered, i, limit, page) then off else 0
  }

  // A note is passed with its offset kept, or ends the page.
  lemma FillNote(r: Renderer, ordered: seq<Item>, i: nat, off: nat, limit: int, page: Page)
    requires i < |ordered| && ordered[i].Note?
    ensures var panel := Panel(r, ordered, i, Available(page.elements, limit), true);
      if Fits(page, panel, limit) then
        Fill(r, ordered, i, off, limit, page) == Fill(r, ordered, i + 1, off, limit, Put(page, panel, [ordered[i]]))
      else Fill(r, ordered, i, off, limit, page) == Stop(page, i, 0)
  {
    assert PanelEnd(ordered, i) == i + 1 && ordered[i..i + 1] == [ordered[i]];
  }

  lemma AppliedNext(r: Renderer, ordered: seq<Item>, i: nat, off: nat, limit: int, page: Page)
    requires i < |ordered| && ordered[i].Note? && Fits(page, Panel(r, ordered, i, Available(page.elements, limit), true), limit)
    ensures var filled := Put(page, Panel(r, ordered, i, Available(page.elements, limit), true), [ordered[i]]);
      Applied(r, ordered, i, off, limit, page) == Applied(r, ordered, i + 1, off, limit, filled)
  {
    assert ordered[i..i + 1] == [ordered[i]];
  }

  // What follows a note on the page is what follows it in the timeline.
  lemma CarriedOver(ordered: seq<Item>, i: nat, applied: nat, items: seq<Item>)
    requires i < |ordered| && ordered[i].Note?
    ensures Stream(items + [ordered[i]]) + StreamFrom(ordered, i + 1, applied) == Stream(items) + StreamFrom(ordered, i, applied)
  {
    ShownBefore(items, ordered[i], StreamFrom(ordered, i + 1, applied));
  }

  lemma {:induction false} FillCarries(r: Renderer, ordered: seq<Item>, i: nat, off: nat, limit: int, page: Page)
    requires page.nextCursor == None
    ensures var full := Fill(r, ordered, i, off, limit, page);
      && Stream(full.items) + Rest(ordered, full.nextCursor) == Stream(page.items) + StreamFrom(ordered, i, Applied(r, ordered, i, off, limit, page))
      && (full.nextCursor.Some? ==> Sound(ordered, StartIndex(full.nextCursor), StartOffset(full.nextCursor)))
    decreases |ordered| - i
  {
    if i < |ordered| && ordered[i].Note? {
      var panel := Panel(r, ordered, i, Available(page.elements, limit), true);
      FillNote(r, ordered, i, off, limit, page);
      if Fits(page, panel, limit) {
        AppliedNext(r, ordered, i, off, limit, page);
        CarriedOver(ordered, i, Applied(r, ordered, i, off, limit, page), page.items);
        FillCarries(r, ordered, i + 1, off, limit, Put(page, panel, [ordered[i]]));
      }
    } else {
      FillStreams(r, ordered, i, off, limit, page);
      SoundFill(r, ordered, i, off, limit, page);
    }
  }

  /**
   What a chain of pages shows from any cursor, also one that the planner would not make.
   An offset that points at a note is carried on, and text is lost if and only if every
   note up to a message with text fits on the first page.
   */
  lemma CarriedOffsetLosesText(r: Renderer, ordered: seq<Item>, cursor: Option<Cursor>, limit: int)
    ensures var i := StartIndex(cursor);
      Stream(AllItems(Pages(r, ordered, cursor, limit))) == Intended(ordered, cursor) <==>
      !(StartOffset(cursor) > 0 && i < |ordered| && ordered[i].Note? && NotesReachText(r, ordered, i, limit, BLANK))
  {
    var i, off := StartIndex(cursor), StartOffset(cursor);
    if i < |ordered| && ordered[i].Note? {
      ChainCarries(r, ordered, cursor, limit);
      if off > 0 && NotesReachText(r, ordered, i, limit, BLANK) {
        NotesReach(r, ordered, i, limit, BLANK);
        CarriedLength(ordered, i, off);
      }
    } else {
      ChainKeepsEverything(r, ordered, cursor, limit);
    }
  }

  lemma ChainCarries(r: Renderer, ordered: seq<Item>, cursor: Option<Cursor>, limit: int)
    ensures Stream(AllItems(Pages(r, ordered, cursor, limit))) ==
      StreamFrom(ordered, StartIndex(cursor), Applied(r, ordered, StartIndex(cursor), StartOffset(cursor), limit, BLANK))
  {
    var page := Plan(r, ordered, cursor, limit, []);
    FillCarries(r, ordered, StartIndex(cursor), StartOffset(cursor), limit, BLANK);
    NothingFirst(StreamFrom(ordered, StartIndex(cursor), Applied(r, ordered, StartIndex(cursor), StartOffset(cursor), limit, BLANK)));
    if page.nextCursor.None? {
      ItemsOfFirst(page, []);
      assert [page] + [] == [page];
    } else {
      ChainKeepsEverything(r, ordered, page.nextCursor, limit);
      ItemsOfFirst(page, Pages(r, ordered, page.nextCursor, limit));
    }
  }

  // Text that an offset left over at a note would cut: the message right after the notes.
  predicate TextAfterNotes(ordered: seq<Item>, i: nat)
    decreases |ordered| - i
  {
    i < |ordered| && if ordered[i].Note? then TextAfterNotes(ordered, i + 1) else ordered[i].Message? && ordered[i].markdown != ""
  }

  lemma {:induction false} NotesReach(r: Renderer, ordered: seq<Item>, i: nat, limit: int, page: Page)
    requires NotesReachText(r, ordered, i, limit, page)
    ensures TextAfterNotes(ordered, i)
    decreases |ordered| - i
  {
    if ordered[i].Note? {
      var panel := Panel(r, ordered, i, Available(page.elements, limit), true);
      NotesReach(r, ordered, i + 1, limit, Put(page, panel, ordered[i..i + 1]));
    }
  }

  lemma {:induction false} CarriedLength(ordered: seq<Item>, i: nat, off: nat)
    requires off > 0
    ensures if TextAfterNotes(ordered, i) then |StreamFrom(ordered, i, off)| < |StreamFrom(ordered, i, 0)|
            else StreamFrom(ordered, i, off) == StreamFrom(ordered, i, 0)
    decreases |ordered| - i
  {
    if i < |ordered| {
      if ordered[i].Note? {
        CarriedLength(ordered, i + 1, off);
      } else if ordered[i].Message? {
        var md, id := ordered[i].markdown, ordered[i].id;
        TextLength(id, md[Min(off, |md|)..]);
        TextLength(id, md[0..]);
      }
    }
  }

  lemma {:induction false} TextLength(id: string, s: string)
    ensures |Text(id, s)| == |s|
  {
    if s != "" { TextLength(id, s[..|s| - 1]); }
  }

  function Unrendered(item: Item, available: nat, preserve: bool): Option<Element> { None }

  /** The smallest such case: the first character of the message after the note is never shown. */
  lemma StaleOffsetExample(any: Renderer)
    ensures var ordered := [Note("n", ""), Message("m", false, "ab")];
      Plan(any.(single := Unrendered), ordered, Some(At(0, 1)), 1000, []).items == [Note("n", ""), Message("m", false, "b")]
  {
    var r := any.(single := Unrendered);
    var ordered := [Note("n", ""), Message("m", false, "ab")];
    assert Panel(r, ordered, 0, Available([], 1000), true) == [];
    var one := Put(BLANK, [], [ordered[0]]);
    assert ordered[0..1] == [ordered[0]];
    assert Advance(r, ordered, 0, 1, 1000, BLANK) == Go(1, 1, one);
    assert "ab"[1..2] == "b";
    assert SliceEnd(r, "ab", 1, 918) == 2;
  }

  function Short(item: Item, available: nat, preserve: bool): Option<Element> { Some("ab") }

  // What stands at the cursor does not get on the page: a human message after something
  // else, or an element for which there is no room.
  predicate Blocked(r: Renderer, ordered: seq<Item>, i: nat, off: nat, limit: int, page: Page)
  {
    && i < |ordered|
    && match ordered[i]
       case Human(_) => !Empty(page)
       case Message(_, _, md) =>
         off < |md| && !Fits(page, [r.text(md[off..SliceEnd(r, md, off, Max(1, limit - Serialized(page.elements) - 80))])], limit)
       case _ => !Fits(page, Panel(r, ordered, i, Available(page.elements, limit), ordered[i].Note?), limit)
  }

  // The end of a page is not beyond where it started.
  predicate Stalls(cursor: Option<Cursor>, page: Page)
  {
    page.nextCursor.Some? && !Before(StartIndex(cursor), StartOffset(cursor), page.nextCursor.value)
  }

  /**
   With late results ahead of it a page may end where it started, and does if and only if
   the late results leave no room for what stands at the cursor. Without late results
   nothing is blocked.
   */
  lemma LateResultsStallIff(r: Renderer, ordered: seq<Item>, cursor: Option<Cursor>, limit: int, late: seq<Item>)
    ensures Stalls(cursor, Plan(r, ordered, cursor, limit, late)) <==>
      Blocked(r, ordered, StartIndex(cursor), StartOffset(cursor), limit, Lead(r, late, 0, limit, BLANK))
    ensures Lead(r, late, 0, limit, BLANK) == BLANK ==> !Stalls(cursor, Plan(r, ordered, cursor, limit, late))
  {
    var i, off, lead := StartIndex(cursor), StartOffset(cursor), Lead(r, late, 0, limit, BLANK);
    LeadIsOpen(r, late, 0, limit, BLANK);
    if i < |ordered| {
      StepProgress(r, ordered, i, off, limit, lead);
      match Advance(r, ordered, i, off, limit, lead)
      case Halt(_) =>
      case Go(i', off', page') => FillProgress(r, ordered, i', off', limit, page');
    }
  }

  /** With a late result ahead of it a page may end where it started: progress is promised only without them. */
  lemma LateResultsCanStall(any: Renderer)
    ensures Plan(any.(single := Short), [Note("n", "")], None, 5, [Note("late:n", "")]).nextCursor == Some(At(0, 0))
  {
    var r, late, ordered := any.(single := Short), [Note("late:n", "")], [Note("n", "")];
    assert Total(["ab"]) == 2 + Total(["ab"][1..]);
    assert late[0..1] == late;
    var page := Put(BLANK, ["ab"], late);
    assert Panel(r, late, 0, Available([], 5), true) == ["ab"];
    assert BLANK.elements + ["ab"] == ["ab"] && Serialized(["ab"]) == 4;
    assert Lead(r, late, 0, 5, BLANK) == Lead(r, late, 1, 5, page);
    assert ["ab", "ab"][1..] == ["ab"];
    assert page.elements + ["ab"] == ["ab", "ab"];
    assert Serialized(["ab", "ab"]) == 7;
    assert Advance(r, ordered, 0, 0, 5, page) == Halt(Stop(page, 0, 0));
  }

  // -------------------------------------------------------------- size and breaks

  // The page holds at most one element or is within the limit.
  predicate Bounded(page: Page, limit: int) { |page.elements| <= 1 || Serialized(page.elements) <= limit }

  lemma {:induction false} FillBounded(r: Renderer, ordered: seq<Item>, i: nat, off: nat, limit: int, page: Page)
    requires Bounded(page, limit)
    ensures Bounded(Fill(r, ordered, i, off, limit, page), limit)
    decreases |ordered| - i
  {
    if i < |ordered| {
      match Advance(r, ordered, i, off, limit, page)
      case Halt(_) =>
      case Go(i', off', page') =>
        assert Bounded(page', limit) by { assert page.elements + [] == page.elements; }
        FillBounded(r, ordered, i', off', limit, page');
    }
  }

  lemma {:induction false} LeadBounded(r: Renderer, late: seq<Item>, i: nat, limit: int, page: Page)
    requires Bounded(page, limit)
    ensures Bounded(Lead(r, late, i, limit, page), limit)
    decreases |late| - i
  {
    if i < |late| {
      if late[i].Human? { LeadBounded(r, late, i + 1, limit, page); }
      else {
        var panel := Panel(r, late, i, Available(page.elements, limit), true);
        if Serialized(page.elements + panel) <= limit {
          LeadBounded(r, late, PanelEnd(late, i), limit, Put(page, panel, late[i..PanelEnd(late, i)]));
        }
      }
    }
  }

  /** Every page, late results included, is within the limit or holds a single element. */
  lemma EveryPageIsBounded(r: Renderer, ordered: seq<Item>, cursor: Option<Cursor>, limit: int, late: seq<Item>)
    ensures Bounded(Plan(r, ordered, cursor, limit, late), limit)
  {
    LeadBounded(r, late, 0, limit, BLANK);
    FillBounded(r, ordered, StartIndex(cursor), StartOffset(cursor), limit, Lead(r, late, 0, limit, BLANK));
  }

  function EndIndex(ordered: seq<Item>, page: Page): int
  {
    if page.nextCursor.Some? then page.nextCursor.value.itemIndex else |ordered|
  }

  // An item that puts nothing on a page.
  predicate Silent(item: Item, off: nat)
  {
    item.Human? || (item.Message? && off >= |item.markdown|)
  }

  lemma {:induction false} FillBreaks(r: Renderer, ordered: seq<Item>, i: nat, off: nat, limit: int, page: Page)
    requires page.nextCursor == None
    ensures var end := EndIndex(ordered, Fill(r, ordered, i, off, limit, page));
      && (!Empty(page) ==> forall h :: i <= h < end && h < |ordered| ==> !ordered[h].Human?)
      && (forall g, h :: i <= g < h < end && h < |ordered| && ordered[h].Human? ==> Silent(ordered[g], if g == i then off else 0))
    decreases |ordered| - i
  {
    if i < |ordered| {
      StepProgress(r, ordered, i, off, limit, page);
      StepSilence(r, ordered, i, off, limit, page);
      match Advance(r, ordered, i, off, limit, page)
      case Halt(_) =>
      case Go(i', off', page') => FillBreaks(r, ordered, i', off', limit, page');
    }
  }

  lemma StepSilence(r: Renderer, ordered: seq<Item>, i: nat, off: nat, limit: int, page: Page)
    requires i < |ordered|
    ensures var t := Advance(r, ordered, i, off, limit, page);
      t.Go? ==>
        && (Empty(t.page) ==> t.i == i + 1 && t.off == 0 && Silent(ordered[i], off))
        && (!Empty(page) ==> !ordered[i].Human?)
        && forall h :: i < h < t.i ==> ordered[h].ToolItem?
  {}

  /** Nothing on a page comes before a human message that the page has passed, and after late results none is passed. */
  lemma PagesBreakAtHumans(r: Renderer, ordered: seq<Item>, cursor: Option<Cursor>, limit: int, late: seq<Item>, g: nat, h: nat)
    requires var page := Plan(r, ordered, cursor, limit, late);
      StartIndex(cursor) <= g < h < EndIndex(ordered, page) && h < |ordered| && ordered[h].Human?
    ensures Empty(Lead(r, late, 0, limit, BLANK))
    ensures Silent(ordered[g], if g == StartIndex(cursor) then StartOffset(cursor) else 0)
  {
    LeadIsOpen(r, late, 0, limit, BLANK);
    FillBreaks(r, ordered, StartIndex(cursor), StartOffset(cursor), limit, Lead(r, late, 0, limit, BLANK));
  }

  // ------------------------------------------------------------------- groups

  // The position is reached by going from panel to panel, where a group is one panel.
  predicate Boundary(ordered: seq<Item>, from: nat, i: int)
    decreases |ordered| - from
  {
    from == i || (from < |ordered| && from < i && Boundary(ordered, PanelEnd(ordered, from), i))
  }

  lemma {:induction false} OnePanelOn(ordered: seq<Item>, from: nat, i: nat)
    requires Boundary(ordered, from, i) && i < |ordered|
    ensures Boundary(ordered, from, PanelEnd(ordered, i))
    decreases |ordered| - from
  {
    if from < i { OnePanelOn(ordered, PanelEnd(ordered, from), i); }
  }

  // A panel that begins at a boundary is never cut by another boundary.
  lemma {:induction false} BoundariesAgree(ordered: seq<Item>, from: nat, p: nat, i: nat)
    requires Boundary(ordered, from, p) && Boundary(ordered, from, i) && p < i && p < |ordered|
    ensures PanelEnd(ordered, p) <= i
    decreases |ordered| - from
  {
    if from < p {
      BoundariesAgree(ordered, PanelEnd(ordered, from), p, i);
    } else {
      BoundaryIsBeyond(ordered, PanelEnd(ordered, p), i);
    }
  }

  lemma BoundaryIsBeyond(ordered: seq<Item>, from: nat, i: int)
    requires Boundary(ordered, from, i)
    ensures from <= i
  {
  }

  // No group at all begins before the position and ends after it.
  predicate Uncut(ordered: seq<Item>, i: nat)
  {
    forall p :: 0 <= p < i && p < |ordered| ==> PanelEnd(ordered, p) <= i
  }

  // Tools have names, so a child is never taken for a parent.
  predicate Named(ordered: seq<Item>)
  {
    forall p :: 0 <= p < |ordered| && ordered[p].ToolItem? ==> ordered[p].id != ""
  }

  lemma PanelIsUncut(ordered: seq<Item>, i: nat)
    requires Named(ordered) && i < |ordered| && Uncut(ordered, i)
    ensures Uncut(ordered, PanelEnd(ordered, i))
  {
    forall p | i < p < PanelEnd(ordered, i) ensures PanelEnd(ordered, p) <= PanelEnd(ordered, i) {
      assert ChildOf(ordered[p], ordered[i]);
    }
  }

  lemma {:induction false} BoundaryIsUncut(ordered: seq<Item>, from: nat, i: nat)
    requires Named(ordered) && Uncut(ordered, from) && Boundary(ordered, from, i)
    ensures Uncut(ordered, i)
    decreases |ordered| - from
  {
    if from < i {
      PanelIsUncut(ordered, from);
      BoundaryIsUncut(ordered, PanelEnd(ordered, from), i);
    }
  }

  lemma {:induction false} FillEndsAtBoundary(r: Renderer, ordered: seq<Item>, i: nat, off: nat, limit: int, page: Page)
    requires Boundary(ordered, 0, i) && page.nextCursor == None
    ensures var next := Fill(r, ordered, i, off, limit, page).nextCursor;
      next.Some? ==> next.value.itemIndex >= 0 && Boundary(ordered, 0, next.value.itemIndex)
    decreases |ordered| - i
  {
    if i < |ordered| {
      StepProgress(r, ordered, i, off, limit, page);
      OnePanelOn(ordered, 0, i);
      match Advance(r, ordered, i, off, limit, page)
      case Halt(_) =>
      case Go(i', off', page') =>
        assert i' == PanelEnd(ordered, i);
        FillEndsAtBoundary(r, ordered, i', off', limit, page');
    }
  }

  // A chain of pages from the beginning, each with late results of its own.
  predicate Chained(r: Renderer, ordered: seq<Item>, limit: int, cursors: seq<Option<Cursor>>, lates: seq<seq<Item>>)
  {
    && |cursors| == |lates| + 1 && cursors[0] == None
    && forall k :: 0 <= k < |lates| ==> cursors[k + 1] == Plan(r, ordered, cursors[k], limit, lates[k]).nextCursor
  }

  /**
   No page of a chain ends inside a group that the planner makes one panel of, whatever
   late results the pages show. Where tools have names, it ends inside no group at all.
   */
  lemma {:induction false} ChainNeverCutsGroups(r: Renderer, ordered: seq<Item>, limit: int, cursors: seq<Option<Cursor>>, lates: seq<seq<Item>>, k: nat, p: nat)
    requires Chained(r, ordered, limit, cursors, lates) && k < |cursors|
    ensures var end := StartIndex(cursors[k]);
      && Boundary(ordered, 0, end)
      && (p < end && p < |ordered| && Boundary(ordered, 0, p) ==> PanelEnd(ordered, p) <= end)
      && (Named(ordered) ==> Uncut(ordered, end))
    decreases k
  {
    if k > 0 {
      ChainNeverCutsGroups(r, ordered, limit, cursors, lates, k - 1, p);
      var start, lead := cursors[k - 1], Lead(r, lates[k - 1], 0, limit, BLANK);
      assert cursors[k] == Plan(r, ordered, start, limit, lates[k - 1]).nextCursor;
      LeadIsOpen(r, lates[k - 1], 0, limit, BLANK);
      FillEndsAtBoundary(r, ordered, StartIndex(start), StartOffset(start), limit, lead);
    }
    var end := StartIndex(cursors[k]);
    if p < end && p < |ordered| && Boundary(ordered, 0, p) { BoundariesAgree(ordered, 0, p, end); }
    if Named(ordered) { BoundaryIsUncut(ordered, 0, end); }
  }

  function ShortGroup(items: seq<Item>, available: nat): Element { "ab" }

  /** Without names two groups can overlap: the child at 1 is a parent as well, and the page that ends after it ends inside its group. */
  lemma UnnamedToolsOverlap(any: Renderer)
    ensures var child := ToolItem("x", Category.Read, false, Some(""), "");
      var ordered := [ToolItem("", Category.Read, false, None, ""), child, ToolItem("y", Category.Read, false, Some("x"), "")];
      Plan(any.(group := ShortGroup, single := Short), ordered, None, 5, []).nextCursor == Some(At(2, 0)) && !Uncut(ordered, 2)
  {
    var child, r := ToolItem("x", Category.Read, false, Some(""), ""), any.(group := ShortGroup, single := Short);
    var ordered := [ToolItem("", Category.Read, false, None, ""), child, ToolItem("y", Category.Read, false, Some("x"), "")];
    assert ChildEnd(ordered, ordered[0], 1) == 2 && ChildEnd(ordered, ordered[1], 2) == 3;
    OneReadIsGroupable(child);
    OneReadIsGroupable(ordered[2]);
    assert ordered[1..2] == [child] && ordered[2..3] == [ordered[2]];
    assert PanelEnd(ordered, 0) == 2 && PanelEnd(ordered, 1) == 3 && PanelEnd(ordered, 2) == 3;
    TwoShortElements();
    var page := Put(BLANK, ["ab"], ordered[0..2]);
    assert page.elements == ["ab"];
    assert Advance(r, ordered, 0, 0, 5, BLANK) == Go(2, 0, page);
    assert Panel(r, ordered, 2, Available(page.elements, 5), false) == ["ab"];
    assert Advance(r, ordered, 2, 0, 5, page) == Halt(Stop(page, 2, 0));
  }

  lemma TwoShortElements()
    ensures Serialized(["ab"]) == 4 && ["ab"] + ["ab"] == ["ab", "ab"] && Serialized(["ab", "ab"]) == 7
  {
    assert Total(["ab"]) == 2 + Total(["ab"][1..]);
    assert ["ab", "ab"][1..] == ["ab"];
  }

  lemma OneReadIsGroupable(tool: Item)
    requires tool.ToolItem? && tool.category == Category.Read
    ensures Groupable([tool])
  {
    assert [tool][..0] == [];
    assert Tally([tool], ALL) == 1 && Tally([tool], {Search}) == 0 && Tally([tool], {Category.Read}) == 1;
  }

  // ------------------------------------------------------------------ identity

  // The page lists the ids of exactly the items on it.
  predicate Listed(page: Page)
  {
    Elements(page.projectedItemIds) == IdsOf(page.items)
  }

  function Elements(ids: seq<string>): set<string> { set id | id in ids }

  function IdsOf(items: seq<Item>): set<string> { set item | item in items :: item.id }

  lemma PutIsListed(page: Page, more: seq<Element>, items: seq<Item>)
    requires Listed(page)
    ensures Listed(Put(page, more, items))
  {
    assert Elements(page.projectedItemIds + Ids(items)) == Elements(page.projectedItemIds) + Elements(Ids(items));
    assert IdsOf(page.items + items) == IdsOf(page.items) + IdsOf(items);
    forall item | item in items ensures item.id in Elements(Ids(items)) {
      var k :| 0 <= k < |items| && items[k] == item;
      assert Ids(items)[k] == item.id;
    }
    forall id | id in Ids(items) ensures id in IdsOf(items) {
      var k :| 0 <= k < |items| && Ids(items)[k] == id;
      assert items[k] in items;
    }
  }

  lemma PutSliceIsListed(page: Page, e: Element, item: Item, slice: string)
    requires Listed(page) && item.Message?
    ensures Listed(PutSlice(page, e, item, slice))
  {
    var r := PutSlice(page, e, item, slice);
    assert Elements(r.projectedItemIds) == Elements(page.projectedItemIds) + {item.id};
    assert item.(markdown := slice) in r.items;
    assert IdsOf(r.items) == IdsOf(page.items) + {item.id};
  }

  lemma {:induction false} FillListed(r: Renderer, ordered: seq<Item>, i: nat, off: nat, limit: int, page: Page)
    requires Listed(page)
    ensures Listed(Fill(r, ordered, i, off, limit, page))
    decreases |ordered| - i
  {
    if i < |ordered| {
      StepListed(r, ordered, i, off, limit, page);
      match Advance(r, ordered, i, off, limit, page)
      case Halt(_) =>
      case Go(i', off', page') => FillListed(r, ordered, i', off', limit, page');
    }
  }

  lemma StepListed(r: Renderer, ordered: seq<Item>, i: nat, off: nat, limit: int, page: Page)
    requires i < |ordered| && Listed(page)
    ensures Listed(Advance(r, ordered, i, off, limit, page).page)
  {
    if ordered[i].Message? {
      var md := ordered[i].markdown;
      var from := Min(off, |md|);
      var e := SliceEnd(r, md, from, Max(1, limit - Serialized(page.elements) - 80));
      PutSliceIsListed(page, r.text(md[from..e]), ordered[i], md[from..e]);
    } else if !ordered[i].Human? {
      var panel := Panel(r, ordered, i, Available(page.elements, limit), !ordered[i].ToolItem?);
      PutIsListed(page, panel, ordered[i..PanelEnd(ordered, i)]);
    }
  }

  lemma {:induction false} LeadListed(r: Renderer, late: seq<Item>, i: nat, limit: int, page: Page)
    requires Listed(page)
    ensures Listed(Lead(r, late, i, limit, page))
    decreases |late| - i
  {
    if i < |late| {
      if late[i].Human? { LeadListed(r, late, i + 1, limit, page); }
      else {
        var panel := Panel(r, late, i, Available(page.elements, limit), true);
        PutIsListed(page, panel, late[i..PanelEnd(late, i)]);
        LeadListed(r, late, PanelEnd(late, i), limit, Put(page, panel, late[i..PanelEnd(late, i)]));
      }
    }
  }

  /** The ids a page reports are those of the items on it. */
  lemma PageListsItsItems(r: Renderer, ordered: seq<Item>, cursor: Option<Cursor>, limit: int, late: seq<Item>)
    ensures Listed(Plan(r, ordered, cursor, limit, late))
  {
    LeadListed(r, late, 0, limit, BLANK);
    FillListed(r, ordered, StartIndex(cursor), StartOffset(cursor), limit, Lead(r, late, 0, limit, BLANK));
  }

  // ---------------------------------------------------------------- appending

  lemma StepAppend(r: Renderer, ordered: seq<Item>, extra: seq<Item>, i: nat, off: nat, limit: int, page: Page)
    requires i < |ordered|
    requires PanelEnd(ordered, i) < |ordered| || Sealed(ordered, i, extra)
    ensures Advance(r, ordered + extra, i, off, limit, page) == Advance(r, ordered, i, off, limit, page)
  {
    PanelEndAppend(ordered, extra, i);
    assert (ordered + extra)[i] == ordered[i];
  }

  lemma {:induction false} FillAppend(r: Renderer, ordered: seq<Item>, extra: seq<Item>, i: nat, off: nat, limit: int, page: Page)
    requires page.nextCursor == None
    requires var cut := Fill(r, ordered, i, off, limit, page).nextCursor;
      cut.Some? && 0 <= cut.value.itemIndex < |ordered| && Sealed(ordered, cut.value.itemIndex, extra)
    ensures Fill(r, ordered + extra, i, off, limit, page) == Fill(r, ordered, i, off, limit, page)
    decreases |ordered| - i
  {
    StepProgress(r, ordered, i, off, limit, page);
    match Advance(r, ordered, i, off, limit, page)
    case Halt(_) => StepAppend(r, ordered, extra, i, off, limit, page);
    case Go(i', off', page') =>
      assert i' == PanelEnd(ordered, i);
      StepAppend(r, ordered, extra, i, off, limit, page);
      FillAppend(r, ordered, extra, i', off', limit, page');
  }

  /**
   A page that ended before the timeline did is final: appending items leaves the
   page and its cursor as they were, unless an appended tool joins the group that
   starts exactly at the cut.
   */
  lemma AppendLeavesFullPagesAlone(r: Renderer, ordered: seq<Item>, extra: seq<Item>, cursor: Option<Cursor>, limit: int, late: seq<Item>)
    requires var cut := Plan(r, ordered, cursor, limit, late).nextCursor;
      cut.Some? && (StartIndex(cut) < |ordered| ==> Sealed(ordered, StartIndex(cut), extra))
    ensures Plan(r, ordered + extra, cursor, limit, late) == Plan(r, ordered, cursor, limit, late)
  {
    var lead := Lead(r, late, 0, limit, BLANK);
    LeadIsOpen(r, late, 0, limit, BLANK);
    FillProgress(r, ordered, StartIndex(cursor), StartOffset(cursor), limit, lead);
    FillAppend(r, ordered, extra, StartIndex(cursor), StartOffset(cursor), limit, lead);
  }

  lemma {:induction false} LeadIsOpen(r: Renderer, late: seq<Item>, i: nat, limit: int, page: Page)
    requires page.nextCursor == None
    ensures Lead(r, late, i, limit, page).nextCursor == None
    decreases |late| - i
  {
    if i < |late| {
      if late[i].Human? { LeadIsOpen(r, late, i + 1, limit, page); }
      else {
        var panel := Panel(r, late, i, Available(page.elements, limit), true);
        LeadIsOpen(r, late, PanelEnd(late, i), limit, Put(page, panel, late[i..PanelEnd(late, i)]));
      }
    }
  }
}
