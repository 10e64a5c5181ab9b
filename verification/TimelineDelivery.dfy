/**
 How planned pages are delivered. A convergence reads the store, plans the active
 page and reserves at most one delivery; deliveries settle, or are given up, at any
 time in between, and the timeline grows while this goes on.
 */
module TimelineDelivery {
  import opened Common
  import opened ToolGroups
  import opened TimelinePage
  import opened TimelineCoverage

  // The comparison of the source, field by field, with a missing cursor's fields undefined.
  predicate SameCursor(left: Option<Cursor>, right: Option<Cursor>)
  {
    if left.Some? && right.Some? then
      && left.value.itemIndex == right.value.itemIndex && left.value.markdownOffset == right.value.markdownOffset
      && left.value.section == right.value.section && left.value.offset == right.value.offset
    else left.None? && right.None?
  }

  // ------------------------------------------------------------------- store

  // What a delivery would establish once it has settled. `shown` is the part of the items
  // that is not a late result; the store does not know which part that is.
  datatype Draft = Draft(cursor: Option<Cursor>, items: seq<Item>, shown: seq<Item>)

  const NONE := Draft(None, [], [])

  datatype Row = Row(start: Cursor, delivered: Draft, pending: Option<Draft>)

  // `pages` are the page checkpoints of one prompt; `active` is the page being extended.
  datatype Store = Store(pages: seq<Row>, active: nat, timeline: seq<Item>)

  const FIRST := Row(At(0, 0), NONE, None)

  predicate Shaped(s: Store) { s.active < |s.pages| <= s.active + 2 }

  datatype Reservation = Reserved | Waiting

  function Drafted(r: Renderer, timeline: seq<Item>, start: Cursor, limit: int, late: seq<Item>): Draft
  {
    var page, lead := Plan(r, timeline, Some(start), limit, late), Lead(r, late, 0, limit, BLANK);
    Draft(page.nextCursor, page.items, if |lead.items| <= |page.items| then page.items[|lead.items|..] else [])
  }

  // A card update of the active page, unless one is pending, this one was delivered,
  // or the same card was already enqueued for this version of the view.
  function ReserveCard(row: Row, draft: Draft, duplicate: bool): (Row, Reservation)
  {
    if row.pending.Some? || (row.delivered.cursor == draft.cursor && row.delivered.items == draft.items) || duplicate
    then (row, Waiting)
    else (row.(pending := Some(draft)), Reserved)
  }

  // The next page, created with its start; a row that exists keeps its start.
  function ReserveContinuation(s: Store, start: Cursor, draft: Draft): Store
    requires Shaped(s)
  {
    if |s.pages| == s.active + 1 then s.(pages := s.pages + [Row(start, NONE, Some(draft))])
    else if s.pages[s.active + 1].pending.Some? then s
    else s.(pages := s.pages[s.active + 1 := s.pages[s.active + 1].(pending := Some(draft))])
  }

  // One convergence of a prompt whose timeline has items.
  function Converged(r: Renderer, s: Store, limit: int, late: seq<Item>, duplicate: bool): Store
    requires Shaped(s)
  {
    var draft := Drafted(r, s.timeline, s.pages[s.active].start, limit, late);
    var (row, outcome) := ReserveCard(s.pages[s.active], draft, duplicate);
    var s' := s.(pages := s.pages[s.active := row]);
    if outcome == Reserved || row.pending.Some? || row.delivered.cursor != draft.cursor || draft.cursor.None? then s'
    else ReserveContinuation(s', draft.cursor.value, Drafted(r, s.timeline, draft.cursor.value, limit, []))
  }

  class AnswerPageWorkflow {
    var store: Store

    constructor (timeline: seq<Item>)
      ensures store == Store([FIRST], 0, timeline)
    {
      store := Store([FIRST], 0, timeline);
    }

    method DraftPage(r: Renderer, start: Cursor, limit: int, late: seq<Item>) returns (draft: Draft)
      ensures draft == Drafted(r, store.timeline, start, limit, late)
    {
      var plan := PlanAnswerTimelinePage(r, store.timeline, Some(start), limit, late);
      var lead := |Lead(r, late, 0, limit, BLANK).items|;
      draft := Draft(plan.nextCursor, plan.items, if lead <= |plan.items| then plan.items[lead..] else []);
    }

    // Nothing is awaited in here, so a convergence is one step.
    method ConvergeTimeline(r: Renderer, limit: int, late: seq<Item>, duplicate: bool)
      requires Shaped(store)
      modifies this
      ensures store == Converged(r, old(store), limit, late, duplicate)
    {
      var checkpoint := store.pages[store.active];
      var plan := DraftPage(r, checkpoint.start, limit, late);
      var (row, outcome) := ReserveCard(checkpoint, plan, duplicate);
      store := store.(pages := store.pages[store.active := row]);
      if outcome == Reserved { return; }
      var page := store.pages[store.active];
      if page.pending.Some? || !SameCursor(page.delivered.cursor, plan.cursor) { return; }
      if plan.cursor.Some? {
        var next := DraftPage(r, plan.cursor.value, limit, []);
        store := ReserveContinuation(store, plan.cursor.value, next);
      }
    }
  }

  // -------------------------------------------------------------------- steps

  datatype Event =
    | Converge(late: seq<Item>, duplicate: bool)
    | Settle(page: nat)                // the pending delivery of a page arrived
    | GiveUp(page: nat)                // it failed for good
    | Promote                          // the next page's card exists and becomes the active one
    | Update(timeline: seq<Item>)      // the timeline changed

  predicate Enabled(s: Store, e: Event)
  {
    match e
    case Converge(_, _) => Shaped(s)
    case Settle(k) => k < |s.pages| && s.pages[k].pending.Some?
    case GiveUp(k) => k < |s.pages| && s.pages[k].pending.Some?
    case Promote => |s.pages| == s.active + 2
    case Update(_) => true
  }

  function After(r: Renderer, limit: int, s: Store, e: Event): Store
    requires Enabled(s, e)
  {
    match e
    case Converge(late, duplicate) => Converged(r, s, limit, late, duplicate)
    case Settle(k) => s.(pages := s.pages[k := s.pages[k].(delivered := s.pages[k].pending.value, pending := None)])
    case GiveUp(k) => s.(pages := s.pages[k := s.pages[k].(pending := None)])
    case Promote => s.(active := s.active + 1)
    case Update(timeline) => s.(timeline := timeline)
  }

  predicate Run(r: Renderer, limit: int, states: seq<Store>, events: seq<Event>)
  {
    && |states| == |events| + 1 && states[0].pages == [FIRST] && states[0].active == 0
    && forall i :: 0 <= i < |events| ==> Enabled(states[i], events[i]) && states[i + 1] == After(r, limit, states[i], events[i])
  }

  lemma {:induction false} RunIsShaped(r: Renderer, limit: int, states: seq<Store>, events: seq<Event>, n: nat)
    requires Run(r, limit, states, events) && n <= |events|
    ensures Shaped(states[n])
  {
    if n > 0 { RunIsShaped(r, limit, states, events, n - 1); }
  }

  /**
   In every run a page is added only by a convergence, and only behind a page that has no
   delivery pending and is delivered up to exactly where the new page starts.
   */
  lemma PagesFollowDelivery(r: Renderer, limit: int, states: seq<Store>, events: seq<Event>, n: nat)
    requires Run(r, limit, states, events) && n < |events| && |states[n + 1].pages| > |states[n].pages|
    ensures var before, after, k := states[n].pages, states[n + 1].pages, states[n].active;
      && events[n].Converge? && |before| == k + 1 && |after| == k + 2 && after[..k + 1] == before
      && before[k].pending.None? && before[k].delivered.cursor == Some(after[k + 1].start)
  {
    RunIsShaped(r, limit, states, events, n);
    var s := states[n];
    assert s.pages[s.active := s.pages[s.active]] == s.pages;
  }

  // ------------------------------------------------------------------- linking

  // What is delivered or on its way for a page ends where the next page starts.
  predicate LinkedAt(row: Row, next: Cursor)
  {
    row.delivered.cursor == Some(next) && (row.pending.Some? ==> row.pending.value.cursor == Some(next))
  }

  predicate Linked(s: Store)
  {
    Shaped(s) && forall k :: 0 <= k < |s.pages| - 1 ==> LinkedAt(s.pages[k], s.pages[k + 1].start)
  }

  // A convergence gives the active page another end although the next page is already reserved.
  predicate Diverges(r: Renderer, limit: int, s: Store, e: Event)
    requires Shaped(s)
  {
    && e.Converge? && !e.duplicate && |s.pages| == s.active + 2 && s.pages[s.active].pending.None?
    && Plan(r, s.timeline, Some(s.pages[s.active].start), limit, e.late).nextCursor != Some(s.pages[s.active + 1].start)
  }

  lemma ReplaceLinked(s: Store, k: nat, row: Row)
    requires Linked(s) && k < |s.pages| && row.start == s.pages[k].start
    ensures Linked(s.(pages := s.pages[k := row])) <==> (k < |s.pages| - 1 ==> LinkedAt(row, s.pages[k + 1].start))
  {
    var after := s.(pages := s.pages[k := row]);
    if k < |s.pages| - 1 && Linked(after) { assert LinkedAt(after.pages[k], after.pages[k + 1].start); }
    if k < |s.pages| - 1 ==> LinkedAt(row, s.pages[k + 1].start) {
      forall j | 0 <= j < |after.pages| - 1 ensures LinkedAt(after.pages[j], after.pages[j + 1].start) {
        assert LinkedAt(s.pages[j], s.pages[j + 1].start);
      }
    }
  }

  lemma AddLinked(s: Store, row: Row)
    requires Linked(s) && |s.pages| == s.active + 1 && LinkedAt(s.pages[s.active], row.start)
    ensures Linked(s.(pages := s.pages + [row]))
  {
    var after := s.(pages := s.pages + [row]);
    forall j | 0 <= j < |after.pages| - 1 ensures LinkedAt(after.pages[j], after.pages[j + 1].start) {
      if j < |s.pages| - 1 { assert LinkedAt(s.pages[j], s.pages[j + 1].start); }
    }
  }

  lemma ConvergeLinks(r: Renderer, limit: int, s: Store, e: Event)
    requires Linked(s) && e.Converge?
    ensures Linked(After(r, limit, s, e)) <==> !Diverges(r, limit, s, e)
  {
    var draft := Drafted(r, s.timeline, s.pages[s.active].start, limit, e.late);
    var (row, outcome) := ReserveCard(s.pages[s.active], draft, e.duplicate);
    ReplaceLinked(s, s.active, row);
    var s' := s.(pages := s.pages[s.active := row]);
    if |s.pages| == s.active + 2 { assert LinkedAt(s.pages[s.active], s.pages[s.active + 1].start); }
    if !(outcome == Reserved || row.pending.Some? || row.delivered.cursor != draft.cursor || draft.cursor.None?) {
      var next := Drafted(r, s.timeline, draft.cursor.value, limit, []);
      if |s.pages| == s.active + 1 {
        AddLinked(s', Row(draft.cursor.value, NONE, Some(next)));
      } else if s'.pages[s.active + 1].pending.None? {
        ReplaceLinked(s', s.active + 1, s'.pages[s.active + 1].(pending := Some(next)));
      }
    }
  }

  lemma StepLinks(r: Renderer, limit: int, s: Store, e: Event)
    requires Linked(s) && Enabled(s, e)
    ensures Linked(After(r, limit, s, e)) <==> !Diverges(r, limit, s, e)
  {
    match e
    case Converge(_, _) => ConvergeLinks(r, limit, s, e);
    case Settle(k) =>
      if k < |s.pages| - 1 { assert LinkedAt(s.pages[k], s.pages[k + 1].start); }
      ReplaceLinked(s, k, s.pages[k].(delivered := s.pages[k].pending.value, pending := None));
    case GiveUp(k) =>
      if k < |s.pages| - 1 { assert LinkedAt(s.pages[k], s.pages[k + 1].start); }
      ReplaceLinked(s, k, s.pages[k].(pending := None));
    case Promote =>
    case Update(_) =>
  }

  // No convergence among the first n events diverges.
  ghost predicate NeverDiverges(r: Renderer, limit: int, states: seq<Store>, events: seq<Event>, n: nat)
    requires n <= |events| <= |states|
  {
    forall m :: 0 <= m < n ==> Shaped(states[m]) && !Diverges(r, limit, states[m], events[m])
  }

  /**
   Over every run, with any late results and any changes of the timeline: each page with a
   successor ends, and can only come to end, where its successor starts, in every state up
   to n, if and only if no convergence before n gives a page another end after its
   successor was reserved.
   */
  lemma {:induction false} LinkedIff(r: Renderer, limit: int, states: seq<Store>, events: seq<Event>, n: nat)
    requires Run(r, limit, states, events) && n <= |events|
    ensures (forall m :: 0 <= m <= n ==> Linked(states[m])) <==> NeverDiverges(r, limit, states, events, n)
  {
    if n > 0 {
      LinkedIff(r, limit, states, events, n - 1);
      RunIsShaped(r, limit, states, events, n - 1);
      if Linked(states[n - 1]) { StepLinks(r, limit, states[n - 1], events[n - 1]); }
      if NeverDiverges(r, limit, states, events, n) { assert NeverDiverges(r, limit, states, events, n - 1); }
      if forall m :: 0 <= m <= n ==> Linked(states[m]) {
        assert Linked(states[n]) && Linked(states[n - 1]);
        assert NeverDiverges(r, limit, states, events, n - 1);
      }
    }
  }

  /** When one does, the delivery it reserved need only settle for the two pages to disagree. */
  lemma DivergenceShows(r: Renderer, limit: int, s: Store, e: Event)
    requires Linked(s) && Diverges(r, limit, s, e)
    ensures var s' := After(r, limit, s, e);
      && Enabled(s', Settle(s.active))
      && After(r, limit, s', Settle(s.active)).pages[s.active].delivered.cursor != Some(s.pages[s.active + 1].start)
      && After(r, limit, s', Settle(s.active)).pages[s.active + 1] == s.pages[s.active + 1]
  {
    assert LinkedAt(s.pages[s.active], s.pages[s.active + 1].start);
  }

  // ------------------------------------------------------------------ coverage

  predicate NotBack(start: Cursor, c: Cursor)
  {
    c.itemIndex > start.itemIndex || (c.itemIndex == start.itemIndex && c.markdownOffset >= start.markdownOffset)
  }

  predicate GoodStart(timeline: seq<Item>, start: Cursor) { start == At(0, 0) || Proper(timeline, start) }

  // What the draft shows and what comes after its end are together what comes after the start.
  predicate CoversTo(timeline: seq<Item>, start: Cursor, d: Draft)
  {
    d.cursor.Some? ==>
      && Proper(timeline, d.cursor.value) && NotBack(start, d.cursor.value)
      && Stream(d.shown) + StreamAt(timeline, d.cursor) == StreamAt(timeline, Some(start))
  }

  lemma Cancel<T>(a: seq<T>, b: seq<T>, c: seq<T>)
    requires a + b == a + c
    ensures b == c
  {
    assert (a + b)[|a|..] == b && (a + c)[|a|..] == c;
  }

  lemma {:induction false} FillExtends(r: Renderer, ordered: seq<Item>, i: nat, off: nat, limit: int, page: Page)
    ensures page.items <= Fill(r, ordered, i, off, limit, page).items
    decreases |ordered| - i
  {
    if i < |ordered| {
      match Advance(r, ordered, i, off, limit, page)
      case Halt(_) =>
      case Go(i', off', page') => FillExtends(r, ordered, i', off', limit, page');
    }
  }

  lemma {:induction false} FillNotBack(r: Renderer, ordered: seq<Item>, i: nat, off: nat, limit: int, page: Page)
    requires page.nextCursor == None && (off == 0 || (i < |ordered| && ordered[i].Message?))
    ensures var c := Fill(r, ordered, i, off, limit, page).nextCursor;
      c.Some? ==> c.value.itemIndex > i || (c.value.itemIndex == i && c.value.markdownOffset >= off)
    decreases |ordered| - i
  {
    if i < |ordered| {
      StepProgress(r, ordered, i, off, limit, page);
      match Advance(r, ordered, i, off, limit, page)
      case Halt(_) =>
      case Go(i', off', page') => FillProgress(r, ordered, i', off', limit, page');
    }
  }

  lemma StreamTail(first: seq<Item>, full: seq<Item>, rest: seq<Unit>, whole: seq<Unit>)
    requires first <= full && Stream(full) + rest == Stream(first) + whole
    ensures Stream(full[|first|..]) + rest == whole
  {
    var later := full[|first|..];
    assert full == first + later;
    StreamConcat(first, later);
    Assoc(Stream(first), Stream(later), rest);
    Cancel(Stream(first), Stream(later) + rest, whole);
  }

  lemma DraftStreams(r: Renderer, timeline: seq<Item>, start: Cursor, limit: int, late: seq<Item>)
    requires GoodStart(timeline, start)
    ensures var d := Drafted(r, timeline, start, limit, late);
      Stream(d.shown) + Rest(timeline, d.cursor) == StreamAt(timeline, Some(start))
  {
    var i, off, lead := StartIndex(Some(start)), StartOffset(Some(start)), Lead(r, late, 0, limit, BLANK);
    LeadIsOpen(r, late, 0, limit, BLANK);
    FillExtends(r, timeline, i, off, limit, lead);
    FillStreams(r, timeline, i, off, limit, lead);
    var page := Fill(r, timeline, i, off, limit, lead);
    StreamTail(lead.items, page.items, Rest(timeline, page.nextCursor), StreamFrom(timeline, i, off));
  }

  lemma DraftCovers(r: Renderer, timeline: seq<Item>, start: Cursor, limit: int, late: seq<Item>)
    requires GoodStart(timeline, start)
    ensures CoversTo(timeline, start, Drafted(r, timeline, start, limit, late))
  {
    var i, off, lead := StartIndex(Some(start)), StartOffset(Some(start)), Lead(r, late, 0, limit, BLANK);
    LeadIsOpen(r, late, 0, limit, BLANK);
    FillNotBack(r, timeline, i, off, limit, lead);
    SoundFill(r, timeline, i, off, limit, lead);
    DraftStreams(r, timeline, start, limit, late);
  }

  // What follows a position grows by exactly what is appended.
  lemma {:induction false} StreamGrows(timeline: seq<Item>, extra: seq<Item>, i: nat, off: nat)
    requires i <= |timeline| && (off == 0 || (i < |timeline| && timeline[i].Message?))
    ensures StreamFrom(timeline + extra, i, off) == StreamFrom(timeline, i, off) + Stream(extra)
    decreases |timeline| - i
  {
    var all := timeline + extra;
    if i == |timeline| {
      StreamFromZero(all, i);
      assert all[i..|all|] == extra;
      NothingFirst(Stream(extra));
    } else {
      assert all[i] == timeline[i];
      StreamGrows(timeline, extra, i + 1, 0);
      var own := if timeline[i].Message? then Text(timeline[i].id, timeline[i].markdown[Min(off, |timeline[i].markdown|)..]) else Show(timeline[i]);
      Assoc(own, StreamFrom(timeline, i + 1, 0), Stream(extra));
    }
  }

  lemma GrowthCovers(timeline: seq<Item>, extra: seq<Item>, start: Cursor, d: Draft)
    requires GoodStart(timeline, start) && CoversTo(timeline, start, d)
    ensures GoodStart(timeline + extra, start) && CoversTo(timeline + extra, start, d)
  {
    StreamGrows(timeline, extra, StartIndex(Some(start)), StartOffset(Some(start)));
    if d.cursor.Some? {
      StreamGrows(timeline, extra, StartIndex(d.cursor), StartOffset(d.cursor));
      Assoc(Stream(d.shown), StreamAt(timeline, d.cursor), Stream(extra));
    }
  }

  predicate RowCovers(timeline: seq<Item>, row: Row)
  {
    GoodStart(timeline, row.start) && CoversTo(timeline, row.start, row.delivered) && (row.pending.Some? ==> CoversTo(timeline, row.start, row.pending.value))
  }

  predicate AllCover(s: Store) { forall k :: 0 <= k < |s.pages| ==> RowCovers(s.timeline, s.pages[k]) }

  lemma ReplaceCovers(s: Store, k: nat, row: Row)
    requires AllCover(s) && k < |s.pages| && RowCovers(s.timeline, row)
    ensures AllCover(s.(pages := s.pages[k := row]))
  {
  }

  lemma AddCovers(s: Store, row: Row)
    requires AllCover(s) && RowCovers(s.timeline, row)
    ensures AllCover(s.(pages := s.pages + [row]))
  {
  }

  lemma ConvergeCovers(r: Renderer, limit: int, s: Store, e: Event)
    requires Linked(s) && AllCover(s) && e.Converge?
    ensures AllCover(After(r, limit, s, e))
  {
    var draft := Drafted(r, s.timeline, s.pages[s.active].start, limit, e.late);
    assert RowCovers(s.timeline, s.pages[s.active]);
    DraftCovers(r, s.timeline, s.pages[s.active].start, limit, e.late);
    var (row, outcome) := ReserveCard(s.pages[s.active], draft, e.duplicate);
    ReplaceCovers(s, s.active, row);
    var s' := s.(pages := s.pages[s.active := row]);
    if !(outcome == Reserved || row.pending.Some? || row.delivered.cursor != draft.cursor || draft.cursor.None?) {
      var next := Drafted(r, s.timeline, draft.cursor.value, limit, []);
      DraftCovers(r, s.timeline, draft.cursor.value, limit, []);
      if |s.pages| == s.active + 1 {
        AddCovers(s', Row(draft.cursor.value, NONE, Some(next)));
      } else if s'.pages[s.active + 1].pending.None? {
        assert LinkedAt(s.pages[s.active], s.pages[s.active + 1].start) && RowCovers(s.timeline, s.pages[s.active + 1]);
        ReplaceCovers(s', s.active + 1, s'.pages[s.active + 1].(pending := Some(next)));
      }
    }
  }

  // The timeline only gets longer.
  predicate Grows(s: Store, e: Event) { e.Update? ==> s.timeline <= e.timeline }

  lemma StepCovers(r: Renderer, limit: int, s: Store, e: Event)
    requires Linked(s) && AllCover(s) && Enabled(s, e) && Grows(s, e) && !Diverges(r, limit, s, e)
    ensures AllCover(After(r, limit, s, e))
  {
    match e
    case Converge(late, duplicate) => ConvergeCovers(r, limit, s, e);
    case Settle(k) => assert RowCovers(s.timeline, s.pages[k]);
    case GiveUp(k) => assert RowCovers(s.timeline, s.pages[k]);
    case Promote =>
    case Update(timeline) =>
      var extra := timeline[|s.timeline|..];
      assert timeline == s.timeline + extra;
      forall k | 0 <= k < |s.pages| ensures RowCovers(timeline, s.pages[k]) {
        assert RowCovers(s.timeline, s.pages[k]);
        GrowthCovers(s.timeline, extra, s.pages[k].start, s.pages[k].delivered);
        if s.pages[k].pending.Some? { GrowthCovers(s.timeline, extra, s.pages[k].start, s.pages[k].pending.value); }
      }
  }

  ghost predicate Growing(states: seq<Store>, events: seq<Event>, n: nat)
    requires n <= |events| <= |states|
  {
    forall m :: 0 <= m < n ==> Grows(states[m], events[m])
  }

  lemma {:induction false} RunCovers(r: Renderer, limit: int, states: seq<Store>, events: seq<Event>, n: nat)
    requires Run(r, limit, states, events) && n <= |events| && Growing(states, events, n) && NeverDiverges(r, limit, states, events, n)
    ensures Linked(states[n]) && AllCover(states[n])
  {
    if n > 0 {
      assert Growing(states, events, n - 1) && NeverDiverges(r, limit, states, events, n - 1);
      RunCovers(r, limit, states, events, n - 1);
      StepLinks(r, limit, states[n - 1], events[n - 1]);
      StepCovers(r, limit, states[n - 1], events[n - 1]);
    }
  }

  // What the first n pages show, late results aside.
  function Shown(pages: seq<Row>, n: nat): seq<Item>
    requires n <= |pages|
  {
    if n == 0 then [] else Shown(pages, n - 1) + pages[n - 1].delivered.shown
  }

  lemma {:induction false} TilesCover(s: Store, n: nat)
    requires Linked(s) && AllCover(s) && n < |s.pages| && s.pages[0].start == At(0, 0)
    ensures Stream(Shown(s.pages, n)) + StreamAt(s.timeline, Some(s.pages[n].start)) == Stream(s.timeline)
  {
    if n == 0 {
      StreamFromZero(s.timeline, 0);
      assert s.timeline[0..|s.timeline|] == s.timeline;
      NothingFirst(StreamAt(s.timeline, Some(s.pages[0].start)));
    } else {
      var row := s.pages[n - 1];
      TilesCover(s, n - 1);
      assert LinkedAt(row, s.pages[n].start) && RowCovers(s.timeline, row);
      StreamConcat(Shown(s.pages, n - 1), row.delivered.shown);
      Assoc(Stream(Shown(s.pages, n - 1)), Stream(row.delivered.shown), StreamAt(s.timeline, Some(s.pages[n].start)));
    }
  }

  lemma {:induction false} FirstStartsAtZero(r: Renderer, limit: int, states: seq<Store>, events: seq<Event>, n: nat)
    requires Run(r, limit, states, events) && n <= |events|
    ensures |states[n].pages| > 0 && states[n].pages[0].start == At(0, 0)
  {
    if n > 0 {
      FirstStartsAtZero(r, limit, states, events, n - 1);
      RunIsShaped(r, limit, states, events, n - 1);
    }
  }

  /**
   In every run in which no convergence diverges and the timeline only gets longer, with
   any late results and any growth: what the pages before page n show, late results aside,
   and what the timeline holds from the start of page n on are together the whole timeline.
   Each page starts exactly where the one before it ends, and never further back.
   */
  lemma DeliveredPagesTile(r: Renderer, limit: int, states: seq<Store>, events: seq<Event>, m: nat, n: nat)
    requires Run(r, limit, states, events) && m <= |events| && n < |states[m].pages|
    requires Growing(states, events, m) && NeverDiverges(r, limit, states, events, m)
    ensures var s := states[m];
      && Stream(Shown(s.pages, n)) + StreamAt(s.timeline, Some(s.pages[n].start)) == Stream(s.timeline)
      && (n > 0 ==> s.pages[n - 1].delivered.cursor == Some(s.pages[n].start) && NotBack(s.pages[n - 1].start, s.pages[n].start))
  {
    var s := states[m];
    RunCovers(r, limit, states, events, m);
    FirstStartsAtZero(r, limit, states, events, m);
    TilesCover(s, n);
    if n > 0 { assert LinkedAt(s.pages[n - 1], s.pages[n].start) && RowCovers(s.timeline, s.pages[n - 1]); }
  }

  // Nothing is on its way, and a convergence without late results would change nothing.
  predicate AtRest(r: Renderer, limit: int, s: Store)
  {
    Shaped(s) && (forall k :: 0 <= k < |s.pages| ==> s.pages[k].pending.None?) && Converged(r, s, limit, [], false) == s
  }

  /**
   What a convergence does where nothing is on its way: it reserves the active page as it is
   planned now, with the late results, unless it was delivered like that, and then the next
   page, as it is planned from there on without them.
   */
  lemma ConvergeReserves(r: Renderer, limit: int, s: Store, late: seq<Item>)
    requires Shaped(s) && forall k :: 0 <= k < |s.pages| ==> s.pages[k].pending.None?
    ensures var row, page, pages := s.pages[s.active], Plan(r, s.timeline, Some(s.pages[s.active].start), limit, late), Converged(r, s, limit, late, false).pages;
      var same := row.delivered.cursor == page.nextCursor && row.delivered.items == page.items;
      && (!same ==> pages[s.active].pending.Some? && pages[s.active].pending.value.cursor == page.nextCursor && pages[s.active].pending.value.items == page.items)
      && (same && page.nextCursor.Some? ==>
            && |pages| == s.active + 2 && pages[s.active + 1].pending.Some? && (|s.pages| == s.active + 1 ==> Some(pages[s.active + 1].start) == page.nextCursor)
            && var next := Plan(r, s.timeline, page.nextCursor, limit, []);
            pages[s.active + 1].pending.value.cursor == next.nextCursor && pages[s.active + 1].pending.value.items == next.items)
      && (same && page.nextCursor.None? ==> pages == s.pages)
  {
    assert s.pages[s.active := s.pages[s.active]] == s.pages;
  }

  // Then the active page is the last one and was delivered as it would be planned now.
  lemma RestIsDelivered(r: Renderer, limit: int, s: Store)
    requires Linked(s) && AtRest(r, limit, s)
    ensures var page := Plan(r, s.timeline, Some(s.pages[s.active].start), limit, []);
      |s.pages| == s.active + 1 && page.nextCursor.None? && s.pages[s.active].delivered.cursor.None? && s.pages[s.active].delivered.items == page.items
  {
    ConvergeReserves(r, limit, s, []);
    assert |s.pages| == s.active + 2 ==> LinkedAt(s.pages[s.active], s.pages[s.active + 1].start);
  }

  /**
   Delivery comes to rest only when it is complete: in such a run, once nothing is on its way
   and a convergence has nothing to do, the pages show the whole timeline.
   */
  lemma RestIsComplete(r: Renderer, limit: int, states: seq<Store>, events: seq<Event>, m: nat)
    requires Run(r, limit, states, events) && m <= |events| && AtRest(r, limit, states[m])
    requires Growing(states, events, m) && NeverDiverges(r, limit, states, events, m)
    ensures var s := states[m];
      |s.pages| == s.active + 1 && Stream(Shown(s.pages, s.active)) + Stream(s.pages[s.active].delivered.items) == Stream(s.timeline)
  {
    var s := states[m];
    RunCovers(r, limit, states, events, m);
    RestIsDelivered(r, limit, s);
    DeliveredPagesTile(r, limit, states, events, m, s.active);
    var start := s.pages[s.active].start;
    assert RowCovers(s.timeline, s.pages[s.active]);
    PageKeepsEverything(r, s.timeline, Some(start), limit);
    var items := Plan(r, s.timeline, Some(start), limit, []).items;
    assert Stream(items) + [] == Stream(items);
  }

  // ---------------------------------------------------------------- calm runs

  // A cut is the end of a page that was delivered or is on its way.
  predicate Cut(row: Row, c: Cursor)
  {
    row.delivered.cursor == Some(c) || (row.pending.Some? && row.pending.value.cursor == Some(c))
  }

  // No late results, and growth that lets no appended tool join the group at a cut.
  ghost predicate Calm(s: Store, e: Event)
  {
    match e
    case Converge(late, _) => late == []
    case Update(timeline) =>
      && s.timeline <= timeline
      && forall k, c {:trigger Cut(s.pages[k], c)} :: 0 <= k < |s.pages| && Cut(s.pages[k], c) && 0 <= c.itemIndex < |s.timeline| ==>
           Sealed(s.timeline, c.itemIndex, timeline[|s.timeline|..])
    case _ => true
  }

  // Every cut is where the planner would end the page now.
  ghost predicate Replanned(r: Renderer, limit: int, timeline: seq<Item>, row: Row)
  {
    GoodStart(timeline, row.start) && forall c :: Cut(row, c) ==> Plan(r, timeline, Some(row.start), limit, []).nextCursor == Some(c)
  }

  ghost predicate AllReplanned(r: Renderer, limit: int, s: Store)
  {
    forall k :: 0 <= k < |s.pages| ==> Replanned(r, limit, s.timeline, s.pages[k])
  }

  lemma NextStartIsGood(r: Renderer, limit: int, timeline: seq<Item>, start: Cursor)
    requires GoodStart(timeline, start)
    ensures var next := Plan(r, timeline, Some(start), limit, []).nextCursor; next.Some? ==> Proper(timeline, next.value)
  {
    SoundAfter(r, timeline, Some(start), limit);
  }

  lemma GrowthReplans(r: Renderer, limit: int, s: Store, timeline: seq<Item>, k: nat)
    requires AllReplanned(r, limit, s) && Calm(s, Update(timeline)) && k < |s.pages|
    ensures Replanned(r, limit, timeline, s.pages[k])
  {
    var row, extra := s.pages[k], timeline[|s.timeline|..];
    assert timeline == s.timeline + extra && Replanned(r, limit, s.timeline, row);
    NextStartIsGood(r, limit, s.timeline, row.start);
    forall c | Cut(row, c) ensures Plan(r, timeline, Some(row.start), limit, []).nextCursor == Some(c) {
      AppendLeavesFullPagesAlone(r, s.timeline, extra, Some(row.start), limit, []);
    }
  }

  // A row stays replanned when what the planner makes of it now is reserved.
  lemma DraftReplans(r: Renderer, limit: int, timeline: seq<Item>, row: Row, draft: Draft)
    requires Replanned(r, limit, timeline, row) && draft == Drafted(r, timeline, row.start, limit, [])
    ensures Replanned(r, limit, timeline, row.(pending := Some(draft)))
  {
    var after := row.(pending := Some(draft));
    forall c | Cut(after, c) ensures Plan(r, timeline, Some(row.start), limit, []).nextCursor == Some(c) {
      if draft.cursor != Some(c) { assert Cut(row, c); }
    }
  }

  lemma ReplaceReplanned(r: Renderer, limit: int, s: Store, k: nat, row: Row)
    requires AllReplanned(r, limit, s) && k < |s.pages| && Replanned(r, limit, s.timeline, row)
    ensures AllReplanned(r, limit, s.(pages := s.pages[k := row]))
  {
  }

  lemma ConvergeReplans(r: Renderer, limit: int, s: Store, duplicate: bool)
    requires Linked(s) && AllReplanned(r, limit, s)
    ensures AllReplanned(r, limit, Converged(r, s, limit, [], duplicate))
  {
    var page := s.pages[s.active];
    assert Replanned(r, limit, s.timeline, page);
    var draft := Drafted(r, s.timeline, page.start, limit, []);
    NextStartIsGood(r, limit, s.timeline, page.start);
    var (row, outcome) := ReserveCard(page, draft, duplicate);
    DraftReplans(r, limit, s.timeline, page, draft);
    ReplaceReplanned(r, limit, s, s.active, row);
    var s' := s.(pages := s.pages[s.active := row]);
    if !(outcome == Reserved || row.pending.Some? || row.delivered.cursor != draft.cursor || draft.cursor.None?) {
      var next := Drafted(r, s.timeline, draft.cursor.value, limit, []);
      DraftReplans(r, limit, s.timeline, Row(draft.cursor.value, NONE, None), next);
      if |s.pages| == s.active + 2 && s'.pages[s.active + 1].pending.None? {
        assert LinkedAt(page, s.pages[s.active + 1].start) && Replanned(r, limit, s.timeline, s.pages[s.active + 1]);
        DraftReplans(r, limit, s.timeline, s.pages[s.active + 1], next);
        ReplaceReplanned(r, limit, s', s.active + 1, s'.pages[s.active + 1].(pending := Some(next)));
      }
    }
  }

  /** Without late results, and with growth that joins no group at a cut, no convergence ever diverges. */
  lemma {:induction false} CalmRunsNeverDiverge(r: Renderer, limit: int, states: seq<Store>, events: seq<Event>, n: nat)
    requires Run(r, limit, states, events) && n <= |events| && forall m :: 0 <= m < n ==> Calm(states[m], events[m])
    ensures Linked(states[n]) && AllReplanned(r, limit, states[n]) && NeverDiverges(r, limit, states, events, n)
  {
    if n > 0 {
      CalmRunsNeverDiverge(r, limit, states, events, n - 1);
      var s, e := states[n - 1], events[n - 1];
      CalmStep(r, limit, s, e);
    }
  }

  lemma CalmStep(r: Renderer, limit: int, s: Store, e: Event)
    requires Linked(s) && AllReplanned(r, limit, s) && Enabled(s, e) && Calm(s, e)
    ensures !Diverges(r, limit, s, e) && Linked(After(r, limit, s, e)) && AllReplanned(r, limit, After(r, limit, s, e))
  {
    if |s.pages| == s.active + 2 {
      assert LinkedAt(s.pages[s.active], s.pages[s.active + 1].start) && Replanned(r, limit, s.timeline, s.pages[s.active]);
      assert Cut(s.pages[s.active], s.pages[s.active + 1].start);
    }
    StepLinks(r, limit, s, e);
    match e
    case Converge(late, duplicate) => ConvergeReplans(r, limit, s, duplicate);
    case Settle(k) => SettleReplans(r, limit, s, k);
    case GiveUp(k) => SettleReplans(r, limit, s, k);
    case Promote =>
    case Update(timeline) => forall k | 0 <= k < |s.pages| ensures Replanned(r, limit, timeline, s.pages[k]) { GrowthReplans(r, limit, s, timeline, k); }
  }

  lemma SettleReplans(r: Renderer, limit: int, s: Store, k: nat)
    requires AllReplanned(r, limit, s) && k < |s.pages| && s.pages[k].pending.Some?
    ensures AllReplanned(r, limit, After(r, limit, s, Settle(k))) && AllReplanned(r, limit, After(r, limit, s, GiveUp(k)))
  {
    var row := s.pages[k];
    assert Replanned(r, limit, s.timeline, row);
    forall c | row.pending.value.cursor == Some(c) ensures Cut(row, c) {}
    forall c | row.delivered.cursor == Some(c) ensures Cut(row, c) {}
    var settled, given := row.(delivered := row.pending.value, pending := None), row.(pending := None);
    assert Replanned(r, limit, s.timeline, settled) by { forall c | Cut(settled, c) ensures Cut(row, c) {} }
    assert Replanned(r, limit, s.timeline, given) by { forall c | Cut(given, c) ensures Cut(row, c) {} }
  }

  // -------------------------------------------------------------- failing run

  function Pair(item: Item, available: nat, preserve: bool): Option<Element> { Some("ab") }

  function Nothing(items: seq<Item>, available: nat): Element { "" }

  const NOTE := Note("a", "")
  const PARENT := ToolItem("p", Category.Read, false, None, "")
  const CHILD := ToolItem("c", Category.Read, false, Some("p"), "")

  // Two panels are too long for a page of five characters, but a note and a group are not.
  lemma FirstPlan(any: Renderer)
    ensures Plan(any.(single := Pair, group := Nothing), [NOTE, PARENT], Some(At(0, 0)), 5, []) == Page(["ab"], [NOTE], ["a"], Some(At(1, 0)))
  {
    var r, ordered := any.(single := Pair, group := Nothing), [NOTE, PARENT];
    assert ordered[0..1] == [NOTE];
    assert ChildEnd(ordered, PARENT, 2) == 2 && PanelEnd(ordered, 1) == 2;
    assert Panel(r, ordered, 0, Available([], 5), true) == ["ab"] && Panel(r, ordered, 1, Available(["ab"], 5), false) == ["ab"];
    assert Ids([NOTE]) == ["a"];
    var one := Page(["ab"], [NOTE], ["a"], None);
    assert Put(BLANK, ["ab"], [NOTE]) == one;
    TwoPairs();
    assert Fill(r, ordered, 0, 0, 5, BLANK) == Fill(r, ordered, 1, 0, 5, one);
    assert Advance(r, ordered, 1, 0, 5, one) == Halt(Stop(one, 1, 0));
  }

  lemma SecondPlan(any: Renderer)
    ensures Plan(any.(single := Pair, group := Nothing), [NOTE, PARENT], Some(At(1, 0)), 5, []) == Page(["ab"], [PARENT], ["p"], None)
  {
    var r, ordered := any.(single := Pair, group := Nothing), [NOTE, PARENT];
    assert ordered[1..2] == [PARENT];
    assert ChildEnd(ordered, PARENT, 2) == 2 && PanelEnd(ordered, 1) == 2;
    assert Ids([PARENT]) == ["p"];
    var one := Page(["ab"], [PARENT], ["p"], None);
    assert Panel(r, ordered, 1, Available([], 5), false) == ["ab"];
    assert Put(BLANK, ["ab"], [PARENT]) == one;
    assert Advance(r, ordered, 1, 0, 5, BLANK) == Go(2, 0, one);
    assert Fill(r, ordered, 2, 0, 5, one) == one;
  }

  lemma TwoPairs()
    ensures Serialized(["ab"] + ["ab"]) == 7 && Serialized(["ab"] + [""]) == 5
  {
    assert Total(["ab"]) == 2 + Total(["ab"][1..]) && Total([""]) == 0 + Total([""][1..]);
    assert ["ab"] + ["ab"] == ["ab", "ab"] && ["ab", "ab"][1..] == ["ab"];
    assert ["ab"] + [""] == ["ab", ""] && ["ab", ""][1..] == [""];
  }

  lemma GroupPlan(any: Renderer)
    ensures var r := any.(single := Pair, group := Nothing);
      Plan(r, [NOTE, PARENT, CHILD], Some(At(0, 0)), 5, []) == Page(["ab", ""], [NOTE, PARENT, CHILD], ["a", "p", "c"], None)
  {
    var r, ordered := any.(single := Pair, group := Nothing), [NOTE, PARENT, CHILD];
    assert ordered[0..1] == [NOTE] && ordered[1..3] == [PARENT, CHILD] && ordered[2..3] == [CHILD];
    OneReadIsGroupable(CHILD);
    assert ChildEnd(ordered, PARENT, 2) == 3 && PanelEnd(ordered, 1) == 3;
    var one, all := Page(["ab"], [NOTE], ["a"], None), Page(["ab", ""], [NOTE, PARENT, CHILD], ["a", "p", "c"], None);
    assert Ids([NOTE]) == ["a"] && Ids([PARENT, CHILD]) == ["p", "c"];
    assert Put(BLANK, ["ab"], [NOTE]) == one && Put(one, [""], [PARENT, CHILD]) == all;
    TwoPairs();
    assert Panel(r, ordered, 0, Available([], 5), true) == ["ab"] && Panel(r, ordered, 1, Available(["ab"], 5), false) == [""];
    assert Fill(r, ordered, 0, 0, 5, BLANK) == Fill(r, ordered, 1, 0, 5, one);
    assert Advance(r, ordered, 1, 0, 5, one) == Go(3, 0, all);
    assert Fill(r, ordered, 3, 0, 5, all) == all;
  }

  lemma Drafts(any: Renderer)
    ensures var r := any.(single := Pair, group := Nothing);
      && Drafted(r, [NOTE, PARENT], At(0, 0), 5, []) == Draft(Some(At(1, 0)), [NOTE], [NOTE])
      && Drafted(r, [NOTE, PARENT], At(1, 0), 5, []) == Draft(None, [PARENT], [PARENT])
      && Drafted(r, [NOTE, PARENT, CHILD], At(0, 0), 5, []) == Draft(None, [NOTE, PARENT, CHILD], [NOTE, PARENT, CHILD])
  {
    FirstPlan(any);
    SecondPlan(any);
    GroupPlan(any);
  }

  // A card is reserved for a page that has nothing pending and was not delivered like this.
  lemma Reserves(r: Renderer, s: Store, draft: Draft)
    requires Shaped(s) && s.pages[s.active].pending.None? && draft == Drafted(r, s.timeline, s.pages[s.active].start, 5, [])
    requires s.pages[s.active].delivered.items != draft.items
    ensures Converged(r, s, 5, [], false) == s.(pages := s.pages[s.active := s.pages[s.active].(pending := Some(draft))])
  {
  }

  lemma Continues(r: Renderer, s: Store, draft: Draft, next: Draft)
    requires |s.pages| == s.active + 1 && s.pages[s.active].pending.None? && s.pages[s.active].delivered == draft && draft.cursor.Some?
    requires draft == Drafted(r, s.timeline, s.pages[s.active].start, 5, []) && next == Drafted(r, s.timeline, draft.cursor.value, 5, [])
    ensures Converged(r, s, 5, [], false) == s.(pages := s.pages + [Row(draft.cursor.value, NONE, Some(next))])
  {
    assert s.pages[s.active := s.pages[s.active]] == s.pages;
  }

  /**
   A run in which the second page is reserved from the parent tool on, a child then joins
   the parent, and the first page is delivered again with the whole group: the parent is
   on both pages.
   */
  lemma DivergingRun(any: Renderer) returns (states: seq<Store>, events: seq<Event>)
    ensures Run(any.(single := Pair, group := Nothing), 5, states, events) && |events| == 6
    ensures Linked(states[4]) && Diverges(any.(single := Pair, group := Nothing), 5, states[4], events[4])
    ensures var pages := states[6].pages;
      && |pages| == 2 && pages[1].start == At(1, 0) && pages[0].delivered == Draft(None, [NOTE, PARENT, CHILD], [NOTE, PARENT, CHILD])
      && pages[1].pending == Some(Draft(None, [PARENT], [PARENT]))
  {
    var r := any.(single := Pair, group := Nothing);
    Drafts(any);
    var one, two, both := Draft(Some(At(1, 0)), [NOTE], [NOTE]), Draft(None, [PARENT], [PARENT]), Draft(None, [NOTE, PARENT, CHILD], [NOTE, PARENT, CHILD]);
    var earlier, grown := [NOTE, PARENT], [NOTE, PARENT, CHILD];
    events := [Converge([], false), Settle(0), Converge([], false), Update(grown), Converge([], false), Settle(0)];
    var s0 := Store([FIRST], 0, earlier);
    Reserves(r, s0, one);
    var s1 := After(r, 5, s0, events[0]);
    var s2 := After(r, 5, s1, events[1]);
    assert s2.pages == [Row(At(0, 0), one, None)];
    Continues(r, s2, one, two);
    var s3 := After(r, 5, s2, events[2]);
    var s4 := After(r, 5, s3, events[3]);
    assert s4.pages == [Row(At(0, 0), one, None), Row(At(1, 0), NONE, Some(two))];
    Reserves(r, s4, both);
    var s5 := After(r, 5, s4, events[4]);
    states := [s0, s1, s2, s3, s4, s5, After(r, 5, s5, events[5])];
  }
}
