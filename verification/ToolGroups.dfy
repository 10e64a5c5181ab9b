/** The timeline's items and which runs of tool items form one indivisible panel. */
module ToolGroups {
  import opened Common

  datatype Category = Read | Search | Edit | Command | Test | Skill | Tool | Step

  // `planUpdate` says that the label, trimmed and lower-cased, is "update_plan".
  datatype Item =
    | Human(id: string)
    | Message(id: string, final: bool, markdown: string)
    | ToolItem(id: string, category: Category, planUpdate: bool, parentToolId: Option<string>, detail: string)
    | Note(id: string, detail: string)   // thinking and status items

  // A plan update has no panel of its own and none inside a group.
  predicate Shown(item: Item)
    requires item.ToolItem?
  {
    !(item.category == Step && item.planUpdate)
  }

  // A tool that can head a group; an empty parent id counts as none.
  predicate Heads(item: Item)
  {
    item.ToolItem? && (item.parentToolId == None || item.parentToolId == Some(""))
  }

  predicate ChildOf(child: Item, parent: Item)
  {
    child.ToolItem? && child.parentToolId == Some(parent.id)
  }

  predicate Tools(items: seq<Item>) { forall i :: 0 <= i < |items| ==> items[i].ToolItem? }

  // How many of the tools are shown and have one of the categories.
  function Tally(tools: seq<Item>, categories: set<Category>): (n: nat)
    requires Tools(tools)
    ensures n <= |tools|
  {
    if tools == [] then 0
    else
      var last := tools[|tools| - 1];
      Tally(tools[..|tools| - 1], categories) + if Shown(last) && last.category in categories then 1 else 0
  }

  const ALL: set<Category> := {Read, Search, Edit, Command, Test, Skill, Tool, Step}

  // Whether the children get one shared summary: all of them shown, and all reads,
  // one search among reads, all edits, all skills, or all commands and tests.
  predicate Groupable(children: seq<Item>)
    requires Tools(children)
  {
    && children != []
    && Tally(children, ALL) == |children|
    && (var searches, plain := Tally(children, {Search}), Tally(children, {Read});
        || (searches == 0 && plain == |children|)
        || (searches == 1 && searches + plain == |children|)
        || Tally(children, {Edit}) == |children|
        || Tally(children, {Skill}) == |children|
        || Tally(children, {Command, Test}) == |children|)
  }

  // All of them are shown and have one of the categories, but for the one at `except`.
  predicate AllIn(tools: seq<Item>, categories: set<Category>, except: int)
    requires Tools(tools)
  {
    forall i :: 0 <= i < |tools| && i != except ==> Shown(tools[i]) && tools[i].category in categories
  }

  // The tool at i is the one search among them.
  predicate OnlySearch(tools: seq<Item>, i: nat)
    requires Tools(tools)
  {
    i < |tools| && Shown(tools[i]) && tools[i].category == Search && AllIn(tools, {Read}, i)
  }

  lemma {:induction false} TallyAll(tools: seq<Item>, categories: set<Category>)
    requires Tools(tools)
    ensures Tally(tools, categories) == |tools| <==> AllIn(tools, categories, -1)
  {
    if tools != [] { TallyAll(tools[..|tools| - 1], categories); }
  }

  lemma {:induction false} TallyOneSearch(tools: seq<Item>)
    requires Tools(tools)
    ensures Tally(tools, {Search}) == 1 && 1 + Tally(tools, {Read}) == |tools| <==> exists i: nat :: OnlySearch(tools, i)
  {
    if tools != [] {
      var last := |tools| - 1;
      var earlier := tools[..last];
      TallyOneSearch(earlier);
      TallyAll(earlier, {Read});
      SearchesAndReads(earlier);
      if i: nat :| OnlySearch(earlier, i) && Shown(tools[last]) && tools[last].category == Read { assert OnlySearch(tools, i); }
      if i: nat :| OnlySearch(tools, i) && i < last { assert OnlySearch(earlier, i); }
      if AllIn(earlier, {Read}, -1) && Shown(tools[last]) && tools[last].category == Search { assert OnlySearch(tools, last); }
      if OnlySearch(tools, last) { assert AllIn(earlier, {Read}, -1); }
    }
  }

  /**
   Which children are grouped: none without children, none with a plan update among them, and
   only all reads, reads with exactly one search, all edits, all skills, or commands and tests.
   */
  lemma GroupableIff(children: seq<Item>)
    requires Tools(children)
    ensures Groupable(children) <==>
      && children != []
      && (|| AllIn(children, {Read}, -1) || (exists i: nat :: OnlySearch(children, i))
          || AllIn(children, {Edit}, -1) || AllIn(children, {Skill}, -1) || AllIn(children, {Command, Test}, -1))
  {
    TallyAll(children, ALL);
    TallyAll(children, {Read});
    TallyAll(children, {Edit});
    TallyAll(children, {Skill});
    TallyAll(children, {Command, Test});
    TallyOneSearch(children);
    SearchesAndReads(children);
  }

  lemma {:induction false} SearchesAndReads(tools: seq<Item>)
    requires Tools(tools)
    ensures Tally(tools, {Search}) + Tally(tools, {Read}) <= |tools|
  {
    if tools != [] { SearchesAndReads(tools[..|tools| - 1]); }
  }

  /** A group cut short is still a group: a run that is none never becomes one by growing. */
  lemma {:induction false} GroupPrefix(children: seq<Item>, n: nat)
    requires Tools(children) && Groupable(children) && 0 < n <= |children|
    ensures Groupable(children[..n])
  {
    if n < |children| {
      var shorter := children[..|children| - 1];
      SearchesAndReads(shorter);
      assert Groupable(shorter);
      GroupPrefix(shorter, n);
      assert shorter[..n] == children[..n];
    } else {
      assert children[..n] == children;
    }
  }

  // The end of the run of children of `parent` that starts at j.
  function ChildEnd(items: seq<Item>, parent: Item, j: nat): (e: nat)
    requires j <= |items|
    ensures j <= e <= |items|
    ensures forall k :: j <= k < e ==> ChildOf(items[k], parent)
    ensures e < |items| ==> !ChildOf(items[e], parent)
    decreases |items| - j
  {
    if j < |items| && ChildOf(items[j], parent) then ChildEnd(items, parent, j + 1) else j
  }

  // The end of the panel that starts at i: past the whole group, or past one item.
  function PanelEnd(items: seq<Item>, i: nat): (e: nat)
    requires i < |items|
    ensures i < e <= |items|
  {
    if !Heads(items[i]) then i + 1
    else
      var e := ChildEnd(items, items[i], i + 1);
      if Groupable(items[i + 1..e]) then e else i + 1
  }

  // The item at i heads a group of at least one child.
  predicate GroupAt(items: seq<Item>, i: nat)
    requires i < |items|
  {
    PanelEnd(items, i) > i + 1
  }

  // The loop of the source: collects the run of children, then asks for its summary.
  method ProjectGroupAt(items: seq<Item>, i: nat) returns (childCount: nat)
    requires i < |items|
    ensures i + 1 + childCount == PanelEnd(items, i)
    ensures childCount > 0 <==> GroupAt(items, i)
  {
    if !Heads(items[i]) { return 0; }
    var children: seq<Item> := [];
    var j := i + 1;
    while j < |items| && ChildOf(items[j], items[i])
      invariant i + 1 <= j <= |items| && children == items[i + 1..j]
      invariant forall k :: i + 1 <= k < j ==> ChildOf(items[k], items[i])
      invariant ChildEnd(items, items[i], j) == ChildEnd(items, items[i], i + 1)
    {
      children := children + [items[j]];
      j := j + 1;
    }
    childCount := if Groupable(children) then |children| else 0;
  }

  lemma {:induction false} ChildEndAppend(items: seq<Item>, extra: seq<Item>, parent: Item, j: nat)
    requires j <= |items|
    ensures ChildEnd(items, parent, j) < |items| ==> ChildEnd(items + extra, parent, j) == ChildEnd(items, parent, j)
    ensures ChildEnd(items, parent, j) == |items| ==> ChildEnd(items + extra, parent, j) >= |items|
    ensures ChildEnd(items, parent, j) == |items| && (extra == [] || !ChildOf(extra[0], parent)) ==> ChildEnd(items + extra, parent, j) == |items|
    decreases |items| - j
  {
    if j < |items| && ChildOf(items[j], parent) {
      ChildEndAppend(items, extra, parent, j + 1);
    }
  }

  // No appended item joins the run of children that starts right after i.
  predicate Sealed(items: seq<Item>, i: nat, extra: seq<Item>)
    requires i < |items|
  {
    || !Heads(items[i])
    || ChildEnd(items, items[i], i + 1) < |items|
    || extra == [] || !ChildOf(extra[0], items[i])
  }

  /**
   Appending leaves a panel's end alone when the panel ends before the timeline
   does, or when nothing joins its run of children.
   */
  lemma PanelEndAppend(items: seq<Item>, extra: seq<Item>, i: nat)
    requires i < |items|
    requires PanelEnd(items, i) < |items| || Sealed(items, i, extra)
    ensures PanelEnd(items + extra, i) == PanelEnd(items, i)
    ensures (items + extra)[i..PanelEnd(items, i)] == items[i..PanelEnd(items, i)]
  {
    var all := items + extra;
    assert all[i] == items[i];
    if Heads(items[i]) {
      ChildEndAppend(items, extra, items[i], i + 1);
      var e, longer := ChildEnd(items, items[i], i + 1), ChildEnd(all, items[i], i + 1);
      assert all[i + 1..e] == items[i + 1..e];
      assert e <= longer && all[i + 1..longer][..e - (i + 1)] == all[i + 1..e];
      if longer != e && Groupable(all[i + 1..longer]) {
        GroupPrefix(all[i + 1..longer], e - (i + 1));
      }
    }
  }
}
