/**
 The last-resort bound on a Turn Card: the longest texts are shortened in place
 until the card fits, and a card that cannot be made to fit is replaced or refused.
 */
module CardBounds {
  import opened Common

  datatype Tag = Markdown | PlainText | OtherTag

  // A JSON record of the card: everything but its own content and its children
  // takes `overhead` characters when serialized, and never changes.
  datatype Node = Node(tag: Tag, content: Option<string>, overhead: nat, children: seq<Node>)

  const MARKER := "\n\n… 内容已截断；后续内容将在下一张 Turn Card 显示。"

  const OVERHEAD := 31   // of a record with a markdown tag and a content

  const FALLBACK := Node(Markdown, Some("⚠️ Turn Card 内容超出配置上限；请继续查看后续页面。"), OVERHEAD, [])

  // How long a text is inside a JSON string, for any cost of each character.
  type Cost = char -> nat

  function TextSize(cost: Cost, s: string): nat
  {
    if s == "" then 0 else TextSize(cost, s[..|s| - 1]) + cost(s[|s| - 1])
  }

  function Sizes(cost: Cost, nodes: seq<Node>): nat
  {
    if nodes == [] then 0
    else
      nodes[0].overhead + (if nodes[0].content.Some? then TextSize(cost, nodes[0].content.value) else 0)
      + Sizes(cost, nodes[0].children) + Sizes(cost, nodes[1..])
  }

  // The serialized length of the array of a card's elements.
  function ArraySize(cost: Cost, elements: seq<Node>): nat
  {
    2 + Sizes(cost, elements) + if |elements| > 1 then |elements| - 1 else 0
  }

  // The length of the whole card, given the length with an empty element array.
  function CardSize(cost: Cost, envelope: nat, elements: seq<Node>): int
  {
    envelope - 2 + ArraySize(cost, elements)
  }

  // --------------------------------------------------------------- candidates

  predicate Shrinkable(n: Node) { n.content.Some? && (n.tag == Markdown || n.tag == PlainText) }

  // A long text hides whatever is below it.
  predicate Closed(n: Node) { Shrinkable(n) && |n.content.value| > |MARKER| }

  // The texts that may be shortened, in the order they are visited.
  function Texts(nodes: seq<Node>): seq<string>
  {
    if nodes == [] then []
    else
      (if Shrinkable(nodes[0]) then [nodes[0].content.value] else [])
      + (if Closed(nodes[0]) then [] else Texts(nodes[0].children))
      + Texts(nodes[1..])
  }

  // The elements with their candidate texts replaced, in the same order.
  function Retexted(nodes: seq<Node>, texts: seq<string>): (r: seq<Node>)
    requires |texts| == |Texts(nodes)|
    ensures |r| == |nodes|
  {
    if nodes == [] then []
    else
      var n := nodes[0];
      var own := if Shrinkable(n) then 1 else 0;
      var below := if Closed(n) then 0 else |Texts(n.children)|;
      var content := if own == 1 then Some(texts[0]) else n.content;
      var children := if Closed(n) then n.children else Retexted(n.children, texts[own..own + below]);
      [n.(content := content, children := children)] + Retexted(nodes[1..], texts[own + below..])
  }

  function TextSizes(cost: Cost, texts: seq<string>): nat
  {
    if texts == [] then 0 else TextSizes(cost, texts[..|texts| - 1]) + TextSize(cost, texts[|texts| - 1])
  }

  lemma {:induction false} TextSizesConcat(cost: Cost, a: seq<string>, b: seq<string>)
    ensures TextSizes(cost, a + b) == TextSizes(cost, a) + TextSizes(cost, b)
  {
    if b == [] {
      assert a + b == a;
    } else {
      TextSizesConcat(cost, a, b[..|b| - 1]);
      assert (a + b)[..|a + b| - 1] == a + b[..|b| - 1];
    }
  }

  lemma SplitAt(cost: Cost, texts: seq<string>, k: nat)
    requires k <= |texts|
    ensures TextSizes(cost, texts) == TextSizes(cost, texts[..k]) + TextSizes(cost, texts[k..])
  {
    assert texts == texts[..k] + texts[k..];
    TextSizesConcat(cost, texts[..k], texts[k..]);
  }

  lemma OneText(cost: Cost, text: string)
    ensures TextSizes(cost, [text]) == TextSize(cost, text)
  {
    assert [text][..0] == [];
  }

  lemma SliceTwice(texts: seq<string>, i: nat, j: nat)
    requires i <= j <= |texts|
    ensures texts[i..][..j - i] == texts[i..j] && texts[i..][j - i..] == texts[j..]
  {
  }

  // What the candidates contribute, split the way Retexted splits them.
  lemma SplitTexts(cost: Cost, texts: seq<string>, i: nat, j: nat)
    requires i <= 1 && i <= j <= |texts|
    ensures TextSizes(cost, texts) == (if i == 1 then TextSize(cost, texts[0]) else 0) + TextSizes(cost, texts[i..j]) + TextSizes(cost, texts[j..])
  {
    SplitAt(cost, texts, i);
    SplitAt(cost, texts[i..], j - i);
    SliceTwice(texts, i, j);
    if i == 1 {
      assert texts[..1] == [texts[0]];
      OneText(cost, texts[0]);
    }
  }

  /** Only the candidate texts matter for the size: replacing them changes it by exactly what they changed. */
  lemma {:induction false} RetextedSize(cost: Cost, nodes: seq<Node>, texts: seq<string>)
    requires |texts| == |Texts(nodes)|
    ensures Sizes(cost, Retexted(nodes, texts)) + TextSizes(cost, Texts(nodes)) == Sizes(cost, nodes) + TextSizes(cost, texts)
    decreases nodes
  {
    if nodes != [] {
      var n := nodes[0];
      var own := if Shrinkable(n) then 1 else 0;
      var below := if Closed(n) then 0 else |Texts(n.children)|;
      var r := Retexted(nodes, texts);
      assert r[1..] == Retexted(nodes[1..], texts[own + below..]);
      RetextedSize(cost, nodes[1..], texts[own + below..]);
      SplitTexts(cost, texts, own, own + below);
      var was := Texts(nodes);
      SplitTexts(cost, was, own, own + below);
      assert was[own + below..] == Texts(nodes[1..]);
      if Closed(n) {
        assert texts[own..own] == [] && was[own..own] == [];
      } else {
        RetextedSize(cost, n.children, texts[own..own + below]);
        assert was[own..own + below] == Texts(n.children);
      }
    } else {
      assert texts == [];
    }
  }

  // ---------------------------------------------------------------- shrinking

  // Only a text that is longer than the marker and one character is ever cut.
  predicate Cuttable(text: string) { |text| > |MARKER| + 1 }

  // A text as it was, or a first part of it followed by the marker.
  ghost predicate Truncated(was: string, now: string)
  {
    now == was || (Cuttable(was) && exists n :: 1 <= n <= |was| && now == was[..n] + MARKER)
  }

  // As short as a text gets.
  function CutShort(was: string): string { if Cuttable(was) then was[..1] + MARKER else was }

  function AllCutShort(texts: seq<string>): (r: seq<string>)
    ensures |r| == |texts| && forall k :: 0 <= k < |texts| ==> r[k] == CutShort(texts[k])
  {
    if texts == [] then [] else AllCutShort(texts[..|texts| - 1]) + [CutShort(texts[|texts| - 1])]
  }

  ghost predicate AllTruncated(was: seq<string>, now: seq<string>)
  {
    |now| == |was| && forall k :: 0 <= k < |was| ==> Truncated(was[k], now[k])
  }

  // The elements with every text as short as it gets.
  function Shortest(nodes: seq<Node>): seq<Node> { Retexted(nodes, AllCutShort(Texts(nodes))) }

  lemma ShortTextsAreCut(was: seq<string>, now: seq<string>)
    requires AllTruncated(was, now) && forall k :: 0 <= k < |now| ==> !Cuttable(now[k])
    ensures now == AllCutShort(was)
  {
    forall k | 0 <= k < |was| ensures now[k] == CutShort(was[k]) {
      assert Truncated(was[k], now[k]);
      if now[k] != was[k] {
        var n :| 1 <= n <= |was[k]| && now[k] == was[k][..n] + MARKER;
        assert n == 1;
      }
    }
  }

  function Lengths(texts: seq<string>): nat
  {
    if texts == [] then 0 else Lengths(texts[..|texts| - 1]) + |texts[|texts| - 1]|
  }

  lemma {:induction false} ReplaceLength(texts: seq<string>, i: nat, text: string)
    requires i < |texts|
    ensures Lengths(texts[i := text]) == Lengths(texts) - |texts[i]| + |text|
  {
    var changed := texts[i := text];
    if i == |texts| - 1 {
      assert changed[..|texts| - 1] == texts[..|texts| - 1];
    } else {
      ReplaceLength(texts[..|texts| - 1], i, text);
      assert changed[..|texts| - 1] == texts[..|texts| - 1][i := text];
    }
  }

  // Texts that hide the same children as those they replace.
  predicate SameHiding(was: seq<string>, now: seq<string>)
  {
    |now| == |was| && forall k :: 0 <= k < |was| ==> (|now[k]| > |MARKER| <==> |was[k]| > |MARKER|)
  }

  function Own(n: Node): nat { if Shrinkable(n) then 1 else 0 }

  function Below(n: Node): seq<string> { if Closed(n) then [] else Texts(n.children) }

  // An element with its own text and those below it replaced.
  function RetextedOne(n: Node, texts: seq<string>): Node
    requires |texts| == Own(n) + |Below(n)|
  {
    n.(content := if Shrinkable(n) then Some(texts[0]) else n.content,
       children := if Closed(n) then n.children else Retexted(n.children, texts[Own(n)..]))
  }

  // An element's own text and those below it.
  function TextsOne(n: Node): (r: seq<string>)
    ensures |r| == Own(n) + |Below(n)|
  {
    (if Shrinkable(n) then [n.content.value] else []) + Below(n)
  }

  lemma TextsCons(n: Node, rest: seq<Node>)
    ensures Texts([n] + rest) == TextsOne(n) + Texts(rest)
  {
    assert ([n] + rest)[1..] == rest;
  }

  lemma RetextedCons(n: Node, rest: seq<Node>, a: seq<string>, b: seq<string>)
    requires |a| == Own(n) + |Below(n)| && |b| == |Texts(rest)|
    ensures |a + b| == |Texts([n] + rest)| && Retexted([n] + rest, a + b) == [RetextedOne(n, a)] + Retexted(rest, b)
  {
    TextsCons(n, rest);
    assert ([n] + rest)[1..] == rest;
    var texts, own, e := a + b, Own(n), |a|;
    assert texts[e..] == b && texts[own..e] == a[own..] && (own == 1 ==> texts[0] == a[0]);
  }

  lemma RetextedOneBack(n: Node, texts: seq<string>)
    requires SameHiding(TextsOne(n), texts)
    requires !Closed(n) ==> Texts(Retexted(n.children, texts[Own(n)..])) == texts[Own(n)..]
    requires !Closed(n) ==> Retexted(Retexted(n.children, texts[Own(n)..]), Texts(n.children)) == n.children
    ensures TextsOne(RetextedOne(n, texts)) == texts && RetextedOne(RetextedOne(n, texts), TextsOne(n)) == n
  {
    var now := RetextedOne(n, texts);
    assert Shrinkable(n) ==> texts == [texts[0]] + texts[1..] && TextsOne(n)[0] == n.content.value;
    assert Closed(now) == Closed(n);
    assert TextsOne(n)[Own(n)..] == Below(n);
    assert !Shrinkable(n) ==> texts[0..] == texts;
    if Closed(n) { assert texts[1..] == []; }
  }

  /**
   Putting texts in and reading them again gives these texts, and putting the first texts
   back gives the first elements: nothing but the candidate texts is ever changed.
   */
  lemma {:induction false} RetextedBack(nodes: seq<Node>, texts: seq<string>)
    requires SameHiding(Texts(nodes), texts)
    ensures Texts(Retexted(nodes, texts)) == texts
    ensures Retexted(Retexted(nodes, texts), Texts(nodes)) == nodes
    decreases nodes
  {
    if nodes != [] {
      var n, rest := nodes[0], nodes[1..];
      assert nodes == [n] + rest;
      TextsCons(n, rest);
      var e := |TextsOne(n)|;
      var a, b := texts[..e], texts[e..];
      assert texts == a + b && SameHiding(TextsOne(n), a) && SameHiding(Texts(rest), b);
      RetextedBack(rest, b);
      if !Closed(n) { BelowHidesTheSame(n, a); RetextedBack(n.children, a[Own(n)..]); }
      RetextedOneBack(n, a);
      RetextedCons(n, rest, a, b);
      var m, others := RetextedOne(n, a), Retexted(rest, b);
      TextsCons(m, others);
      RetextedCons(m, others, TextsOne(n), Texts(rest));
    } else {
      assert texts == [];
    }
  }

  lemma BelowHidesTheSame(n: Node, texts: seq<string>)
    requires SameHiding(TextsOne(n), texts)
    ensures SameHiding(Below(n), texts[Own(n)..])
  {
    var below, now := Below(n), texts[Own(n)..];
    forall k | 0 <= k < |below| ensures |now[k]| > |MARKER| <==> |below[k]| > |MARKER| {
      assert TextsOne(n)[Own(n) + k] == below[k];
    }
  }

  /** So whatever texts are cut, everything else of the card stays as it was. */
  lemma CutChangesTextsOnly(nodes: seq<Node>, texts: seq<string>)
    requires AllTruncated(Texts(nodes), texts)
    ensures Texts(Retexted(nodes, texts)) == texts && Retexted(Retexted(nodes, texts), Texts(nodes)) == nodes
  {
    var was := Texts(nodes);
    forall k | 0 <= k < |was| ensures |texts[k]| > |MARKER| <==> |was[k]| > |MARKER| { assert Truncated(was[k], texts[k]); }
    RetextedBack(nodes, texts);
  }

  // How much of a text that is too long by `over` is kept, marker included.
  function Keep(length: nat, over: nat): nat
  {
    Max(1, length - Max(32, (6 * over + 4) / 5))
  }

  function Shortened(text: string, over: nat): string
    requires Cuttable(text)
  {
    text[..Max(1, Keep(|text|, over) - |MARKER|)] + MARKER
  }

  // How long a text is after a cut: it loses 32 characters, or 1.2 times the excess if that is
  // more, but keeps its first character and the marker.
  function CutLength(length: nat, over: nat): nat { Max(|MARKER| + 1, length - Max(32, (6 * over + 4) / 5)) }

  // A text is a first part of an earlier one and the marker.
  predicate CutFrom(was: string, now: string)
  {
    |MARKER| < |now| < |was| && now == was[..|now| - |MARKER|] + MARKER
  }

  // One cut: the text at i, which is a longest one, is cut, and no other changes.
  predicate CutOnce(was: seq<string>, now: seq<string>, over: nat, i: nat)
  {
    && |now| == |was| && i < |was| && Cuttable(was[i]) && (forall k :: 0 <= k < |was| ==> |was[k]| <= |was[i]|)
    && CutFrom(was[i], now[i]) && |now[i]| == CutLength(|was[i]|, over)
    && forall k :: 0 <= k < |was| && k != i ==> now[k] == was[k]
  }

  // What is left is strictly shorter, and as long as a cut leaves it.
  lemma ShortenedLength(text: string, over: nat)
    requires Cuttable(text)
    ensures CutFrom(text, Shortened(text, over)) && |Shortened(text, over)| == CutLength(|text|, over)
  {
  }

  /** A text that is cut again is still a first part of the original and the marker. */
  lemma CutAgain(was: string, text: string, now: string)
    requires Truncated(was, text) && Cuttable(text) && CutFrom(text, now)
    ensures Truncated(was, now)
  {
    var cut := |now| - |MARKER|;
    if text != was {
      var n :| 1 <= n <= |was| && text == was[..n] + MARKER;
      assert text[..cut] == was[..cut];
    }
    assert now == was[..cut] + MARKER;
  }

  /** A shortened text is strictly shorter, and shortening it again still keeps a first part of the original. */
  lemma ShorteningShortens(was: string, text: string, over: nat)
    requires Cuttable(text) && Truncated(was, text)
    ensures |Shortened(text, over)| == CutLength(|text|, over) < |text|
    ensures Truncated(was, Shortened(text, over))
  {
    ShortenedLength(text, over);
    CutAgain(was, text, Shortened(text, over));
  }

  // The source sorts the candidates by length and takes the first.
  method Longest(texts: array<string>) returns (i: nat)
    requires texts.Length > 0
    ensures i < texts.Length && forall k :: 0 <= k < texts.Length ==> |texts[k]| <= |texts[i]|
  {
    i := 0;
    for j := 1 to texts.Length
      invariant i < texts.Length && forall k :: 0 <= k < j ==> |texts[k]| <= |texts[i]|
    {
      if |texts[j]| > |texts[i]| { i := j; }
    }
  }

  // Shortens the longest text, unless even that is as short as it gets.
  method ShortenLongest(texts: array<string>, over: nat) returns (shortened: bool, i: nat)
    modifies texts
    ensures shortened ==> CutOnce(old(texts[..]), texts[..], over, i)
    ensures !shortened ==> texts[..] == old(texts[..]) && forall k :: 0 <= k < texts.Length ==> !Cuttable(texts[k])
  {
    shortened, i := false, 0;
    if texts.Length == 0 { return; }
    i := Longest(texts);
    if |texts[i]| <= |MARKER| + 1 { return; }
    ShortenedLength(texts[i], over);
    texts[i] := Shortened(texts[i], over);
    shortened := true;
  }

  // The texts after each cut, from the first cut on.
  datatype Course = Uncut | Cut(earlier: Course, i: nat, texts: seq<string>)

  function Latest(elements: seq<Node>, c: Course): seq<string> { if c.Uncut? then Texts(elements) else c.texts }

  // The length of the elements with these texts.
  function SizeWith(cost: Cost, elements: seq<Node>, texts: seq<string>): nat
    requires |texts| == |Texts(elements)|
  {
    ArraySize(cost, Retexted(elements, texts))
  }

  // A cut of texts that are over the target, by their excess.
  predicate NeededCut(cost: Cost, elements: seq<Node>, target: nat, was: seq<string>, now: seq<string>, i: nat)
  {
    |was| == |Texts(elements)| && var size := SizeWith(cost, elements, was); size > target && CutOnce(was, now, size - target, i)
  }

  predicate Made(cost: Cost, elements: seq<Node>, target: nat, c: Course)
  {
    c.Cut? ==> Made(cost, elements, target, c.earlier) && NeededCut(cost, elements, target, Latest(elements, c.earlier), c.texts, c.i)
  }

  ghost predicate CutDown(cost: Cost, elements: seq<Node>, target: nat, texts: seq<string>)
  {
    exists c :: Made(cost, elements, target, c) && Latest(elements, c) == texts
  }

  lemma CutTruncates(was: seq<string>, before: seq<string>, now: seq<string>, over: nat, i: nat)
    requires AllTruncated(was, before) && CutOnce(before, now, over, i)
    ensures AllTruncated(was, now) && Lengths(now) < Lengths(before)
  {
    assert Truncated(was[i], before[i]);
    CutAgain(was[i], before[i], now[i]);
    ReplaceLength(before, i, now[i]);
    assert now == before[i := now[i]];
  }

  lemma {:induction false} CutsTruncate(cost: Cost, elements: seq<Node>, target: nat, c: Course)
    requires Made(cost, elements, target, c)
    ensures AllTruncated(Texts(elements), Latest(elements, c))
  {
    if c.Cut? {
      CutsTruncate(cost, elements, target, c.earlier);
      var before := Latest(elements, c.earlier);
      CutTruncates(Texts(elements), before, c.texts, SizeWith(cost, elements, before) - target, c.i);
    } else {
      var was := Texts(elements);
      forall k | 0 <= k < |was| ensures Truncated(was[k], was[k]) {}
    }
  }

  // A course with one more cut.
  lemma OneMoreCut(cost: Cost, elements: seq<Node>, target: nat, c: Course, i: nat, now: seq<string>)
    requires Made(cost, elements, target, c) && NeededCut(cost, elements, target, Latest(elements, c), now, i)
    ensures Made(cost, elements, target, Cut(c, i, now)) && |now| == |Texts(elements)| && Lengths(now) < Lengths(Latest(elements, c))
  {
    CutsTruncate(cost, elements, target, c);
    var before := Latest(elements, c);
    CutTruncates(Texts(elements), before, now, SizeWith(cost, elements, before) - target, i);
  }

  lemma CourseEnds(cost: Cost, elements: seq<Node>, target: nat, c: Course)
    requires Made(cost, elements, target, c)
    ensures AllTruncated(Texts(elements), Latest(elements, c)) && CutDown(cost, elements, target, Latest(elements, c))
    ensures (forall k :: 0 <= k < |Latest(elements, c)| ==> !Cuttable(Latest(elements, c)[k])) ==> Latest(elements, c) == AllCutShort(Texts(elements))
  {
    CutsTruncate(cost, elements, target, c);
    if forall k :: 0 <= k < |Latest(elements, c)| ==> !Cuttable(Latest(elements, c)[k]) {
      ShortTextsAreCut(Texts(elements), Latest(elements, c));
    }
  }

  /**
   Shortens the longest text again and again until the elements fit or every text
   is as short as it gets. The total length of the texts decreases every time, and no
   text is cut once the elements fit.
   */
  method Shrink(cost: Cost, elements: seq<Node>, target: nat, texts: array<string>)
    requires texts[..] == Texts(elements)
    modifies texts
    ensures AllTruncated(old(texts[..]), texts[..]) && CutDown(cost, elements, target, texts[..])
    ensures SizeWith(cost, elements, texts[..]) <= target || texts[..] == AllCutShort(old(texts[..]))
  {
    ghost var course := Uncut;
    var size := SizeWith(cost, elements, texts[..]);
    while size > target
      invariant Made(cost, elements, target, course) && Latest(elements, course) == texts[..]
      invariant |texts[..]| == |Texts(elements)| && size == SizeWith(cost, elements, texts[..])
      decreases Lengths(texts[..])
    {
      var shortened, i := ShortenLongest(texts, size - target);
      if !shortened { break; }
      OneMoreCut(cost, elements, target, course, i, texts[..]);
      course := Cut(course, i, texts[..]);
      size := SizeWith(cost, elements, texts[..]);
    }
    CourseEnds(cost, elements, target, course);
  }

  /**
   Every text keeps at least its first character and the marker, and only long texts pay: one
   that was cut had been at least as long as every text is in the end.
   */
  lemma {:induction false} CutsAreFair(cost: Cost, elements: seq<Node>, target: nat, c: Course, k: nat)
    requires Made(cost, elements, target, c) && k < |Texts(elements)|
    ensures var was, now := Texts(elements), Latest(elements, c);
      && |now| == |was| && Min(|was[k]|, |MARKER| + 1) <= |now[k]| <= |was[k]|
      && (now[k] != was[k] ==> forall j :: 0 <= j < |was| ==> |now[j]| <= |was[k]|)
  {
    if c.Cut? {
      var was, before, now := Texts(elements), Latest(elements, c.earlier), c.texts;
      CutsAreFair(cost, elements, target, c.earlier, k);
      assert NeededCut(cost, elements, target, before, now, c.i);
      assert forall j :: 0 <= j < |was| ==> |now[j]| <= |before[j]| <= |before[c.i]|;
    }
  }

  /**
   Nothing more is cut than must be: if anything was, the elements were over the target right
   before the last cut, and that one took from a longest text, and from no other, at most 32
   characters or 1.2 times the excess, rounded up.
   */
  lemma LastCutWasNeeded(cost: Cost, elements: seq<Node>, target: nat, c: Course) returns (before: seq<string>, i: nat)
    requires Made(cost, elements, target, c) && Latest(elements, c) != Texts(elements)
    ensures |before| == |Texts(elements)| && SizeWith(cost, elements, before) > target
    ensures CutOnce(before, Latest(elements, c), SizeWith(cost, elements, before) - target, i)
  {
    before, i := Latest(elements, c.earlier), c.i;
  }

  // ------------------------------------------------------------------ shortest

  // By how much cutting a text short makes it longer in the card, which is possible because
  // the marker can take more room than what it replaces.
  function Growth(cost: Cost, text: string): nat { Max(0, TextSize(cost, CutShort(text)) - TextSize(cost, text)) }

  function Growths(cost: Cost, texts: seq<string>): nat
  {
    if texts == [] then 0 else Growths(cost, texts[..|texts| - 1]) + Growth(cost, texts[|texts| - 1])
  }

  lemma {:induction false} TextSizeConcat(cost: Cost, a: string, b: string)
    ensures TextSize(cost, a + b) == TextSize(cost, a) + TextSize(cost, b)
  {
    if b == "" {
      assert a + b == a;
    } else {
      TextSizeConcat(cost, a, b[..|b| - 1]);
      assert (a + b)[..|a + b| - 1] == a + b[..|b| - 1];
    }
  }

  lemma CutShortIsShortest(cost: Cost, was: string, now: string)
    requires Truncated(was, now)
    ensures TextSize(cost, CutShort(was)) <= TextSize(cost, now) + Growth(cost, was)
  {
    if now != was {
      var n :| 1 <= n <= |was| && now == was[..n] + MARKER;
      TextSizeConcat(cost, was[..1], MARKER);
      TextSizeConcat(cost, was[..n], MARKER);
      assert was[..n] == was[..1] + was[1..n];
      TextSizeConcat(cost, was[..1], was[1..n]);
    }
  }

  lemma {:induction false} AllCutShortIsShortest(cost: Cost, was: seq<string>, now: seq<string>)
    requires AllTruncated(was, now)
    ensures TextSizes(cost, AllCutShort(was)) <= TextSizes(cost, now) + Growths(cost, was)
  {
    if was != [] {
      var n := |was| - 1;
      AllCutShortIsShortest(cost, was[..n], now[..n]);
      CutShortIsShortest(cost, was[n], now[n]);
      assert AllCutShort(was)[..n] == AllCutShort(was[..n]);
    }
  }

  /** No shortening gives a smaller card than the shortest texts, but for what cutting adds to texts that grow. */
  lemma NothingIsShorter(cost: Cost, nodes: seq<Node>, texts: seq<string>)
    requires AllTruncated(Texts(nodes), texts)
    ensures ArraySize(cost, Shortest(nodes)) <= ArraySize(cost, Retexted(nodes, texts)) + Growths(cost, Texts(nodes))
  {
    var was := Texts(nodes);
    RetextedSize(cost, nodes, texts);
    RetextedSize(cost, nodes, AllCutShort(was));
    AllCutShortIsShortest(cost, was, texts);
  }

  lemma UncutIsNoShorter(cost: Cost, nodes: seq<Node>)
    ensures ArraySize(cost, Shortest(nodes)) <= ArraySize(cost, nodes) + Growths(cost, Texts(nodes))
  {
    var was := Texts(nodes);
    assert AllTruncated(was, was) by { forall k | 0 <= k < |was| ensures Truncated(was[k], was[k]) {} }
    NothingIsShorter(cost, nodes, was);
    RetextedSize(cost, nodes, was);
  }

  class TurnCard {
    var elements: seq<Node>
    const envelope: nat   // the card's length with an empty element array

    constructor (elements: seq<Node>, envelope: nat)
      ensures this.elements == elements && this.envelope == envelope
    {
      this.elements, this.envelope := elements, envelope;
    }

    // What shrinking may make of the elements: some texts cut short, each by a cut that was
    // still needed, and nothing else.
    ghost predicate CutTo(cost: Cost, was: seq<Node>, now: seq<Node>, target: nat)
    {
      exists texts: seq<string> :: AllTruncated(Texts(was), texts) && CutDown(cost, was, target, texts) && now == Retexted(was, texts)
    }

    function Target(payloadLimit: int): nat { Max(1, payloadLimit - envelope) }

    /**
     A return means that the whole card is within the limit. The elements are then as they
     were, if their own length is within the target; or cut short to the target or, failing
     that, as far as they can be; or replaced, and that only if the elements cut as short as
     they can be are still too long, and always if they are too long by more than what cutting
     adds to texts that grow. Where none grows they are so replaced if and only if no
     shortening could make the card fit. A refusal means that not even the replacement fits.
     */
    method BoundPayload(cost: Cost, payloadLimit: int) returns (overflow: Option<int>, replaced: bool)
      modifies this
      ensures overflow.None? ==> CardSize(cost, envelope, elements) <= payloadLimit
      ensures overflow.Some? ==> replaced && overflow.value == CardSize(cost, envelope, [FALLBACK]) > payloadLimit
      ensures ArraySize(cost, old(elements)) <= Target(payloadLimit) ==> !replaced && elements == old(elements)
      ensures ArraySize(cost, old(elements)) > Target(payloadLimit) && !replaced ==>
        CutTo(cost, old(elements), elements, Target(payloadLimit)) && (ArraySize(cost, elements) <= Target(payloadLimit) || elements == Shortest(old(elements)))
      ensures replaced ==> elements == [FALLBACK] && CardSize(cost, envelope, Shortest(old(elements))) > payloadLimit
      ensures CardSize(cost, envelope, Shortest(old(elements))) > payloadLimit + Growths(cost, Texts(old(elements))) ==> replaced
    {
      var target := Max(1, payloadLimit - envelope);
      if ArraySize(cost, elements) <= target {
        UncutIsNoShorter(cost, elements);
        return None, false;
      }
      var candidates := Texts(elements);
      var texts := new string[|candidates|](i requires 0 <= i < |candidates| => candidates[i]);
      assert texts[..] == candidates;
      Shrink(cost, elements, target, texts);
      ghost var shrunk := texts[..];
      NothingIsShorter(cost, elements, shrunk);
      elements := Retexted(elements, texts[..]);
      assert elements == Retexted(old(elements), shrunk);
      if CardSize(cost, envelope, elements) <= payloadLimit { return None, false; }
      elements := [FALLBACK];
      var length := CardSize(cost, envelope, elements);
      return if length > payloadLimit then Some(length) else None, true;
    }
  }

  // ----------------------------------------------------------- within the limit

  // What a character takes inside a JSON string: a quote, a backslash or a control character is escaped.
  function JsonCost(c: char): nat
  {
    if c == '"' || c == '\\' then 2
    else if c >= ' ' then 1
    else if c == '\n' || c == '\r' || c == '\t' || c == '\U{8}' || c == '\U{C}' then 2 else 6
  }

  predicate Plain(s: string) { forall i :: 0 <= i < |s| ==> JsonCost(s[i]) == 1 }

  lemma {:induction false} AtLeastItsLength(s: string)
    ensures TextSize(JsonCost, s) >= |s| && (TextSize(JsonCost, s) == |s| <==> Plain(s))
  {
    if s != "" { AtLeastItsLength(s[..|s| - 1]); }
  }

  const NOTICE := "… 内容已截断；后续内容将在下一张 Turn Card 显示。"

  lemma NoticeIsPlain()
    ensures MARKER == "\n\n" + NOTICE && Plain(NOTICE)
  {
  }

  // The marker begins with two newlines and has nothing else to escape.
  lemma MarkerSize()
    ensures TextSize(JsonCost, MARKER) == |MARKER| + 2
  {
    NoticeIsPlain();
    TextSizeConcat(JsonCost, "\n\n", NOTICE);
    AtLeastItsLength(NOTICE);
    assert "\n\n"[..1] == "\n" && "\n"[..0] == "";
    assert TextSize(JsonCost, "\n") == 2 && TextSize(JsonCost, "\n\n") == 4;
  }

  /**
   In JSON a text grows only if it is one character longer than a cut text and nothing
   after its first character is escaped, and then by one character.
   */
  lemma JsonGrowth(text: string)
    ensures Growth(JsonCost, text) == if |text| == |MARKER| + 2 && Plain(text[1..]) then 1 else 0
  {
    if Cuttable(text) {
      MarkerSize();
      TextSizeConcat(JsonCost, text[..1], MARKER);
      assert text == text[..1] + text[1..];
      TextSizeConcat(JsonCost, text[..1], text[1..]);
      AtLeastItsLength(text[1..]);
    }
  }

  lemma OneNodeSize(cost: Cost, text: string, now: string)
    requires Cuttable(text)
    ensures var nodes := [Node(Markdown, Some(text), OVERHEAD, [])];
      && Texts(nodes) == [text] && ArraySize(cost, nodes) == 2 + OVERHEAD + TextSize(cost, text)
      && ArraySize(cost, Retexted(nodes, [now])) == 2 + OVERHEAD + TextSize(cost, now)
  {
    var nodes := [Node(Markdown, Some(text), OVERHEAD, [])];
    assert nodes[1..] == [] && Texts(nodes) == [text];
    var r := Retexted(nodes, [now]);
    assert r == [Node(Markdown, Some(now), OVERHEAD, [])] && r[1..] == [];
    assert Sizes(cost, []) == 0;
    assert Sizes(cost, nodes) == OVERHEAD + TextSize(cost, text) && Sizes(cost, r) == OVERHEAD + TextSize(cost, now);
  }

  lemma CuttingLengthens(text: string, now: string)
    requires |text| == |MARKER| + 2 && Plain(text) && Truncated(text, now)
    ensures TextSize(JsonCost, text) == |MARKER| + 2 && TextSize(JsonCost, now) >= |MARKER| + 2
    ensures now != text ==> TextSize(JsonCost, now) > |MARKER| + 2
  {
    AtLeastItsLength(text);
    if now != text {
      var n :| 1 <= n <= |text| && now == text[..n] + MARKER;
      TextSizeConcat(JsonCost, text[..n], MARKER);
      AtLeastItsLength(text[..n]);
      MarkerSize();
    }
  }

  // Neither the target nor, cut short, the limit is met by such a text.
  lemma NothingFits(text: string, texts: seq<string>)
    requires |text| == |MARKER| + 2 && Plain(text) && AllTruncated([text], texts)
    ensures var nodes := [Node(Markdown, Some(text), OVERHEAD, [])];
      && Texts(nodes) == [text]
      && ArraySize(JsonCost, Retexted(nodes, texts)) >= ArraySize(JsonCost, nodes) && ArraySize(JsonCost, Shortest(nodes)) > ArraySize(JsonCost, nodes)
  {
    assert texts == [texts[0]] && Truncated(text, texts[0]);
    OneNodeSize(JsonCost, text, texts[0]);
    CuttingLengthens(text, texts[0]);
    var short := CutShort(text);
    assert short == text[..1] + MARKER && Truncated(text, short) && AllCutShort([text]) == [short];
    OneNodeSize(JsonCost, text, short);
    CuttingLengthens(text, short);
  }

  /**
   A card that is exactly as long as the limit is replaced nevertheless: the target leaves
   out the two brackets of the empty element array, and cutting the text, which is one
   character longer than a cut text, makes it longer because of the marker's newlines.
   */
  method NeedlessReplacement(envelope: nat, text: string) returns (before: seq<Node>, limit: int, replaced: bool)
    requires |text| == |MARKER| + 2 && Plain(text)
    ensures before == [Node(Markdown, Some(text), OVERHEAD, [])] && CardSize(JsonCost, envelope, before) == limit && replaced
  {
    before := [Node(Markdown, Some(text), OVERHEAD, [])];
    limit := CardSize(JsonCost, envelope, before);
    var card := new TurnCard(before, envelope);
    var overflow;
    overflow, replaced := card.BoundPayload(JsonCost, limit);
    assert AllTruncated([text], [text]) by { assert Truncated(text, text); }
    NothingFits(text, [text]);
    if !replaced {
      ghost var texts: seq<string> :| AllTruncated(Texts(before), texts) && card.elements == Retexted(before, texts);
      NothingFits(text, texts);
    }
  }
}
