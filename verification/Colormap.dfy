/** Regrouping a drawing's elements by stroke colour, one layer a colour, and mapping colours
    to pens: the pipeline's grouper, and the analyzer's walk over the same document. */
module Colormap {
  import opened Text
  import opened Numbers

  /** An element: what matters of its tag, its stroke attribute and style, and its children. */
  datatype Node = Node(id: int, drawable: bool, stroke: Option<string>, style: Option<string>, children: seq<Node>)

  // ---- stroke resolution --------------------------------------------------------------

  function LowerChar(c: char): char { if 'A' <= c <= 'Z' then c - 'A' + 'a' else c }

  function Lower(s: string): string { if s == "" then "" else [LowerChar(s[0])] + Lower(s[1..]) }

  /** Case is folded: capitals read like the small letters, and nothing else is touched. */
  lemma {:induction false} CaseIsFolded(s: string)
    ensures Lower(Upper(s)) == Lower(s)
    ensures (forall i :: 0 <= i < |s| ==> !('A' <= s[i] <= 'Z')) ==> Lower(s) == s
  {
    if s != "" {
      CaseIsFolded(s[1..]);
      assert Upper(s)[1..] == Upper(s[1..]) && Upper(s)[0] == UpperChar(s[0]);
      assert s == [s[0]] + s[1..];
    }
  }

  /** The first stroke declaration of a style text. */
  function FirstStroke(decls: seq<string>): Option<string> {
    if decls == [] then None
    else
      var colon := Find(decls[0], ':', 0, |decls[0]|);
      if colon != -1 && Lower(Strip(decls[0][..colon])) == "stroke" then Some(decls[0][colon + 1..])
      else FirstStroke(decls[1..])
  }

  function StyleStroke(style: Option<string>): Option<string> {
    if style.None? || style.value == "" then None else FirstStroke(Split(style.value, ';'))
  }

  function Declared(n: Node): Option<string> { if n.stroke.Some? then n.stroke else StyleStroke(n.style) }

  /** The stroke in effect for the last element of the path: its own, else the nearest ancestor's;
      an explicit `none` ends the search, an empty value does not. */
  function Effective(path: seq<Node>): Option<string>
    decreases |path|
  {
    if path == [] then None
    else
      var n := |path| - 1;
      match Declared(path[n])
      case None => Effective(path[..n])
      case Some(v) =>
        var color := Lower(Strip(v));
        if color == "" then Effective(path[..n]) else if color == "none" then None else Some(color)
  }

  /** A style declaration of a stroke: the text before its first colon, blanks and case aside, is the
      property, and everything behind that colon its value. */
  predicate DeclaresStroke(decl: string, value: string) {
    exists c :: 0 <= c < |decl| && decl[c] == ':' && ':' !in decl[..c] && Lower(Strip(decl[..c])) == "stroke"
                && value == decl[c + 1..]
  }

  lemma FirstColon(decl: string, c: nat)
    requires c < |decl| && decl[c] == ':' && ':' !in decl[..c]
    ensures Find(decl, ':', 0, |decl|) == c
  {
    var r := Find(decl, ':', 0, |decl|);
    assert forall i :: 0 <= i < |decl| ==> decl[0..|decl|][i] == decl[i];
    assert forall i :: 0 <= i < r ==> decl[0..r][i] == decl[i];
    assert forall i :: 0 <= i < c ==> decl[..c][i] == decl[i];
  }

  lemma DeclarationMeans(decl: string, value: string)
    ensures DeclaresStroke(decl, value) <==>
      var c := Find(decl, ':', 0, |decl|);
      c != -1 && Lower(Strip(decl[..c])) == "stroke" && value == decl[c + 1..]
  {
    var c := Find(decl, ':', 0, |decl|);
    if DeclaresStroke(decl, value) {
      var k :| 0 <= k < |decl| && decl[k] == ':' && ':' !in decl[..k] && Lower(Strip(decl[..k])) == "stroke"
               && value == decl[k + 1..];
      FirstColon(decl, k);
    }
    if c != -1 {
      assert decl[0..c] == decl[..c];
    }
  }

  /** Declaration `k` is the first of a stroke. */
  ghost predicate FirstDeclares(decls: seq<string>, k: int, value: string) {
    0 <= k < |decls| && DeclaresStroke(decls[k], value) && forall j, v :: 0 <= j < k ==> !DeclaresStroke(decls[j], v)
  }

  /** The stroke of a style is the value of its first declaration of one. */
  lemma {:induction false} FirstStrokeExactly(decls: seq<string>, value: string)
    ensures FirstStroke(decls) == Some(value) <==> exists k :: FirstDeclares(decls, k, value)
  {
    hide DeclaresStroke, Lower;
    if decls != [] {
      var rest := decls[1..];
      FirstStrokeExactly(rest, value);
      forall v ensures DeclaresStroke(decls[0], v) <==>
        var c := Find(decls[0], ':', 0, |decls[0]|);
        c != -1 && Lower(Strip(decls[0][..c])) == "stroke" && v == decls[0][c + 1..]
      {
        DeclarationMeans(decls[0], v);
      }
      if exists k :: FirstDeclares(decls, k, value) {
        var k :| FirstDeclares(decls, k, value);
        if k > 0 {
          var c := Find(decls[0], ':', 0, |decls[0]|);
          assert c != -1 ==> !DeclaresStroke(decls[0], decls[0][c + 1..]);
          assert forall j :: 0 <= j < k - 1 ==> rest[j] == decls[j + 1];
          assert FirstDeclares(rest, k - 1, value);
        }
      }
      if FirstStroke(decls) == Some(value) {
        if DeclaresStroke(decls[0], value) {
          assert FirstDeclares(decls, 0, value);
        } else {
          var k :| FirstDeclares(rest, k, value);
          assert forall j :: 0 < j <= k + 1 ==> decls[j] == rest[j - 1];
          assert FirstDeclares(decls, k + 1, value);
        }
      }
    }
  }

  /** A style's stroke: its text is cut at the semicolons, and the first declaration of one counts. */
  lemma StyleStrokeExactly(text: string, value: string)
    ensures StyleStroke(Some(text)) == Some(value) <==> exists k :: FirstDeclares(Split(text, ';'), k, value)
    ensures StyleStroke(None).None?
  {
    hide FirstStroke, FirstDeclares;
    FirstStrokeExactly(Split(text, ';'), value);
    if text == "" {
      EmptyStyle(value);
    } else {
      assert StyleStroke(Some(text)) == FirstStroke(Split(text, ';'));
    }
  }

  lemma EmptyStyle(value: string)
    ensures !exists k :: FirstDeclares(Split("", ';'), k, value)
  {
    hide DeclaresStroke;
    var pieces := Split("", ';');
    NothingDeclared(value);
    assert pieces == [""];
    forall k ensures !FirstDeclares(pieces, k, value) {
      assert k == 0 ==> pieces[k] == "";
    }
  }

  lemma NothingDeclared(value: string)
    ensures !DeclaresStroke("", value)
  {
  }

  /** What an element says about its stroke, in lower case and without the blanks around it: the
      attribute if there is one, the style otherwise, and nothing when neither mentions it. */
  function Says(n: Node): string {
    if n.stroke.Some? then Lower(Strip(n.stroke.value))
    else if StyleStroke(n.style).Some? then Lower(Strip(StyleStroke(n.style).value))
    else ""
  }

  /** Element `k` is the deepest on the path that says anything, and it says `value`. */
  ghost predicate DeepestSays(path: seq<Node>, k: int, value: string) {
    0 <= k < |path| && value != "" && Says(path[k]) == value && forall j :: k < j < |path| ==> Says(path[j]) == ""
  }

  /** The effective stroke, by position: the deepest element that says anything decides, and saying
      `none` is having no stroke. */
  lemma {:induction false} EffectiveExactly(path: seq<Node>, color: string)
    ensures Effective(path) == Some(color) <==> color != "none" && exists k :: DeepestSays(path, k, color)
    ensures Effective(path).None? <==>
      (forall j :: 0 <= j < |path| ==> Says(path[j]) == "") || exists k :: DeepestSays(path, k, "none")
    decreases |path|
  {
    hide Lower, StyleStroke;
    if path != [] {
      var n := |path| - 1;
      EffectiveExactly(path[..n], color);
      if color != "" {
        DeepestSnoc(path, color);
      }
      DeepestSnoc(path, "none");
    }
  }

  lemma DeepestSnoc(path: seq<Node>, value: string)
    requires path != [] && value != ""
    ensures var n := |path| - 1;
      (exists k :: DeepestSays(path, k, value)) <==>
      if Says(path[n]) == "" then exists k :: DeepestSays(path[..n], k, value) else Says(path[n]) == value
  {
    hide Says;
    var n := |path| - 1;
    if exists k :: DeepestSays(path, k, value) {
      var k :| DeepestSays(path, k, value);
      assert k < n ==> DeepestSays(path[..n], k, value);
    }
    if Says(path[n]) == "" {
      if exists k :: DeepestSays(path[..n], k, value) {
        var k :| DeepestSays(path[..n], k, value);
        assert DeepestSays(path, k, value);
      }
    } else if Says(path[n]) == value {
      assert DeepestSays(path, n, value);
    }
  }

  // ---- the walk -----------------------------------------------------------------------

  datatype Item = Item(color: string, node: Node)

  /** Coloured drawables below and including an element, in document order. */
  function Colored(el: Node, path: seq<Node>): seq<Item>
    decreases el
  {
    var here := path + [el];
    (if el.drawable && Effective(here).Some? then [Item(Effective(here).value, el)] else [])
    + ColoredAll(el.children, here)
  }

  function ColoredAll(els: seq<Node>, path: seq<Node>): seq<Item>
    decreases els
  {
    if els == [] then [] else Colored(els[0], path) + ColoredAll(els[1..], path)
  }

  /** The document's coloured drawables. */
  function Document(root: Node): seq<Item> { ColoredAll(root.children, [root]) }

  datatype Groups = Groups(buckets: map<string, seq<Node>>, ordered: seq<string>)

  const NO_GROUPS := Groups(map[], [])

  function AddOne(g: Groups, i: Item): Groups {
    if i.color in g.buckets then g.(buckets := g.buckets[i.color := g.buckets[i.color] + [i.node]])
    else Groups(g.buckets[i.color := [i.node]], g.ordered + [i.color])
  }

  function AddAll(g: Groups, items: seq<Item>): Groups
    decreases |items|
  {
    if items == [] then g else AddOne(AddAll(g, items[..|items| - 1]), items[|items| - 1])
  }

  lemma {:induction false} AddAllAppend(g: Groups, a: seq<Item>, b: seq<Item>)
    ensures AddAll(g, a + b) == AddAll(AddAll(g, a), b)
    decreases |b|
  {
    if b == [] {
      assert a + b == a;
    } else {
      assert (a + b)[..|a + b| - 1] == a + b[..|b| - 1];
      AddAllAppend(g, a, b[..|b| - 1]);
    }
  }

  lemma AddAllOne(g: Groups, i: Item)
    ensures AddAll(g, [i]) == AddOne(g, i)
  {
    assert [i][..0] == [];
    assert AddAll(g, [i][..0]) == g;
  }

  class Grouper {
    var buckets: map<string, seq<Node>>
    var ordered: seq<string>

    constructor ()
      ensures View() == NO_GROUPS
    {
      buckets, ordered := map[], [];
    }

    function View(): Groups
      reads this
    {
      Groups(buckets, ordered)
    }

    /** Visit an element and everything below it. */
    method Walk(el: Node, path: seq<Node>)
      modifies this
      ensures View() == AddAll(old(View()), Colored(el, path))
      decreases el
    {
      var here := path + [el];
      ghost var own: seq<Item> := [];
      if el.drawable {
        var color := Effective(here);
        if color.Some? {
          own := [Item(color.value, el)];
          AddAllOne(View(), Item(color.value, el));
          if color.value !in buckets {
            buckets := buckets[color.value := []];
            ordered := ordered + [color.value];
          }
          assert [] + [el] == [el];
          buckets := buckets[color.value := buckets[color.value] + [el]];
          assert buckets == AddOne(old(View()), Item(color.value, el)).buckets;
        }
      }
      assert View() == AddAll(old(View()), own);
      AddAllAppend(old(View()), own, ColoredAll(el.children, here));
      WalkAll(el.children, here);
    }

    method WalkAll(els: seq<Node>, path: seq<Node>)
      modifies this
      ensures View() == AddAll(old(View()), ColoredAll(els, path))
      decreases els
    {
      if els != [] {
        AddAllAppend(View(), Colored(els[0], path), ColoredAll(els[1..], path));
        Walk(els[0], path);
        WalkAll(els[1..], path);
      }
    }
  }

  // ---- what the groups are ------------------------------------------------------------

  /** The colours in the order they are first met. */
  function FirstSeen(items: seq<Item>): seq<string>
    decreases |items|
  {
    if items == [] then []
    else
      var before := FirstSeen(items[..|items| - 1]);
      var c := items[|items| - 1].color;
      if c in before then before else before + [c]
  }

  /** The nodes of one colour, in document order. */
  function OfColor(items: seq<Item>, color: string): seq<Node>
    decreases |items|
  {
    if items == [] then []
    else
      var before := OfColor(items[..|items| - 1], color);
      if items[|items| - 1].color == color then before + [items[|items| - 1].node] else before
  }

  /** Grouping puts every coloured drawable into the layer of its colour and into no other:
      each layer is exactly the document's drawables of that colour, in document order. */
  lemma {:induction false} GroupsAre(items: seq<Item>)
    ensures var g := AddAll(NO_GROUPS, items);
      && g.ordered == FirstSeen(items)
      && (forall c :: c in g.buckets <==> c in g.ordered)
      && (forall c :: c in g.buckets ==> g.buckets[c] == OfColor(items, c))
      && (forall c :: c !in g.buckets ==> OfColor(items, c) == [])
    decreases |items|
  {
    if items != [] {
      GroupsAre(items[..|items| - 1]);
    }
  }

  /** No colour has two layers. */
  lemma {:induction false} FirstSeenDistinct(items: seq<Item>)
    ensures forall i, j :: 0 <= i < j < |FirstSeen(items)| ==> FirstSeen(items)[i] != FirstSeen(items)[j]
    decreases |items|
  {
    if items != [] {
      FirstSeenDistinct(items[..|items| - 1]);
    }
  }

  /** Every colour that occurs has a layer. */
  lemma {:induction false} FirstSeenComplete(items: seq<Item>, p: nat)
    requires p < |items|
    ensures items[p].color in FirstSeen(items)
    decreases |items|
  {
    var n := |items| - 1;
    if p < n {
      FirstSeenComplete(items[..n], p);
    }
  }

  function LayerSizes(colors: seq<string>, items: seq<Item>): nat {
    if colors == [] then 0 else |OfColor(items, colors[0])| + LayerSizes(colors[1..], items)
  }

  lemma {:induction false} SizesGrow(colors: seq<string>, items: seq<Item>, i: Item)
    requires forall a, b :: 0 <= a < b < |colors| ==> colors[a] != colors[b]
    ensures LayerSizes(colors, items + [i]) == LayerSizes(colors, items) + (if i.color in colors then 1 else 0)
  {
    assert (items + [i])[..|items|] == items;
    if colors != [] {
      SizesGrow(colors[1..], items, i);
      assert i.color in colors <==> i.color == colors[0] || i.color in colors[1..];
    }
  }

  lemma {:induction false} SizesSnoc(colors: seq<string>, c: string, items: seq<Item>)
    ensures LayerSizes(colors + [c], items) == LayerSizes(colors, items) + |OfColor(items, c)|
  {
    if colors == [] {
      assert [c][1..] == [];
    } else {
      assert (colors + [c])[1..] == colors[1..] + [c];
      SizesSnoc(colors[1..], c, items);
    }
  }

  lemma {:induction false} UnseenIsEmpty(items: seq<Item>, c: string)
    requires c !in FirstSeen(items)
    ensures OfColor(items, c) == []
    decreases |items|
  {
    if items != [] {
      UnseenIsEmpty(items[..|items| - 1], c);
    }
  }

  /** The layers together hold exactly as many drawables as there are: a partition. */
  lemma {:induction false} LayersPartition(items: seq<Item>)
    ensures LayerSizes(FirstSeen(items), items) == |items|
    decreases |items|
  {
    if items != [] {
      var n := |items| - 1;
      var before, last := items[..n], items[n];
      assert items == before + [last];
      LayersPartition(before);
      FirstSeenDistinct(before);
      SizesGrow(FirstSeen(before), before, last);
      if last.color !in FirstSeen(before) {
        SizesSnoc(FirstSeen(before), last.color, items);
        UnseenIsEmpty(before, last.color);
      }
    }
  }

  // ---- the analyzer's list ------------------------------------------------------------

  class Analyzer {
    var seen: seq<string>

    constructor ()
      ensures seen == []
    {
      seen := [];
    }

    method Walk(el: Node, path: seq<Node>)
      modifies this
      ensures seen == SeeAll(old(seen), Colored(el, path))
      decreases el
    {
      var here := path + [el];
      ghost var own: seq<Item> := [];
      if el.drawable {
        var color := Effective(here);
        if color.Some? {
          own := [Item(color.value, el)];
          assert own[..0] == [];
          if color.value !in seen {
            seen := seen + [color.value];
          }
        }
      }
      assert seen == SeeAll(old(seen), own);
      SeeAllAppend(old(seen), own, ColoredAll(el.children, here));
      WalkAll(el.children, here);
    }

    method WalkAll(els: seq<Node>, path: seq<Node>)
      modifies this
      ensures seen == SeeAll(old(seen), ColoredAll(els, path))
      decreases els
    {
      if els != [] {
        SeeAllAppend(seen, Colored(els[0], path), ColoredAll(els[1..], path));
        Walk(els[0], path);
        WalkAll(els[1..], path);
      }
    }
  }

  function SeeAll(seen: seq<string>, items: seq<Item>): seq<string>
    decreases |items|
  {
    if items == [] then seen
    else
      var before := SeeAll(seen, items[..|items| - 1]);
      var c := items[|items| - 1].color;
      if c in before then before else before + [c]
  }

  lemma {:induction false} SeeAllAppend(seen: seq<string>, a: seq<Item>, b: seq<Item>)
    ensures SeeAll(seen, a + b) == SeeAll(SeeAll(seen, a), b)
    decreases |b|
  {
    if b == [] {
      assert a + b == a;
    } else {
      assert (a + b)[..|a + b| - 1] == a + b[..|b| - 1];
      SeeAllAppend(seen, a, b[..|b| - 1]);
    }
  }

  lemma {:induction false} SeenIsFirstSeen(items: seq<Item>)
    ensures SeeAll([], items) == FirstSeen(items)
    decreases |items|
  {
    if items != [] {
      SeenIsFirstSeen(items[..|items| - 1]);
    }
  }

  /** The colour list shown to the user. */
  method StrokeColors(root: Node) returns (seen: seq<string>)
    ensures seen == FirstSeen(Document(root))
  {
    var analyzer := new Analyzer();
    analyzer.WalkAll(root.children, [root]);
    SeenIsFirstSeen(Document(root));
    seen := analyzer.seen;
  }

  // ---- what has no colour -------------------------------------------------------------

  /** Drawables kept outside the layers: only children of the root are looked at. */
  function Unstroked(root: Node, els: seq<Node>): seq<Node> {
    if els == [] then []
    else
      (if els[0].drawable && Effective([root, els[0]]).None? then [els[0]] else []) + Unstroked(root, els[1..])
  }

  method EmitLayers(ordered: seq<string>, buckets: map<string, seq<Node>>) returns (layers: seq<seq<Node>>)
    requires forall i :: 0 <= i < |ordered| ==> ordered[i] in buckets
    ensures |layers| == |ordered| && forall i :: 0 <= i < |layers| ==> layers[i] == buckets[ordered[i]]
  {
    layers := [];
    var k := 0;
    while k < |ordered|
      invariant 0 <= k <= |ordered| && |layers| == k
      invariant forall i :: 0 <= i < k ==> layers[i] == buckets[ordered[i]]
    {
      layers := layers + [buckets[ordered[k]]];
      k := k + 1;
    }
  }

  lemma UnstrokedNext(root: Node, els: seq<Node>, loose: seq<Node>)
    requires els != []
    ensures var own := if els[0].drawable && Effective([root, els[0]]).None? then [els[0]] else [];
      loose + Unstroked(root, els) == (loose + own) + Unstroked(root, els[1..])
  {
  }

  method EmitLoose(root: Node) returns (loose: seq<Node>)
    ensures loose == Unstroked(root, root.children)
  {
    loose := [];
    var k := 0;
    while k < |root.children|
      invariant 0 <= k <= |root.children|
      invariant Unstroked(root, root.children) == loose + Unstroked(root, root.children[k..])
    {
      var child := root.children[k];
      UnstrokedNext(root, root.children[k..], loose);
      assert root.children[k..][1..] == root.children[k + 1..];
      if child.drawable && Effective([root, child]).None? {
        loose := loose + [child];
      } else {
        assert loose + [] == loose;
      }
      k := k + 1;
    }
    assert loose + [] == loose;
  }

  /** Regrouping: one layer a colour in the order the colours are first met, each holding exactly
      the document's drawables of that colour in document order, then the loose ones. */
  method GroupByColor(root: Node) returns (ordered: seq<string>, layers: seq<seq<Node>>, loose: seq<Node>)
    ensures ordered == FirstSeen(Document(root)) && |layers| == |ordered|
    ensures forall i :: 0 <= i < |layers| ==> layers[i] == OfColor(Document(root), ordered[i])
    ensures loose == Unstroked(root, root.children)
  {
    var grouper := new Grouper();
    grouper.WalkAll(root.children, [root]);
    GroupsAre(Document(root));
    assert grouper.View() == AddAll(NO_GROUPS, Document(root));
    ordered := grouper.ordered;
    layers := EmitLayers(ordered, grouper.buckets);
    loose := EmitLoose(root);
  }

  // ---- what becomes of every drawable -------------------------------------------------

  /** Where a drawable is: the elements above it, from the root down, and the drawable itself. */
  datatype Place = Place(above: seq<Node>, node: Node) {
    function Stroke(): Option<string> { Effective(above + [node]) }

    /** A child of the root. */
    predicate AtTop() { |above| == 1 }
  }

  /** The places of an element's drawables, in document order. */
  function Places(el: Node, path: seq<Node>): seq<Place>
    decreases el
  {
    (if el.drawable then [Place(path, el)] else []) + PlacesAll(el.children, path + [el])
  }

  function PlacesAll(els: seq<Node>, path: seq<Node>): seq<Place>
    decreases els
  {
    if els == [] then [] else Places(els[0], path) + PlacesAll(els[1..], path)
  }

  function Drawables(root: Node): seq<Place> { PlacesAll(root.children, [root]) }

  /** The stroked ones, as the walk lists them. */
  function StrokedOf(places: seq<Place>): seq<Item> {
    if places == [] then []
    else
      var p := places[0];
      (if p.Stroke().Some? then [Item(p.Stroke().value, p.node)] else []) + StrokedOf(places[1..])
  }

  /** Strokeless children of the root, as they are kept. */
  function LooseOf(places: seq<Place>): seq<Node> {
    if places == [] then []
    else
      var p := places[0];
      (if p.Stroke().None? && p.AtTop() then [p.node] else []) + LooseOf(places[1..])
  }

  /** Strokeless drawables further down. */
  function LostOf(places: seq<Place>): seq<Place> {
    if places == [] then []
    else
      var p := places[0];
      (if p.Stroke().None? && !p.AtTop() then [p] else []) + LostOf(places[1..])
  }

  lemma {:induction false} StrokedAppend(a: seq<Place>, b: seq<Place>)
    ensures StrokedOf(a + b) == StrokedOf(a) + StrokedOf(b)
  {
    hide Effective;
    if a == [] {
      assert a + b == b;
    } else {
      assert (a + b)[1..] == a[1..] + b && (a + b)[0] == a[0];
      StrokedAppend(a[1..], b);
      var own := if a[0].Stroke().Some? then [Item(a[0].Stroke().value, a[0].node)] else [];
      ItemsAssociate(own, StrokedOf(a[1..]), StrokedOf(b));
    }
  }

  lemma ItemsAssociate(a: seq<Item>, b: seq<Item>, c: seq<Item>)
    ensures a + (b + c) == (a + b) + c
  {
  }

  lemma {:induction false} LooseAppend(a: seq<Place>, b: seq<Place>)
    ensures LooseOf(a + b) == LooseOf(a) + LooseOf(b)
  {
    if a == [] {
      assert a + b == b;
    } else {
      assert (a + b)[1..] == a[1..] + b;
      LooseAppend(a[1..], b);
    }
  }

  /** The walk finds exactly the stroked ones, in document order. */
  lemma {:induction false} WalkFindsStroked(el: Node, path: seq<Node>)
    ensures Colored(el, path) == StrokedOf(Places(el, path))
    decreases el
  {
    var own := if el.drawable then [Place(path, el)] else [];
    WalkAllFindsStroked(el.children, path + [el]);
    StrokedAppend(own, PlacesAll(el.children, path + [el]));
    OneStroked(own);
  }

  lemma OneStroked(own: seq<Place>)
    requires |own| <= 1
    ensures StrokedOf(own) ==
      if |own| == 1 && own[0].Stroke().Some? then [Item(own[0].Stroke().value, own[0].node)] else []
  {
  }

  lemma {:induction false} WalkAllFindsStroked(els: seq<Node>, path: seq<Node>)
    ensures ColoredAll(els, path) == StrokedOf(PlacesAll(els, path))
    decreases els
  {
    if els != [] {
      WalkFindsStroked(els[0], path);
      WalkAllFindsStroked(els[1..], path);
      StrokedAppend(Places(els[0], path), PlacesAll(els[1..], path));
    }
  }

  lemma {:induction false} NoneLooseBelow(els: seq<Node>, path: seq<Node>)
    requires |path| > 1
    ensures LooseOf(PlacesAll(els, path)) == []
    decreases els
  {
    if els != [] {
      var own := if els[0].drawable then [Place(path, els[0])] else [];
      NoneLooseBelow(els[0].children, path + [els[0]]);
      LooseAppend(own, PlacesAll(els[0].children, path + [els[0]]));
      NoneLooseBelow(els[1..], path);
      LooseAppend(Places(els[0], path), PlacesAll(els[1..], path));
      OneLoose(own);
    }
  }

  lemma OneLoose(own: seq<Place>)
    requires |own| <= 1
    ensures LooseOf(own) ==
      if |own| == 1 && own[0].Stroke().None? && own[0].AtTop() then [own[0].node] else []
  {
  }

  /** What is kept outside the layers are exactly the strokeless children of the root, in order. */
  lemma {:induction false} UnstrokedAreLoose(root: Node, els: seq<Node>)
    ensures Unstroked(root, els) == LooseOf(PlacesAll(els, [root]))
  {
    if els != [] {
      var own := if els[0].drawable then [Place([root], els[0])] else [];
      assert [root] + [els[0]] == [root, els[0]];
      NoneLooseBelow(els[0].children, [root, els[0]]);
      LooseAppend(own, PlacesAll(els[0].children, [root, els[0]]));
      LooseAppend(Places(els[0], [root]), PlacesAll(els[1..], [root]));
      OneLoose(own);
      UnstrokedAreLoose(root, els[1..]);
    }
  }

  lemma {:induction false} EveryPlaceOnce(places: seq<Place>)
    ensures |StrokedOf(places)| + |LooseOf(places)| + |LostOf(places)| == |places|
  {
    if places != [] {
      EveryPlaceOnce(places[1..]);
    }
  }

  lemma {:induction false} LostAre(places: seq<Place>)
    ensures forall p :: p in LostOf(places) <==> p in places && p.Stroke().None? && !p.AtTop()
  {
    if places != [] {
      LostAre(places[1..]);
    }
  }

  /** What layers and loose ones hold together. */
  function Kept(root: Node): nat {
    LayerSizes(FirstSeen(Document(root)), Document(root)) + |Unstroked(root, root.children)|
  }

  /** For every document: the layers hold exactly the drawables with an effective stroke, the loose
      ones are exactly the strokeless children of the root, and every other drawable is lost. */
  lemma KeptAre(root: Node)
    ensures var places := Drawables(root);
      && Document(root) == StrokedOf(places) && Unstroked(root, root.children) == LooseOf(places)
      && Kept(root) + |LostOf(places)| == |places|
  {
    WalkAllFindsStroked(root.children, [root]);
    UnstrokedAreLoose(root, root.children);
    LayersPartition(Document(root));
    EveryPlaceOnce(Drawables(root));
  }

  /** Nothing is lost if and only if every drawable below the root's children has a stroke. */
  lemma NothingLostExactly(root: Node)
    ensures Kept(root) == |Drawables(root)| <==> forall p :: p in Drawables(root) && !p.AtTop() ==> p.Stroke().Some?
  {
    var places := Drawables(root);
    KeptAre(root);
    LostAre(places);
    if LostOf(places) != [] {
      assert LostOf(places)[0] in LostOf(places);
    }
  }

  /** Wherever a strokeless drawable lies below a group, it is lost. */
  lemma NestedUnstrokedIsLost(root: Node, place: Place)
    requires place in Drawables(root) && !place.AtTop() && place.Stroke().None?
    ensures place in LostOf(Drawables(root)) && Kept(root) < |Drawables(root)|
  {
    KeptAre(root);
    LostAre(Drawables(root));
  }

  // ---- pens ---------------------------------------------------------------------------

  datatype PenMap = PenMap(pens: map<nat, int>) | UnknownColors

  /** Layer numbers, from 1, to pens; colours without a pen are left to the default. */
  method ColorPensToLayers(pens: map<string, int>, ordered: seq<string>) returns (r: PenMap)
    ensures r.UnknownColors? <==> exists c :: c in pens && c !in ordered
    ensures r.PenMap? ==> forall k :: k in r.pens <==> 1 <= k <= |ordered| && ordered[k - 1] in pens
    ensures r.PenMap? ==> forall k :: k in r.pens ==> r.pens[k] == pens[ordered[k - 1]]
  {
    if exists c :: c in pens && c !in ordered {
      return UnknownColors;
    }
    var layers: map<nat, int> := map[];
    var i := 0;
    while i < |ordered|
      invariant 0 <= i <= |ordered|
      invariant forall k :: k in layers <==> 1 <= k <= i && ordered[k - 1] in pens
      invariant forall k :: k in layers ==> layers[k] == pens[ordered[k - 1]]
    {
      if ordered[i] in pens {
        layers := layers[i + 1 := pens[ordered[i]]];
      }
      i := i + 1;
    }
    r := PenMap(layers);
  }

  /** Every coloured drawable is in the layer of its colour, and no other layer has that colour. */
  lemma OneLayerEach(root: Node, p: nat) returns (layer: nat)
    requires p < |Document(root)|
    ensures layer < |FirstSeen(Document(root))| && FirstSeen(Document(root))[layer] == Document(root)[p].color
    ensures Document(root)[p].node in OfColor(Document(root), FirstSeen(Document(root))[layer])
    ensures forall other :: 0 <= other < |FirstSeen(Document(root))| && other != layer ==>
      FirstSeen(Document(root))[other] != Document(root)[p].color
  {
    var items := Document(root);
    FirstSeenComplete(items, p);
    FirstSeenDistinct(items);
    NodeInItsColor(items, p);
    layer :| layer < |FirstSeen(items)| && FirstSeen(items)[layer] == items[p].color;
  }

  lemma {:induction false} NodeInItsColor(items: seq<Item>, p: nat)
    requires p < |items|
    ensures items[p].node in OfColor(items, items[p].color)
    decreases |items|
  {
    if p < |items| - 1 {
      NodeInItsColor(items[..|items| - 1], p);
    }
  }
}
