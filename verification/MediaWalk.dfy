/**
  Expansion of nested forwards and nodes into a flat list of media items, within a limit on
  items, a limit on depth and one budget of text.  The full listing an unlimited walk would
  give is the yardstick: the bounded walk keeps its beginning and says so when it cuts.
 */
module MediaWalk {
  import opened Wrappers

  /** Positions from the outermost message inwards: "3.0.2" is [3, 0, 2]. */
  type Path = seq<nat>

  datatype Kind = Forward | Bundle | Image | Audio | Video | File

  datatype State = Observed | Expanded | Limited | Unavailable | Failed | MetadataOnly | Archived

  datatype Part =
    | Other
    | BadData(kind: Kind)
    | Leaf(kind: Kind, state: State, reason: Option<string>)
    | ForwardPart(id: Option<string>)
    | NodePart(id: Option<string>, node: Node)

  /** A node of a forward: its content, and the texts of its cleaned segments. */
  datatype Node = NotANode | Node(content: Option<seq<Part>>, texts: seq<string>, omitted: bool, dated: bool)

  datatype Reply = Fails(reason: string) | Nodes(nodes: seq<Node>)

  /** The platform may answer each request for a forward as it likes, even for the same id. */
  datatype Platform = Platform(maxDepth: nat, reply: Path -> Reply)

  datatype Item = Item(path: Path, kind: Kind, state: State, reason: Option<string>, texts: seq<string>)

  /** An item as an unlimited walk would list it; `elastic` when its reason depends on the text left. */
  datatype Listed = Listed(
    path: Path, kind: Kind, state: State, reason: Option<string>, texts: seq<string>,
    id: Option<string>, expanded: bool, elastic: bool)

  const TEXT_BUDGET: nat := 65536

  // ---------------------------------------------------------------- the full listing

  function Plain(path: Path, kind: Kind, state: State, reason: Option<string>): Listed {
    Listed(path, kind, state, reason, [], None, false, false)
  }

  function Parts(
    p: Platform, parts: seq<Part>, i: nat, prefix: Path, depth: nat, ancestors: set<Option<string>>): seq<Listed>
    requires i <= |parts| && depth <= p.maxDepth
    decreases p.maxDepth - depth, 3, |parts| - i
  {
    if i == |parts| then []
    else One(p, parts[i], prefix + [i], depth, ancestors) + Parts(p, parts, i + 1, prefix, depth, ancestors)
  }

  function One(p: Platform, part: Part, path: Path, depth: nat, ancestors: set<Option<string>>): seq<Listed>
    requires depth <= p.maxDepth
    decreases p.maxDepth - depth, 2
  {
    match part
    case Other => []
    case BadData(kind) => [Plain(path, kind, Failed, Some("invalid_segment"))]
    case Leaf(kind, state, reason) => [Plain(path, kind, state, reason)]
    case ForwardPart(id) =>
      if depth == p.maxDepth then [Plain(path, Forward, Limited, Some("depth_limit"))]
      else if id in ancestors then [Plain(path, Forward, Limited, Some("forward_cycle"))]
      else if id.None? then [Plain(path, Forward, Unavailable, Some("missing_forward_id"))]
      else Opened(p, Forward, id, p.reply(path), path, depth, ancestors)
    case NodePart(id, node) =>
      if depth == p.maxDepth then [Plain(path, Bundle, Limited, Some("depth_limit"))]
      else Opened(p, Bundle, id, Nodes([node]), path, depth, ancestors)
  }

  function Opened(
    p: Platform, kind: Kind, id: Option<string>, reply: Reply, path: Path, depth: nat, ancestors: set<Option<string>>)
    : seq<Listed>
    requires depth < p.maxDepth
    decreases p.maxDepth - depth, 1
  {
    match reply
    case Fails(reason) => [Plain(path, kind, Unavailable, Some(reason))]
    case Nodes(nodes) =>
      if nodes == [] then [Plain(path, kind, Unavailable, Some("forward_unavailable"))]
      else [Head(kind, id, path, nodes)] + Entries(p, nodes, 0, path, depth, ancestors + {id})
  }

  /** An expanded item, limited if any of the nodes so far was not one. */
  function Head(kind: Kind, id: Option<string>, path: Path, nodes: seq<Node>): Listed {
    if NotANode in nodes
    then Listed(path, kind, Limited, Some("invalid_node"), [], id, true, false)
    else Listed(path, kind, Expanded, None, [], id, true, false)
  }

  function Entries(
    p: Platform, nodes: seq<Node>, n: nat, path: Path, depth: nat, ancestors: set<Option<string>>): seq<Listed>
    requires n <= |nodes| && depth < p.maxDepth
    decreases p.maxDepth - depth, 0, |nodes| - n
  {
    if n == |nodes| then []
    else
      Inside(p, nodes[n], path + [n], depth, ancestors, n, |nodes|)
      + Entries(p, nodes, n + 1, path, depth, ancestors)
  }

  function Inside(
    p: Platform, node: Node, path: Path, depth: nat, ancestors: set<Option<string>>, n: nat, count: nat): seq<Listed>
    requires n < count && depth < p.maxDepth
    decreases p.maxDepth - depth, 0, count - n - 1
  {
    if node.NotANode? then []
    else [Entry(path, node)] + Parts(p, Content(node), 0, path, depth + 1, ancestors)
  }

  function Content(node: Node): seq<Part>
    requires node.Node?
  {
    if node.content.Some? then node.content.value else []
  }

  function Entry(path: Path, node: Node): Listed
    requires node.Node?
  {
    if node.content.None? then
      Listed(path, Bundle, Unavailable, Some("node_content_missing"), node.texts, None, false, false)
    else if node.omitted then
      Listed(path, Bundle, Observed, Some("node_fields_omitted"), node.texts, None, false, true)
    else
      var reason := if node.dated then None else Some("node_time_missing");
      Listed(path, Bundle, Observed, reason, node.texts, None, false, true)
  }

  lemma Replace(before: seq<Listed>, head: Listed, done: seq<Listed>, other: Listed)
    ensures (before + [head] + done)[|before| := other] == before + [other] + done
  {
  }

  /** One node further in the list of entries. */
  lemma Continue(
    done: seq<Listed>, p: Platform, nodes: seq<Node>, n: nat, path: Path, depth: nat, ancestors: set<Option<string>>)
    returns (more: seq<Listed>)
    requires n < |nodes| && depth < p.maxDepth
    ensures more == done + Inside(p, nodes[n], path + [n], depth, ancestors, n, |nodes|)
    ensures more + Entries(p, nodes, n + 1, path, depth, ancestors)
            == done + Entries(p, nodes, n, path, depth, ancestors)
  {
    more := done + Inside(p, nodes[n], path + [n], depth, ancestors, n, |nodes|);
  }

  // ---------------------------------------------------------------- its shape

  ghost predicate Under(list: seq<Listed>, path: Path) {
    forall k :: 0 <= k < |list| ==> path <= list[k].path
  }

  /** Strictly below `path`, in its i-th branch or a later one. */
  ghost predicate From(list: seq<Listed>, path: Path, i: nat) {
    forall k :: 0 <= k < |list| ==> |path| < |list[k].path| && path <= list[k].path && i <= list[k].path[|path|]
  }

  ghost predicate Short(list: seq<Listed>, longest: nat) {
    forall k :: 0 <= k < |list| ==> |list[k].path| <= longest
  }

  /** No forward is opened under an id that encloses it. */
  ghost predicate Avoids(list: seq<Listed>, ancestors: set<Option<string>>) {
    forall k :: 0 <= k < |list| && list[k].expanded && list[k].kind.Forward? ==> list[k].id !in ancestors
  }

  ghost predicate Distinct(list: seq<Listed>) {
    forall a, b :: 0 <= a < b < |list| ==> list[a].path != list[b].path
  }

  predicate Repeats(outer: Listed, inner: Listed) {
    outer.expanded && inner.expanded && inner.kind.Forward? && outer.path <= inner.path && outer.id == inner.id
  }

  ghost predicate Acyclic(list: seq<Listed>) {
    forall a, b :: 0 <= a < |list| && 0 <= b < |list| && a != b ==> !Repeats(list[a], list[b])
  }

  ghost predicate Tidy(list: seq<Listed>, longest: nat, ancestors: set<Option<string>>) {
    Short(list, longest) && Avoids(list, ancestors) && Distinct(list) && Acyclic(list)
  }

  /** Two lists in different branches stay out of each other's way. */
  lemma Join(a: seq<Listed>, b: seq<Listed>, path: Path, i: nat, longest: nat, ancestors: set<Option<string>>)
    requires Tidy(a, longest, ancestors) && Tidy(b, longest, ancestors)
    requires Under(a, path + [i]) && From(b, path, i + 1)
    ensures Tidy(a + b, longest, ancestors) && From(a + b, path, i)
  {
    forall j | 0 <= j < |a| ensures |path| < |a[j].path| && path <= a[j].path && a[j].path[|path|] == i {
      assert (path + [i])[|path|] == i;
    }
    forall j, k | 0 <= j < |a| && 0 <= k < |b| ensures !(a[j].path <= b[k].path) && !(b[k].path <= a[j].path) {
      assert a[j].path[|path|] == i < b[k].path[|path|];
    }
  }

  /** A list strictly below an item, and the item before it. */
  lemma Crown(head: Listed, b: seq<Listed>, longest: nat, ancestors: set<Option<string>>)
    requires Tidy(b, longest, if head.expanded then ancestors + {head.id} else ancestors)
    requires From(b, head.path, 0) && |head.path| <= longest
    requires head.expanded && head.kind.Forward? ==> head.id !in ancestors
    ensures Tidy([head] + b, longest, ancestors) && Under([head] + b, head.path)
  {
    forall k | 0 <= k < |b| ensures head.path != b[k].path && !Repeats(head, b[k]) && !Repeats(b[k], head) {
    }
  }

  lemma {:induction false} PartsAreTidy(
    p: Platform, parts: seq<Part>, i: nat, prefix: Path, depth: nat, ancestors: set<Option<string>>)
    requires i <= |parts| && depth <= p.maxDepth && |prefix| == 2 * depth
    ensures var list := Parts(p, parts, i, prefix, depth, ancestors);
            Tidy(list, 2 * p.maxDepth + 1, ancestors) && From(list, prefix, i)
    decreases p.maxDepth - depth, 3, |parts| - i
  {
    if i < |parts| {
      OneIsTidy(p, parts[i], prefix + [i], depth, ancestors);
      PartsAreTidy(p, parts, i + 1, prefix, depth, ancestors);
      Join(One(p, parts[i], prefix + [i], depth, ancestors), Parts(p, parts, i + 1, prefix, depth, ancestors),
           prefix, i, 2 * p.maxDepth + 1, ancestors);
    }
  }

  lemma {:induction false} OneIsTidy(p: Platform, part: Part, path: Path, depth: nat, ancestors: set<Option<string>>)
    requires depth <= p.maxDepth && |path| == 2 * depth + 1
    ensures var list := One(p, part, path, depth, ancestors);
            Tidy(list, 2 * p.maxDepth + 1, ancestors) && Under(list, path)
    decreases p.maxDepth - depth, 2
  {
    if depth < p.maxDepth {
      match part
      case ForwardPart(id) =>
        if id !in ancestors {
          OpenedIsTidy(p, Forward, id, p.reply(path), path, depth, ancestors);
        }
      case NodePart(id, node) => OpenedIsTidy(p, Bundle, id, Nodes([node]), path, depth, ancestors);
      case _ =>
    }
  }

  lemma {:induction false} OpenedIsTidy(
    p: Platform, kind: Kind, id: Option<string>, reply: Reply, path: Path, depth: nat, ancestors: set<Option<string>>)
    requires depth < p.maxDepth && |path| == 2 * depth + 1
    requires kind.Forward? ==> id !in ancestors
    ensures var list := Opened(p, kind, id, reply, path, depth, ancestors);
            Tidy(list, 2 * p.maxDepth + 1, ancestors) && Under(list, path)
    decreases p.maxDepth - depth, 1
  {
    if reply.Nodes? && reply.nodes != [] {
      var head := Head(kind, id, path, reply.nodes);
      var below := Entries(p, reply.nodes, 0, path, depth, ancestors + {id});
      EntriesAreTidy(p, reply.nodes, 0, path, depth, ancestors + {id});
      assert head.expanded && head.id == id && head.path == path && head.kind == kind;
      Crown(head, below, 2 * p.maxDepth + 1, ancestors);
    }
  }

  lemma {:induction false} EntriesAreTidy(
    p: Platform, nodes: seq<Node>, n: nat, path: Path, depth: nat, ancestors: set<Option<string>>)
    requires n <= |nodes| && depth < p.maxDepth && |path| == 2 * depth + 1
    ensures var list := Entries(p, nodes, n, path, depth, ancestors);
            Tidy(list, 2 * p.maxDepth + 1, ancestors) && From(list, path, n)
    decreases p.maxDepth - depth, 0, |nodes| - n
  {
    if n < |nodes| {
      var inside := Inside(p, nodes[n], path + [n], depth, ancestors, n, |nodes|);
      if nodes[n].Node? {
        PartsAreTidy(p, Content(nodes[n]), 0, path + [n], depth + 1, ancestors);
        Crown(Entry(path + [n], nodes[n]), Parts(p, Content(nodes[n]), 0, path + [n], depth + 1, ancestors),
              2 * p.maxDepth + 1, ancestors);
      }
      EntriesAreTidy(p, nodes, n + 1, path, depth, ancestors);
      Join(inside, Entries(p, nodes, n + 1, path, depth, ancestors), path, n, 2 * p.maxDepth + 1, ancestors);
    }
  }

  // ---------------------------------------------------------------- the text budget

  function Keep(texts: seq<string>, budget: nat): (kept: seq<string>)
    ensures |kept| == |texts|
  {
    if texts == [] then []
    else
      var n := |texts| - 1;
      var left := Left(texts[..n], budget);
      Keep(texts[..n], budget) + [if |texts[n]| <= left then texts[n] else texts[n][..left]]
  }

  function Left(texts: seq<string>, budget: nat): (left: nat)
    ensures left <= budget
  {
    if texts == [] then budget
    else
      var n := |texts| - 1;
      var left := Left(texts[..n], budget);
      if |texts[n]| <= left then left - |texts[n]| else 0
  }

  function Flat(texts: seq<string>): string {
    if texts == [] then "" else Flat(texts[..|texts| - 1]) + texts[|texts| - 1]
  }

  function Cut<T>(s: seq<T>, n: nat): (r: seq<T>)
    ensures r <= s && |r| <= n && (|s| <= n ==> r == s)
    ensures |s| > n ==> |r| == n
  {
    if |s| <= n then s else s[..n]
  }

  /** The texts kept, run together, are the beginning of the texts given, and what is left is what they did not use. */
  lemma {:induction false} KeptIsABeginning(texts: seq<string>, budget: nat)
    ensures Flat(Keep(texts, budget)) == Cut(Flat(texts), budget)
    ensures |Flat(Keep(texts, budget))| + Left(texts, budget) == budget
  {
    if texts != [] {
      var n := |texts| - 1;
      KeptIsABeginning(texts[..n], budget);
      var kept := Keep(texts, budget);
      assert kept[..n] == Keep(texts[..n], budget);
      assert Flat(kept) == Flat(kept[..n]) + kept[n];
    }
  }

  function AllTexts(list: seq<Listed>): seq<string> {
    if list == [] then [] else AllTexts(list[..|list| - 1]) + list[|list| - 1].texts
  }

  /** The budget before the k-th listed item. */
  function BudgetAt(list: seq<Listed>, k: nat): nat
    requires k <= |list|
  {
    if k == 0 then TEXT_BUDGET else Left(list[k - 1].texts, BudgetAt(list, k - 1))
  }

  lemma {:induction false} BudgetIsStable(a: seq<Listed>, b: seq<Listed>, k: nat)
    requires k <= |a| && k <= |b|
    requires forall j :: 0 <= j < k ==> a[j].texts == b[j].texts
    ensures BudgetAt(a, k) == BudgetAt(b, k)
  {
    if k > 0 {
      BudgetIsStable(a, b, k - 1);
    }
  }

  // ---------------------------------------------------------------- what a bounded walk keeps of it

  const LIMIT: Option<string> := Some("item_limit")

  predicate Agrees(item: Item, listed: Listed, budget: nat, full: bool) {
    && item.path == listed.path && item.kind == listed.kind
    && item.texts == Keep(listed.texts, budget)
    && ((full && item.reason == LIMIT)
        || (item.state == listed.state
            && item.reason == if listed.elastic && Left(listed.texts, budget) == 0 then Some("node_fields_omitted")
                              else listed.reason))
  }

  predicate AgreesAt(items: seq<Item>, list: seq<Listed>, k: nat, maxItems: nat)
    requires k < |items| && k < |list|
  {
    Agrees(items[k], list[k], BudgetAt(list, k), |items| == maxItems)
  }

  ghost predicate MarkedSomewhere(items: seq<Item>) {
    exists k :: 0 <= k < |items| && items[k].reason == LIMIT
  }

  /** The items are the first of the listing, and if any are missing one of them says so. */
  ghost predicate Keeps(items: seq<Item>, list: seq<Listed>, budget: nat, maxItems: nat) {
    && |items| == (if |list| <= maxItems then |list| else maxItems)
    && (forall k :: 0 <= k < |items| ==> AgreesAt(items, list, k, maxItems))
    && budget == BudgetAt(list, |items|)
    && (|list| > maxItems ==> MarkedSomewhere(items))
  }

  lemma AddKeeps(items: seq<Item>, list: seq<Listed>, budget: nat, maxItems: nat, item: Item, listed: Listed)
    requires Keeps(items, list, budget, maxItems) && |items| < maxItems
    requires Agrees(item, listed, budget, false)
    ensures Keeps(items + [item], list + [listed], Left(listed.texts, budget), maxItems)
  {
    var more := list + [listed];
    forall k | 0 <= k <= |items| ensures BudgetAt(more, k) == BudgetAt(list, k) {
      BudgetIsStable(list, more, k);
    }
    var items' := items + [item];
    forall k | 0 <= k < |items'| ensures AgreesAt(items', more, k, maxItems) {
      if k < |items| {
        assert AgreesAt(items, list, k, maxItems);
      }
    }
  }

  /**
    A full list stays as it is, but for the mark that there was more; what is marked need not say
    what else was wrong.
   */
  lemma MarkKeeps(
    items: seq<Item>, list: seq<Listed>, budget: nat, maxItems: nat, k: nat, marked: Item, listed: Listed,
    rest: seq<Listed>)
    requires Keeps(items, list, budget, maxItems) && |items| == maxItems && k < |items|
    requires marked.path == items[k].path && marked.kind == items[k].kind && marked.texts == items[k].texts
    requires listed.path == list[k].path && listed.kind == list[k].kind && listed.texts == list[k].texts
    requires marked.reason == LIMIT
    ensures Keeps(items[k := marked], list[k := listed] + rest, budget, maxItems)
  {
    var more := list[k := listed] + rest;
    forall j | 0 <= j <= |items| ensures BudgetAt(more, j) == BudgetAt(list, j) {
      BudgetIsStable(list, more, j);
    }
    var items' := items[k := marked];
    forall j | 0 <= j < |items'| ensures AgreesAt(items', more, j, maxItems) {
      assert AgreesAt(items, list, j, maxItems);
    }
    assert items'[k].reason == LIMIT;
  }

  /** An item that turns out to hold something that is no node. */
  lemma AmendKeeps(items: seq<Item>, list: seq<Listed>, budget: nat, maxItems: nat, k: nat, item: Item, listed: Listed)
    requires Keeps(items, list, budget, maxItems) && |items| < maxItems && k < |items|
    requires listed.path == list[k].path && listed.kind == list[k].kind && listed.texts == list[k].texts
    requires !listed.elastic
    requires item == items[k].(state := listed.state, reason := listed.reason)
    ensures Keeps(items[k := item], list[k := listed], budget, maxItems)
  {
    var amended := list[k := listed];
    forall j | 0 <= j <= |items| ensures BudgetAt(amended, j) == BudgetAt(list, j) {
      BudgetIsStable(list, amended, j);
    }
    var items' := items[k := item];
    forall j | 0 <= j < |items'| ensures AgreesAt(items', amended, j, maxItems) {
      assert AgreesAt(items, list, j, maxItems);
    }
  }

  function KeptTexts(items: seq<Item>): seq<string> {
    if items == [] then [] else KeptTexts(items[..|items| - 1]) + items[|items| - 1].texts
  }

  lemma OneMoreText(items: seq<Item>, list: seq<Listed>, n: nat)
    requires n < |items| && n < |list|
    ensures KeptTexts(items[..n + 1]) == KeptTexts(items[..n]) + items[n].texts
    ensures AllTexts(list[..n + 1]) == AllTexts(list[..n]) + list[n].texts
  {
    assert items[..n + 1][..n] == items[..n] && list[..n + 1][..n] == list[..n];
  }

  lemma {:induction false} TextIsKeptInTurn(items: seq<Item>, list: seq<Listed>, n: nat, maxItems: nat)
    requires n <= |items| <= |list|
    requires forall k :: 0 <= k < |items| ==> AgreesAt(items, list, k, maxItems)
    ensures KeptTexts(items[..n]) == Keep(AllTexts(list[..n]), TEXT_BUDGET)
    ensures BudgetAt(list, n) == Left(AllTexts(list[..n]), TEXT_BUDGET)
  {
    if n > 0 {
      TextIsKeptInTurn(items, list, n - 1, maxItems);
      OneMoreText(items, list, n - 1);
      assert AgreesAt(items, list, n - 1, maxItems);
      KeepTwice(AllTexts(list[..n - 1]), list[n - 1].texts, TEXT_BUDGET);
    }
  }

  /** All the text kept, run together, is the beginning of all the text there was, up to the budget. */
  lemma TextIsABeginning(items: seq<Item>, list: seq<Listed>, maxItems: nat, budget: nat)
    requires Keeps(items, list, budget, maxItems)
    ensures |Flat(KeptTexts(items))| + budget == 65536
    ensures Flat(KeptTexts(items)) == Cut(Flat(AllTexts(list[..|items|])), 65536)
  {
    TextIsKeptInTurn(items, list, |items|, maxItems);
    KeptIsABeginning(AllTexts(list[..|items|]), TEXT_BUDGET);
    assert items[..|items|] == items;
  }

  lemma {:induction false} KeepTwice(a: seq<string>, b: seq<string>, budget: nat)
    ensures Keep(a + b, budget) == Keep(a, budget) + Keep(b, Left(a, budget))
    ensures Left(a + b, budget) == Left(b, Left(a, budget))
  {
    if b == [] {
      assert a + b == a;
    } else {
      var n := |b| - 1;
      assert (a + b)[..|a + b| - 1] == a + b[..n];
      KeepTwice(a, b[..n], budget);
    }
  }

  /** Whatever the messages look like: distinct short paths, no cycle opened, the first `maxItems` in order. */
  lemma WalkedIsTidy(p: Platform, parts: seq<Part>, items: seq<Item>, list: seq<Listed>, budget: nat, maxItems: nat)
    requires list == Parts(p, parts, 0, [], 0, {}) && Keeps(items, list, budget, maxItems)
    ensures |items| <= maxItems
    ensures forall a, b :: 0 <= a < b < |items| ==> items[a].path != items[b].path
    ensures forall a :: 0 <= a < |items| ==> 1 <= |items[a].path| <= 2 * p.maxDepth + 1
    ensures Acyclic(list)
  {
    PartsAreTidy(p, parts, 0, [], 0, {});
    forall a | 0 <= a < |items| ensures items[a].path == list[a].path {
      assert AgreesAt(items, list, a, maxItems);
    }
  }

  // ---------------------------------------------------------------- the walk

  class MediaArchive {
    const maxItems: nat
    const platform: Platform
    var items: seq<Item>
    var textBudget: nat
    ghost var listing: seq<Listed>

    ghost predicate Valid()
      reads this
    {
      maxItems >= 1 && Keeps(items, listing, textBudget, maxItems)
    }

    constructor (maxItems: nat, platform: Platform)
      requires maxItems >= 1
      ensures Valid() && items == [] && listing == []
      ensures this.maxItems == maxItems && this.platform == platform
    {
      this.maxItems, this.platform := maxItems, platform;
      items, textBudget, listing := [], TEXT_BUDGET, [];
    }

    /** Expand one message from scratch. */
    method Collect(parts: seq<Part>)
      requires maxItems >= 1
      modifies this
      ensures Valid() && listing == Parts(platform, parts, 0, [], 0, {})
    {
      items, textBudget, listing := [], TEXT_BUDGET, [];
      Walk(parts, [], 0, {});
    }

    method Add(item: Item, ghost listed: Listed)
      requires Valid() && |items| < maxItems && listed.texts == []
      requires Agrees(item, listed, textBudget, false)
      modifies this`items, this`listing
      ensures Valid() && items == old(items) + [item] && listing == old(listing) + [listed]
    {
      AddKeeps(items, listing, textBudget, maxItems, item, listed);
      items := items + [item];
      listing := listing + [listed];
    }

    /** Note on an item that there was more than the limit lets through. */
    method Mark(k: nat, state: State, ghost listed: Listed, ghost rest: seq<Listed>)
      requires Valid() && k < |items| == maxItems
      requires listed.path == listing[k].path && listed.kind == listing[k].kind && listed.texts == listing[k].texts
      modifies this`items, this`listing
      ensures Valid() && listing == old(listing)[k := listed] + rest
    {
      var marked := items[k].(state := state, reason := LIMIT);
      MarkKeeps(items, listing, textBudget, maxItems, k, marked, listed, rest);
      items := items[k := marked];
      listing := listing[k := listed] + rest;
    }

    method MarkLast(ghost rest: seq<Listed>)
      requires Valid() && |items| == maxItems
      modifies this`items, this`listing
      ensures Valid() && listing == old(listing) + rest
    {
      var last := |items| - 1;
      assert listing[last := listing[last]] == listing;
      Mark(last, items[last].state, listing[last], rest);
    }

    /** The recursion of the walk: parts in order, each expanded before the next. */
    method Walk(parts: seq<Part>, prefix: Path, depth: nat, ancestors: set<Option<string>>)
      requires Valid() && depth <= platform.maxDepth
      modifies this
      ensures Valid() && listing == old(listing) + Parts(platform, parts, 0, prefix, depth, ancestors)
      decreases platform.maxDepth - depth, 3
    {
      ghost var all := Parts(platform, parts, 0, prefix, depth, ancestors);
      ghost var done := [];
      for i := 0 to |parts|
        invariant Valid() && listing == old(listing) + done
        invariant done + Parts(platform, parts, i, prefix, depth, ancestors) == all
      {
        if |items| >= maxItems {
          MarkLast(Parts(platform, parts, i, prefix, depth, ancestors));
          return;
        }
        done := WalkPart(done, parts, i, prefix, depth, ancestors);
      }
    }

    method WalkPart(
      ghost done: seq<Listed>, parts: seq<Part>, i: nat, prefix: Path, depth: nat, ancestors: set<Option<string>>)
      returns (ghost more: seq<Listed>)
      requires Valid() && depth <= platform.maxDepth && i < |parts| && |items| < maxItems
      modifies this
      ensures Valid() && done <= more && listing == old(listing) + more[|done|..]
      ensures more + Parts(platform, parts, i + 1, prefix, depth, ancestors)
              == done + Parts(platform, parts, i, prefix, depth, ancestors)
      decreases platform.maxDepth - depth, 2, 1
    {
      more := done + One(platform, parts[i], prefix + [i], depth, ancestors);
      Visit(parts[i], prefix + [i], depth, ancestors);
    }

    method Visit(part: Part, path: Path, depth: nat, ancestors: set<Option<string>>)
      requires Valid() && depth <= platform.maxDepth && |items| < maxItems
      modifies this
      ensures Valid() && listing == old(listing) + One(platform, part, path, depth, ancestors)
      decreases platform.maxDepth - depth, 2, 0
    {
      match part
      case Other =>
      case BadData(kind) => AddPlain(path, kind, Failed, Some("invalid_segment"));
      case Leaf(kind, state, reason) => AddPlain(path, kind, state, reason);
      case ForwardPart(id) =>
        if depth >= platform.maxDepth {
          AddPlain(path, Forward, Limited, Some("depth_limit"));
        } else if id in ancestors {
          AddPlain(path, Forward, Limited, Some("forward_cycle"));
        } else if id.None? {
          AddPlain(path, Forward, Unavailable, Some("missing_forward_id"));
        } else {
          Open(Forward, id, platform.reply(path), path, depth, ancestors);
        }
      case NodePart(id, node) =>
        if depth >= platform.maxDepth {
          AddPlain(path, Bundle, Limited, Some("depth_limit"));
        } else {
          Open(Bundle, id, Nodes([node]), path, depth, ancestors);
        }
    }

    method AddPlain(path: Path, kind: Kind, state: State, reason: Option<string>)
      requires Valid() && |items| < maxItems
      modifies this`items, this`listing
      ensures Valid() && listing == old(listing) + [Plain(path, kind, state, reason)]
    {
      Add(Item(path, kind, state, reason, []), Plain(path, kind, state, reason));
    }

    method Open(kind: Kind, id: Option<string>, reply: Reply, path: Path, depth: nat, ancestors: set<Option<string>>)
      requires Valid() && depth < platform.maxDepth && |items| < maxItems
      modifies this
      ensures Valid() && listing == old(listing) + Opened(platform, kind, id, reply, path, depth, ancestors)
      decreases platform.maxDepth - depth, 1
    {
      match reply
      case Fails(reason) => AddPlain(path, kind, Unavailable, Some(reason));
      case Nodes(nodes) =>
        if nodes == [] {
          AddPlain(path, kind, Unavailable, Some("forward_unavailable"));
        } else {
          var at := |items|;
          Add(Item(path, kind, Expanded, None, []), Head(kind, id, path, []));
          ListNodes(at, kind, id, nodes, path, depth, ancestors + {id});
        }
    }

    /** The nodes of an expanded item, which is the last one so far. */
    method ListNodes(
      at: nat, kind: Kind, id: Option<string>, nodes: seq<Node>, path: Path, depth: nat,
      ancestors: set<Option<string>>)
      requires Valid() && depth < platform.maxDepth && at == |listing| - 1 == |items| - 1
      requires listing[at] == Head(kind, id, path, [])
      modifies this
      ensures Valid()
      ensures listing == old(listing)[..at] + [Head(kind, id, path, nodes)]
                         + Entries(platform, nodes, 0, path, depth, ancestors)
      decreases platform.maxDepth - depth, 0, 1
    {
      ghost var before, done, all := listing[..at], [], Entries(platform, nodes, 0, path, depth, ancestors);
      for n := 0 to |nodes|
        invariant Valid() && Opening(at, before, Head(kind, id, path, nodes[..n]), done)
        invariant Splits(all, done, nodes, n, path, depth, ancestors)
      {
        if |items| >= maxItems {
          StopAt(at, before, done, kind, id, nodes, n, path, depth, ancestors);
          return;
        }
        done := ListNode(at, before, done, kind, id, nodes, n, path, depth, ancestors);
      }
      assert nodes[..|nodes|] == nodes;
    }

    /** What has been listed since the item at `at` was opened. */
    ghost predicate Opening(at: nat, before: seq<Listed>, head: Listed, done: seq<Listed>)
      reads this
    {
      at == |before| < |items| && listing == before + [head] + done
    }

    ghost predicate Splits(
      all: seq<Listed>, done: seq<Listed>, nodes: seq<Node>, n: nat, path: Path, depth: nat,
      ancestors: set<Option<string>>)
      requires n <= |nodes| && depth < platform.maxDepth
    {
      all == done + Entries(platform, nodes, n, path, depth, ancestors)
    }

    /** The expanded item itself says that there was more. */
    method StopAt(
      at: nat, ghost before: seq<Listed>, ghost done: seq<Listed>, kind: Kind, id: Option<string>, nodes: seq<Node>,
      n: nat, path: Path, depth: nat, ancestors: set<Option<string>>)
      requires Valid() && depth < platform.maxDepth && n <= |nodes| && |items| == maxItems
      requires Opening(at, before, Head(kind, id, path, nodes[..n]), done)
      modifies this`items, this`listing
      ensures Valid()
      ensures listing == before + [Head(kind, id, path, nodes)]
                         + (done + Entries(platform, nodes, n, path, depth, ancestors))
    {
      var rest := Entries(platform, nodes, n, path, depth, ancestors);
      Mark(at, Limited, Head(kind, id, path, nodes), rest);
      Replace(before, Head(kind, id, path, nodes[..n]), done, Head(kind, id, path, nodes));
    }

    method ListNode(
      at: nat, ghost before: seq<Listed>, ghost done: seq<Listed>, kind: Kind, id: Option<string>, nodes: seq<Node>,
      n: nat, path: Path, depth: nat, ancestors: set<Option<string>>)
      returns (ghost more: seq<Listed>)
      requires Valid() && depth < platform.maxDepth && n < |nodes| && |items| < maxItems
      requires Opening(at, before, Head(kind, id, path, nodes[..n]), done)
      modifies this
      ensures Valid() && Opening(at, before, Head(kind, id, path, nodes[..n + 1]), more)
      ensures more + Entries(platform, nodes, n + 1, path, depth, ancestors)
              == done + Entries(platform, nodes, n, path, depth, ancestors)
      decreases platform.maxDepth - depth, 0, 0
    {
      assert nodes[..n + 1] == nodes[..n] + [nodes[n]];
      more := Continue(done, platform, nodes, n, path, depth, ancestors);
      var node := nodes[n];
      if node.NotANode? {
        Amend(at, Head(kind, id, path, nodes[..n + 1]));
        Replace(before, Head(kind, id, path, nodes[..n]), done, Head(kind, id, path, nodes[..n + 1]));
        return;
      }
      AddEntry(path + [n], node);
      Walk(Content(node), path + [n], depth + 1, ancestors);
    }

    /** Something among the nodes was none. */
    method Amend(at: nat, ghost head: Listed)
      requires Valid() && |items| < maxItems && at < |items|
      requires head == listing[at].(state := Limited, reason := Some("invalid_node")) && !head.elastic
      modifies this`items, this`listing
      ensures Valid() && listing == old(listing)[at := head] && |items| == |old(items)|
    {
      var item := items[at].(state := Limited, reason := Some("invalid_node"));
      AmendKeeps(items, listing, textBudget, maxItems, at, item, head);
      items := items[at := item];
      listing := listing[at := head];
    }

    /** Cut the texts of a node to what is left of the budget, and list it. */
    method AddEntry(path: Path, node: Node)
      requires Valid() && |items| < maxItems && node.Node?
      modifies this`items, this`listing, this`textBudget
      ensures Valid() && listing == old(listing) + [Entry(path, node)]
      ensures |items| == |old(items)| + 1
    {
      ghost var budget := textBudget;
      var kept: seq<string> := [];
      for i := 0 to |node.texts|
        invariant items == old(items) && listing == old(listing)
        invariant kept == Keep(node.texts[..i], budget)
        invariant textBudget == Left(node.texts[..i], budget)
      {
        assert node.texts[..i + 1][..i] == node.texts[..i];
        var value := node.texts[i];
        kept := kept + [Cut(value, textBudget)];
        textBudget := if textBudget < |value| then 0 else textBudget - |value|;
      }
      assert node.texts[..|node.texts|] == node.texts;
      var state, reason := Observed, if node.dated then None else Some("node_time_missing");
      if node.content.None? {
        state, reason := Unavailable, Some("node_content_missing");
      } else if node.omitted || textBudget == 0 {
        reason := Some("node_fields_omitted");
      }
      var item := Item(path, Bundle, state, reason, kept);
      AddKeeps(items, listing, budget, maxItems, item, Entry(path, node));
      items := items + [item];
      listing := listing + [Entry(path, node)];
    }
  }
}
