/**
  What a walk collects, said on the tree of messages alone: which part or node stands at a
  path, how it should be shown, and in which order.  The listing of MediaWalk holds exactly
  these places, each once, and the archive keeps the first of them.
 */
module MediaLaws {
  import opened Wrappers
  import opened MediaWalk

  // ---------------------------------------------------------------- the tree

  datatype Place = PartHere(part: Part) | NodeHere(node: Node)

  /** The nodes a part is opened to: none beyond the depth, inside itself, or without an answer. */
  function Unfolded(p: Platform, part: Part, here: Path, depth: nat, enclosing: set<Option<string>>): seq<Node> {
    if p.maxDepth <= depth then []
    else
      match part
      case ForwardPart(Some(id)) =>
        if Some(id) in enclosing then []
        else (match p.reply(here) case Nodes(nodes) => nodes case Fails(_) => [])
      case NodePart(_, node) => [node]
      case _ => []
  }

  function IdOf(part: Part): Option<string> {
    match part
    case ForwardPart(id) => id
    case NodePart(id, _) => id
    case _ => None
  }

  /**
    The place at `prefix + rest`: a part by its index, a node by its part's index and its own,
    and anything deeper through the content of that node.  `around` are the ids of all that
    encloses it.
   */
  predicate At(
    p: Platform, parts: seq<Part>, prefix: Path, depth: nat, enclosing: set<Option<string>>, rest: Path,
    place: Place, around: set<Option<string>>)
    decreases |rest|
  {
    && rest != [] && rest[0] < |parts|
    && if |rest| == 1 then place == PartHere(parts[rest[0]]) && around == enclosing
       else
         var part := parts[rest[0]];
         var nodes := Unfolded(p, part, prefix + [rest[0]], depth, enclosing);
         && rest[1] < |nodes| && nodes[rest[1]].Node?
         && if |rest| == 2 then place == NodeHere(nodes[rest[1]]) && around == enclosing + {IdOf(part)}
            else
              && nodes[rest[1]].content.Some?
              && At(p, nodes[rest[1]].content.value, prefix + [rest[0]] + [rest[1]], depth + 1,
                    enclosing + {IdOf(part)}, rest[2..], place, around)
  }

  /** Parts that are no media, and nodes that are none, are not listed. */
  function KindAt(place: Place): Option<Kind> {
    match place
    case NodeHere(_) => Some(Bundle)
    case PartHere(Other) => None
    case PartHere(BadData(kind)) => Some(kind)
    case PartHere(Leaf(kind, _, _)) => Some(kind)
    case PartHere(ForwardPart(_)) => Some(Forward)
    case PartHere(NodePart(_, _)) => Some(Bundle)
  }

  /** The state a place should be shown in, where nothing is cut, and the reason given for it. */
  function LookAt(p: Platform, place: Place, path: Path, around: set<Option<string>>): (State, Option<string>) {
    var tooDeep := 2 * p.maxDepth < |path|;
    match place
    case NodeHere(NotANode) => (Unavailable, None)
    case NodeHere(Node(None, _, _, _)) => (Unavailable, Some("node_content_missing"))
    case NodeHere(Node(Some(_), _, omitted, dated)) =>
      (Observed, if omitted then Some("node_fields_omitted") else if dated then None else Some("node_time_missing"))
    case PartHere(Leaf(_, state, reason)) => (state, reason)
    case PartHere(ForwardPart(id)) =>
      if tooDeep then (Limited, Some("depth_limit"))
      else if id in around then (Limited, Some("forward_cycle"))
      else if id.None? then (Unavailable, Some("missing_forward_id"))
      else
        (match p.reply(path)
         case Fails(reason) => (Unavailable, Some(reason))
         case Nodes(nodes) =>
           if nodes == [] then (Unavailable, Some("forward_unavailable"))
           else if NotANode in nodes then (Limited, Some("invalid_node"))
           else (Expanded, None))
    case PartHere(NodePart(_, node)) =>
      if tooDeep then (Limited, Some("depth_limit"))
      else if node.NotANode? then (Limited, Some("invalid_node"))
      else (Expanded, None)
    case PartHere(_) => (Failed, Some("invalid_segment"))
  }

  function TextsAt(place: Place): seq<string> {
    if place.NodeHere? && place.node.Node? then place.node.texts else []
  }

  predicate HasContent(place: Place) {
    place.NodeHere? && place.node.Node? && place.node.content.Some?
  }

  ghost predicate Shows(p: Platform, l: Listed, place: Place, path: Path, around: set<Option<string>>) {
    && l.path == path && KindAt(place) == Some(l.kind)
    && (l.state, l.reason) == LookAt(p, place, path, around) && l.texts == TextsAt(place)
    && (l.elastic <==> HasContent(place))
  }

  // ---------------------------------------------------------------- all that is listed is there

  /** Where a listed item stands. */
  datatype Spot = Spot(rest: Path, place: Place, around: set<Option<string>>)

  ghost predicate StandsFor(
    p: Platform, parts: seq<Part>, prefix: Path, depth: nat, enclosing: set<Option<string>>, l: Listed, s: Spot)
  {
    && At(p, parts, prefix, depth, enclosing, s.rest, s.place, s.around)
    && Shows(p, l, s.place, prefix + s.rest, s.around)
  }

  lemma {:induction false} ListedIsThere(
    p: Platform, parts: seq<Part>, i: nat, prefix: Path, depth: nat, enclosing: set<Option<string>>, k: nat)
    returns (s: Spot)
    requires i <= |parts| && depth <= p.maxDepth && |prefix| == 2 * depth
    requires k < |Parts(p, parts, i, prefix, depth, enclosing)|
    ensures StandsFor(p, parts, prefix, depth, enclosing, Parts(p, parts, i, prefix, depth, enclosing)[k], s)
    decreases p.maxDepth - depth, 3, |parts| - i
  {
    var one := One(p, parts[i], prefix + [i], depth, enclosing);
    if k < |one| {
      s := OneIsThere(p, parts, i, prefix, depth, enclosing, k);
    } else {
      s := ListedIsThere(p, parts, i + 1, prefix, depth, enclosing, k - |one|);
    }
  }

  lemma {:induction false} OneIsThere(
    p: Platform, parts: seq<Part>, i: nat, prefix: Path, depth: nat, enclosing: set<Option<string>>, k: nat)
    returns (s: Spot)
    requires i < |parts| && depth <= p.maxDepth && |prefix| == 2 * depth
    requires k < |One(p, parts[i], prefix + [i], depth, enclosing)|
    ensures StandsFor(p, parts, prefix, depth, enclosing, One(p, parts[i], prefix + [i], depth, enclosing)[k], s)
    decreases p.maxDepth - depth, 2
  {
    if k == 0 {
      s := Spot([i], PartHere(parts[i]), enclosing);
      FirstIsThePart(p, parts[i], prefix + [i], depth, enclosing);
    } else {
      var nodes := Unfolded(p, parts[i], prefix + [i], depth, enclosing);
      OpensToItsNodes(p, parts[i], prefix + [i], depth, enclosing);
      s := EntryIsThere(p, parts, i, prefix, depth, enclosing, nodes, 0, k - 1);
    }
  }

  /** The first item of a part's listing shows the part. */
  lemma FirstIsThePart(p: Platform, part: Part, path: Path, depth: nat, enclosing: set<Option<string>>)
    requires depth <= p.maxDepth && |path| == 2 * depth + 1
    ensures KindAt(PartHere(part)).None? <==> One(p, part, path, depth, enclosing) == []
    ensures KindAt(PartHere(part)).Some? ==>
              Shows(p, One(p, part, path, depth, enclosing)[0], PartHere(part), path, enclosing)
  {
  }

  /** What follows it are the entries of the nodes it is opened to. */
  lemma OpensToItsNodes(p: Platform, part: Part, path: Path, depth: nat, enclosing: set<Option<string>>)
    requires depth <= p.maxDepth
    ensures var nodes, one := Unfolded(p, part, path, depth, enclosing), One(p, part, path, depth, enclosing);
            if nodes == [] then |one| <= 1
            else
              && depth < p.maxDepth && |one| >= 1
              && one[1..] == Entries(p, nodes, 0, path, depth, enclosing + {IdOf(part)})
  {
  }

  lemma {:induction false} EntryIsThere(
    p: Platform, parts: seq<Part>, i: nat, prefix: Path, depth: nat, enclosing: set<Option<string>>,
    nodes: seq<Node>, n: nat, k: nat)
    returns (s: Spot)
    requires i < |parts| && depth < p.maxDepth && |prefix| == 2 * depth && n <= |nodes|
    requires nodes == Unfolded(p, parts[i], prefix + [i], depth, enclosing)
    requires k < |Entries(p, nodes, n, prefix + [i], depth, enclosing + {IdOf(parts[i])})|
    ensures StandsFor(p, parts, prefix, depth, enclosing,
                      Entries(p, nodes, n, prefix + [i], depth, enclosing + {IdOf(parts[i])})[k], s)
    decreases p.maxDepth - depth, 1, |nodes| - n
  {
    var here, inner := prefix + [i], enclosing + {IdOf(parts[i])};
    var inside := Inside(p, nodes[n], here + [n], depth, inner, n, |nodes|);
    if |inside| <= k {
      s := EntryIsThere(p, parts, i, prefix, depth, enclosing, nodes, n + 1, k - |inside|);
    } else if k == 0 {
      s := Spot([i, n], NodeHere(nodes[n]), inner);
      assert prefix + [i, n] == here + [n];
    } else {
      var below := ListedIsThere(p, Content(nodes[n]), 0, here + [n], depth + 1, inner, k - 1);
      s := Spot([i, n] + below.rest, below.place, below.around);
      assert s.rest[2..] == below.rest;
      assert prefix + s.rest == here + [n] + below.rest;
    }
  }

  // ---------------------------------------------------------------- all that is there is listed

  lemma {:induction false} PlaceIsListed(
    p: Platform, parts: seq<Part>, i: nat, prefix: Path, depth: nat, enclosing: set<Option<string>>, s: Spot)
    returns (k: nat)
    requires i <= |parts| && depth <= p.maxDepth && |prefix| == 2 * depth
    requires At(p, parts, prefix, depth, enclosing, s.rest, s.place, s.around) && KindAt(s.place).Some?
    requires i <= s.rest[0]
    ensures var list := Parts(p, parts, i, prefix, depth, enclosing);
            k < |list| && Shows(p, list[k], s.place, prefix + s.rest, s.around)
    decreases p.maxDepth - depth, 3, |parts| - i
  {
    var one := One(p, parts[i], prefix + [i], depth, enclosing);
    if i < s.rest[0] {
      var later := PlaceIsListed(p, parts, i + 1, prefix, depth, enclosing, s);
      k := |one| + later;
    } else if |s.rest| == 1 {
      FirstIsThePart(p, parts[i], prefix + [i], depth, enclosing);
      assert s.rest == [i];
      k := 0;
    } else {
      var nodes := Unfolded(p, parts[i], prefix + [i], depth, enclosing);
      OpensToItsNodes(p, parts[i], prefix + [i], depth, enclosing);
      var entry := EntryIsListed(p, parts, i, prefix, depth, enclosing, nodes, 0, s);
      assert one[1..][entry] == one[1 + entry];
      k := 1 + entry;
    }
  }

  lemma {:induction false} EntryIsListed(
    p: Platform, parts: seq<Part>, i: nat, prefix: Path, depth: nat, enclosing: set<Option<string>>,
    nodes: seq<Node>, n: nat, s: Spot)
    returns (k: nat)
    requires i < |parts| && depth < p.maxDepth && |prefix| == 2 * depth && n <= |nodes|
    requires nodes == Unfolded(p, parts[i], prefix + [i], depth, enclosing)
    requires At(p, parts, prefix, depth, enclosing, s.rest, s.place, s.around) && KindAt(s.place).Some?
    requires |s.rest| >= 2 && s.rest[0] == i && n <= s.rest[1]
    ensures var list := Entries(p, nodes, n, prefix + [i], depth, enclosing + {IdOf(parts[i])});
            k < |list| && Shows(p, list[k], s.place, prefix + s.rest, s.around)
    decreases p.maxDepth - depth, 1, |nodes| - n
  {
    var here, inner := prefix + [i], enclosing + {IdOf(parts[i])};
    var inside := Inside(p, nodes[n], here + [n], depth, inner, n, |nodes|);
    if n < s.rest[1] {
      var later := EntryIsListed(p, parts, i, prefix, depth, enclosing, nodes, n + 1, s);
      k := |inside| + later;
    } else if |s.rest| == 2 {
      assert prefix + s.rest == here + [n];
      k := 0;
    } else {
      assert prefix + s.rest == here + [n] + s.rest[2..];
      var below := PlaceIsListed(p, Content(nodes[n]), 0, here + [n], depth + 1, inner,
                                 Spot(s.rest[2..], s.place, s.around));
      k := 1 + below;
    }
  }

  // ---------------------------------------------------------------- in path order

  predicate PartsWays(a: Path, b: Path, d: nat) {
    d <= |a| && d < |b| && a[..d] == b[..d] && (d == |a| || a[d] < b[d])
  }

  /** Path order: an item before what it encloses, and lower indices before higher ones. */
  ghost predicate Before(a: Path, b: Path) {
    exists d: nat :: PartsWays(a, b, d)
  }

  lemma NotBeforeItself(a: Path)
    ensures !Before(a, a)
  {
  }

  ghost predicate Sorted(list: seq<Listed>) {
    forall a, b :: 0 <= a < b < |list| ==> Before(list[a].path, list[b].path)
  }

  lemma JoinSorted(a: seq<Listed>, b: seq<Listed>, path: Path, i: nat)
    requires Sorted(a) && Sorted(b) && Under(a, path + [i]) && From(b, path, i + 1)
    ensures Sorted(a + b)
  {
    forall j, k | 0 <= j < |a| && 0 <= k < |b| ensures Before(a[j].path, b[k].path) {
      assert (path + [i])[|path|] == a[j].path[|path|];
      assert path == (path + [i])[..|path|] == a[j].path[..|path|];
      assert PartsWays(a[j].path, b[k].path, |path|);
    }
  }

  lemma CrownSorted(head: Listed, b: seq<Listed>)
    requires Sorted(b) && From(b, head.path, 0)
    ensures Sorted([head] + b)
  {
    forall k | 0 <= k < |b| ensures Before(head.path, b[k].path) {
      assert PartsWays(head.path, b[k].path, |head.path|);
    }
  }

  lemma {:induction false} PartsAreSorted(
    p: Platform, parts: seq<Part>, i: nat, prefix: Path, depth: nat, enclosing: set<Option<string>>)
    requires i <= |parts| && depth <= p.maxDepth && |prefix| == 2 * depth
    ensures Sorted(Parts(p, parts, i, prefix, depth, enclosing))
    decreases p.maxDepth - depth, 3, |parts| - i
  {
    if i < |parts| {
      OneIsSorted(p, parts[i], prefix + [i], depth, enclosing);
      PartsAreSorted(p, parts, i + 1, prefix, depth, enclosing);
      OneIsTidy(p, parts[i], prefix + [i], depth, enclosing);
      PartsAreTidy(p, parts, i + 1, prefix, depth, enclosing);
      JoinSorted(One(p, parts[i], prefix + [i], depth, enclosing),
                 Parts(p, parts, i + 1, prefix, depth, enclosing), prefix, i);
    }
  }

  lemma {:induction false} OneIsSorted(p: Platform, part: Part, path: Path, depth: nat, enclosing: set<Option<string>>)
    requires depth <= p.maxDepth && |path| == 2 * depth + 1
    ensures Sorted(One(p, part, path, depth, enclosing))
    decreases p.maxDepth - depth, 2
  {
    var one, nodes := One(p, part, path, depth, enclosing), Unfolded(p, part, path, depth, enclosing);
    OpensToItsNodes(p, part, path, depth, enclosing);
    if nodes != [] {
      FirstIsThePart(p, part, path, depth, enclosing);
      EntriesAreSorted(p, nodes, 0, path, depth, enclosing + {IdOf(part)});
      EntriesAreTidy(p, nodes, 0, path, depth, enclosing + {IdOf(part)});
      CrownSorted(one[0], one[1..]);
      assert one == [one[0]] + one[1..];
    }
  }

  lemma {:induction false} EntriesAreSorted(
    p: Platform, nodes: seq<Node>, n: nat, path: Path, depth: nat, enclosing: set<Option<string>>)
    requires n <= |nodes| && depth < p.maxDepth && |path| == 2 * depth + 1
    ensures Sorted(Entries(p, nodes, n, path, depth, enclosing))
    decreases p.maxDepth - depth, 1, |nodes| - n
  {
    if n < |nodes| {
      var inside := Inside(p, nodes[n], path + [n], depth, enclosing, n, |nodes|);
      if nodes[n].Node? {
        PartsAreSorted(p, Content(nodes[n]), 0, path + [n], depth + 1, enclosing);
        PartsAreTidy(p, Content(nodes[n]), 0, path + [n], depth + 1, enclosing);
        CrownSorted(Entry(path + [n], nodes[n]), Parts(p, Content(nodes[n]), 0, path + [n], depth + 1, enclosing));
      }
      InsideIsUnder(p, nodes[n], path + [n], depth, enclosing, n, |nodes|);
      EntriesAreSorted(p, nodes, n + 1, path, depth, enclosing);
      EntriesAreTidy(p, nodes, n + 1, path, depth, enclosing);
      JoinSorted(inside, Entries(p, nodes, n + 1, path, depth, enclosing), path, n);
    }
  }

  lemma InsideIsUnder(
    p: Platform, node: Node, path: Path, depth: nat, enclosing: set<Option<string>>, n: nat, count: nat)
    requires n < count && depth < p.maxDepth && |path| == 2 * depth + 2
    ensures Under(Inside(p, node, path, depth, enclosing, n, count), path)
  {
    if node.Node? {
      PartsAreTidy(p, Content(node), 0, path, depth + 1, enclosing);
    }
  }

  // ---------------------------------------------------------------- what is collected

  /** The place at a path of a message. */
  predicate StandsAt(p: Platform, parts: seq<Part>, s: Spot) {
    At(p, parts, [], 0, {}, s.rest, s.place, s.around)
  }

  /**
    The items are the places of the message, in path order and each of its kind.  A place that
    is missing comes after all of them, the list is full, and an item says that it was cut.
   */
  lemma CollectedIsTheTree(archive: MediaArchive, parts: seq<Part>)
    requires archive.Valid() && archive.listing == Parts(archive.platform, parts, 0, [], 0, {})
    ensures |archive.items| <= archive.maxItems
    ensures forall k :: 0 <= k < |archive.items| ==> Fits(archive, parts, archive.items[k])
    ensures forall a, b :: 0 <= a < b < |archive.items| ==> Before(archive.items[a].path, archive.items[b].path)
    ensures forall s :: StandsAt(archive.platform, parts, s) && KindAt(s.place).Some? ==>
              || (exists k :: 0 <= k < |archive.items| && archive.items[k].path == s.rest)
              || Dropped(archive, s)
  {
    PartsAreSorted(archive.platform, parts, 0, [], 0, {});
    forall k | 0 <= k < |archive.items|
      ensures archive.items[k].path == archive.listing[k].path && Fits(archive, parts, archive.items[k])
    {
      ItemFits(archive, parts, k);
    }
    forall s | StandsAt(archive.platform, parts, s) && KindAt(s.place).Some?
      ensures (exists k :: 0 <= k < |archive.items| && archive.items[k].path == s.rest) || Dropped(archive, s)
    {
      var k := PlaceIsListed(archive.platform, parts, 0, [], 0, {}, s);
      assert [] + s.rest == s.rest;
      if |archive.items| <= k {
        forall j | 0 <= j < |archive.items| ensures Before(archive.items[j].path, s.rest) {
          assert Before(archive.listing[j].path, archive.listing[k].path);
        }
      }
    }
  }

  /**
    The item shows some place of the message as it is, but for a node whose text ran out and an
    item that says there was more.
   */
  ghost predicate Fits(archive: MediaArchive, parts: seq<Part>, item: Item)
    reads archive
  {
    exists s :: StandsAt(archive.platform, parts, s) && ShownBy(archive, item, s)
  }

  ghost predicate ShownBy(archive: MediaArchive, item: Item, s: Spot)
    reads archive
  {
    && s.rest == item.path && KindAt(s.place) == Some(item.kind)
    && ((item.state, item.reason) == LookAt(archive.platform, s.place, item.path, s.around)
        || (HasContent(s.place) && item.state == Observed && item.reason == Some("node_fields_omitted"))
        || (item.reason == LIMIT && |archive.items| == archive.maxItems))
  }

  ghost predicate Dropped(archive: MediaArchive, s: Spot)
    reads archive
  {
    && |archive.items| == archive.maxItems
    && (forall k :: 0 <= k < |archive.items| ==> Before(archive.items[k].path, s.rest))
    && MarkedSomewhere(archive.items)
  }

  lemma ItemFits(archive: MediaArchive, parts: seq<Part>, k: nat)
    requires archive.Valid() && archive.listing == Parts(archive.platform, parts, 0, [], 0, {})
    requires k < |archive.items|
    ensures archive.items[k].path == archive.listing[k].path && Fits(archive, parts, archive.items[k])
  {
    assert AgreesAt(archive.items, archive.listing, k, archive.maxItems);
    var s := ListedIsThere(archive.platform, parts, 0, [], 0, {}, k);
    assert [] + s.rest == s.rest;
    assert ShownBy(archive, archive.items[k], s);
  }
}
