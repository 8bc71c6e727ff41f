/**
 * The procedural neighborhood around the player's town (`Core.MapGenerator` in Core.py).
 * The random draws are inputs: one suffix index per generated location and one
 * coin flip per pair of distinct locations. Coordinates are not modelled.
 */
module MapGenerator {
  import opened Wrappers
  import opened Values
  import StateManager

  /** The suffixes `create_random_location` chooses from. */
  const Suffixes: seq<string> := ["Park", "Square", "Plaza", "Statue", "Bridge", "Spot", "Street"]

  /** How many locations `generate_neighborhood` draws. */
  const Draws: nat := 10

  /** The most coin flips linking can consume: one per pair of at most seven locations. */
  const MaxFlips: nat := 21

  /** `create_random_location`: the town's name followed by the chosen suffix. */
  function LocationName(town: string, pick: nat): string
    requires pick < |Suffixes|
  {
    town + " " + Suffixes[pick]
  }

  /** `get_real_world_reference`: the description of a known landmark, if the name is one. */
  function RealWorldReference(name: string): Option<string> {
    if name == "Central Park" then Some("A large public park in NYC.")
    else if name == "Statue of Liberty" then Some("A colossal statue symbolizing freedom.")
    else None
  }

  /** A generated location: display name, description and the names it connects to. */
  datatype Node = Node(name: string, description: string, connectsTo: seq<string>)

  /** A neighborhood: its location names in dictionary order, and the node stored under each. */
  datatype Neighborhood = Neighborhood(keys: seq<string>, nodes: map<string, Node>)

  /** The node stored under a name before linking: the reference text for a landmark, otherwise the name and a filler description. */
  function NewNode(key: string): (n: Node)
    ensures RealWorldReference(key).Some? ==>
      n.name == RealWorldReference(key).value && n.description == RealWorldReference(key).value
    ensures RealWorldReference(key).None? ==>
      n.name == key && n.description == "A newly generated location called " + key + "."
    ensures n.connectsTo == []
  {
    var reference := RealWorldReference(key);
    Node(reference.GetOr(key), if reference.Some? then reference.value else "A newly generated location called " + key + ".", [])
  }

  predicate Distinct<T(==)>(s: seq<T>) {
    forall i, j | 0 <= i < j < |s| :: s[i] != s[j]
  }

  /** The names drawn, in draw order. */
  function DrawnNames(town: string, picks: seq<nat>): (names: seq<string>)
    requires forall i | 0 <= i < |picks| :: picks[i] < |Suffixes|
    ensures |names| == |picks|
    ensures forall i | 0 <= i < |picks| :: names[i] == LocationName(town, picks[i])
  {
    seq(|picks|, i requires 0 <= i < |picks| => LocationName(town, picks[i]))
  }

  /** The keys of a dictionary filled in the given order: each name once, at its first insertion. */
  function Dedup(xs: seq<string>): (r: seq<string>)
    ensures Distinct(r)
    ensures forall x :: x in r <==> x in xs
    ensures |xs| > 0 ==> |r| > 0
    decreases |xs|
  {
    if |xs| == 0 then []
    else
      var d := Dedup(xs[..|xs| - 1]);
      assert forall x :: x in xs <==> x in xs[..|xs| - 1] || x == xs[|xs| - 1];
      if xs[|xs| - 1] in d then d else d + [xs[|xs| - 1]]
  }

  /** `a` occurs in `xs` before the first occurrence of `b`. */
  ghost predicate DrawnBefore(xs: seq<string>, a: string, b: string) {
    exists d | 0 <= d < |xs| :: xs[d] == a && b !in xs[..d + 1]
  }

  /**
   * The keys keep the order of first drawing: of any two keys, the earlier one
   * was drawn before the later one was first drawn.
   */
  lemma {:induction false} DedupOrder(xs: seq<string>)
    ensures forall i, j | 0 <= i < j < |Dedup(xs)| :: DrawnBefore(xs, Dedup(xs)[i], Dedup(xs)[j])
    decreases |xs|
  {
    if |xs| > 0 {
      var p := xs[..|xs| - 1];
      DedupOrder(p);
      var dp := Dedup(p);
      var r := Dedup(xs);
      assert r == if xs[|xs| - 1] in dp then dp else dp + [xs[|xs| - 1]];
      forall i, j | 0 <= i < j < |r|
        ensures DrawnBefore(xs, r[i], r[j])
      {
        assert r[i] == dp[i];
        if j < |dp| {
          assert DrawnBefore(p, dp[i], dp[j]);
          var d :| 0 <= d < |p| && p[d] == dp[i] && dp[j] !in p[..d + 1];
          assert xs[..d + 1] == p[..d + 1];
          assert xs[d] == r[i] && r[j] !in xs[..d + 1];
        } else {
          assert r[j] == xs[|xs| - 1] && r[j] !in p;
          assert dp[i] in p;
          var d :| 0 <= d < |p| && p[d] == dp[i];
          assert xs[..d + 1] == p[..d + 1];
          assert forall y | y in p[..d + 1] :: y in p;
          assert xs[d] == r[i] && r[j] !in xs[..d + 1];
        }
      }
    }
  }

  /** A sequence without repeats drawn from a set is no longer than the set. */
  lemma {:induction false} DistinctBound(r: seq<nat>, s: set<nat>)
    requires Distinct(r)
    requires forall i | 0 <= i < |r| :: r[i] in s
    ensures |r| <= |s|
    decreases |r|
  {
    if |r| > 0 {
      var x := r[|r| - 1];
      DistinctBound(r[..|r| - 1], s - {x});
    }
  }

  /** The suffix indices below `n`. */
  function Below(n: nat): (r: set<nat>)
    ensures forall i: nat :: i in r <==> i < n
    ensures |r| == n
  {
    if n == 0 then {} else Below(n - 1) + {n - 1}
  }

  /** The suffix a drawn name was built from. */
  ghost function SuffixIndex(town: string, picks: seq<nat>, x: string): (i: nat)
    requires forall d | 0 <= d < |picks| :: picks[d] < |Suffixes|
    requires x in DrawnNames(town, picks)
    ensures i < |Suffixes| && x == LocationName(town, i)
  {
    var d :| 0 <= d < |picks| && DrawnNames(town, picks)[d] == x;
    picks[d]
  }

  /** Where row `i` of the pairwise linking pass starts in the flip sequence: rows `0..i-1` take `k-1`, `k-2`, ... flips. */
  function RowStart(k: nat, i: nat): nat
    requires i <= k
  {
    if i == 0 then 0 else RowStart(k, i - 1) + (k - i)
  }

  /** How many flips linking `k` locations consumes. */
  function FlipCount(k: nat): nat {
    RowStart(k, k)
  }

  lemma {:induction false} RowStartMono(k: nat, i: nat, j: nat)
    requires i <= j <= k
    ensures RowStart(k, i) <= RowStart(k, j)
    decreases j - i
  {
    if i < j {
      RowStartMono(k, i, j - 1);
    }
  }

  /** The position of the flip that decides the pair `x < y`. */
  function FlipIndex(k: nat, x: nat, y: nat): (p: nat)
    requires x < y < k
    ensures p < FlipCount(k)
  {
    RowStartMono(k, x + 1, k);
    RowStart(k, x) + (y - x - 1)
  }

  /** Whether the locations at positions `a` and `b` get linked. */
  predicate Linked(k: nat, flips: seq<bool>, a: nat, b: nat)
    requires a < k && b < k && a != b
    requires |flips| >= FlipCount(k)
  {
    if a < b then flips[FlipIndex(k, a, b)] else flips[FlipIndex(k, b, a)]
  }

  /** The linked neighbours of position `a` among positions `0..n-1`, in increasing position. */
  function Neighbours(keys: seq<string>, flips: seq<bool>, a: nat, n: nat): seq<string>
    requires a < |keys| && n <= |keys|
    requires |flips| >= FlipCount(|keys|)
    decreases n
  {
    if n == 0 then []
    else
      Neighbours(keys, flips, a, n - 1)
        + (if n - 1 != a && Linked(|keys|, flips, a, n - 1) then [keys[n - 1]] else [])
  }

  /** Which positions a node's list reflects while row `i` is at column `j`. */
  function Reached(a: nat, i: nat, j: nat, k: nat): nat {
    if a < i then k else if a == i then j else if a < j then i + 1 else i
  }

  /** While row `i` is at column `j`, every list holds the neighbours found so far. */
  ghost predicate LinksAt(keys: seq<string>, flips: seq<bool>, links: seq<seq<string>>, i: nat, j: nat)
    requires |flips| >= FlipCount(|keys|)
    requires i <= j <= |keys|
  {
    && |links| == |keys|
    && forall a | 0 <= a < |keys| :: links[a] == Neighbours(keys, flips, a, Reached(a, i, j, |keys|))
  }

  /** The pair `(i, j)` is decided by its flip. */
  function LinkPair(keys: seq<string>, flips: seq<bool>, links: seq<seq<string>>, i: nat, j: nat): seq<seq<string>>
    requires i < j < |keys| == |links|
    requires |flips| >= FlipCount(|keys|)
  {
    if flips[FlipIndex(|keys|, i, j)] then links[i := links[i] + [keys[j]]][j := links[j] + [keys[i]]] else links
  }

  /** Row `i` reaching column `j + 1` extends position `i`'s list by `j` when their flip is set. */
  lemma RowGrows(keys: seq<string>, flips: seq<bool>, i: nat, j: nat)
    requires |flips| >= FlipCount(|keys|)
    requires i < j < |keys|
    ensures Neighbours(keys, flips, i, j + 1)
         == Neighbours(keys, flips, i, j) + (if flips[FlipIndex(|keys|, i, j)] then [keys[j]] else [])
  {
    assert Linked(|keys|, flips, i, j) == flips[FlipIndex(|keys|, i, j)];
  }

  /** ... and extends position `j`'s list by `i` under the same flip. */
  lemma ColumnGrows(keys: seq<string>, flips: seq<bool>, i: nat, j: nat)
    requires |flips| >= FlipCount(|keys|)
    requires i < j < |keys|
    ensures Neighbours(keys, flips, j, i + 1)
         == Neighbours(keys, flips, j, i) + (if flips[FlipIndex(|keys|, i, j)] then [keys[i]] else [])
  {
    assert Linked(|keys|, flips, j, i) == flips[FlipIndex(|keys|, i, j)];
  }

  lemma LinkStep(keys: seq<string>, flips: seq<bool>, links: seq<seq<string>>, i: nat, j: nat)
    requires |flips| >= FlipCount(|keys|)
    requires i < j < |keys|
    requires LinksAt(keys, flips, links, i, j)
    ensures LinksAt(keys, flips, LinkPair(keys, flips, links, i, j), i, j + 1)
  {
    var k := |keys|;
    var after := LinkPair(keys, flips, links, i, j);
    RowGrows(keys, flips, i, j);
    ColumnGrows(keys, flips, i, j);
    forall a | 0 <= a < k
      ensures after[a] == Neighbours(keys, flips, a, Reached(a, i, j + 1, k))
    {
      if a == i {
        assert Reached(a, i, j + 1, k) == j + 1 && Reached(a, i, j, k) == j;
      } else if a == j {
        assert Reached(a, i, j + 1, k) == i + 1 && Reached(a, i, j, k) == i;
      } else {
        assert Reached(a, i, j + 1, k) == Reached(a, i, j, k);
        assert after[a] == links[a];
      }
    }
  }

  lemma RowEntry(keys: seq<string>, flips: seq<bool>, links: seq<seq<string>>, i: nat)
    requires |flips| >= FlipCount(|keys|)
    requires i < |keys|
    requires LinksAt(keys, flips, links, i, i)
    ensures LinksAt(keys, flips, links, i, i + 1)
  {
    assert Neighbours(keys, flips, i, i + 1) == Neighbours(keys, flips, i, i);
  }

  lemma LinksStart(keys: seq<string>, flips: seq<bool>)
    requires |flips| >= FlipCount(|keys|)
    ensures LinksAt(keys, flips, seq(|keys|, _ => []), 0, 0)
  {
  }

  lemma LinksDone(keys: seq<string>, flips: seq<bool>, links: seq<seq<string>>)
    requires |flips| >= FlipCount(|keys|)
    requires LinksAt(keys, flips, links, |keys|, |keys|)
    ensures |links| == |keys|
    ensures forall a | 0 <= a < |keys| :: links[a] == Neighbours(keys, flips, a, |keys|)
  {
  }

  lemma RowExit(keys: seq<string>, flips: seq<bool>, links: seq<seq<string>>, i: nat)
    requires |flips| >= FlipCount(|keys|)
    requires i < |keys|
    requires LinksAt(keys, flips, links, i, |keys|)
    ensures LinksAt(keys, flips, links, i + 1, i + 1)
  {
  }

  /**
   * `link_neighborhood_locations`: for every pair of positions `i < j`, in order,
   * one flip decides whether each is appended to the other's list.
   */
  method LinkNeighborhood(keys: seq<string>, flips: seq<bool>) returns (links: seq<seq<string>>)
    requires |flips| >= FlipCount(|keys|)
    ensures |links| == |keys|
    ensures forall a | 0 <= a < |keys| :: links[a] == Neighbours(keys, flips, a, |keys|)
  {
    var k := |keys|;
    links := seq(k, _ => []);
    LinksStart(keys, flips);
    var c := 0;
    var i := 0;
    while i < k
      invariant 0 <= i <= k
      invariant c == RowStart(k, i)
      invariant LinksAt(keys, flips, links, i, i)
    {
      RowEntry(keys, flips, links, i);
      links, c := LinkRow(keys, flips, links, i, c);
      RowExit(keys, flips, links, i);
      i := i + 1;
    }
    LinksDone(keys, flips, links);
  }

  /** One row of the linking pass: position `i` against every later position, consuming one flip each. */
  method LinkRow(keys: seq<string>, flips: seq<bool>, links0: seq<seq<string>>, i: nat, c0: nat)
    returns (links: seq<seq<string>>, c: nat)
    requires |flips| >= FlipCount(|keys|)
    requires i < |keys|
    requires c0 == RowStart(|keys|, i)
    requires LinksAt(keys, flips, links0, i, i + 1)
    ensures LinksAt(keys, flips, links, i, |keys|)
    ensures c == RowStart(|keys|, i + 1)
  {
    var k := |keys|;
    links, c := links0, c0;
    var j := i + 1;
    while j < k
      invariant i + 1 <= j <= k
      invariant c == RowStart(k, i) + (j - i - 1)
      invariant LinksAt(keys, flips, links, i, j)
    {
      assert c == FlipIndex(k, i, j);
      ghost var before := links;
      LinkStep(keys, flips, before, i, j);
      if flips[c] {
        links := links[i := links[i] + [keys[j]]][j := links[j] + [keys[i]]];
      }
      assert links == LinkPair(keys, flips, before, i, j);
      c := c + 1;
      j := j + 1;
    }
  }

  /** Membership in a neighbour list, for distinct keys: exactly the linked positions below `n`. */
  lemma {:induction false} NeighboursMember(keys: seq<string>, flips: seq<bool>, a: nat, n: nat, b: nat)
    requires Distinct(keys)
    requires a < |keys| && n <= |keys| && b < |keys|
    requires |flips| >= FlipCount(|keys|)
    ensures keys[b] in Neighbours(keys, flips, a, n) <==> b < n && b != a && Linked(|keys|, flips, a, b)
    decreases n
  {
    if n > 0 {
      NeighboursMember(keys, flips, a, n - 1, b);
    }
  }

  /** Every neighbour is one of the keys. */
  lemma {:induction false} NeighboursAreKeys(keys: seq<string>, flips: seq<bool>, a: nat, n: nat)
    requires a < |keys| && n <= |keys|
    requires |flips| >= FlipCount(|keys|)
    ensures forall y | y in Neighbours(keys, flips, a, n) :: exists b | 0 <= b < n :: y == keys[b]
    decreases n
  {
    if n > 0 {
      NeighboursAreKeys(keys, flips, a, n - 1);
    }
  }

  /** A neighbour list has no repeats. */
  lemma {:induction false} NeighboursDistinct(keys: seq<string>, flips: seq<bool>, a: nat, n: nat)
    requires Distinct(keys)
    requires a < |keys| && n <= |keys|
    requires |flips| >= FlipCount(|keys|)
    ensures Distinct(Neighbours(keys, flips, a, n))
    decreases n
  {
    if n > 0 {
      NeighboursDistinct(keys, flips, a, n - 1);
      NeighboursMember(keys, flips, a, n - 1, n - 1);
    }
  }

  /** Links go both ways. */
  ghost predicate Symmetric(nodes: map<string, Node>) {
    forall x, y | x in nodes && y in nodes :: y in nodes[x].connectsTo <==> x in nodes[y].connectsTo
  }

  /** No location links to itself. */
  ghost predicate Irreflexive(nodes: map<string, Node>) {
    forall x | x in nodes :: x !in nodes[x].connectsTo
  }

  /** Every listed neighbour is a location of the neighborhood, listed once. */
  ghost predicate WellLinked(nodes: map<string, Node>) {
    forall x | x in nodes :: Distinct(nodes[x].connectsTo) && forall y | y in nodes[x].connectsTo :: y in nodes
  }

  /** The position of a key; with distinct keys, the only one. */
  function IndexOf(keys: seq<string>, x: string): (a: nat)
    requires x in keys
    ensures a < |keys| && keys[a] == x
  {
    if keys[|keys| - 1] == x then |keys| - 1 else IndexOf(keys[..|keys| - 1], x)
  }

  /** The linked node stored under key `x`. */
  function LinkedNode(keys: seq<string>, flips: seq<bool>, x: string): Node
    requires x in keys
    requires |flips| >= FlipCount(|keys|)
  {
    NewNode(x).(connectsTo := Neighbours(keys, flips, IndexOf(keys, x), |keys|))
  }

  /** `hood` is what generation from these draws yields: the deduplicated drawn names, each with its linked node. */
  ghost predicate GeneratedFrom(hood: Neighborhood, town: string, picks: seq<nat>, flips: seq<bool>)
    requires forall i | 0 <= i < |picks| :: picks[i] < |Suffixes|
    requires |flips| >= MaxFlips
  {
    KeysBound(town, picks);
    && hood.keys == Dedup(DrawnNames(town, picks))
    && (forall x :: x in hood.nodes <==> x in hood.keys)
    && (forall x | x in hood.nodes :: hood.nodes[x] == LinkedNode(hood.keys, flips, x))
  }

  /** At most seven distinct names can be drawn, so at most 21 flips are consumed. */
  lemma KeysBound(town: string, picks: seq<nat>)
    requires forall i | 0 <= i < |picks| :: picks[i] < |Suffixes|
    ensures |Dedup(DrawnNames(town, picks))| <= |Suffixes|
    ensures FlipCount(|Dedup(DrawnNames(town, picks))|) <= MaxFlips
  {
    var keys := Dedup(DrawnNames(town, picks));
    var indices := seq(|keys|, p requires 0 <= p < |keys| => SuffixIndex(town, picks, keys[p]));
    assert forall p | 0 <= p < |keys| :: keys[p] == LocationName(town, indices[p]);
    DistinctBound(indices, Below(|Suffixes|));
    FlipsBound(|keys|);
  }

  /** Linking at most seven locations consumes at most 21 flips. */
  lemma FlipsBound(k: nat)
    requires k <= |Suffixes|
    ensures FlipCount(k) <= MaxFlips
  {
    assert k == 0 || k == 1 || k == 2 || k == 3 || k == 4 || k == 5 || k == 6 || k == 7;
    assert FlipCount(7) == 21;
  }

  /** The keys of a generated neighborhood: between one and seven distinct drawn names, every drawn name among them. */
  lemma GeneratedKeys(town: string, picks: seq<nat>)
    requires |picks| == Draws
    requires forall i | 0 <= i < |picks| :: picks[i] < |Suffixes|
    ensures var keys := Dedup(DrawnNames(town, picks));
      && 1 <= |keys| <= |Suffixes|
      && (forall d | 0 <= d < |picks| :: LocationName(town, picks[d]) in keys)
      && (forall x | x in keys :: exists d | 0 <= d < |picks| :: x == LocationName(town, picks[d]))
  {
    KeysBound(town, picks);
    var names := DrawnNames(town, picks);
    var keys := Dedup(names);
    forall d | 0 <= d < |picks|
      ensures LocationName(town, picks[d]) in keys
    {
      assert names[d] in names;
    }
    forall x | x in keys
      ensures exists d | 0 <= d < |picks| :: x == LocationName(town, picks[d])
    {
      assert x in names;
      var d :| 0 <= d < |names| && names[d] == x;
      assert x == LocationName(town, picks[d]);
    }
  }

  /**
   * `generate_neighborhood`: draw ten names (repeats collapse into one entry, so
   * between one and seven locations remain), give each its reference or filler
   * node, then link the pairs whose flip came up.
   */
  method GenerateNeighborhood(town: string, picks: seq<nat>, flips: seq<bool>) returns (hood: Neighborhood)
    requires |picks| == Draws
    requires forall i | 0 <= i < |picks| :: picks[i] < |Suffixes|
    requires |flips| >= MaxFlips
    ensures 1 <= |hood.keys| <= |Suffixes|
    ensures FlipCount(|hood.keys|) <= MaxFlips
    ensures Distinct(hood.keys)
    ensures forall x :: x in hood.nodes <==> x in hood.keys
    ensures forall d | 0 <= d < |picks| :: LocationName(town, picks[d]) in hood.nodes
    ensures forall x | x in hood.nodes :: exists d | 0 <= d < |picks| :: x == LocationName(town, picks[d])
    ensures forall x | x in hood.nodes ::
      hood.nodes[x].name == NewNode(x).name && hood.nodes[x].description == NewNode(x).description
    ensures Symmetric(hood.nodes) && Irreflexive(hood.nodes) && WellLinked(hood.nodes)
    ensures forall a, b | 0 <= a < b < |hood.keys| ::
      hood.keys[b] in hood.nodes[hood.keys[a]].connectsTo <==> flips[FlipIndex(|hood.keys|, a, b)]
    ensures GeneratedFrom(hood, town, picks, flips)
  {
    KeysBound(town, picks);
    var keys := Dedup(DrawnNames(town, picks));
    var links := LinkNeighborhood(keys, flips);
    hood := Neighborhood(keys, AttachLinks(keys, links));
    SameNodes(keys, flips, links);
    GeneratedProperties(town, picks, flips, hood);
  }

  /** The dictionary of nodes, each carrying its computed neighbour list. */
  function AttachLinks(keys: seq<string>, links: seq<seq<string>>): (nodes: map<string, Node>)
    requires |links| == |keys|
    ensures forall x :: x in nodes <==> x in keys
    ensures forall x | x in nodes :: nodes[x] == NewNode(x).(connectsTo := links[IndexOf(keys, x)])
  {
    map x | x in keys :: NewNode(x).(connectsTo := links[IndexOf(keys, x)])
  }

  lemma SameNodes(keys: seq<string>, flips: seq<bool>, links: seq<seq<string>>)
    requires |flips| >= FlipCount(|keys|)
    requires |links| == |keys|
    requires forall a | 0 <= a < |keys| :: links[a] == Neighbours(keys, flips, a, |keys|)
    ensures forall x | x in AttachLinks(keys, links) :: AttachLinks(keys, links)[x] == LinkedNode(keys, flips, x)
  {
    var nodes := AttachLinks(keys, links);
    forall x | x in nodes
      ensures nodes[x] == LinkedNode(keys, flips, x)
    {
      var a := IndexOf(keys, x);
      assert links[a] == Neighbours(keys, flips, a, |keys|);
    }
  }

  /** Everything a generated neighborhood satisfies. */
  lemma GeneratedProperties(town: string, picks: seq<nat>, flips: seq<bool>, hood: Neighborhood)
    requires |picks| == Draws
    requires forall i | 0 <= i < |picks| :: picks[i] < |Suffixes|
    requires |flips| >= MaxFlips
    requires GeneratedFrom(hood, town, picks, flips)
    ensures 1 <= |hood.keys| <= |Suffixes|
    ensures FlipCount(|hood.keys|) <= MaxFlips
    ensures Distinct(hood.keys)
    ensures forall d | 0 <= d < |picks| :: LocationName(town, picks[d]) in hood.nodes
    ensures forall x | x in hood.nodes :: exists d | 0 <= d < |picks| :: x == LocationName(town, picks[d])
    ensures forall x | x in hood.nodes ::
      hood.nodes[x].name == NewNode(x).name && hood.nodes[x].description == NewNode(x).description
    ensures Symmetric(hood.nodes) && Irreflexive(hood.nodes) && WellLinked(hood.nodes)
    ensures forall a, b | 0 <= a < b < |hood.keys| ::
      hood.keys[b] in hood.nodes[hood.keys[a]].connectsTo <==> flips[FlipIndex(|hood.keys|, a, b)]
  {
    KeysBound(town, picks);
    GeneratedKeys(town, picks);
    LinkProperties(hood.keys, flips, hood.nodes);
  }

  lemma LinkProperties(keys: seq<string>, flips: seq<bool>, nodes: map<string, Node>)
    requires Distinct(keys)
    requires |flips| >= FlipCount(|keys|)
    requires forall x :: x in nodes <==> x in keys
    requires forall x | x in nodes :: nodes[x] == LinkedNode(keys, flips, x)
    ensures Symmetric(nodes) && Irreflexive(nodes) && WellLinked(nodes)
    ensures forall a, b | 0 <= a < b < |keys| :: keys[b] in nodes[keys[a]].connectsTo <==> flips[FlipIndex(|keys|, a, b)]
    ensures forall x | x in nodes :: nodes[x].name == NewNode(x).name && nodes[x].description == NewNode(x).description
  {
    var k := |keys|;
    forall x, y | x in nodes && y in nodes
      ensures y in nodes[x].connectsTo <==> x in nodes[y].connectsTo
    {
      var a, b := IndexOf(keys, x), IndexOf(keys, y);
      NeighboursMember(keys, flips, a, k, b);
      NeighboursMember(keys, flips, b, k, a);
    }
    forall x | x in nodes
      ensures x !in nodes[x].connectsTo
      ensures Distinct(nodes[x].connectsTo) && forall y | y in nodes[x].connectsTo :: y in nodes
    {
      var a := IndexOf(keys, x);
      NeighboursMember(keys, flips, a, k, a);
      NeighboursDistinct(keys, flips, a, k);
      NeighboursAreKeys(keys, flips, a, k);
    }
    forall a, b | 0 <= a < b < k
      ensures keys[b] in nodes[keys[a]].connectsTo <==> flips[FlipIndex(k, a, b)]
    {
      assert IndexOf(keys, keys[a]) == a;
      NeighboursMember(keys, flips, a, k, b);
    }
  }

  /** A name from the reference table can only be generated as "Central Park", from the town "Central". */
  lemma ReferenceOnlyForCentralPark(town: string, pick: nat)
    requires pick < |Suffixes|
    ensures RealWorldReference(LocationName(town, pick)).Some? <==> town == "Central" && pick == 0
  {
    var name := LocationName(town, pick);
    var s := Suffixes[pick];
    assert name[|name| - |s|..] == s;
    if name == "Central Park" {
      assert s == "Central Park"[12 - |s|..];
      assert pick == 0;
      assert town == name[..|town|] == "Central Park"[..7];
    }
  }

  /**
   * The node stored for a generated name: Central Park takes the reference text
   * as both its name and its description; every other generated location keeps
   * its own name and gets the filler description.
   */
  lemma GeneratedNodeText(town: string, pick: nat)
    requires pick < |Suffixes|
    ensures town == "Central" && pick == 0 ==>
      NewNode(LocationName(town, pick)) == Node("A large public park in NYC.", "A large public park in NYC.", [])
    ensures !(town == "Central" && pick == 0) ==>
      var name := LocationName(town, pick);
      NewNode(name) == Node(name, "A newly generated location called " + name + ".", [])
  {
    ReferenceOnlyForCentralPark(town, pick);
  }

  /** The radius the map generator's own profile starts with, in meters. */
  const InitialRadius: int := 2000

  /** The default `increment` of `expand_neighborhood`. */
  const DefaultIncrement: int := 500

  /** The map generator's state: the radius, the current town and its neighborhood. */
  datatype MapState = MapState(radius: int, town: string, neighborhood: Neighborhood)

  /** A map generator for a town, before its neighborhood is generated. */
  function InitialMap(town: string): MapState {
    MapState(InitialRadius, town, Neighborhood([], map[]))
  }

  /**
   * `expand_neighborhood`: the radius grows by `increment` and the neighborhood is
   * regenerated from scratch, discarding the old one.
   */
  method ExpandNeighborhood(s: MapState, increment: Option<int>, picks: seq<nat>, flips: seq<bool>) returns (r: MapState)
    requires |picks| == Draws
    requires forall i | 0 <= i < |picks| :: picks[i] < |Suffixes|
    requires |flips| >= MaxFlips
    ensures r.radius == s.radius + increment.GetOr(DefaultIncrement)
    ensures r.town == s.town
    ensures GeneratedFrom(r.neighborhood, s.town, picks, flips)
  {
    var hood := GenerateNeighborhood(s.town, picks, flips);
    r := MapState(s.radius + increment.GetOr(DefaultIncrement), s.town, hood);
  }

  /** `expand_neighborhood` as written: it reads the radius from the game's profile, raising when the key is absent. */
  function ExpandRadiusAsWritten(profile: StateManager.Profile, increment: int): (r: Result<Value>)
    ensures "radius" !in profile ==> r == Failure(KeyError("radius"))
    ensures "radius" in profile && IsNumber(profile["radius"]) ==>
      r.Success? && IsNumber(r.value) && NumVal(r.value) == NumVal(profile["radius"]) + increment as real
  {
    if "radius" !in profile then Failure(KeyError("radius"))
    else if IsNumber(profile["radius"]) then Success(AddInt(profile["radius"], increment))
    else Failure(TypeError)
  }

  /** The game's profile has no radius, so expanding the neighborhood always raises. */
  lemma ExpandRaisesOnGameProfile(increment: int)
    ensures ExpandRadiusAsWritten(StateManager.InitialProfile, increment) == Failure(KeyError("radius"))
  {
  }

  /** No update through the state manager adds a radius, so every profile the game reaches lacks one. */
  lemma {:induction false} UpdatesNeverAddRadius(m: StateManager.Manager, us: seq<map<string, Value>>)
    requires |m.history| <= StateManager.MaxHistory
    requires "radius" !in m.profile
    ensures "radius" !in StateManager.UpdateAll(m, us).profile
    ensures forall increment: int :: ExpandRadiusAsWritten(StateManager.UpdateAll(m, us).profile, increment) == Failure(KeyError("radius"))
    decreases |us|
  {
    if |us| > 0 {
      UpdatesNeverAddRadius(StateManager.Update(m, us[0]).0, us[1..]);
    }
  }
}
