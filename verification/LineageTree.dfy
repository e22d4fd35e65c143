/**
 * "Where did this card come from, and what came out of it?" The tree of one card, drawn from
 * recorded source pointers that may dangle, point at themselves, or form cycles.
 */
module LineageTree {
  import opened Basics
  import opened Ordering

  /** `job` is the paid press that made the card; `batchSize` and `batchIndex` what that press recorded. */
  datatype Card = Card(
    id: string, madeFrom: Option<string>, job: Option<string>, batchSize: Option<int>, batchIndex: Option<int>)

  datatype Origin = NotRecorded | OnBoard | OffBoard

  /** Depth is how far down the drawn chain a row sits. */
  datatype Row = Row(id: string, depth: nat)

  datatype Batch = Batch(size: nat, rows: seq<Row>)

  datatype Tree = Tree(origin: Origin, chain: seq<Row>, descendants: seq<Row>, batch: Option<Batch>)

  // ── The board ──────────────────────────

  /** Card ids are the rows' primary keys. */
  ghost predicate DistinctIds(cards: seq<Card>) {
    forall i, j | 0 <= i < j < |cards| :: cards[i].id != cards[j].id
  }

  predicate OnBoardId(cards: seq<Card>, id: string) {
    exists i :: 0 <= i < |cards| && cards[i].id == id
  }

  function CardAt(cards: seq<Card>, id: string): (c: Card)
    requires OnBoardId(cards, id)
    ensures c in cards && c.id == id
  {
    if cards[0].id == id then cards[0] else CardAt(cards[1..], id)
  }

  /** The recorded source, when it is another card of this board. */
  function SourceOf(cards: seq<Card>, c: Card): Option<string> {
    if c.madeFrom.None? || c.madeFrom.value == "" || c.madeFrom.value == c.id || !OnBoardId(cards, c.madeFrom.value)
    then None else c.madeFrom
  }

  function ParentOf(cards: seq<Card>, id: string): Option<string> {
    if OnBoardId(cards, id) then SourceOf(cards, CardAt(cards, id)) else None
  }

  lemma {:induction false} CardAtIndex(cards: seq<Card>, i: nat)
    requires DistinctIds(cards) && i < |cards|
    ensures OnBoardId(cards, cards[i].id) && CardAt(cards, cards[i].id) == cards[i]
  {
    if i > 0 {
      assert DistinctIds(cards[1..]) by {
        forall a, b | 0 <= a < b < |cards[1..]| ensures cards[1..][a].id != cards[1..][b].id {
          assert cards[a + 1].id != cards[b + 1].id;
        }
      }
      CardAtIndex(cards[1..], i - 1);
      assert cards[1..][i - 1] == cards[i];
    }
  }

  // ── Up: the chain ──────────────────────

  ghost predicate Distinct(ids: seq<string>) {
    forall i, j | 0 <= i < j < |ids| :: ids[i] != ids[j]
  }

  /** A repeat-free recorded path, oldest first, that ends with `focus`. */
  ghost predicate PathTo(cards: seq<Card>, path: seq<string>, focus: string) {
    && path != [] && path[|path| - 1] == focus
    && Distinct(path)
    && forall i | 0 <= i < |path| - 1 :: ParentOf(cards, path[i + 1]) == Some(path[i])
  }

  /** …that cannot be continued upwards without repeating itself. */
  ghost predicate IsChain(cards: seq<Card>, path: seq<string>, focus: string) {
    && PathTo(cards, path, focus)
    && (ParentOf(cards, path[0]).None? || ParentOf(cards, path[0]).value in path)
  }

  function OriginOf(cards: seq<Card>, focus: Card): Origin {
    if focus.madeFrom.None? || focus.madeFrom.value == "" || focus.madeFrom.value == focus.id then NotRecorded
    else if OnBoardId(cards, focus.madeFrom.value) then OnBoard
    else OffBoard
  }

  lemma {:induction false} SameFromTheEnd(cards: seq<Card>, p: seq<string>, q: seq<string>, focus: string, j: nat)
    requires PathTo(cards, p, focus) && PathTo(cards, q, focus) && j < |p| && j < |q|
    ensures p[|p| - 1 - j] == q[|q| - 1 - j]
  {
    if j > 0 {
      SameFromTheEnd(cards, p, q, focus, j - 1);
      assert ParentOf(cards, p[|p| - 1 - (j - 1)]) == Some(p[|p| - 1 - j]);
      assert ParentOf(cards, q[|q| - 1 - (j - 1)]) == Some(q[|q| - 1 - j]);
    }
  }

  lemma ChainIsLongest(cards: seq<Card>, p: seq<string>, q: seq<string>, focus: string)
    requires IsChain(cards, p, focus) && PathTo(cards, q, focus)
    ensures |q| <= |p|
  {
    if |p| < |q| {
      var top := |q| - 1 - (|p| - 1);
      SameFromTheEnd(cards, p, q, focus, |p| - 1);
      assert ParentOf(cards, q[top]) == Some(q[top - 1]);
      var i :| 0 <= i < |p| && p[i] == q[top - 1];
      SameFromTheEnd(cards, p, q, focus, |p| - 1 - i);
      assert false;
    }
  }

  /** There is exactly one such chain, and it is the longest repeat-free path. */
  lemma ChainIsUnique(cards: seq<Card>, p: seq<string>, q: seq<string>, focus: string)
    requires IsChain(cards, p, focus) && IsChain(cards, q, focus)
    ensures p == q
  {
    ChainIsLongest(cards, p, q, focus);
    ChainIsLongest(cards, q, p, focus);
    forall i | 0 <= i < |p| ensures p[i] == q[i] {
      SameFromTheEnd(cards, p, q, focus, |p| - 1 - i);
    }
  }

  function Ids(cards: seq<Card>): set<string> {
    set i | 0 <= i < |cards| :: cards[i].id
  }

  /** The walk up. */
  method AncestorChain(cards: seq<Card>, focus: Card) returns (chain: seq<string>, origin: Origin)
    requires DistinctIds(cards) && focus in cards
    ensures IsChain(cards, chain, focus.id) && origin == OriginOf(cards, focus)
  {
    var at :| 0 <= at < |cards| && cards[at] == focus;
    CardAtIndex(cards, at);
    var ancestors: seq<string> := [];
    var walked := {focus.id};
    origin := NotRecorded;
    var cursor := focus;
    while true
      invariant var path := ancestors + [focus.id]; PathTo(cards, path, focus.id) && path[0] == cursor.id
      invariant forall id :: id in walked <==> id in ancestors + [focus.id]
      invariant OnBoardId(cards, cursor.id) && CardAt(cards, cursor.id) == cursor
      invariant origin == if ancestors == [] then NotRecorded else OriginOf(cards, focus)
      invariant cursor.id == focus.id <==> ancestors == []
      decreases Ids(cards) - walked
    {
      if cursor.madeFrom.None? || cursor.madeFrom.value == "" || cursor.madeFrom.value == cursor.id {
        break;
      }
      var sourceId := cursor.madeFrom.value;
      if !OnBoardId(cards, sourceId) {
        if cursor.id == focus.id {
          origin := OffBoard;
        }
        break;
      }
      if cursor.id == focus.id {
        origin := OnBoard;
      }
      if sourceId in walked {
        break;
      }
      var source := CardAt(cards, sourceId);
      var k :| 0 <= k < |cards| && cards[k].id == sourceId;
      assert sourceId in Ids(cards);
      ghost var path := ancestors + [focus.id];
      walked := walked + {sourceId};
      ancestors := [sourceId] + ancestors;
      assert ancestors + [focus.id] == [sourceId] + path;
      cursor := source;
    }
    chain := ancestors + [focus.id];
  }

  // ── Down: what the card made ───────────

  /** `k` recorded steps up from `id`, the first time the focus is met. */
  ghost predicate Descends(cards: seq<Card>, id: string, focus: string, k: nat)
    decreases k
  {
    if k == 0 then id == focus
    else id != focus && ParentOf(cards, id).Some? && Descends(cards, ParentOf(cards, id).value, focus, k - 1)
  }

  lemma {:induction false} DistanceUnique(cards: seq<Card>, id: string, focus: string, k: nat, m: nat)
    requires Descends(cards, id, focus, k) && Descends(cards, id, focus, m)
    ensures k == m
    decreases k
  {
    if k > 0 && m > 0 {
      DistanceUnique(cards, ParentOf(cards, id).value, focus, k - 1, m - 1);
    }
  }

  /** `k` recorded steps up from `id` to `parent`, without passing the focus on the way. */
  ghost predicate Through(cards: seq<Card>, focus: string, id: string, parent: string, k: nat)
    decreases k
  {
    if k == 0 then id == parent
    else id != focus && ParentOf(cards, id).Some? && Through(cards, focus, ParentOf(cards, id).value, parent, k - 1)
  }

  lemma {:induction false} ThroughDescends(cards: seq<Card>, focus: string, id: string, parent: string, k: nat, d: nat)
    requires Through(cards, focus, id, parent, k) && Descends(cards, parent, focus, d)
    ensures Descends(cards, id, focus, d + k)
    decreases k
  {
    if k > 0 {
      ThroughDescends(cards, focus, ParentOf(cards, id).value, parent, k - 1, d);
    }
  }

  /** The last step up comes from a child of the parent. */
  lemma {:induction false} ThroughChild(cards: seq<Card>, focus: string, id: string, parent: string,
                                        k: nat) returns (child: string)
    requires Through(cards, focus, id, parent, k + 1)
    ensures ParentOf(cards, child) == Some(parent) && child != focus && Through(cards, focus, id, child, k)
    decreases k
  {
    if k == 0 {
      child := id;
    } else {
      child := ThroughChild(cards, focus, ParentOf(cards, id).value, parent, k - 1);
    }
  }

  lemma {:induction false} ThroughExtends(cards: seq<Card>, focus: string, id: string, child: string,
                                          parent: string, k: nat)
    requires Through(cards, focus, id, child, k) && ParentOf(cards, child) == Some(parent) && child != focus
    ensures Through(cards, focus, id, parent, k + 1)
    decreases k
  {
    if k == 0 {
      assert Through(cards, focus, parent, parent, 0);
    } else {
      ThroughExtends(cards, focus, ParentOf(cards, id).value, child, parent, k - 1);
    }
  }

  /** A card sits below one child only. */
  lemma {:induction false} SameDistanceSameNode(cards: seq<Card>, focus: string, id: string, a: string, b: string,
                                                k: nat)
    requires Through(cards, focus, id, a, k) && Through(cards, focus, id, b, k)
    ensures a == b
    decreases k
  {
    if k > 0 {
      SameDistanceSameNode(cards, focus, ParentOf(cards, id).value, a, b, k - 1);
    }
  }

  lemma {:induction false} ThroughFocusIsDescends(cards: seq<Card>, focus: string, id: string, k: nat)
    ensures Through(cards, focus, id, focus, k) <==> Descends(cards, id, focus, k)
    decreases k
  {
    if k > 0 && ParentOf(cards, id).Some? {
      ThroughFocusIsDescends(cards, focus, ParentOf(cards, id).value, k - 1);
    }
  }

  lemma CardOnBoard(cards: seq<Card>, c: Card)
    requires DistinctIds(cards) && c in cards
    ensures OnBoardId(cards, c.id) && CardAt(cards, c.id) == c
  {
    var i :| 0 <= i < |cards| && cards[i] == c;
    CardAtIndex(cards, i);
  }

  // ── Children in drawing order ──────────

  function ChildrenIn(cards: seq<Card>, part: seq<Card>, parent: string): seq<Card> {
    if part == [] then []
    else
      var last := part[|part| - 1];
      ChildrenIn(cards, part[..|part| - 1], parent) + (if SourceOf(cards, last) == Some(parent) then [last] else [])
  }

  lemma {:induction false} ChildrenInMembers(cards: seq<Card>, part: seq<Card>, parent: string)
    ensures forall c :: c in ChildrenIn(cards, part, parent) <==> c in part && SourceOf(cards, c) == Some(parent)
  {
    if part != [] {
      ChildrenInMembers(cards, part[..|part| - 1], parent);
      assert part == part[..|part| - 1] + [part[|part| - 1]];
    }
  }

  /** Recorded batch position first, then id by the runtime's collation. */
  function Less(before: (string, string) -> bool): (Card, Card) -> bool {
    (l: Card, r: Card) =>
      GetOr(l.batchIndex, 0) < GetOr(r.batchIndex, 0)
      || (GetOr(l.batchIndex, 0) == GetOr(r.batchIndex, 0) && before(l.id, r.id))
  }

  ghost predicate Collates(before: (string, string) -> bool) {
    Asymmetric(before) && NegTransitive(before)
  }

  lemma LessIsAnOrder(before: (string, string) -> bool)
    requires Collates(before)
    ensures Asymmetric(Less(before)) && NegTransitive(Less(before))
  {
    forall a, b ensures Less(before)(a, b) ==> !Less(before)(b, a) {
      assert before(a.id, b.id) ==> !before(b.id, a.id);
    }
    forall a: Card, b: Card, c: Card | !Less(before)(a, b) && !Less(before)(b, c) ensures !Less(before)(a, c) {
      assert !before(a.id, b.id) && !before(b.id, c.id) ==> !before(a.id, c.id);
    }
  }

  function ChildrenOf(cards: seq<Card>, before: (string, string) -> bool, parent: string): seq<Card> {
    Sort(Less(before), ChildrenIn(cards, cards, parent))
  }

  lemma ChildrenOfMembers(cards: seq<Card>, before: (string, string) -> bool, parent: string)
    requires DistinctIds(cards)
    ensures forall c :: c in ChildrenOf(cards, before, parent) <==> c in cards && ParentOf(cards, c.id) == Some(parent)
  {
    SortKeepsElements(Less(before), ChildrenIn(cards, cards, parent));
    ChildrenInMembers(cards, cards, parent);
    forall c | c in cards ensures ParentOf(cards, c.id) == SourceOf(cards, c) {
      var i :| 0 <= i < |cards| && cards[i] == c;
      CardAtIndex(cards, i);
    }
  }

  /** The map of children, filled card by card. */
  method ChildrenByParent(cards: seq<Card>) returns (m: map<string, seq<Card>>)
    ensures forall p :: (if p in m then m[p] else []) == ChildrenIn(cards, cards, p)
  {
    m := map[];
    for i := 0 to |cards|
      invariant forall p :: (if p in m then m[p] else []) == ChildrenIn(cards, cards[..i], p)
    {
      assert cards[..i + 1][..i] == cards[..i];
      var parent := SourceOf(cards, cards[i]);
      if parent.Some? {
        var siblings := if parent.value in m then m[parent.value] else [];
        m := m[parent.value := siblings + [cards[i]]];
      }
    }
    assert cards[..|cards|] == cards;
  }
}
