/** The tree of a card is not just some tree: what `IsTreeOf` says leaves exactly one. */
module LineageOrder {
  import opened Basics
  import opened LineageBatch
  import opened LineageTree
  import opened LineageDescent

  /** What the rows below the focus promise. */
  ghost predicate Listing(cards: seq<Card>, focus: string, base: nat, before: (string, string) -> bool,
                          rows: seq<Row>) {
    && RowsUnique(rows)
    && RowsDeep(cards, focus, base, rows)
    && SiblingsInOrder(cards, before, rows)
    && DepthFirst(cards, focus, base, rows)
  }

  /** The runtime's collation tells any two ids apart. */
  ghost predicate Separates(before: (string, string) -> bool) {
    forall x, y | x != y :: before(x, y) || before(y, x)
  }

  ghost predicate SameIds(p: seq<Row>, q: seq<Row>) {
    forall id :: HasRow(p, id) <==> HasRow(q, id)
  }

  lemma SameRow(cards: seq<Card>, focus: string, base: nat, a: Row, b: Row)
    requires At(cards, focus, base, a) && At(cards, focus, base, b) && a.id == b.id
    ensures a == b
  {
    hide Descends;
    var k: nat :| k >= 1 && Descends(cards, a.id, focus, k) && a.depth == base + k - 1;
    var m: nat :| m >= 1 && Descends(cards, b.id, focus, m) && b.depth == base + m - 1;
    DistanceUnique(cards, a.id, focus, k, m);
  }

  lemma NotShallow(cards: seq<Card>, focus: string, base: nat, rows: seq<Row>, i: nat)
    requires RowsDeep(cards, focus, base, rows) && i < |rows|
    ensures rows[i].depth >= base
  {
    hide Descends;
    assert At(cards, focus, base, rows[i]);
  }

  /** Where in `p` the row `q[n]` is, when the two agree up to `n` and differ there. */
  lemma ComesLater(cards: seq<Card>, focus: string, base: nat, p: seq<Row>, q: seq<Row>, n: nat) returns (m: nat)
    requires RowsUnique(q) && RowsDeep(cards, focus, base, p) && RowsDeep(cards, focus, base, q)
    requires n < |p| && n < |q| && p[..n] == q[..n] && p[n] != q[n] && SameIds(p, q)
    ensures n < m < |p| && p[m] == q[n]
  {
    hide At;
    assert HasRow(q, q[n].id);
    assert forall k | 0 <= k < n :: p[k] == p[..n][k] == q[..n][k] == q[k];
    m :| 0 <= m < |p| && p[m].id == q[n].id;
    assert At(cards, focus, base, p[m]) && At(cards, focus, base, q[n]);
    SameRow(cards, focus, base, p[m], q[n]);
  }

  /** A row that comes later hangs on what both listings share, so nothing before it is shallower. */
  lemma HangsBefore(cards: seq<Card>, focus: string, base: nat, p: seq<Row>, q: seq<Row>, n: nat, m: nat)
    requires RowsUnique(p) && RowsDeep(cards, focus, base, p) && RowsDeep(cards, focus, base, q)
    requires DepthFirst(cards, focus, base, p) && DepthFirst(cards, focus, base, q)
    requires n < m < |p| && n < |q| && p[..n] == q[..n] && p[m] == q[n]
    ensures p[n].depth >= q[n].depth
  {
    hide At, ParentOf;
    assert Hangs(cards, focus, base, p, m) && Hangs(cards, focus, base, q, n);
    NotShallow(cards, focus, base, p, n);
    if p[m].depth != base {
      var i: nat :| DrawnUnder(cards, p, i, m);
      var j: nat :| DrawnUnder(cards, q, j, n);
      assert p[j] == p[..n][j] == q[..n][j] == q[j];
      assert i == j;
    }
  }

  /** Rows of one depth that could both come next hang on the same card. */
  lemma SameSource(cards: seq<Card>, focus: string, base: nat, p: seq<Row>, q: seq<Row>, n: nat)
    requires RowsDeep(cards, focus, base, p) && RowsDeep(cards, focus, base, q)
    requires DepthFirst(cards, focus, base, p) && DepthFirst(cards, focus, base, q)
    requires n < |p| && n < |q| && p[..n] == q[..n] && p[n].depth == q[n].depth
    ensures ParentOf(cards, p[n].id).Some? && ParentOf(cards, p[n].id) == ParentOf(cards, q[n].id)
  {
    hide At, ParentOf;
    assert Hangs(cards, focus, base, p, n) && Hangs(cards, focus, base, q, n);
    assert forall k | 0 <= k < n :: p[k] == p[..n][k] == q[..n][k] == q[k];
    if p[n].depth == base {
      AtBase(cards, focus, base, p, n);
      AtBase(cards, focus, base, q, n);
    } else {
      var i: nat :| DrawnUnder(cards, p, i, n);
      var j: nat :| DrawnUnder(cards, q, j, n);
      assert p[i].depth + 1 == p[n].depth && p[j].depth + 1 == p[n].depth;
    }
  }

  lemma AtBase(cards: seq<Card>, focus: string, base: nat, rows: seq<Row>, n: nat)
    requires RowsDeep(cards, focus, base, rows) && n < |rows| && Hangs(cards, focus, base, rows, n)
    requires rows[n].depth == base
    ensures ParentOf(cards, rows[n].id) == Some(focus)
  {
    hide At, ParentOf;
    if j: nat :| DrawnUnder(cards, rows, j, n) {
      NotShallow(cards, focus, base, rows, j);
    }
  }

  lemma SiblingsDoNotTie(cards: seq<Card>, before: (string, string) -> bool, a: string, b: string)
    requires Separates(before) && a != b && OnBoardId(cards, a) && OnBoardId(cards, b)
    ensures Less(before)(CardAt(cards, a), CardAt(cards, b)) || Less(before)(CardAt(cards, b), CardAt(cards, a))
  {
    hide CardAt;
  }

  lemma NextAgrees(cards: seq<Card>, focus: string, base: nat, before: (string, string) -> bool,
                   p: seq<Row>, q: seq<Row>, n: nat)
    requires Separates(before)
    requires Listing(cards, focus, base, before, p) && Listing(cards, focus, base, before, q) && SameIds(p, q)
    requires n < |p| && n < |q| && p[..n] == q[..n]
    ensures p[n] == q[n]
  {
    hide At, RowsDeep, DepthFirst, CardAt, Less, Separates;
    if p[n] != q[n] {
      var m := ComesLater(cards, focus, base, p, q, n);
      var k := ComesLater(cards, focus, base, q, p, n);
      HangsBefore(cards, focus, base, p, q, n, m);
      HangsBefore(cards, focus, base, q, p, n, k);
      SameSource(cards, focus, base, p, q, n);
      assert p[n].id != p[m].id;
      SiblingsDoNotTie(cards, before, p[n].id, q[n].id);
    }
  }

  lemma {:induction false} PrefixAgrees(cards: seq<Card>, focus: string, base: nat, before: (string, string) -> bool,
                                        p: seq<Row>, q: seq<Row>, n: nat)
    requires Separates(before)
    requires Listing(cards, focus, base, before, p) && Listing(cards, focus, base, before, q) && SameIds(p, q)
    requires n <= |p| && n <= |q|
    ensures p[..n] == q[..n]
  {
    hide Listing, Separates, SameIds;
    if n > 0 {
      PrefixAgrees(cards, focus, base, before, p, q, n - 1);
      NextAgrees(cards, focus, base, before, p, q, n - 1);
      assert p[..n] == p[..n - 1] + [p[n - 1]] && q[..n] == q[..n - 1] + [q[n - 1]];
    }
  }

  lemma NoLonger(p: seq<Row>, q: seq<Row>)
    requires RowsUnique(q) && SameIds(p, q) && |p| <= |q| && p == q[..|p|]
    ensures p == q
  {
    assert |p| < |q| ==> HasRow(q, q[|p|].id);
    assert forall i | 0 <= i < |p| :: q[i] == q[..|p|][i] == p[i];
  }

  /** There is one way to list what hangs below a card. */
  lemma {:induction false} DescendantsAreUnique(
      cards: seq<Card>, focus: string, base: nat, before: (string, string) -> bool, p: seq<Row>, q: seq<Row>)
    requires Separates(before)
    requires Listing(cards, focus, base, before, p) && Listing(cards, focus, base, before, q) && SameIds(p, q)
    ensures p == q
  {
    hide RowsDeep, SiblingsInOrder, DepthFirst, Separates;
    if |p| <= |q| {
      PrefixAgrees(cards, focus, base, before, p, q, |p|);
      assert p[..|p|] == p;
      NoLonger(p, q);
    } else {
      PrefixAgrees(cards, focus, base, before, p, q, |q|);
      assert q[..|q|] == q;
      NoLonger(q, p);
    }
  }

  // ── The press ──────────────────────────

  lemma PressHolds(cards: seq<Card>, before: (string, string) -> bool, focus: Card, p: Batch, q: Batch, i: nat)
    requires IsPressOf(cards, before, focus, p) && IsPressOf(cards, before, focus, q) && i < |p.rows|
    ensures HasRow(q.rows, p.rows[i].id) && OfPress(cards, focus.job, p.rows[i].id)
  {
    hide OfPress;
  }

  lemma PressIds(cards: seq<Card>, before: (string, string) -> bool, focus: Card, p: Batch, q: Batch)
    requires IsPressOf(cards, before, focus, p) && IsPressOf(cards, before, focus, q)
    ensures SameIds(p.rows, q.rows) && RowsUnique(p.rows) && RowsUnique(q.rows) && p.size == q.size
  {
    hide OfPress;
    forall id ensures HasRow(p.rows, id) <==> HasRow(q.rows, id) {
      if i :| 0 <= i < |p.rows| && p.rows[i].id == id {
        PressHolds(cards, before, focus, p, q, i);
      }
      if i :| 0 <= i < |q.rows| && q.rows[i].id == id {
        PressHolds(cards, before, focus, q, p, i);
      }
    }
  }

  lemma LaterId(p: seq<Row>, q: seq<Row>, n: nat) returns (m: nat)
    requires RowsUnique(q) && SameIds(p, q)
    requires n < |p| && n < |q| && p[..n] == q[..n] && p[n].id != q[n].id
    ensures n < m < |p| && p[m].id == q[n].id
  {
    assert HasRow(q, q[n].id);
    assert forall k | 0 <= k < n :: p[k] == p[..n][k] == q[..n][k] == q[k];
    m :| 0 <= m < |p| && p[m].id == q[n].id;
  }

  lemma PressOrder(cards: seq<Card>, before: (string, string) -> bool, focus: Card, p: Batch, n: nat, m: nat)
    requires IsPressOf(cards, before, focus, p) && n < m < |p.rows|
    ensures OfPress(cards, focus.job, p.rows[n].id) && OfPress(cards, focus.job, p.rows[m].id)
    ensures !PressLess(before)(CardAt(cards, p.rows[m].id), CardAt(cards, p.rows[n].id))
  {
    hide PressLess, CardAt;
  }

  lemma NextOfPress(cards: seq<Card>, before: (string, string) -> bool, focus: Card, p: Batch, q: Batch, n: nat)
    requires Separates(before) && IsPressOf(cards, before, focus, p) && IsPressOf(cards, before, focus, q)
    requires n < |p.rows| && n < |q.rows| && p.rows[..n] == q.rows[..n]
    ensures p.rows[n] == q.rows[n]
  {
    hide PressLess, CardAt, HasRow, RowsUnique, IsPressOf;
    PressIds(cards, before, focus, p, q);
    PressDepth(cards, before, focus, p, n);
    PressDepth(cards, before, focus, q, n);
    if p.rows[n].id != q.rows[n].id {
      var m := LaterId(p.rows, q.rows, n);
      var k := LaterId(q.rows, p.rows, n);
      PressOrder(cards, before, focus, p, n, m);
      PressOrder(cards, before, focus, q, n, k);
      NoTie(before, CardAt(cards, p.rows[n].id), CardAt(cards, q.rows[n].id));
    }
  }

  lemma PressDepth(cards: seq<Card>, before: (string, string) -> bool, focus: Card, p: Batch, n: nat)
    requires IsPressOf(cards, before, focus, p) && n < |p.rows|
    ensures p.rows[n].depth == 0
  {
    hide PressLess, CardAt;
  }

  lemma {:induction false} PressAgrees(cards: seq<Card>, before: (string, string) -> bool, focus: Card,
                                       p: Batch, q: Batch, n: nat)
    requires Separates(before) && IsPressOf(cards, before, focus, p) && IsPressOf(cards, before, focus, q)
    requires n <= |p.rows| && n <= |q.rows|
    ensures p.rows[..n] == q.rows[..n]
  {
    hide Separates, IsPressOf;
    if n > 0 {
      PressAgrees(cards, before, focus, p, q, n - 1);
      NextOfPress(cards, before, focus, p, q, n - 1);
      assert p.rows[..n] == p.rows[..n - 1] + [p.rows[n - 1]] && q.rows[..n] == q.rows[..n - 1] + [q.rows[n - 1]];
    }
  }

  lemma PressIsUnique(cards: seq<Card>, before: (string, string) -> bool, focus: Card, p: Batch, q: Batch)
    requires Separates(before) && IsPressOf(cards, before, focus, p) && IsPressOf(cards, before, focus, q)
    ensures p == q
  {
    hide Separates, IsPressOf, RowsUnique;
    PressIds(cards, before, focus, p, q);
    if |p.rows| <= |q.rows| {
      PressAgrees(cards, before, focus, p, q, |p.rows|);
      assert p.rows[..|p.rows|] == p.rows;
      NoLonger(p.rows, q.rows);
    } else {
      PressAgrees(cards, before, focus, p, q, |q.rows|);
      assert q.rows[..|q.rows|] == q.rows;
      NoLonger(q.rows, p.rows);
    }
  }

  // ── The whole tree ─────────────────────

  lemma SameChain(cards: seq<Card>, focus: string, p: seq<Row>, q: seq<Row>)
    requires IsChain(cards, RowIds(p), focus) && IsChain(cards, RowIds(q), focus)
    requires (forall i | 0 <= i < |p| :: p[i].depth == i) && (forall i | 0 <= i < |q| :: q[i].depth == i)
    ensures p == q
  {
    hide IsChain;
    ChainIsUnique(cards, RowIds(p), RowIds(q), focus);
    assert |p| == |RowIds(p)| == |RowIds(q)| == |q|;
    forall i | 0 <= i < |p| ensures p[i] == q[i] {
      assert RowIds(p)[i] == RowIds(q)[i];
    }
  }

  /** Origin, chain, descendants and press: two trees of one card that keep the promises are equal. */
  lemma {:induction false} TreeIsUnique(cards: seq<Card>, before: (string, string) -> bool, focus: Card, p: Tree,
                                        q: Tree)
    requires Separates(before) && IsTreeOf(cards, before, focus, p) && IsTreeOf(cards, before, focus, q)
    ensures p == q
  {
    hide Separates, IsChain, HasRow, RowsUnique, RowsDeep, ParentFirst, SiblingsInOrder, DepthFirst, Reaches,
      IsPressOf, OriginOf, IsBatchCard;
    SameChain(cards, focus.id, p.chain, q.chain);
    DescendantsAreUnique(cards, focus.id, |p.chain|, before, p.descendants, q.descendants);
    if p.batch.Some? {
      PressIsUnique(cards, before, focus, p.batch.value, q.batch.value);
    }
  }
}
