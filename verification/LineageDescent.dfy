/** The walk down, with its shared visited set and growing list of rows. */
module LineageDescent {
  import opened Basics
  import opened Ordering
  import opened LineageBatch
  import opened LineageTree

  /** Below `parent` in the drawn tree. */
  ghost predicate Below(cards: seq<Card>, focus: string, id: string, parent: string) {
    exists k: nat :: k >= 1 && Through(cards, focus, id, parent, k)
  }

  /** One of these children, or below one of them. */
  ghost predicate UnderSome(cards: seq<Card>, focus: string, children: seq<Card>, id: string) {
    exists j, k: nat :: 0 <= j < |children| && children[j].id != focus && Through(cards, focus, id, children[j].id, k)
  }

  // ── What the rows say ──────────────────

  ghost predicate RowsUnique(rows: seq<Row>) {
    forall i, j | 0 <= i < j < |rows| :: rows[i].id != rows[j].id
  }

  ghost predicate At(cards: seq<Card>, focus: string, base: nat, row: Row) {
    exists k: nat :: k >= 1 && Descends(cards, row.id, focus, k) && row.depth == base + k - 1
  }

  /** Depth is the exact number of recorded steps to the focus, counted on from the chain. */
  ghost predicate RowsDeep(cards: seq<Card>, focus: string, base: nat, rows: seq<Row>) {
    forall i | 0 <= i < |rows| :: At(cards, focus, base, rows[i])
  }

  ghost predicate HasRow(rows: seq<Row>, id: string) {
    exists i :: 0 <= i < |rows| && rows[i].id == id
  }

  /** Every row comes after the row of its own source, or that source is the focus. */
  ghost predicate ParentFirst(cards: seq<Card>, focus: string, rows: seq<Row>) {
    forall i | 0 <= i < |rows| ::
      && ParentOf(cards, rows[i].id).Some?
      && (ParentOf(cards, rows[i].id).value == focus || HasRow(rows[..i], ParentOf(cards, rows[i].id).value))
  }

  /** Cards made from the same card are drawn in the press's order. */
  ghost predicate SiblingsInOrder(cards: seq<Card>, before: (string, string) -> bool, rows: seq<Row>) {
    forall i, j | 0 <= i < j < |rows| ::
      (&& ParentOf(cards, rows[i].id).Some? && ParentOf(cards, rows[i].id) == ParentOf(cards, rows[j].id))
      ==> !Less(before)(CardAt(cards, rows[j].id), CardAt(cards, rows[i].id))
  }

  /** Row `j` is the source of row `i`, and only rows at least as deep as `i` come in between. */
  ghost predicate DrawnUnder(cards: seq<Card>, rows: seq<Row>, j: nat, i: nat)
    requires i < |rows|
  {
    && j < i && ParentOf(cards, rows[i].id) == Some(rows[j].id) && rows[j].depth + 1 == rows[i].depth
    && forall k | j < k < i :: rows[k].depth >= rows[i].depth
  }

  /** The source of row `i` is the nearest earlier row one depth less, or the focus at the first depth. */
  ghost predicate Hangs(cards: seq<Card>, focus: string, base: nat, rows: seq<Row>, i: nat)
    requires i < |rows|
  {
    || (rows[i].depth == base && ParentOf(cards, rows[i].id) == Some(focus))
    || (exists j: nat :: DrawnUnder(cards, rows, j, i))
  }

  ghost predicate DepthFirst(cards: seq<Card>, focus: string, base: nat, rows: seq<Row>) {
    forall i | 0 <= i < |rows| :: Hangs(cards, focus, base, rows, i)
  }

  // ── Disjoint branches ──────────────────

  ghost predicate ChildrenList(cards: seq<Card>, children: seq<Card>, parent: string) {
    forall c :: c in children <==> c in cards && ParentOf(cards, c.id) == Some(parent)
  }

  /** Two children of one parent that share anything below them are the same card. */
  lemma BranchesAreDisjoint(cards: seq<Card>, focus: string, parent: string, d: nat, a: string, b: string,
                            id: string, k: nat, m: nat)
    requires Descends(cards, parent, focus, d) && a != focus && b != focus
    requires ParentOf(cards, a) == Some(parent) && ParentOf(cards, b) == Some(parent)
    requires Through(cards, focus, id, a, k) && Through(cards, focus, id, b, m)
    ensures a == b && k == m
  {
    assert Descends(cards, a, focus, d + 1) && Descends(cards, b, focus, d + 1);
    ThroughDescends(cards, focus, id, a, k, d + 1);
    ThroughDescends(cards, focus, id, b, m, d + 1);
    DistanceUnique(cards, id, focus, d + 1 + k, d + 1 + m);
    SameDistanceSameNode(cards, focus, id, a, b, k);
  }

  lemma BelowChild(cards: seq<Card>, focus: string, id: string, child: string, parent: string, k: nat)
    requires Through(cards, focus, id, child, k) && ParentOf(cards, child) == Some(parent) && child != focus
    ensures Below(cards, focus, id, parent)
  {
    ThroughExtends(cards, focus, id, child, parent, k);
  }

  /** Everything below the parent hangs under one of its children. */
  lemma BelowIsUnderSome(cards: seq<Card>, focus: string, children: seq<Card>, parent: string)
    requires ChildrenList(cards, children, parent)
    ensures forall id :: UnderSome(cards, focus, children, id) <==> Below(cards, focus, id, parent)
  {
    forall id ensures UnderSome(cards, focus, children, id) <==> Below(cards, focus, id, parent) {
      if UnderSome(cards, focus, children, id) {
        var j, k: nat :| 0 <= j < |children| && children[j].id != focus && Through(cards, focus, id, children[j].id, k);
        assert children[j] in children;
        BelowChild(cards, focus, id, children[j].id, parent, k);
      }
      if Below(cards, focus, id, parent) {
        var k: nat :| k >= 1 && Through(cards, focus, id, parent, k);
        var child := ThroughChild(cards, focus, id, parent, k - 1);
        assert CardAt(cards, child) in children;
        var j :| 0 <= j < |children| && children[j] == CardAt(cards, child);
        assert Through(cards, focus, id, children[j].id, k - 1);
      }
    }
  }

  lemma NothingUnder(cards: seq<Card>, focus: string, children: seq<Card>)
    requires children == []
    ensures forall id :: !UnderSome(cards, focus, children, id)
  {
  }

  lemma UnderOneMore(cards: seq<Card>, focus: string, children: seq<Card>, i: nat)
    requires i < |children|
    ensures forall id :: UnderSome(cards, focus, children[..i + 1], id) <==>
      UnderSome(cards, focus, children[..i], id)
      || (children[i].id != focus && (id == children[i].id || Below(cards, focus, id, children[i].id)))
  {
    var c := children[i].id;
    forall id ensures UnderSome(cards, focus, children[..i + 1], id) <==>
      UnderSome(cards, focus, children[..i], id) || (c != focus && (id == c || Below(cards, focus, id, c)))
    {
      if UnderSome(cards, focus, children[..i + 1], id) {
        var j, k: nat :| 0 <= j < i + 1 && children[..i + 1][j].id != focus
          && Through(cards, focus, id, children[..i + 1][j].id, k);
        if j < i {
          assert children[..i][j] == children[..i + 1][j];
        } else if k > 0 {
          assert Below(cards, focus, id, c);
        }
      }
      if UnderSome(cards, focus, children[..i], id) {
        var j, k: nat :| 0 <= j < i && children[..i][j].id != focus
          && Through(cards, focus, id, children[..i][j].id, k);
        assert children[..i + 1][j] == children[..i][j];
      }
      if c != focus && id == c {
        assert Through(cards, focus, id, c, 0) && children[..i + 1][i].id == c;
      }
      if c != focus && Below(cards, focus, id, c) {
        var k: nat :| k >= 1 && Through(cards, focus, id, c, k);
        assert children[..i + 1][i].id == c;
      }
    }
  }

  /** A child already drawn was drawn as an earlier entry of the same list. */
  lemma DrawnEarlier(cards: seq<Card>, focus: string, children: seq<Card>, i: nat, parent: string, d: nat)
    requires ChildrenList(cards, children, parent) && Descends(cards, parent, focus, d)
    requires i < |children| && children[i].id != focus && UnderSome(cards, focus, children[..i], children[i].id)
    ensures forall id ::
      id == children[i].id || Below(cards, focus, id, children[i].id) ==> UnderSome(cards, focus, children[..i], id)
  {
    var c := children[i].id;
    var j, k: nat :| 0 <= j < i && children[..i][j].id != focus && Through(cards, focus, c, children[..i][j].id, k);
    assert children[i] in children && children[j] in children;
    assert Through(cards, focus, c, c, 0);
    BranchesAreDisjoint(cards, focus, parent, d, children[j].id, c, c, k, 0);
    forall id | Below(cards, focus, id, c) ensures UnderSome(cards, focus, children[..i], id) {
      var m: nat :| m >= 1 && Through(cards, focus, id, c, m);
      assert Through(cards, focus, id, children[..i][j].id, m);
    }
  }

  lemma SharedMeansDrawn(cards: seq<Card>, focus: string, children: seq<Card>, i: nat, parent: string, d: nat,
                         id: string, k: nat)
    requires ChildrenList(cards, children, parent) && Descends(cards, parent, focus, d)
    requires i < |children| && children[i].id != focus
    requires UnderSome(cards, focus, children[..i], id) && Through(cards, focus, id, children[i].id, k)
    ensures UnderSome(cards, focus, children[..i], children[i].id)
  {
    var j, m: nat :| 0 <= j < i && children[..i][j].id != focus && Through(cards, focus, id, children[..i][j].id, m);
    assert children[j] in children && children[i] in children;
    BranchesAreDisjoint(cards, focus, parent, d, children[j].id, children[i].id, id, m, k);
    assert Through(cards, focus, children[i].id, children[..i][j].id, 0);
  }

  /** A child not drawn yet has nothing of its own branch drawn either. */
  lemma BranchUntouched(cards: seq<Card>, focus: string, children: seq<Card>, i: nat, parent: string, d: nat)
    requires ChildrenList(cards, children, parent) && Descends(cards, parent, focus, d)
    requires i < |children| && children[i].id != focus && !UnderSome(cards, focus, children[..i], children[i].id)
    ensures forall id | Below(cards, focus, id, children[i].id) ::
      !UnderSome(cards, focus, children[..i], id) && id != children[i].id && Below(cards, focus, id, parent)
  {
    var c := children[i].id;
    assert children[i] in children;
    assert Through(cards, focus, c, c, 0);
    forall id | Below(cards, focus, id, c)
      ensures !UnderSome(cards, focus, children[..i], id) && id != c && Below(cards, focus, id, parent)
    {
      var k: nat :| k >= 1 && Through(cards, focus, id, c, k);
      BelowChild(cards, focus, id, c, parent, k);
      if id == c {
        BranchesAreDisjoint(cards, focus, parent, d, c, c, c, k, 0);
      }
      if UnderSome(cards, focus, children[..i], id) {
        SharedMeansDrawn(cards, focus, children, i, parent, d, id, k);
      }
    }
  }

  /** Nothing strictly below a child is itself a child. */
  lemma GrandchildrenAreNoChildren(cards: seq<Card>, focus: string, child: string, parent: string, d: nat)
    requires Descends(cards, parent, focus, d) && ParentOf(cards, child) == Some(parent) && child != focus
    ensures forall id | Below(cards, focus, id, child) :: ParentOf(cards, id) != Some(parent)
  {
    forall id | Below(cards, focus, id, child) ensures ParentOf(cards, id) != Some(parent) {
      var k: nat :| k >= 1 && Through(cards, focus, id, child, k);
      if ParentOf(cards, id) == Some(parent) {
        assert Through(cards, focus, id, id, 0);
        BranchesAreDisjoint(cards, focus, parent, d, child, id, id, k, 0);
      }
    }
  }

  // ── Drawing one row ────────────────────

  ghost predicate Soundly(cards: seq<Card>, focus: string, base: nat, before: (string, string) -> bool,
                          visited: set<string>, rows: seq<Row>) {
    && (forall id :: id in visited <==> id == focus || HasRow(rows, id))
    && !HasRow(rows, focus)
    && RowsUnique(rows)
    && RowsDeep(cards, focus, base, rows)
    && ParentFirst(cards, focus, rows)
    && SiblingsInOrder(cards, before, rows)
    && DepthFirst(cards, focus, base, rows)
  }

  /** The next row may be drawn below `parent`: nothing shallower has been drawn since `parent` was. */
  ghost predicate OpenAt(focus: string, base: nat, rows: seq<Row>, parent: string, depth: nat) {
    || (parent == focus && depth == base)
    || (exists j ::
        0 <= j < |rows| && rows[j].id == parent && rows[j].depth + 1 == depth && AtLeast(rows, j + 1, depth))
  }

  /** From row `n` on, no row is shallower than `depth`. */
  ghost predicate AtLeast(rows: seq<Row>, n: nat, depth: nat) {
    forall k | n <= k < |rows| :: rows[k].depth >= depth
  }

  lemma HangsOn(cards: seq<Card>, focus: string, base: nat, rows: seq<Row>, row: Row, i: nat)
    requires i < |rows| && Hangs(cards, focus, base, rows, i)
    ensures Hangs(cards, focus, base, rows + [row], i)
  {
    hide ParentOf;
    if j: nat :| DrawnUnder(cards, rows, j, i) {
      assert DrawnUnder(cards, rows + [row], j, i);
    }
  }

  lemma LastHangs(cards: seq<Card>, focus: string, base: nat, rows: seq<Row>, row: Row, parent: string)
    requires OpenAt(focus, base, rows, parent, row.depth) && ParentOf(cards, row.id) == Some(parent)
    ensures Hangs(cards, focus, base, rows + [row], |rows|)
  {
    hide ParentOf;
    if !(parent == focus && row.depth == base) {
      var j :| 0 <= j < |rows| && rows[j].id == parent && rows[j].depth + 1 == row.depth
        && AtLeast(rows, j + 1, row.depth);
      assert DrawnUnder(cards, rows + [row], j, |rows|);
    }
  }

  lemma DepthFirstAdded(cards: seq<Card>, focus: string, base: nat, rows: seq<Row>, row: Row, parent: string)
    requires DepthFirst(cards, focus, base, rows) && OpenAt(focus, base, rows, parent, row.depth)
    requires ParentOf(cards, row.id) == Some(parent)
    ensures DepthFirst(cards, focus, base, rows + [row])
    ensures OpenAt(focus, base, rows + [row], row.id, row.depth + 1)
  {
    hide ParentOf, Hangs;
    var rows' := rows + [row];
    forall i | 0 <= i < |rows'| ensures Hangs(cards, focus, base, rows', i) {
      if i < |rows| {
        HangsOn(cards, focus, base, rows, row, i);
      } else {
        LastHangs(cards, focus, base, rows, row, parent);
      }
    }
    assert rows'[|rows|] == row && AtLeast(rows', |rows| + 1, row.depth + 1);
  }

  /** What is drawn below `parent` leaves it open for its next child. */
  lemma StaysOpen(focus: string, base: nat, rows: seq<Row>, rows': seq<Row>, parent: string, depth: nat)
    requires OpenAt(focus, base, rows, parent, depth) && rows <= rows' && AtLeast(rows', |rows|, depth)
    ensures OpenAt(focus, base, rows', parent, depth)
  {
    if !(parent == focus && depth == base) {
      var j :| 0 <= j < |rows| && rows[j].id == parent && rows[j].depth + 1 == depth && AtLeast(rows, j + 1, depth);
      assert rows'[j] == rows[j];
      assert AtLeast(rows', j + 1, depth) by {
        assert forall k | 0 <= k < |rows| :: rows'[k] == rows[k];
      }
    }
  }

  lemma AtLeastMore(a: seq<Row>, b: seq<Row>, c: seq<Row>, depth: nat)
    requires a <= b <= c && AtLeast(b, |a|, depth) && AtLeast(c, |b|, depth)
    ensures AtLeast(c, |a|, depth)
  {
    assert forall k | 0 <= k < |b| :: c[k] == b[k];
  }

  /** A child and what is drawn below it. */
  lemma BranchAtLeast(rows: seq<Row>, row: Row, rows': seq<Row>)
    requires rows + [row] <= rows' && AtLeast(rows', |rows| + 1, row.depth + 1)
    ensures AtLeast(rows', |rows|, row.depth)
  {
    assert rows'[|rows|] == (rows + [row])[|rows|];
  }

  /** The children of `parent` drawn so far are among these. */
  ghost predicate DrawnFrom(cards: seq<Card>, rows: seq<Row>, children: seq<Card>, parent: string) {
    forall i | 0 <= i < |rows| && ParentOf(cards, rows[i].id) == Some(parent) ::
      HasCard(children, rows[i].id)
  }

  ghost predicate HasCard(children: seq<Card>, id: string) {
    exists j :: 0 <= j < |children| && children[j].id == id
  }

  lemma RowAdded(rows: seq<Row>, row: Row)
    ensures forall id :: HasRow(rows + [row], id) <==> HasRow(rows, id) || id == row.id
    ensures !HasRow(rows, row.id) && RowsUnique(rows) ==> RowsUnique(rows + [row])
  {
    var rows' := rows + [row];
    forall id ensures HasRow(rows', id) <==> HasRow(rows, id) || id == row.id {
      if HasRow(rows, id) {
        var i :| 0 <= i < |rows| && rows[i].id == id;
        assert rows'[i] == rows[i];
      }
      assert rows'[|rows|] == row;
    }
  }

  lemma ParentFirstAdded(cards: seq<Card>, focus: string, rows: seq<Row>, row: Row, parent: string)
    requires ParentFirst(cards, focus, rows) && ParentOf(cards, row.id) == Some(parent)
    requires parent == focus || HasRow(rows, parent)
    ensures ParentFirst(cards, focus, rows + [row])
  {
    var rows' := rows + [row];
    forall i | 0 <= i < |rows'| ensures
      && ParentOf(cards, rows'[i].id).Some?
      && (ParentOf(cards, rows'[i].id).value == focus || HasRow(rows'[..i], ParentOf(cards, rows'[i].id).value))
    {
      if i < |rows| {
        assert rows'[..i] == rows[..i];
      } else {
        assert rows'[..i] == rows;
      }
    }
  }

  lemma SiblingsAdded(cards: seq<Card>, before: (string, string) -> bool, rows: seq<Row>, children: seq<Card>,
                      i: nat, depth: nat, parent: string)
    requires DistinctIds(cards) && SiblingsInOrder(cards, before, rows) && Sorted(Less(before), children)
    requires i < |children| && forall j | 0 <= j <= i :: children[j] in cards
    requires ParentOf(cards, children[i].id) == Some(parent) && DrawnFrom(cards, rows, children[..i], parent)
    ensures SiblingsInOrder(cards, before, rows + [Row(children[i].id, depth)])
    ensures DrawnFrom(cards, rows + [Row(children[i].id, depth)], children[..i + 1], parent)
  {
    var rows' := rows + [Row(children[i].id, depth)];
    forall a | 0 <= a < |rows| && ParentOf(cards, rows[a].id) == Some(parent)
      ensures !Less(before)(CardAt(cards, children[i].id), CardAt(cards, rows[a].id))
      ensures HasCard(children[..i + 1], rows[a].id)
    {
      var j :| 0 <= j < i && children[..i][j].id == rows[a].id;
      CardOnBoard(cards, children[i]);
      CardOnBoard(cards, children[j]);
      assert children[..i + 1][j] == children[j];
    }
    assert children[..i + 1][i] == children[i];
  }

  lemma DeepAdded(cards: seq<Card>, focus: string, base: nat, rows: seq<Row>, row: Row, parent: string, d: nat)
    requires RowsDeep(cards, focus, base, rows) && row.id != focus && row.depth == base + d
    requires ParentOf(cards, row.id) == Some(parent) && Descends(cards, parent, focus, d)
    ensures RowsDeep(cards, focus, base, rows + [row])
  {
    assert Descends(cards, row.id, focus, d + 1);
  }

  /** Drawing the next child of `parent` keeps everything the rows promise. */
  lemma DrawKeeps(cards: seq<Card>, focus: string, base: nat, before: (string, string) -> bool,
                  visited: set<string>, rows: seq<Row>,
                  children: seq<Card>, i: nat, parent: string, d: nat)
    requires DistinctIds(cards) && Soundly(cards, focus, base, before, visited, rows)
    requires i < |children| && (forall j | 0 <= j <= i :: children[j] in cards) && Sorted(Less(before), children)
    requires children[i].id !in visited && parent in visited
    requires ParentOf(cards, children[i].id) == Some(parent) && Descends(cards, parent, focus, d)
    requires DrawnFrom(cards, rows, children[..i], parent) && OpenAt(focus, base, rows, parent, base + d)
    ensures var rows' := rows + [Row(children[i].id, base + d)];
      && Soundly(cards, focus, base, before, visited + {children[i].id}, rows')
      && DrawnFrom(cards, rows', children[..i + 1], parent)
      && OpenAt(focus, base, rows', children[i].id, base + d + 1)
  {
    hide HasRow, RowsUnique, RowsDeep, ParentFirst, SiblingsInOrder, DepthFirst, OpenAt, DrawnFrom, Sorted, Descends,
      DistinctIds;
    var row := Row(children[i].id, base + d);
    RowAdded(rows, row);
    DeepAdded(cards, focus, base, rows, row, parent, d);
    ParentFirstAdded(cards, focus, rows, row, parent);
    DepthFirstAdded(cards, focus, base, rows, row, parent);
    SiblingsAdded(cards, before, rows, children, i, base + d, parent);
  }

  lemma ChildrenAreSorted(cards: seq<Card>, before: (string, string) -> bool, parent: string)
    requires DistinctIds(cards) && Collates(before)
    ensures ChildrenList(cards, ChildrenOf(cards, before, parent), parent)
    ensures Sorted(Less(before), ChildrenOf(cards, before, parent))
  {
    ChildrenOfMembers(cards, before, parent);
    LessIsAnOrder(before);
    SortSorts(Less(before), ChildrenIn(cards, cards, parent));
  }

  lemma NoChildDrawnYet(cards: seq<Card>, focus: string, base: nat, before: (string, string) -> bool,
                        visited: set<string>, rows: seq<Row>,
                        parent: string)
    requires Soundly(cards, focus, base, before, visited, rows)
    requires forall id | Below(cards, focus, id, parent) :: id !in visited
    ensures DrawnFrom(cards, rows, [], parent)
  {
    forall i | 0 <= i < |rows| ensures ParentOf(cards, rows[i].id) != Some(parent) {
      assert HasRow(rows, rows[i].id);
      if ParentOf(cards, rows[i].id) == Some(parent) {
        assert Through(cards, focus, parent, parent, 0);
        assert Through(cards, focus, rows[i].id, parent, 1);
      }
    }
  }

  lemma DrawnFromMore(cards: seq<Card>, rows: seq<Row>, children: seq<Card>, i: nat, parent: string)
    requires i < |children| && DrawnFrom(cards, rows, children[..i], parent)
    ensures DrawnFrom(cards, rows, children[..i + 1], parent)
  {
    forall r | 0 <= r < |rows| && ParentOf(cards, rows[r].id) == Some(parent)
      ensures HasCard(children[..i + 1], rows[r].id)
    {
      var j :| 0 <= j < i && children[..i][j].id == rows[r].id;
      assert children[..i + 1][j] == children[..i][j];
    }
  }

  /** A finished branch adds no further child of `parent`. */
  lemma BranchKeepsDrawnFrom(cards: seq<Card>, focus: string, base: nat, before: (string, string) -> bool,
                             visited: set<string>, rows: seq<Row>, visited': set<string>, rows': seq<Row>,
                             children: seq<Card>, child: string, parent: string, d: nat)
    requires Soundly(cards, focus, base, before, visited, rows) && Soundly(cards, focus, base, before, visited', rows')
    requires rows <= rows' && forall id :: id in visited' <==> id in visited || Below(cards, focus, id, child)
    requires Descends(cards, parent, focus, d) && ParentOf(cards, child) == Some(parent) && child != focus
    requires DrawnFrom(cards, rows, children, parent)
    ensures DrawnFrom(cards, rows', children, parent)
  {
    GrandchildrenAreNoChildren(cards, focus, child, parent, d);
    forall i | |rows| <= i < |rows'| ensures ParentOf(cards, rows'[i].id) != Some(parent) {
      assert HasRow(rows', rows'[i].id);
      assert !HasRow(rows, rows'[i].id) by {
        assert forall k | 0 <= k < |rows| :: rows[k] == rows'[k];
      }
    }
  }

  /** Skipping a child already visited loses nothing. */
  lemma SkipLosesNothing(cards: seq<Card>, focus: string, children: seq<Card>, i: nat, parent: string, d: nat,
                         start: set<string>, visited: set<string>)
    requires ChildrenList(cards, children, parent) && Descends(cards, parent, focus, d) && i < |children|
    requires forall id | Below(cards, focus, id, parent) :: id !in start
    requires forall id :: id in visited <==> id in start || UnderSome(cards, focus, children[..i], id)
    requires children[i].id in visited
    ensures forall id :: id in visited <==> id in start || UnderSome(cards, focus, children[..i + 1], id)
  {
    var c := children[i].id;
    UnderOneMore(cards, focus, children, i);
    assert children[i] in children;
    if c != focus {
      assert Through(cards, focus, c, c, 0);
      BelowChild(cards, focus, c, c, parent, 0);
      DrawnEarlier(cards, focus, children, i, parent, d);
    }
  }

  // ── The walk ───────────────────────────

  class DownWalk {
    const cards: seq<Card>
    const focus: string
    const base: nat
    const before: (string, string) -> bool
    const childrenByParent: map<string, seq<Card>>
    var visited: set<string>
    var descendants: seq<Row>

    constructor (cards: seq<Card>, focus: string, base: nat, before: (string, string) -> bool,
                 childrenByParent: map<string, seq<Card>>)
      ensures this.cards == cards && this.focus == focus && this.base == base && this.before == before
      ensures this.childrenByParent == childrenByParent
      ensures visited == {focus} && descendants == []
    {
      this.cards, this.focus, this.base, this.before := cards, focus, base, before;
      this.childrenByParent := childrenByParent;
      visited, descendants := {focus}, [];
    }

    ghost predicate Ready() {
      && DistinctIds(cards) && Collates(before)
      && forall p :: (if p in childrenByParent then childrenByParent[p] else []) == ChildrenIn(cards, cards, p)
    }

    ghost predicate Sound()
      reads this
    {
      focus in visited && Soundly(cards, focus, base, before, visited, descendants)
    }

    /** One child that is not drawn yet, and everything below it. */
    method Visit(children: seq<Card>, i: nat, parent: string, depth: nat, ghost d: nat)
      requires Ready() && Sound() && parent in visited && Descends(cards, parent, focus, d) && depth == base + d
      requires i < |children| && children[i].id !in visited
      requires ChildrenList(cards, children, parent) && Sorted(Less(before), children)
      requires forall id | Below(cards, focus, id, children[i].id) :: id !in visited && id != children[i].id
      requires DrawnFrom(cards, descendants, children[..i], parent) && OpenAt(focus, base, descendants, parent, depth)
      modifies this
      ensures Sound() && old(descendants) <= descendants && AtLeast(descendants, |old(descendants)|, depth)
      ensures forall id :: id in visited <==>
        id in old(visited) || id == children[i].id || Below(cards, focus, id, children[i].id)
      ensures DrawnFrom(cards, descendants, children[..i + 1], parent)
      decreases Ids(cards) - visited, 0
    {
      hide Soundly, DrawnFrom, OpenAt, AtLeast, Below, Sorted, Descends, ParentOf, DistinctIds, Collates, ChildrenIn;
      var child := children[i];
      assert child in children;
      StepDown(cards, focus, child.id, parent, d);
      DrawKeeps(cards, focus, base, before, visited, descendants, children, i, parent, d);
      visited := visited + {child.id};
      descendants := descendants + [Row(child.id, depth)];
      ghost var seen, rows := visited, descendants;
      WalkDown(child.id, depth + 1, d + 1);
      BranchAtLeast(old(descendants), Row(child.id, depth), descendants);
      BranchKeepsDrawnFrom(cards, focus, base, before, seen, rows, visited, descendants, children[..i + 1],
                           child.id, parent, d);
    }

    /** `walkDown`: draws exactly what hangs below `parent`. */
    method WalkDown(parent: string, depth: nat, ghost d: nat)
      requires Ready() && Sound() && parent in visited
      requires Descends(cards, parent, focus, d) && depth == base + d && OpenAt(focus, base, descendants, parent, depth)
      requires forall id | Below(cards, focus, id, parent) :: id !in visited
      modifies this
      ensures Sound() && old(descendants) <= descendants && AtLeast(descendants, |old(descendants)|, depth)
      ensures forall id :: id in visited <==> id in old(visited) || Below(cards, focus, id, parent)
      decreases Ids(cards) - visited, 1
    {
      hide Soundly, DrawnFrom, OpenAt, Below, UnderSome, Sorted, Descends, ChildrenList, DistinctIds, ChildrenIn,
        Sort, Collates;
      var children := Sort(Less(before), if parent in childrenByParent then childrenByParent[parent] else []);
      ChildrenAreSorted(cards, before, parent);
      NoChildDrawnYet(cards, focus, base, before, visited, descendants, parent);
      NothingUnder(cards, focus, children[..0]);
      for i := 0 to |children|
        invariant Sound() && old(descendants) <= descendants && old(visited) <= visited
        invariant AtLeast(descendants, |old(descendants)|, depth) && OpenAt(focus, base, descendants, parent, depth)
        invariant forall id :: id in visited <==> id in old(visited) || UnderSome(cards, focus, children[..i], id)
        invariant DrawnFrom(cards, descendants, children[..i], parent)
      {
        if children[i].id in visited {
          SkipLosesNothing(cards, focus, children, i, parent, d, old(visited), visited);
          DrawnFromMore(cards, descendants, children, i, parent);
        } else {
          UnderOneMore(cards, focus, children, i);
          BranchUntouched(cards, focus, children, i, parent, d);
          ghost var drawn := descendants;
          Visit(children, i, parent, depth, d);
          StaysOpen(focus, base, drawn, descendants, parent, depth);
          AtLeastMore(old(descendants), drawn, descendants, depth);
        }
      }
      assert children[..|children|] == children;
      BelowIsUnderSome(cards, focus, children, parent);
    }
  }

  lemma StepDown(cards: seq<Card>, focus: string, child: string, parent: string, d: nat)
    requires ParentOf(cards, child) == Some(parent) && Descends(cards, parent, focus, d) && child != focus
    ensures Descends(cards, child, focus, d + 1)
  {
  }

  // ── Up and down agree ──────────────────

  lemma {:induction false} ChainBelow(cards: seq<Card>, path: seq<string>, id: string, i: nat, j: nat)
    requires PathTo(cards, path, id) && i <= j < |path|
    ensures Descends(cards, path[j], path[i], j - i)
    decreases j
  {
    if i < j {
      assert ParentOf(cards, path[j - 1 + 1]) == Some(path[j - 1]);
      ChainBelow(cards, path, id, i, j - 1);
    }
  }

  lemma {:induction false} AlongTheChain(cards: seq<Card>, path: seq<string>, id: string, focus: string, k: nat, j: nat)
    requires IsChain(cards, path, id) && Descends(cards, id, focus, k) && j <= k
    ensures j < |path| && Descends(cards, path[|path| - 1 - j], focus, k - j)
    decreases j
  {
    hide ParentOf;
    if j > 0 {
      AlongTheChain(cards, path, id, focus, k, j - 1);
      var last := |path| - 1;
      var p := ParentOf(cards, path[last - (j - 1)]).value;
      if last - (j - 1) > 0 {
        assert ParentOf(cards, path[last - j + 1]) == Some(path[last - j]);
      } else {
        var i :| 0 <= i < |path| && path[i] == p;
        AlongTheChain(cards, path, id, focus, k, last - i);
        DistanceUnique(cards, p, focus, k - (last - i), k - j);
      }
    }
  }

  /** A card hangs below the focus exactly when its own recorded chain passes through the focus. */
  lemma BelowIffOnItsChain(cards: seq<Card>, path: seq<string>, id: string, focus: string)
    requires IsChain(cards, path, id) && id != focus
    ensures focus in path <==> Reaches(cards, id, focus)
  {
    if focus in path {
      var i :| 0 <= i < |path| && path[i] == focus;
      ChainBelow(cards, path, id, i, |path| - 1);
      assert Descends(cards, id, focus, |path| - 1 - i);
    }
    if k: nat :| Descends(cards, id, focus, k) {
      AlongTheChain(cards, path, id, focus, k, k);
      assert path[|path| - 1 - k] == focus;
    }
  }

  // ── The whole tree ─────────────────────

  function RowIds(rows: seq<Row>): seq<string> {
    seq(|rows|, i requires 0 <= i < |rows| => rows[i].id)
  }

  ghost predicate IsTreeOf(cards: seq<Card>, before: (string, string) -> bool, focus: Card, tree: Tree) {
    && tree.origin == OriginOf(cards, focus)
    // the chain, oldest first
    && IsChain(cards, RowIds(tree.chain), focus.id)
    && (forall i | 0 <= i < |tree.chain| :: tree.chain[i].depth == i)
    // the descendants: which, each once, how deep, in which order
    && (forall id :: HasRow(tree.descendants, id) <==> id != focus.id && Reaches(cards, id, focus.id))
    && RowsUnique(tree.descendants)
    && RowsDeep(cards, focus.id, |tree.chain|, tree.descendants)
    && ParentFirst(cards, focus.id, tree.descendants)
    && SiblingsInOrder(cards, before, tree.descendants)
    && DepthFirst(cards, focus.id, |tree.chain|, tree.descendants)
    // the cards of the same press
    && (tree.batch.Some? <==> IsBatchCard(focus))
    && (tree.batch.Some? ==> IsPressOf(cards, before, focus, tree.batch.value))
  }

  ghost predicate Reaches(cards: seq<Card>, id: string, focus: string) {
    exists k: nat :: Descends(cards, id, focus, k)
  }

  lemma BelowFocusIsReaching(cards: seq<Card>, id: string, focus: string)
    requires id != focus
    ensures Below(cards, focus, id, focus) <==> Reaches(cards, id, focus)
  {
    if Below(cards, focus, id, focus) {
      var k: nat :| k >= 1 && Through(cards, focus, id, focus, k);
      ThroughFocusIsDescends(cards, focus, id, k);
    }
    if Reaches(cards, id, focus) {
      var k: nat :| Descends(cards, id, focus, k);
      ThroughFocusIsDescends(cards, focus, id, k);
    }
  }

  lemma WalkedEverything(cards: seq<Card>, focus: string, base: nat, before: (string, string) -> bool,
                         visited: set<string>, rows: seq<Row>)
    requires Soundly(cards, focus, base, before, visited, rows)
    requires forall id :: id in visited <==> id == focus || Below(cards, focus, id, focus)
    ensures forall id :: HasRow(rows, id) <==> id != focus && Reaches(cards, id, focus)
  {
    forall id | id != focus ensures HasRow(rows, id) <==> Reaches(cards, id, focus) {
      BelowFocusIsReaching(cards, id, focus);
      assert id in visited <==> HasRow(rows, id);
    }
  }

  /** Nothing hangs below the focus twice, and the focus not below itself. */
  lemma FocusNotBelowItself(cards: seq<Card>, focus: string)
    ensures !Below(cards, focus, focus, focus)
  {
  }

  /** `buildCanvasLineageTree`, on any board at all. */
  method BuildLineageTree(cards: seq<Card>, focusId: string, before: (string, string) -> bool)
    returns (tree: Option<Tree>)
    requires DistinctIds(cards) && Collates(before)
    ensures tree.Some? <==> OnBoardId(cards, focusId)
    ensures tree.Some? ==> IsTreeOf(cards, before, CardAt(cards, focusId), tree.value)
  {
    if !OnBoardId(cards, focusId) {
      return None;
    }
    var focus := CardAt(cards, focusId);
    var path, origin := AncestorChain(cards, focus);
    var chain := seq(|path|, i requires 0 <= i < |path| => Row(path[i], i));
    assert RowIds(chain) == path;
    var childrenByParent := ChildrenByParent(cards);
    var walk := new DownWalk(cards, focusId, |chain|, before, childrenByParent);
    assert !HasRow([], focusId);
    FocusNotBelowItself(cards, focusId);
    walk.WalkDown(focusId, |chain|, 0);
    WalkedEverything(cards, focusId, |chain|, before, walk.visited, walk.descendants);
    var batch := None;
    if IsBatchCard(focus) {
      var members := Press(cards, before, focus.job);
      batch := Some(Batch(BatchSize(focus).value,
                          seq(|members|, i requires 0 <= i < |members| => Row(members[i].id, 0))));
      PressIsDrawn(cards, before, focus, batch.value);
    }
    tree := Some(Tree(origin, chain, walk.descendants, batch));
  }
}
