/** "The cards of the same press": recorded size, recorded order, whatever the board looks like. */
module LineageBatch {
  import opened Basics
  import opened Ordering
  import opened LineageTree

  /** Where a card without a recorded position goes: last. */
  const MAX_SAFE_INTEGER := 9007199254740991

  /** How many cards the press produced, when the card can say. */
  function BatchSize(c: Card): Option<nat> {
    if c.batchSize.Some? && c.batchSize.value >= 1 then Some(c.batchSize.value) else None
  }

  predicate HasJob(c: Card) {
    c.job.Some? && c.job.value != ""
  }

  predicate IsBatchCard(c: Card) {
    HasJob(c) && GetOr(BatchSize(c), 1) > 1
  }

  function InPress(cards: seq<Card>, job: Option<string>): seq<Card> {
    if cards == [] then []
    else
      var last := cards[|cards| - 1];
      InPress(cards[..|cards| - 1], job) + (if HasJob(last) && last.job == job then [last] else [])
  }

  function PressLess(before: (string, string) -> bool): (Card, Card) -> bool {
    (l: Card, r: Card) =>
      GetOr(l.batchIndex, MAX_SAFE_INTEGER) < GetOr(r.batchIndex, MAX_SAFE_INTEGER)
      || (GetOr(l.batchIndex, MAX_SAFE_INTEGER) == GetOr(r.batchIndex, MAX_SAFE_INTEGER) && before(l.id, r.id))
  }

  function Press(cards: seq<Card>, before: (string, string) -> bool, job: Option<string>): seq<Card> {
    Sort(PressLess(before), InPress(cards, job))
  }

  ghost predicate OfPress(cards: seq<Card>, job: Option<string>, id: string) {
    OnBoardId(cards, id) && CardAt(cards, id).job == job
  }

  /** Every card of the press once, no other, in recorded order. */
  ghost predicate IsPressOf(cards: seq<Card>, before: (string, string) -> bool, focus: Card, batch: Batch) {
    && focus.batchSize == Some(batch.size)
    && (forall i | 0 <= i < |batch.rows| :: batch.rows[i].depth == 0 && OfPress(cards, focus.job, batch.rows[i].id))
    && (forall id | OfPress(cards, focus.job, id) :: exists i :: 0 <= i < |batch.rows| && batch.rows[i].id == id)
    && (forall i, j | 0 <= i < j < |batch.rows| :: batch.rows[i].id != batch.rows[j].id)
    && (forall i, j | 0 <= i < j < |batch.rows| && OfPress(cards, focus.job, batch.rows[i].id)
                      && OfPress(cards, focus.job, batch.rows[j].id) ::
          !PressLess(before)(CardAt(cards, batch.rows[j].id), CardAt(cards, batch.rows[i].id)))
  }

  lemma {:induction false} InPressMembers(cards: seq<Card>, job: Option<string>)
    ensures forall c :: c in InPress(cards, job) <==> c in cards && HasJob(c) && c.job == job
  {
    if cards != [] {
      InPressMembers(cards[..|cards| - 1], job);
      assert cards == cards[..|cards| - 1] + [cards[|cards| - 1]];
    }
  }

  lemma {:induction false} InPressOnce(cards: seq<Card>, job: Option<string>)
    requires DistinctIds(cards)
    ensures forall i, j | 0 <= i < j < |InPress(cards, job)| :: InPress(cards, job)[i] != InPress(cards, job)[j]
  {
    if cards != [] {
      var init := cards[..|cards| - 1];
      InPressOnce(init, job);
      InPressMembers(init, job);
      assert forall c | c in init :: c != cards[|cards| - 1];
    }
  }

  lemma {:induction false} CountOnce<T>(s: seq<T>, x: T)
    requires forall i, j | 0 <= i < j < |s| :: s[i] != s[j]
    ensures multiset(s)[x] <= 1
  {
    if s != [] {
      CountOnce(s[..|s| - 1], x);
      assert s == s[..|s| - 1] + [s[|s| - 1]];
      if x == s[|s| - 1] {
        assert x !in multiset(s[..|s| - 1]);
      }
    }
  }

  lemma TwiceCounts<T>(s: seq<T>, i: nat, j: nat)
    requires i < j < |s| && s[i] == s[j]
    ensures multiset(s)[s[i]] >= 2
  {
    assert s == s[..j] + [s[j]] + s[j + 1..];
    assert s[i] in multiset(s[..j]);
  }

  /** A rearrangement of a list without repeats has none. */
  lemma OnceStays<T>(s: seq<T>, t: seq<T>)
    requires multiset(s) == multiset(t) && forall i, j | 0 <= i < j < |s| :: s[i] != s[j]
    ensures forall i, j | 0 <= i < j < |t| :: t[i] != t[j]
  {
    forall i, j | 0 <= i < j < |t| ensures t[i] != t[j] {
      CountOnce(s, t[i]);
      if t[i] == t[j] {
        TwiceCounts(t, i, j);
      }
    }
  }

  lemma PressLessIsAnOrder(before: (string, string) -> bool)
    requires Collates(before)
    ensures Asymmetric(PressLess(before)) && NegTransitive(PressLess(before))
  {
    forall a, b ensures PressLess(before)(a, b) ==> !PressLess(before)(b, a) {
      assert before(a.id, b.id) ==> !before(b.id, a.id);
    }
    forall a: Card, b: Card, c: Card | !PressLess(before)(a, b) && !PressLess(before)(b, c)
      ensures !PressLess(before)(a, c)
    {
      assert !before(a.id, b.id) && !before(b.id, c.id) ==> !before(a.id, c.id);
    }
  }

  /** What the sorted list of a press is. */
  lemma PressFacts(cards: seq<Card>, before: (string, string) -> bool, job: Option<string>)
    requires DistinctIds(cards) && Collates(before)
    ensures var press := Press(cards, before, job);
      && (forall c :: c in press <==> c in cards && HasJob(c) && c.job == job)
      && (forall i, j | 0 <= i < j < |press| :: press[i] != press[j])
      && Sorted(PressLess(before), press)
  {
    InPressMembers(cards, job);
    InPressOnce(cards, job);
    PressLessIsAnOrder(before);
    SortKeepsElements(PressLess(before), InPress(cards, job));
    SortPermutes(PressLess(before), InPress(cards, job));
    SortSorts(PressLess(before), InPress(cards, job));
    OnceStays(InPress(cards, job), Press(cards, before, job));
  }

  /** The rows drawn for the press of a card that has one. */
  lemma PressIsDrawn(cards: seq<Card>, before: (string, string) -> bool, focus: Card, batch: Batch)
    requires DistinctIds(cards) && Collates(before) && IsBatchCard(focus) && BatchSize(focus) == Some(batch.size)
    requires var press := Press(cards, before, focus.job);
      |batch.rows| == |press| && forall i | 0 <= i < |press| :: batch.rows[i] == Row(press[i].id, 0)
    ensures IsPressOf(cards, before, focus, batch)
  {
    hide Press, PressLess, Sorted, CardAt;
    var press := Press(cards, before, focus.job);
    PressFacts(cards, before, focus.job);
    forall i | 0 <= i < |press| ensures OnBoardId(cards, press[i].id) && CardAt(cards, press[i].id) == press[i] {
      assert press[i] in press;
      CardOnBoard(cards, press[i]);
    }
    forall id | OfPress(cards, focus.job, id) ensures exists i :: 0 <= i < |press| && press[i].id == id {
      assert CardAt(cards, id) in press;
    }
    DrawnInOrder(press, before);
  }

  lemma DrawnInOrder(press: seq<Card>, before: (string, string) -> bool)
    requires Sorted(PressLess(before), press)
    ensures forall i, j | 0 <= i < j < |press| :: !PressLess(before)(press[j], press[i])
  {
  }

  lemma {:induction false} InPressPermutes(a: seq<Card>, job: Option<string>, x: Card)
    ensures multiset(InPress(a, job))[x] == if HasJob(x) && x.job == job then multiset(a)[x] else 0
  {
    if a != [] {
      InPressPermutes(a[..|a| - 1], job, x);
      assert a == a[..|a| - 1] + [a[|a| - 1]];
    }
  }

  /** No arrangement of the board can reorder a press: only what it recorded counts. */
  lemma {:induction false} ArrangementDoesNotMatter(
      a: seq<Card>, b: seq<Card>, before: (string, string) -> bool, job: Option<string>)
    requires DistinctIds(a) && DistinctIds(b) && multiset(a) == multiset(b) && Collates(before)
    requires forall x, y | x != y :: before(x, y) || before(y, x)
    ensures Press(a, before, job) == Press(b, before, job)
  {
    hide PressLess, Sorted, CardAt;
    PressFacts(a, before, job);
    PressFacts(b, before, job);
    forall x ensures multiset(InPress(a, job))[x] == multiset(InPress(b, job))[x] {
      InPressPermutes(a, job, x);
      InPressPermutes(b, job, x);
    }
    assert multiset(InPress(a, job)) == multiset(InPress(b, job));
    SortPermutes(PressLess(before), InPress(a, job));
    SortPermutes(PressLess(before), InPress(b, job));
    var pa, pb := Press(a, before, job), Press(b, before, job);
    forall x, y | x in pa && y in pa && x != y ensures PressLess(before)(x, y) || PressLess(before)(y, x) {
      CardOnBoard(a, x);
      CardOnBoard(a, y);
      NoTie(before, x, y);
    }
    SortedUnique(PressLess(before), pa, pb);
  }

  lemma NoTie(before: (string, string) -> bool, x: Card, y: Card)
    requires x.id != y.id && forall a, b | a != b :: before(a, b) || before(b, a)
    ensures PressLess(before)(x, y) || PressLess(before)(y, x)
  {
  }
}
