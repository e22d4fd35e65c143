/** What the board keeps over every run of placements, deletions and browser reports. */
module CanvasSafety {
  import opened Basics
  import opened CanvasBoard

  // ── The board invariant ────────────────

  /** Cards of the same job. */
  predicate Kin(c: Card, d: Card) {
    c.job.Some? && c.job == d.job
  }

  ghost predicate Listed(jobs: Jobs, cards: seq<Card>) {
    forall i | 0 <= i < |cards| :: cards[i].job.Some? && cards[i].output.Some? ==>
      cards[i].job.value in jobs && cards[i].output.value in jobs[cards[i].job.value]
  }

  /** Live cards of a job show different outputs, and only the oldest may still show none. */
  ghost predicate Siblings(cards: seq<Card>) {
    forall i, j | 0 <= i < j < |cards| :: Kin(cards[i], cards[j]) && Live(cards[i]) && Live(cards[j]) ==>
      cards[j].output.Some? && cards[i].output != cards[j].output
  }

  /** While a card of the job shows nothing yet, nobody else shows the job's first output. */
  ghost predicate FirstOutputWaits(jobs: Jobs, cards: seq<Card>) {
    forall i, j | 0 <= i < |cards| && 0 <= j < |cards| ::
      (&& Kin(cards[i], cards[j]) && Live(cards[i]) && Live(cards[j]) && cards[i].output.None? && cards[j].output.Some?
       && cards[i].job.value in jobs) ==> IndexOf(jobs[cards[i].job.value], cards[j].output.value) != Some(0)
  }

  /** No live card shows what a tombstone of its job shows — a tombstone showing nothing included. */
  ghost predicate TombstonesHold(cards: seq<Card>) {
    forall i, j | 0 <= i < |cards| && 0 <= j < |cards| ::
      Kin(cards[i], cards[j]) && !Live(cards[i]) && Live(cards[j]) ==> cards[i].output != cards[j].output
  }

  ghost predicate RecordsOk(jobs: Jobs) {
    forall job | job in jobs :: Fresh(jobs[job])
  }

  ghost predicate BoardOk(jobs: Jobs, cards: seq<Card>) {
    Listed(jobs, cards) && Siblings(cards) && FirstOutputWaits(jobs, cards) && TombstonesHold(cards) && RecordsOk(jobs)
  }

  // ── What each transaction knows ────────

  ghost predicate Checked(jobs: Jobs, cards: seq<Card>, r: Request, index: Option<nat>) {
    && r.job in jobs && index == OutputIndex(jobs[r.job], r.output)
    && (r.output.Some? ==> index.Some?)
    && !JobTombstone(cards, r.job)
    && (r.output.Some? ==> !OutputTombstone(cards, r.job, r.output.value))
  }

  /** The card still shows this, or was deleted as one in flight. */
  predicate Shows(c: Card, output: Option<string>) {
    c.output == output || (!Live(c) && c.output == None)
  }

  ghost predicate SeenOk(cards: seq<Card>, card: nat, job: Option<string>, seen: Option<string>) {
    && card < |cards| && cards[card].job == job
    && (seen.Some? ==> Shows(cards[card], seen))
    && (seen.None? && job.Some? ==> forall i | 0 <= i < card :: cards[i].job == job ==> !Live(cards[i]))
  }

  predicate Holds(s: State, job: string, tx: string) {
    job in s.locks && s.locks[job] == tx
  }

  /** What makes the write of a placement safe, whatever was reported since it looked. */
  ghost predicate WriteSafe(cards: seq<Card>, r: Request, index: Option<nat>, existing: Option<nat>, before: Card) {
    match existing
    case Some(e) =>
      && e < |cards| && Owns(cards[e], r.job) && Live(cards[e])
      && (PatchFor(r, index, before).bind ==> cards[e].output == None || cards[e].output == r.output)
    case None =>
      forall i | 0 <= i < |cards| && Owns(cards[i], r.job) && Live(cards[i]) ::
        r.output.Some? && cards[i].output != r.output && (cards[i].output.None? ==> index != Some(0))
  }

  ghost predicate TxOk(s: State, tx: string, p: Phase) {
    match p
    case PlaceLocked(r) => Holds(s, r.job, tx)
    case PlaceChecked(r, index) => Holds(s, r.job, tx) && Checked(s.jobs, s.cards, r, index)
    case PlaceFound(r, index, existing, before) =>
      && Holds(s, r.job, tx) && Checked(s.jobs, s.cards, r, index)
      && WriteSafe(s.cards, r, index, existing, before)
    case DeleteSeen(card, job, seen) => SeenOk(s.cards, card, job, seen)
    case DeleteLocked(card, job, seen) => SeenOk(s.cards, card, job, seen) && (job.Some? ==> Holds(s, job.value, tx))
  }

  ghost predicate Inv(s: State) {
    BoardOk(s.jobs, s.cards) && forall tx | tx in s.txs :: TxOk(s, tx, s.txs[tx])
  }

  // ── What one step promises the others ───

  /** For one job: the same cards, live and bound as before. */
  ghost predicate SameCards(cards: seq<Card>, cards': seq<Card>, job: string) {
    && |cards| <= |cards'|
    && (forall i | 0 <= i < |cards| :: Owns(cards[i], job) ==>
                                         Live(cards'[i]) == Live(cards[i]) && cards'[i].output == cards[i].output)
    && (forall i | |cards| <= i < |cards'| :: !Owns(cards'[i], job))
  }

  /** Cards keep their job, tombstones never change, and a bound card keeps its output or dies blank. */
  ghost predicate CardsGrow(cards: seq<Card>, cards': seq<Card>) {
    && |cards| <= |cards'|
    && forall i | 0 <= i < |cards| ::
      && cards'[i].job == cards[i].job
      && (!Live(cards[i]) ==> cards'[i] == cards[i])
      && (cards[i].output.Some? ==> Shows(cards'[i], cards[i].output))
  }

  ghost predicate RecordsGrow(jobs: Jobs, jobs': Jobs) {
    forall job | job in jobs :: job in jobs' && jobs[job] <= jobs'[job]
  }

  ghost predicate Guarantee(s: State, s': State, me: Option<string>) {
    && CardsGrow(s.cards, s'.cards) && RecordsGrow(s.jobs, s'.jobs)
    && forall job | job in s.locks && me != Some(s.locks[job]) ::
      job in s'.locks && s'.locks[job] == s.locks[job] && SameCards(s.cards, s'.cards, job)
  }

  lemma {:induction false} IndexOfGrows(a: seq<string>, b: seq<string>, g: string)
    requires a <= b && g in a
    ensures IndexOf(b, g) == IndexOf(a, g)
  {
    assert a[0] == b[0];
    if a[0] != g {
      IndexOfGrows(a[1..], b[1..], g);
    }
  }

  lemma CheckedStable(s: State, s': State, me: Option<string>, tx: string, r: Request, index: Option<nat>)
    requires Guarantee(s, s', me) && Holds(s, r.job, tx) && me != Some(tx) && Checked(s.jobs, s.cards, r, index)
    ensures Checked(s'.jobs, s'.cards, r, index)
  {
    assert SameCards(s.cards, s'.cards, r.job) && s.jobs[r.job] <= s'.jobs[r.job];
    if r.output.Some? {
      IndexOfGrows(s.jobs[r.job], s'.jobs[r.job], r.output.value);
    }
  }

  lemma TxStable(s: State, s': State, me: Option<string>, tx: string, p: Phase)
    requires TxOk(s, tx, p) && Guarantee(s, s', me) && me != Some(tx)
    ensures TxOk(s', tx, p)
  {
    if p.PlaceChecked? {
      CheckedStable(s, s', me, tx, p.request, p.index);
    }
    if p.PlaceFound? {
      CheckedStable(s, s', me, tx, p.request, p.index);
      assert SameCards(s.cards, s'.cards, p.request.job) && CardsGrow(s.cards, s'.cards);
    }
  }

  lemma StepKeeps(s: State, s': State, me: Option<string>)
    requires Inv(s) && BoardOk(s'.jobs, s'.cards) && Guarantee(s, s', me)
    requires forall tx | tx in s'.txs && me != Some(tx) :: tx in s.txs && s'.txs[tx] == s.txs[tx]
    requires forall tx | tx in s'.txs && me == Some(tx) :: TxOk(s', tx, s'.txs[tx])
    ensures Inv(s')
  {
    hide TxOk, Guarantee, BoardOk;
    forall tx | tx in s'.txs && me != Some(tx) ensures TxOk(s', tx, s'.txs[tx]) {
      TxStable(s, s', me, tx, s.txs[tx]);
    }
  }

  // ── Writes keep the board ──────────────

  lemma BindKeeps(jobs: Jobs, cards: seq<Card>, e: nat, g: string, status: CardStatus)
    requires BoardOk(jobs, cards) && e < |cards| && Live(cards[e]) && cards[e].output.None? && status != Deleted
    requires cards[e].job.Some? ==> cards[e].job.value in jobs && g in jobs[cards[e].job.value]
    requires forall i | 0 <= i < |cards| && i != e :: Kin(cards[i], cards[e]) ==> cards[i].output != Some(g)
    ensures BoardOk(jobs, cards[e := Card(cards[e].job, Some(g), status)])
  {
  }

  lemma RestatusKeeps(jobs: Jobs, cards: seq<Card>, e: nat, status: CardStatus)
    requires BoardOk(jobs, cards) && e < |cards| && Live(cards[e]) && status != Deleted
    ensures BoardOk(jobs, cards[e := cards[e].(status := status)])
  {
  }

  lemma AppendKeeps(jobs: Jobs, cards: seq<Card>, c: Card)
    requires BoardOk(jobs, cards)
    requires c.job.Some? && c.output.Some? ==> c.job.value in jobs && c.output.value in jobs[c.job.value]
    requires forall i | 0 <= i < |cards| && Kin(cards[i], c) && Live(cards[i]) ::
      c.output.Some? && cards[i].output != c.output
    requires forall i | 0 <= i < |cards| && Kin(cards[i], c) && !Live(cards[i]) && Live(c) ::
      cards[i].output != c.output
    requires forall i | 0 <= i < |cards| && Kin(cards[i], c) && Live(cards[i]) && cards[i].output.None?
      && c.job.value in jobs ::
      IndexOf(jobs[c.job.value], c.output.value) != Some(0)
    ensures BoardOk(jobs, cards + [c])
  {
    var cards' := cards + [c];
    assert forall i | 0 <= i < |cards'| :: cards'[i] == if i < |cards| then cards[i] else c;
  }

  lemma TombstoneKeeps(jobs: Jobs, cards: seq<Card>, card: nat, seen: Option<string>)
    requires BoardOk(jobs, cards) && card < |cards| && SeenOk(cards, card, cards[card].job, seen)
    ensures BoardOk(jobs, cards[card := Tombstoned(cards[card], seen)])
  {
    var cards' := cards[card := Tombstoned(cards[card], seen)];
    forall i, j | 0 <= i < |cards'| && 0 <= j < |cards'| && Kin(cards'[i], cards'[j]) && !Live(cards'[i])
      && Live(cards'[j])
      ensures cards'[i].output != cards'[j].output
    {
      if i == card && Live(cards[card]) {
        assert i < j ==> cards[j].output.Some? && cards[i].output != cards[j].output;
        assert j < i ==> cards[i].output.Some? && cards[i].output != cards[j].output;
      }
    }
  }

  lemma ProduceKeeps(jobs: Jobs, cards: seq<Card>, job: string, outputs: seq<string>)
    requires BoardOk(jobs, cards) && Fresh(outputs)
    requires job in jobs ==> jobs[job] <= outputs
    ensures BoardOk(jobs[job := outputs], cards)
  {
    var jobs' := jobs[job := outputs];
    forall i, j | && 0 <= i < |cards| && 0 <= j < |cards| && Kin(cards[i], cards[j]) && Live(cards[i]) && Live(cards[j])
                  && cards[i].output.None? && cards[j].output.Some? && cards[i].job.value in jobs'
      ensures IndexOf(jobs'[cards[i].job.value], cards[j].output.value) != Some(0)
    {
      if cards[i].job.value == job {
        IndexOfGrows(jobs[job], outputs, cards[j].output.value);
      }
    }
  }

  // ── Each step ──────────────────────────

  /** What the lookup finds is safe to write on. */
  lemma FoundIsSafe(jobs: Jobs, cards: seq<Card>, r: Request, index: Option<nat>)
    requires Siblings(cards) && (index.Some? ==> r.output.Some?)
    ensures var e := Existing(cards, r, index);
      WriteSafe(cards, r, index, e, if e.Some? then cards[e.value] else NewCard(r))
  {
    if Existing(cards, r, index).None? {
      forall i | 0 <= i < |cards| && Owns(cards[i], r.job) && Live(cards[i])
        ensures r.output.Some? && cards[i].output != r.output && (cards[i].output.None? ==> index != Some(0))
      {
        assert !Wanted(cards[i], r.job, r.output);
        assert Wanted(cards[i], r.job, None);
      }
    }
  }

  /** The write of a placement, whichever card it lands on. */
  lemma PlacedKeeps(jobs: Jobs, cards: seq<Card>, r: Request, index: Option<nat>, existing: Option<nat>, before: Card)
    requires BoardOk(jobs, cards) && Checked(jobs, cards, r, index) && WriteSafe(cards, r, index, existing, before)
    ensures BoardOk(jobs, PlacedOn(cards, r, index, existing, before))
  {
    if existing.Some? {
      PlacedOnExisting(jobs, cards, r, index, existing.value, before);
    } else {
      PlacedFresh(jobs, cards, r, index, before);
    }
  }

  lemma PlacedOnExisting(jobs: Jobs, cards: seq<Card>, r: Request, index: Option<nat>, e: nat, before: Card)
    requires BoardOk(jobs, cards) && Checked(jobs, cards, r, index) && WriteSafe(cards, r, index, Some(e), before)
    ensures BoardOk(jobs, PlacedOn(cards, r, index, Some(e), before))
  {
    var p := PatchFor(r, index, before);
    var status := if p.finish then Done else cards[e].status;
    if p.bind && cards[e].output.None? {
      forall i | 0 <= i < |cards| && i != e && Kin(cards[i], cards[e]) ensures cards[i].output != r.output {
        if !Live(cards[i]) {
          assert Owns(cards[i], r.job);
        }
      }
      BindKeeps(jobs, cards, e, r.output.value, status);
    } else {
      RestatusKeeps(jobs, cards, e, status);
    }
  }

  lemma PlacedFresh(jobs: Jobs, cards: seq<Card>, r: Request, index: Option<nat>, before: Card)
    requires BoardOk(jobs, cards) && Checked(jobs, cards, r, index) && WriteSafe(cards, r, index, None, before)
    ensures BoardOk(jobs, cards + [NewCard(r)])
  {
    AppendKeeps(jobs, cards, NewCard(r));
  }

  lemma PlaceWriteKeeps(s: State, tx: string)
    requires Inv(s) && tx in s.txs && s.txs[tx].PlaceFound?
    ensures Inv(ApplyPlaceWrite(s, tx))
  {
    var p, s' := s.txs[tx], ApplyPlaceWrite(s, tx);
    assert TxOk(s, tx, p);
    PlacedKeeps(s.jobs, s.cards, p.request, p.index, p.existing, p.before);
    PlacedGuarantee(s, s', tx);
    hide BoardOk, Guarantee, TxOk;
    StepKeeps(s, s', Some(tx));
  }

  lemma PlacedGuarantee(s: State, s': State, tx: string)
    requires tx in s.txs && s.txs[tx].PlaceFound? && TxOk(s, tx, s.txs[tx])
    requires s' == ApplyPlaceWrite(s, tx)
    ensures Guarantee(s, s', Some(tx))
  {
  }

  lemma DeleteWriteKeeps(s: State, tx: string)
    requires Inv(s) && tx in s.txs && s.txs[tx].DeleteLocked?
    ensures Inv(ApplyDeleteWrite(s, tx))
  {
    var p, s' := s.txs[tx], ApplyDeleteWrite(s, tx);
    assert TxOk(s, tx, p);
    TombstoneKeeps(s.jobs, s.cards, p.card, p.seen);
    assert Guarantee(s, s', Some(tx));
    hide BoardOk, Guarantee, TxOk;
    StepKeeps(s, s', Some(tx));
  }

  lemma PlaceFindKeeps(s: State, tx: string)
    requires Inv(s)
    ensures Inv(ApplyPlaceFind(s, tx))
  {
    if tx in s.txs && s.txs[tx].PlaceChecked? {
      var s' := ApplyPlaceFind(s, tx);
      assert TxOk(s, tx, s.txs[tx]);
      FoundIsSafe(s.jobs, s.cards, s.txs[tx].request, s.txs[tx].index);
      assert TxOk(s', tx, s'.txs[tx]);
      hide BoardOk, TxOk, Existing, WriteSafe, Checked;
      StepKeeps(s, s', Some(tx));
    }
  }

  lemma PlaceStepKeeps(s: State, step: Step)
    requires Inv(s) && (step.PlaceLock? || step.PlaceCheck? || step.Abort?)
    ensures Inv(Apply(s, step))
  {
    var s' := Apply(s, step);
    if s' != s {
      assert BoardOk(s'.jobs, s'.cards);
      assert Guarantee(s, s', Some(step.tx));
      assert step.tx in s.txs ==> TxOk(s, step.tx, s.txs[step.tx]);
      assert forall tx | tx in s'.txs && tx == step.tx :: TxOk(s', tx, s'.txs[tx]);
      hide BoardOk, Guarantee, TxOk, Apply;
      StepKeeps(s, s', Some(step.tx));
    }
  }

  lemma DeleteReadKeeps(s: State, tx: string, card: nat)
    requires Inv(s)
    ensures Inv(ApplyDeleteRead(s, tx, card))
  {
    var s' := ApplyDeleteRead(s, tx, card);
    if s' != s {
      assert TxOk(s', tx, s'.txs[tx]);
      hide BoardOk, TxOk;
      StepKeeps(s, s', Some(tx));
    }
  }

  lemma DeleteLockKeeps(s: State, tx: string)
    requires Inv(s)
    ensures Inv(ApplyDeleteLock(s, tx))
  {
    var s' := ApplyDeleteLock(s, tx);
    if s' != s {
      assert TxOk(s, tx, s.txs[tx]);
      assert TxOk(s', tx, s'.txs[tx]);
      hide BoardOk, TxOk;
      StepKeeps(s, s', Some(tx));
    }
  }

  // ── Browser reports ────────────────────

  /** A report that would put an output on a card. */
  predicate Binds(s: State, step: Step) {
    && step.Report? && step.output.Some?
    && ReportAccepted(s.jobs, s.cards, step.card, step.status, step.output)
    && Overwritable(s.cards[step.card]) && s.cards[step.card].job.Some?
  }

  /** The card's job already has a card, live or removed, for what the report carries. */
  predicate Duplicates(s: State, step: Step)
    requires Binds(s, step)
  {
    exists i :: 0 <= i < |s.cards| && Kin(s.cards[i], s.cards[step.card]) && s.cards[i].output == step.output
  }

  /**
   * A placement of the job is about to write on what the report changes: it would re-point the
   * reported card to another output, or add a second card for the reported one.
   */
  predicate Collides(p: Phase, job: string, card: nat, output: Option<string>) {
    && p.PlaceFound? && p.request.job == job
    && match p.existing
       case Some(e) => e == card && PatchFor(p.request, p.index, p.before).bind && p.request.output != output
       case None => p.request.output == output
  }

  predicate Hurts(s: State, step: Step)
    requires Binds(s, step)
  {
    exists tx :: tx in s.txs && Collides(s.txs[tx], s.cards[step.card].job.value, step.card, step.output)
  }

  /** Reports are orderly when they bind nothing, or bind a new output no placement is about to write over. */
  predicate Orderly(s: State, step: Step) {
    Binds(s, step) ==> !Duplicates(s, step) && !Hurts(s, step)
  }

  /** The board after a report that binds. */
  lemma BoundState(s: State, step: Step)
    requires Binds(s, step)
    ensures Apply(s, step) == s.(cards := s.cards[step.card := Card(s.cards[step.card].job, step.output, step.status)])
  {
  }

  lemma ReportTxOk(s: State, step: Step, tx: string)
    requires Inv(s) && Binds(s, step) && tx in s.txs
    requires !Collides(s.txs[tx], s.cards[step.card].job.value, step.card, step.output)
    ensures TxOk(Apply(s, step), tx, s.txs[tx])
  {
    hide Apply, BoardOk, Existing, IndexOf;
    BoundState(s, step);
    assert TxOk(s, tx, s.txs[tx]);
  }

  lemma BindingReportKeeps(s: State, step: Step)
    requires Inv(s) && Binds(s, step) && !Duplicates(s, step) && !Hurts(s, step)
    ensures Inv(Apply(s, step))
  {
    hide Apply, TxOk, BoardOk, Collides;
    BoundState(s, step);
    BindKeeps(s.jobs, s.cards, step.card, step.output.value, step.status);
    forall tx | tx in s.txs ensures TxOk(Apply(s, step), tx, s.txs[tx]) {
      ReportTxOk(s, step, tx);
    }
  }

  lemma ReportKeeps(s: State, step: Step)
    requires Inv(s) && step.Report? && Orderly(s, step)
    ensures Inv(Apply(s, step))
  {
    var s', card := Apply(s, step), step.card;
    if Binds(s, step) {
      BindingReportKeeps(s, step);
    } else if ReportAccepted(s.jobs, s.cards, card, step.status, step.output) && Overwritable(s.cards[card]) {
      if step.output.Some? {
        BindKeeps(s.jobs, s.cards, card, step.output.value, step.status);
      } else {
        RestatusKeeps(s.jobs, s.cards, card, step.status);
      }
      assert Guarantee(s, s', None);
      hide BoardOk, Guarantee, TxOk, Apply;
      StepKeeps(s, s', None);
    }
  }

  lemma OtherStepKeeps(s: State, step: Step)
    requires Inv(s) && (step.AddFree? || step.Produce?)
    ensures Inv(Apply(s, step))
  {
    var s' := Apply(s, step);
    if s' != s {
      if step.AddFree? {
        AppendKeeps(s.jobs, s.cards, Card(None, step.output, step.status));
      } else {
        ProduceKeeps(s.jobs, s.cards, step.job, s'.jobs[step.job]);
      }
      assert Guarantee(s, s', None);
      hide BoardOk, Guarantee, TxOk, Apply;
      StepKeeps(s, s', None);
    }
  }

  lemma {:induction false} ApplyKeeps(s: State, step: Step)
    requires Inv(s) && Orderly(s, step)
    ensures Inv(Apply(s, step))
  {
    hide Inv, Orderly;
    match step
    case PlaceWrite(tx) =>
      if tx in s.txs && s.txs[tx].PlaceFound? { PlaceWriteKeeps(s, tx); }
    case DeleteWrite(tx) =>
      if tx in s.txs && s.txs[tx].DeleteLocked? { DeleteWriteKeeps(s, tx); }
    case Report(_, _, _) => ReportKeeps(s, step);
    case AddFree(_, _) => OtherStepKeeps(s, step);
    case Produce(_, _) => OtherStepKeeps(s, step);
    case DeleteRead(tx, card) => DeleteReadKeeps(s, tx, card);
    case DeleteLock(tx) => DeleteLockKeeps(s, tx);
    case PlaceFind(tx) => PlaceFindKeeps(s, tx);
    case _ => PlaceStepKeeps(s, step);
  }
}
