/** What the merchant is promised about the board. */
module CanvasTheorems {
  import opened Basics
  import opened CanvasBoard
  import opened CanvasSafety

  ghost predicate OrderlyRun(s: State, steps: seq<Step>)
    decreases |steps|
  {
    steps == [] || (Orderly(s, steps[0]) && OrderlyRun(Apply(s, steps[0]), steps[1..]))
  }

  /** Without reports that bind outputs — placements and deletions alone — every run is orderly. */
  lemma {:induction false} PlacementsAndDeletionsAreOrderly(s: State, steps: seq<Step>)
    requires forall step | step in steps :: step.Report? ==> step.output.None?
    ensures OrderlyRun(s, steps)
    decreases |steps|
  {
    if steps != [] {
      assert steps[0] in steps;
      PlacementsAndDeletionsAreOrderly(Apply(s, steps[0]), steps[1..]);
    }
  }

  lemma {:induction false} RunKeeps(s: State, steps: seq<Step>)
    requires Inv(s) && OrderlyRun(s, steps)
    ensures Inv(Run(s, steps))
    decreases |steps|
  {
    hide Inv, Orderly, Apply;
    if steps != [] {
      ApplyKeeps(s, steps[0]);
      RunKeeps(Apply(s, steps[0]), steps[1..]);
    }
  }

  /**
   * Each job has at most one live card per output, at most one live card showing nothing, and that
   * one is the job's oldest; what a card shows is always on its job's record.
   */
  lemma OneCardPerOutput(init: State, steps: seq<Step>)
    requires Initial(init) && OrderlyRun(init, steps)
    ensures var t := Run(init, steps);
      && (forall i, j | 0 <= i < j < |t.cards| && Kin(t.cards[i], t.cards[j]) && Live(t.cards[i]) && Live(t.cards[j]) ::
            t.cards[i].output != t.cards[j].output && t.cards[j].output.Some?)
      && (forall i | 0 <= i < |t.cards| && t.cards[i].job.Some? && t.cards[i].output.Some? ::
            t.cards[i].job.value in t.jobs && t.cards[i].output.value in t.jobs[t.cards[i].job.value])
  {
    hide Apply;
    RunKeeps(init, steps);
  }

  // ── What a card shows ──────────────────

  /** The write of a placement that meets a live card showing something else than it brings. */
  ghost predicate Repoints(s: State, step: Step) {
    && step.PlaceWrite? && step.tx in s.txs && s.txs[step.tx].PlaceFound?
    && var p := s.txs[step.tx];
    && p.existing.Some? && p.existing.value < |s.cards|
    && PatchFor(p.request, p.index, p.before).bind
    && var c := s.cards[p.existing.value];
    && Live(c) && c.output.Some? && c.output != p.request.output
  }

  /** In any state at all, a step changes what a live card shows, or any tombstone, only like that. */
  lemma {:induction false} OutputsMoveIffRepointed(s: State, step: Step)
    ensures CardsGrow(s.cards, Apply(s, step).cards) <==> !Repoints(s, step)
    // …and a report leaves a card that shows something exactly as it is
    ensures step.Report? ==> forall i | 0 <= i < |s.cards| && s.cards[i].output.Some? ::
      Apply(s, step).cards[i] == s.cards[i]
  {
    hide Existing, Check, IndexOf;
    if Repoints(s, step) {
      var p := s.txs[step.tx];
      assert Apply(s, step).cards[p.existing.value].output == p.request.output;
    }
  }

  /** A live card's output goes from nothing to one fixed value; a tombstone never changes at all. */
  lemma StepGrows(s: State, step: Step)
    requires Inv(s)
    ensures CardsGrow(s.cards, Apply(s, step).cards)
  {
    hide Apply, Inv, CardsGrow;
    OutputsMoveIffRepointed(s, step);
    NeverRepoints(s, step);
  }

  lemma NeverRepoints(s: State, step: Step)
    requires Inv(s)
    ensures !Repoints(s, step)
  {
    hide BoardOk;
    assert step.PlaceWrite? && step.tx in s.txs ==> TxOk(s, step.tx, s.txs[step.tx]);
  }

  lemma {:induction false} OutputsAreFixed(s: State, steps: seq<Step>)
    requires Inv(s) && OrderlyRun(s, steps)
    ensures CardsGrow(s.cards, Run(s, steps).cards)
    decreases |steps|
  {
    hide Inv, Orderly, Apply;
    if steps != [] {
      StepGrows(s, steps[0]);
      ApplyKeeps(s, steps[0]);
      OutputsAreFixed(Apply(s, steps[0]), steps[1..]);
    }
  }

  // ── Deletion is final ──────────────────

  /** Every card of the job that is live now was live then, in its place, showing the same. */
  ghost predicate OnlyShrinks(cards: seq<Card>, cards': seq<Card>, job: string) {
    forall i | 0 <= i < |cards'| && Owns(cards'[i], job) && Live(cards'[i]) ::
      i < |cards| && Owns(cards[i], job) && Live(cards[i]) && cards[i].output == cards'[i].output
  }

  lemma TombstonedJobStep(s: State, step: Step, job: string)
    requires Inv(s) && JobTombstone(s.cards, job)
    ensures JobTombstone(Apply(s, step).cards, job) && OnlyShrinks(s.cards, Apply(s, step).cards, job)
  {
    var s' := Apply(s, step);
    StepGrows(s, step);
    assert JobTombstone(s'.cards, job) by {
      var i :| 0 <= i < |s.cards| && Owns(s.cards[i], job) && !Live(s.cards[i]) && s.cards[i].output == None;
      assert s'.cards[i] == s.cards[i];
    }
    if step.PlaceWrite? && step.tx in s.txs {
      assert TxOk(s, step.tx, s.txs[step.tx]);
    }
  }

  lemma {:induction false} TombstonedJobRun(s: State, steps: seq<Step>, job: string)
    requires Inv(s) && OrderlyRun(s, steps) && JobTombstone(s.cards, job)
    ensures JobTombstone(Run(s, steps).cards, job) && OnlyShrinks(s.cards, Run(s, steps).cards, job)
    decreases |steps|
  {
    hide Inv, Orderly, Apply, JobTombstone;
    if steps != [] {
      TombstonedJobStep(s, steps[0], job);
      ApplyKeeps(s, steps[0]);
      TombstonedJobRun(Apply(s, steps[0]), steps[1..], job);
    }
  }

  /** Every request of the job is refused. */
  ghost predicate JobClosed(jobs: Jobs, cards: seq<Card>, job: string) {
    forall r: Request :: r.job == job ==> Check(jobs, cards, r).Some?
  }

  lemma JobClosedIff(jobs: Jobs, cards: seq<Card>, job: string)
    ensures JobClosed(jobs, cards, job) <==> job !in jobs || JobTombstone(cards, job)
  {
    assert Check(jobs, cards, Request(job, None, None)).Some? <==> job !in jobs || JobTombstone(cards, job);
  }

  /** …now and after whatever orderly steps follow. */
  ghost predicate ClosedForGood(s: State, job: string) {
    forall steps | OrderlyRun(s, steps) :: JobClosed(Run(s, steps).jobs, Run(s, steps).cards, job)
  }

  lemma ClosedForGoodIff(s: State, job: string)
    requires Inv(s)
    ensures ClosedForGood(s, job) <==> JobTombstone(s.cards, job)
  {
    hide Inv, Apply, JobTombstone, Orderly, JobClosed;
    if JobTombstone(s.cards, job) {
      forall steps | OrderlyRun(s, steps) ensures JobClosed(Run(s, steps).jobs, Run(s, steps).cards, job) {
        TombstonedJobRun(s, steps, job);
        JobClosedIff(Run(s, steps).jobs, Run(s, steps).cards, job);
      }
    }
    if ClosedForGood(s, job) {
      RecordExists(s, job);
      var t := Run(s, [Produce(job, [])]);
      JobClosedIff(t.jobs, t.cards, job);
    }
  }

  /** A job can always come onto the record, with nothing delivered yet. */
  lemma RecordExists(s: State, job: string)
    requires Inv(s)
    ensures OrderlyRun(s, [Produce(job, [])])
    ensures var t := Run(s, [Produce(job, [])]); job in t.jobs && t.cards == s.cards
  {
    var outputs := if job in s.jobs then s.jobs[job] else [];
    assert outputs + [] == outputs && Fresh(outputs);
    assert Run(s, [Produce(job, [])]) == Apply(s, Produce(job, []));
  }

  /** What the write of a delete that saw its card in flight leaves, won or lost. */
  lemma InFlightDeletion(s: State, tx: string, job: string)
    requires Inv(s) && tx in s.txs && s.txs[tx].DeleteLocked? && s.txs[tx].job == Some(job) && s.txs[tx].seen == None
    ensures JobTombstone(ApplyDeleteWrite(s, tx).cards, job) <==> DeleteSucceeds(s, tx) || JobTombstone(s.cards, job)
  {
    var card, cards' := s.txs[tx].card, ApplyDeleteWrite(s, tx).cards;
    assert TxOk(s, tx, s.txs[tx]);
    hide BoardOk, TxOk;
    if DeleteSucceeds(s, tx) {
      assert Owns(cards'[card], job) && !Live(cards'[card]) && cards'[card].output == None;
    } else {
      assert cards' == s.cards;
    }
  }

  /**
   * A delete pressed on a card still in flight suppresses every later output of the job, over every
   * orderly continuation, exactly when it succeeds or an earlier one already did — even if a placement
   * bound an output to the card between the delete's read and its write. Nothing of the job then
   * appears or changes any more.
   */
  lemma {:induction false} InFlightDeletionIsFinal(init: State, before: seq<Step>, tx: string, job: string)
    requires Initial(init) && OrderlyRun(init, before)
    requires var s := Run(init, before);
      tx in s.txs && s.txs[tx].DeleteLocked? && s.txs[tx].job == Some(job) && s.txs[tx].seen == None
    ensures var s := Run(init, before); var s1 := Apply(s, DeleteWrite(tx));
      && (ClosedForGood(s1, job) <==> DeleteSucceeds(s, tx) || JobTombstone(s.cards, job))
      && (ClosedForGood(s1, job) ==>
            forall after | OrderlyRun(s1, after) :: OnlyShrinks(s1.cards, Run(s1, after).cards, job))
  {
    var s := Run(init, before);
    var s1 := Apply(s, DeleteWrite(tx));
    RunKeeps(init, before);
    ApplyKeeps(s, DeleteWrite(tx));
    InFlightDeletion(s, tx, job);
    hide Inv, Apply, OrderlyRun, JobTombstone, ClosedForGood, DeleteSucceeds, OnlyShrinks;
    ClosedForGoodIff(s1, job);
    if ClosedForGood(s1, job) {
      forall after | OrderlyRun(s1, after) ensures OnlyShrinks(s1.cards, Run(s1, after).cards, job) {
        TombstonedJobRun(s1, after, job);
      }
    }
  }

  /** What the write of a delete that saw the output `g` leaves, won or lost. */
  lemma SettledDeletion(s: State, tx: string, job: string, g: string)
    requires Inv(s) && tx in s.txs && s.txs[tx].DeleteLocked? && s.txs[tx].job == Some(job) && s.txs[tx].seen == Some(g)
    ensures var cards := ApplyDeleteWrite(s, tx).cards; var card := s.txs[tx].card;
      && card < |cards| && Owns(cards[card], job) && !Live(cards[card])
      && (cards[card].output == Some(g) || cards[card].output == None)
      && (DeleteSucceeds(s, tx) ==> cards[card].output == Some(g))
  {
    assert TxOk(s, tx, s.txs[tx]);
  }

  /** A removed output, or a job removed in flight, has no live card for it and no request through. */
  lemma TombstoneRefuses(jobs: Jobs, cards: seq<Card>, card: nat, job: string, g: string)
    requires BoardOk(jobs, cards) && card < |cards| && Owns(cards[card], job) && !Live(cards[card])
    requires cards[card].output == Some(g) || cards[card].output == None
    ensures forall r: Request :: r.job == job && r.output == Some(g) ==> Check(jobs, cards, r).Some?
    ensures cards[card].output == Some(g) ==>
      forall i | 0 <= i < |cards| && Owns(cards[i], job) && Live(cards[i]) :: cards[i].output != Some(g)
  {
  }

  /**
   * A delete pressed on a settled output is final whether it wins its race or not: every later request
   * for that output is refused. No live card shows it again, unless the delete lost to one that removed
   * the whole job, of which `InFlightDeletionIsFinal` speaks.
   */
  lemma {:induction false} SettledDeletionIsFinal(
      init: State, before: seq<Step>, after: seq<Step>, tx: string, job: string, g: string)
    requires Initial(init) && OrderlyRun(init, before)
    requires var s := Run(init, before);
      && tx in s.txs && s.txs[tx].DeleteLocked? && s.txs[tx].job == Some(job) && s.txs[tx].seen == Some(g)
      && OrderlyRun(Apply(s, DeleteWrite(tx)), after)
    ensures var s1 := Apply(Run(init, before), DeleteWrite(tx)); var t := Run(s1, after);
      && (forall r: Request :: r.job == job && r.output == Some(g) ==> Check(t.jobs, t.cards, r).Some?)
      && (DeleteSucceeds(Run(init, before), tx) || !JobTombstone(s1.cards, job) ==>
            forall i | 0 <= i < |t.cards| && Owns(t.cards[i], job) && Live(t.cards[i]) :: t.cards[i].output != Some(g))
  {
    var s := Run(init, before);
    var s1 := Apply(s, DeleteWrite(tx));
    var card := s.txs[tx].card;
    RunKeeps(init, before);
    ApplyKeeps(s, DeleteWrite(tx));
    SettledDeletion(s, tx, job, g);
    RunKeeps(s1, after);
    OutputsAreFixed(s1, after);
    var t := Run(s1, after);
    hide Apply, OrderlyRun, TxOk, BoardOk;
    assert t.cards[card] == s1.cards[card];
    TombstoneRefuses(t.jobs, t.cards, card, job, g);
  }

  // ── Browser reports ────────────────────

  /** What goes wrong when a report and a placement collide. */
  lemma CollisionHurts(s: State, step: Step, tx: string)
    requires Binds(s, step) && tx in s.txs && Collides(s.txs[tx], s.cards[step.card].job.value, step.card, step.output)
    ensures var t := Apply(s, step); var t' := Apply(t, PlaceWrite(tx)); var p := s.txs[tx];
      if p.existing.Some?
      then (Repoints(t, PlaceWrite(tx)) && t'.cards[step.card].output == p.request.output)
      else (&& t'.cards[step.card].output == t'.cards[|s.cards|].output == step.output
            && Kin(t'.cards[step.card], t'.cards[|s.cards|]))
  {
    hide Apply, Existing, IndexOf;
    BoundState(s, step);
    WriteAfter(Apply(s, step), tx);
  }

  lemma WriteAfter(s: State, tx: string)
    requires tx in s.txs && s.txs[tx].PlaceFound?
    requires s.txs[tx].existing.Some? ==> s.txs[tx].existing.value < |s.cards|
    ensures var p := s.txs[tx];
      Apply(s, PlaceWrite(tx)).cards == PlacedOn(s.cards, p.request, p.index, p.existing, p.before)
  {
  }

  /**
   * A report that binds an output keeps the board and every transaction's knowledge exactly when no
   * card of the job already carries the output and no placement is about to write over it.
   */
  lemma {:induction false} ReportSafeIff(s: State, step: Step)
    requires Inv(s) && Binds(s, step)
    ensures Inv(Apply(s, step)) <==> !Duplicates(s, step) && !Hurts(s, step)
  {
    if Duplicates(s, step) {
      DuplicateSpoils(s, step);
    } else if Hurts(s, step) {
      var tx :| tx in s.txs && Collides(s.txs[tx], s.cards[step.card].job.value, step.card, step.output);
      CollisionSpoils(s, step, tx);
    } else {
      BindingReportKeeps(s, step);
    }
  }

  lemma DuplicateSpoils(s: State, step: Step)
    requires Binds(s, step) && Duplicates(s, step)
    ensures !BoardOk(Apply(s, step).jobs, Apply(s, step).cards)
  {
    hide Apply;
    BoundState(s, step);
    var cards := Apply(s, step).cards;
    var i :| 0 <= i < |s.cards| && Kin(s.cards[i], s.cards[step.card]) && s.cards[i].output == step.output;
    assert cards[i] == s.cards[i] && Live(cards[step.card]) && Kin(cards[i], cards[step.card]);
    assert !Siblings(cards) || !TombstonesHold(cards);
  }

  lemma CollisionSpoils(s: State, step: Step, tx: string)
    requires Inv(s) && Binds(s, step) && tx in s.txs
    requires Collides(s.txs[tx], s.cards[step.card].job.value, step.card, step.output)
    ensures !TxOk(Apply(s, step), tx, s.txs[tx])
  {
    hide Apply, BoardOk, Existing, IndexOf;
    BoundState(s, step);
    assert TxOk(s, tx, s.txs[tx]);
    assert Owns(Apply(s, step).cards[step.card], s.txs[tx].request.job);
  }

  /** How far along a card is. */
  function Rank(status: CardStatus): nat {
    match status
    case Pending => 0
    case Timeout => 1
    case Failed => 2
    case Cancelled => 2
    case Missing => 2
    case Unknown => 2
    case Done => 3
    case Deleted => 4
  }

  ghost predicate Advances(cards: seq<Card>, cards': seq<Card>) {
    && |cards| <= |cards'|
    && forall i | 0 <= i < |cards| ::
      && Rank(cards[i].status) <= Rank(cards'[i].status)
      && (cards[i].output.Some? && Live(cards'[i]) ==> cards'[i].output.Some?)
  }

  lemma StepAdvances(s: State, step: Step)
    ensures Advances(s.cards, Apply(s, step).cards)
  {
  }

  /** In every interleaving whatsoever, cards only move up, and a bound card never goes blank while live. */
  lemma {:induction false} CardsOnlyMoveUp(s: State, steps: seq<Step>)
    ensures Advances(s.cards, Run(s, steps).cards)
    decreases |steps|
  {
    hide Apply;
    if steps != [] {
      StepAdvances(s, steps[0]);
      CardsOnlyMoveUp(Apply(s, steps[0]), steps[1..]);
    }
  }

  // ── Exactly once ───────────────────────

  function Place(jobs: Jobs, cards: seq<Card>, r: Request): seq<Card>
    requires r.job in jobs
  {
    var index := OutputIndex(jobs[r.job], r.output);
    var existing := Existing(cards, r, index);
    PlacedOn(cards, r, index, existing, if existing.Some? then cards[existing.value] else NewCard(r))
  }

  /** Card `e` is where the placement landed, and every other card is as it was. */
  ghost predicate LandedOn(cards: seq<Card>, once: seq<Card>, r: Request, e: nat) {
    && e < |once| && Live(once[e]) && Owns(once[e], r.job)
    && (r.output.Some? ==> once[e].output == r.output && (r.status == Some(Done) ==> once[e].status == Done))
    && (forall i | 0 <= i < |once| && i != e :: i < |cards| && once[i] == cards[i])
  }

  lemma Lands(jobs: Jobs, cards: seq<Card>, r: Request)
    requires Check(jobs, cards, r).None? && r.status != Some(Deleted)
    ensures var existing := Existing(cards, r, OutputIndex(jobs[r.job], r.output));
      LandedOn(cards, Place(jobs, cards, r), r, if existing.Some? then existing.value else |cards|)
  {
    hide IndexOf, JobTombstone, OutputTombstone;
  }

  lemma PassesAgain(jobs: Jobs, cards: seq<Card>, once: seq<Card>, r: Request, e: nat)
    requires Check(jobs, cards, r).None? && LandedOn(cards, once, r, e)
    ensures Check(jobs, once, r).None?
  {
    hide IndexOf;
  }

  lemma FoundAgain(cards: seq<Card>, once: seq<Card>, r: Request, index: Option<nat>)
    requires var existing := Existing(cards, r, index);
      LandedOn(cards, once, r, if existing.Some? then existing.value else |cards|)
    requires index.Some? ==> r.output.Some?
    ensures var existing := Existing(cards, r, index);
      Existing(once, r, index) == Some(if existing.Some? then existing.value else |cards|)
  {
  }

  /** Placing the same result again finds the same card and changes nothing. */
  lemma {:induction false} PlacementIsIdempotent(jobs: Jobs, cards: seq<Card>, r: Request)
    requires Check(jobs, cards, r).None? && r.status != Some(Deleted)
    ensures var once := Place(jobs, cards, r);
      Check(jobs, once, r).None? && Place(jobs, once, r) == once
  {
    var index := OutputIndex(jobs[r.job], r.output);
    var once := Place(jobs, cards, r);
    var existing := Existing(cards, r, index);
    hide Check, Existing, IndexOf, OutputIndex;
    Lands(jobs, cards, r);
    PassesAgain(jobs, cards, once, r, if existing.Some? then existing.value else |cards|);
    FoundAgain(cards, once, r, index);
  }
}
