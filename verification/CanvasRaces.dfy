/**
 * The step system against the two calls: undisturbed they agree, and three concrete schedules show
 * where the promises of `CanvasTheorems` stop.
 */
module CanvasRaces {
  import opened Basics
  import opened CanvasBoard
  import opened CanvasSafety
  import opened CanvasTheorems

  function PlaceScript(tx: string, r: Request): seq<Step> {
    [PlaceLock(tx, r), PlaceCheck(tx), PlaceFind(tx), PlaceWrite(tx)]
  }

  function DeleteScript(tx: string, card: nat): seq<Step> {
    [DeleteRead(tx, card), DeleteLock(tx), DeleteWrite(tx)]
  }

  /** A run can be followed state by state. */
  lemma {:induction false} Chain(states: seq<State>, steps: seq<Step>)
    requires |states| == |steps| + 1
    requires forall i | 0 <= i < |steps| :: Apply(states[i], steps[i]) == states[i + 1]
    ensures Run(states[0], steps) == states[|steps|]
    decreases |steps|
  {
    hide Apply;
    if steps != [] {
      assert Apply(states[0], steps[0]) == states[1];
      assert forall i | 0 <= i < |steps[1..]| :: steps[1..][i] == steps[i + 1] && states[1..][i] == states[i + 1];
      Chain(states[1..], steps[1..]);
    }
  }

  lemma {:induction false} RunConcat(s: State, before: seq<Step>, after: seq<Step>)
    ensures Run(s, before + after) == Run(Run(s, before), after)
    decreases |before|
  {
    hide Apply;
    if before == [] {
      assert before + after == after;
    } else {
      assert (before + after)[0] == before[0] && (before + after)[1..] == before[1..] + after;
      RunConcat(Apply(s, before[0]), before[1..], after);
    }
  }

  // ── Undisturbed, the steps are the calls ───

  predicate Idle(s: State, tx: string, job: string) {
    tx !in s.txs && job !in s.locks
  }

  function WithTx(s: State, tx: string, job: string, p: Phase): State {
    s.(locks := s.locks[job := tx], txs := s.txs[tx := p])
  }

  lemma PlaceStepsRefused(s: State, tx: string, r: Request)
    requires Idle(s, tx, r.job) && Check(s.jobs, s.cards, r).Some?
    ensures ApplyPlaceLock(s, tx, r) == WithTx(s, tx, r.job, PlaceLocked(r))
    ensures ApplyPlaceCheck(WithTx(s, tx, r.job, PlaceLocked(r)), tx) == s
    ensures ApplyPlaceFind(s, tx) == s && ApplyPlaceWrite(s, tx) == s
  {
    hide Check;
    var s1 := WithTx(s, tx, r.job, PlaceLocked(r));
    assert s1.locks - {r.job} == s.locks && s1.txs - {tx} == s.txs;
  }

  function FoundPhase(s: State, r: Request): Phase
    requires r.job in s.jobs
  {
    var index := OutputIndex(s.jobs[r.job], r.output);
    var existing := Existing(s.cards, r, index);
    PlaceFound(r, index, existing, if existing.Some? then s.cards[existing.value] else NewCard(r))
  }

  lemma LocksAndChecks(s: State, tx: string, r: Request)
    requires Idle(s, tx, r.job) && Check(s.jobs, s.cards, r).None? && r.job in s.jobs
    ensures ApplyPlaceLock(s, tx, r) == WithTx(s, tx, r.job, PlaceLocked(r))
    ensures ApplyPlaceCheck(WithTx(s, tx, r.job, PlaceLocked(r)), tx)
         == WithTx(s, tx, r.job, PlaceChecked(r, OutputIndex(s.jobs[r.job], r.output)))
  {
    hide Check, OutputIndex;
  }

  lemma Finds(s: State, tx: string, r: Request)
    requires r.job in s.jobs
    ensures ApplyPlaceFind(WithTx(s, tx, r.job, PlaceChecked(r, OutputIndex(s.jobs[r.job], r.output))), tx)
         == WithTx(s, tx, r.job, FoundPhase(s, r))
  {
    hide Existing, OutputIndex;
  }

  lemma PlaceStepsPass(s: State, tx: string, r: Request)
    requires Idle(s, tx, r.job) && Check(s.jobs, s.cards, r).None?
    ensures r.job in s.jobs
    ensures var checked := PlaceChecked(r, OutputIndex(s.jobs[r.job], r.output));
      && ApplyPlaceLock(s, tx, r) == WithTx(s, tx, r.job, PlaceLocked(r))
      && ApplyPlaceCheck(WithTx(s, tx, r.job, PlaceLocked(r)), tx) == WithTx(s, tx, r.job, checked)
      && ApplyPlaceFind(WithTx(s, tx, r.job, checked), tx) == WithTx(s, tx, r.job, FoundPhase(s, r))
  {
    hide Idle, WithTx, FoundPhase, JobTombstone, OutputTombstone, ApplyPlaceLock, ApplyPlaceCheck, ApplyPlaceFind;
    LocksAndChecks(s, tx, r);
    Finds(s, tx, r);
  }

  lemma PlaceWritePasses(s: State, tx: string, r: Request)
    requires Idle(s, tx, r.job) && r.job in s.jobs
    ensures ApplyPlaceWrite(WithTx(s, tx, r.job, FoundPhase(s, r)), tx) == s.(cards := Place(s.jobs, s.cards, r))
  {
    hide PlacedOn;
    var s3 := WithTx(s, tx, r.job, FoundPhase(s, r));
    assert s3.txs - {tx} == s.txs && s3.locks - {r.job} == s.locks;
  }

  /** The four steps of a placement nobody disturbs do what the call does: refuse, or place. */
  lemma UndisturbedPlacement(s: State, tx: string, r: Request)
    requires Idle(s, tx, r.job)
    ensures Run(s, PlaceScript(tx, r)) ==
      if Check(s.jobs, s.cards, r).Some? then s else s.(cards := Place(s.jobs, s.cards, r))
  {
    hide Run, Check, Place, Idle, WithTx, FoundPhase, ApplyPlaceLock, ApplyPlaceCheck, ApplyPlaceFind,
      ApplyPlaceWrite, ApplyDeleteRead, ApplyDeleteLock, ApplyDeleteWrite, Ended, Reported, ApplyProduce;
    if Check(s.jobs, s.cards, r).Some? {
      PlaceStepsRefused(s, tx, r);
      Chain([s, WithTx(s, tx, r.job, PlaceLocked(r)), s, s, s], PlaceScript(tx, r));
    } else {
      PlaceStepsPass(s, tx, r);
      PlaceWritePasses(s, tx, r);
      Chain([s, WithTx(s, tx, r.job, PlaceLocked(r)),
             WithTx(s, tx, r.job, PlaceChecked(r, OutputIndex(s.jobs[r.job], r.output))),
             WithTx(s, tx, r.job, FoundPhase(s, r)), s.(cards := Place(s.jobs, s.cards, r))], PlaceScript(tx, r));
    }
  }

  lemma DeleteStepsPass(s: State, tx: string, card: nat, job: string)
    requires card < |s.cards| && Live(s.cards[card]) && Owns(s.cards[card], job) && Idle(s, tx, job)
    ensures var seen := s.cards[card].output; var s1 := s.(txs := s.txs[tx := DeleteSeen(card, Some(job), seen)]);
      && ApplyDeleteRead(s, tx, card) == s1
      && ApplyDeleteLock(s1, tx) == WithTx(s, tx, job, DeleteLocked(card, Some(job), seen))
      && ApplyDeleteWrite(WithTx(s, tx, job, DeleteLocked(card, Some(job), seen)), tx)
         == s.(cards := s.cards[card := s.cards[card].(status := Deleted)])
  {
    var s2 := WithTx(s, tx, job, DeleteLocked(card, Some(job), s.cards[card].output));
    assert s2.locks - {job} == s.locks && s2.txs - {tx} == s.txs;
  }

  lemma UndisturbedDeletion(s: State, tx: string, card: nat, job: string)
    requires card < |s.cards| && Live(s.cards[card]) && Owns(s.cards[card], job) && Idle(s, tx, job)
    ensures Run(s, DeleteScript(tx, card)) == s.(cards := s.cards[card := s.cards[card].(status := Deleted)])
  {
    hide Run, Idle, WithTx, ApplyPlaceLock, ApplyPlaceCheck, ApplyPlaceFind, ApplyPlaceWrite, ApplyDeleteRead,
      ApplyDeleteLock, ApplyDeleteWrite, Ended, Reported, ApplyProduce;
    var seen := s.cards[card].output;
    DeleteStepsPass(s, tx, card, job);
    Chain([s, s.(txs := s.txs[tx := DeleteSeen(card, Some(job), seen)]),
           WithTx(s, tx, job, DeleteLocked(card, Some(job), seen)),
           s.(cards := s.cards[card := s.cards[card].(status := Deleted)])], DeleteScript(tx, card));
  }

  // ── Where the promises stop ────────────

  const JOB := "job"
  const EMPTY := State(map[], [], map[], map[])
  const ANCHOR := Request(JOB, None, Some(Pending))
  const FIRST := Request(JOB, Some("a"), Some(Done))
  const SECOND := Request(JOB, Some("b"), Some(Done))
  const WAITING := Card(Some(JOB), None, Pending)

  /** A job of two outputs, and one card that still waits for the first. */
  const WAITS := State(map[JOB := ["a", "b"]], [WAITING], map[], map[])

  function Opening(): seq<Step> {
    [Produce(JOB, ["a", "b"])] + PlaceScript("t1", ANCHOR)
  }

  lemma StartReached(outputs: seq<string>)
    requires Fresh(outputs)
    ensures Run(EMPTY, [Produce(JOB, outputs)]) == State(map[JOB := outputs], [], map[], map[])
  {
    assert [] + outputs == outputs;
    assert ApplyProduce(EMPTY, JOB, outputs) == State(map[JOB := outputs], [], map[], map[]);
    Chain([EMPTY, State(map[JOB := outputs], [], map[], map[])], [Produce(JOB, outputs)]);
  }

  lemma AnchorPlaced(outputs: seq<string>)
    ensures var s := State(map[JOB := outputs], [], map[], map[]);
      Run(s, PlaceScript("t1", ANCHOR)) == s.(cards := [WAITING])
  {
    hide Run;
    UndisturbedPlacement(State(map[JOB := outputs], [], map[], map[]), "t1", ANCHOR);
    assert [] + [WAITING] == [WAITING];
  }

  /** Every race below starts on the empty board and gets here first. */
  lemma WaitsReached()
    ensures Initial(EMPTY) && Run(EMPTY, Opening()) == WAITS
  {
    hide Run, PlaceScript;
    StartReached(["a", "b"]);
    AnchorPlaced(["a", "b"]);
    RunConcat(EMPTY, [Produce(JOB, ["a", "b"])], PlaceScript("t1", ANCHOR));
  }

  /** A schedule that goes on from there without reports. */
  lemma Reaches(steps: seq<Step>, t: State)
    requires Run(WAITS, steps) == t && forall k | 0 <= k < |steps| :: !steps[k].Report?
    ensures Run(EMPTY, Opening() + steps) == t && OrderlyRun(EMPTY, Opening() + steps)
  {
    hide Run, OrderlyRun;
    WaitsReached();
    RunConcat(EMPTY, Opening(), steps);
    PlacementsAndDeletionsAreOrderly(EMPTY, Opening() + steps);
  }

  // ── A deleted output comes back ────────

  const REMOVED := WAITS.(cards := [WAITING, Card(Some(JOB), Some("b"), Deleted)])
  const STALE := Report(0, Done, Some("b"))

  function RemovalRun(): seq<Step> {
    PlaceScript("t2", SECOND) + DeleteScript("t3", 1)
  }

  lemma SecondPlaced()
    ensures Run(WAITS, PlaceScript("t2", SECOND)) == WAITS.(cards := [WAITING, Card(Some(JOB), Some("b"), Done)])
  {
    hide Run;
    assert IndexOf(["a", "b"], "b") == Some(1) by {
      assert ["a", "b"][1..] == ["b"];
    }
    assert Check(WAITS.jobs, WAITS.cards, SECOND).None?;
    assert Existing(WAITS.cards, SECOND, Some(1)) == None;
    UndisturbedPlacement(WAITS, "t2", SECOND);
  }

  lemma SecondRemoved()
    ensures Run(WAITS, RemovalRun()) == REMOVED
  {
    hide Run, PlaceScript, DeleteScript;
    var s := WAITS.(cards := [WAITING, Card(Some(JOB), Some("b"), Done)]);
    SecondPlaced();
    UndisturbedDeletion(s, "t3", 1, JOB);
    assert s.cards[1 := s.cards[1].(status := Deleted)] == REMOVED.cards;
    RunConcat(WAITS, PlaceScript("t2", SECOND), DeleteScript("t3", 1));
  }

  /**
   * Deletion is not final against a stale report: the second output was placed, deleted, and then a
   * tab that still watches the waiting first card reports that very output onto it.
   */
  lemma ReportRevivesDeletedOutput()
    ensures Initial(EMPTY) && OrderlyRun(EMPTY, Opening() + RemovalRun())
      && Run(EMPTY, Opening() + RemovalRun()) == REMOVED
    ensures OutputTombstone(REMOVED.cards, JOB, "b")
      && Apply(REMOVED, STALE).cards[0] == Card(Some(JOB), Some("b"), Done)
    ensures Binds(REMOVED, STALE) && Duplicates(REMOVED, STALE)
  {
    hide Run, OrderlyRun;
    SecondRemoved();
    Reaches(RemovalRun(), REMOVED);
    assert REMOVED.jobs[JOB][1] == "b";
    assert Owns(REMOVED.cards[1], JOB) && Kin(REMOVED.cards[1], REMOVED.cards[0])
      && REMOVED.cards[1].output == Some("b");
  }

  // ── A placement writes over a report ───

  const FOUND := State(map[JOB := ["a", "b"]], [WAITING], map[JOB := "t2"],
                       map["t2" := PlaceFound(FIRST, Some(0), Some(0), WAITING)])

  function FindRun(): seq<Step> {
    [PlaceLock("t2", FIRST), PlaceCheck("t2"), PlaceFind("t2")]
  }

  lemma FirstIsFound()
    ensures Check(WAITS.jobs, WAITS.cards, FIRST).None? && FOUND == WithTx(WAITS, "t2", JOB, FoundPhase(WAITS, FIRST))
  {
    assert IndexOf(["a", "b"], "a") == Some(0);
  }

  lemma FirstReachesFound()
    ensures Run(WAITS, FindRun()) == FOUND
  {
    hide Run, Check, Existing, FoundPhase, WithTx, ApplyPlaceLock, ApplyPlaceCheck, ApplyPlaceFind, ApplyPlaceWrite,
      ApplyDeleteRead, ApplyDeleteLock, ApplyDeleteWrite, Ended, Reported, ApplyProduce;
    FirstIsFound();
    PlaceStepsPass(WAITS, "t2", FIRST);
    Chain([WAITS, WithTx(WAITS, "t2", JOB, PlaceLocked(FIRST)),
           WithTx(WAITS, "t2", JOB, PlaceChecked(FIRST, OutputIndex(WAITS.jobs[JOB], FIRST.output))), FOUND],
             FindRun());
  }

  /** A placement that already found its card re-points it when a report binds another output first. */
  lemma PlacementRepointsAfterReport()
    ensures Initial(EMPTY) && OrderlyRun(EMPTY, Opening() + FindRun()) && Run(EMPTY, Opening() + FindRun()) == FOUND
    ensures Binds(FOUND, STALE) && !Duplicates(FOUND, STALE) && Hurts(FOUND, STALE)
    ensures Apply(FOUND, STALE).cards == [Card(Some(JOB), Some("b"), Done)]
    ensures Repoints(Apply(FOUND, STALE), PlaceWrite("t2"))
    ensures var cards := Apply(Apply(FOUND, STALE), PlaceWrite("t2")).cards; cards != [] && cards[0].output == Some("a")
  {
    hide Run, Check, Existing, OrderlyRun, IndexOf, Apply, Hurts;
    FirstReachesFound();
    Reaches(FindRun(), FOUND);
    ReportCollides();
    CollisionHurts(FOUND, STALE, "t2");
  }

  lemma ReportCollides()
    ensures Binds(FOUND, STALE) && !Duplicates(FOUND, STALE)
    ensures Hurts(FOUND, STALE) && "t2" in FOUND.txs && Collides(FOUND.txs["t2"], JOB, 0, Some("b"))
    ensures Apply(FOUND, STALE).cards == [Card(Some(JOB), Some("b"), Done)]
    ensures Apply(Apply(FOUND, STALE), PlaceWrite("t2")).cards != []
  {
    assert FOUND.jobs[JOB][1] == "b";
    assert Binds(FOUND, STALE);
    assert !Duplicates(FOUND, STALE);
    assert Collides(FOUND.txs["t2"], JOB, 0, Some("b"));
    assert Hurts(FOUND, STALE);
    assert Apply(FOUND, STALE).cards == [Card(Some(JOB), Some("b"), Done)];
  }

  // ── A delete that comes too late ───────

  const LATE := State(map[JOB := ["a", "b"]], [Card(Some(JOB), Some("a"), Deleted)], map[JOB := "slow"],
                      map["slow" := DeleteLocked(0, Some(JOB), None)])

  function LateRun(): seq<Step> {
    [DeleteRead("slow", 0)] + PlaceScript("t2", FIRST) + DeleteScript("t3", 0) + [DeleteLock("slow")]
  }

  /**
   * The job-wide suppression belongs to the delete that wins. One that saw the card in flight but
   * reaches its write after another delete took the settled card away answers "not found", and the
   * job's other outputs are still placed.
   */
  lemma {:induction false} LostDeleteLeavesJobOpen()
    ensures Initial(EMPTY) && OrderlyRun(EMPTY, Opening() + LateRun()) && Run(EMPTY, Opening() + LateRun()) == LATE
    ensures !DeleteSucceeds(LATE, "slow") && Apply(LATE, DeleteWrite("slow")).cards == LATE.cards
    ensures Check(LATE.jobs, LATE.cards, SECOND).None? && !ClosedForGood(Apply(LATE, DeleteWrite("slow")), JOB)
  {
    hide Run, OrderlyRun, ClosedForGood;
    LateReached();
    Reaches(LateRun(), LATE);
    assert LATE.jobs[JOB][1] == "b";
    InFlightDeletionIsFinal(EMPTY, Opening() + LateRun(), "slow", JOB);
  }

  lemma LateReached()
    ensures Run(WAITS, LateRun()) == LATE
  {
    hide Run, PlaceScript, DeleteScript;
    var s1 := WAITS.(txs := map["slow" := DeleteSeen(0, Some(JOB), None)]);
    var s2, s3 := s1.(cards := [Card(Some(JOB), Some("a"), Done)]), s1.(cards := [Card(Some(JOB), Some("a"), Deleted)]);
    SlowReads(s1);
    FirstPlaced(s1);
    UndisturbedDeletion(s2, "t3", 0, JOB);
    assert s2.cards[0 := s2.cards[0].(status := Deleted)] == s3.cards;
    SlowLocks(s3);
    RunConcat(WAITS, [DeleteRead("slow", 0)], PlaceScript("t2", FIRST));
    RunConcat(WAITS, [DeleteRead("slow", 0)] + PlaceScript("t2", FIRST), DeleteScript("t3", 0));
    RunConcat(WAITS, [DeleteRead("slow", 0)] + PlaceScript("t2", FIRST) + DeleteScript("t3", 0), [DeleteLock("slow")]);
  }

  lemma SlowReads(s: State)
    requires s == WAITS.(txs := map["slow" := DeleteSeen(0, Some(JOB), None)])
    ensures Run(WAITS, [DeleteRead("slow", 0)]) == s
  {
    hide Run;
    Chain([WAITS, s], [DeleteRead("slow", 0)]);
  }

  lemma SlowLocks(s: State)
    requires s == State(map[JOB := ["a", "b"]], LATE.cards, map[], map["slow" := DeleteSeen(0, Some(JOB), None)])
    ensures Run(s, [DeleteLock("slow")]) == LATE
  {
    hide Run;
    assert ApplyDeleteLock(s, "slow") == LATE;
    Chain([s, LATE], [DeleteLock("slow")]);
  }

  lemma FirstPlaced(s: State)
    requires s.jobs == map[JOB := ["a", "b"]] && s.cards == [WAITING] && Idle(s, "t2", JOB)
    ensures Run(s, PlaceScript("t2", FIRST)) == s.(cards := [Card(Some(JOB), Some("a"), Done)])
  {
    hide Run;
    assert IndexOf(["a", "b"], "a") == Some(0);
    assert Check(s.jobs, s.cards, FIRST).None?;
    assert Existing(s.cards, FIRST, Some(0)) == Some(0);
    UndisturbedPlacement(s, "t2", FIRST);
  }
}
