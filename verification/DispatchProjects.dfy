/**
 * One charge per entry, over all projects. The identity of a charge is per project, so the promise
 * holds as long as a campaign is dispatched into one project; with several it holds exactly when
 * nothing of the plan is alive elsewhere.
 */
module DispatchProjects {
  import opened Basics
  import opened BatchIdempotency
  import opened Calendar
  import opened CampaignPlan
  import opened CampaignQuote
  import opened DispatchLease
  import opened DispatchProtocol
  import opened DispatchSafety
  import opened DispatchEffects
  import opened DispatchAuthors
  import opened DispatchEditors
  import opened DispatchTheorems
  import opened DispatchProgress

  // ── An entry over all projects ─────────

  ghost predicate LiveAt(db: Db, p: string, entry: string, i: nat) {
    i < |CellHistory(db, p, entry)| && Live(CellHistory(db, p, entry)[i])
  }

  /** No two jobs of the entry are live or delivered, in whatever projects they are. */
  ghost predicate OneLive(db: Db, entry: string) {
    forall p, q, i, j | LiveAt(db, p, entry, i) && LiveAt(db, q, entry, j) :: p == q && i == j
  }

  ghost predicate NoneLiveElsewhere(db: Db, project: string, entry: string) {
    forall p, i | LiveAt(db, p, entry, i) :: p == project
  }

  ghost predicate OneMaterial(db: Db, entry: string) {
    forall p, q, i, j | 0 <= i < |CellHistory(db, p, entry)| && 0 <= j < |CellHistory(db, q, entry)| ::
      CellHistory(db, p, entry)[i].material == CellHistory(db, q, entry)[j].material
  }

  /** What an entry has cost, wherever it was charged. */
  function EntryNet(ledger: seq<LedgerEvent>, entry: string): int {
    if ledger == [] then 0
    else
      var e := ledger[|ledger| - 1];
      EntryNet(ledger[..|ledger| - 1], entry)
      + (if e.entry != entry then 0 else if e.Reserve? then e.credits else 0 - e.credits)
  }

  /** The price of the entry's one live job, or nothing when none is live anywhere. */
  ghost predicate EntryNetIsOneJob(db: Db, entry: string) {
    || (EntryNet(db.ledger, entry) == 0 && forall p, i: nat :: !LiveAt(db, p, entry, i))
    || (exists p, i: nat ::
        LiveAt(db, p, entry, i) && EntryNet(db.ledger, entry) == CellHistory(db, p, entry)[i].credits)
  }

  lemma {:induction false} EntryNetInOneProject(ledger: seq<LedgerEvent>, project: string, entry: string)
    requires forall e | e in ledger :: e.entry == entry ==> e.project == project
    ensures EntryNet(ledger, entry) == LedgerNet(ledger, project, entry)
  {
    if ledger != [] {
      assert ledger[|ledger| - 1] in ledger;
      EntryNetInOneProject(ledger[..|ledger| - 1], project, entry);
    }
  }

  lemma EntryNetAppend(ledger: seq<LedgerEvent>, e: LedgerEvent, entry: string)
    ensures EntryNet(ledger + [e], entry) ==
      EntryNet(ledger, entry) + (if e.entry != entry then 0 else if e.Reserve? then e.credits else 0 - e.credits)
  {
    assert (ledger + [e])[..|ledger|] == ledger;
  }

  // ── A campaign dispatched into one project ───

  ghost predicate AllIn(s: State, project: string) {
    forall x | x in s.attempts :: Author(s, x, project)
  }

  lemma ProjectsStay(s: State, step: Step, x: string)
    requires x in s.attempts && x in Apply(s, step).attempts
    ensures Apply(s, step).attempts[x].project == s.attempts[x].project
  {
    hide Apply, JobsExtend, OwnJobs;
    if EditorStep(step) {
      EditorStepEffect(s, step);
    } else if BackgroundStep(step) {
      BackgroundStepEffect(s, step);
    } else if ClaimStep(step) {
      ClaimStepEffect(s, step);
    } else {
      CellStepEffect(s, step);
    }
  }

  lemma StepStaysIn(s: State, step: Step, project: string)
    requires AllIn(s, project) && (step.Start? ==> step.project == project)
    ensures AllIn(Apply(s, step), project)
  {
    hide Apply;
    forall x | x in Apply(s, step).attempts ensures Author(Apply(s, step), x, project) {
      if x in s.attempts {
        assert Author(s, x, project);
        ProjectsStay(s, step, x);
      } else {
        OnlyStartAdds(s, step, x);
      }
    }
  }

  lemma {:induction false} RunStaysIn(s: State, steps: seq<Step>, project: string)
    requires AllIn(s, project) && forall k | 0 <= k < |steps| :: steps[k].Start? ==> steps[k].project == project
    ensures AllIn(Run(s, steps), project)
    decreases |steps|
  {
    hide Apply, AllIn;
    if steps != [] {
      StepStaysIn(s, steps[0], project);
      RunStaysIn(Apply(s, steps[0]), steps[1..], project);
    }
  }

  /** Then no other project has a job, nor the ledger an event of another. */
  lemma NothingElsewhere(s: State, project: string)
    requires AllIn(s, project) && Attributed(s) && TraceOk(s)
    ensures forall p, e | p != project :: CellHistory(s.db, p, e) == []
    ensures forall e | e in s.db.ledger :: e.project == project
  {
    forall p, e | p != project ensures CellHistory(s.db, p, e) == [] {
      assert CellHistory(s.db, p, e) != [] ==> Author(s, CellHistory(s.db, p, e)[0].attempt, p);
    }
    forall e | e in s.db.ledger ensures e.project == project {
      if e.Reserve? {
        assert Known(s, e.attempt, e.project);
      } else {
        assert RefundOf(s.db, e);
        assert CellHistory(s.db, e.project, e.entry) != [];
      }
    }
  }

  lemma NetOverProjects(db: Db, project: string, entry: string)
    requires forall p | p != project :: CellHistory(db, p, entry) == []
    requires forall e | e in db.ledger :: e.project == project
    requires CellOk(CellHistory(db, project, entry))
    requires LedgerNet(db.ledger, project, entry) == NetHeld(CellHistory(db, project, entry))
    ensures OneLive(db, entry) && OneMaterial(db, entry) && EntryNetIsOneJob(db, entry)
  {
    hide EntryNet, LedgerNet, NetHeld;
    var h := CellHistory(db, project, entry);
    EntryNetInOneProject(db.ledger, project, entry);
    NetOfCell(h);
    if i: nat :| OnlyLive(h, i) && NetHeld(h) == h[i].credits {
      assert LiveAt(db, project, entry, i);
    }
    forall p, q, i, j | LiveAt(db, p, entry, i) && LiveAt(db, q, entry, j) ensures p == q && i == j {
      assert p == project && q == project;
      assert i == j || i < j || j < i;
    }
  }

  /**
   * If every confirmation names one project, then over all projects an entry's jobs carry the same
   * material, at most one of them is live or delivered, and the whole ledger nets to its price.
   */
  lemma {:induction false} OneProjectOneCharge(init: State, steps: seq<Step>, project: string, entry: string)
    requires Initial(init) && forall k | 0 <= k < |steps| :: steps[k].Start? ==> steps[k].project == project
    ensures var db := Run(init, steps).db; OneLive(db, entry) && OneMaterial(db, entry) && EntryNetIsOneJob(db, entry)
  {
    hide Inv, LockNamesHolder, TraceOk, Blocks, HolderIsLast, Run, OneLive, OneMaterial, EntryNetIsOneJob, Attributed,
      CellOk, RowOk;
    var s := Run(init, steps);
    Reached(init, steps);
    EveryJobHasItsAuthor(init, steps);
    RunStaysIn(init, steps, project);
    NothingElsewhere(s, project);
    NetOverProjects(s.db, project, entry);
  }

  // ── Several projects ───────────────────

  /** A line that is delivered has a live job in its project once the confirmation is through. */
  lemma DeliveredIsLive(s: State, t: State, id: string, project: string, cfg: Config, jobIds: seq<string>, k: nat)
    requires |jobIds| == |ApprovedEntries(s.db.row.plan.entries)| && k < |jobIds|
    requires Confirmed(s, t, id, project, cfg, jobIds)
    requires LiveQuote(s, project, cfg)[k].charge != Blocked
    ensures exists i :: LiveAt(t.db, project, ApprovedEntries(s.db.row.plan.entries)[k].id, i)
  {
    hide ApprovedEntries, MaterialOf, OnlyProject, Charges, AllMatch;
    var entry := ApprovedEntries(s.db.row.plan.entries)[k];
    var h, h' := CellHistory(s.db, project, entry.id), CellHistory(t.db, project, entry.id);
    assert h' == h + JobsGained(id, Opened(s, project, cfg, Between), jobIds, k);
    if LiveQuote(s, project, cfg)[k].charge == New {
      assert LiveAt(t.db, project, entry.id, |h|);
    } else {
      assert StillLivePrior(h).Some?;
      var i :| 0 <= i < |h| && h[i] == StillLivePrior(h).value;
      assert LiveAt(t.db, project, entry.id, i);
    }
  }

  lemma ElsewhereUnchanged(db: Db, db': Db, project: string, p: string, entry: string)
    requires OnlyProject(db, db', project) && p != project
    ensures CellHistory(db', p, entry) == CellHistory(db, p, entry)
  {
    assert HistoriesOf(db', p) == HistoriesOf(db, p);
    assert CellHistory(db, p, entry) == HistoryOf(HistoriesOf(db, p), entry);
    assert CellHistory(db', p, entry) == HistoryOf(HistoriesOf(db', p), entry);
  }

  /** One project's cell is alive; then one live job over all projects means none elsewhere. */
  lemma AliveHere(db: Db, db': Db, project: string, entry: string)
    requires CellOk(CellHistory(db', project, entry)) && exists i :: LiveAt(db', project, entry, i)
    requires forall p | p != project :: CellHistory(db', p, entry) == CellHistory(db, p, entry)
    ensures OneLive(db', entry) <==> NoneLiveElsewhere(db, project, entry)
  {
    var h := CellHistory(db', project, entry);
    assert forall i, j | 0 <= i < |h| && 0 <= j < |h| && Live(h[i]) && Live(h[j]) :: !(i < j) && !(j < i);
    assert forall p, i | p != project :: LiveAt(db', p, entry, i) <==> LiveAt(db, p, entry, i);
  }

  lemma SameHistoriesSameLive(db: Db, db': Db, entry: string)
    requires forall p :: CellHistory(db', p, entry) == CellHistory(db, p, entry)
    ensures OneLive(db', entry) <==> OneLive(db, entry)
  {
    assert forall p, i :: LiveAt(db', p, entry, i) <==> LiveAt(db, p, entry, i);
  }

  lemma ConfirmedEntry(s: State, t: State, id: string, project: string, cfg: Config, jobIds: seq<string>, k: nat)
    requires |jobIds| == |ApprovedEntries(s.db.row.plan.entries)| && k < |jobIds|
    requires Confirmed(s, t, id, project, cfg, jobIds)
    requires CellOk(CellHistory(t.db, project, ApprovedEntries(s.db.row.plan.entries)[k].id))
    ensures var entry := ApprovedEntries(s.db.row.plan.entries)[k].id;
      OneLive(t.db, entry) <==>
        if LiveQuote(s, project, cfg)[k].charge == Blocked then OneLive(s.db, entry)
        else NoneLiveElsewhere(s.db, project, entry)
  {
    hide ApprovedEntries, QuoteLineOf, OnlyProject, Charges, OneLive, NoneLiveElsewhere, CellOk, CellHistory;
    var entry := ApprovedEntries(s.db.row.plan.entries)[k].id;
    forall p | p != project ensures CellHistory(t.db, p, entry) == CellHistory(s.db, p, entry) {
      ElsewhereUnchanged(s.db, t.db, project, p, entry);
    }
    if LiveQuote(s, project, cfg)[k].charge == Blocked {
      assert JobsGained(id, Opened(s, project, cfg, Between), jobIds, k) == [];
      SameHistoriesSameLive(s.db, t.db, entry);
    } else {
      DeliveredIsLive(s, t, id, project, cfg, jobIds, k);
      AliveHere(s.db, t.db, project, entry);
    }
  }

  /**
   * What a caller can read off the history before confirming. An entry the quote delivers ends with
   * one live job over all projects exactly when none is live outside the chosen project; an entry
   * the quote blocks is left as it was.
   */
  lemma {:induction false} OneLiveIffNoneElsewhere(
      init: State, steps: seq<Step>, id: string, project: string, cfg: Config, jobIds: seq<string>)
    requires Initial(init) && CanStart(Run(init, steps), id, project)
    requires |jobIds| == |ApprovedEntries(Run(init, steps).db.row.plan.entries)|
    requires forall k | 0 <= k < |jobIds| :: jobIds[k] != ""
    ensures var s := Run(init, steps); var t := Run(s, FullScript(s, id, project, cfg, jobIds));
      forall k | 0 <= k < |jobIds| ::
        OneLive(t.db, ApprovedEntries(s.db.row.plan.entries)[k].id) <==>
          if LiveQuote(s, project, cfg)[k].charge == Blocked
          then OneLive(s.db, ApprovedEntries(s.db.row.plan.entries)[k].id)
          else NoneLiveElsewhere(s.db, project, ApprovedEntries(s.db.row.plan.entries)[k].id)
    // …so with nothing blocked, the whole plan is live once if and only if none of it is live elsewhere
    ensures var s := Run(init, steps); var t := Run(s, FullScript(s, id, project, cfg, jobIds));
      (forall k | 0 <= k < |jobIds| :: LiveQuote(s, project, cfg)[k].charge != Blocked) ==>
        ((forall k | 0 <= k < |jobIds| :: OneLive(t.db, ApprovedEntries(s.db.row.plan.entries)[k].id)) <==>
         (forall k | 0 <= k < |jobIds| ::
          NoneLiveElsewhere(s.db, project, ApprovedEntries(s.db.row.plan.entries)[k].id)))
  {
    hide Inv, LockNamesHolder, Initial, CanStart, DbOk, TraceOk, Blocks, HolderIsLast, Run, FullScript, Attributed,
      Confirmed, ApprovedEntries, QuoteLines, OneLive, NoneLiveElsewhere, CellOk;
    var s := Run(init, steps);
    var t := Run(s, FullScript(s, id, project, cfg, jobIds));
    Reached(init, steps);
    EveryJobHasItsAuthor(init, steps);
    FullRun(s, id, project, cfg, jobIds);
    forall k | 0 <= k < |jobIds| ensures
      OneLive(t.db, ApprovedEntries(s.db.row.plan.entries)[k].id) <==>
        if LiveQuote(s, project, cfg)[k].charge == Blocked
        then OneLive(s.db, ApprovedEntries(s.db.row.plan.entries)[k].id)
        else NoneLiveElsewhere(s.db, project, ApprovedEntries(s.db.row.plan.entries)[k].id)
    {
      CellsStaySound(t, project, ApprovedEntries(s.db.row.plan.entries)[k].id);
      ConfirmedEntry(s, t, id, project, cfg, jobIds, k);
    }
  }

  lemma CellsStaySound(s: State, project: string, entry: string)
    requires Inv(s)
    ensures CellOk(CellHistory(s.db, project, entry))
  {
    hide CellOk;
  }

  // ── Two projects of one campaign ───────

  lemma StillStarts(s: State, t: State, other: string, project: string, otherProject: string)
    requires CanStart(s, other, otherProject) && OnlyProject(s.db, t.db, project) && project != otherProject
    requires other !in t.attempts
    ensures CanStart(t, other, otherProject)
  {
    hide ApprovedEntries, ClaimAllowed;
  }

  lemma SameQuote(s: State, t: State, project: string, otherProject: string, cfg: Config)
    requires OnlyProject(s.db, t.db, project) && project != otherProject
    ensures LiveQuote(t, otherProject, cfg) == LiveQuote(s, otherProject, cfg)
  {
  }

  lemma SamePlan(db: Db, db': Db, project: string)
    requires OnlyProject(db, db', project)
    ensures db'.row == db.row
  {
  }

  /**
   * Two confirmations of one campaign, in two of its projects, are both allowed to run, and the second
   * charges its own quote as if the first had not happened.
   */
  lemma {:induction false} EachProjectChargesItsOwn(
      init: State, steps: seq<Step>, a: string, b: string, p: string, q: string, cfg: Config,
      jobIds: seq<string>, otherIds: seq<string>)
    requires Initial(init) && p != q && a != b
    requires CanStart(Run(init, steps), a, p) && CanStart(Run(init, steps), b, q)
    requires |jobIds| == |otherIds| == |ApprovedEntries(Run(init, steps).db.row.plan.entries)|
    requires forall k | 0 <= k < |jobIds| :: jobIds[k] != "" && otherIds[k] != ""
    ensures var s := Run(init, steps); var t := Run(s, FullScript(s, a, p, cfg, jobIds));
      && CanStart(t, b, q)
      && |otherIds| == |ApprovedEntries(t.db.row.plan.entries)|
      && Run(t, FullScript(t, b, q, cfg, otherIds)).db.ledger ==
         s.db.ledger + Charges(a, Opened(s, p, cfg, Between), 0) + Charges(b, Opened(s, q, cfg, Between), 0)
  {
    hide Inv, LockNamesHolder, Initial, CanStart, DbOk, TraceOk, Blocks, HolderIsLast, Run, FullScript, Charges,
      Attributed, ApprovedEntries, OnlyProject, CellsGained;
    var s := Run(init, steps);
    var t := Run(s, FullScript(s, a, p, cfg, jobIds));
    Reached(init, steps);
    EveryJobHasItsAuthor(init, steps);
    Newcomer(s, b, q);
    FullRun(s, a, p, cfg, jobIds);
    StillStarts(s, t, b, p, q);
    SamePlan(s.db, t.db, p);
    FullRun(t, b, q, cfg, otherIds);
    SameQuote(s, t, p, q, cfg);
  }

  const POST := ApprovedEntry("post", "image", "a quiet morning")
  const PUBLISH_ON := Date(2026, 3, 1)

  /** A campaign of one approved entry, with two projects in it and nothing dispatched. */
  function TwoProjects(): State {
    var entry := Entry(POST.id, Fields(PUBLISH_ON, "instagram", POST.format, "", POST.brief, 0), Approved);
    State(
      Db(Row("launch", "", Active, CampaignStart(PUBLISH_ON), CampaignEnd(PUBLISH_ON), Plan("", [entry], []), 0, false),
         ["p", "q"], {"p", "q"}, map[], map[], None, [], 0),
      map[], map[])
  }

  /** All that the runs below depend on. */
  ghost predicate OnePostTwoProjects(s: State) {
    && Initial(s) && CanStart(s, "a", "p") && CanStart(s, "b", "q")
    && ApprovedEntries(s.db.row.plan.entries) == [POST]
  }

  lemma TwoProjectsStart()
    ensures OnePostTwoProjects(TwoProjects())
  {
    hide CampaignStart, CampaignEnd, MalaysiaDate;
    StoredPeriodReadsBack(TwoProjects().db.row, Period(PUBLISH_ON, PUBLISH_ON));
  }

  lemma PostQuote(s: State, cfg: Config, id: string, project: string)
    requires OnePostTwoProjects(s)
    ensures var a := Opened(s, project, cfg, Between); var price := cfg.price(CellOf(POST, cfg));
      && a.lines == [QuoteLine(POST.id, New, price, price)]
      && Charges(id, a, 0) == [Reserve(id, project, POST.id, price)]
  {
    hide MaterialOf, CanStart, ApprovedEntries;
    var a := Opened(s, project, cfg, Between);
    assert a.lines == [QuoteLineOf(POST, Some(map[]), cfg)];
    assert Charges(id, a, 0) == ChargeAt(id, a, 0) + Charges(id, a, 1);
  }

  lemma TwoCharges(credits: nat)
    ensures EntryNet([Reserve("a", "p", POST.id, credits)] + [Reserve("b", "q", POST.id, credits)], POST.id)
      == 2 * credits
  {
    EntryNetAppend([], Reserve("a", "p", POST.id, credits), POST.id);
    assert [] + [Reserve("a", "p", POST.id, credits)] == [Reserve("a", "p", POST.id, credits)];
    EntryNetAppend([Reserve("a", "p", POST.id, credits)], Reserve("b", "q", POST.id, credits), POST.id);
  }

  /** After the first run the entry is live in the first project, so the second run makes it live twice. */
  lemma LiveTwice(s: State, a: string, b: string, p: string, q: string, cfg: Config, first: seq<string>,
                  second: seq<string>)
    requires Initial(s) && p != q && CanStart(s, a, p) && CanStart(s, b, q)
    requires |first| == |second| == |ApprovedEntries(s.db.row.plan.entries)| == 1 && first[0] != "" && second[0] != ""
    requires LiveQuote(s, p, cfg)[0].charge == New && LiveQuote(s, q, cfg)[0].charge == New
    requires var t := Run(s, FullScript(s, a, p, cfg, first));
      CanStart(t, b, q) && |ApprovedEntries(t.db.row.plan.entries)| == 1
    ensures var t := Run(s, FullScript(s, a, p, cfg, first));
      !OneLive(Run(t, FullScript(t, b, q, cfg, second)).db, ApprovedEntries(s.db.row.plan.entries)[0].id)
  {
    hide Inv, LockNamesHolder, Initial, CanStart, DbOk, TraceOk, Blocks, HolderIsLast, FullScript, Attributed,
      ApprovedEntries, LiveQuote, OneLive, OnlyProject, Charges, CellsGained, Apply;
    var steps := FullScript(s, a, p, cfg, first);
    var t := Run(s, steps);
    assert Run(s, []) == s;
    Reached(s, []);
    EveryJobHasItsAuthor(s, []);
    FullRun(s, a, p, cfg, first);
    SamePlan(s.db, t.db, p);
    SameQuote(s, t, p, q, cfg);
    DeliveredIsLive(s, t, a, p, cfg, first, 0);
    OneLiveIffNoneElsewhere(s, steps, b, q, cfg, second);
  }

  lemma RunOfNothing(s: State)
    ensures Run(s, []) == s
  {
    hide Apply;
  }

  /** Both confirmations run to the end, and the one entry is charged twice in full. */
  lemma PostPaidTwice(s: State, cfg: Config)
    requires OnePostTwoProjects(s)
    ensures |ApprovedEntries(s.db.row.plan.entries)| == 1
    ensures var t := Run(s, FullScript(s, "a", "p", cfg, ["first"]));
      && |ApprovedEntries(t.db.row.plan.entries)| == 1
      && CanStart(t, "b", "q")
      && var u := Run(t, FullScript(t, "b", "q", cfg, ["second"]));
      && EntryNet(u.db.ledger, POST.id) == 2 * cfg.price(CellOf(POST, cfg))
      && !OneLive(u.db, POST.id)
  {
    hide CanStart, FullScript, Charges, OneLive, ApprovedEntries, CellOf, QuoteLines, EntryNet, Run;
    var price := cfg.price(CellOf(POST, cfg));
    PostQuote(s, cfg, "a", "p");
    PostQuote(s, cfg, "b", "q");
    RunOfNothing(s);
    EachProjectChargesItsOwn(s, [], "a", "b", "p", "q", cfg, ["first"], ["second"]);
    LiveTwice(s, "a", "b", "p", "q", cfg, ["first"], ["second"]);
    assert [] + [Reserve("a", "p", POST.id, price)] == [Reserve("a", "p", POST.id, price)];
    TwoCharges(price);
  }

  /** A start on which one entry is paid for twice: two projects of one campaign, nothing dispatched. */
  lemma {:induction false} TwoProjectsPayTwice(cfg: Config)
    ensures var s := TwoProjects();
      && Initial(s) && CanStart(s, "a", "p") && CanStart(s, "b", "q")
      && |ApprovedEntries(s.db.row.plan.entries)| == 1
      && var t := Run(s, FullScript(s, "a", "p", cfg, ["first"]));
      && |ApprovedEntries(t.db.row.plan.entries)| == 1
      && CanStart(t, "b", "q")
      && var u := Run(t, FullScript(t, "b", "q", cfg, ["second"]));
      && EntryNet(u.db.ledger, POST.id) == 2 * cfg.price(CellOf(POST, cfg))
      && !OneLive(u.db, POST.id)
  {
    hide Initial, CanStart, TwoProjects, Run, FullScript, OneLive, ApprovedEntries, CellOf, EntryNet;
    TwoProjectsStart();
    PostPaidTwice(TwoProjects(), cfg);
  }
}
