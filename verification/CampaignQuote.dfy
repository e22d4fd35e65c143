/**
 * From an approved set to the cells it describes, the quote the merchant signs, and the
 * fingerprints that are compared again before every charge.
 */
module CampaignQuote {
  import opened Basics
  import opened Ordering
  import opened BatchIdempotency
  import opened CampaignPlan

  const MAX_BATCH_CELLS := 24

  datatype ApprovedEntry = ApprovedEntry(id: string, format: string, brief: string)

  datatype VideoSpec = VideoSpec(resolution: string, seconds: nat)

  datatype GenCell = GenCell(
    id: string, prompt: string, kind: Kind, model: string,
    aspectRatio: Option<string>, resolution: Option<string>, seconds: Option<nat>)

  /**
   * Server configuration for one confirmation. `price` is the pricing authority the reserve uses,
   * in internal credits; `square` is the shape rows without a shape column really produced.
   */
  datatype Config = Config(
    imageModel: string, videoModel: string, spec: VideoSpec, videoAspects: set<string>,
    defaults: Defaults, square: string, price: GenCell -> nat)

  const VIDEO_FORMATS := {"video", "reel", "reels", "short", "shorts", "clip", "animation", "gif"}
  const TALL_FORMATS := {"story", "stories", "vertical", "portrait"}
  const WIDE_FORMATS := {"banner", "cover", "landscape"}
  const TALL_CLIPS := {"reel", "reels", "short", "shorts"}

  /** Formats are stored trimmed and lower-case, so the table lookup needs no further folding. */
  function KindOfFormat(format: string): Kind {
    if format in VIDEO_FORMATS then Video else Image
  }

  function AspectOf(format: string, cfg: Config): Option<string> {
    if KindOfFormat(format) == Image then
      Some(if format in TALL_FORMATS then "9:16" else if format in WIDE_FORMATS then "16:9" else "1:1")
    else if format in TALL_CLIPS && "9:16" in cfg.videoAspects then Some("9:16")
    else None
  }

  function CellOf(entry: ApprovedEntry, cfg: Config): GenCell {
    var kind := KindOfFormat(entry.format);
    GenCell(
      entry.id, entry.brief, kind,
      if kind == Video then cfg.videoModel else cfg.imageModel,
      AspectOf(entry.format, cfg),
      if kind == Video then Some(cfg.spec.resolution) else None,
      if kind == Video then Some(cfg.spec.seconds) else None)
  }

  function InputOf(cell: GenCell): MaterialInput {
    MaterialInput(cell.prompt, cell.model, cell.kind, 1, None, None, None, None, None, None, None,
                  cell.seconds, cell.resolution, cell.aspectRatio, None, None, false, [])
  }

  function MaterialOf(cell: GenCell, cfg: Config): Material {
    Normalize(InputOf(cell), cfg.defaults, false)
  }

  /** A job that stored a cell's material is recognised by that cell. */
  lemma CellIsRecognised(cell: GenCell, cfg: Config, job: Job)
    requires job.id != "" && job.material == MaterialOf(cell, cfg)
    ensures Matches(job, MaterialOf(cell, cfg), cfg.square)
  {
    hide Normalize, Matches;
    ReplayMatchesWhatItStored(InputOf(cell), cfg.defaults, false, job, cfg.square);
  }

  /** The whole resolved spec a card promises. */
  datatype Spec = Spec(aspectRatio: string, count: nat, video: Option<VideoOptions>, coherentSet: bool)

  function SpecOf(cell: GenCell, cfg: Config): Spec {
    var m := MaterialOf(cell, cfg);
    match m.video
    case Some(v) => Spec(v.aspectRatio, m.count, m.video, false)
    case None => Spec(if m.image.Some? then m.image.value.aspectRatio else cfg.defaults.imageAspect, m.count, None,
                      m.image.Some? && m.image.value.coherentSet)
  }

  /** `approvedEntriesFromPlan`: approved entries only, in plan order. */
  function ApprovedEntries(entries: seq<Entry>): seq<ApprovedEntry> {
    if entries == [] then []
    else
      var rest := ApprovedEntries(entries[1..]);
      if entries[0].status == Approved
      then [ApprovedEntry(entries[0].id, entries[0].fields.format, entries[0].fields.brief)] + rest
      else rest
  }

  // ── Content fingerprint ────────────────

  /** One hashed line: what the merchant approves about one entry. */
  datatype PayloadLine = PayloadLine(id: string, brief: string, model: string, internalCredits: nat, spec: Spec)

  function LineOf(entry: ApprovedEntry, cfg: Config): PayloadLine {
    var cell := CellOf(entry, cfg);
    PayloadLine(entry.id, entry.brief, cell.model, cfg.price(cell), SpecOf(cell, cfg))
  }

  function Lines(approved: seq<ApprovedEntry>, cfg: Config): seq<PayloadLine> {
    seq(|approved|, i requires 0 <= i < |approved| => LineOf(approved[i], cfg))
  }

  predicate IdLess(a: PayloadLine, b: PayloadLine) {
    StringLess(a.id, b.id)
  }

  /** The fingerprint payload; the hash of it is treated as injective. */
  function Fingerprint(approved: seq<ApprovedEntry>, cfg: Config): seq<PayloadLine> {
    Sort(IdLess, Lines(approved, cfg))
  }

  ghost predicate UniqueEntryIds(approved: seq<ApprovedEntry>) {
    forall i, j | 0 <= i < j < |approved| :: approved[i].id != approved[j].id
  }

  lemma IdLessIsAnOrder()
    ensures Asymmetric(IdLess) && NegTransitive(IdLess)
  {
    forall a, b ensures IdLess(a, b) ==> !IdLess(b, a) {
      StringLessTrichotomy(a.id, b.id);
    }
    forall a: PayloadLine, b: PayloadLine, c: PayloadLine | !IdLess(a, b) && !IdLess(b, c)
      ensures !IdLess(a, c)
    {
      StringLessTrichotomy(a.id, b.id);
      StringLessTrichotomy(b.id, c.id);
      StringLessTrichotomy(a.id, c.id);
      if a.id != b.id && b.id != c.id {
        StringLessTransitive(c.id, b.id, a.id);
      }
    }
  }

  /** Lines of different entries never tie. */
  lemma LinesDoNotTie(a: seq<ApprovedEntry>, cfg: Config, x: PayloadLine, y: PayloadLine)
    requires UniqueEntryIds(a) && x in Lines(a, cfg) && y in Lines(a, cfg) && x != y
    ensures IdLess(x, y) || IdLess(y, x)
  {
    hide CellOf, SpecOf, StringLess;
    var la := Lines(a, cfg);
    var i :| 0 <= i < |la| && la[i] == x;
    var j :| 0 <= j < |la| && la[j] == y;
    StringLessTrichotomy(x.id, y.id);
  }

  /** Reordering the plan never changes the fingerprint. */
  lemma FingerprintIgnoresOrder(a: seq<ApprovedEntry>, b: seq<ApprovedEntry>, cfg: Config)
    requires UniqueEntryIds(a)
    requires multiset(Lines(a, cfg)) == multiset(Lines(b, cfg))
    ensures Fingerprint(a, cfg) == Fingerprint(b, cfg)
  {
    hide Lines, Sort, IdLess, UniqueEntryIds;
    var fa, fb := Fingerprint(a, cfg), Fingerprint(b, cfg);
    IdLessIsAnOrder();
    SortSorts(IdLess, Lines(a, cfg));
    SortSorts(IdLess, Lines(b, cfg));
    SortPermutes(IdLess, Lines(a, cfg));
    SortPermutes(IdLess, Lines(b, cfg));
    SortKeepsElements(IdLess, Lines(a, cfg));
    forall x, y | x in fa && y in fa && x != y ensures IdLess(x, y) || IdLess(y, x) {
      LinesDoNotTie(a, cfg, x, y);
    }
    SortedUnique(IdLess, fa, fb);
  }

  ghost predicate Distinct<T>(s: seq<T>) {
    forall i, j | 0 <= i < j < |s| :: s[i] != s[j]
  }

  lemma {:induction false} DistinctCounts<T>(s: seq<T>, x: T)
    requires Distinct(s)
    ensures multiset(s)[x] == if x in s then 1 else 0
  {
    if s != [] {
      assert s == [s[0]] + s[1..];
      assert Distinct(s[1..]) by {
        forall i, j | 0 <= i < j < |s[1..]| ensures s[1..][i] != s[1..][j] {
          assert s[i + 1] != s[j + 1];
        }
      }
      assert s[0] !in s[1..];
      DistinctCounts(s[1..], x);
    }
  }

  lemma DistinctSameMembers<T>(a: seq<T>, b: seq<T>)
    requires Distinct(a) && Distinct(b)
    requires forall x :: x in a <==> x in b
    ensures multiset(a) == multiset(b)
  {
    forall x ensures multiset(a)[x] == multiset(b)[x] {
      DistinctCounts(a, x);
      DistinctCounts(b, x);
      assert x in a <==> x in b;
    }
  }

  lemma LinesAreDistinct(approved: seq<ApprovedEntry>, cfg: Config)
    requires UniqueEntryIds(approved)
    ensures Distinct(Lines(approved, cfg))
  {
    forall i, j | 0 <= i < j < |Lines(approved, cfg)| ensures Lines(approved, cfg)[i] != Lines(approved, cfg)[j] {
      assert Lines(approved, cfg)[i].id == approved[i].id;
    }
  }

  /** Equal fingerprints mean exactly: the same entries, with the same content, price and spec. */
  lemma FingerprintEqualIffSameApproval(a: seq<ApprovedEntry>, b: seq<ApprovedEntry>, cfg: Config)
    requires UniqueEntryIds(a) && UniqueEntryIds(b)
    ensures Fingerprint(a, cfg) == Fingerprint(b, cfg) <==>
      (forall l :: l in Lines(a, cfg) <==> l in Lines(b, cfg))
  {
    SortKeepsElements(IdLess, Lines(a, cfg));
    SortKeepsElements(IdLess, Lines(b, cfg));
    if Fingerprint(a, cfg) == Fingerprint(b, cfg) {
      forall l ensures l in Lines(a, cfg) <==> l in Lines(b, cfg) {
        assert l in Fingerprint(a, cfg) <==> l in Fingerprint(b, cfg);
      }
    }
    if forall l :: l in Lines(a, cfg) <==> l in Lines(b, cfg) {
      LinesAreDistinct(a, cfg);
      LinesAreDistinct(b, cfg);
      DistinctSameMembers(Lines(a, cfg), Lines(b, cfg));
      FingerprintIgnoresOrder(a, b, cfg);
    }
  }

  /** A matching fingerprint puts every signed entry in the live approved set, unique ids or not. */
  lemma FingerprintCoversEntry(signed: seq<ApprovedEntry>, live: seq<ApprovedEntry>, cfg: Config, k: nat)
    requires Fingerprint(signed, cfg) == Fingerprint(live, cfg) && k < |signed|
    ensures exists i :: 0 <= i < |live| && live[i].id == signed[k].id && live[i].brief == signed[k].brief
  {
    SortKeepsElements(IdLess, Lines(signed, cfg));
    SortKeepsElements(IdLess, Lines(live, cfg));
    assert Lines(signed, cfg)[k] in Lines(signed, cfg);
    assert Lines(signed, cfg)[k] in Fingerprint(live, cfg);
    assert Lines(signed, cfg)[k] in Lines(live, cfg);
    var i :| 0 <= i < |Lines(live, cfg)| && Lines(live, cfg)[i] == Lines(signed, cfg)[k];
    assert Lines(live, cfg)[i] == LineOf(live[i], cfg);
  }

  /** `ApprovedEntries` reads off exactly the approved ids. */
  lemma {:induction false} ApprovedEntriesAreApproved(plan: Plan, entries: seq<Entry>)
    requires forall e | e in entries :: e in plan.entries
    ensures forall k | 0 <= k < |ApprovedEntries(entries)| :: IsApproved(plan, ApprovedEntries(entries)[k].id)
  {
    if entries != [] {
      assert entries == [entries[0]] + entries[1..];
      ApprovedEntriesAreApproved(plan, entries[1..]);
    }
  }

  lemma {:induction false} ApprovedEntriesComeFrom(entries: seq<Entry>, k: nat) returns (i: nat)
    requires k < |ApprovedEntries(entries)|
    ensures i < |entries| && entries[i].id == ApprovedEntries(entries)[k].id && entries[i].status == Approved
  {
    var rest := ApprovedEntries(entries[1..]);
    if entries[0].status != Approved {
      var j := ApprovedEntriesComeFrom(entries[1..], k);
      i := j + 1;
    } else if k == 0 {
      i := 0;
    } else {
      var j := ApprovedEntriesComeFrom(entries[1..], k - 1);
      i := j + 1;
    }
  }

  lemma {:induction false} ApprovedEntriesUnique(entries: seq<Entry>)
    requires UniqueIds(entries)
    ensures UniqueEntryIds(ApprovedEntries(entries))
  {
    if entries != [] {
      var tail, rest := entries[1..], ApprovedEntries(entries[1..]);
      assert UniqueIds(tail) by {
        forall i, j | 0 <= i < j < |tail| ensures tail[i].id != tail[j].id {
          assert entries[i + 1].id != entries[j + 1].id;
        }
      }
      ApprovedEntriesUnique(tail);
      forall k | 0 <= k < |rest| ensures rest[k].id != entries[0].id {
        var i := ApprovedEntriesComeFrom(tail, k);
        assert entries[i + 1].id == rest[k].id;
      }
    }
  }

  // ── Quote ──────────────────────────────

  datatype Charge = New | ReusedLine | Blocked

  /** `credits` is what leaves the balance for this line; `full` what it costs on its own. */
  datatype QuoteLine = QuoteLine(entryId: string, charge: Charge, credits: nat, full: nat)

  /** Histories by entry id; an entry that was never dispatched has none. */
  type Histories = map<string, seq<Job>>

  function HistoryOf(h: Histories, id: string): seq<Job> {
    if id in h then h[id] else []
  }

  function ChargeOf(h: Histories, cell: GenCell, cfg: Config): Charge {
    match HistoryDisposition(HistoryOf(h, cell.id), MaterialOf(cell, cfg), cfg.square)
    case Fresh => New
    case Reused => ReusedLine
    case Conflict => Blocked
  }

  function QuoteLineOf(entry: ApprovedEntry, h: Option<Histories>, cfg: Config): QuoteLine {
    var cell := CellOf(entry, cfg);
    // Unreadable history quotes the full price: over-quoting is safe, under-quoting is not.
    var charge := if h.None? then New else ChargeOf(h.value, cell, cfg);
    QuoteLine(entry.id, charge, if charge == New then cfg.price(cell) else 0, cfg.price(cell))
  }

  function QuoteLines(approved: seq<ApprovedEntry>, h: Option<Histories>, cfg: Config): (r: seq<QuoteLine>)
    ensures |r| == |approved|
  {
    seq(|approved|, i requires 0 <= i < |approved| => QuoteLineOf(approved[i], h, cfg))
  }

  function Total(lines: seq<QuoteLine>): nat {
    if lines == [] then 0 else Total(lines[..|lines| - 1]) + lines[|lines| - 1].credits
  }

  function BlockedCount(lines: seq<QuoteLine>): nat {
    if lines == [] then 0 else (if lines[0].charge == Blocked then 1 else 0) + BlockedCount(lines[1..])
  }

  /** Ids of the lines that will be delivered, in line order. */
  function Delivered(lines: seq<QuoteLine>): seq<string> {
    if lines == [] then []
    else
      var rest := Delivered(lines[1..]);
      if lines[0].charge == Blocked then rest else [lines[0].entryId] + rest
  }

  /** The delivery fingerprint payload: the deliverable ids, sorted. */
  function DeliveryFace(lines: seq<QuoteLine>): seq<string> {
    Sort(StringLess, Delivered(lines))
  }

  /** The delivery face of an approved set under some history. */
  function FaceUnder(approved: seq<ApprovedEntry>, h: Histories, cfg: Config): seq<string> {
    DeliveryFace(QuoteLines(approved, Some(h), cfg))
  }

  lemma {:induction false} SameBlockedSameDelivered(a: seq<QuoteLine>, b: seq<QuoteLine>)
    requires |a| == |b|
    requires forall i | 0 <= i < |a| ::
      a[i].entryId == b[i].entryId && (a[i].charge == Blocked <==> b[i].charge == Blocked)
    ensures Delivered(a) == Delivered(b)
    ensures BlockedCount(a) == BlockedCount(b)
  {
    if a != [] {
      assert forall i | 0 <= i < |a[1..]| :: a[1..][i] == a[i + 1] && b[1..][i] == b[i + 1];
      SameBlockedSameDelivered(a[1..], b[1..]);
    }
  }

  /** The delivery face moves only when some entry becomes blocked or stops being blocked. */
  lemma FaceMovesOnlyWithConflict(approved: seq<ApprovedEntry>, h: Histories, h': Histories, cfg: Config)
    requires forall e | e in approved ::
      (HistoryDisposition(HistoryOf(h, e.id), MaterialOf(CellOf(e, cfg), cfg), cfg.square) == Conflict <==>
       HistoryDisposition(HistoryOf(h', e.id), MaterialOf(CellOf(e, cfg), cfg), cfg.square) == Conflict)
    ensures FaceUnder(approved, h, cfg) == FaceUnder(approved, h', cfg)
  {
    var a, b := QuoteLines(approved, Some(h), cfg), QuoteLines(approved, Some(h'), cfg);
    forall i | 0 <= i < |a|
      ensures a[i].entryId == b[i].entryId && (a[i].charge == Blocked <==> b[i].charge == Blocked)
    {
      assert approved[i] in approved;
    }
    SameBlockedSameDelivered(a, b);
  }

  lemma {:induction false} BlockedNotDelivered(lines: seq<QuoteLine>, id: string)
    ensures id in Delivered(lines) <==> exists i ::
      0 <= i < |lines| && lines[i].entryId == id && lines[i].charge != Blocked
  {
    if lines != [] {
      BlockedNotDelivered(lines[1..], id);
      assert forall i | 0 <= i < |lines[1..]| :: lines[1..][i] == lines[i + 1];
      if id in Delivered(lines) {
        if lines[0].charge == Blocked || lines[0].entryId != id {
          var i :| 0 <= i < |lines[1..]| && lines[1..][i].entryId == id && lines[1..][i].charge != Blocked;
          assert lines[i + 1].entryId == id;
        }
      }
      if i :| 0 <= i < |lines| && lines[i].entryId == id && lines[i].charge != Blocked {
        if i > 0 { assert lines[1..][i - 1] == lines[i]; }
      }
    }
  }

  /** The face holds exactly the entries whose material still binds to their history. */
  lemma FaceIsTheDeliverableSet(approved: seq<ApprovedEntry>, h: Histories, cfg: Config, id: string)
    ensures id in FaceUnder(approved, h, cfg) <==>
      exists e :: e in approved && e.id == id &&
        HistoryDisposition(HistoryOf(h, id), MaterialOf(CellOf(e, cfg), cfg), cfg.square) != Conflict
  {
    var lines := QuoteLines(approved, Some(h), cfg);
    SortKeepsElements(StringLess, Delivered(lines));
    BlockedNotDelivered(lines, id);
    if i :| 0 <= i < |lines| && lines[i].entryId == id && lines[i].charge != Blocked {
      assert approved[i] in approved && CellOf(approved[i], cfg).id == id;
    }
    if e :| (
      && e in approved && e.id == id
      && HistoryDisposition(HistoryOf(h, id), MaterialOf(CellOf(e, cfg), cfg), cfg.square) != Conflict) {
      var i :| 0 <= i < |approved| && approved[i] == e;
      assert lines[i] == QuoteLineOf(e, Some(h), cfg) && lines[i].charge != Blocked;
    }
  }

  /** A readable history can only lower the quote. */
  lemma {:induction false} HistoryOnlyLowersTheQuote(approved: seq<ApprovedEntry>, h: Histories, cfg: Config)
    ensures Total(QuoteLines(approved, Some(h), cfg)) <= Total(QuoteLines(approved, None, cfg))
  {
    if approved != [] {
      var n := |approved| - 1;
      HistoryOnlyLowersTheQuote(approved[..n], h, cfg);
      assert QuoteLines(approved, Some(h), cfg)[..n] == QuoteLines(approved[..n], Some(h), cfg);
      assert QuoteLines(approved, None, cfg)[..n] == QuoteLines(approved[..n], None, cfg);
    }
  }
}
