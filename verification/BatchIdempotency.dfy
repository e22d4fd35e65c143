/**
 * What makes two paid requests the same request: the normalised material of a cell, the full
 * binding against history rows, and the one verdict both the quote and the dispatcher read.
 */
module BatchIdempotency {
  import opened Basics

  datatype Kind = Image | Video

  /** `references` is empty when the snapshot carries none: an empty list is never written. */
  datatype VideoOptions = VideoOptions(
    seconds: nat, resolution: string, aspectRatio: string, fps: nat, audio: bool, references: seq<string>)

  datatype ImageOptions = ImageOptions(aspectRatio: string, coherentSet: bool, references: seq<string>)

  datatype Material = Material(
    prompt: string, model: string, kind: Kind, count: nat,
    entityIds: seq<string>, variantSel: Option<map<string, string>>,
    source: Option<string>, tail: Option<string>, referenceVideo: Option<string>,
    shot: Option<string>, thread: Option<string>,
    video: Option<VideoOptions>, image: Option<ImageOptions>)

  datatype MaterialInput = MaterialInput(
    prompt: string, model: string, kind: Kind, count: nat,
    entityIds: Option<seq<string>>, variantSel: Option<map<string, string>>,
    source: Option<string>, tail: Option<string>, referenceVideo: Option<string>,
    shot: Option<string>, thread: Option<string>,
    seconds: Option<nat>, resolution: Option<string>, aspectRatio: Option<string>,
    fps: Option<nat>, audio: Option<bool>,
    coherentSet: bool, references: seq<string>)

  /** The central model defaults; a clip with a first frame defaults to the frame's own shape. */
  datatype Defaults = Defaults(
    imageAspect: string, seconds: nat, resolution: string, aspectRatio: string, frameAspect: string,
    fps: nat, audio: bool)

  const COHERENT_SET_MIN_IMAGES := 2
  const ADAPTIVE := "adaptive"

  function CanonicalVariants(v: Option<map<string, string>>): Option<map<string, string>> {
    if v == Some(map[]) then None else v
  }

  /** An absent or empty id counts as no id: the source's truthiness test. */
  predicate Present(o: Option<string>) {
    o.Some? && o.value != ""
  }

  function NormalizeVideo(input: MaterialInput, d: Defaults, anchored: bool): VideoOptions {
    var shapeDefault := if Present(input.source) || Present(input.shot) then d.frameAspect else d.aspectRatio;
    var anchoredToClip := Present(input.referenceVideo) && anchored;
    VideoOptions(
      GetOr(input.seconds, d.seconds),
      GetOr(input.resolution, d.resolution),
      GetOr(input.aspectRatio, if anchoredToClip then ADAPTIVE else shapeDefault),
      GetOr(input.fps, d.fps),
      GetOr(input.audio, d.audio),
      input.references)
  }

  function NormalizeImage(input: MaterialInput, d: Defaults): ImageOptions {
    ImageOptions(
      GetOr(input.aspectRatio, d.imageAspect),
      input.coherentSet && input.count >= COHERENT_SET_MIN_IMAGES,
      input.references)
  }

  /** `anchored` is the prompt recogniser's answer for the official extend/edit wording. */
  function Normalize(input: MaterialInput, d: Defaults, anchored: bool): Material {
    Material(
      input.prompt, input.model, input.kind,
      if input.kind == Video then 1 else input.count,
      GetOr(input.entityIds, []), CanonicalVariants(input.variantSel),
      input.source, input.tail, input.referenceVideo, input.shot, input.thread,
      if input.kind == Video then Some(NormalizeVideo(input, d, anchored)) else None,
      if input.kind == Image then Some(NormalizeImage(input, d)) else None)
  }

  // ── History rows ───────────────────────

  datatype JobStatus = Queued | Generating | Done | Failed | Cancelled

  /** `attempt` is the attempt half of the idempotency key; `credits` what its reserve held. */
  datatype Job = Job(id: string, attempt: string, material: Material, credits: nat, status: JobStatus)

  predicate EndedWithoutDelivering(s: JobStatus) {
    s == Failed || s == Cancelled
  }

  predicate Live(j: Job) {
    !EndedWithoutDelivering(j.status)
  }

  /** A row written before the shape column existed really produced the default square. */
  function CanonicalImage(o: Option<ImageOptions>, kind: Kind, square: string): Option<ImageOptions> {
    if kind != Image then None
    else if o.None? then Some(ImageOptions(square, false, []))
    else o
  }

  predicate Matches(prior: Job, expected: Material, square: string) {
    var m := prior.material;
    && prior.id != ""
    && m.prompt == expected.prompt
    && m.model == expected.model
    && m.kind == expected.kind
    && m.count == expected.count
    && m.entityIds == expected.entityIds
    && CanonicalVariants(m.variantSel) == CanonicalVariants(expected.variantSel)
    && m.source == expected.source
    && m.tail == expected.tail
    && m.referenceVideo == expected.referenceVideo
    && m.shot == expected.shot
    && m.thread == expected.thread
    && m.video == expected.video
    && CanonicalImage(m.image, expected.kind, square) == CanonicalImage(expected.image, expected.kind, square)
  }

  datatype Disposition = Fresh | Reused | Conflict

  /** `find` over the history: the first row that has not ended without delivering. */
  function StillLivePrior(history: seq<Job>): (r: Option<Job>)
    ensures r.Some? <==> exists j :: j in history && Live(j)
    ensures r.Some? ==> r.value in history && Live(r.value)
  {
    if history == [] then None
    else if Live(history[0]) then Some(history[0])
    else StillLivePrior(history[1..])
  }

  predicate AllMatch(history: seq<Job>, expected: Material, square: string) {
    forall j | j in history :: Matches(j, expected, square)
  }

  function HistoryDisposition(history: seq<Job>, expected: Material, square: string): Disposition {
    if !AllMatch(history, expected, square) then Conflict
    else if StillLivePrior(history).Some? then Reused
    else Fresh
  }

  function ReusedPrior(history: seq<Job>, expected: Material, square: string): Option<Job> {
    if !AllMatch(history, expected, square) then None else StillLivePrior(history)
  }

  /** The dispatcher's verdict under the project lock. */
  datatype Verdict = Refuse | Replay | ReuseLive | Create

  function HistoryVerdict(history: seq<Job>, attempt: string, material: Material, square: string): Verdict {
    if HistoryDisposition(history, material, square) == Conflict then Refuse
    else if exists j :: j in history && j.attempt == attempt then Replay
    else if ReusedPrior(history, material, square).Some? then ReuseLive
    else Create
  }

  // ── Properties ─────────────────────────

  /** The one form two matching materials share. */
  function Canonical(m: Material, square: string): Material {
    m.(variantSel := CanonicalVariants(m.variantSel), image := CanonicalImage(m.image, m.kind, square))
  }

  /** The binding is equality of canonical forms: no weaker, no stronger, status plays no part. */
  lemma MatchesIffSameCanonicalForm(prior: Job, expected: Material, square: string)
    ensures Matches(prior, expected, square) <==>
      prior.id != "" && Canonical(prior.material, square) == Canonical(expected, square)
  {
    if Canonical(prior.material, square) == Canonical(expected, square) {
      assert prior.material.kind == expected.kind;
    }
  }

  /** Two rows that both match one request carry the same material. */
  lemma MatchingRowsAgree(a: Job, b: Job, expected: Material, square: string)
    requires Matches(a, expected, square) && Matches(b, expected, square)
    ensures Matches(a, b.material, square)
  {
    MatchesIffSameCanonicalForm(a, expected, square);
    MatchesIffSameCanonicalForm(b, expected, square);
    MatchesIffSameCanonicalForm(a, b.material, square);
  }

  /** What a request persists is recognised when the very same request comes back. */
  lemma ReplayMatchesWhatItStored(input: MaterialInput, d: Defaults, anchored: bool, job: Job, square: string)
    requires job.id != "" && job.material == Normalize(input, d, anchored)
    ensures Matches(job, Normalize(input, d, anchored), square)
    // …also by a row that predates the image shape column, when the request means the square
    ensures input.kind == Image && NormalizeImage(input, d) == ImageOptions(square, false, []) ==>
      Matches(job.(material := job.material.(image := None)), Normalize(input, d, anchored), square)
  {
  }

  /** The same history under any other statuses. */
  ghost predicate SameContent(a: seq<Job>, b: seq<Job>) {
    && |a| == |b|
    && forall i | 0 <= i < |a| :: a[i].(status := Queued) == b[i].(status := Queued)
  }

  lemma AllMatchIgnoresStatus(a: seq<Job>, b: seq<Job>, expected: Material, square: string)
    requires SameContent(a, b)
    ensures AllMatch(a, expected, square) == AllMatch(b, expected, square)
  {
    forall i | 0 <= i < |a| ensures Matches(a[i], expected, square) == Matches(b[i], expected, square) {
      assert a[i].(status := Queued).material == b[i].(status := Queued).material;
      assert a[i].(status := Queued).id == b[i].(status := Queued).id;
    }
    if AllMatch(a, expected, square) {
      forall j | j in b ensures Matches(j, expected, square) {
        var i :| 0 <= i < |b| && b[i] == j;
        assert a[i] in a;
      }
    }
    if AllMatch(b, expected, square) {
      forall j | j in a ensures Matches(j, expected, square) {
        var i :| 0 <= i < |a| && a[i] == j;
        assert b[i] in b;
      }
    }
  }

  /** No worker status change can block a cell or unblock one: entries move only new <-> reused. */
  lemma StatusNeverDecidesConflict(a: seq<Job>, b: seq<Job>, expected: Material, square: string)
    requires SameContent(a, b)
    ensures HistoryDisposition(a, expected, square) == Conflict <==> HistoryDisposition(b, expected, square) == Conflict
  {
    AllMatchIgnoresStatus(a, b, expected, square);
  }

  /** A dispatch of the cell's own material keeps the cell deliverable and turns fresh into reused. */
  lemma OwnDispatchStaysDeliverable(history: seq<Job>, job: Job, expected: Material, square: string)
    requires HistoryDisposition(history, expected, square) != Conflict
    requires Matches(job, expected, square)
    ensures HistoryDisposition(history + [job], expected, square) != Conflict
    ensures Live(job) ==> HistoryDisposition(history + [job], expected, square) == Reused
  {
    assert Live(job) ==> job in history + [job];
  }

  /**
   * A request that comes back after its own dispatch is never a conflict: the same attempt is handed
   * the job it already has, and another attempt reuses the cell while a job of it lives and may only
   * create once every one has ended without delivering.
   */
  lemma {:induction false} ResentRequestIsRecognised(
      history: seq<Job>, input: MaterialInput, d: Defaults, anchored: bool, job: Job, attempt: string, square: string)
    requires HistoryDisposition(history, Normalize(input, d, anchored), square) != Conflict
    requires job.id != "" && job.material == Normalize(input, d, anchored)
    ensures var m, h := Normalize(input, d, anchored), history + [job];
      && HistoryVerdict(h, job.attempt, m, square) == Replay
      && ((forall j | j in h :: j.attempt != attempt) ==>
            HistoryVerdict(h, attempt, m, square) == if exists j :: j in h && Live(j) then ReuseLive else Create)
  {
    hide Normalize, Matches, Live;
    ReplayMatchesWhatItStored(input, d, anchored, job, square);
    OwnDispatchStaysDeliverable(history, job, Normalize(input, d, anchored), square);
    assert job in history + [job];
  }
}
