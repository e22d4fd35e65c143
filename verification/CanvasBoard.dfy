/**
 * Canvas cards of one project: exactly-once placement of a paid job's outputs, deletion, and the
 * browser's own reports. Placement and deletion hold the job's advisory lock but read before they
 * write; a report takes no lock at all. Every read, lock and write is a step of its own.
 */
module CanvasBoard {
  import opened Basics

  datatype CardStatus = Pending | Timeout | Failed | Cancelled | Missing | Unknown | Done | Deleted

  /** A card's place in the sequence is its creation order; `job` is empty for text and library cards. */
  datatype Card = Card(job: Option<string>, output: Option<string>, status: CardStatus)

  /** `outputs` are the generations a job delivered, in the order the job recorded them. */
  type Jobs = map<string, seq<string>>

  datatype Request = Request(job: string, output: Option<string>, status: Option<CardStatus>)

  datatype Refusal = JobNotFound | ForeignOutput | SuppressedJob | SuppressedOutput

  predicate Live(c: Card) {
    c.status != Deleted
  }

  predicate Owns(c: Card, job: string) {
    c.job == Some(job)
  }

  // ── What placement reads ───────────────

  function IndexOf(outputs: seq<string>, g: string): (r: Option<nat>)
    ensures r.Some? ==> r.value < |outputs| && outputs[r.value] == g
    ensures r.None? <==> g !in outputs
  {
    if outputs == [] then None
    else if outputs[0] == g then Some(0)
    else match IndexOf(outputs[1..], g)
      case None => None
      case Some(i) => Some(i + 1)
  }

  function OutputIndex(outputs: seq<string>, output: Option<string>): Option<nat> {
    match output
    case None => None
    case Some(g) => IndexOf(outputs, g)
  }

  predicate JobTombstone(cards: seq<Card>, job: string) {
    exists i :: 0 <= i < |cards| && Owns(cards[i], job) && !Live(cards[i]) && cards[i].output == None
  }

  predicate OutputTombstone(cards: seq<Card>, job: string, g: string) {
    exists i :: 0 <= i < |cards| && Owns(cards[i], job) && !Live(cards[i]) && cards[i].output == Some(g)
  }

  /** The checks in front of any placement, under the job lock. */
  function Check(jobs: Jobs, cards: seq<Card>, r: Request): Option<Refusal> {
    if r.job !in jobs then Some(JobNotFound)
    else if r.output.Some? && r.output.value !in jobs[r.job] then Some(ForeignOutput)
    else if JobTombstone(cards, r.job) then Some(SuppressedJob)
    else if r.output.Some? && OutputTombstone(cards, r.job, r.output.value) then Some(SuppressedOutput)
    else None
  }

  predicate Wanted(c: Card, job: string, output: Option<string>) {
    Owns(c, job) && Live(c) && (output.None? || c.output == output)
  }

  /** `findFirst` over the live cards of a job, oldest first, optionally of one output. */
  function Oldest(cards: seq<Card>, job: string, output: Option<string>): (r: Option<nat>)
    ensures r.Some? ==> r.value < |cards| && Wanted(cards[r.value], job, output)
    ensures r.Some? ==> forall i | 0 <= i < r.value :: !Wanted(cards[i], job, output)
    ensures r.None? ==> forall i | 0 <= i < |cards| :: !Wanted(cards[i], job, output)
  {
    if cards == [] then None
    else if Wanted(cards[0], job, output) then Some(0)
    else match Oldest(cards[1..], job, output)
      case None => None
      case Some(i) => Some(i + 1)
  }

  /** The card this placement lands on, if there is one: the first output prefers the job's oldest card. */
  function Existing(cards: seq<Card>, r: Request, index: Option<nat>): (e: Option<nat>)
    ensures e.Some? ==> e.value < |cards| && Owns(cards[e.value], r.job) && Live(cards[e.value])
  {
    var primary := Oldest(cards, r.job, None);
    if index == Some(0) && primary.Some?
       && (cards[primary.value].output == None || cards[primary.value].output == r.output) then primary
    else Oldest(cards, r.job, r.output)
  }

  // ── What placement and deletion write ───

  datatype Patch = Patch(bind: bool, finish: bool)

  function PatchFor(r: Request, index: Option<nat>, seen: Card): Patch {
    Patch(index == Some(0) && r.output.Some? && seen.output != r.output,
          r.output.Some? && r.status == Some(Done) && seen.status != Done)
  }

  /** The tombstone rule stands in the write itself. */
  function Patched(c: Card, p: Patch, output: Option<string>): Card {
    if !Live(c) then c
    else Card(c.job, if p.bind then output else c.output, if p.finish then Done else c.status)
  }

  function NewCard(r: Request): Card {
    Card(Some(r.job), r.output, GetOr(r.status, Done))
  }

  /** Where the cards stand after a placement that saw `existing` as `seen`. */
  function PlacedOn(cards: seq<Card>, r: Request, index: Option<nat>, existing: Option<nat>, seen: Card): seq<Card>
    requires existing.Some? ==> existing.value < |cards|
  {
    match existing
    case Some(e) => cards[e := Patched(cards[e], PatchFor(r, index, seen), r.output)]
    case None => cards + [NewCard(r)]
  }

  /** A card seen in flight is deleted as in flight, whatever was bound to it since. */
  function Tombstoned(c: Card, seen: Option<string>): Card {
    if !Live(c) then c else Card(c.job, if seen == None then None else c.output, Deleted)
  }

  // ── What a browser reports ─────────────

  const REPORTABLE := {Done, Failed, Cancelled, Timeout, Missing}

  predicate ReportAccepted(jobs: Jobs, cards: seq<Card>, card: nat, status: CardStatus, output: Option<string>) {
    && status in REPORTABLE && (status == Done <==> output.Some?)
    && card < |cards| && Live(cards[card])
    && (output.Some? && cards[card].job.Some? ==>
          cards[card].job.value in jobs && output.value in jobs[cards[card].job.value])
  }

  /** The late-write barrier: only a card still being made, and carrying nothing, takes the report. */
  predicate Overwritable(c: Card) {
    c.status in {Pending, Timeout} && c.output == None
  }

  function Reported(jobs: Jobs, cards: seq<Card>, card: nat, status: CardStatus, output: Option<string>): seq<Card> {
    if ReportAccepted(jobs, cards, card, status, output) && Overwritable(cards[card])
    then cards[card := Card(cards[card].job, output, status)] else cards
  }

  // ── The step system ────────────────────

  datatype Phase =
    | PlaceLocked(request: Request)
    | PlaceChecked(request: Request, index: Option<nat>)
    | PlaceFound(request: Request, index: Option<nat>, existing: Option<nat>, before: Card)
    | DeleteSeen(card: nat, job: Option<string>, seen: Option<string>)
    | DeleteLocked(card: nat, job: Option<string>, seen: Option<string>)

  /** `locks` maps a job to the transaction that holds its placement lock. */
  datatype State = State(jobs: Jobs, cards: seq<Card>, locks: map<string, string>, txs: map<string, Phase>)

  datatype Step =
    | PlaceLock(tx: string, request: Request)
    | PlaceCheck(tx: string)
    | PlaceFind(tx: string)
    | PlaceWrite(tx: string)
    | DeleteRead(tx: string, card: nat)
    | DeleteLock(tx: string)
    | DeleteWrite(tx: string)
    | Abort(tx: string)
    | Report(card: nat, status: CardStatus, output: Option<string>)
    | AddFree(output: Option<string>, status: CardStatus)
    | Produce(job: string, more: seq<string>)

  function LockOf(p: Phase): Option<string> {
    match p
    case PlaceLocked(r) => Some(r.job)
    case PlaceChecked(r, _) => Some(r.job)
    case PlaceFound(r, _, _, _) => Some(r.job)
    case DeleteSeen(_, _, _) => None
    case DeleteLocked(_, job, _) => job
  }

  /** The transaction ends, its lock goes, and these are the cards. */
  function Ended(s: State, tx: string, cards: seq<Card>): State
    requires tx in s.txs
  {
    var job := LockOf(s.txs[tx]);
    State(s.jobs, cards, if job.Some? then s.locks - {job.value} else s.locks, s.txs - {tx})
  }

  function ApplyPlaceLock(s: State, tx: string, r: Request): State {
    if tx in s.txs || r.job in s.locks then s
    else s.(locks := s.locks[r.job := tx], txs := s.txs[tx := PlaceLocked(r)])
  }

  function ApplyPlaceCheck(s: State, tx: string): State {
    if tx !in s.txs || !s.txs[tx].PlaceLocked? then s
    else
      var r := s.txs[tx].request;
      if Check(s.jobs, s.cards, r).Some? then Ended(s, tx, s.cards)
      else s.(txs := s.txs[tx := PlaceChecked(r, OutputIndex(s.jobs[r.job], r.output))])
  }

  function ApplyPlaceFind(s: State, tx: string): State {
    if tx !in s.txs || !s.txs[tx].PlaceChecked? then s
    else
      var p := s.txs[tx];
      var existing := Existing(s.cards, p.request, p.index);
      s.(txs := s.txs[tx := PlaceFound(p.request, p.index, existing,
                                       if existing.Some? then s.cards[existing.value] else NewCard(p.request))])
  }

  function ApplyPlaceWrite(s: State, tx: string): State {
    if tx !in s.txs || !s.txs[tx].PlaceFound? then s
    else
      var p := s.txs[tx];
      if p.existing.Some? && p.existing.value >= |s.cards| then s
      else Ended(s, tx, PlacedOn(s.cards, p.request, p.index, p.existing, p.before))
  }

  function ApplyDeleteRead(s: State, tx: string, card: nat): State {
    if tx in s.txs || card >= |s.cards| || !Live(s.cards[card]) then s
    else s.(txs := s.txs[tx := DeleteSeen(card, s.cards[card].job, s.cards[card].output)])
  }

  function ApplyDeleteLock(s: State, tx: string): State {
    if tx !in s.txs || !s.txs[tx].DeleteSeen? then s
    else
      var p := s.txs[tx];
      var t := s.(txs := s.txs[tx := DeleteLocked(p.card, p.job, p.seen)]);
      match p.job
      case None => t
      case Some(job) => if job in s.locks then s else t.(locks := s.locks[job := tx])
  }

  function ApplyDeleteWrite(s: State, tx: string): State {
    if tx !in s.txs || !s.txs[tx].DeleteLocked? || s.txs[tx].card >= |s.cards| then s
    else
      var p := s.txs[tx];
      Ended(s, tx, s.cards[p.card := Tombstoned(s.cards[p.card], p.seen)])
  }

  /** What the delete call answers. */
  predicate DeleteSucceeds(s: State, tx: string) {
    tx in s.txs && s.txs[tx].DeleteLocked? && s.txs[tx].card < |s.cards| && Live(s.cards[s.txs[tx].card])
  }

  predicate Fresh(outputs: seq<string>) {
    forall i, j | 0 <= i < j < |outputs| :: outputs[i] != outputs[j]
  }

  /** A job's record only ever grows, and never names an output twice. */
  function ApplyProduce(s: State, job: string, more: seq<string>): State {
    var outputs := (if job in s.jobs then s.jobs[job] else []) + more;
    if Fresh(outputs) then s.(jobs := s.jobs[job := outputs]) else s
  }

  function Apply(s: State, step: Step): State {
    match step
    case PlaceLock(tx, r) => ApplyPlaceLock(s, tx, r)
    case PlaceCheck(tx) => ApplyPlaceCheck(s, tx)
    case PlaceFind(tx) => ApplyPlaceFind(s, tx)
    case PlaceWrite(tx) => ApplyPlaceWrite(s, tx)
    case DeleteRead(tx, card) => ApplyDeleteRead(s, tx, card)
    case DeleteLock(tx) => ApplyDeleteLock(s, tx)
    case DeleteWrite(tx) => ApplyDeleteWrite(s, tx)
    case Abort(tx) => if tx in s.txs then Ended(s, tx, s.cards) else s
    case Report(card, status, output) => s.(cards := Reported(s.jobs, s.cards, card, status, output))
    case AddFree(output, status) => s.(cards := s.cards + [Card(None, output, status)])
    case Produce(job, more) => ApplyProduce(s, job, more)
  }

  function Run(s: State, steps: seq<Step>): State
    decreases |steps|
  {
    if steps == [] then s else Run(Apply(s, steps[0]), steps[1..])
  }

  predicate Initial(s: State) {
    s.jobs == map[] && s.cards == [] && s.locks == map[] && s.txs == map[]
  }

  // ── The two calls, when nobody interleaves ───

  datatype Placement = Inserted(card: nat) | Found(card: nat) | Refused(reason: Refusal)

  /** The board as the actions write it: one row per card. */
  class Board {
    var jobs: Jobs
    var cards: seq<Card>

    constructor (jobs: Jobs)
      ensures this.jobs == jobs && cards == []
    {
      this.jobs := jobs;
      cards := [];
    }

    /** `placeCanvasJobNode`. */
    method Place(r: Request) returns (result: Placement)
      modifies this
      ensures jobs == old(jobs)
      ensures match Check(jobs, old(cards), r)
        case Some(reason) => result == Refused(reason) && cards == old(cards)
        case None =>
          var index := OutputIndex(jobs[r.job], r.output);
          var existing := Existing(old(cards), r, index);
          && cards == PlacedOn(old(cards), r, index, existing,
                               if existing.Some? then old(cards)[existing.value] else NewCard(r))
          && result == (if existing.Some? then Found(existing.value) else Inserted(|old(cards)|))
    {
      if r.job !in jobs {
        return Refused(JobNotFound);
      }
      var index := OutputIndex(jobs[r.job], r.output);
      if r.output.Some? && index.None? {
        return Refused(ForeignOutput);
      }
      if JobTombstone(cards, r.job) {
        return Refused(SuppressedJob);
      }
      if r.output.Some? && OutputTombstone(cards, r.job, r.output.value) {
        return Refused(SuppressedOutput);
      }
      var existing: Option<nat> := None;
      if index == Some(0) {
        var primary := Oldest(cards, r.job, None);
        if primary.Some? && (cards[primary.value].output == None || cards[primary.value].output == r.output) {
          existing := primary;
        }
      }
      if existing.None? {
        existing := Oldest(cards, r.job, r.output);
      }
      if existing.Some? {
        var e := existing.value;
        var node := cards[e];
        if index == Some(0) && r.output.Some? && node.output != r.output {
          cards := cards[e := cards[e].(output := r.output)];
        }
        if r.output.Some? && r.status == Some(Done) && node.status != Done {
          cards := cards[e := cards[e].(status := Done)];
        }
        return Found(e);
      }
      result := Inserted(|cards|);
      cards := cards + [NewCard(r)];
    }

    /** `tombstoneCanvasNode`. */
    method Tombstone(card: nat) returns (deleted: bool)
      modifies this
      ensures jobs == old(jobs)
      ensures deleted == (card < |old(cards)| && Live(old(cards)[card]))
      ensures cards == if deleted then old(cards)[card := Tombstoned(old(cards)[card], old(cards)[card].output)]
        else old(cards)
    {
      if card >= |cards| || !Live(cards[card]) {
        return false;
      }
      cards := cards[card := cards[card].(status := Deleted)];
      return true;
    }

    /** `resolveCanvasNode`'s guarded write. */
    method Resolve(card: nat, status: CardStatus, output: Option<string>) returns (applied: bool)
      modifies this
      ensures jobs == old(jobs)
      ensures applied <==>
        && status in {Done, Failed, Cancelled, Timeout, Missing} && (status == Done <==> output.Some?)
        && card < |old(cards)| && old(cards)[card].status in {Pending, Timeout} && old(cards)[card].output == None
        && (output.Some? && old(cards)[card].job.Some? ==>
              old(cards)[card].job.value in jobs && output.value in jobs[old(cards)[card].job.value])
      ensures cards == if applied then old(cards)[card := Card(old(cards)[card].job, output, status)] else old(cards)
      ensures cards == Reported(jobs, old(cards), card, status, output)
    {
      applied := false;
      if ReportAccepted(jobs, cards, card, status, output) && Overwritable(cards[card]) {
        cards := cards[card := Card(cards[card].job, output, status)];
        applied := true;
      }
    }
  }
}
