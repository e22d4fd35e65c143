/**
 * Purging the photos of deleted entities: which assets nobody needs any more, one deleted entity at
 * a time, and the dry run that reports the same without touching a row.
 */
module OrphanSweep {

  datatype Asset = Asset(owner: string, deleted: bool)

  datatype Ref = Ref(entity: string, owner: string, asset: string, deleted: bool)

  datatype Entity = Entity(id: string, owner: string)

  /**
   * The rows the sweep reads. A holder is an (owner, asset) pair: every generation, every brand
   * record that names an image and every product cover counts, deleted ones included.
   */
  datatype Store = Store(
    assets: map<string, Asset>, refs: seq<Ref>,
    generations: set<(string, string)>, brandPins: set<(string, string)>, productCovers: set<(string, string)>)

  // ── One purge ──────────────────────────

  predicate Points(r: Ref, owner: string, id: string) {
    !r.deleted && r.owner == owner && r.asset == id
  }

  predicate Referenced(s: Store, owner: string, id: string) {
    exists r :: r in s.refs && Points(r, owner, id)
  }

  predicate Held(s: Store, owner: string, id: string) {
    (owner, id) in s.generations || (owner, id) in s.brandPins || (owner, id) in s.productCovers
  }

  predicate Orphan(s: Store, owner: string, id: string) {
    && id in s.assets && s.assets[id].owner == owner && !s.assets[id].deleted
    && !Referenced(s, owner, id) && !Held(s, owner, id)
  }

  function Tombstoned(assets: map<string, Asset>, ids: seq<string>): map<string, Asset> {
    map id | id in assets :: if id in ids then assets[id].(deleted := true) else assets[id]
  }

  ghost predicate NoRepeats(ids: seq<string>) {
    forall i, j | 0 <= i < j < |ids| :: ids[i] != ids[j]
  }

  /** The orphans among the candidates, each once, in the order they were named. */
  function Orphans(s: Store, owner: string, candidates: seq<string>): (r: seq<string>)
    ensures forall id :: id in r <==> id in candidates && Orphan(s, owner, id)
    ensures NoRepeats(r)
  {
    if candidates == [] then []
    else
      var rest, id := Orphans(s, owner, candidates[..|candidates| - 1]), candidates[|candidates| - 1];
      assert candidates == candidates[..|candidates| - 1] + [id];
      if id in rest || !Orphan(s, owner, id) then rest else rest + [id]
  }

  // ── One entity ─────────────────────────

  predicate Belongs(r: Ref, e: Entity) {
    r.entity == e.id && r.owner == e.owner
  }

  function LiveAssets(refs: seq<Ref>, e: Entity): seq<string> {
    if refs == [] then []
    else
      var last := refs[|refs| - 1];
      LiveAssets(refs[..|refs| - 1], e) + (if Belongs(last, e) && !last.deleted then [last.asset] else [])
  }

  function Released(refs: seq<Ref>, e: Entity): seq<Ref> {
    seq(|refs|, i requires 0 <= i < |refs| => if Belongs(refs[i], e) then refs[i].(deleted := true) else refs[i])
  }

  datatype Stats = Stats(refsFound: nat, purged: seq<string>)

  /** The state after an entity's references are released, before its candidates are judged. */
  function AfterRelease(s: Store, e: Entity): Store {
    s.(refs := Released(s.refs, e))
  }

  function EntityStats(s: Store, e: Entity): Stats {
    var live := LiveAssets(s.refs, e);
    Stats(|live|, Orphans(AfterRelease(s, e), e.owner, live))
  }

  function Processed(s: Store, e: Entity): Store {
    AfterRelease(s, e).(assets := Tombstoned(s.assets, EntityStats(s, e).purged))
  }

  // ── The sweep, entity by entity ────────

  datatype Report = Report(entities: nat, refs: nat, purged: seq<string>)

  function Sweep(s: Store, entities: seq<Entity>): (Store, Report) {
    if entities == [] then (s, Report(0, 0, []))
    else
      var (t, r) := Sweep(s, entities[..|entities| - 1]);
      var e := entities[|entities| - 1];
      var stats := EntityStats(t, e);
      (Processed(t, e),
       if stats.refsFound == 0 then r
       else Report(r.entities + 1, r.refs + stats.refsFound, r.purged + stats.purged))
  }

  /** The tables, and the code that works on them. */
  class Tables {
    const generations: set<(string, string)>
    const brandPins: set<(string, string)>
    const productCovers: set<(string, string)>
    var assets: map<string, Asset>
    var refs: seq<Ref>

    constructor (s: Store)
      ensures Rows() == s
    {
      assets, refs := s.assets, s.refs;
      generations, brandPins, productCovers := s.generations, s.brandPins, s.productCovers;
    }

    function Rows(): Store
      reads this
    {
      Store(assets, refs, generations, brandPins, productCovers)
    }

    /** `purgeOrphanedReferenceAssets`. */
    method PurgeOrphaned(owner: string, candidates: seq<string>) returns (purged: seq<string>)
      modifies this
      ensures purged == Orphans(old(Rows()), owner, candidates)
      ensures Rows() == old(Rows()).(assets := Tombstoned(old(assets), purged))
    {
      purged := [];
      for i := 0 to |candidates|
        invariant Rows() == old(Rows())
        invariant purged == Orphans(Rows(), owner, candidates[..i])
      {
        assert candidates[..i + 1][..i] == candidates[..i];
        var id := candidates[i];
        var locked := id in assets && assets[id].owner == owner && !assets[id].deleted;
        var pair := (owner, id);
        var shared := Referenced(Rows(), owner, id) || pair in generations || pair in brandPins
          || pair in productCovers;
        if id !in purged && locked && !shared {
          purged := purged + [id];
        }
      }
      assert candidates[..|candidates|] == candidates;
      assets := Tombstoned(assets, purged);
    }

    /** `processEntityInTx`. */
    method ProcessEntity(e: Entity) returns (stats: Stats)
      modifies this
      ensures stats == EntityStats(old(Rows()), e)
      ensures stats.refsFound > 0 ==> Rows() == Processed(old(Rows()), e)
      ensures stats.refsFound == 0 ==> Rows() == old(Rows())
    {
      var live := LiveAssets(refs, e);
      if |live| == 0 {
        return Stats(0, []);
      }
      refs := Released(refs, e);
      var purged := PurgeOrphaned(e.owner, live);
      stats := Stats(|live|, purged);
    }

    /** The loop both modes share. */
    method Walk(entities: seq<Entity>) returns (report: Report)
      modifies this
      ensures (Rows(), report) == Sweep(old(Rows()), entities)
    {
      report := Report(0, 0, []);
      for i := 0 to |entities|
        invariant (Rows(), report) == Sweep(old(Rows()), entities[..i])
      {
        assert entities[..i + 1][..i] == entities[..i];
        ghost var before := Rows();
        var stats := ProcessEntity(entities[i]);
        if stats.refsFound == 0 {
          NothingToRelease(before, entities[i]);
        } else {
          report := Report(report.entities + 1, report.refs + stats.refsFound, report.purged + stats.purged);
        }
      }
      assert entities[..|entities|] == entities;
    }

    /** `runDryRunSimulation`: one transaction over everything, always rolled back. */
    method DryRun(entities: seq<Entity>) returns (report: Report)
      modifies this
      ensures Rows() == old(Rows())
      ensures report == Sweep(old(Rows()), entities).1
    {
      var savedAssets, savedRefs := assets, refs;
      report := Walk(entities);
      assets, refs := savedAssets, savedRefs;
    }
  }

  lemma {:induction false} LiveAssetsMembers(refs: seq<Ref>, e: Entity)
    ensures forall id :: id in LiveAssets(refs, e) <==>
      exists r :: r in refs && Belongs(r, e) && !r.deleted && r.asset == id
  {
    if refs != [] {
      LiveAssetsMembers(refs[..|refs| - 1], e);
      assert refs == refs[..|refs| - 1] + [refs[|refs| - 1]];
    }
  }

  /** An entity without live references leaves the tables as they are. */
  lemma NothingToRelease(s: Store, e: Entity)
    requires LiveAssets(s.refs, e) == []
    ensures Processed(s, e) == s
  {
    LiveAssetsMembers(s.refs, e);
    forall i | 0 <= i < |s.refs| ensures Released(s.refs, e)[i] == s.refs[i] {
      assert s.refs[i] in s.refs;
      assert s.refs[i].asset !in LiveAssets(s.refs, e);
    }
    assert Released(s.refs, e) == s.refs;
    assert Tombstoned(s.assets, []) == s.assets;
  }

  // ── The closed form ────────────────────

  predicate Listed(entities: seq<Entity>, r: Ref) {
    Entity(r.entity, r.owner) in entities
  }

  /**
   * An untombstoned asset that some listed entity references live, that no other entity references
   * live, and that nothing else holds.
   */
  ghost predicate Doomed(s: Store, entities: seq<Entity>, id: string) {
    && id in s.assets && !s.assets[id].deleted
    && !Held(s, s.assets[id].owner, id)
    && (exists r :: r in s.refs && Points(r, s.assets[id].owner, id))
    && (forall r | r in s.refs && Points(r, s.assets[id].owner, id) :: Listed(entities, r))
  }

  function AllReleased(refs: seq<Ref>, entities: seq<Entity>): seq<Ref> {
    seq(|refs|, i requires 0 <= i < |refs| => if Listed(entities, refs[i]) then refs[i].(deleted := true) else refs[i])
  }

  /** What the tables and the report are after the entities so far. */
  ghost predicate SweptTo(s: Store, entities: seq<Entity>, t: Store, r: Report) {
    && t.refs == AllReleased(s.refs, entities)
    && t.assets.Keys == s.assets.Keys
    && (forall id | id in s.assets ::
        t.assets[id] == s.assets[id].(deleted := s.assets[id].deleted || Doomed(s, entities, id)))
    && t.generations == s.generations && t.brandPins == s.brandPins && t.productCovers == s.productCovers
    && (forall id :: id in r.purged <==> Doomed(s, entities, id))
    && NoRepeats(r.purged)
  }

  lemma StillPoints(s: Store, entities: seq<Entity>, t: Store, owner: string, id: string)
    requires t.refs == AllReleased(s.refs, entities)
    ensures Referenced(t, owner, id) <==> exists r :: r in s.refs && Points(r, owner, id) && !Listed(entities, r)
  {
    if Referenced(t, owner, id) {
      var r :| r in t.refs && Points(r, owner, id);
      var i :| 0 <= i < |t.refs| && t.refs[i] == r;
      assert s.refs[i] in s.refs && Points(s.refs[i], owner, id) && !Listed(entities, s.refs[i]);
    }
    if r :| r in s.refs && Points(r, owner, id) && !Listed(entities, r) {
      var i :| 0 <= i < |s.refs| && s.refs[i] == r;
      assert t.refs[i] == r && t.refs[i] in t.refs;
    }
  }

  lemma StillLive(s: Store, entities: seq<Entity>, t: Store, e: Entity, id: string)
    requires t.refs == AllReleased(s.refs, entities)
    ensures id in LiveAssets(t.refs, e) <==>
      exists r :: r in s.refs && Points(r, e.owner, id) && Belongs(r, e) && !Listed(entities, r)
  {
    LiveAssetsMembers(t.refs, e);
    if id in LiveAssets(t.refs, e) {
      var r :| r in t.refs && Belongs(r, e) && !r.deleted && r.asset == id;
      var i :| 0 <= i < |t.refs| && t.refs[i] == r;
      assert s.refs[i] in s.refs && Points(s.refs[i], e.owner, id) && !Listed(entities, s.refs[i]);
    }
    if r :| r in s.refs && Points(r, e.owner, id) && Belongs(r, e) && !Listed(entities, r) {
      var i :| 0 <= i < |s.refs| && s.refs[i] == r;
      assert t.refs[i] == r && t.refs[i] in t.refs;
    }
  }

  lemma ReleasedMore(refs: seq<Ref>, entities: seq<Entity>, e: Entity)
    ensures Released(AllReleased(refs, entities), e) == AllReleased(refs, entities + [e])
  {
    forall i | 0 <= i < |refs|
      ensures Released(AllReleased(refs, entities), e)[i] == AllReleased(refs, entities + [e])[i]
    {
      assert Listed(entities + [e], refs[i]) <==> Listed(entities, refs[i]) || Belongs(refs[i], e);
    }
  }

  /** One more entity dooms exactly what its own purge finds. */
  lemma DoomedMore(s: Store, entities: seq<Entity>, t: Store, r: Report, e: Entity, id: string)
    requires SweptTo(s, entities, t, r)
    ensures Doomed(s, entities + [e], id) <==> Doomed(s, entities, id) || id in EntityStats(t, e).purged
    ensures !(Doomed(s, entities, id) && id in EntityStats(t, e).purged)
  {
    ReleasedMore(s.refs, entities, e);
    StillPoints(s, entities + [e], AfterRelease(t, e), e.owner, id);
    StillLive(s, entities, t, e, id);
    forall ref ensures Listed(entities + [e], ref) <==> Listed(entities, ref) || Belongs(ref, e) {
    }
    OrphansOf(AfterRelease(t, e), e.owner, LiveAssets(t.refs, e), id);
    hide Orphans, Referenced, LiveAssets, AllReleased, Released;
  }

  lemma OrphansOf(s: Store, owner: string, candidates: seq<string>, id: string)
    ensures id in Orphans(s, owner, candidates) <==> id in candidates && Orphan(s, owner, id)
  {
  }

  /** The sweep's state and report, in closed form, after any number of entities. */
  lemma {:induction false} SweepInClosedForm(s: Store, entities: seq<Entity>)
    ensures SweptTo(s, entities, Sweep(s, entities).0, Sweep(s, entities).1)
  {
    if entities == [] {
      assert AllReleased(s.refs, []) == s.refs;
    } else {
      var n := |entities| - 1;
      SweepInClosedForm(s, entities[..n]);
      assert entities == entities[..n] + [entities[n]];
      OneMoreEntity(s, entities[..n], Sweep(s, entities[..n]).0, Sweep(s, entities[..n]).1, entities[n]);
    }
  }

  lemma OneMoreEntity(s: Store, entities: seq<Entity>, t: Store, r: Report, e: Entity)
    requires SweptTo(s, entities, t, r)
    ensures SweptTo(s, entities + [e], Processed(t, e),
                    Report(r.entities + 1, r.refs + EntityStats(t, e).refsFound, r.purged + EntityStats(t, e).purged))
    ensures EntityStats(t, e).refsFound == 0 ==> SweptTo(s, entities + [e], Processed(t, e), r)
  {
    ReleasedMore(s.refs, entities, e);
    forall id ensures Doomed(s, entities + [e], id) <==> Doomed(s, entities, id) || id in EntityStats(t, e).purged
      ensures !(Doomed(s, entities, id) && id in EntityStats(t, e).purged)
    {
      DoomedMore(s, entities, t, r, e, id);
    }
    hide Doomed;
    var purged := EntityStats(t, e).purged;
    assert NoRepeats(r.purged + purged) by {
      forall i | 0 <= i < |purged| ensures purged[i] !in r.purged {
        assert purged[i] in purged;
      }
    }
    if EntityStats(t, e).refsFound == 0 {
      assert purged == [];
      assert r.purged + purged == r.purged;
    }
  }

  // ── Consequences ───────────────────────

  /** In any order, and with any repetition, the sweep ends in the same tables and purges the same assets. */
  lemma OrderDoesNotMatter(s: Store, a: seq<Entity>, b: seq<Entity>)
    requires forall e :: e in a <==> e in b
    ensures Sweep(s, a).0 == Sweep(s, b).0
    ensures forall id :: id in Sweep(s, a).1.purged <==> id in Sweep(s, b).1.purged
    ensures |Sweep(s, a).1.purged| == |Sweep(s, b).1.purged|
  {
    SweepInClosedForm(s, a);
    SweepInClosedForm(s, b);
    assert forall r :: Listed(a, r) == Listed(b, r);
    assert forall id :: Doomed(s, a, id) == Doomed(s, b, id);
    assert AllReleased(s.refs, a) == AllReleased(s.refs, b);
    hide Doomed, AllReleased, Sweep;
    var ta, tb := Sweep(s, a).0, Sweep(s, b).0;
    assert ta.assets == tb.assets;
    SameMembersSameLength(Sweep(s, a).1.purged, Sweep(s, b).1.purged);
  }

  lemma {:induction false} MembersCount(ids: seq<string>)
    requires NoRepeats(ids)
    ensures |set id | id in ids| == |ids|
  {
    if ids != [] {
      var init, last := ids[..|ids| - 1], ids[|ids| - 1];
      MembersCount(init);
      assert ids == init + [last];
      assert (set id | id in ids) == (set id | id in init) + {last};
    }
  }

  lemma SameMembersSameLength(a: seq<string>, b: seq<string>)
    requires NoRepeats(a) && NoRepeats(b) && forall id :: id in a <==> id in b
    ensures |a| == |b|
  {
    MembersCount(a);
    MembersCount(b);
    assert (set id | id in a) == (set id | id in b);
  }

  /** A photo anyone else still uses survives, tombstones never revive, and a second sweep finds nothing. */
  lemma SecondSweepIsEmpty(s: Store, entities: seq<Entity>)
    ensures Sweep(Sweep(s, entities).0, entities).1 == Report(0, 0, [])
    ensures Sweep(Sweep(s, entities).0, entities).0 == Sweep(s, entities).0
  {
    SweepInClosedForm(s, entities);
    hide Sweep;
    NothingLeft(Sweep(s, entities).0, entities, |entities|);
    assert entities[..|entities|] == entities;
  }

  lemma {:induction false} NoneLive(refs: seq<Ref>, entities: seq<Entity>, e: Entity)
    requires e in entities && forall r | r in refs && Listed(entities, r) :: r.deleted
    ensures LiveAssets(refs, e) == []
  {
    if refs != [] {
      NoneLive(refs[..|refs| - 1], entities, e);
      assert refs[|refs| - 1] in refs;
    }
  }

  lemma {:induction false} NothingLeft(t: Store, entities: seq<Entity>, n: nat)
    requires n <= |entities|
    requires forall r | r in t.refs && Listed(entities, r) :: r.deleted
    ensures Sweep(t, entities[..n]) == (t, Report(0, 0, []))
  {
    if n > 0 {
      var e := entities[n - 1];
      NothingLeft(t, entities, n - 1);
      assert entities[..n][..n - 1] == entities[..n - 1];
      NoneLive(t.refs, entities, e);
      NothingToRelease(t, e);
    }
  }
}
