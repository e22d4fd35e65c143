/** "Has this plan entry already been dispatched?", read from the durable record alone. */
module DispatchHistory {
  import opened BatchIdempotency
  import opened DispatchLease
  import opened CampaignQuote

  /** Histories of one campaign by project, then by entry. Batch ids are injective in the project. */
  type ProjectHistories = map<string, Histories>

  function JobsAt(jobs: ProjectHistories, project: string, entry: string): seq<Job> {
    if project in jobs then HistoryOf(jobs[project], entry) else []
  }

  /** Projects of the owner that ever hosted a batch of this campaign, grouped or not. */
  predicate Hosts(projects: seq<string>, batches: map<string, BatchRow>, p: string) {
    p in projects && p in batches
  }

  ghost predicate AnyLegacy(projects: seq<string>, batches: map<string, BatchRow>, legacy: set<string>) {
    exists p :: Hosts(projects, batches, p) && p in legacy
  }

  ghost predicate JobSomewhere(projects: seq<string>, batches: map<string, BatchRow>, jobs: ProjectHistories,
                               entry: string) {
    exists p :: Hosts(projects, batches, p) && JobsAt(jobs, p, entry) != []
  }

  /** What the read answers for one entry. */
  ghost predicate Dispatched(
    projects: seq<string>, batches: map<string, BatchRow>, jobs: ProjectHistories, legacy: set<string>, entry: string)
  {
    AnyLegacy(projects, batches, legacy) || JobSomewhere(projects, batches, jobs, entry)
  }

  /** `dispatchedCampaignEntryIds`. `legacy` holds the projects with positional-key rows. */
  method DispatchedEntryIds(
      projects: seq<string>, batches: map<string, BatchRow>, jobs: ProjectHistories, legacy: set<string>,
      entryIds: seq<string>) returns (dispatched: set<string>)
    ensures forall id :: id in dispatched <==> id in entryIds && Dispatched(projects, batches, jobs, legacy, id)
  {
    dispatched := {};
    if entryIds == [] {
      return;
    }
    for i := 0 to |projects|
      invariant forall k | 0 <= k < i :: !(projects[k] in batches && projects[k] in legacy)
      invariant forall id :: id in dispatched <==>
        id in entryIds && exists k :: 0 <= k < i && projects[k] in batches && JobsAt(jobs, projects[k], id) != []
    {
      var p := projects[i];
      if p in batches {
        if p in legacy {
          dispatched := set id | id in entryIds;
          assert Hosts(projects, batches, p);
          return;
        }
        ghost var before := dispatched;
        for j := 0 to |entryIds|
          invariant forall id :: id in dispatched <==>
            id in before || (id in entryIds[..j] && JobsAt(jobs, p, id) != [])
        {
          assert entryIds[..j + 1] == entryIds[..j] + [entryIds[j]];
          if entryIds[j] !in dispatched && JobsAt(jobs, p, entryIds[j]) != [] {
            dispatched := dispatched + {entryIds[j]};
          }
        }
        assert entryIds[..|entryIds|] == entryIds;
      }
    }
    assert !AnyLegacy(projects, batches, legacy);
    forall id ensures JobSomewhere(projects, batches, jobs, id) <==>
      exists k :: 0 <= k < |projects| && projects[k] in batches && JobsAt(jobs, projects[k], id) != []
    {
      if k :| 0 <= k < |projects| && projects[k] in batches && JobsAt(jobs, projects[k], id) != [] {
        assert Hosts(projects, batches, projects[k]);
      }
    }
  }

  /**
   * When every job's batch row exists and no positional history does, the read is exact: it does
   * not depend on how projects are grouped today.
   */
  lemma ExactWithoutLegacy(
      projects: seq<string>, batches: map<string, BatchRow>, jobs: ProjectHistories, entry: string)
    requires forall p | JobsAt(jobs, p, entry) != [] :: Hosts(projects, batches, p)
    ensures Dispatched(projects, batches, jobs, {}, entry) <==> exists p :: JobsAt(jobs, p, entry) != []
  {
  }
}
