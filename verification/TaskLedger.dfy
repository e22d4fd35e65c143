/**
 * "Recent activity" of an account: the ledger's rows grouped into tasks, and the two-pass read that
 * fetches just enough rows to show the most recent ones.
 */
module TaskLedger {
  import opened Basics

  datatype RowKind = ReserveRow | SettleRow | RefundRow | OtherRow

  /** One ledger row; `title` is its label. Ledgers are sequences of rows, newest first. */
  datatype Row = Row(id: string, kind: RowKind, refId: Option<string>, delta: int, at: nat, title: string)

  datatype Detail = Used(used: int, refunded: int) | RefundedInFull

  datatype Activity = Activity(id: string, title: string, delta: int, at: nat, detail: Option<Detail>)

  const ROW_PREFIX := "row:"

  /** Rows without a reference never merge: each is a task of its own. */
  function Key(row: Row): string {
    match row.refId
    case Some(r) => r
    case None => ROW_PREFIX + row.id
  }

  function Nonzero(rows: seq<Row>): seq<Row> {
    if rows == [] then []
    else Nonzero(rows[..|rows| - 1]) + (if rows[|rows| - 1].delta != 0 then [rows[|rows| - 1]] else [])
  }

  /** The task keys in order of their newest row. */
  function Keys(rows: seq<Row>): seq<string> {
    if rows == [] then []
    else
      var ks, key := Keys(rows[..|rows| - 1]), Key(rows[|rows| - 1]);
      if key in ks then ks else ks + [key]
  }

  function Group(rows: seq<Row>, key: string): seq<Row> {
    if rows == [] then []
    else Group(rows[..|rows| - 1], key) + (if Key(rows[|rows| - 1]) == key then [rows[|rows| - 1]] else [])
  }

  function Sum(rows: seq<Row>): int {
    if rows == [] then 0 else Sum(rows[..|rows| - 1]) + rows[|rows| - 1].delta
  }

  /** `reduce`: the newest row, the first of equals. */
  function Latest(group: seq<Row>): Row
    requires group != []
  {
    if |group| == 1 then group[0]
    else
      var best := Latest(group[..|group| - 1]);
      if group[|group| - 1].at > best.at then group[|group| - 1] else best
  }

  function FirstOf(group: seq<Row>, kinds: set<RowKind>): Option<Row> {
    if group == [] then None
    else if group[0].kind in kinds then Some(group[0])
    else FirstOf(group[1..], kinds)
  }

  function DetailOf(group: seq<Row>): Option<Detail> {
    var reserve, back := FirstOf(group, {ReserveRow}), FirstOf(group, {SettleRow, RefundRow});
    if |group| <= 1 || reserve.None? || back.None? then None
    else
      var used := (0 - reserve.value.delta) - back.value.delta;
      Some(if used > 0 then Used(used, back.value.delta) else RefundedInFull)
  }

  function ActivityOf(group: seq<Row>): Activity
    requires group != []
  {
    Activity(Latest(group).id, Latest(group).title, Sum(group), Latest(group).at, DetailOf(group))
  }

  lemma {:induction false} GroupOfKey(rows: seq<Row>, key: string)
    ensures key in Keys(rows) <==> Group(rows, key) != []
  {
    if rows != [] {
      GroupOfKey(rows[..|rows| - 1], key);
    }
  }

  /** What the account page shows for these rows: one entry per task, newest task first. */
  function Merge(rows: seq<Row>): (r: seq<Activity>)
    ensures |r| == |Keys(rows)|
  {
    seq(|Keys(rows)|, i requires 0 <= i < |Keys(rows)| =>
      GroupOfKey(rows, Keys(rows)[i]); ActivityOf(Group(rows, Keys(rows)[i])))
  }

  // ── The code's own loops ───────────────

  lemma Snoc(rows: seq<Row>, row: Row)
    ensures Keys(rows + [row]) == if Key(row) in Keys(rows) then Keys(rows) else Keys(rows) + [Key(row)]
    ensures Sum(rows + [row]) == Sum(rows) + row.delta
  {
    assert (rows + [row])[..|rows|] == rows;
  }

  lemma GroupSnoc(rows: seq<Row>, row: Row, key: string)
    ensures Group(rows + [row], key) == if Key(row) == key then Group(rows, key) + [row] else Group(rows, key)
  {
    assert (rows + [row])[..|rows|] == rows;
  }

  lemma EmptyLedger(rows: seq<Row>)
    requires rows == []
    ensures Keys(rows) == [] && Sum(rows) == 0 && forall key :: Group(rows, key) == []
  {
  }

  /** One task's entry, as the page computes it. */
  method Summarise(group: seq<Row>) returns (a: Activity)
    requires group != []
    ensures a == ActivityOf(group)
  {
    var net, latest := 0, group[0];
    for j := 0 to |group|
      invariant net == Sum(group[..j])
      invariant latest == if j == 0 then group[0] else Latest(group[..j])
    {
      assert group[..j + 1][..j] == group[..j];
      net := net + group[j].delta;
      if group[j].at > latest.at {
        latest := group[j];
      }
    }
    assert group[..|group|] == group;
    a := Activity(latest.id, latest.title, net, latest.at, DetailOf(group));
  }

  method GroupRows(rows: seq<Row>) returns (order: seq<string>, groups: map<string, seq<Row>>)
    ensures order == Keys(rows)
    ensures forall key :: key in groups <==> key in order
    ensures forall key | key in groups :: groups[key] == Group(rows, key)
  {
    hide Group, Keys;
    order, groups := [], map[];
    EmptyLedger(rows[..0]);
    for i := 0 to |rows|
      invariant order == Keys(rows[..i])
      invariant forall key :: key in groups <==> key in order
      invariant forall key | key in groups :: groups[key] == Group(rows[..i], key)
    {
      var row := rows[i];
      var key := Key(row);
      Snoc(rows[..i], row);
      GroupOfKey(rows[..i], key);
      assert rows[..i + 1] == rows[..i] + [row];
      forall k
        ensures Group(rows[..i + 1], k) == if key == k then Group(rows[..i], k) + [row] else Group(rows[..i], k)
      {
        GroupSnoc(rows[..i], row, k);
      }
      if key !in groups {
        groups := groups[key := []];
        order := order + [key];
      }
      groups := groups[key := groups[key] + [row]];
    }
    assert rows[..|rows|] == rows;
  }

  /** `mergeByTask`. */
  method MergeByTask(rows: seq<Row>) returns (activities: seq<Activity>)
    ensures activities == Merge(rows)
  {
    hide Keys, Group, ActivityOf;
    var order, groups := GroupRows(rows);
    activities := [];
    for k := 0 to |order|
      invariant activities == Merge(rows)[..k]
    {
      GroupOfKey(rows, order[k]);
      var activity := Summarise(groups[order[k]]);
      activities := activities + [activity];
    }
  }

  predicate IsRowKey(key: string) {
    ROW_PREFIX <= key
  }

  function RefIds(keys: seq<string>): seq<string> {
    if keys == [] then [] else (if IsRowKey(keys[0]) then [] else [keys[0]]) + RefIds(keys[1..])
  }

  function RowIds(keys: seq<string>): seq<string> {
    if keys == [] then []
    else (if IsRowKey(keys[0]) then [keys[0][|ROW_PREFIX|..]] else []) + RowIds(keys[1..])
  }

  /** The second query: every row of the named references and the named lone rows. */
  function Fetch(rows: seq<Row>, refIds: seq<string>, rowIds: seq<string>): seq<Row> {
    if rows == [] then []
    else
      var last := rows[|rows| - 1];
      Fetch(rows[..|rows| - 1], refIds, rowIds)
      + (if (last.refId.Some? && last.refId.value in refIds) || last.id in rowIds then [last] else [])
  }

  function Take<T>(s: seq<T>, n: nat): seq<T> {
    if n <= |s| then s[..n] else s
  }

  /** The task keys the first pass settles on. */
  function RecentKeys(ledger: seq<Row>, limit: nat): seq<string> {
    Take(Keys(Take(Nonzero(ledger), limit * 4)), limit)
  }

  function TwoPass(ledger: seq<Row>, limit: nat): seq<Row> {
    var keys := RecentKeys(ledger, limit);
    Fetch(Nonzero(ledger), RefIds(keys), RowIds(keys))
  }

  lemma {:induction false} FetchNothing(rows: seq<Row>)
    ensures Fetch(rows, [], []) == [] && RefIds([]) == [] && RowIds([]) == []
  {
    if rows != [] {
      FetchNothing(rows[..|rows| - 1]);
    }
  }

  /** `recentTaskLedgerRows`. */
  method RecentTaskLedgerRows(ledger: seq<Row>, limit: nat) returns (rows: seq<Row>)
    ensures rows == TwoPass(ledger, limit)
  {
    hide Keys, Key, Nonzero, Fetch, RefIds, RowIds;
    var recentRaw := Take(Nonzero(ledger), limit * 4);
    var taskKeys: seq<string> := [];
    var seenKeys: set<string> := {};
    var i := 0;
    EmptyLedger(recentRaw[..0]);
    while i < |recentRaw|
      invariant i <= |recentRaw|
      invariant taskKeys == Keys(recentRaw[..i]) && |taskKeys| <= limit
      invariant |taskKeys| < limit || i == |recentRaw| == 0
      invariant forall key :: key in seenKeys <==> key in taskKeys
    {
      Snoc(recentRaw[..i], recentRaw[i]);
      assert recentRaw[..i + 1] == recentRaw[..i] + [recentRaw[i]];
      var key := Key(recentRaw[i]);
      i := i + 1;
      if key !in seenKeys {
        seenKeys := seenKeys + {key};
        taskKeys := taskKeys + [key];
        if |taskKeys| == limit {
          break;
        }
      }
    }
    KeysPrefix(recentRaw, i);
    assert recentRaw[..|recentRaw|] == recentRaw;
    assert taskKeys == RecentKeys(ledger, limit);
    if |taskKeys| == 0 {
      FetchNothing(Nonzero(ledger));
      return [];
    }
    rows := Fetch(Nonzero(ledger), RefIds(taskKeys), RowIds(taskKeys));
  }

  // ── Key sequences ──────────────────────

  lemma {:induction false} KeysPrefix(rows: seq<Row>, n: nat)
    requires n <= |rows|
    ensures Keys(rows[..n]) <= Keys(rows)
    decreases |rows| - n
  {
    if n == |rows| {
      assert rows[..n] == rows;
    } else {
      assert rows[..n + 1][..n] == rows[..n];
      KeysPrefix(rows, n + 1);
    }
  }

  ghost predicate Distinct(keys: seq<string>) {
    forall i, j | 0 <= i < j < |keys| :: keys[i] != keys[j]
  }

  lemma {:induction false} KeysDistinct(rows: seq<Row>)
    ensures Distinct(Keys(rows))
  {
    if rows != [] {
      KeysDistinct(rows[..|rows| - 1]);
    }
  }

  // ── The pigeonhole ─────────────────────

  function Sizes(rows: seq<Row>, keys: seq<string>): nat {
    if keys == [] then 0 else Sizes(rows, keys[..|keys| - 1]) + |Group(rows, keys[|keys| - 1])|
  }

  lemma {:induction false} SizesStep(rows: seq<Row>, keys: seq<string>)
    requires rows != [] && Distinct(keys)
    ensures Sizes(rows, keys) == Sizes(rows[..|rows| - 1], keys) + (if Key(rows[|rows| - 1]) in keys then 1 else 0)
  {
    if keys != [] {
      SizesStep(rows, keys[..|keys| - 1]);
    }
  }

  /** Every row sits in exactly one group. */
  lemma {:induction false} GroupsPartition(rows: seq<Row>)
    ensures Sizes(rows, Keys(rows)) == |rows|
  {
    if rows != [] {
      var init, key := rows[..|rows| - 1], Key(rows[|rows| - 1]);
      GroupsPartition(init);
      KeysDistinct(rows);
      KeysDistinct(init);
      SizesStep(rows, Keys(rows));
      if key !in Keys(init) {
        GroupOfKey(init, key);
        assert Keys(rows)[..|Keys(rows)| - 1] == Keys(init);
      }
    }
  }

  ghost predicate AtMost(rows: seq<Row>, n: nat) {
    forall key :: |Group(rows, key)| <= n
  }

  lemma {:induction false} SizesBound(rows: seq<Row>, keys: seq<string>, n: nat)
    requires AtMost(rows, n)
    ensures Sizes(rows, keys) <= n * |keys|
  {
    if keys != [] {
      SizesBound(rows, keys[..|keys| - 1], n);
      assert n * |keys| == n * (|keys| - 1) + n;
    }
  }

  lemma {:induction false} GroupPrefix(rows: seq<Row>, n: nat, key: string)
    requires n <= |rows|
    ensures |Group(rows[..n], key)| <= |Group(rows, key)|
    decreases |rows| - n
  {
    if n == |rows| {
      assert rows[..n] == rows;
    } else {
      assert rows[..n + 1][..n] == rows[..n];
      GroupPrefix(rows, n + 1, key);
    }
  }

  /** Four rows a task at most: `4 * limit` rows name `limit` tasks, or they are the whole ledger. */
  lemma FirstPassFindsTheTasks(rows: seq<Row>, limit: nat)
    requires AtMost(rows, 4)
    ensures Take(Keys(Take(rows, limit * 4)), limit) == Take(Keys(rows), limit)
  {
    if limit * 4 < |rows| {
      var batch := rows[..limit * 4];
      forall key ensures |Group(batch, key)| <= 4 {
        GroupPrefix(rows, limit * 4, key);
      }
      GroupsPartition(batch);
      SizesBound(batch, Keys(batch), 4);
      KeysPrefix(rows, limit * 4);
    } else {
      assert Take(rows, limit * 4) == rows;
    }
  }

  // ── The second pass ────────────────────

  function Keep(rows: seq<Row>, keys: seq<string>): seq<Row> {
    if rows == [] then []
    else Keep(rows[..|rows| - 1], keys) + (if Key(rows[|rows| - 1]) in keys then [rows[|rows| - 1]] else [])
  }

  lemma {:induction false} IdLists(keys: seq<string>, s: string)
    ensures s in RefIds(keys) <==> s in keys && !IsRowKey(s)
    ensures s in RowIds(keys) <==> ROW_PREFIX + s in keys
  {
    if keys != [] {
      IdLists(keys[1..], s);
      assert keys == [keys[0]] + keys[1..];
      if IsRowKey(keys[0]) {
        assert keys[0] == ROW_PREFIX + keys[0][|ROW_PREFIX|..];
        assert (ROW_PREFIX + s)[|ROW_PREFIX|..] == s;
      } else {
        assert ROW_PREFIX <= ROW_PREFIX + s;
      }
    }
  }

  ghost predicate UniqueIds(rows: seq<Row>) {
    forall i, j | 0 <= i < j < |rows| :: rows[i].id != rows[j].id
  }

  /** No reference looks like a lone row's key. */
  ghost predicate PlainReferences(rows: seq<Row>) {
    forall row | row in rows && row.refId.Some? :: !IsRowKey(row.refId.value)
  }

  lemma {:induction false} KeyComesFrom(rows: seq<Row>, key: string) returns (i: nat)
    requires key in Keys(rows)
    ensures i < |rows| && Key(rows[i]) == key
  {
    var init := rows[..|rows| - 1];
    if key in Keys(init) {
      i := KeyComesFrom(init, key);
    } else {
      i := |rows| - 1;
    }
  }

  lemma LoneKeysDiffer(a: string, b: string)
    requires ROW_PREFIX + a == ROW_PREFIX + b
    ensures a == b
  {
    assert (ROW_PREFIX + a)[|ROW_PREFIX|..] == a && (ROW_PREFIX + b)[|ROW_PREFIX|..] == b;
  }

  /** A row with a reference leaves no task under its own row id. */
  lemma ReferencedRowIsNotLone(all: seq<Row>, j: nat)
    requires UniqueIds(all) && PlainReferences(all) && j < |all| && all[j].refId.Some?
    ensures ROW_PREFIX + all[j].id !in Keys(all)
  {
    if ROW_PREFIX + all[j].id in Keys(all) {
      var i := KeyComesFrom(all, ROW_PREFIX + all[j].id);
      assert all[i] in all && ROW_PREFIX <= Key(all[i]);
      LoneKeysDiffer(all[i].id, all[j].id);
    }
  }

  /** Re-fetching by reference and row id selects exactly the rows of the chosen tasks. */
  lemma SelectsTheTask(all: seq<Row>, j: nat, keys: seq<string>)
    requires UniqueIds(all) && PlainReferences(all) && j < |all|
    requires forall key | key in keys :: key in Keys(all)
    ensures var row := all[j];
      ((row.refId.Some? && row.refId.value in RefIds(keys)) || row.id in RowIds(keys)) <==> Key(row) in keys
  {
    var row := all[j];
    IdLists(keys, row.id);
    if row.refId.Some? {
      IdLists(keys, row.refId.value);
      ReferencedRowIsNotLone(all, j);
      assert row in all;
    }
  }

  lemma {:induction false} FetchIsKeep(all: seq<Row>, rows: seq<Row>, keys: seq<string>)
    requires UniqueIds(all) && PlainReferences(all) && forall row | row in rows :: row in all
    requires forall key | key in keys :: key in Keys(all)
    ensures Fetch(rows, RefIds(keys), RowIds(keys)) == Keep(rows, keys)
  {
    if rows != [] {
      FetchIsKeep(all, rows[..|rows| - 1], keys);
      assert rows[|rows| - 1] in all;
      var j :| 0 <= j < |all| && all[j] == rows[|rows| - 1];
      SelectsTheTask(all, j, keys);
    }
  }

  function Common(ks: seq<string>, keys: seq<string>): seq<string> {
    if ks == [] then []
    else Common(ks[..|ks| - 1], keys) + (if ks[|ks| - 1] in keys then [ks[|ks| - 1]] else [])
  }

  lemma KeepStep(rows: seq<Row>, keys: seq<string>)
    requires rows != []
    ensures var init, row := rows[..|rows| - 1], rows[|rows| - 1];
      Keep(rows, keys) == if Key(row) in keys then Keep(init, keys) + [row] else Keep(init, keys)
  {
    hide Key;
  }

  lemma EmptyKeep(keys: seq<string>)
    ensures Keys([]) == [] && Keep([], keys) == [] && Common([], keys) == []
  {
  }

  lemma CommonSnoc(ks: seq<string>, key: string, keys: seq<string>)
    ensures Common(ks + [key], keys) == if key in keys then Common(ks, keys) + [key] else Common(ks, keys)
  {
    assert (ks + [key])[..|ks|] == ks;
  }

  lemma {:induction false} KeepKeys(rows: seq<Row>, keys: seq<string>)
    ensures Keys(Keep(rows, keys)) == Common(Keys(rows), keys)
    ensures forall key :: key in Keys(Keep(rows, keys)) <==> key in Keys(rows) && key in keys
  {
    hide Keys, Keep, Common, Key;
    EmptyKeep(keys);
    if rows != [] {
      var init, row := rows[..|rows| - 1], rows[|rows| - 1];
      KeepKeys(init, keys);
      KeepStep(rows, keys);
      Snoc(init, row);
      Snoc(Keep(init, keys), row);
      assert init + [row] == rows;
      CommonSnoc(Keys(init), Key(row), keys);
    }
  }

  lemma {:induction false} KeepGroups(rows: seq<Row>, keys: seq<string>, key: string)
    requires key in keys
    ensures Group(Keep(rows, keys), key) == Group(rows, key)
  {
    if rows != [] {
      var init, row := rows[..|rows| - 1], rows[|rows| - 1];
      KeepGroups(init, keys, key);
      GroupSnoc(Keep(init, keys), row, key);
      KeepStep(rows, keys);
    }
  }

  lemma {:induction false} CommonPrefix(ks: seq<string>, n: nat, m: nat)
    requires Distinct(ks) && n <= |ks| && m <= |ks|
    ensures Common(ks[..m], ks[..n]) == if m <= n then ks[..m] else ks[..n]
    decreases m
  {
    hide Distinct, Common;
    if m == 0 {
      CommonOfNone(ks[..n]);
    } else {
      assert ks[..m] == ks[..m - 1] + [ks[m - 1]];
      CommonPrefix(ks, n, m - 1);
      CommonSnoc(ks[..m - 1], ks[m - 1], ks[..n]);
      InFront(ks, n, m - 1);
    }
  }

  lemma CommonOfNone(keys: seq<string>)
    ensures Common([], keys) == []
  {
  }

  /** A key of a list without repeats is among the first `n` exactly when it stands there. */
  lemma InFront(ks: seq<string>, n: nat, k: nat)
    requires Distinct(ks) && n <= |ks| && k < |ks|
    ensures ks[k] in ks[..n] <==> k < n
  {
    if k < n {
      assert ks[..n][k] == ks[k];
    }
  }

  /** Merging only the chosen tasks' rows gives the front of merging everything. */
  lemma KeepMerges(rows: seq<Row>, limit: nat)
    ensures Merge(Keep(rows, Take(Keys(rows), limit))) == Take(Merge(rows), limit)
  {
    var ks := Keys(rows);
    var n := if limit <= |ks| then limit else |ks|;
    assert Take(ks, limit) == ks[..n];
    KeysDistinct(rows);
    KeepKeys(rows, ks[..n]);
    assert ks[..|ks|] == ks;
    CommonPrefix(ks, n, |ks|);
    var kept := Keep(rows, ks[..n]);
    assert Keys(kept) == ks[..n];
    forall i | 0 <= i < n ensures Merge(kept)[i] == Merge(rows)[i] {
      KeepGroups(rows, ks[..n], ks[i]);
    }
  }

  lemma {:induction false} NonzeroRows(rows: seq<Row>)
    ensures forall row :: row in Nonzero(rows) <==> row in rows && row.delta != 0
  {
    if rows != [] {
      NonzeroRows(rows[..|rows| - 1]);
      assert rows == rows[..|rows| - 1] + [rows[|rows| - 1]];
    }
  }

  lemma {:induction false} NonzeroUnique(rows: seq<Row>)
    requires UniqueIds(rows)
    ensures UniqueIds(Nonzero(rows))
  {
    if rows != [] {
      var init := rows[..|rows| - 1];
      NonzeroUnique(init);
      NonzeroRows(init);
      forall i | 0 <= i < |Nonzero(init)| ensures Nonzero(init)[i].id != rows[|rows| - 1].id {
        assert Nonzero(init)[i] in init;
        var k :| 0 <= k < |init| && init[k] == Nonzero(init)[i];
        assert rows[k].id != rows[|rows| - 1].id;
      }
    }
  }

  ghost predicate ReadsRight(ledger: seq<Row>, limit: nat) {
    Merge(TwoPass(ledger, limit)) == Take(Merge(Nonzero(ledger)), limit)
  }

  lemma RecentKeysAreAPrefix(ledger: seq<Row>, limit: nat)
    ensures RecentKeys(ledger, limit) == Take(Keys(Nonzero(ledger)), |RecentKeys(ledger, limit)|)
    ensures |RecentKeys(ledger, limit)| <= limit
  {
    hide Keys;
    var rows := Nonzero(ledger);
    if limit * 4 <= |rows| {
      KeysPrefix(rows, limit * 4);
    }
  }

  lemma FetchesTheTasks(ledger: seq<Row>, limit: nat)
    requires UniqueIds(ledger) && PlainReferences(ledger)
    ensures TwoPass(ledger, limit) == Keep(Nonzero(ledger), RecentKeys(ledger, limit))
  {
    RecentKeysAreAPrefix(ledger, limit);
    NonzeroUnique(ledger);
    NonzeroRows(ledger);
    FetchIsKeep(Nonzero(ledger), Nonzero(ledger), RecentKeys(ledger, limit));
  }

  /** The read is right exactly when the first batch names as many tasks as there are to show. */
  lemma {:induction false} ReadsRightIffBatchCovers(ledger: seq<Row>, limit: nat)
    requires UniqueIds(ledger) && PlainReferences(ledger)
    ensures ReadsRight(ledger, limit) <==> |RecentKeys(ledger, limit)| == |Take(Keys(Nonzero(ledger)), limit)|
  {
    hide Keys, Nonzero, Keep, Fetch, RefIds, RowIds, RecentKeys, TwoPass, PlainReferences;
    var n := |RecentKeys(ledger, limit)|;
    RecentKeysAreAPrefix(ledger, limit);
    FetchesTheTasks(ledger, limit);
    KeepMerges(Nonzero(ledger), n);
  }

  /**
   * The two-pass read shows exactly the `limit` most recent tasks of the whole ledger, each with the
   * net of all its rows however far back they sit.
   */
  lemma TwoPassIsExact(ledger: seq<Row>, limit: nat)
    requires UniqueIds(ledger) && PlainReferences(ledger) && AtMost(Nonzero(ledger), 4)
    ensures ReadsRight(ledger, limit)
  {
    FirstPassFindsTheTasks(Nonzero(ledger), limit);
    ReadsRightIffBatchCovers(ledger, limit);
  }

  /**
   * A reference that looks like a lone row's key is lost by the second pass. The read relies on its
   * writers here: job ids, `otto-turn:`, `otto-stream:`, `research:`, `understanding:` and
   * `manual-refund:` references never look like that.
   */
  lemma {:induction false} PrefixedReferenceIsLost(ref: string, id: string, limit: nat)
    requires IsRowKey(ref) && ref != ROW_PREFIX + id && limit > 0
    ensures var ledger := [Row(id, ReserveRow, Some(ref), -1, 0, "")];
      Merge(TwoPass(ledger, limit)) == [] && |Take(Merge(Nonzero(ledger)), limit)| == 1
  {
    var row := Row(id, ReserveRow, Some(ref), -1, 0, "");
    var ledger := [row];
    assert ledger[..0] == [] && Nonzero([]) == [];
    assert Nonzero(ledger) == [row];
    assert Keys(ledger) == [ref];
    assert RecentKeys(ledger, limit) == [ref];
    IdLists([ref], id);
    IdLists([ref], ref);
    assert Fetch(ledger, RefIds([ref]), RowIds([ref])) == [];
  }

  /** A ledger with at most four rows a task and references from `refs` only. */
  ghost predicate Admissible(ledger: seq<Row>, refs: set<string>) {
    && UniqueIds(ledger) && AtMost(Nonzero(ledger), 4)
    && forall row | row in ledger && row.refId.Some? :: row.refId.value in refs
  }

  /** The read is right on every admissible ledger exactly when no reference looks like a row key. */
  lemma ExactIffPlainReferences(refs: set<string>)
    ensures (forall ref | ref in refs :: !IsRowKey(ref)) <==>
      (forall ledger, limit :: Admissible(ledger, refs) ==> ReadsRight(ledger, limit))
  {
    if forall ref | ref in refs :: !IsRowKey(ref) {
      forall ledger, limit | Admissible(ledger, refs) ensures ReadsRight(ledger, limit) {
        TwoPassIsExact(ledger, limit);
      }
    } else {
      var ref :| ref in refs && IsRowKey(ref);
      var ledger := [Row(ref, ReserveRow, Some(ref), -1, 0, "")];
      PrefixedReferenceIsLost(ref, ref, 1);
      SingleRowIsAdmissible(ref, refs);
      assert Admissible(ledger, refs) && !ReadsRight(ledger, 1);
    }
  }

  lemma SingleRowIsAdmissible(ref: string, refs: set<string>)
    requires ref in refs
    ensures Admissible([Row(ref, ReserveRow, Some(ref), -1, 0, "")], refs)
  {
    var ledger := [Row(ref, ReserveRow, Some(ref), -1, 0, "")];
    assert ledger[..0] == [] && Nonzero([]) == [];
    assert Nonzero(ledger) == ledger;
    forall key ensures |Group(ledger, key)| <= 4 {
      assert Group(ledger[..0], key) == [];
    }
  }

  // ── Conservation ───────────────────────

  function Total(activities: seq<Activity>): int {
    if activities == [] then 0 else Total(activities[..|activities| - 1]) + activities[|activities| - 1].delta
  }

  function Nets(rows: seq<Row>, keys: seq<string>): int {
    if keys == [] then 0 else Nets(rows, keys[..|keys| - 1]) + Sum(Group(rows, keys[|keys| - 1]))
  }

  lemma GroupSumStep(rows: seq<Row>, key: string)
    requires rows != []
    ensures Sum(Group(rows, key)) ==
      Sum(Group(rows[..|rows| - 1], key)) + (if Key(rows[|rows| - 1]) == key then rows[|rows| - 1].delta else 0)
  {
    hide Group, Sum;
    var init, row := rows[..|rows| - 1], rows[|rows| - 1];
    assert init + [row] == rows;
    GroupSnoc(init, row, key);
    Snoc(Group(init, key), row);
  }

  lemma {:induction false} NetsStep(rows: seq<Row>, keys: seq<string>)
    requires rows != [] && Distinct(keys)
    ensures Nets(rows, keys) ==
      Nets(rows[..|rows| - 1], keys) + (if Key(rows[|rows| - 1]) in keys then rows[|rows| - 1].delta else 0)
  {
    hide Group, Sum, Key;
    if keys != [] {
      NetsStep(rows, keys[..|keys| - 1]);
      GroupSumStep(rows, keys[|keys| - 1]);
    }
  }

  lemma NewTaskStartsAtZero(rows: seq<Row>, key: string)
    requires key !in Keys(rows)
    ensures Sum(Group(rows, key)) == 0
  {
    GroupOfKey(rows, key);
  }

  lemma {:induction false} NetsAddUp(rows: seq<Row>)
    ensures Nets(rows, Keys(rows)) == Sum(rows)
  {
    hide Group, Keys, Sum, Key;
    if rows == [] {
      EmptyLedger(rows);
    } else {
      var init, key := rows[..|rows| - 1], Key(rows[|rows| - 1]);
      assert init + [rows[|rows| - 1]] == rows;
      Snoc(init, rows[|rows| - 1]);
      NetsAddUp(init);
      KeysDistinct(rows);
      NetsStep(rows, Keys(rows));
      if key !in Keys(init) {
        NewTaskStartsAtZero(init, key);
        assert Keys(rows)[..|Keys(rows)| - 1] == Keys(init);
      }
    }
  }

  lemma {:induction false} TotalIsNets(rows: seq<Row>, n: nat)
    requires n <= |Keys(rows)|
    ensures Total(Merge(rows)[..n]) == Nets(rows, Keys(rows)[..n])
  {
    if n > 0 {
      TotalIsNets(rows, n - 1);
      assert Merge(rows)[..n][..n - 1] == Merge(rows)[..n - 1];
      assert Keys(rows)[..n][..n - 1] == Keys(rows)[..n - 1];
    }
  }

  /** Merging neither creates nor loses a credit: the tasks' nets add up to the rows'. */
  lemma {:induction false} MergeConserves(rows: seq<Row>)
    ensures Total(Merge(rows)) == Sum(rows)
  {
    TotalIsNets(rows, |Keys(rows)|);
    NetsAddUp(rows);
    assert Merge(rows)[..|Keys(rows)|] == Merge(rows) && Keys(rows)[..|Keys(rows)|] == Keys(rows);
  }
}
