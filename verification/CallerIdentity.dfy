/**
 * Whose budget a request spends: which header entry is believed, how the address is undressed, and
 * the /64 that one IPv6 subscriber is counted under.
 */
module CallerIdentity {
  import opened Basics
  import opened Text

  datatype Source = Railway | Xff(hops: nat) | Dev

  /** The two headers a proxy may set; an absent header is `None`. */
  datatype Headers = Headers(realIp: Option<string>, forwardedFor: Option<string>)

  // ── Which entry ────────────────────────

  function NonEmptyTrimmed(parts: seq<string>): seq<string> {
    if parts == [] then []
    else (if Trim(parts[0]) == "" then [] else [Trim(parts[0])]) + NonEmptyTrimmed(parts[1..])
  }

  function Entries(raw: string): seq<string> {
    NonEmptyTrimmed(Split(raw, ','))
  }

  /** Array indexing outside the array is `undefined`. */
  function FromTheRight(entries: seq<string>, n: nat): Option<string> {
    if 1 <= n <= |entries| then Some(entries[|entries| - n]) else None
  }

  function TrustedCandidate(h: Headers, source: Source): Option<string> {
    match source
    case Railway => h.realIp
    case Xff(hops) =>
      if h.forwardedFor.None? || h.forwardedFor.value == "" then None
      else FromTheRight(Entries(h.forwardedFor.value), hops)
    case Dev =>
      if h.realIp.Some? && h.realIp.value != "" then h.realIp
      else if h.forwardedFor.None? || h.forwardedFor.value == "" then None
      else FromTheRight(Entries(h.forwardedFor.value), 1)
  }

  lemma {:induction false} NonEmptyConcat(a: seq<string>, b: seq<string>)
    ensures NonEmptyTrimmed(a + b) == NonEmptyTrimmed(a) + NonEmptyTrimmed(b)
  {
    if a == [] {
      assert a + b == b;
    } else {
      assert (a + b)[1..] == a[1..] + b;
      NonEmptyConcat(a[1..], b);
    }
  }

  lemma EntriesConcat(client: string, edge: string)
    ensures Entries(client + "," + edge) == Entries(client) + Entries(edge)
  {
    SplitConcat(client, edge, ',');
    NonEmptyConcat(Split(client, ','), Split(edge, ','));
  }

  function Forwarded(raw: string): Headers {
    Headers(None, Some(raw))
  }

  /** `n` one-letter entries. */
  function Padding(n: nat): string {
    if n == 0 then "" else "x," + Padding(n - 1)
  }

  lemma {:induction false} PaddingEntries(n: nat)
    ensures |Entries(Padding(n))| == n
  {
    if n > 0 {
      PaddingEntries(n - 1);
      EntriesConcat("x", Padding(n - 1));
      assert "x" + "," + Padding(n - 1) == Padding(n);
      SplitWord("x", ',');
      TrimmedAlready("x");
    } else {
      assert Trim("") == "";
    }
  }

  /**
   * Nothing a client writes in front can change the entry that is read — exactly when the trusted
   * proxies really appended at least as many entries as there are hops.
   */
  lemma ClientPrefixIsPowerlessIff(edge: string, hops: nat)
    requires hops >= 1
    ensures (forall client ::
        TrustedCandidate(Forwarded(client + "," + edge), Xff(hops)) == TrustedCandidate(Forwarded(edge), Xff(hops)))
      <==> hops <= |Entries(edge)|
  {
    assert Entries("") == [] by { assert Trim("") == ""; }
    if hops <= |Entries(edge)| {
      forall client
        ensures TrustedCandidate(Forwarded(client + "," + edge), Xff(hops))
          == TrustedCandidate(Forwarded(edge), Xff(hops))
      {
        EntriesConcat(client, edge);
      }
    } else {
      var client := Padding(hops);
      PaddingEntries(hops);
      EntriesConcat(client, edge);
      assert TrustedCandidate(Forwarded(client + "," + edge), Xff(hops)).Some?;
      assert TrustedCandidate(Forwarded(edge), Xff(hops)).None?;
    }
  }

  // ── Folding to the /64 ─────────────────

  /** Where the first `::` is. */
  function FindDouble(s: string): (r: Option<nat>)
    ensures r.Some? ==> r.value + 2 <= |s|
  {
    if |s| < 2 then None
    else if s[0] == ':' && s[1] == ':' then Some(0)
    else match FindDouble(s[1..])
      case None => None
      case Some(i) => Some(i + 1)
  }

  /** `split("::")`, its first two parts. */
  function Halves(s: string): (string, Option<string>) {
    match FindDouble(s)
    case None => (s, None)
    case Some(i) =>
      var rest := s[i + 2..];
      (s[..i], Some(match FindDouble(rest) case None => rest case Some(k) => rest[..k]))
  }

  function GroupsOf(part: string): seq<string> {
    if part == "" then [] else Split(part, ':')
  }

  function Repeat(x: string, n: nat): seq<string> {
    seq(n, i => x)
  }

  /** The groups as written, with `::` filled in. */
  function Expanded(address: string): seq<string> {
    var (head, tail) := Halves(address);
    match tail
    case None => GroupsOf(head)
    case Some(t) =>
      var h, g := GroupsOf(head), GroupsOf(t);
      h + Repeat("0", if |h| + |g| <= 8 then 8 - |h| - |g| else 0) + g
  }

  function PadStart(g: string): string {
    if |g| < 4 then seq(4 - |g|, i => '0') + g else g
  }

  function Lower(s: string): string {
    seq(|s|, i requires 0 <= i < |s| => if 'A' <= s[i] <= 'Z' then s[i] - 'A' + 'a' else s[i])
  }

  function NormalGroup(g: string): string {
    if g == "" then "0000" else Lower(PadStart(g))
  }

  function NormalGroups(groups: seq<string>): seq<string> {
    seq(|groups|, i requires 0 <= i < |groups| => NormalGroup(groups[i]))
  }

  /** Short lists are filled up with zero groups. */
  function Filled(groups: seq<string>): seq<string> {
    if |groups| < 8 then groups + Repeat("0000", 8 - |groups|) else groups
  }

  function Padded(address: string): seq<string> {
    Filled(NormalGroups(Expanded(address)))
  }

  const ZEROS := ["0000", "0000", "0000", "0000"]

  function Fold(address: string): string {
    Join(Padded(address)[..4] + ZEROS, ':')
  }

  /** `foldIPv6ToPrefix64`. */
  method FoldIPv6ToPrefix64(address: string) returns (key: string)
    ensures key == Fold(address)
  {
    var padded := NormalGroups(Expanded(address));
    ghost var given := padded;
    while |padded| < 8
      invariant |given| <= |padded| && padded[..|given|] == given
      invariant |padded| <= 8 || padded == given
      invariant forall i | |given| <= i < |padded| :: padded[i] == "0000"
    {
      padded := padded + ["0000"];
    }
    assert padded == Filled(given);
    key := Join(padded[..4] + ZEROS, ':');
  }

  // ── Spellings of an address ────────────

  function HexDigit(c: char): Option<nat> {
    if '0' <= c <= '9' then Some((c - '0') as nat)
    else if 'a' <= c <= 'f' then Some((c - 'a') as nat + 10)
    else if 'A' <= c <= 'F' then Some((c - 'A') as nat + 10)
    else None
  }

  predicate IsHex(s: string) {
    forall i | 0 <= i < |s| :: HexDigit(s[i]).Some?
  }

  function HexValue(s: string): nat
    requires IsHex(s)
  {
    if s == "" then 0 else HexValue(s[..|s| - 1]) * 16 + HexDigit(s[|s| - 1]).value
  }

  /** One to four hexadecimal digits, leading zeros and letter case free. */
  predicate SpellsGroup(t: string, v: nat) {
    1 <= |t| <= 4 && IsHex(t) && HexValue(t) == v
  }

  ghost predicate SpellsGroups(ts: seq<string>, vs: seq<nat>) {
    |ts| == |vs| && forall i | 0 <= i < |ts| :: SpellsGroup(ts[i], vs[i])
  }

  /**
   * The text forms of section 2.2 of RFC 4291 without a dotted tail: eight groups, or some groups, `::`
   * for one or more zero groups, and some more groups.
   */
  ghost predicate Spells(text: string, address: seq<nat>) {
    && |address| == 8
    && (|| (exists ts :: SpellsGroups(ts, address) && text == Join(ts, ':'))
        || (exists hs, ts :: SpellsCompressed(text, address, hs, ts)))
  }

  ghost predicate SpellsCompressed(text: string, address: seq<nat>, hs: seq<string>, ts: seq<string>) {
    && |address| == 8 && |hs| + |ts| <= 7
    && SpellsGroups(hs, address[..|hs|]) && SpellsGroups(ts, address[8 - |ts|..])
    && (forall i | |hs| <= i < 8 - |ts| :: address[i] == 0)
    && text == Join(hs, ':') + "::" + Join(ts, ':')
  }

  lemma HexHasNoColon(s: string)
    requires IsHex(s)
    ensures ':' !in s
  {
  }

  lemma {:induction false} ZerosInFront(n: nat, t: string)
    requires IsHex(t)
    ensures IsHex(seq(n, i => '0') + t) && HexValue(seq(n, i => '0') + t) == HexValue(t)
    decreases n, |t|
  {
    var z := seq(n, i => '0');
    if t != "" {
      ZerosInFront(n, t[..|t| - 1]);
      assert (z + t)[..|z + t| - 1] == z + t[..|t| - 1];
    } else if n > 0 {
      ZerosInFront(n - 1, "");
      assert (z + t)[..|z + t| - 1] == seq(n - 1, i => '0') + "";
    } else {
      assert z + t == t;
    }
  }

  lemma {:induction false} LowerKeepsValue(t: string)
    requires IsHex(t)
    ensures IsHex(Lower(t)) && HexValue(Lower(t)) == HexValue(t)
  {
    if t != "" {
      LowerKeepsValue(t[..|t| - 1]);
      assert Lower(t)[..|t| - 1] == Lower(t[..|t| - 1]);
    }
  }

  predicate LowerHex(s: string) {
    IsHex(s) && forall i | 0 <= i < |s| :: !('A' <= s[i] <= 'F')
  }

  lemma LowerDigitUnique(a: char, b: char)
    requires HexDigit(a).Some? && HexDigit(a) == HexDigit(b) && !('A' <= a <= 'F') && !('A' <= b <= 'F')
    ensures a == b
  {
  }

  /** Lower-case digits of one length are determined by their value. */
  lemma {:induction false} DigitsUnique(a: string, b: string)
    requires LowerHex(a) && LowerHex(b) && |a| == |b| && HexValue(a) == HexValue(b)
    ensures a == b
  {
    hide HexDigit;
    if a != "" {
      var n := |a| - 1;
      HexDigitBound(a[n]);
      HexDigitBound(b[n]);
      LastDigit(HexValue(a[..n]), HexDigit(a[n]).value, HexValue(b[..n]), HexDigit(b[n]).value);
      LowerDigitUnique(a[n], b[n]);
      DigitsUnique(a[..n], b[..n]);
      assert a == a[..n] + [a[n]] && b == b[..n] + [b[n]];
    }
  }

  lemma HexDigitBound(c: char)
    ensures HexDigit(c).Some? ==> HexDigit(c).value < 16
  {
  }

  lemma LastDigit(x: nat, d: nat, y: nat, e: nat)
    requires d < 16 && e < 16 && x * 16 + d == y * 16 + e
    ensures x == y && d == e
  {
  }

  /** A normalised group: four lower-case digits of the same value. */
  predicate NormalFor(p: string, v: nat) {
    |p| == 4 && LowerHex(p) && HexValue(p) == v
  }

  lemma NormalGroupIs(t: string, v: nat)
    requires SpellsGroup(t, v)
    ensures NormalFor(NormalGroup(t), v)
  {
    ZerosInFront(4 - |t|, t);
    assert PadStart(t) == if |t| < 4 then seq(4 - |t|, i => '0') + t else t;
    LowerKeepsValue(PadStart(t));
  }

  // ── Reading a spelling ─────────────────

  ghost predicate HexGroups(ts: seq<string>) {
    forall i | 0 <= i < |ts| :: ts[i] != "" && IsHex(ts[i])
  }

  lemma {:induction false} FindAfter(a: string, rest: string)
    requires FindDouble(a) == None && (a == "" || a[|a| - 1] != ':')
    ensures FindDouble(a + "::" + rest) == Some(|a|)
  {
    var s := a + "::" + rest;
    if a != "" {
      assert s[1..] == a[1..] + "::" + rest;
      assert |a| >= 2 ==> s[1] == a[1];
      FindAfter(a[1..], rest);
    }
  }

  lemma {:induction false} FindAcross(w: string, tail: string)
    requires IsHex(w) && FindDouble(tail) == None && (tail == "" || tail[0] != ':')
    ensures FindDouble(w + ":" + tail) == None
  {
    var s := w + ":" + tail;
    if w == "" {
      assert s[1..] == tail;
    } else {
      assert s[1..] == w[1..] + ":" + tail;
      FindAcross(w[1..], tail);
    }
  }

  lemma {:induction false} FindInWord(w: string)
    requires IsHex(w)
    ensures FindDouble(w) == None
  {
    if |w| >= 2 {
      FindInWord(w[1..]);
    }
  }

  lemma {:induction false} JoinHasNoDouble(ts: seq<string>)
    requires HexGroups(ts)
    ensures var j := Join(ts, ':');
      FindDouble(j) == None && (ts == [] <==> j == "") && (j != "" ==> j[0] != ':' && j[|j| - 1] != ':')
  {
    if |ts| == 1 {
      FindInWord(ts[0]);
    } else if |ts| > 1 {
      JoinHasNoDouble(ts[1..]);
      FindAcross(ts[0], Join(ts[1..], ':'));
      assert ts[0] + ":" + Join(ts[1..], ':') == Join(ts, ':');
    }
  }

  lemma GroupsOfJoin(ts: seq<string>)
    requires HexGroups(ts)
    ensures GroupsOf(Join(ts, ':')) == ts
  {
    JoinHasNoDouble(ts);
    if ts != [] {
      forall t | t in ts ensures ':' !in t {
        HexHasNoColon(t);
      }
      SplitJoin(ts, ':');
    }
  }

  lemma ExpandedFull(ts: seq<string>)
    requires HexGroups(ts)
    ensures Expanded(Join(ts, ':')) == ts
  {
    JoinHasNoDouble(ts);
    GroupsOfJoin(ts);
  }

  lemma HalvesAround(head: string, tail: string)
    requires FindDouble(head + "::" + tail) == Some(|head|) && FindDouble(tail) == None
    ensures Halves(head + "::" + tail) == (head, Some(tail))
  {
    hide FindDouble;
    var text := head + "::" + tail;
    assert text[|head| + 2..] == tail && text[..|head|] == head;
  }

  lemma ExpandedCompressed(hs: seq<string>, ts: seq<string>)
    requires HexGroups(hs) && HexGroups(ts) && |hs| + |ts| <= 7
    ensures Expanded(Join(hs, ':') + "::" + Join(ts, ':')) == hs + Repeat("0", 8 - |hs| - |ts|) + ts
  {
    hide FindDouble, Join, GroupsOf, Repeat, Halves, HexGroups;
    JoinHasNoDouble(hs);
    JoinHasNoDouble(ts);
    FindAfter(Join(hs, ':'), Join(ts, ':'));
    HalvesAround(Join(hs, ':'), Join(ts, ':'));
    GroupsOfJoin(hs);
    GroupsOfJoin(ts);
  }

  lemma SpelledGroupsAreHex(ts: seq<string>, vs: seq<nat>)
    requires SpellsGroups(ts, vs)
    ensures HexGroups(ts)
  {
  }

  /** However the address is written, its eight groups come out in full. */
  lemma ExpandedSpells(text: string, address: seq<nat>)
    requires Spells(text, address)
    ensures SpellsGroups(Expanded(text), address)
  {
    if ts :| SpellsGroups(ts, address) && text == Join(ts, ':') {
      SpelledGroupsAreHex(ts, address);
      ExpandedFull(ts);
    } else {
      var hs, ts :| SpellsCompressed(text, address, hs, ts);
      SpelledGroupsAreHex(hs, address[..|hs|]);
      SpelledGroupsAreHex(ts, address[8 - |ts|..]);
      ExpandedCompressed(hs, ts);
      CompressedSpells(text, address, hs, ts);
    }
  }

  lemma CompressedSpells(text: string, address: seq<nat>, hs: seq<string>, ts: seq<string>)
    requires SpellsCompressed(text, address, hs, ts)
    ensures SpellsGroups(hs + Repeat("0", 8 - |hs| - |ts|) + ts, address)
  {
    var all := hs + Repeat("0", 8 - |hs| - |ts|) + ts;
    assert HexValue("0") == 0 by {
      assert "0"[..0] == "";
    }
    forall i | 0 <= i < 8 ensures SpellsGroup(all[i], address[i]) {
      if i < |hs| {
        assert all[i] == hs[i] && address[..|hs|][i] == address[i];
      } else if i < 8 - |ts| {
        assert all[i] == "0";
      } else {
        var k := i - (8 - |ts|);
        assert all[i] == ts[k] && address[8 - |ts|..][k] == address[i];
      }
    }
  }

  lemma PaddedIs(text: string, address: seq<nat>)
    requires Spells(text, address)
    ensures |Padded(text)| == 8 && forall i | 0 <= i < 8 :: NormalFor(Padded(text)[i], address[i])
  {
    ExpandedSpells(text, address);
    forall i | 0 <= i < 8 ensures NormalFor(NormalGroup(Expanded(text)[i]), address[i]) {
      NormalGroupIs(Expanded(text)[i], address[i]);
    }
  }

  lemma FoldedGroups(text: string, address: seq<nat>)
    requires Spells(text, address)
    ensures |Padded(text)[..4] + ZEROS| == 8
    ensures Split(Fold(text), ':') == Padded(text)[..4] + ZEROS
  {
    PaddedIs(text, address);
    var groups := Padded(text)[..4] + ZEROS;
    forall g | g in groups ensures ':' !in g {
      var i :| 0 <= i < 8 && groups[i] == g;
      if i < 4 {
        assert NormalFor(Padded(text)[i], address[i]);
        HexHasNoColon(g);
      }
    }
    SplitJoin(groups, ':');
  }

  lemma SamePrefixFoldsTheSame(a: string, b: string, x: seq<nat>, y: seq<nat>)
    requires Spells(a, x) && Spells(b, y) && x[..4] == y[..4]
    ensures Fold(a) == Fold(b)
  {
    PaddedIs(a, x);
    PaddedIs(b, y);
    hide Spells, Padded;
    forall i | 0 <= i < 4 ensures Padded(a)[i] == Padded(b)[i] {
      assert x[i] == x[..4][i] && y[i] == y[..4][i];
      DigitsUnique(Padded(a)[i], Padded(b)[i]);
    }
    assert Padded(a)[..4] == Padded(b)[..4];
  }

  lemma SameFoldSamePrefix(a: string, b: string, x: seq<nat>, y: seq<nat>)
    requires Spells(a, x) && Spells(b, y) && Fold(a) == Fold(b)
    ensures x[..4] == y[..4]
  {
    PaddedIs(a, x);
    PaddedIs(b, y);
    FoldedGroups(a, x);
    FoldedGroups(b, y);
    hide Spells, Padded, Fold;
    var p, q := Padded(a)[..4] + ZEROS, Padded(b)[..4] + ZEROS;
    forall i | 0 <= i < 4 ensures x[i] == y[i] {
      assert Padded(a)[i] == p[i] && Padded(b)[i] == q[i];
      assert NormalFor(Padded(a)[i], x[i]) && NormalFor(Padded(b)[i], y[i]);
    }
  }

  /**
   * Two spellings fold to the same key exactly when their addresses share the first 64 bits: every
   * spelling of one address counts once, and different subscribers never share a bucket.
   */
  lemma {:induction false} FoldDependsOnlyOnThe64(a: string, b: string, x: seq<nat>, y: seq<nat>)
    requires Spells(a, x) && Spells(b, y)
    ensures Fold(a) == Fold(b) <==> x[..4] == y[..4]
  {
    if x[..4] == y[..4] {
      SamePrefixFoldsTheSame(a, b, x, y);
    }
    if Fold(a) == Fold(b) {
      SameFoldSamePrefix(a, b, x, y);
    }
  }

  lemma KeyGroups(p: seq<string>, address: seq<nat>)
    requires |p| == 8 == |address| && forall i | 0 <= i < 8 :: NormalFor(p[i], address[i])
    ensures SpellsGroups(p[..4] + ZEROS, address[..4] + [0, 0, 0, 0])
  {
    var groups, prefix := p[..4] + ZEROS, address[..4] + [0, 0, 0, 0];
    ZerosInFront(4, "");
    assert seq(4, i => '0') + "" == "0000" && HexValue("") == 0;
    hide HexValue;
    forall i | 0 <= i < 8 ensures SpellsGroup(groups[i], prefix[i]) {
      if i < 4 {
        assert NormalFor(p[i], address[i]);
      }
    }
  }

  /** The key is itself a spelling: of the /64's own address. */
  lemma FoldSpellsThePrefix(text: string, address: seq<nat>)
    requires Spells(text, address)
    ensures Spells(Fold(text), address[..4] + [0, 0, 0, 0])
  {
    PaddedIs(text, address);
    KeyGroups(Padded(text), address);
    hide Padded, SpellsGroups;
  }

  /** Folding a key again changes nothing. */
  lemma FoldIsIdempotent(text: string, address: seq<nat>)
    requires Spells(text, address)
    ensures Fold(Fold(text)) == Fold(text)
  {
    FoldSpellsThePrefix(text, address);
    FoldDependsOnlyOnThe64(Fold(text), text, address[..4] + [0, 0, 0, 0], address);
  }

  // ── Undressing the entry ───────────────

  function IndexOf(s: string, c: char): (r: Option<nat>)
    ensures r.Some? ==> r.value < |s| && s[r.value] == c && c !in s[..r.value]
    ensures r.None? <==> c !in s
  {
    if s == "" then None
    else if s[0] == c then Some(0)
    else match IndexOf(s[1..], c)
      case None => None
      case Some(i) =>
        assert s[..i + 1] == [s[0]] + s[1..][..i];
        Some(i + 1)
  }

  function LastIndexOf(s: string, c: char): (r: Option<nat>)
    ensures r.Some? ==> r.value < |s| && s[r.value] == c && c !in s[r.value + 1..]
    ensures r.None? <==> c !in s
  {
    if s == "" then None
    else if s[|s| - 1] == c then Some(|s| - 1)
    else
      var r := LastIndexOf(s[..|s| - 1], c);
      assert s == s[..|s| - 1] + [s[|s| - 1]];
      assert r.Some? ==> s[r.value + 1..] == s[..|s| - 1][r.value + 1..] + [s[|s| - 1]];
      r
  }

  /** The runtime's address test: 4, 6 or 0. */
  type Version = string -> nat

  function WithoutZone(value: string): string {
    match IndexOf(value, '%')
    case None => value
    case Some(z) => value[..z]
  }

  function Bare(raw: string, isIP: Version): string {
    var value := Trim(raw);
    WithoutZone(
      if "[" <= value then
        (match IndexOf(value, ']') case Some(close) => value[1..close] case None => value)
      else if isIP(value) == 0 && |Split(value, ':')| == 2 && LastIndexOf(value, ':').Some? then
        value[..LastIndexOf(value, ':').value]
      else value)
  }

  /** `bareAddress`. */
  method BareAddress(raw: string, isIP: Version) returns (bare: string)
    ensures bare == Bare(raw, isIP)
    // no zone is left, and what is inside a leading bracket pair is all that counts
    ensures '%' !in bare
    ensures "[" <= Trim(raw) && ']' in Trim(raw) ==> ']' !in bare && "[" + bare <= Trim(raw)
    // an address that wears nothing comes back trimmed
    ensures !("[" <= Trim(raw)) && '%' !in Trim(raw) && isIP(Trim(raw)) != 0 ==> bare == Trim(raw)
  {
    var value := Trim(raw);
    if "[" <= value {
      var close := IndexOf(value, ']');
      if close.Some? && close.value > 0 {
        value := value[1..close.value];
      }
    } else if isIP(value) == 0 && |Split(value, ':')| == 2 {
      var colon := LastIndexOf(value, ':');
      if colon.Some? {
        value := value[..colon.value];
      }
    }
    var zone := IndexOf(value, '%');
    bare := if zone.Some? then value[..zone.value] else value;
  }

  /** Characters an address and its dressing are written in. */
  predicate Unblank(s: string) {
    forall c | c in s :: c !in BLANKS
  }

  lemma CutAt(a: string, c: char, more: string)
    requires c !in a
    ensures IndexOf(a + [c] + more, c) == Some(|a|) && (a + [c] + more)[..|a|] == a
  {
    var s := a + [c] + more;
    assert s[..|a|] == a && s[|a|] == c;
  }

  /** Brackets, a port and a zone come off, in every combination a proxy writes. */
  lemma {:induction false} DressingComesOff(a: string, zone: string, after: string, isIP: Version)
    requires Unblank(a) && Unblank(zone) && Unblank(after) && '%' !in a && ']' !in a && ']' !in zone
    ensures Bare("[" + a + "]" + after, isIP) == a
    ensures Bare("[" + (a + "%" + zone) + "]" + after, isIP) == a
    ensures !("[" <= a) && isIP(a) != 0 ==> Bare(a, isIP) == a
    ensures !("[" <= a) && a != "" && isIP(a + "%" + zone) != 0 ==> Bare(a + "%" + zone, isIP) == a
    ensures !("[" <= a) && a != "" && ':' !in a && ':' !in after && isIP(a + ":" + after) == 0 ==>
      Bare(a + ":" + after, isIP) == a
  {
    hide Bare;
    BracketsComeOff(a, after, isIP);
    BracketsComeOff(a + "%" + zone, after, isIP);
    CutAt(a, '%', zone);
    if !("[" <= a) && isIP(a) != 0 {
      AddressStays(a, isIP);
    }
    if !("[" <= a) && a != "" && isIP(a + "%" + zone) != 0 {
      AddressStays(a + "%" + zone, isIP);
    }
    if !("[" <= a) && a != "" && ':' !in a && ':' !in after && isIP(a + ":" + after) == 0 {
      PortComesOff(a, after, isIP);
    }
  }

  lemma AddressStays(value: string, isIP: Version)
    requires Unblank(value) && !("[" <= value) && isIP(value) != 0
    ensures Bare(value, isIP) == WithoutZone(value)
  {
    TrimmedAlready(value);
  }

  lemma BracketsComeOff(inner: string, after: string, isIP: Version)
    requires Unblank(inner) && Unblank(after) && ']' !in inner
    ensures Bare("[" + inner + "]" + after, isIP) == WithoutZone(inner)
  {
    var s := "[" + inner + "]" + after;
    TrimmedAlready(s);
    CutAt("[" + inner, ']', after);
    assert s[1..|inner| + 1] == inner;
  }

  lemma PortComesOff(a: string, after: string, isIP: Version)
    requires Unblank(a) && Unblank(after) && !("[" <= a) && a != "" && '%' !in a
    requires ':' !in a && ':' !in after && isIP(a + ":" + after) == 0
    ensures Bare(a + ":" + after, isIP) == a
  {
    TrimmedAlready(a + ":" + after);
    LastColon(a, after);
  }

  lemma LastColon(a: string, after: string)
    requires ':' !in a && ':' !in after
    ensures |Split(a + ":" + after, ':')| == 2
    ensures LastIndexOf(a + ":" + after, ':') == Some(|a|) && (a + ":" + after)[..|a|] == a
  {
    hide Split, LastIndexOf;
    SplitConcat(a, after, ':');
    SplitWord(a, ':');
    SplitWord(after, ':');
    var s := a + ":" + after;
    assert s[|a|] == ':' && s[..|a|] == a && s[|a| + 1..] == after;
  }

  // ── The key ────────────────────────────

  function MappedIPv4(address: string, isIP: Version): Option<string> {
    var tail := match LastIndexOf(address, ':') case Some(i) => address[i + 1..] case None => address;
    if '.' in address && isIP(tail) == 4 then Some(tail) else None
  }

  function CallerAddress(h: Headers, source: Source, isIP: Version): Option<string> {
    match TrustedCandidate(h, source)
    case None => None
    case Some(candidate) =>
      var address := Bare(candidate, isIP);
      if isIP(address) == 4 then Some(address)
      else if isIP(address) != 6 then None
      else Some(GetOr(MappedIPv4(address, isIP), Fold(address)))
  }

  const UNKNOWN_CALLER := "unknown-caller"

  function CallerKey(h: Headers, source: Source, isIP: Version): string {
    GetOr(CallerAddress(h, source, isIP), UNKNOWN_CALLER)
  }

  lemma {:induction false} NoDotInJoin(ts: seq<string>)
    requires HexGroups(ts)
    ensures '.' !in Join(ts, ':')
  {
    if |ts| > 1 {
      NoDotInJoin(ts[1..]);
    }
  }

  lemma SpellingHasNoDot(text: string, address: seq<nat>)
    requires Spells(text, address)
    ensures '.' !in text
  {
    if ts :| SpellsGroups(ts, address) && text == Join(ts, ':') {
      SpelledGroupsAreHex(ts, address);
      NoDotInJoin(ts);
    } else {
      var hs, ts :| SpellsCompressed(text, address, hs, ts);
      SpelledGroupsAreHex(hs, address[..|hs|]);
      SpelledGroupsAreHex(ts, address[8 - |ts|..]);
      NoDotInJoin(hs);
      NoDotInJoin(ts);
    }
  }

  /** Two IPv6 callers share a budget exactly when they share a /64, however their addresses arrive. */
  lemma {:induction false} OneBudgetPer64(g: Headers, h: Headers, source: Source, isIP: Version, a: string,
                                          b: string, x: seq<nat>, y: seq<nat>)
    requires TrustedCandidate(g, source).Some? && Bare(TrustedCandidate(g, source).value, isIP) == a && Spells(a, x)
      && isIP(a) == 6
    requires TrustedCandidate(h, source).Some? && Bare(TrustedCandidate(h, source).value, isIP) == b && Spells(b, y)
      && isIP(b) == 6
    ensures CallerKey(g, source, isIP) == CallerKey(h, source, isIP) <==> x[..4] == y[..4]
  {
    hide Spells, Fold, Bare, TrustedCandidate;
    SpellingHasNoDot(a, x);
    SpellingHasNoDot(b, y);
    FoldDependsOnlyOnThe64(a, b, x, y);
  }
}
