/**
 * The exemption ledger of the authentication wall: structured entries, the check that admits them,
 * and the route matcher generated from them as regular-expression text.
 */
module AuthWall {
  import opened Basics
  import opened Regex
  import opened Text

  datatype Semantics = Exact | Subtree

  datatype Exemption = Exemption(path: string, semantics: Semantics, reason: string)

  datatype Defect = EmptyLedger | UnsafePath(path: string) | NoReason(path: string) | DuplicatePath(path: string)

  // ── What an entry may say ──────────────

  predicate Letter(c: char) {
    'A' <= c <= 'Z' || 'a' <= c <= 'z' || '0' <= c <= '9' || c == '_'
  }

  predicate InSegment(c: char) {
    Letter(c) || c == '.' || c == '-'
  }

  /** Plain segments between single slashes; `start` says a segment is about to begin. */
  predicate SafeFrom(path: string, start: bool) {
    if path == "" then !start
    else if start then Letter(path[0]) && SafeFrom(path[1..], false)
    else if path[0] == '/' then SafeFrom(path[1..], true)
    else InSegment(path[0]) && SafeFrom(path[1..], false)
  }

  predicate SafePath(path: string) {
    SafeFrom(path, true)
  }

  predicate Stated(reason: string) {
    exists k :: 0 <= k < |reason| && reason[k] !in BLANKS
  }

  predicate Sound(ledger: seq<Exemption>) {
    && ledger != []
    && (forall i | 0 <= i < |ledger| :: SafePath(ledger[i].path) && Stated(ledger[i].reason))
    && (forall i, j | 0 <= i < j < |ledger| :: ledger[i].path != ledger[j].path)
  }

  /** The defect reported at entry `i`, once everything before it is in order. */
  function DefectAt(ledger: seq<Exemption>, i: nat): Option<Defect>
    requires i < |ledger|
  {
    var e := ledger[i];
    if !SafePath(e.path) then Some(UnsafePath(e.path))
    else if !Stated(e.reason) then Some(NoReason(e.path))
    else if exists j :: 0 <= j < i && ledger[j].path == e.path then Some(DuplicatePath(e.path))
    else None
  }

  lemma SoundIffNoDefect(ledger: seq<Exemption>)
    ensures Sound(ledger) <==> ledger != [] && forall i | 0 <= i < |ledger| :: DefectAt(ledger, i).None?
  {
    if ledger != [] && forall i | 0 <= i < |ledger| :: DefectAt(ledger, i).None? {
      forall i | 0 <= i < |ledger| ensures SafePath(ledger[i].path) && Stated(ledger[i].reason) {
        assert DefectAt(ledger, i).None?;
      }
      forall i, j | 0 <= i < j < |ledger| ensures ledger[i].path != ledger[j].path {
        assert DefectAt(ledger, j).None?;
      }
    }
  }

  /** `assertLedgerSound`; a defect stands for the thrown error. */
  method AssertLedgerSound(ledger: seq<Exemption>) returns (defect: Option<Defect>)
    ensures defect.None? <==> Sound(ledger)
    ensures defect == Some(EmptyLedger) <==> ledger == []
    ensures defect.Some? && ledger != [] ==>
      exists i ::
        0 <= i < |ledger| && DefectAt(ledger, i) == defect && forall j | 0 <= j < i :: DefectAt(ledger, j).None?
  {
    SoundIffNoDefect(ledger);
    if |ledger| == 0 {
      return Some(EmptyLedger);
    }
    var seen: set<string> := {};
    for i := 0 to |ledger|
      invariant forall path :: path in seen <==> exists j :: 0 <= j < i && ledger[j].path == path
      invariant forall j | 0 <= j < i :: DefectAt(ledger, j).None?
    {
      var e := ledger[i];
      if !SafePath(e.path) {
        assert DefectAt(ledger, i) == Some(UnsafePath(e.path));
        return Some(UnsafePath(e.path));
      }
      if !Stated(e.reason) {
        assert DefectAt(ledger, i) == Some(NoReason(e.path));
        return Some(NoReason(e.path));
      }
      if e.path in seen {
        assert DefectAt(ledger, i) == Some(DuplicatePath(e.path));
        return Some(DuplicatePath(e.path));
      }
      seen := seen + {e.path};
    }
    assert forall i | 0 <= i < |ledger| :: DefectAt(ledger, i).None?;
    defect := None;
  }

  // ── The generator ──────────────────────

  function Escaped(path: string): string {
    if path == "" then "" else EscapedChar(path[0]) + Escaped(path[1..])
  }

  function Tail(s: Semantics): string {
    match s
    case Exact => "/?$"
    case Subtree => "(?:/.*)?$"
  }

  function ExemptionPattern(e: Exemption): string {
    Escaped(e.path) + Tail(e.semantics)
  }

  function Joined(ledger: seq<Exemption>): string
    requires ledger != []
  {
    if |ledger| == 1 then ExemptionPattern(ledger[0])
    else ExemptionPattern(ledger[0]) + "|" + Joined(ledger[1..])
  }

  function MatcherText(ledger: seq<Exemption>): string
    requires ledger != []
  {
    "/((?!" + Joined(ledger) + ").*)"
  }

  /** `buildAuthWallMatcher`. */
  method BuildAuthWallMatcher(ledger: seq<Exemption>) returns (matcher: Option<string>, defect: Option<Defect>)
    ensures matcher.Some? <==> Sound(ledger)
    ensures matcher.Some? ==> matcher.value == MatcherText(ledger)
    ensures matcher.None? <==> defect.Some?
  {
    defect := AssertLedgerSound(ledger);
    matcher := if defect.None? then Some(MatcherText(ledger)) else None;
  }

  // ── The tree the text stands for ───────

  function TailTree(s: Semantics): Re {
    match s
    case Exact => Then(Opt(Chr('/')), Then(End, Empty))
    case Subtree => Then(Opt(Then(Chr('/'), Then(Star(AnyChar), Empty))), Then(End, Empty))
  }

  function EntryTree(e: Exemption): Re {
    Literal(e.path, TailTree(e.semantics))
  }

  function LedgerTree(ledger: seq<Exemption>): Re
    requires ledger != []
  {
    if |ledger| == 1 then EntryTree(ledger[0]) else Or(EntryTree(ledger[0]), LedgerTree(ledger[1..]))
  }

  function MatcherTree(ledger: seq<Exemption>): Re
    requires ledger != []
  {
    Then(Chr('/'), Then(Then(NotAhead(LedgerTree(ledger)), Then(Star(AnyChar), Empty)), Empty))
  }

  predicate Boundary(rest: string) {
    rest != "" && (rest[0] == '|' || rest[0] == ')')
  }

  lemma ParseEnd(rest: string)
    requires Boundary(rest)
    ensures ParseSequence("$" + rest) == Some((Then(End, Empty), rest))
  {
    assert ("$" + rest)[1..] == rest;
    assert ParsePiece("$" + rest) == Some((End, rest));
  }

  lemma ParseExactTail(rest: string)
    requires Boundary(rest)
    ensures ParseSequence("/?$" + rest) == Some((TailTree(Exact), rest))
  {
    var s := "/?$" + rest;
    ParseEnd(rest);
    assert s[1..][1..] == "$" + rest;
    assert ParsePiece(s) == Some((Opt(Chr('/')), "$" + rest));
  }

  lemma ParseSlashAnything(rest: string)
    requires Boundary(rest)
    ensures ParseSequence("/.*" + rest) == Some((Then(Chr('/'), Then(Star(AnyChar), Empty)), rest))
  {
    var s := "/.*" + rest;
    assert s == "/" + (".*" + rest);
    ParseLiteral("/", '/', ".*" + rest);
    assert (".*" + rest)[1..][1..] == rest;
    assert ParsePiece(".*" + rest) == Some((Star(AnyChar), rest));
    assert ParseSequence(rest) == Some((Empty, rest));
  }

  lemma ParseSubtreeTail(rest: string)
    requires Boundary(rest)
    ensures ParseSequence("(?:/.*)?$" + rest) == Some((TailTree(Subtree), rest))
  {
    var s, inner := "(?:/.*)?$" + rest, ")?$" + rest;
    assert s[3..] == "/.*" + inner;
    ParseSlashAnything(inner);
    assert ParseAlternation("/.*" + inner) == Some((Then(Chr('/'), Then(Star(AnyChar), Empty)), inner));
    assert inner[1..] == "?$" + rest;
    assert ("?$" + rest)[1..] == "$" + rest;
    assert "(?:" <= s;
    assert ParsePiece(s) == Some((Opt(Then(Chr('/'), Then(Star(AnyChar), Empty))), "$" + rest));
    ParseEnd(rest);
  }

  lemma ParseTail(s: Semantics, rest: string)
    requires Boundary(rest)
    ensures ParseSequence(Tail(s) + rest) == Some((TailTree(s), rest))
    ensures NoQuantifier(Tail(s) + rest)
  {
    if s == Exact { ParseExactTail(rest); } else { ParseSubtreeTail(rest); }
  }

  /** One character of a safe path: what it is written as, and what follows it. */
  lemma SafeHead(path: string, start: bool)
    requires SafeFrom(path, start) && path != ""
    ensures SafeFrom(path[1..], !start && path[0] == '/')
    ensures path[0] == '.' || Plain(path[0])
    ensures Escaped(path) == EscapedChar(path[0]) + Escaped(path[1..])
  {
  }

  function EscapedChar(c: char): string {
    if c == '.' then "\\." else [c]
  }

  lemma EscapedCharStarts(c: char, tail: string)
    requires c == '.' || Plain(c)
    ensures var s := EscapedChar(c) + tail; NoQuantifier(s) && s[0] != '|' && s[0] != ')'
  {
  }

  /** The escaped path reads back as its own characters. */
  lemma {:induction false} ParseEscaped(path: string, start: bool, tail: string, after: Re, rest: string)
    requires SafeFrom(path, start) && NoQuantifier(tail) && ParseSequence(tail) == Some((after, rest))
    ensures ParseSequence(Escaped(path) + tail) == Some((Literal(path, after), rest))
    ensures NoQuantifier(Escaped(path) + tail)
    decreases path
  {
    hide ParseSequence, ParsePiece, NoQuantifier, EscapedChar, SafeFrom, Plain;
    if path == "" {
      assert Escaped(path) + tail == tail;
    } else {
      var more := Escaped(path[1..]) + tail;
      SafeHead(path, start);
      ParseEscaped(path[1..], !start && path[0] == '/', tail, after, rest);
      EscapedCharStarts(path[0], more);
      ParseEscapedChar(path[0], more);
      ParseSequenceStep(EscapedChar(path[0]) + more, Chr(path[0]), more);
      assert Escaped(path) + tail == EscapedChar(path[0]) + more;
    }
  }

  lemma ParseEscapedChar(c: char, tail: string)
    requires NoQuantifier(tail) && (c == '.' || Plain(c))
    ensures ParsePiece(EscapedChar(c) + tail) == Some((Chr(c), tail))
  {
    hide ParsePiece;
    ParseLiteral(EscapedChar(c), c, tail);
  }

  lemma ParseEntry(e: Exemption, rest: string)
    requires SafePath(e.path) && Boundary(rest)
    ensures ParseSequence(ExemptionPattern(e) + rest) == Some((EntryTree(e), rest))
  {
    ParseTail(e.semantics, rest);
    ParseEscaped(e.path, true, Tail(e.semantics) + rest, TailTree(e.semantics), rest);
    assert ExemptionPattern(e) + rest == Escaped(e.path) + (Tail(e.semantics) + rest);
  }

  lemma JoinedStep(ledger: seq<Exemption>, rest: string)
    requires ledger != []
    ensures Joined(ledger) + rest ==
      ExemptionPattern(ledger[0]) + (if |ledger| == 1 then rest else "|" + (Joined(ledger[1..]) + rest))
  {
    hide ExemptionPattern;
  }

  lemma {:induction false} ParseJoined(ledger: seq<Exemption>, rest: string)
    requires ledger != [] && forall i | 0 <= i < |ledger| :: SafePath(ledger[i].path)
    requires rest != "" && rest[0] == ')'
    ensures ParseAlternation(Joined(ledger) + rest) == Some((LedgerTree(ledger), rest))
    decreases |ledger|
  {
    hide ParseAlternation, ParseSequence, ParsePiece, EntryTree, ExemptionPattern, SafePath, Joined;
    JoinedStep(ledger, rest);
    if |ledger| == 1 {
      ParseEntry(ledger[0], rest);
      ParseAlternationStep(ExemptionPattern(ledger[0]) + rest, EntryTree(ledger[0]), rest);
    } else {
      var more := "|" + (Joined(ledger[1..]) + rest);
      ParseEntry(ledger[0], more);
      ParseJoined(ledger[1..], rest);
      assert more[1..] == Joined(ledger[1..]) + rest;
      ParseAlternationStep(ExemptionPattern(ledger[0]) + more, EntryTree(ledger[0]), more);
    }
  }

  lemma ParseDotStarClose()
    ensures ParseSequence(".*)") == Some((Then(Star(AnyChar), Empty), ")"))
  {
    assert ".*)"[1..] == "*)" && "*)"[1..] == ")";
    assert ParseSequence(")") == Some((Empty, ")"));
    assert ParsePiece(".*)") == Some((Star(AnyChar), ")"));
  }

  lemma ParseLookahead(ledger: seq<Exemption>)
    requires Sound(ledger)
    ensures ParsePiece("(?!" + Joined(ledger) + ").*)") == Some((NotAhead(LedgerTree(ledger)), ".*)"))
  {
    var inner := "(?!" + Joined(ledger) + ").*)";
    assert inner[3..] == Joined(ledger) + ").*)";
    ParseJoined(ledger, ").*)");
    hide ParseAlternation, ParseSequence, Joined, LedgerTree;
    assert ").*)"[1..] == ".*)";
    assert "(?!" <= inner && inner[2] == '!';
  }

  lemma ParseGroup(ledger: seq<Exemption>)
    requires Sound(ledger)
    ensures ParsePiece("((?!" + Joined(ledger) + ").*)") ==
      Some((Then(NotAhead(LedgerTree(ledger)), Then(Star(AnyChar), Empty)), ""))
  {
    hide Joined, LedgerTree;
    var s := "((?!" + Joined(ledger) + ").*)";
    var inner, tree := "(?!" + Joined(ledger) + ").*)", Then(NotAhead(LedgerTree(ledger)), Then(Star(AnyChar), Empty));
    ParseLookahead(ledger);
    ParseDotStarClose();
    ParseSequenceStep(inner, NotAhead(LedgerTree(ledger)), ".*)");
    ParseAlternationStep(inner, tree, ")");
    hide ParseAlternation, ParseSequence;
    assert s[1..] == inner && ")"[1..] == "" && s[1] == '(';
  }

  /** The generated text, read as a regular expression, is the ledger's tree. */
  lemma MatcherParses(ledger: seq<Exemption>)
    requires Sound(ledger)
    ensures Parse(MatcherText(ledger)) == Some(MatcherTree(ledger))
  {
    hide Joined, LedgerTree;
    var group, tree := "((?!" + Joined(ledger) + ").*)", Then(NotAhead(LedgerTree(ledger)), Then(Star(AnyChar), Empty));
    assert MatcherText(ledger) == "/" + group;
    ParseGroup(ledger);
    ParseLiteral("/", '/', group);
    assert ParseSequence("") == Some((Empty, ""));
    hide ParseSequence, ParsePiece, ParseAlternation;
    ParseSequenceStep(group, tree, "");
    ParseSequenceStep("/" + group, Chr('/'), group);
    ParseAlternationStep("/" + group, MatcherTree(ledger), "");
  }

  // ── What the tree lets past ────────────

  /** The path itself with or without a trailing slash; or, for a subtree, anything below its slash. */
  predicate Covers(e: Exemption, address: string) {
    match e.semantics
    case Exact => address == e.path || address == e.path + "/"
    case Subtree => address == e.path || e.path + "/" <= address
  }

  predicate Exempt(ledger: seq<Exemption>, address: string) {
    exists e :: e in ledger && Covers(e, address)
  }

  lemma EndMatches(s: string, i: nat, j: nat)
    requires i <= |s| && j <= |s|
    ensures Matches(Then(End, Empty), s, i, j) <==> i == j == |s|
  {
    if i == j == |s| {
      assert Matches(End, s, i, i) && Matches(Empty, s, i, j);
    }
  }

  lemma ExactTailMatches(s: string, i: nat)
    requires i <= |s|
    ensures Starts(TailTree(Exact), s, i) <==> s[i..] == "" || s[i..] == "/"
  {
    if Starts(TailTree(Exact), s, i) {
      var j :| i <= j <= |s| && Matches(TailTree(Exact), s, i, j);
      var k := ThenSplits(Opt(Chr('/')), Then(End, Empty), s, i, j);
      EndMatches(s, k, j);
      assert i == k || Matches(Chr('/'), s, i, k);
      if i < k { assert s[i..] == [s[i]]; }
    }
    EndMatches(s, |s|, |s|);
    if s[i..] == "" || s[i..] == "/" {
      assert i < |s| ==> s[i..][0] == s[i];
      assert Matches(Opt(Chr('/')), s, i, |s|) by {
        assert i == |s| || Matches(Chr('/'), s, i, |s|);
      }
      ThenJoins(Opt(Chr('/')), Then(End, Empty), s, i, |s|, |s|);
    }
  }

  const BELOW := Then(Chr('/'), Then(Star(AnyChar), Empty))

  lemma SlashAnything(s: string, i: nat, k: nat)
    requires i <= k <= |s| && NoLineTerminator(s)
    ensures Matches(BELOW, s, i, k) <==> i < k && s[i] == '/'
  {
    if Matches(BELOW, s, i, k) {
      var m := ThenSplits(Chr('/'), Then(Star(AnyChar), Empty), s, i, k);
    }
    if i < k && s[i] == '/' {
      AnythingMatches(s, i + 1, k);
      ThenJoins(Star(AnyChar), Empty, s, i + 1, k, k);
      ThenJoins(Chr('/'), Then(Star(AnyChar), Empty), s, i, i + 1, k);
    }
  }

  lemma SubtreeTailMatches(s: string, i: nat)
    requires i <= |s| && NoLineTerminator(s)
    ensures Starts(TailTree(Subtree), s, i) <==> s[i..] == "" || s[i] == '/'
  {
    if Starts(TailTree(Subtree), s, i) {
      var j :| i <= j <= |s| && Matches(TailTree(Subtree), s, i, j);
      var k := ThenSplits(Opt(BELOW), Then(End, Empty), s, i, j);
      EndMatches(s, k, j);
      assert i == k || Matches(BELOW, s, i, k);
      SlashAnything(s, i, k);
    }
    EndMatches(s, |s|, |s|);
    SlashAnything(s, i, |s|);
    if i == |s| || s[i] == '/' {
      assert Matches(Opt(BELOW), s, i, |s|) by {
        assert i == |s| || Matches(BELOW, s, i, |s|);
      }
      ThenJoins(Opt(BELOW), Then(End, Empty), s, i, |s|, |s|);
    }
  }

  /** One entry's pattern starts here exactly when the entry covers what follows. */
  lemma EntryMatches(e: Exemption, s: string, i: nat)
    requires i <= |s| && NoLineTerminator(s)
    ensures Starts(EntryTree(e), s, i) <==> Covers(e, s[i..])
  {
    var m := i + |e.path|;
    LiteralStarts(e.path, TailTree(e.semantics), s, i);
    if m <= |s| && s[i..m] == e.path {
      assert s[i..] == e.path + s[m..];
      if e.semantics == Exact {
        ExactTailMatches(s, m);
      } else {
        SubtreeTailMatches(s, m);
      }
      CoversTail(e, s[m..]);
    } else {
      assert m <= |s| ==> s[i..][..|e.path|] == s[i..m];
      assert !(e.path <= s[i..]);
    }
  }

  lemma LiteralStarts(text: string, after: Re, s: string, i: nat)
    requires i <= |s|
    ensures Starts(Literal(text, after), s, i) <==>
      i + |text| <= |s| && s[i..i + |text|] == text && Starts(after, s, i + |text|)
  {
    if Starts(Literal(text, after), s, i) {
      var k :| i <= k <= |s| && Matches(Literal(text, after), s, i, k);
      LiteralMatches(text, after, s, i, k);
      Forward(after, s, i + |text|, k);
    }
    if i + |text| <= |s| && s[i..i + |text|] == text && Starts(after, s, i + |text|) {
      var k :| i + |text| <= k <= |s| && Matches(after, s, i + |text|, k);
      LiteralMatches(text, after, s, i, k);
    }
  }

  lemma CoversTail(e: Exemption, tail: string)
    ensures Covers(e, e.path + tail) <==> tail == "" || (if e.semantics == Exact then tail == "/" else tail[0] == '/')
  {
    assert (e.path + tail)[|e.path|..] == tail;
    if e.path + tail == e.path {
      assert |tail| == 0;
    }
    if tail != "" && tail[0] == '/' {
      assert e.path + tail == (e.path + "/") + tail[1..];
    }
    if e.path + "/" <= e.path + tail {
      assert (e.path + tail)[|e.path|] == (e.path + "/")[|e.path|];
    }
    if tail == "" {
      assert e.path + tail == e.path;
    }
  }

  lemma {:induction false} LedgerMatches(ledger: seq<Exemption>, s: string, i: nat)
    requires ledger != [] && i <= |s| && NoLineTerminator(s)
    ensures Starts(LedgerTree(ledger), s, i) <==> Exempt(ledger, s[i..])
    decreases |ledger|
  {
    EntryMatches(ledger[0], s, i);
    if |ledger| > 1 {
      LedgerMatches(ledger[1..], s, i);
      assert ledger == [ledger[0]] + ledger[1..];
      OrStarts(EntryTree(ledger[0]), LedgerTree(ledger[1..]), s, i);
    }
  }

  lemma OrStarts(a: Re, b: Re, s: string, i: nat)
    requires i <= |s|
    ensures Starts(Or(a, b), s, i) <==> Starts(a, s, i) || Starts(b, s, i)
  {
    if Starts(Or(a, b), s, i) {
      var k :| i <= k <= |s| && Matches(Or(a, b), s, i, k);
      assert Matches(a, s, i, k) || Matches(b, s, i, k);
    }
    if k :| i <= k <= |s| && Matches(a, s, i, k) { assert Matches(Or(a, b), s, i, k); }
    if k :| i <= k <= |s| && Matches(b, s, i, k) { assert Matches(Or(a, b), s, i, k); }
  }

  lemma LookaheadMatches(tree: Re, path: string, i: nat)
    requires i <= |path| && NoLineTerminator(path)
    ensures Matches(Then(NotAhead(tree), Then(Star(AnyChar), Empty)), path, i, |path|) <==> !Starts(tree, path, i)
  {
    if Matches(Then(NotAhead(tree), Then(Star(AnyChar), Empty)), path, i, |path|) {
      var k := ThenSplits(NotAhead(tree), Then(Star(AnyChar), Empty), path, i, |path|);
    }
    if !Starts(tree, path, i) {
      AnythingMatches(path, i, |path|);
      ThenJoins(Star(AnyChar), Empty, path, i, |path|, |path|);
      assert Matches(NotAhead(tree), path, i, i);
      ThenJoins(NotAhead(tree), Then(Star(AnyChar), Empty), path, i, i, |path|);
    }
  }

  /** The wall's matcher takes a path exactly when it is an address no entry covers. */
  lemma MatcherWallsWhatIsNotExempt(ledger: seq<Exemption>, path: string)
    requires ledger != [] && NoLineTerminator(path)
    ensures FullMatch(MatcherTree(ledger), path) <==> path != "" && path[0] == '/' && !Exempt(ledger, path[1..])
  {
    var tree := LedgerTree(ledger);
    var body := Then(NotAhead(tree), Then(Star(AnyChar), Empty));
    if path != "" && path[0] == '/' {
      LedgerMatches(ledger, path, 1);
      LookaheadMatches(tree, path, 1);
      if !Exempt(ledger, path[1..]) {
        ThenJoins(body, Empty, path, 1, |path|, |path|);
        ThenJoins(Chr('/'), Then(body, Empty), path, 0, 1, |path|);
      }
    }
    if FullMatch(MatcherTree(ledger), path) {
      var k := ThenSplits(Chr('/'), Then(body, Empty), path, 0, |path|);
      var m := ThenSplits(body, Empty, path, k, |path|);
      assert k == 1 && m == |path|;
    }
  }

  /**
   * For every sound ledger and every address without a line break, the generated text, read as a
   * regular expression, keeps the address behind the wall exactly when no entry covers it.
   */
  lemma WallIsExact(ledger: seq<Exemption>, address: string)
    requires Sound(ledger) && NoLineTerminator(address)
    ensures Parse(MatcherText(ledger)).Some?
    ensures FullMatch(Parse(MatcherText(ledger)).value, "/" + address) <==> !Exempt(ledger, address)
  {
    MatcherParses(ledger);
    MatcherWallsWhatIsNotExempt(ledger, "/" + address);
    assert ("/" + address)[1..] == address;
  }
}
