/**
 * The fragment of the regular-expression language the wall's matcher is written in: a reader from
 * text to syntax tree, and what a tree matches.
 */
module Regex {
  import opened Basics

  datatype Re =
    | Empty
    | Chr(c: char)
    | AnyChar                    // `.`
    | End                        // `$`
    | Then(first: Re, rest: Re)
    | Or(left: Re, right: Re)
    | Star(body: Re)
    | Opt(body: Re)
    | NotAhead(body: Re)         // `(?!…)`

  /** `.` matches everything but these. */
  const LINE_TERMINATORS := {'\n', '\r', '\U{2028}', '\U{2029}'}

  const META := {'\\', '^', '$', '.', '*', '+', '?', '(', ')', '[', ']', '{', '}', '|'}

  // ── What a tree matches ────────────────

  /** The tree can consume `s[i..j]`. */
  ghost predicate Matches(re: Re, s: string, i: nat, j: nat)
    requires i <= |s| && j <= |s|
    decreases re, if i <= j then j - i else 0
  {
    match re
    case Empty => i == j
    case Chr(c) => i < |s| && s[i] == c && j == i + 1
    case AnyChar => i < |s| && s[i] !in LINE_TERMINATORS && j == i + 1
    case End => i == j == |s|
    case Then(a, b) => exists k :: i <= k <= j && Matches(a, s, i, k) && Matches(b, s, k, j)
    case Or(a, b) => Matches(a, s, i, j) || Matches(b, s, i, j)
    case Star(a) => i == j || exists k :: i < k <= j && Matches(a, s, i, k) && Matches(Star(a), s, k, j)
    case Opt(a) => i == j || Matches(a, s, i, j)
    case NotAhead(a) => i == j && forall k :: i <= k <= |s| ==> !Matches(a, s, i, k)
  }

  /** Some prefix of what follows is consumed. */
  ghost predicate Starts(re: Re, s: string, i: nat)
    requires i <= |s|
  {
    exists k :: i <= k <= |s| && Matches(re, s, i, k)
  }

  /** Anchored at both ends, as a route matcher is. */
  ghost predicate FullMatch(re: Re, s: string) {
    Matches(re, s, 0, |s|)
  }

  // ── The reader ─────────────────────────

  type Parsed = Option<(Re, string)>

  /** A tree and the text left over, which must be shorter than `limit`. */
  predicate Shorter(p: Parsed, limit: nat) {
    p.Some? ==> |p.value.1| < limit
  }

  function ParseAlternation(s: string): (p: Parsed)
    ensures Shorter(p, |s| + 1)
    decreases |s|, 2
  {
    match ParseSequence(s)
    case None => None
    case Some((left, rest)) =>
      if rest == "" || rest[0] != '|' then Some((left, rest))
      else match ParseAlternation(rest[1..])
        case None => None
        case Some((right, rest')) => Some((Or(left, right), rest'))
  }

  function ParseSequence(s: string): (p: Parsed)
    ensures Shorter(p, |s| + 1)
    decreases |s|, 1
  {
    if s == "" || s[0] == '|' || s[0] == ')' then Some((Empty, s))
    else match ParsePiece(s)
      case None => None
      case Some((piece, rest)) =>
        match ParseSequence(rest)
        case None => None
        case Some((more, rest')) => Some((Then(piece, more), rest'))
  }

  function Quantified(p: Parsed): (q: Parsed)
    ensures p.Some? ==> Shorter(q, |p.value.1| + 1)
  {
    match p
    case None => None
    case Some((atom, rest)) =>
      if rest != "" && rest[0] == '?' then Some((Opt(atom), rest[1..]))
      else if rest != "" && rest[0] == '*' then Some((Star(atom), rest[1..]))
      else p
  }

  function Closed(p: Parsed): (q: Parsed)
    ensures p.Some? ==> Shorter(q, |p.value.1|)
  {
    match p
    case None => None
    case Some((body, rest)) => if rest != "" && rest[0] == ')' then Some((body, rest[1..])) else None
  }

  function ParsePiece(s: string): (p: Parsed)
    requires s != ""
    ensures Shorter(p, |s|)
    decreases |s|, 0
  {
    if "(?:" <= s then Quantified(Closed(ParseAlternation(s[3..])))
    else if "(?!" <= s then
      (match Closed(ParseAlternation(s[3..]))
       case None => None
       case Some((body, rest)) => Some((NotAhead(body), rest)))
    else if s[0] == '(' then Quantified(Closed(ParseAlternation(s[1..])))
    else if s[0] == '.' then Quantified(Some((AnyChar, s[1..])))
    else if s[0] == '$' then Some((End, s[1..]))
    else if s[0] == '\\' then (if |s| > 1 && s[1] in META then Quantified(Some((Chr(s[1]), s[2..]))) else None)
    else if s[0] in META then None
    else Quantified(Some((Chr(s[0]), s[1..])))
  }

  /** The whole text is one expression. */
  function Parse(s: string): Option<Re> {
    match ParseAlternation(s)
    case None => None
    case Some((re, rest)) => if rest == "" then Some(re) else None
  }

  // ── Reading one construct ──────────────

  predicate Plain(c: char) {
    c !in META
  }

  predicate NoQuantifier(s: string) {
    s != "" && s[0] != '?' && s[0] != '*'
  }

  /** A literal character, escaped or not, in front of something that is not a quantifier. */
  lemma ParseLiteral(text: string, c: char, tail: string)
    requires NoQuantifier(tail) && ((Plain(c) && text == [c]) || (c == '.' && text == "\\."))
    ensures ParsePiece(text + tail) == Some((Chr(c), tail))
  {
    assert (text + tail)[|text|..] == tail;
    assert (text + tail)[0] == text[0];
  }

  lemma ParseSequenceStep(s: string, piece: Re, rest: string)
    requires s != "" && s[0] != '|' && s[0] != ')' && ParsePiece(s) == Some((piece, rest))
    ensures ParseSequence(rest).Some? ==>
      ParseSequence(s) == Some((Then(piece, ParseSequence(rest).value.0), ParseSequence(rest).value.1))
  {
  }

  lemma ParseAlternationStep(s: string, left: Re, rest: string)
    requires ParseSequence(s) == Some((left, rest))
    ensures rest == "" || rest[0] != '|' ==> ParseAlternation(s) == Some((left, rest))
    ensures rest != "" && rest[0] == '|' && ParseAlternation(rest[1..]).Some? ==>
      var (right, rest') := ParseAlternation(rest[1..]).value; ParseAlternation(s) == Some((Or(left, right), rest'))
  {
    hide ParsePiece;
  }

  // ── Matching literals and tails ────────

  function Literal(text: string, after: Re): Re {
    if text == "" then after else Then(Chr(text[0]), Literal(text[1..], after))
  }

  lemma {:induction false} Forward(re: Re, s: string, i: nat, j: nat)
    requires i <= |s| && j <= |s| && Matches(re, s, i, j)
    ensures i <= j
  {
    match re
    case Or(a, b) =>
      if Matches(a, s, i, j) { Forward(a, s, i, j); } else { Forward(b, s, i, j); }
    case Opt(a) =>
      if i != j { Forward(a, s, i, j); }
    case _ =>
  }

  lemma {:induction false} LiteralMatches(text: string, after: Re, s: string, i: nat, j: nat)
    requires i <= |s| && j <= |s|
    ensures Matches(Literal(text, after), s, i, j) <==>
      i + |text| <= |s| && s[i..i + |text|] == text && Matches(after, s, i + |text|, j)
    decreases |text|
  {
    if text != "" {
      var here := i < |s| && s[i] == text[0];
      if here {
        LiteralMatches(text[1..], after, s, i + 1, j);
        if i + |text| <= |s| {
          assert s[i..i + |text|] == [s[i]] + s[i + 1..i + 1 + |text[1..]|];
        }
        if Matches(Literal(text[1..], after), s, i + 1, j) {
          Forward(Literal(text[1..], after), s, i + 1, j);
          assert Matches(Chr(text[0]), s, i, i + 1);
        }
      }
      if i + |text| <= |s| && s[i..i + |text|] == text {
        assert s[i..i + |text|][0] == s[i];
      }
      assert text == [text[0]] + text[1..];
    }
  }

  lemma ThenSplits(a: Re, b: Re, s: string, i: nat, j: nat) returns (k: nat)
    requires i <= |s| && j <= |s| && Matches(Then(a, b), s, i, j)
    ensures i <= k <= j && Matches(a, s, i, k) && Matches(b, s, k, j)
  {
    k :| i <= k <= j && Matches(a, s, i, k) && Matches(b, s, k, j);
  }

  lemma ThenJoins(a: Re, b: Re, s: string, i: nat, k: nat, j: nat)
    requires i <= k <= j <= |s| && Matches(a, s, i, k) && Matches(b, s, k, j)
    ensures Matches(Then(a, b), s, i, j)
  {
  }

  ghost predicate NoLineTerminator(s: string) {
    forall k | 0 <= k < |s| :: s[k] !in LINE_TERMINATORS
  }

  /** `.*` runs over any stretch without a line terminator. */
  lemma {:induction false} AnythingMatches(s: string, i: nat, j: nat)
    requires i <= j <= |s| && NoLineTerminator(s)
    ensures Matches(Star(AnyChar), s, i, j)
    decreases j - i
  {
    if i < j {
      AnythingMatches(s, i + 1, j);
      assert Matches(AnyChar, s, i, i + 1);
    }
  }
}
