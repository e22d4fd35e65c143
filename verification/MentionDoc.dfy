/**
 * Mention documents: chips placed into plain text, and the reader that turns a document back into
 * text, references and variant choices. Finding a name in a text is the runtime's matter.
 */
module MentionDoc {
  import opened Basics
  import opened Ordering
  import opened Text

  datatype Item = Item(id: string, name: string, entityType: string, variantId: Option<string>)

  datatype Tok = TextTok(text: string) | ChipTok(item: Item, hit: string)

  /** Where a name occurs in a text, as offset and length. */
  type Locator = (string, string) -> Option<(nat, nat)>

  ghost predicate InBounds(locate: Locator) {
    forall name, text :: locate(name, text).Some? ==>
      locate(name, text).value.0 + locate(name, text).value.1 <= |text|
  }

  // ── Building ───────────────────────────

  /** Longest names first; equal lengths keep the list's order. */
  function LongerName(): (Item, Item) -> bool {
    (a: Item, b: Item) => |b.name| < |a.name|
  }

  function TextPiece(text: string): seq<Tok> {
    if text == "" then [] else [TextTok(text)]
  }

  function Pieces(text: string, e: Item, at: nat, len: nat): seq<Tok>
    requires at + len <= |text|
  {
    TextPiece(text[..at]) + [ChipTok(e, text[at..at + len])] + TextPiece(text[at + len..])
  }

  /** The first text piece that holds the item's name gives it up to a chip. */
  function PlaceOne(toks: seq<Tok>, e: Item, locate: Locator): seq<Tok>
    requires InBounds(locate)
  {
    if toks == [] then []
    else if toks[0].ChipTok? || locate(e.name, toks[0].text).None? then [toks[0]] + PlaceOne(toks[1..], e, locate)
    else
      var (at, len) := locate(e.name, toks[0].text).value;
      Pieces(toks[0].text, e, at, len) + toks[1..]
  }

  function PlaceAll(toks: seq<Tok>, items: seq<Item>, locate: Locator): seq<Tok>
    requires InBounds(locate)
    decreases |items|
  {
    if items == [] then toks else PlaceAll(PlaceOne(toks, items[0], locate), items[1..], locate)
  }

  function Tokens(text: string, mentioned: seq<Item>, locate: Locator): seq<Tok>
    requires InBounds(locate)
  {
    PlaceAll([TextTok(text)], Sort(LongerName(), mentioned), locate)
  }

  datatype NodeKind = DocKind | ParagraphKind | TextKind | MentionKind | OtherKind

  datatype Attrs = Attrs(id: string, storedLabel: Option<string>, variantId: Option<string>)

  datatype Node = Node(kind: NodeKind, text: string, attrs: Option<Attrs>, content: seq<Node>)

  function TokNode(t: Tok): Node {
    match t
    case TextTok(text) => Node(TextKind, text, None, [])
    case ChipTok(item, hit) => Node(MentionKind, "", Some(Attrs(item.id, Some(hit), item.variantId)), [])
  }

  function Shown(toks: seq<Tok>): seq<Tok> {
    if toks == [] then []
    else (if toks[0] == TextTok("") then [] else [toks[0]]) + Shown(toks[1..])
  }

  function NodesOf(toks: seq<Tok>): seq<Node> {
    seq(|toks|, i requires 0 <= i < |toks| => TokNode(toks[i]))
  }

  function DocOf(toks: seq<Tok>): Node {
    Node(DocKind, "", None, [Node(ParagraphKind, "", None, NodesOf(Shown(toks)))])
  }

  lemma PlaceOneStep(toks: seq<Tok>, j: nat, e: Item, locate: Locator)
    requires InBounds(locate) && j < |toks|
    ensures PlaceOne(toks[j..], e, locate) ==
      if toks[j].ChipTok? || locate(e.name, toks[j].text).None? then [toks[j]] + PlaceOne(toks[j + 1..], e, locate)
      else
        var (at, len) := locate(e.name, toks[j].text).value;
        Pieces(toks[j].text, e, at, len) + toks[j + 1..]
  {
    assert toks[j..][0] == toks[j] && toks[j..][1..] == toks[j + 1..];
  }

  lemma PlaceNone(e: Item, locate: Locator)
    requires InBounds(locate)
    ensures PlaceOne([], e, locate) == []
  {
  }

  method CutOut(text: string, e: Item, at: nat, len: nat) returns (out: seq<Tok>)
    requires at + len <= |text|
    ensures out == Pieces(text, e, at, len)
  {
    var before, hit, after := text[..at], text[at..at + len], text[at + len..];
    out := [];
    if before != "" {
      out := out + [TextTok(before)];
    }
    out := out + [ChipTok(e, hit)];
    if after != "" {
      out := out + [TextTok(after)];
    }
  }

  lemma Regroup<T>(a: seq<T>, b: seq<T>, c: seq<T>)
    ensures (a + b) + c == a + (b + c)
  {
  }

  /** What is still to be put behind the tokens passed so far. */
  function Remaining(toks: seq<Tok>, j: nat, placed: bool, e: Item, locate: Locator): seq<Tok>
    requires InBounds(locate) && j <= |toks|
  {
    if placed then toks[j..] else PlaceOne(toks[j..], e, locate)
  }

  lemma RemainingStep(out: seq<Tok>, toks: seq<Tok>, j: nat, placed: bool, e: Item, locate: Locator)
    requires InBounds(locate) && j < |toks|
    ensures placed || toks[j].ChipTok? || locate(e.name, toks[j].text).None? ==>
      out + Remaining(toks, j, placed, e, locate) == (out + [toks[j]]) + Remaining(toks, j + 1, placed, e, locate)
    ensures !placed && toks[j].TextTok? && locate(e.name, toks[j].text).Some? ==>
      var (at, len) := locate(e.name, toks[j].text).value;
      out + Remaining(toks, j, placed, e, locate)
        == (out + Pieces(toks[j].text, e, at, len)) + Remaining(toks, j + 1, true, e, locate)
  {
    hide PlaceOne, Pieces;
    PlaceOneStep(toks, j, e, locate);
    if placed || toks[j].ChipTok? || locate(e.name, toks[j].text).None? {
      assert toks[j..] == [toks[j]] + toks[j + 1..];
      Regroup(out, [toks[j]], Remaining(toks, j + 1, placed, e, locate));
    } else {
      var (at, len) := locate(e.name, toks[j].text).value;
      Regroup(out, Pieces(toks[j].text, e, at, len), toks[j + 1..]);
    }
  }

  /** One item's pass over the tokens. */
  method PlaceItem(toks: seq<Tok>, e: Item, locate: Locator) returns (out: seq<Tok>)
    requires InBounds(locate)
    ensures out == PlaceOne(toks, e, locate)
  {
    PlaceNone(e, locate);
    hide PlaceOne, Pieces;
    out := [];
    var placed := false;
    assert toks[0..] == toks && toks[|toks|..] == [];
    assert out + Remaining(toks, 0, placed, e, locate) == PlaceOne(toks, e, locate);
    for j := 0 to |toks|
      invariant out + Remaining(toks, j, placed, e, locate) == PlaceOne(toks, e, locate)
    {
      hide Remaining;
      var t := toks[j];
      RemainingStep(out, toks, j, placed, e, locate);
      if placed || t.ChipTok? || locate(e.name, t.text).None? {
        out := out + [t];
      } else {
        var (at, len) := locate(e.name, t.text).value;
        var cut := CutOut(t.text, e, at, len);
        out := out + cut;
        placed := true;
      }
    }
  }

  method ContentOf(toks: seq<Tok>) returns (content: seq<Node>)
    ensures content == NodesOf(Shown(toks))
  {
    content := [];
    for j := 0 to |toks|
      invariant content == NodesOf(Shown(toks[..j]))
    {
      ShownSnoc(toks[..j], toks[j]);
      assert toks[..j + 1] == toks[..j] + [toks[j]];
      if toks[j] != TextTok("") {
        content := content + [TokNode(toks[j])];
      }
    }
    assert toks[..|toks|] == toks;
  }

  /** `buildMentionDoc`. */
  method BuildMentionDoc(text: string, mentioned: seq<Item>, locate: Locator) returns (doc: Node)
    requires InBounds(locate)
    ensures doc == DocOf(Tokens(text, mentioned, locate))
  {
    var order := Sort(LongerName(), mentioned);
    var toks: seq<Tok> := [TextTok(text)];
    for k := 0 to |order|
      invariant PlaceAll(toks, order[k..], locate) == Tokens(text, mentioned, locate)
    {
      assert order[k..][0] == order[k] && order[k..][1..] == order[k + 1..];
      toks := PlaceItem(toks, order[k], locate);
    }
    var content := ContentOf(toks);
    doc := Node(DocKind, "", None, [Node(ParagraphKind, "", None, content)]);
  }

  lemma {:induction false} ShownSnoc(toks: seq<Tok>, t: Tok)
    ensures Shown(toks + [t]) == Shown(toks) + (if t == TextTok("") then [] else [t])
  {
    if toks == [] {
      assert toks + [t] == [t];
    } else {
      assert (toks + [t])[1..] == toks[1..] + [t];
      ShownSnoc(toks[1..], t);
    }
  }

  // ── Reading ────────────────────────────

  datatype Chip = Chip(id: string, variantId: Option<string>)

  predicate IsChip(node: Node) {
    node.kind == MentionKind && node.attrs.Some? && node.attrs.value.id != ""
  }

  /** The live name when the entity is still known, the stored label otherwise. */
  function ChipText(a: Attrs, names: map<string, string>): string {
    if a.id in names then names[a.id] else GetOr(a.storedLabel, "")
  }

  function TextOf(node: Node, names: map<string, string>): string
    decreases node, |node.content| + 1
  {
    (if node.kind == TextKind then node.text else "")
    + (if IsChip(node) then ChipText(node.attrs.value, names) else "")
    + TextFrom(node, 0, names)
    + (if node.kind == ParagraphKind then "\n" else "")
  }

  function TextFrom(node: Node, i: nat, names: map<string, string>): string
    requires i <= |node.content|
    decreases node, |node.content| - i
  {
    if i == |node.content| then "" else TextOf(node.content[i], names) + TextFrom(node, i + 1, names)
  }

  function ChipsOf(node: Node): seq<Chip>
    decreases node, |node.content| + 1
  {
    (if IsChip(node) then [Chip(node.attrs.value.id, node.attrs.value.variantId)] else []) + ChipsFrom(node, 0)
  }

  function ChipsFrom(node: Node, i: nat): seq<Chip>
    requires i <= |node.content|
    decreases node, |node.content| - i
  {
    if i == |node.content| then [] else ChipsOf(node.content[i]) + ChipsFrom(node, i + 1)
  }

  function IdsOf(chips: seq<Chip>): seq<string> {
    seq(|chips|, i requires 0 <= i < |chips| => chips[i].id)
  }

  predicate Present(o: Option<string>) {
    o.Some? && o.value != ""
  }

  /** One chip binds its variant, or clears what an earlier chip of the entity bound. */
  function Bound(sel: map<string, string>, chip: Chip): map<string, string> {
    if Present(chip.variantId) then sel[chip.id := chip.variantId.value] else sel - {chip.id}
  }

  function BoundAll(sel: map<string, string>, chips: seq<Chip>): map<string, string>
    decreases |chips|
  {
    if chips == [] then sel else BoundAll(Bound(sel, chips[0]), chips[1..])
  }

  lemma {:induction false} BoundConcat(sel: map<string, string>, a: seq<Chip>, b: seq<Chip>)
    ensures BoundAll(sel, a + b) == BoundAll(BoundAll(sel, a), b)
    decreases |a|
  {
    if a == [] {
      assert a + b == b;
    } else {
      assert (a + b)[0] == a[0] && (a + b)[1..] == a[1..] + b;
      BoundConcat(Bound(sel, a[0]), a[1..], b);
    }
  }

  function Deduped(ids: seq<string>): seq<string> {
    if ids == [] then []
    else
      var rest, id := Deduped(ids[..|ids| - 1]), ids[|ids| - 1];
      if id in rest then rest else rest + [id]
  }

  datatype Resolved = Resolved(ids: seq<string>, variantSel: map<string, string>, text: string)

  function Resolve(doc: Node, names: map<string, string>): Resolved {
    Resolved(Deduped(IdsOf(ChipsOf(doc))), BoundAll(map[], ChipsOf(doc)), Trim(TextOf(doc, names)))
  }

  /** `resolveDoc`'s three accumulators. */
  class Reader {
    const names: map<string, string>
    var ids: seq<string>
    var variantSel: map<string, string>
    var text: string

    constructor (names: map<string, string>)
      ensures this.names == names && ids == [] && variantSel == map[] && text == ""
    {
      this.names := names;
      ids, variantSel, text := [], map[], "";
    }

    method Mention(a: Attrs)
      modifies this
      ensures text == old(text) + ChipText(a, names)
      ensures ids == old(ids) + [a.id]
      ensures variantSel == Bound(old(variantSel), Chip(a.id, a.variantId))
    {
      ids := ids + [a.id];
      if Present(a.variantId) {
        variantSel := variantSel[a.id := a.variantId.value];
      } else {
        variantSel := variantSel - {a.id};
      }
      text := text + ChipText(a, names);
    }

    method Walk(node: Node)
      modifies this
      ensures text == old(text) + TextOf(node, names)
      ensures ids == old(ids) + IdsOf(ChipsOf(node))
      ensures variantSel == BoundAll(old(variantSel), ChipsOf(node))
      decreases node, 1
    {
      hide ChipText, Bound, Present, ChipsOf, TextFrom, IdsOf, BoundAll;
      ghost var self := OwnChip(node);
      ghost var startText, startSel := text, variantSel;
      if node.kind == TextKind {
        text := text + node.text;
      }
      if node.kind == MentionKind && node.attrs.Some? && node.attrs.value.id != "" {
        Mention(node.attrs.value);
      }
      OwnChipFirst(startSel, node);
      assert TextOf(node, names)
        == OwnText(node, names) + TextFrom(node, 0, names) + (if node.kind == ParagraphKind then "\n" else "");
      WalkContent(node);
      if node.kind == ParagraphKind {
        text := text + "\n";
      }
    }

    method WalkContent(node: Node)
      modifies this
      ensures text == old(text) + TextFrom(node, 0, names)
      ensures ids == old(ids) + IdsOf(ChipsFrom(node, 0))
      ensures variantSel == BoundAll(old(variantSel), ChipsFrom(node, 0))
      decreases node, 0
    {
      hide TextOf, ChipsOf, Bound;
      for i := 0 to |node.content|
        invariant text + TextFrom(node, i, names) == old(text) + TextFrom(node, 0, names)
        invariant ids + IdsOf(ChipsFrom(node, i)) == old(ids) + IdsOf(ChipsFrom(node, 0))
        invariant BoundAll(variantSel, ChipsFrom(node, i)) == BoundAll(old(variantSel), ChipsFrom(node, 0))
      {
        BoundConcat(variantSel, ChipsOf(node.content[i]), ChipsFrom(node, i + 1));
        assert IdsOf(ChipsFrom(node, i)) == IdsOf(ChipsOf(node.content[i])) + IdsOf(ChipsFrom(node, i + 1));
        Walk(node.content[i]);
      }
    }
  }

  function OwnText(node: Node, names: map<string, string>): string {
    (if node.kind == TextKind then node.text else "") + (if IsChip(node) then ChipText(node.attrs.value, names) else "")
  }

  function OwnChip(node: Node): seq<Chip> {
    if IsChip(node) then [Chip(node.attrs.value.id, node.attrs.value.variantId)] else []
  }

  lemma OwnChipFirst(sel: map<string, string>, node: Node)
    ensures IdsOf(ChipsOf(node)) == (if IsChip(node) then [node.attrs.value.id] else []) + IdsOf(ChipsFrom(node, 0))
    ensures BoundAll(sel, ChipsOf(node)) ==
      BoundAll(if IsChip(node) then Bound(sel, OwnChip(node)[0]) else sel, ChipsFrom(node, 0))
  {
    hide Bound;
    BoundConcat(sel, OwnChip(node), ChipsFrom(node, 0));
    assert ChipsOf(node) == OwnChip(node) + ChipsFrom(node, 0);
    assert BoundAll(sel, []) == sel;
  }

  method Dedupe(all: seq<string>) returns (ids: seq<string>)
    ensures ids == Deduped(all)
  {
    ids := [];
    for i := 0 to |all|
      invariant ids == Deduped(all[..i])
    {
      assert all[..i + 1][..i] == all[..i];
      if all[i] !in ids {
        ids := ids + [all[i]];
      }
    }
    assert all[..|all|] == all;
  }

  /** `resolveDoc`. */
  method ResolveDoc(doc: Node, names: map<string, string>) returns (r: Resolved)
    ensures r == Resolve(doc, names)
  {
    hide ChipsOf, TextOf, Trim;
    var reader := new Reader(names);
    reader.Walk(doc);
    assert reader.ids == IdsOf(ChipsOf(doc)) && reader.text == TextOf(doc, names);
    var ids := Dedupe(reader.ids);
    r := Resolved(ids, reader.variantSel, Trim(reader.text));
  }

  // ── What building keeps ────────────────

  /** The text a token came from. */
  function Surface(t: Tok): string {
    match t case TextTok(text) => text case ChipTok(_, hit) => hit
  }

  function SurfaceOf(toks: seq<Tok>): string {
    if toks == [] then "" else Surface(toks[0]) + SurfaceOf(toks[1..])
  }

  lemma {:induction false} SurfaceConcat(a: seq<Tok>, b: seq<Tok>)
    ensures SurfaceOf(a + b) == SurfaceOf(a) + SurfaceOf(b)
  {
    if a == [] {
      assert a + b == b;
    } else {
      assert (a + b)[1..] == a[1..] + b;
      SurfaceConcat(a[1..], b);
    }
  }

  lemma SmallSurfaces(text: string, t: Tok)
    ensures SurfaceOf(TextPiece(text)) == text && SurfaceOf([t]) == Surface(t)
    ensures Chipped(TextPiece(text)) == multiset{}
    ensures Chipped([t]) == if t.ChipTok? then multiset{t.item} else multiset{}
  {
    assert [t][1..] == [] && [TextTok(text)][1..] == [];
  }

  lemma PiecesSurface(text: string, e: Item, at: nat, len: nat)
    requires at + len <= |text|
    ensures SurfaceOf(Pieces(text, e, at, len)) == text
    ensures Chipped(Pieces(text, e, at, len)) == multiset{e}
  {
    hide SurfaceOf, TextPiece, Chipped;
    var chip := ChipTok(e, text[at..at + len]);
    SmallSurfaces(text[..at], chip);
    SmallSurfaces(text[at + len..], chip);
    SurfaceConcat(TextPiece(text[..at]), [chip]);
    SurfaceConcat(TextPiece(text[..at]) + [chip], TextPiece(text[at + len..]));
    ChippedConcat(TextPiece(text[..at]), [chip]);
    ChippedConcat(TextPiece(text[..at]) + [chip], TextPiece(text[at + len..]));
    assert text == text[..at] + text[at..at + len] + text[at + len..];
  }

  lemma {:induction false} PlaceOneSurface(toks: seq<Tok>, e: Item, locate: Locator)
    requires InBounds(locate)
    ensures SurfaceOf(PlaceOne(toks, e, locate)) == SurfaceOf(toks)
  {
    if toks != [] {
      if toks[0].ChipTok? || locate(e.name, toks[0].text).None? {
        PlaceOneSurface(toks[1..], e, locate);
      } else {
        var (at, len) := locate(e.name, toks[0].text).value;
        PiecesSurface(toks[0].text, e, at, len);
        SurfaceConcat(Pieces(toks[0].text, e, at, len), toks[1..]);
      }
    }
  }

  lemma {:induction false} PlaceAllSurface(toks: seq<Tok>, items: seq<Item>, locate: Locator)
    requires InBounds(locate)
    ensures SurfaceOf(PlaceAll(toks, items, locate)) == SurfaceOf(toks)
    decreases |items|
  {
    if items != [] {
      PlaceOneSurface(toks, items[0], locate);
      PlaceAllSurface(PlaceOne(toks, items[0], locate), items[1..], locate);
    }
  }

  /** Chips and text pieces always partition the original text: nothing is lost, doubled or overlapped. */
  lemma TokensPartitionText(text: string, mentioned: seq<Item>, locate: Locator)
    requires InBounds(locate)
    ensures SurfaceOf(Tokens(text, mentioned, locate)) == text
  {
    PlaceAllSurface([TextTok(text)], Sort(LongerName(), mentioned), locate);
    assert [TextTok(text)][1..] == [];
  }

  function Chipped(toks: seq<Tok>): multiset<Item> {
    if toks == [] then multiset{}
    else (if toks[0].ChipTok? then multiset{toks[0].item} else multiset{}) + Chipped(toks[1..])
  }

  lemma {:induction false} ChippedConcat(a: seq<Tok>, b: seq<Tok>)
    ensures Chipped(a + b) == Chipped(a) + Chipped(b)
  {
    if a == [] {
      assert a + b == b;
    } else {
      assert (a + b)[1..] == a[1..] + b;
      ChippedConcat(a[1..], b);
    }
  }

  lemma {:induction false} PlaceOneChipped(toks: seq<Tok>, e: Item, locate: Locator)
    requires InBounds(locate)
    ensures Chipped(PlaceOne(toks, e, locate)) <= Chipped(toks) + multiset{e}
  {
    if toks != [] {
      if toks[0].ChipTok? || locate(e.name, toks[0].text).None? {
        PlaceOneChipped(toks[1..], e, locate);
      } else {
        var (at, len) := locate(e.name, toks[0].text).value;
        PiecesSurface(toks[0].text, e, at, len);
        ChippedConcat(Pieces(toks[0].text, e, at, len), toks[1..]);
      }
    }
  }

  lemma {:induction false} PlaceAllChipped(toks: seq<Tok>, items: seq<Item>, locate: Locator)
    requires InBounds(locate)
    ensures Chipped(PlaceAll(toks, items, locate)) <= Chipped(toks) + multiset(items)
    decreases |items|
  {
    if items != [] {
      PlaceOneChipped(toks, items[0], locate);
      PlaceAllChipped(PlaceOne(toks, items[0], locate), items[1..], locate);
      assert items == [items[0]] + items[1..];
    }
  }

  /** Each listed item becomes a chip at most once, and nothing else does. */
  lemma EachItemChipsAtMostOnce(text: string, mentioned: seq<Item>, locate: Locator)
    requires InBounds(locate)
    ensures Chipped(Tokens(text, mentioned, locate)) <= multiset(mentioned)
  {
    PlaceAllChipped([TextTok(text)], Sort(LongerName(), mentioned), locate);
    SortPermutes(LongerName(), mentioned);
    assert [TextTok(text)][1..] == [];
  }

  // ── The round trip ─────────────────────

  /** What the reader makes of one token. */
  function ReadTok(t: Tok, names: map<string, string>): string {
    match t
    case TextTok(text) => text
    case ChipTok(item, hit) => if item.id == "" then "" else if item.id in names then names[item.id] else hit
  }

  function ReadToks(toks: seq<Tok>, names: map<string, string>): string {
    if toks == [] then "" else ReadTok(toks[0], names) + ReadToks(toks[1..], names)
  }

  lemma {:induction false} ReadShown(toks: seq<Tok>, names: map<string, string>)
    ensures ReadToks(Shown(toks), names) == ReadToks(toks, names)
  {
    if toks != [] {
      ReadShown(toks[1..], names);
      assert Shown(toks) == if toks[0] == TextTok("") then Shown(toks[1..]) else [toks[0]] + Shown(toks[1..]);
      assert ReadTok(TextTok(""), names) + ReadToks(toks[1..], names) == ReadToks(toks[1..], names);
    }
  }

  lemma {:induction false} ReadContent(toks: seq<Tok>, p: Node, i: nat, names: map<string, string>)
    requires p.content == NodesOf(toks) && i <= |toks|
    ensures TextFrom(p, i, names) == ReadToks(toks[i..], names)
    decreases |toks| - i
  {
    if i < |toks| {
      ReadContent(toks, p, i + 1, names);
      assert TextFrom(TokNode(toks[i]), 0, names) == "";
      assert TextOf(p.content[i], names) == ReadTok(toks[i], names);
    }
  }

  lemma OnlyChild(node: Node, names: map<string, string>)
    requires |node.content| == 1
    ensures TextFrom(node, 0, names) == TextOf(node.content[0], names)
  {
    assert TextFrom(node, 1, names) == "";
    hide TextOf;
  }

  lemma ReadDoc(toks: seq<Tok>, names: map<string, string>)
    ensures TextOf(DocOf(toks), names) == ReadToks(toks, names) + "\n"
  {
    hide Shown, ReadToks, NodesOf, TextFrom;
    var p := Node(ParagraphKind, "", None, NodesOf(Shown(toks)));
    ReadContent(Shown(toks), p, 0, names);
    ReadShown(toks, names);
    assert Shown(toks)[0..] == Shown(toks);
    OnlyChild(DocOf(toks), names);
  }

  /** The reader falls back on the stored label of every chip that has an id. */
  ghost predicate LabelsStored(toks: seq<Tok>, names: map<string, string>) {
    forall t | t in toks && t.ChipTok? && t.item.id in names :: names[t.item.id] == t.hit
  }

  /** A chip without an id shows nothing, so it must have taken nothing. */
  ghost predicate NamelessAreEmpty(toks: seq<Tok>) {
    forall t | t in toks && t.ChipTok? && t.item.id == "" :: t.hit == ""
  }

  lemma {:induction false} ReadIsSurfaceIff(toks: seq<Tok>, names: map<string, string>)
    requires LabelsStored(toks, names)
    ensures |ReadToks(toks, names)| <= |SurfaceOf(toks)|
    ensures ReadToks(toks, names) == SurfaceOf(toks) <==> NamelessAreEmpty(toks)
  {
    if toks != [] {
      var rest := toks[1..];
      assert toks == [toks[0]] + rest;
      ReadIsSurfaceIff(rest, names);
      assert NamelessAreEmpty(toks) <==> NamelessAreEmpty([toks[0]]) && NamelessAreEmpty(rest);
      if ReadToks(toks, names) == SurfaceOf(toks) {
        assert |ReadTok(toks[0], names)| == |Surface(toks[0])|;
        assert ReadToks(toks, names)[|Surface(toks[0])|..] == ReadToks(rest, names);
        assert SurfaceOf(toks)[|Surface(toks[0])|..] == SurfaceOf(rest);
      }
    }
  }

  lemma {:induction false} TrimStartNewline(s: string)
    ensures TrimStart(s + "\n") == if TrimStart(s) == "" then "" else TrimStart(s) + "\n"
  {
    if s != "" {
      assert (s + "\n")[0] == s[0] && (s + "\n")[1..] == s[1..] + "\n";
      TrimStartNewline(s[1..]);
    } else {
      assert s + "\n" == "\n" && TrimStart("") == "";
    }
  }

  lemma TrimNewline(s: string)
    ensures Trim(s + "\n") == Trim(s)
  {
    TrimStartNewline(s);
    var t := TrimStart(s);
    assert (t + "\n")[..|t|] == t;
  }

  /**
   * Read back with stored labels, the document's text is the original plus the paragraph's line
   * break exactly when every chip without an id took an empty stretch.
   */
  lemma RoundTripIff(text: string, mentioned: seq<Item>, locate: Locator, names: map<string, string>)
    requires InBounds(locate) && LabelsStored(Tokens(text, mentioned, locate), names)
    ensures TextOf(DocOf(Tokens(text, mentioned, locate)), names) == text + "\n"
      <==> NamelessAreEmpty(Tokens(text, mentioned, locate))
  {
    var toks := Tokens(text, mentioned, locate);
    TokensPartitionText(text, mentioned, locate);
    ReadDoc(toks, names);
    ReadIsSurfaceIff(toks, names);
    hide Tokens, ReadToks, TextOf;
    if ReadToks(toks, names) + "\n" == text + "\n" {
      assert (ReadToks(toks, names) + "\n")[..|ReadToks(toks, names)|] == ReadToks(toks, names);
      assert (text + "\n")[..|text|] == text;
    }
  }

  lemma {:induction false} ChipsComeFromItems(toks: seq<Tok>, t: Tok)
    requires t in toks && t.ChipTok?
    ensures t.item in Chipped(toks)
  {
    if toks[0] != t {
      ChipsComeFromItems(toks[1..], t);
    }
  }

  /** So for items with ids, building and reading give back the trimmed original text. */
  lemma RoundTrip(text: string, mentioned: seq<Item>, locate: Locator, names: map<string, string>)
    requires InBounds(locate) && LabelsStored(Tokens(text, mentioned, locate), names)
    requires forall e | e in mentioned :: e.id != ""
    ensures Resolve(DocOf(Tokens(text, mentioned, locate)), names).text == Trim(text)
  {
    var toks := Tokens(text, mentioned, locate);
    EachItemChipsAtMostOnce(text, mentioned, locate);
    forall t | t in toks && t.ChipTok? ensures t.item.id != "" {
      ChipsComeFromItems(toks, t);
      assert t.item in multiset(mentioned);
    }
    RoundTripIff(text, mentioned, locate, names);
    TrimNewline(text);
  }

  // ── References and variants ────────────

  /** An entity's variant is the one its last chip names; a last chip without a variant clears it. */
  lemma {:induction false} LastChipDecides(sel: map<string, string>, chips: seq<Chip>, k: nat)
    requires k < |chips| && forall j | k < j < |chips| :: chips[j].id != chips[k].id
    ensures var r := BoundAll(sel, chips); var c := chips[k];
      if Present(c.variantId) then c.id in r && r[c.id] == c.variantId.value else c.id !in r
    decreases |chips|
  {
    if k > 0 {
      LastChipDecides(Bound(sel, chips[0]), chips[1..], k - 1);
    } else {
      OthersLeaveAlone(Bound(sel, chips[0]), chips[1..], chips[0].id);
    }
  }

  lemma {:induction false} OthersLeaveAlone(sel: map<string, string>, chips: seq<Chip>, id: string)
    requires forall j | 0 <= j < |chips| :: chips[j].id != id
    ensures (id in BoundAll(sel, chips)) == (id in sel)
    ensures id in sel ==> BoundAll(sel, chips)[id] == sel[id]
    decreases |chips|
  {
    if chips != [] {
      OthersLeaveAlone(Bound(sel, chips[0]), chips[1..], id);
    }
  }
}
