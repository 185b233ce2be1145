/** The paragraph buffer of one page (ingest/chunker.py:231-284): paragraphs are collected
    while their header stays the same and the character budget lasts, then flushed. */
module ProseGroups {
  import opened Basics
  import opened Numbers
  import opened Chunker
  import NumberRoundTrip

  type Group = g: seq<Paragraph> | g != [] witness [Paragraph("", Box(0.0, 0.0, 0.0, 0.0))]

  function HeaderOf(headers: seq<Header>, p: Paragraph): Option<string> {
    HeaderAbove(headers, p.box.y0)
  }

  /** What the budget counts: the separators are not part of it. */
  function TotalLength(g: seq<Paragraph>): nat {
    if g == [] then 0 else TotalLength(g[..|g| - 1]) + |g[|g| - 1].text|
  }

  predicate Fits(headers: seq<Header>, g: Group, p: Paragraph) {
    TotalLength(g) + |p.text| <= PROSE_CHUNK_CHARS && HeaderOf(headers, p) == HeaderOf(headers, g[0])
  }

  /** The groups that the buffer goes through. */
  function Groups(headers: seq<Header>, ps: seq<Paragraph>): seq<Group> {
    if ps == [] then []
    else AddTo(headers, Groups(headers, ps[..|ps| - 1]), ps[|ps| - 1])
  }

  function AddTo(headers: seq<Header>, gs: seq<Group>, p: Paragraph): seq<Group> {
    if gs != [] && Fits(headers, gs[|gs| - 1], p) then gs[..|gs| - 1] + [gs[|gs| - 1] + [p]] else gs + [[p]]
  }

  // ----- The chunks of a group -----

  /** `"\n".join(buf)` */
  function JoinLines(texts: seq<string>): string {
    if texts == [] then ""
    else if |texts| == 1 then texts[0]
    else JoinLines(texts[..|texts| - 1]) + "\n" + texts[|texts| - 1]
  }

  function Union(boxes: seq<Box>): Box
    requires boxes != []
  {
    var last := boxes[|boxes| - 1];
    if |boxes| == 1 then last
    else
      var u := Union(boxes[..|boxes| - 1]);
      Box(MinReal(u.x0, last.x0), MinReal(u.y0, last.y0), MaxReal(u.x1, last.x1), MaxReal(u.y1, last.y1))
  }

  /** Postgres rejects NUL. */
  function Clean(s: string): string {
    Remove(s, '\0')
  }

  function TitleOf(header: Option<string>): string {
    if header.Some? && header.value != "" then header.value + "\n\n" else ""
  }

  function Titled(header: Option<string>, piece: string): string {
    TitleOf(header) + piece
  }

  function CleanHeader(header: Option<string>): Option<string> {
    if header.Some? && header.value != "" then Some(Clean(header.value)) else None
  }

  function Texts(g: seq<Paragraph>): seq<string> {
    seq(|g|, i requires 0 <= i < |g| => g[i].text)
  }

  function Boxes(g: seq<Paragraph>): seq<Box> {
    seq(|g|, i requires 0 <= i < |g| => g[i].box)
  }

  function ProseOf(header: Option<string>, box: Box, pieces: seq<string>): seq<Prose> {
    seq(|pieces|, i requires 0 <= i < |pieces| => Prose(Clean(Titled(header, pieces[i])), CleanHeader(header), box))
  }

  function ChunksOf(headers: seq<Header>, g: Group): seq<Prose> {
    ProseOf(HeaderOf(headers, g[0]), Union(Boxes(g)), SplitPieces(JoinLines(Texts(g))))
  }

  function ChunksOfAll(headers: seq<Header>, gs: seq<Group>): seq<Prose> {
    if gs == [] then [] else ChunksOfAll(headers, gs[..|gs| - 1]) + ChunksOf(headers, gs[|gs| - 1])
  }

  lemma OneMore(g: seq<Paragraph>, p: Paragraph)
    ensures Texts(g + [p]) == Texts(g) + [p.text] && Boxes(g + [p]) == Boxes(g) + [p.box]
    ensures TotalLength(g + [p]) == TotalLength(g) + |p.text|
  {
    assert (g + [p])[..|g|] == g;
  }

  // ----- The buffer -----

  class ProseBuffer {
    var buf: seq<string>
    var bufLen: nat
    var bufHeader: Option<string>
    var bufBoxes: seq<Box>
    ghost var held: seq<Paragraph>

    ghost predicate Valid(headers: seq<Header>)
      reads this
    {
      && buf == Texts(held) && bufBoxes == Boxes(held) && bufLen == TotalLength(held)
      && bufHeader == (if held == [] then None else HeaderOf(headers, held[0]))
    }

    constructor (headers: seq<Header>)
      ensures Valid(headers) && held == []
    {
      buf, bufLen, bufHeader, bufBoxes, held := [], 0, None, [], [];
    }

    method Flush(headers: seq<Header>) returns (flushed: seq<Prose>)
      requires Valid(headers)
      modifies this
      ensures Valid(headers) && held == []
      ensures flushed == if old(held) == [] then [] else ChunksOf(headers, old(held))
    {
      if buf == [] {
        return [];
      }
      var pieces := SplitProse(JoinLines(buf));
      flushed := ProseOf(bufHeader, Union(bufBoxes), pieces);
      buf, bufLen, bufHeader, bufBoxes, held := [], 0, None, [], [];
    }

    /** One turn of the paragraph loop. */
    method Add(headers: seq<Header>, p: Paragraph) returns (flushed: seq<Prose>)
      requires Valid(headers)
      modifies this
      ensures Valid(headers)
      ensures if old(held) != [] && Fits(headers, old(held), p)
              then held == old(held) + [p] && flushed == []
              else held == [p] && flushed == if old(held) == [] then [] else ChunksOf(headers, old(held))
    {
      var header := NearestHeader(headers, p.box.y0);
      flushed := [];
      if buf != [] && (bufLen + |p.text| > PROSE_CHUNK_CHARS || header != bufHeader) {
        flushed := Flush(headers);
      }
      Extend(headers, p, header);
    }

    method Extend(headers: seq<Header>, p: Paragraph, header: Option<string>)
      requires Valid(headers) && header == HeaderOf(headers, p)
      requires held != [] ==> header == bufHeader
      modifies this
      ensures Valid(headers) && held == old(held) + [p]
    {
      OneMore(held, p);
      if bufHeader.None? {
        bufHeader := header;
      }
      buf := buf + [p.text];
      bufLen := bufLen + |p.text|;
      bufBoxes := bufBoxes + [p.box];
      held := held + [p];
    }
  }

  lemma FlushOneMore(headers: seq<Header>, gs: seq<Group>, g: Group)
    ensures ChunksOfAll(headers, gs + [g]) == ChunksOfAll(headers, gs) + ChunksOf(headers, g)
  {
    assert (gs + [g])[..|gs|] == gs;
  }

  /** The groups flushed so far, and the one in the buffer. */
  function WithHeld(flushed: seq<Group>, held: seq<Paragraph>): seq<Group> {
    if held == [] then flushed else flushed + [held]
  }

  lemma HoldOneMore(headers: seq<Header>, flushed: seq<Group>, held: seq<Paragraph>, p: Paragraph)
    requires held == [] ==> flushed == []
    ensures AddTo(headers, WithHeld(flushed, held), p)
            == if held != [] && Fits(headers, held, p) then WithHeld(flushed, held + [p])
               else WithHeld(WithHeld(flushed, held), [p])
  {
    if held != [] {
      assert (flushed + [held])[..|flushed|] == flushed;
    }
  }

  lemma GroupOneMore(headers: seq<Header>, ps: seq<Paragraph>, k: nat)
    requires k < |ps|
    ensures Groups(headers, ps[..k + 1]) == AddTo(headers, Groups(headers, ps[..k]), ps[k])
  {
    assert ps[..k + 1][..k] == ps[..k];
  }

  /** What has been flushed once the next paragraph is added. */
  function FlushedAfter(headers: seq<Header>, flushed: seq<Group>, held: seq<Paragraph>, p: Paragraph): seq<Group> {
    if held != [] && !Fits(headers, held, p) then flushed + [held] else flushed
  }

  lemma AddStep(headers: seq<Header>, flushed: seq<Group>, held: seq<Paragraph>, p: Paragraph)
    requires held == [] ==> flushed == []
    ensures var now := if held != [] && Fits(headers, held, p) then held + [p] else [p];
            WithHeld(FlushedAfter(headers, flushed, held, p), now) == AddTo(headers, WithHeld(flushed, held), p)
    ensures ChunksOfAll(headers, FlushedAfter(headers, flushed, held, p))
            == ChunksOfAll(headers, flushed)
               + (if held != [] && !Fits(headers, held, p) then ChunksOf(headers, held) else [])
  {
    HoldOneMore(headers, flushed, held, p);
    if held != [] && !Fits(headers, held, p) {
      FlushOneMore(headers, flushed, held);
    } else {
      assert ChunksOfAll(headers, flushed) + [] == ChunksOfAll(headers, flushed);
    }
  }

  method ChunkPage(headers: seq<Header>, paragraphs: seq<Paragraph>) returns (chunks: seq<Prose>)
    ensures chunks == ChunksOfAll(headers, Groups(headers, paragraphs))
  {
    chunks := [];
    var buffer := new ProseBuffer(headers);
    ghost var flushed: seq<Group> := [];
    for k := 0 to |paragraphs|
      invariant buffer.Valid(headers) && fresh(buffer)
      invariant chunks == ChunksOfAll(headers, flushed)
      invariant Groups(headers, paragraphs[..k]) == WithHeld(flushed, buffer.held)
      invariant buffer.held == [] ==> flushed == []
    {
      GroupOneMore(headers, paragraphs, k);
      AddStep(headers, flushed, buffer.held, paragraphs[k]);
      flushed := FlushedAfter(headers, flushed, buffer.held, paragraphs[k]);
      var more := buffer.Add(headers, paragraphs[k]);
      chunks := chunks + more;
    }
    assert paragraphs[..|paragraphs|] == paragraphs;
    if buffer.held != [] {
      FlushOneMore(headers, flushed, buffer.held);
    }
    var more := buffer.Flush(headers);
    chunks := chunks + more;
  }

  // ----- What the grouping is -----

  function Concat(gs: seq<Group>): seq<Paragraph> {
    if gs == [] then [] else Concat(gs[..|gs| - 1]) + gs[|gs| - 1]
  }

  predicate SharesHeader(headers: seq<Header>, g: Group) {
    forall i :: 0 <= i < |g| ==> HeaderOf(headers, g[i]) == HeaderOf(headers, g[0])
  }

  /** Groups in order that together are the page's paragraphs; each under one header and,
      unless it is a single paragraph, within the budget; and none could have taken in the
      paragraph that starts the next. */
  predicate IsGrouping(headers: seq<Header>, gs: seq<Group>, ps: seq<Paragraph>) {
    && Concat(gs) == ps
    && (forall i :: 0 <= i < |gs| ==>
          SharesHeader(headers, gs[i]) && (|gs[i]| == 1 || TotalLength(gs[i]) <= 1600))
    && (forall i :: 0 <= i < |gs| - 1 ==>
          || TotalLength(gs[i]) + |gs[i + 1][0].text| > 1600
          || HeaderOf(headers, gs[i + 1][0]) != HeaderOf(headers, gs[i][0]))
  }

  lemma ConcatOneMore(gs: seq<Group>, g: Group)
    ensures Concat(gs + [g]) == Concat(gs) + g
  {
    assert (gs + [g])[..|gs|] == gs;
  }

  lemma {:induction false} ExtendKeepsGrouping(headers: seq<Header>, front: seq<Group>, g: Group,
                                               ps: seq<Paragraph>, p: Paragraph)
    requires IsGrouping(headers, front + [g], ps) && Fits(headers, g, p)
    ensures IsGrouping(headers, front + [g + [p]], ps + [p])
  {
    var before, after: seq<Group> := front + [g], front + [g + [p]];
    OneMore(g, p);
    ConcatOneMore(front, g);
    ConcatOneMore(front, g + [p]);
    assert Concat(after) == ps + [p];
    assert SharesHeader(headers, before[|front|]);
    assert SharesHeader(headers, g + [p]);
    assert forall i :: 0 <= i < |front| ==> after[i] == before[i];
    assert forall i :: 0 <= i <= |front| ==> after[i][0] == before[i][0];
  }

  lemma {:induction false} StartKeepsGrouping(headers: seq<Header>, gs: seq<Group>, ps: seq<Paragraph>, p: Paragraph)
    requires IsGrouping(headers, gs, ps) && (gs != [] ==> !Fits(headers, gs[|gs| - 1], p))
    ensures IsGrouping(headers, gs + [[p]], ps + [p])
  {
    var after: seq<Group> := gs + [[p]];
    ConcatOneMore(gs, [p]);
    assert forall i :: 0 <= i < |gs| ==> after[i] == gs[i];
    assert after[|gs|] == [p];
  }

  lemma AddKeepsGrouping(headers: seq<Header>, gs: seq<Group>, ps: seq<Paragraph>, p: Paragraph)
    requires IsGrouping(headers, gs, ps)
    ensures IsGrouping(headers, AddTo(headers, gs, p), ps + [p])
  {
    if gs != [] && Fits(headers, gs[|gs| - 1], p) {
      assert gs == gs[..|gs| - 1] + [gs[|gs| - 1]];
      ExtendKeepsGrouping(headers, gs[..|gs| - 1], gs[|gs| - 1], ps, p);
    } else {
      StartKeepsGrouping(headers, gs, ps, p);
    }
  }

  /** The buffer groups the paragraphs so. */
  lemma {:induction false} GroupsAreGrouping(headers: seq<Header>, ps: seq<Paragraph>)
    ensures IsGrouping(headers, Groups(headers, ps), ps)
  {
    if ps == [] {
    } else {
      GroupsAreGrouping(headers, ps[..|ps| - 1]);
      AddKeepsGrouping(headers, Groups(headers, ps[..|ps| - 1]), ps[..|ps| - 1], ps[|ps| - 1]);
      assert ps == ps[..|ps| - 1] + [ps[|ps| - 1]];
    }
  }

  /** The grouping without its last paragraph. */
  function Shortened(gs: seq<Group>): seq<Group>
    requires gs != []
  {
    var front, g := gs[..|gs| - 1], gs[|gs| - 1];
    if |g| == 1 then front else front + [g[..|g| - 1]]
  }

  lemma {:induction false} LastOfGrouping(headers: seq<Header>, gs: seq<Group>, ps: seq<Paragraph>)
    requires gs != [] && Concat(gs) == ps
    ensures var g := gs[|gs| - 1];
            ps != [] && ps[|ps| - 1] == g[|g| - 1] && ps[..|ps| - 1] == Concat(gs[..|gs| - 1]) + g[..|g| - 1]
  {
    var front, g := gs[..|gs| - 1], gs[|gs| - 1];
    assert gs == front + [g];
    ConcatOneMore(front, g);
    LastOfSum(Concat(front), g);
  }

  lemma LastOfSum(a: seq<Paragraph>, g: Group)
    ensures var ps := a + g;
            ps != [] && ps[|ps| - 1] == g[|g| - 1] && ps[..|ps| - 1] == a + g[..|g| - 1]
  {}

  /** The last group, less its last paragraph. */
  lemma {:induction false} LessIsGrouping(headers: seq<Header>, front: seq<Group>, less: Group, p: Paragraph,
                                          ps: seq<Paragraph>)
    requires IsGrouping(headers, front + [less + [p]], ps)
    ensures IsGrouping(headers, front + [less], Concat(front) + less)
  {
    var gs, shorter := front + [less + [p]], front + [less];
    ConcatOneMore(front, less);
    OneMore(less, p);
    assert gs[|front|] == less + [p] && (less + [p])[0] == less[0];
    assert forall i :: 0 <= i < |less| ==> (less + [p])[i] == less[i];
    assert forall i :: 0 <= i < |front| ==> gs[i] == shorter[i];
    assert forall i :: 0 < i < |shorter| ==> gs[i][0] == shorter[i][0];
  }

  lemma {:induction false} FrontIsGrouping(headers: seq<Header>, front: seq<Group>, g: Group, ps: seq<Paragraph>)
    requires IsGrouping(headers, front + [g], ps)
    ensures IsGrouping(headers, front, Concat(front))
  {
    assert forall i :: 0 <= i < |front| ==> (front + [g])[i] == front[i];
  }

  lemma {:induction false} AddsToLast(headers: seq<Header>, front: seq<Group>, less: Group, p: Paragraph)
    requires SharesHeader(headers, less + [p]) && TotalLength(less + [p]) <= 1600
    ensures AddTo(headers, front + [less], p) == front + [less + [p]]
  {
    OneMore(less, p);
    assert (less + [p])[|less|] == p && (less + [p])[0] == less[0];
    assert (front + [less])[..|front|] == front;
  }

  lemma {:induction false} StartsAnew(headers: seq<Header>, front: seq<Group>, p: Paragraph, ps: seq<Paragraph>)
    requires IsGrouping(headers, front + [[p]], ps)
    ensures AddTo(headers, front, p) == front + [[p]]
  {
    var gs := front + [[p]];
    if front != [] {
      assert gs[|front| - 1] == front[|front| - 1] && gs[|front| - 1 + 1][0] == p;
    }
  }

  lemma {:induction false} AddsBack(headers: seq<Header>, front: seq<Group>, less: seq<Paragraph>,
                                    p: Paragraph, ps: seq<Paragraph>)
    requires IsGrouping(headers, front + [less + [p]], ps)
    ensures AddTo(headers, if less == [] then front else front + [less], p) == front + [less + [p]]
  {
    if less == [] {
      assert less + [p] == [p];
      StartsAnew(headers, front, p, ps);
    } else {
      assert (front + [less + [p]])[|front|] == less + [p];
      AddsToLast(headers, front, less, p);
    }
  }

  lemma {:induction false} ShortenedIsGrouping(headers: seq<Header>, gs: seq<Group>, ps: seq<Paragraph>)
    requires gs != [] && IsGrouping(headers, gs, ps)
    ensures ps != [] && IsGrouping(headers, Shortened(gs), ps[..|ps| - 1])
    ensures AddTo(headers, Shortened(gs), ps[|ps| - 1]) == gs
  {
    var front, g := gs[..|gs| - 1], gs[|gs| - 1];
    var less, p := g[..|g| - 1], g[|g| - 1];
    assert gs == front + [g] && g == less + [p];
    LastOfGrouping(headers, gs, ps);
    AddsBack(headers, front, less, p, ps);
    if less == [] {
      FrontIsGrouping(headers, front, g, ps);
      assert Concat(front) + less == Concat(front);
    } else {
      LessIsGrouping(headers, front, less, p, ps);
    }
  }

  /** No other grouping has these properties: they say exactly what the buffer does. */
  lemma {:induction false} GroupingIsUnique(headers: seq<Header>, gs: seq<Group>, ps: seq<Paragraph>)
    requires IsGrouping(headers, gs, ps)
    ensures gs == Groups(headers, ps)
    decreases |ps|
  {
    if gs == [] {
    } else {
      ShortenedIsGrouping(headers, gs, ps);
      GroupingIsUnique(headers, Shortened(gs), ps[..|ps| - 1]);
    }
  }

  // ----- The union box -----

  predicate Contains(outer: Box, inner: Box) {
    outer.x0 <= inner.x0 && outer.y0 <= inner.y0 && outer.x1 >= inner.x1 && outer.y1 >= inner.y1
  }

  /** The box of a chunk contains the box of every paragraph of its group, and every box
      that does so contains it. */
  lemma {:induction false} UnionIsLeast(boxes: seq<Box>, other: Box)
    requires boxes != []
    ensures forall i :: 0 <= i < |boxes| ==> Contains(Union(boxes), boxes[i])
    ensures (forall i :: 0 <= i < |boxes| ==> Contains(other, boxes[i])) ==> Contains(other, Union(boxes))
  {
    if |boxes| <= 1 {
    } else {
      UnionIsLeast(boxes[..|boxes| - 1], other);
    }
  }

  // ----- Nothing is lost on a page -----

  /** Where paragraph i starts in the joined text of its group. */
  function OffsetIn(texts: seq<string>, i: nat): nat
    requires i < |texts|
  {
    if i == 0 then 0 else OffsetIn(texts, i - 1) + |texts[i - 1]| + 1
  }

  lemma {:induction false} LineIsInJoined(texts: seq<string>, i: nat)
    requires i < |texts|
    ensures OffsetIn(texts, i) + |texts[i]| <= |JoinLines(texts)|
    ensures JoinLines(texts)[OffsetIn(texts, i)..OffsetIn(texts, i) + |texts[i]|] == texts[i]
    ensures i == |texts| - 1 ==> OffsetIn(texts, i) + |texts[i]| == |JoinLines(texts)|
    decreases |texts|
  {
    var n := |texts|;
    if n <= 1 {
    } else {
      var front := texts[..n - 1];
      OffsetOfFront(texts, if i < n - 1 then i else n - 2);
      if i < n - 1 {
        LineIsInJoined(front, i);
      } else {
        LineIsInJoined(front, n - 2);
      }
    }
  }

  /** Between two lines there is one line break. */
  lemma LineBreaksOff(texts: seq<string>, i: nat)
    requires i < |texts| - 1
    ensures var end := OffsetIn(texts, i) + |texts[i]|;
            end < |JoinLines(texts)| && JoinLines(texts)[end] == '\n' && OffsetIn(texts, i + 1) == end + 1
  {
    LineIsInJoined(texts, i + 1);
    BreakInJoined(texts, i);
  }

  lemma {:induction false} BreakInJoined(texts: seq<string>, i: nat)
    requires i < |texts| - 1
    ensures OffsetIn(texts, i) + |texts[i]| < |JoinLines(texts)|
    ensures JoinLines(texts)[OffsetIn(texts, i) + |texts[i]|] == '\n'
    decreases |texts|
  {
    var front := texts[..|texts| - 1];
    OffsetOfFront(texts, i);
    if i == |texts| - 2 {
      LineIsInJoined(front, i);
    } else {
      BreakInJoined(front, i);
    }
  }

  lemma {:induction false} OffsetOfFront(texts: seq<string>, i: nat)
    requires i < |texts| - 1
    ensures OffsetIn(texts, i) == OffsetIn(texts[..|texts| - 1], i)
  {
    if i <= 0 {
    } else {
      OffsetOfFront(texts, i - 1);
    }
  }

  lemma {:induction false} ParagraphIsGrouped(gs: seq<Group>, i: nat) returns (g: Group, j: nat)
    requires i < |Concat(gs)|
    ensures g in gs && j < |g| && g[j] == Concat(gs)[i]
  {
    var front, last := gs[..|gs| - 1], gs[|gs| - 1];
    if i < |Concat(front)| {
      g, j := ParagraphIsGrouped(front, i);
    } else {
      g, j := last, i - |Concat(front)|;
    }
  }

  lemma {:induction false} GroupIsFlushed(headers: seq<Header>, gs: seq<Group>, g: Group, c: Prose)
    requires g in gs && c in ChunksOf(headers, g)
    ensures c in ChunksOfAll(headers, gs)
  {
    if g == gs[|gs| - 1] {
    } else {
      GroupIsFlushed(headers, gs[..|gs| - 1], g, c);
    }
  }

  lemma CharacterIsInPiece(g: Group, j: nat, q: nat) returns (piece: string, w: Window, p: nat)
    requires j < |g| && q < |g[j].text| && !IsSpace(g[j].text[q])
    ensures p == OffsetIn(Texts(g), j) + q && piece in SplitPieces(JoinLines(Texts(g)))
    ensures IsPieceAt(JoinLines(Texts(g)), piece, w, p) && piece[p - w.start] == g[j].text[q]
  {
    var joined, at := JoinLines(Texts(g)), OffsetIn(Texts(g), j);
    LineIsInJoined(Texts(g), j);
    p := at + q;
    assert joined[at..at + |Texts(g)[j]|][q] == joined[p];
    piece, w := NothingButBlanksIsLost(joined, p);
  }

  /** The chunk that a piece of a group becomes. */
  function ChunkOf(headers: seq<Header>, g: Group, piece: string): Prose {
    Prose(Clean(Titled(HeaderOf(headers, g[0]), piece)), CleanHeader(HeaderOf(headers, g[0])), Union(Boxes(g)))
  }

  lemma PieceBecomesChunk(headers: seq<Header>, gs: seq<Group>, g: Group, piece: string)
    requires g in gs && piece in SplitPieces(JoinLines(Texts(g)))
    ensures ChunkOf(headers, g, piece) in ChunksOfAll(headers, gs)
  {
    var pieces := SplitPieces(JoinLines(Texts(g)));
    var k :| 0 <= k < |pieces| && pieces[k] == piece;
    assert ChunksOf(headers, g)[k] == ChunkOf(headers, g, piece);
    GroupIsFlushed(headers, gs, g, ChunkOf(headers, g, piece));
  }

  lemma BoxIsInUnion(g: Group, j: nat)
    requires j < |g|
    ensures Contains(Union(Boxes(g)), g[j].box)
  {
    UnionIsLeast(Boxes(g), g[j].box);
    assert Boxes(g)[j] == g[j].box;
  }

  lemma HeaderIsShared(headers: seq<Header>, ps: seq<Paragraph>, g: Group, j: nat)
    requires g in Groups(headers, ps) && j < |g|
    ensures HeaderOf(headers, g[j]) == HeaderOf(headers, g[0])
  {
    GroupsAreGrouping(headers, ps);
    assert SharesHeader(headers, g);
  }

  /** Where a character that is kept is once the others are removed. */
  lemma KeptCharacter(s: string, c: char, k: nat)
    requires k < |s| && s[k] != c
    ensures |Remove(s[..k], c)| < |Remove(s, c)| && Remove(s, c)[|Remove(s[..k], c)|] == s[k]
  {
    assert s == s[..k] + s[k..] && s[k..][0] == s[k];
    NumberRoundTrip.RemoveAppend(s[..k], s[k..], c);
  }

  /** The place in a chunk's text of the character at k of its piece. */
  function PlaceInChunk(header: Option<string>, piece: string, k: nat): nat
    requires k <= |piece|
  {
    |Clean(TitleOf(header))| + |Clean(piece[..k])|
  }

  predicate HasAt(s: string, k: nat, c: char) { k < |s| && s[k] == c }

  lemma CharacterIsInChunk(header: Option<string>, piece: string, k: nat)
    requires k < |piece| && piece[k] != '\0'
    ensures HasAt(Clean(Titled(header, piece)), PlaceInChunk(header, piece, k), piece[k])
  {
    var title := TitleOf(header);
    assert (title + piece)[..|title| + k] == title + piece[..k];
    NumberRoundTrip.RemoveAppend(title, piece[..k], '\0');
    KeptCharacter(title + piece, '\0', |title| + k);
  }

  /** The chunk of the piece has the character, at the place of the piece's character k. */
  predicate InChunk(headers: seq<Header>, g: Group, piece: string, k: nat, c: char) {
    k < |piece| && HasAt(ChunkOf(headers, g, piece).text, PlaceInChunk(HeaderOf(headers, g[0]), piece, k), c)
  }

  /** A chunk under a header says so: the header, a blank line, then the piece. */
  predicate IsTitled(chunk: Prose, header: Option<string>, piece: string) {
    if header.Some? && header.value != "" then
      chunk.header == Some(Clean(header.value)) && chunk.text == Clean(header.value) + "\n\n" + Clean(piece)
    else chunk.header.None? && chunk.text == Clean(piece)
  }

  lemma ChunkIsTitled(headers: seq<Header>, g: Group, piece: string)
    ensures IsTitled(ChunkOf(headers, g, piece), HeaderOf(headers, g[0]), piece)
  {
    var header := HeaderOf(headers, g[0]);
    if header.Some? && header.value != "" {
      NumberRoundTrip.RemoveAppend(header.value + "\n\n", piece, '\0');
      NumberRoundTrip.RemoveAppend(header.value, "\n\n", '\0');
      NumberRoundTrip.RemoveNothing("\n\n", '\0');
    } else {
      assert "" + piece == piece;
    }
  }

  /** Each piece of a group becomes one chunk, in order, under the group's header and in the
      group's box. */
  lemma GroupIsChunked(headers: seq<Header>, g: Group, k: nat)
    requires k < |SplitPieces(JoinLines(Texts(g)))|
    ensures |ChunksOf(headers, g)| == |SplitPieces(JoinLines(Texts(g)))|
    ensures IsTitled(ChunksOf(headers, g)[k], HeaderOf(headers, g[0]), SplitPieces(JoinLines(Texts(g)))[k])
    ensures ChunksOf(headers, g)[k].box == Union(Boxes(g))
  {
    var piece := SplitPieces(JoinLines(Texts(g)))[k];
    assert ChunksOf(headers, g)[k] == ChunkOf(headers, g, piece);
    ChunkIsTitled(headers, g, piece);
  }

  lemma {:induction false} PieceShowsCharacter(headers: seq<Header>, g: Group, piece: string, k: nat, c: char)
    requires k < |piece| && piece[k] == c != '\0'
    ensures InChunk(headers, g, piece, k, c)
  {
    CharacterIsInChunk(HeaderOf(headers, g[0]), piece, k);
  }

  lemma {:induction false} CharacterIsInGroup(headers: seq<Header>, gs: seq<Group>, g: Group, j: nat, q: nat)
      returns (piece: string, w: Window, p: nat)
    requires g in gs && j < |g| && q < |g[j].text| && !IsSpace(g[j].text[q]) && g[j].text[q] != '\0'
    ensures p == OffsetIn(Texts(g), j) + q && IsPieceAt(JoinLines(Texts(g)), piece, w, p)
    ensures ChunkOf(headers, g, piece) in ChunksOfAll(headers, gs)
    ensures InChunk(headers, g, piece, p - w.start, g[j].text[q])
  {
    piece, w, p := CharacterIsInPiece(g, j, q);
    PlaceIsInChunk(headers, gs, g, piece, w, p, g[j].text[q]);
  }

  lemma {:induction false} PlaceIsInChunk(headers: seq<Header>, gs: seq<Group>, g: Group, piece: string, w: Window,
                                          p: nat, c: char)
    requires g in gs && piece in SplitPieces(JoinLines(Texts(g)))
    requires IsPieceAt(JoinLines(Texts(g)), piece, w, p) && piece[p - w.start] == c != '\0'
    ensures ChunkOf(headers, g, piece) in ChunksOfAll(headers, gs)
    ensures InChunk(headers, g, piece, p - w.start, c)
  {
    PieceBecomesChunk(headers, gs, g, piece);
    PieceShowsCharacter(headers, g, piece, p - w.start, c);
  }

  /** Every character of every paragraph of the page, other than whitespace and the NULs that
      are removed, is in the text of a chunk of the page: of the piece that covers its place
      in the joined text of its group, after the title, less the NULs before it. The chunk has
      the paragraph's header, and its box contains the paragraph's. */
  lemma NothingOnThePageIsLost(headers: seq<Header>, ps: seq<Paragraph>, i: nat, q: nat)
      returns (g: Group, j: nat, piece: string, w: Window, p: nat)
    requires i < |ps| && q < |ps[i].text| && !IsSpace(ps[i].text[q]) && ps[i].text[q] != '\0'
    ensures g in Groups(headers, ps) && j < |g| && g[j] == ps[i]
    ensures p == OffsetIn(Texts(g), j) + q && IsPieceAt(JoinLines(Texts(g)), piece, w, p)
    ensures ChunkOf(headers, g, piece) in ChunksOfAll(headers, Groups(headers, ps))
    ensures InChunk(headers, g, piece, p - w.start, ps[i].text[q])
    ensures HeaderOf(headers, g[0]) == HeaderOf(headers, ps[i])
    ensures Contains(ChunkOf(headers, g, piece).box, ps[i].box)
  {
    GroupsAreGrouping(headers, ps);
    g, j := ParagraphIsGrouped(Groups(headers, ps), i);
    piece, w, p := CharacterIsInGroup(headers, Groups(headers, ps), g, j, q);
    HeaderIsShared(headers, ps, g, j);
    BoxIsInUnion(g, j);
  }
}
