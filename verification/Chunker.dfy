/** Prose chunking (ingest/chunker.py): the nearest header above a paragraph, paragraphs
    grouped under it, and the groups cut into overlapping windows. */
module Chunker {
  import opened Basics
  import opened Numbers

  const PROSE_CHUNK_CHARS: nat := 1600
  const PROSE_CHUNK_OVERLAP_CHARS: nat := 200
  const STEP: nat := PROSE_CHUNK_CHARS - PROSE_CHUNK_OVERLAP_CHARS

  datatype Box = Box(x0: real, y0: real, x1: real, y1: real)

  datatype Header = Header(y: real, text: string)

  datatype Paragraph = Paragraph(text: string, box: Box)

  datatype Prose = Prose(text: string, header: Option<string>, box: Box)

  // ----- The nearest header -----

  /** Above y, or level with it. A header at or above -1 is never taken. */
  predicate IsAbove(h: Header, y: real) {
    -1.0 < h.y <= y
  }

  /** The lowest of the headers above y, and the first of those that are level. */
  ghost predicate IsNearest(headers: seq<Header>, y: real, i: nat) {
    && i < |headers| && IsAbove(headers[i], y)
    && (forall j :: 0 <= j < |headers| && IsAbove(headers[j], y) ==> headers[j].y <= headers[i].y)
    && (forall j :: 0 <= j < i && IsAbove(headers[j], y) ==> headers[j].y < headers[i].y)
  }

  ghost predicate IsNearestText(headers: seq<Header>, y: real, best: Option<string>) {
    if best.None? then forall j :: 0 <= j < |headers| ==> !IsAbove(headers[j], y)
    else exists i: nat :: IsNearest(headers, y, i) && best == Some(headers[i].text)
  }

  function BestY(headers: seq<Header>, y: real): real {
    if headers == [] then -1.0
    else
      var best, h := BestY(headers[..|headers| - 1], y), headers[|headers| - 1];
      if h.y <= y && h.y > best then h.y else best
  }

  function HeaderAbove(headers: seq<Header>, y: real): Option<string> {
    if headers == [] then None
    else
      var front, h := headers[..|headers| - 1], headers[|headers| - 1];
      if h.y <= y && h.y > BestY(front, y) then Some(h.text) else HeaderAbove(front, y)
  }

  method NearestHeader(headers: seq<Header>, y: real) returns (best: Option<string>)
    ensures IsNearestText(headers, y, best)
    ensures best == HeaderAbove(headers, y)
  {
    best := None;
    var bestY := -1.0;
    ghost var at := 0;
    for k := 0 to |headers|
      invariant best == HeaderAbove(headers[..k], y) && bestY == BestY(headers[..k], y)
      invariant best.None? ==> bestY == -1.0 && forall j :: 0 <= j < k ==> !IsAbove(headers[j], y)
      invariant best.Some? ==>
        IsNearest(headers[..k], y, at) && best == Some(headers[at].text) && bestY == headers[at].y
    {
      var h := headers[k];
      assert headers[..k + 1][..k] == headers[..k];
      if h.y <= y && h.y > bestY {
        bestY := h.y;
        best := Some(h.text);
        at := k;
      }
    }
    assert headers[..|headers|] == headers;
  }

  // ----- Windows over a text -----

  datatype Window = Window(start: nat, end: nat)

  function Min(a: nat, b: nat): nat { if a < b then a else b }

  /** The windows of a text of length n, from `start` on. */
  function WindowsFrom(n: nat, start: nat): (ws: seq<Window>)
    ensures ws != []
    decreases n - start
  {
    var w := Window(start, Min(start + PROSE_CHUNK_CHARS, n));
    if start + PROSE_CHUNK_CHARS >= n then [w] else [w] + WindowsFrom(n, start + STEP)
  }

  function Windows(n: nat): seq<Window> {
    WindowsFrom(n, 0)
  }

  function TextIn(text: string, w: Window): string
    requires w.start <= w.end <= |text|
  {
    text[w.start..w.end]
  }

  predicate IsBlank(s: string) {
    All(s, IsSpace)
  }

  function WindowAt(text: string, start: nat): string
    requires start <= |text|
  {
    text[start..Min(start + PROSE_CHUNK_CHARS, |text|)]
  }

  function Kept(window: string): seq<string> {
    if IsBlank(window) then [] else [window]
  }

  /** The windows of the text from `start` on that are not blank. */
  function KeptFrom(text: string, start: nat): seq<string>
    requires start <= |text|
    decreases |text| - start
  {
    Kept(WindowAt(text, start))
    + (if start + PROSE_CHUNK_CHARS >= |text| then [] else KeptFrom(text, start + STEP))
  }

  /** A short text is kept even if it is blank. */
  function SplitPieces(text: string): seq<string> {
    if |text| <= PROSE_CHUNK_CHARS then [text] else KeptFrom(text, 0)
  }

  lemma {:induction false} WindowsAreInside(n: nat, start: nat)
    requires start <= n
    ensures forall w :: w in WindowsFrom(n, start) ==> w.start <= w.end <= n && w.end - w.start <= PROSE_CHUNK_CHARS
    decreases n - start
  {
    if start + PROSE_CHUNK_CHARS >= n {
    } else {
      WindowsAreInside(n, start + STEP);
    }
  }

  method SplitProse(text: string) returns (chunks: seq<string>)
    ensures chunks == SplitPieces(text)
  {
    if |text| <= PROSE_CHUNK_CHARS {
      return [text];
    }
    chunks := [];
    var start := 0;
    while start < |text|
      invariant start < |text|
      invariant KeptFrom(text, 0) == chunks + KeptFrom(text, start)
      decreases |text| - start
    {
      var window := WindowAt(text, start);
      KeptStep(chunks, text, start);
      if !IsBlank(window) {
        chunks := chunks + [window];
      }
      if start + PROSE_CHUNK_CHARS >= |text| {
        return;
      }
      start := start + STEP;
    }
  }

  lemma KeptStep(chunks: seq<string>, text: string, start: nat)
    requires start <= |text|
    ensures chunks + KeptFrom(text, start)
            == (if IsBlank(WindowAt(text, start)) then chunks else chunks + [WindowAt(text, start)])
               + (if start + PROSE_CHUNK_CHARS >= |text| then [] else KeptFrom(text, start + STEP))
  {
    Regroup(chunks, Kept(WindowAt(text, start)),
            if start + PROSE_CHUNK_CHARS >= |text| then [] else KeptFrom(text, start + STEP));
  }

  lemma Regroup(a: seq<string>, b: seq<string>, c: seq<string>)
    ensures a + (b + c) == (a + b) + c && a + [] == a
  {}

  // ----- What the windows cover -----

  predicate Follows(w: Window, v: Window) {
    && v.start == w.start + 1400
    && w.end - v.start == 200
    && v.end > w.end
  }

  /** Each window is non-empty and within the budget; the next one overlaps it by exactly
      200 and reaches further. */
  predicate March(ws: seq<Window>) {
    && (forall i :: 0 <= i < |ws| ==> 0 < ws[i].end - ws[i].start <= 1600)
    && (forall i :: 0 <= i < |ws| - 1 ==> Follows(ws[i], ws[i + 1]))
  }

  lemma Prepend(w: Window, ws: seq<Window>)
    requires March(ws) && ws != [] && Follows(w, ws[0]) && 0 < w.end - w.start <= 1600
    ensures March([w] + ws)
  {
    var all := [w] + ws;
    assert forall i :: 1 <= i < |all| ==> all[i] == ws[i - 1];
  }

  /** The windows march from the start to the end of the text. */
  lemma {:induction false} WindowsMarch(n: nat, start: nat)
    requires start < n
    ensures var ws := WindowsFrom(n, start); March(ws) && ws[0].start == start && ws[|ws| - 1].end == n
    decreases n - start
  {
    if start + PROSE_CHUNK_CHARS >= n {
    } else {
      WindowsMarch(n, start + STEP);
      Prepend(Window(start, start + PROSE_CHUNK_CHARS), WindowsFrom(n, start + STEP));
    }
  }

  /** The text, put together again from the windows with the overlaps taken off. */
  function Reassembled(text: string, ws: seq<Window>): string
    requires forall w :: w in ws ==> w.start <= w.end <= |text|
  {
    if ws == [] then ""
    else if |ws| == 1 then TextIn(text, ws[0])
    else
      var first := TextIn(text, ws[0]);
      first[..Min(STEP, |first|)] + Reassembled(text, ws[1..])
  }

  lemma {:induction false} WindowsReassemble(text: string, start: nat)
    requires start < |text|
    requires forall w :: w in WindowsFrom(|text|, start) ==> w.start <= w.end <= |text|
    ensures Reassembled(text, WindowsFrom(|text|, start)) == text[start..]
    decreases |text| - start
  {
    var n := |text|;
    if start + PROSE_CHUNK_CHARS < n {
      var ws, more := WindowsFrom(n, start), WindowsFrom(n, start + STEP);
      assert ws[1..] == more;
      WindowsReassemble(text, start + STEP);
      assert text[start..] == text[start..start + STEP] + text[start + STEP..];
    } else {
      assert WindowsFrom(n, start) == [Window(start, n)];
    }
  }

  predicate Covers(w: Window, p: nat) {
    w.start <= p < w.end
  }

  lemma {:induction false} SomeWindowCovers(n: nat, start: nat, p: nat) returns (w: Window)
    requires start <= p < n
    ensures w in WindowsFrom(n, start) && Covers(w, p)
    decreases n - start
  {
    if p < start + STEP || start + PROSE_CHUNK_CHARS >= n {
      w := WindowsFrom(n, start)[0];
    } else {
      w := SomeWindowCovers(n, start + STEP, p);
    }
  }

  lemma {:induction false} KeptIfNotBlank(text: string, start: nat, w: Window)
    requires start <= |text| && w in WindowsFrom(|text|, start)
    requires w.start <= w.end <= |text| && !IsBlank(TextIn(text, w))
    ensures TextIn(text, w) in KeptFrom(text, start)
    decreases |text| - start
  {
    var first := Window(start, Min(start + PROSE_CHUNK_CHARS, |text|));
    if w == first {
      assert Kept(WindowAt(text, start)) == [TextIn(text, w)];
    } else {
      KeptIfNotBlank(text, start + STEP, w);
    }
  }

  lemma {:induction false} KeptAreWindows(text: string, start: nat, piece: string)
    requires start <= |text| && piece in KeptFrom(text, start)
    ensures exists w :: w in WindowsFrom(|text|, start) && w.start <= w.end <= |text| && piece == TextIn(text, w)
    decreases |text| - start
  {
    var w := WindowsFrom(|text|, start)[0];
    if piece == TextIn(text, w) {
    } else {
      KeptAreWindows(text, start + STEP, piece);
    }
  }

  /** The piece is the part of the text from w.start to w.end, and p is inside. */
  predicate IsPieceAt(text: string, piece: string, w: Window, p: nat) {
    w.start <= w.end <= |text| && piece == TextIn(text, w) && Covers(w, p)
  }

  /** Nothing but whitespace is lost: every other character of the text is in a piece, at
      its place. */
  lemma NothingButBlanksIsLost(text: string, p: nat) returns (piece: string, w: Window)
    requires p < |text| && !IsSpace(text[p])
    ensures piece in SplitPieces(text) && IsPieceAt(text, piece, w, p)
  {
    if |text| <= PROSE_CHUNK_CHARS {
      piece, w := text, Window(0, |text|);
    } else {
      WindowsAreInside(|text|, 0);
      w := SomeWindowCovers(|text|, 0, p);
      piece := TextIn(text, w);
      assert piece[p - w.start] == text[p];
      KeptIfNotBlank(text, 0, w);
    }
  }

  /** No piece is longer than the budget, and every piece is a part of the text. */
  lemma PiecesAreShort(text: string, piece: string)
    requires piece in SplitPieces(text)
    ensures |piece| <= 1600
    ensures exists w: Window :: w.start <= w.end <= |text| && piece == TextIn(text, w)
  {
    if |text| > PROSE_CHUNK_CHARS {
      WindowsAreInside(|text|, 0);
      KeptAreWindows(text, 0, piece);
    } else {
      assert piece == TextIn(text, Window(0, |text|));
    }
  }
}
