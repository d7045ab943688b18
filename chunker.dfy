/** Splitting reference documents into overlapping chunks for retrieval
    (src/rag/chunker.py): first into groups under numbered section headers, then each
    group into windows of at most `chunkSize` characters that prefer to end at a
    sentence boundary. */
module Chunker {
  import opened Wrappers
  import opened Text

  /** A `DocumentChunker`'s settings, fixed by its constructor. */
  datatype Chunker = Chunker(chunkSize: nat, chunkOverlap: nat)

  const Default: Chunker := Chunker(1000, 200)

  /** `TextChunk`. */
  datatype TextChunk = TextChunk(
    text: string, sectionId: Option<string>, sectionTitle: Option<string>, sourceFile: Option<string>,
    chunkIndex: nat)

  /** One `(section_id, section_title, section_text)` triple. */
  datatype Group = Group(id: Option<string>, title: Option<string>, text: string)

  // ---------------------------------------------------------------- the header pattern

  /** The header pattern `^(\d+\.?\d*\.?)\s+(.+?)$` under `re.MULTILINE`, read on ASCII
      digits and whitespace. A match starts at a line start `start`; its label (group 1)
      is the whole run of digits and dots there, which must have the label's shape and
      be followed by whitespace; its title (group 2) runs from `titleStart` to the end of
      that line, `end`, which is also the end of the match. */
  datatype Header = Header(start: nat, labelEnd: nat, titleStart: nat, end: nat)

  predicate IsLabelChar(c: char) {
    IsDigit(c) || c == '.'
  }

  /** The length of the run of digits and dots starting at `p`. */
  function LabelRun(text: string, p: nat): (n: nat)
    requires p <= |text|
    ensures p + n <= |text|
    ensures forall k :: p <= k < p + n ==> IsLabelChar(text[k])
    ensures p + n < |text| ==> !IsLabelChar(text[p + n])
    decreases |text| - p
  {
    if p < |text| && IsLabelChar(text[p]) then 1 + LabelRun(text, p + 1) else 0
  }

  /** The length of the run of whitespace starting at `p`. */
  function SpaceRun(text: string, p: nat): (n: nat)
    requires p <= |text|
    ensures p + n <= |text|
    ensures forall k :: p <= k < p + n ==> IsSpace(text[k])
    ensures p + n < |text| ==> !IsSpace(text[p + n])
    decreases |text| - p
  {
    if p < |text| && IsSpace(text[p]) then 1 + SpaceRun(text, p + 1) else 0
  }

  /** The number of leading digits of `s`. */
  function DigitRun(s: string): (n: nat)
    ensures n <= |s|
    ensures forall k :: 0 <= k < n ==> IsDigit(s[k])
    ensures n < |s| ==> !IsDigit(s[n])
  {
    if s != [] && IsDigit(s[0]) then 1 + DigitRun(s[1..]) else 0
  }

  /** `\d+\.?\d*\.?` matches all of `s`: digits, then optionally a dot, more digits and
      a final dot. */
  predicate IsLabel(s: string) {
    var n := DigitRun(s);
    && n > 0
    && (n == |s| ||
        (s[n] == '.' &&
         var rest := s[n + 1..];
         var m := DigitRun(rest);
         m == |rest| || (m + 1 == |rest| && rest[m] == '.')))
  }

  /** The last position in `[lo, hi)` that is not a line break. */
  function LastNonNewline(text: string, lo: nat, hi: nat): (r: Option<nat>)
    requires hi <= |text|
    ensures r.Some? ==> lo <= r.value < hi && text[r.value] != '\n'
    decreases hi
  {
    if hi <= lo then None
    else if text[hi - 1] != '\n' then Some(hi - 1)
    else LastNonNewline(text, lo, hi - 1)
  }

  /** Where `$` first holds at or after `p`: the next line break, or the end of text. */
  function LineEnd(text: string, p: nat): (e: nat)
    requires p <= |text|
    ensures p <= e <= |text|
    ensures e < |text| ==> text[e] == '\n'
    ensures forall k :: p <= k < e ==> text[k] != '\n'
    decreases |text| - p
  {
    if p == |text| || text[p] == '\n' then p else LineEnd(text, p + 1)
  }

  predicate HeaderShape(text: string, h: Header) {
    h.start < h.labelEnd < h.titleStart < h.end <= |text|
  }

  predicate LabelShape(text: string, h: Header)
    requires HeaderShape(text, h)
  {
    IsLabel(text[h.start..h.labelEnd])
  }

  /** The match attempted at `p`. The whitespace run `\s+` is taken whole when a
      character follows it; when it reaches the end of the text it gives back characters
      until the title can start on one that is not a line break. */
  function HeaderAt(text: string, p: nat): (r: Option<Header>)
    requires p <= |text|
    ensures r.Some? ==> r.value.start == p && HeaderShape(text, r.value) && LabelShape(text, r.value)
  {
    if p > 0 && text[p - 1] != '\n' then None
    else
      var labelEnd := p + LabelRun(text, p);
      if !IsLabel(text[p..labelEnd]) || labelEnd == |text| || !IsSpace(text[labelEnd]) then None
      else
        var spaceEnd := labelEnd + SpaceRun(text, labelEnd);
        var titleStart := if spaceEnd < |text| then Some(spaceEnd) else LastNonNewline(text, labelEnd + 1, |text|);
        match titleStart
        case None => None
        case Some(ts) => Some(Header(p, labelEnd, ts, LineEnd(text, ts)))
  }

  /** Headers in increasing position, none overlapping the next. */
  predicate WellOrdered(text: string, hs: seq<Header>) {
    && (forall i :: 0 <= i < |hs| ==> HeaderShape(text, hs[i]))
    && (forall i, j :: 0 <= i < j < |hs| ==> hs[i].end <= hs[j].start)
  }

  /** `finditer` from `from`: every match, each search resuming where the last match ended. */
  function HeadersFrom(text: string, from: nat): (hs: seq<Header>)
    requires from <= |text|
    ensures WellOrdered(text, hs)
    ensures forall i :: 0 <= i < |hs| ==> from <= hs[i].start && LabelShape(text, hs[i])
    decreases |text| - from
  {
    if from == |text| then []
    else match HeaderAt(text, from)
      case Some(h) => [h] + HeadersFrom(text, h.end)
      case None => HeadersFrom(text, from + 1)
  }

  function Headers(text: string): (hs: seq<Header>)
    ensures WellOrdered(text, hs)
    ensures forall i :: 0 <= i < |hs| ==> LabelShape(text, hs[i])
  {
    HeadersFrom(text, 0)
  }

  /** `s.rstrip(".")`. */
  function RStripDots(s: string): (r: string)
    ensures r <= s
    ensures r == [] || r[|r| - 1] != '.'
    ensures forall k :: |r| <= k < |s| ==> s[k] == '.'
  {
    if s != [] && s[|s| - 1] == '.' then RStripDots(s[..|s| - 1]) else s
  }

  // ---------------------------------------------------------------- groups

  /** Where the body of header `i` ends: at the next header, or at the end of the text. */
  function BodyStop(text: string, hs: seq<Header>, i: nat): (stop: nat)
    requires WellOrdered(text, hs) && i < |hs|
    ensures hs[i].end <= stop <= |text|
  {
    if i + 1 < |hs| then hs[i + 1].start else |text|
  }

  function HeaderGroup(text: string, hs: seq<Header>, i: nat): Group
    requires WellOrdered(text, hs) && i < |hs|
  {
    var h := hs[i];
    Group(Some(RStripDots(text[h.start..h.labelEnd])), Some(Strip(text[h.titleStart..h.end])),
          Strip(text[h.end..BodyStop(text, hs, i)]))
  }

  /** One group per header, in text order, before empty bodies are dropped. */
  function HeaderGroups(text: string, hs: seq<Header>): (gs: seq<Group>)
    requires WellOrdered(text, hs)
    ensures |gs| == |hs|
    ensures forall i :: 0 <= i < |hs| ==> gs[i] == HeaderGroup(text, hs, i)
  {
    seq(|hs|, i requires 0 <= i < |hs| => HeaderGroup(text, hs, i))
  }

  /** The first `n` groups with an empty body dropped. */
  function WithBody(gs: seq<Group>, n: nat): (r: seq<Group>)
    requires n <= |gs|
  {
    if n == 0 then []
    else WithBody(gs, n - 1) + (if gs[n - 1].text != [] then [gs[n - 1]] else [])
  }

  /** The kept groups are exactly the groups with a body, among the first `n`. */
  lemma {:induction false} WithBodyMembers(gs: seq<Group>, n: nat)
    requires n <= |gs|
    ensures forall g :: g in WithBody(gs, n) <==> exists i :: 0 <= i < n && gs[i] == g && g.text != []
  {
    if n > 0 {
      WithBodyMembers(gs, n - 1);
    }
  }

  function SectionGroups(text: string): seq<Group> {
    var hs := Headers(text);
    if hs == [] then [Group(None, None, text)] else WithBody(HeaderGroups(text, hs), |hs|)
  }

  /** `DocumentChunker._split_by_sections`, over the matches `finditer` yields. */
  method SplitBySections(text: string) returns (groups: seq<Group>)
    ensures groups == SectionGroups(text)
  {
    var hs := Headers(text);
    if hs == [] {
      groups := [Group(None, None, text)];
    } else {
      groups := KeepWithBody(HeaderGroups(text, hs));
    }
  }

  /** The loop over the matches: a group is kept only when its body is not empty. */
  method KeepWithBody(gs: seq<Group>) returns (groups: seq<Group>)
    ensures groups == WithBody(gs, |gs|)
  {
    groups := [];
    var i := 0;
    while i < |gs|
      invariant 0 <= i <= |gs|
      invariant groups == WithBody(gs, i)
    {
      if gs[i].text != [] {
        groups := groups + [gs[i]];
      }
      i := i + 1;
    }
  }

  /** What a group found under a header looks like: a numeral id without trailing dots,
      a stripped title, and a non-empty stripped body taken from the text after the end
      of the first header. */
  predicate HeaderGroupShape(text: string, from: nat, g: Group) {
    && g.id.Some? && g.title.Some?
    && g.id.value != [] && IsDigit(g.id.value[0]) && g.id.value[|g.id.value| - 1] != '.'
    && IsStripped(g.title.value)
    && g.text != [] && IsStripped(g.text)
    && exists a: nat, b: nat :: from <= a <= b <= |text| && g.text == text[a..b]
  }

  lemma HeaderGroupHasShape(text: string, hs: seq<Header>, i: nat)
    requires WellOrdered(text, hs) && i < |hs| && LabelShape(text, hs[i])
    requires HeaderGroup(text, hs, i).text != []
    ensures HeaderGroupShape(text, hs[0].end, HeaderGroup(text, hs, i))
  {
    var h := hs[i];
    var numeral := text[h.start..h.labelEnd];
    var id := RStripDots(numeral);
    assert IsDigit(numeral[0]);
    assert id != [];
    assert id[0] == numeral[0];
    if i > 0 {
      assert hs[0].end <= hs[i].start;
    }
    StripIsSlice(text, h.end, BodyStop(text, hs, i));
  }

  /** A stripped slice of the text is itself a slice of the text. */
  lemma StripIsSlice(text: string, lo: nat, hi: nat)
    requires lo <= hi <= |text|
    ensures exists a: nat, b: nat :: lo <= a <= b <= hi && Strip(text[lo..hi]) == text[a..b]
  {
    var s := text[lo..hi];
    var b := StripBounds(s);
    assert Strip(s) == s[b.0..b.1];
    assert s[b.0..b.1] == text[lo + b.0..lo + b.1];
    assert lo <= lo + b.0 <= lo + b.1 <= hi;
  }

  /** With no header in the text the whole text is the one group, without id or title;
      otherwise every group has the header shape, and text before the first header
      belongs to none. */
  lemma {:induction false} SectionGroupsShape(text: string)
    ensures Headers(text) == [] ==> SectionGroups(text) == [Group(None, None, text)]
    ensures Headers(text) != [] ==>
              forall g :: g in SectionGroups(text) ==> HeaderGroupShape(text, Headers(text)[0].end, g)
  {
    var hs := Headers(text);
    if hs != [] {
      var gs := HeaderGroups(text, hs);
      WithBodyMembers(gs, |hs|);
      forall g | g in WithBody(gs, |hs|) ensures HeaderGroupShape(text, hs[0].end, g) {
        var i :| 0 <= i < |hs| && gs[i] == g && g.text != [];
        HeaderGroupHasShape(text, hs, i);
      }
    }
  }

  // ---------------------------------------------------------------- windows

  /** The sentence ends a cut may snap to, in order of preference. */
  const Separators: seq<string> := [". ", ".\n", "? ", "! ", "\n\n"]

  /** `rfind` finds `sep` in the window strictly after `start`. */
  predicate Snaps(text: string, start: nat, end: nat, sep: string)
    requires end <= |text|
  {
    RFind(text, sep, start, end).Some? && RFind(text, sep, start, end).value > start
  }

  /** The position in `seps` of the first separator that snaps, if any does. */
  function FirstSnapping(text: string, start: nat, end: nat, seps: seq<string>): (r: Option<nat>)
    requires end <= |text|
    ensures r.Some? ==> r.value < |seps| && Snaps(text, start, end, seps[r.value])
  {
    if seps == [] then None
    else if Snaps(text, start, end, seps[0]) then Some(0)
    else match FirstSnapping(text, start, end, seps[1..])
      case Some(i) => Some(i + 1)
      case None => None
  }

  /** No separator before the one `FirstSnapping` names snaps, and none at all snaps
      when it names none. */
  lemma {:induction false} FirstSnappingIsFirst(text: string, start: nat, end: nat, seps: seq<string>)
    requires end <= |text|
    ensures var r := FirstSnapping(text, start, end, seps);
            && (r.Some? ==> forall j :: 0 <= j < r.value ==> !Snaps(text, start, end, seps[j]))
            && (r.None? ==> forall j :: 0 <= j < |seps| ==> !Snaps(text, start, end, seps[j]))
  {
    if seps != [] && !Snaps(text, start, end, seps[0]) {
      FirstSnappingIsFirst(text, start, end, seps[1..]);
      assert forall j :: 0 < j < |seps| ==> seps[j] == seps[1..][j - 1];
    }
  }

  /** The cut for the window `[start, end)`: right after the last occurrence, strictly
      after `start`, of the first separator that has one; `end` when none has. */
  function Snap(text: string, start: nat, end: nat): (r: nat)
    requires start <= end <= |text|
    ensures r <= end
    ensures r == end || start + 1 < r
  {
    match FirstSnapping(text, start, end, Separators)
    case Some(i) => RFind(text, Separators[i], start, end).value + |Separators[i]|
    case None => end
  }

  /** The search for a sentence end inside `_split_text`'s loop: one separator at a time,
      until one is found strictly after `start`. */
  method SnapCut(text: string, start: nat, end: nat) returns (cut: nat)
    requires start <= end <= |text|
    ensures cut == Snap(text, start, end)
  {
    cut := end;
    FirstSnappingIsFirst(text, start, end, Separators);
    var i := 0;
    while i < |Separators|
      invariant 0 <= i <= |Separators|
      invariant forall j :: 0 <= j < i ==> !Snaps(text, start, end, Separators[j])
    {
      var sep := Separators[i];
      var last := RFind(text, sep, start, end);
      if last.Some? && last.value > start {
        cut := last.value + |sep|;
        return;
      }
      i := i + 1;
    }
  }

  /** Where the window starting at `start` ends: `start + chunkSize` (possibly past the
      end of the text), snapped back to a sentence end when that is still inside it. */
  function WindowEnd(text: string, size: nat, start: nat): (end: nat)
    requires size > 0 && start < |text|
    ensures start < end <= start + size
  {
    var end := start + size;
    if end < |text| then Snap(text, start, end) else end
  }

  /** Where the next window starts, as `_split_text` computes it: `end - chunkOverlap`,
      which need not be after `start` and may be negative. */
  function NextStartAsWritten(end: int, overlap: nat): int {
    end - overlap
  }

  /** The next window's start with the loop made to advance: `end - chunkOverlap` when
      that is past `start`, else `end`. */
  function NextStart(start: nat, end: nat, overlap: nat): (next: nat)
    requires start < end
    ensures start < next <= end
    ensures NextStartAsWritten(end, overlap) > start ==> next == NextStartAsWritten(end, overlap)
  {
    if end - overlap > start then end - overlap else end
  }

  /** The windows `[start, end)` the loop visits from `start` on. */
  function Windows(text: string, size: nat, overlap: nat, start: nat): (ws: seq<(nat, nat)>)
    requires size > 0
    ensures forall i :: 0 <= i < |ws| ==> start <= ws[i].0 < ws[i].1 && ws[i].0 < |text|
    decreases |text| - start
  {
    if start >= |text| then []
    else
      var end := WindowEnd(text, size, start);
      [(start, end)] + Windows(text, size, overlap, NextStart(start, end, overlap))
  }

  /** `text[start:end].strip()`, with `end` clipped to the text as Python's slice does. */
  function WindowText(text: string, w: (nat, nat)): string
    requires w.0 <= w.1 && w.0 <= |text|
  {
    Strip(text[w.0..if w.1 < |text| then w.1 else |text|])
  }

  predicate Spans(text: string, ws: seq<(nat, nat)>) {
    forall i :: 0 <= i < |ws| ==> ws[i].0 <= ws[i].1 && ws[i].0 <= |text|
  }

  /** The piece a window contributes: its stripped text, when not empty. */
  function PieceOf(text: string, w: (nat, nat)): seq<string>
    requires w.0 <= w.1 && w.0 <= |text|
  {
    if WindowText(text, w) != [] then [WindowText(text, w)] else []
  }

  /** The non-empty stripped windows, in order. */
  function Pieces(text: string, ws: seq<(nat, nat)>): seq<string>
    requires Spans(text, ws)
  {
    if ws == [] then [] else Pieces(text, ws[..|ws| - 1]) + PieceOf(text, ws[|ws| - 1])
  }

  lemma PiecesSnoc(text: string, ws: seq<(nat, nat)>, k: nat)
    requires Spans(text, ws) && k < |ws|
    ensures Pieces(text, ws[..k + 1]) == Pieces(text, ws[..k]) + PieceOf(text, ws[k])
  {
    assert ws[..k + 1][..k] == ws[..k];
  }

  /** Consecutive windows: each ends where `WindowEnd` puts it, the next starts where
      `NextStart` puts it, and the last is the first whose next start is past the text. */
  lemma {:induction false} WindowsStep(text: string, size: nat, overlap: nat, start: nat, k: nat)
    requires size > 0
    requires k < |Windows(text, size, overlap, start)|
    ensures var ws := Windows(text, size, overlap, start);
            && ws[k].1 == WindowEnd(text, size, ws[k].0)
            && (k + 1 < |ws| <==> NextStart(ws[k].0, ws[k].1, overlap) < |text|)
            && (k + 1 < |ws| ==> ws[k + 1].0 == NextStart(ws[k].0, ws[k].1, overlap))
    decreases k
  {
    var end := WindowEnd(text, size, start);
    var next := NextStart(start, end, overlap);
    if k > 0 {
      WindowsStep(text, size, overlap, next, k - 1);
    }
  }

  /** The end of the window at `start`, as the loop body computes it. */
  method CutAt(text: string, size: nat, start: nat) returns (end: nat)
    requires size > 0 && start < |text|
    ensures end == WindowEnd(text, size, start)
  {
    if start + size < |text| {
      end := SnapCut(text, start, start + size);
    } else {
      end := start + size;
    }
  }

  /** `text[start:end].strip()`. */
  method ChunkAt(text: string, start: nat, end: nat) returns (chunk: string)
    requires start <= end && start <= |text|
    ensures chunk == WindowText(text, (start, end))
  {
    var stop := if end < |text| then end else |text|;
    chunk := Strip(text[start..stop]);
  }

  /** `DocumentChunker._split_text`, with the advancing next start. */
  function Split(c: Chunker, text: string): seq<string>
    requires c.chunkSize > 0
  {
    if |text| <= c.chunkSize then [text]
    else Pieces(text, Windows(text, c.chunkSize, c.chunkOverlap, 0))
  }

  /** `DocumentChunker._split_text`. A text that fits in one chunk is returned as it is;
      a longer one is cut into windows, each stripped and kept when not empty. */
  method SplitText(c: Chunker, text: string) returns (chunks: seq<string>)
    requires c.chunkSize > 0
    ensures chunks == Split(c, text)
  {
    if |text| <= c.chunkSize {
      return [text];
    }
    var size, overlap := c.chunkSize, c.chunkOverlap;
    ghost var ws := Windows(text, size, overlap, 0);
    ghost var k := 0;
    chunks := [];
    var start := 0;
    while start < |text|
      invariant k <= |ws|
      invariant k < |ws| ==> ws[k].0 == start
      invariant k == |ws| <==> start >= |text|
      invariant chunks == Pieces(text, ws[..k])
      decreases |text| - start
    {
      var end := CutAt(text, size, start);
      WindowsStep(text, size, overlap, 0, k);
      PiecesSnoc(text, ws, k);
      var chunk := ChunkAt(text, start, end);
      if chunk != [] {
        chunks := chunks + [chunk];
      }
      start := if end - overlap > start then end - overlap else end;
      k := k + 1;
    }
    assert ws[..k] == ws;
  }

  // ---------------------------------------------------------------- window properties

  /** The windows cover the text from `start` on: the first starts at `start`, each
      next one starts after the start of the one before and no later than its end, and
      the last reaches the end of the text. */
  lemma WindowsCover(text: string, size: nat, overlap: nat, start: nat)
    requires size > 0 && start < |text|
    ensures var ws := Windows(text, size, overlap, start);
            && ws != [] && ws[0].0 == start && ws[|ws| - 1].1 >= |text|
            && forall i :: 0 <= i < |ws| - 1 ==> ws[i].0 < ws[i + 1].0 <= ws[i].1
  {
    var ws := Windows(text, size, overlap, start);
    assert ws[0] == (start, WindowEnd(text, size, start));
    forall i | 0 <= i < |ws| - 1 ensures ws[i].0 < ws[i + 1].0 <= ws[i].1 {
      WindowsStep(text, size, overlap, start, i);
    }
    WindowsStep(text, size, overlap, start, |ws| - 1);
  }

  /** Every position of the text from `start` on lies in some window: the `i`th. */
  lemma {:induction false} WindowsCoverPosition(text: string, size: nat, overlap: nat, start: nat, p: nat)
    returns (i: nat)
    requires size > 0 && start <= p < |text|
    ensures i < |Windows(text, size, overlap, start)|
    ensures Windows(text, size, overlap, start)[i].0 <= p < Windows(text, size, overlap, start)[i].1
    decreases |text| - start
  {
    var end := WindowEnd(text, size, start);
    var next := NextStart(start, end, overlap);
    var ws := Windows(text, size, overlap, start);
    var rest := Windows(text, size, overlap, next);
    assert ws == [(start, end)] + rest;
    if p < end {
      i := 0;
    } else {
      var j := WindowsCoverPosition(text, size, overlap, next, p);
      i := j + 1;
      assert ws[i] == rest[j];
    }
  }

  /** What every piece is: a non-empty, stripped slice of the text. */
  predicate PieceShape(text: string, piece: string) {
    && piece != [] && IsStripped(piece)
    && exists a: nat, b: nat :: a <= b <= |text| && piece == text[a..b]
  }

  lemma {:induction false} PiecesAreSlices(text: string, ws: seq<(nat, nat)>)
    requires Spans(text, ws)
    ensures forall j :: 0 <= j < |Pieces(text, ws)| ==> PieceShape(text, Pieces(text, ws)[j])
  {
    if ws != [] {
      var w := ws[|ws| - 1];
      PiecesAreSlices(text, ws[..|ws| - 1]);
      StripIsSlice(text, w.0, if w.1 < |text| then w.1 else |text|);
    }
  }

  /** A window with text gives the first piece when it is the first window. */
  lemma {:induction false} PiecesFirst(text: string, ws: seq<(nat, nat)>)
    requires Spans(text, ws) && ws != [] && WindowText(text, ws[0]) != []
    ensures Pieces(text, ws) != [] && Pieces(text, ws)[0] == WindowText(text, ws[0])
  {
    if |ws| > 1 {
      var init := ws[..|ws| - 1];
      assert init[0] == ws[0];
      PiecesFirst(text, init);
    }
  }

  /** Two windows with text give at least two pieces. */
  lemma {:induction false} PiecesTwo(text: string, ws: seq<(nat, nat)>, i: nat)
    requires Spans(text, ws) && 0 < i < |ws|
    requires WindowText(text, ws[0]) != [] && WindowText(text, ws[i]) != []
    ensures |Pieces(text, ws)| >= 2
  {
    var init := ws[..|ws| - 1];
    assert init[0] == ws[0];
    if i == |ws| - 1 {
      PiecesFirst(text, init);
    } else {
      assert init[i] == ws[i];
      PiecesTwo(text, init, i);
    }
  }

  /** A window holding a non-space character has text. */
  lemma WindowWithText(text: string, w: (nat, nat), p: nat)
    requires w.0 <= p < w.1 && p < |text| && !IsSpace(text[p])
    ensures WindowText(text, w) != []
  {
    var slice := text[w.0..if w.1 < |text| then w.1 else |text|];
    assert slice[p - w.0] == text[p];
  }

  /** A text too long for one chunk whose first character is not a space, and with a
      non-space character past the first `chunkSize` positions, is cut into at least two
      chunks. */
  lemma LongTextSplits(c: Chunker, text: string, p: nat)
    requires c.chunkSize > 0 && c.chunkSize < |text|
    requires !IsSpace(text[0])
    requires c.chunkSize <= p < |text| && !IsSpace(text[p])
    ensures |Split(c, text)| >= 2
  {
    var ws := Windows(text, c.chunkSize, c.chunkOverlap, 0);
    WindowsCover(text, c.chunkSize, c.chunkOverlap, 0);
    var i := WindowsCoverPosition(text, c.chunkSize, c.chunkOverlap, 0, p);
    WindowsStep(text, c.chunkSize, c.chunkOverlap, 0, 0);
    assert i != 0;
    WindowWithText(text, ws[0], 0);
    WindowWithText(text, ws[i], p);
    PiecesTwo(text, ws, i);
  }

  /** Every chunk of a text too long for one chunk is a non-empty, stripped slice of it,
      and a text that fits is its own single chunk. */
  lemma SplitShape(c: Chunker, text: string)
    requires c.chunkSize > 0
    ensures |text| <= c.chunkSize ==> Split(c, text) == [text]
    ensures |text| > c.chunkSize ==> forall j :: 0 <= j < |Split(c, text)| ==> PieceShape(text, Split(c, text)[j])
  {
    if |text| > c.chunkSize {
      PiecesAreSlices(text, Windows(text, c.chunkSize, c.chunkOverlap, 0));
    }
  }

  // ---------------------------------------------------------------- the stall as written

  const StallText: string := "a. bbbbbbbbbb"

  /** With `chunk_size=10` and `chunk_overlap=3`, the first window of `StallText` snaps
      back to the end of its only sentence, at 3, and the next start as written is 3 - 3,
      the first start again: the loop revisits the same window forever. With the advancing
      next start the loop moves on to 3. */
  lemma StallAsWritten()
    ensures WindowEnd(StallText, 10, 0) == 3
    ensures NextStartAsWritten(WindowEnd(StallText, 10, 0), 3) == 0
    ensures NextStart(0, WindowEnd(StallText, 10, 0), 3) == 3
  {
    var text := StallText;
    assert OccursAt(text, ". ", 1) by {
      assert text[1] == '.' && text[2] == ' ';
      assert text[1..3] == ". ";
    }
    forall k: nat | k <= 8 && k != 1 ensures !OccursAt(text, ". ", k) {
      assert text[k..k + 2][0] == text[k];
    }
    assert RFind(text, ". ", 0, 10) == Some(1);
    assert Snaps(text, 0, 10, Separators[0]);
    assert FirstSnapping(text, 0, 10, Separators) == Some(0);
  }

  // ---------------------------------------------------------------- the loop as written

  /** How Python reads a slice or search bound `i` on a string of length `n`: a negative
      bound counts from the end, and the result is clipped to `[0, n]`. */
  function PyBound(i: int, n: nat): (b: nat)
    ensures b <= n
    ensures 0 <= i <= n ==> b == i
    ensures i < 0 && n + i >= 0 ==> b == n + i
  {
    if i < 0 then (if n + i < 0 then 0 else n + i) else if i > n then n else i
  }

  /** `text.rfind(sep, start, end)` with Python's bounds: the position found, or -1. */
  function RFindAsWritten(text: string, sep: string, start: int, end: int): int {
    match RFind(text, sep, PyBound(start, |text|), PyBound(end, |text|))
    case Some(k) => k
    case None => -1
  }

  /** The separator loop of `_split_text` as written, for any integer `start`. */
  function SnapAsWritten(text: string, start: int, end: int, seps: seq<string>): int {
    if seps == [] then end
    else
      var last := RFindAsWritten(text, seps[0], start, end);
      if last > start then last + |seps[0]| else SnapAsWritten(text, start, end, seps[1..])
  }

  /** The window end `_split_text` computes from any integer `start`. */
  function WindowEndAsWritten(text: string, size: nat, start: int): int {
    var end := start + size;
    if end < |text| then SnapAsWritten(text, start, end, Separators) else end
  }

  /** The bounds Python gives the slice `text[start:end]` of a text of length `n`: both
      normalised, and the slice empty when they cross. */
  function SliceBounds(n: nat, start: int, end: int): (b: (nat, nat))
    ensures b.0 <= b.1 <= n
  {
    var lo, hi := PyBound(start, n), PyBound(end, n);
    if lo <= hi then (lo, hi) else (lo, lo)
  }

  /** The chunks the loop of `_split_text` as written collects from `start` on, where
      `cut(start)` is the window end its body computes; `None` when the loop is still
      running after `fuel` rounds. */
  function LoopAsWritten(text: string, overlap: nat, cut: int -> int, start: int, fuel: nat): Option<seq<string>>
    decreases fuel
  {
    if start >= |text| then Some([])
    else if fuel == 0 then None
    else
      var end := cut(start);
      match LoopAsWritten(text, overlap, cut, NextStartAsWritten(end, overlap), fuel - 1)
      case Some(rest) => Some(PieceOf(text, SliceBounds(|text|, start, end)) + rest)
      case None => None
  }

  /** `_split_text` as written, run for at most `fuel` rounds of its loop. */
  function SplitAsWritten(c: Chunker, text: string, fuel: nat): Option<seq<string>> {
    if |text| <= c.chunkSize then Some([text])
    else LoopAsWritten(text, c.chunkOverlap, s => WindowEndAsWritten(text, c.chunkSize, s), 0, fuel)
  }

  /** From a start inside the text the written separator loop cuts where `Snap` does. */
  lemma {:induction false} SnapAgrees(text: string, start: nat, end: nat, seps: seq<string>)
    requires start <= end <= |text|
    ensures SnapAsWritten(text, start, end, seps)
         == match FirstSnapping(text, start, end, seps)
            case Some(i) => RFind(text, seps[i], start, end).value + |seps[i]|
            case None => end
  {
    if seps != [] && !Snaps(text, start, end, seps[0]) {
      SnapAgrees(text, start, end, seps[1..]);
    }
  }

  /** From a start inside the text the written window end is `WindowEnd`. */
  lemma WindowEndAgrees(text: string, size: nat, start: nat)
    requires size > 0 && start < |text|
    ensures WindowEndAsWritten(text, size, start) == WindowEnd(text, size, start)
  {
    if start + size < |text| {
      SnapAgrees(text, start, start + size, Separators);
    }
  }

  /** A window's chunk is the window's piece: the cons form of `Pieces`. */
  lemma SpansCons(text: string, w: (nat, nat), ws: seq<(nat, nat)>)
    requires w.0 <= w.1 && w.0 <= |text| && Spans(text, ws)
    ensures Spans(text, [w] + ws)
    ensures ws != [] ==> Spans(text, ws[..|ws| - 1])
  {
    var all := [w] + ws;
    forall i | 0 < i < |all| ensures all[i].0 <= all[i].1 && all[i].0 <= |text| {
      assert all[i] == ws[i - 1];
    }
    if ws != [] {
      var init := ws[..|ws| - 1];
      forall i | 0 <= i < |init| ensures init[i].0 <= init[i].1 && init[i].0 <= |text| {
        assert init[i] == ws[i];
      }
    }
  }

  lemma {:induction false} PiecesCons(text: string, w: (nat, nat), ws: seq<(nat, nat)>)
    requires w.0 <= w.1 && w.0 <= |text| && Spans(text, ws)
    ensures Spans(text, [w] + ws)
    ensures Pieces(text, [w] + ws) == PieceOf(text, w) + Pieces(text, ws)
    decreases |ws|
  {
    SpansCons(text, w, ws);
    var all := [w] + ws;
    if ws == [] {
      assert all[..0] == [];
    } else {
      var init := ws[..|ws| - 1];
      var last := ws[|ws| - 1];
      assert all[..|all| - 1] == [w] + init;
      assert all[|all| - 1] == last;
      PiecesCons(text, w, init);
    }
  }

  /** Every window's `end - chunkOverlap` lies past the window's start. */
  predicate AdvancesAsWritten(ws: seq<(nat, nat)>, overlap: nat) {
    forall i :: 0 <= i < |ws| ==> ws[i].1 - overlap > ws[i].0
  }

  /** `ws` are the windows the loop as written visits from `start` on, each ending at
      `cut` of its start and each followed by one starting at `end - overlap`, which lies
      past the window's start. */
  predicate ChainOf(text: string, overlap: nat, cut: int -> int, start: int, ws: seq<(nat, nat)>)
    decreases |ws|
  {
    if ws == [] then start >= |text|
    else
      && start < |text| && ws[0].0 == start && ws[0].1 == cut(start) && start <= cut(start)
      && cut(start) - overlap > start
      && ChainOf(text, overlap, cut, cut(start) - overlap, ws[1..])
  }

  lemma {:induction false} ChainSpans(text: string, overlap: nat, cut: int -> int, start: int, ws: seq<(nat, nat)>)
    requires ChainOf(text, overlap, cut, start, ws)
    ensures Spans(text, ws)
    decreases |ws|
  {
    if ws != [] {
      ChainSpans(text, overlap, cut, cut(start) - overlap, ws[1..]);
      assert ws == [ws[0]] + ws[1..];
      SpansCons(text, ws[0], ws[1..]);
    }
  }

  /** The pieces of the windows, first window first. */
  function PiecesFwd(text: string, ws: seq<(nat, nat)>): seq<string>
    requires Spans(text, ws)
  {
    if ws == [] then [] else PieceOf(text, ws[0]) + PiecesFwd(text, ws[1..])
  }

  lemma {:induction false} PiecesFwdIsPieces(text: string, ws: seq<(nat, nat)>)
    requires Spans(text, ws)
    ensures PiecesFwd(text, ws) == Pieces(text, ws)
  {
    if ws != [] {
      var w, rest := ws[0], ws[1..];
      assert ws == [w] + rest;
      PiecesFwdIsPieces(text, rest);
      PiecesCons(text, w, rest);
      assert PiecesFwd(text, ws) == PieceOf(text, w) + PiecesFwd(text, rest);
    }
  }

  /** A slice the loop as written takes from inside the text strips to the window's piece. */
  lemma SliceBoundsPiece(text: string, s: nat, e: nat)
    requires s < |text| && s <= e
    ensures PieceOf(text, SliceBounds(|text|, s, e)) == PieceOf(text, (s, e))
  {
    var b := SliceBounds(|text|, s, e);
    assert b == (s, if e < |text| then e else |text|);
    assert WindowText(text, b) == WindowText(text, (s, e));
  }

  /** One round of the loop as written: the piece of the window `[start, cut(start))`
      goes before the pieces of the rounds from `cut(start) - overlap` on. */
  lemma LoopStep(text: string, overlap: nat, cut: int -> int, start: int, fuel: nat)
    requires start < |text| && fuel > 0
    requires LoopAsWritten(text, overlap, cut, cut(start) - overlap, fuel - 1).Some?
    ensures LoopAsWritten(text, overlap, cut, start, fuel).Some?
    ensures LoopAsWritten(text, overlap, cut, start, fuel).value
         == PieceOf(text, SliceBounds(|text|, start, cut(start)))
          + LoopAsWritten(text, overlap, cut, cut(start) - overlap, fuel - 1).value
  {
    assert NextStartAsWritten(cut(start), overlap) == cut(start) - overlap;
  }

  /** Along such a chain the loop as written finishes with the chain's pieces. */
  lemma {:induction false} LoopOfChain(text: string, overlap: nat, cut: int -> int, start: int, ws: seq<(nat, nat)>, fuel: nat)
    requires ChainOf(text, overlap, cut, start, ws) && fuel >= |ws|
    ensures Spans(text, ws)
    ensures LoopAsWritten(text, overlap, cut, start, fuel) == Some(PiecesFwd(text, ws))
    decreases |ws|
  {
    ChainSpans(text, overlap, cut, start, ws);
    if ws != [] {
      var w, next := ws[0], cut(start) - overlap;
      LoopOfChain(text, overlap, cut, next, ws[1..], fuel - 1);
      var tail := LoopAsWritten(text, overlap, cut, next, fuel - 1);
      assert tail == Some(PiecesFwd(text, ws[1..]));
      LoopStep(text, overlap, cut, start, fuel);
      assert w == (start, cut(start));
      SliceBoundsPiece(text, start, cut(start));
      var piece := PieceOf(text, SliceBounds(|text|, start, cut(start)));
      assert piece == PieceOf(text, w);
      assert PiecesFwd(text, ws) == PieceOf(text, w) + PiecesFwd(text, ws[1..]);
      assert LoopAsWritten(text, overlap, cut, start, fuel).value == PieceOf(text, w) + tail.value;
    }
  }

  /** The model's windows form such a chain, for a cut that agrees with `WindowEnd`
      inside the text, when every window advances as written. */
  lemma {:induction false} WindowsChain(text: string, size: nat, overlap: nat, cut: int -> int, start: nat)
    requires size > 0
    requires forall s: nat :: s < |text| ==> cut(s) == WindowEnd(text, size, s)
    requires AdvancesAsWritten(Windows(text, size, overlap, start), overlap)
    ensures ChainOf(text, overlap, cut, start, Windows(text, size, overlap, start))
    ensures start < |text| ==> |Windows(text, size, overlap, start)| <= |text| - start
    decreases |text| - start
  {
    if start < |text| {
      var ws := Windows(text, size, overlap, start);
      var end := WindowEnd(text, size, start);
      var next := NextStart(start, end, overlap);
      var rest := Windows(text, size, overlap, next);
      assert ws == [(start, end)] + rest;
      assert ws[0] == (start, end);
      assert ws[1..] == rest;
      forall i | 0 <= i < |rest| ensures rest[i].1 - overlap > rest[i].0 {
        assert rest[i] == ws[i + 1];
      }
      assert cut(start) == end;
      WindowsChain(text, size, overlap, cut, next);
    }
  }

  /** The model's loop is the source's as long as every `end - chunkOverlap` it meets is
      past the window's start: then the loop as written finishes within `|text|` rounds
      with exactly the model's chunks. */
  lemma SplitAgreesWhileAdvancing(c: Chunker, text: string)
    requires c.chunkSize > 0
    requires |text| > c.chunkSize ==> AdvancesAsWritten(Windows(text, c.chunkSize, c.chunkOverlap, 0), c.chunkOverlap)
    ensures SplitAsWritten(c, text, |text|) == Some(Split(c, text))
  {
    if |text| > c.chunkSize {
      var cut := s => WindowEndAsWritten(text, c.chunkSize, s);
      forall s: nat | s < |text| ensures cut(s) == WindowEnd(text, c.chunkSize, s) {
        WindowEndAgrees(text, c.chunkSize, s);
      }
      WindowsChain(text, c.chunkSize, c.chunkOverlap, cut, 0);
      LoopOfChain(text, c.chunkOverlap, cut, 0, Windows(text, c.chunkSize, c.chunkOverlap, 0), |text|);
      PiecesFwdIsPieces(text, Windows(text, c.chunkSize, c.chunkOverlap, 0));
    }
  }

  /** A loop as written whose first window at 0 leads back to 0 never finishes. */
  lemma {:induction false} StallLoop(text: string, overlap: nat, cut: int -> int, fuel: nat)
    requires |text| > 0 && cut(0) - overlap == 0
    ensures LoopAsWritten(text, overlap, cut, 0, fuel) == None
  {
    if fuel > 0 {
      StallLoop(text, overlap, cut, fuel - 1);
      assert NextStartAsWritten(cut(0), overlap) == 0;
    }
  }

  /** On `StallText` with `chunk_size=10` and `chunk_overlap=3` the loop as written never
      finishes, however many rounds it is given. */
  lemma StallNeverEnds(fuel: nat)
    ensures SplitAsWritten(Chunker(10, 3), StallText, fuel) == None
  {
    StallAsWritten();
    WindowEndAgrees(StallText, 10, 0);
    StallLoop(StallText, 3, s => WindowEndAsWritten(StallText, 10, s), fuel);
  }

  const SkipText: string := "a. bbbbbbb"

  /** The first window of `SkipText` with `chunk_size=9` snaps back to 3, after ". ",
      in the loop as written and in the model alike. */
  lemma SkipFirstCut()
    ensures WindowEndAsWritten(SkipText, 9, 0) == 3
    ensures WindowEnd(SkipText, 9, 0) == 3
  {
    var text := SkipText;
    assert OccursAt(text, ". ", 1) by {
      assert text[1] == '.' && text[2] == ' ';
      assert text[1..3] == ". ";
    }
    forall k: nat | k <= 7 && k != 1 ensures !OccursAt(text, ". ", k) {
      assert text[k..k + 2][0] == text[k];
    }
    assert RFind(text, ". ", 0, 9) == Some(1);
    assert FirstSnapping(text, 0, 9, Separators) == Some(0);
    WindowEndAgrees(text, 9, 0);
  }

  /** The chunk of that first window is "a.". */
  lemma SkipFirstPiece()
    ensures PieceOf(SkipText, (0, 3)) == ["a."]
  {
    assert SkipText[0..3] == "a. ";
    assert Strip("a. ") == "a." by {
      assert LeadingSpaces("a. ") == 0;
      assert TrailingSpaces("a.") == 0;
      assert TrailingSpaces("a. ") == 1;
    }
  }

  /** The window as written from start -1: Python reads -1 as position 9, so `rfind`
      looks in the empty range from 9 to 8, the window keeps its end 8, and its slice
      `text[-1:8]` is empty. */
  lemma SkipBackWindow()
    ensures PyBound(-1, |SkipText|) == 9
    ensures WindowEndAsWritten(SkipText, 9, -1) == 8
    ensures SliceBounds(|SkipText|, -1, 8) == (9, 9)
    ensures PieceOf(SkipText, SliceBounds(|SkipText|, -1, 8)) == []
  {
    forall j | 0 <= j < |Separators| ensures RFindAsWritten(SkipText, Separators[j], -1, 8) == -1 {
    }
    assert SnapAsWritten(SkipText, -1, 8, Separators[4..]) == 8;
    assert SnapAsWritten(SkipText, -1, 8, Separators[3..]) == 8;
    assert SnapAsWritten(SkipText, -1, 8, Separators[2..]) == 8;
    assert SnapAsWritten(SkipText, -1, 8, Separators[1..]) == 8;
    assert WindowText(SkipText, (9, 9)) == [];
  }

  /** The pieces of the windows of `SkipText` inside its run of `b`s. */
  lemma SkipRunPieces()
    ensures PieceOf(SkipText, (3, 12)) == ["bbbbbbb"]
    ensures PieceOf(SkipText, (8, 17)) == ["bb"]
    ensures PieceOf(SkipText, (4, 13)) == ["bbbbbb"]
    ensures PieceOf(SkipText, (9, 18)) == ["b"]
  {
    var text := SkipText;
    var b7, b6, b2, b1 := "bbbbbbb", "bbbbbb", "bb", "b";
    assert text[3..10] == b7 && text[8..10] == b2 && text[4..10] == b6 && text[9..10] == b1;
    StripStripped(b7);
    StripStripped(b6);
    StripStripped(b2);
    StripStripped(b1);
  }

  /** The model's windows of `SkipText`: after the first it moves on from 3. */
  lemma SkipWindows()
    ensures Windows(SkipText, 9, 4, 0) == [(0, 3), (3, 12), (8, 17)]
  {
    var text := SkipText;
    SkipFirstCut();
    assert Windows(text, 9, 4, 8) == [(8, 17)];
    assert Windows(text, 9, 4, 3) == [(3, 12)] + Windows(text, 9, 4, 8);
    assert Windows(text, 9, 4, 0) == [(0, 3)] + Windows(text, 9, 4, 3);
  }

  /** Three windows, each with a piece of one chunk, give those three chunks. */
  lemma ThreePieces(text: string, ws: seq<(nat, nat)>, p0: string, p1: string, p2: string)
    requires Spans(text, ws) && |ws| == 3
    requires PieceOf(text, ws[0]) == [p0] && PieceOf(text, ws[1]) == [p1] && PieceOf(text, ws[2]) == [p2]
    ensures Pieces(text, ws) == [p0, p1, p2]
  {
    var w1, w2 := ws[..1], ws[..2];
    assert w1[..0] == [] && w2[..1] == w1 && ws[..2] == w2;
    assert Pieces(text, w1) == Pieces(text, []) + PieceOf(text, ws[0]);
    assert Pieces(text, w2) == Pieces(text, w1) + PieceOf(text, ws[1]);
    assert Pieces(text, ws) == Pieces(text, w2) + PieceOf(text, ws[2]);
  }

  /** A text longer than `chunk_size` whose three windows have a piece each splits into
      those three pieces. */
  lemma SplitThree(c: Chunker, text: string, ws: seq<(nat, nat)>, p0: string, p1: string, p2: string)
    requires c.chunkSize > 0 && |text| > c.chunkSize
    requires Windows(text, c.chunkSize, c.chunkOverlap, 0) == ws && |ws| == 3
    requires PieceOf(text, ws[0]) == [p0] && PieceOf(text, ws[1]) == [p1] && PieceOf(text, ws[2]) == [p2]
    ensures Split(c, text) == [p0, p1, p2]
  {
    ThreePieces(text, ws, p0, p1, p2);
  }

  /** The model's loop on `SkipText`: it goes on from 3 and gives three chunks, the
      `b`s all kept. */
  lemma SkipModel()
    ensures Split(Chunker(9, 4), SkipText) == ["a.", "bbbbbbb", "bb"]
  {
    SkipWindows();
    SkipFirstPiece();
    SkipRunPieces();
    SplitThree(Chunker(9, 4), SkipText, [(0, 3), (3, 12), (8, 17)], "a.", "bbbbbbb", "bb");
  }

  /** Four rounds of the loop as written with `chunk_overlap=4` on a text of length 10,
      whose windows start at 0, -1, 4 and 9, from the pieces of those windows. */
  lemma SkipLoopWith(text: string, cut: int -> int)
    requires |text| == 10
    requires cut(0) == 3 && cut(-1) == 8 && cut(4) == 13 && cut(9) == 18
    requires PieceOf(text, SliceBounds(10, 0, 3)) == ["a."]
    requires PieceOf(text, SliceBounds(10, -1, 8)) == []
    requires PieceOf(text, SliceBounds(10, 4, 13)) == ["bbbbbb"]
    requires PieceOf(text, SliceBounds(10, 9, 18)) == ["b"]
    ensures LoopAsWritten(text, 4, cut, 0, 4).Some?
    ensures LoopAsWritten(text, 4, cut, 0, 4).value == ["a.", "bbbbbb", "b"]
  {
    var a, b6, b1: seq<string> := ["a."], ["bbbbbb"], ["b"];
    assert LoopAsWritten(text, 4, cut, 14, 0) == Some([]);
    LoopStep(text, 4, cut, 9, 1);
    assert cut(9) - 4 == 14 && SliceBounds(|text|, 9, cut(9)) == SliceBounds(10, 9, 18);
    assert LoopAsWritten(text, 4, cut, 9, 1).value == b1 + [];
    assert b1 + [] == b1;
    LoopStep(text, 4, cut, 4, 2);
    assert cut(4) - 4 == 9 && SliceBounds(|text|, 4, cut(4)) == SliceBounds(10, 4, 13);
    assert LoopAsWritten(text, 4, cut, 4, 2).value == b6 + b1;
    LoopStep(text, 4, cut, -1, 3);
    assert cut(-1) - 4 == 4 && SliceBounds(|text|, -1, cut(-1)) == SliceBounds(10, -1, 8);
    assert LoopAsWritten(text, 4, cut, -1, 3).value == [] + (b6 + b1);
    assert [] + (b6 + b1) == b6 + b1;
    LoopStep(text, 4, cut, 0, 4);
    assert cut(0) - 4 == -1 && SliceBounds(|text|, 0, cut(0)) == SliceBounds(10, 0, 3);
    assert LoopAsWritten(text, 4, cut, 0, 4).value == a + (b6 + b1);
    assert a + (b6 + b1) == ["a.", "bbbbbb", "b"];
  }

  /** The windows the loop as written visits on `SkipText`, and their pieces. */
  lemma SkipLoopWindows()
    ensures WindowEndAsWritten(SkipText, 9, 0) == 3 && WindowEndAsWritten(SkipText, 9, -1) == 8
    ensures WindowEndAsWritten(SkipText, 9, 4) == 13 && WindowEndAsWritten(SkipText, 9, 9) == 18
    ensures PieceOf(SkipText, SliceBounds(10, 0, 3)) == ["a."]
    ensures PieceOf(SkipText, SliceBounds(10, -1, 8)) == []
    ensures PieceOf(SkipText, SliceBounds(10, 4, 13)) == ["bbbbbb"]
    ensures PieceOf(SkipText, SliceBounds(10, 9, 18)) == ["b"]
  {
    SkipFirstCut();
    SkipFirstPiece();
    SkipBackWindow();
    SkipRunPieces();
    SliceBoundsPiece(SkipText, 0, 3);
    SliceBoundsPiece(SkipText, 4, 13);
    SliceBoundsPiece(SkipText, 9, 18);
  }

  /** With `chunk_size=9` and `chunk_overlap=4` the first window of `SkipText` snaps
      back to 3, and the next start as written is 3 - 4 = -1. Python reads -1 as
      position 9 in `rfind` and in the slice: the window `[9, 8)` finds no separator
      and yields no chunk, and the next start is 8 - 4 = 4. The loop as written then
      finishes after four rounds with three chunks, none of which holds the `b` at
      position 3; the model's advancing loop goes on from 3 instead and keeps all seven
      `b`s (`SkipModel`). */
  lemma SkipAsWritten()
    ensures NextStartAsWritten(WindowEndAsWritten(SkipText, 9, 0), 4) == -1
    ensures PyBound(-1, |SkipText|) == 9
    ensures SliceBounds(|SkipText|, -1, WindowEndAsWritten(SkipText, 9, -1)) == (9, 9)
    ensures NextStartAsWritten(WindowEndAsWritten(SkipText, 9, -1), 4) == 4
    ensures SkipText[3] == 'b'
    ensures SplitAsWritten(Chunker(9, 4), SkipText, 4) == Some(["a.", "bbbbbb", "b"])
  {
    SkipLoopWindows();
    SkipLoopWith(SkipText, s => WindowEndAsWritten(SkipText, 9, s));
  }

  // ---------------------------------------------------------------- whole documents

  /** The chunks of one group: each piece stripped once more and numbered from 0. */
  function GroupChunks(g: Group, pieces: seq<string>, source: Option<string>): (r: seq<TextChunk>)
    ensures |r| == |pieces|
    ensures forall i :: 0 <= i < |r| ==> r[i] == TextChunk(Strip(pieces[i]), g.id, g.title, source, i)
  {
    seq(|pieces|, i requires 0 <= i < |pieces| => TextChunk(Strip(pieces[i]), g.id, g.title, source, i))
  }

  /** The chunks of the groups, group after group. */
  function DocumentChunks(c: Chunker, groups: seq<Group>, source: Option<string>): seq<TextChunk>
    requires c.chunkSize > 0
  {
    if groups == [] then []
    else
      var last := groups[|groups| - 1];
      DocumentChunks(c, groups[..|groups| - 1], source) + GroupChunks(last, Split(c, last.text), source)
  }

  function Chunks(c: Chunker, text: string, source: Option<string>): seq<TextChunk>
    requires c.chunkSize > 0
  {
    DocumentChunks(c, SectionGroups(text), source)
  }

  /** The inner loop of `chunk_document`: one chunk per piece, appended in order. */
  method AppendGroupChunks(chunks: seq<TextChunk>, g: Group, pieces: seq<string>, source: Option<string>)
    returns (r: seq<TextChunk>)
    ensures r == chunks + GroupChunks(g, pieces, source)
  {
    r := chunks;
    var i := 0;
    while i < |pieces|
      invariant 0 <= i <= |pieces|
      invariant |r| == |chunks| + i && r[..|chunks|] == chunks
      invariant forall k :: 0 <= k < i ==> r[|chunks| + k] == TextChunk(Strip(pieces[k]), g.id, g.title, source, k)
    {
      r := r + [TextChunk(Strip(pieces[i]), g.id, g.title, source, i)];
      i := i + 1;
    }
    assert r == chunks + GroupChunks(g, pieces, source) by {
      var t := GroupChunks(g, pieces, source);
      forall k | 0 <= k < |r| ensures r[k] == (chunks + t)[k] {
        if k >= |chunks| {
          assert r[|chunks| + (k - |chunks|)] == t[k - |chunks|];
        } else {
          assert r[..|chunks|][k] == chunks[k];
        }
      }
    }
  }

  /** The loop of `chunk_document` over the groups. */
  method ChunkGroups(c: Chunker, groups: seq<Group>, source: Option<string>) returns (chunks: seq<TextChunk>)
    requires c.chunkSize > 0
    ensures chunks == DocumentChunks(c, groups, source)
  {
    chunks := [];
    var j := 0;
    while j < |groups|
      invariant 0 <= j <= |groups|
      invariant chunks == DocumentChunks(c, groups[..j], source)
    {
      assert groups[..j + 1][..j] == groups[..j];
      var pieces := SplitText(c, groups[j].text);
      chunks := AppendGroupChunks(chunks, groups[j], pieces, source);
      j := j + 1;
    }
    assert groups[..j] == groups;
  }

  /** `DocumentChunker.chunk_document`. */
  method ChunkDocument(c: Chunker, text: string, source: Option<string>) returns (chunks: seq<TextChunk>)
    requires c.chunkSize > 0
    ensures chunks == Chunks(c, text, source)
  {
    var groups := SplitBySections(text);
    chunks := ChunkGroups(c, groups, source);
  }

  /** Chunk numbering: a chunk is numbered 0 or one past the chunk before it, which then
      comes from the same group (same id and title). */
  predicate Numbered(r: seq<TextChunk>) {
    forall i :: 0 <= i < |r| ==>
      r[i].chunkIndex == 0 ||
      (i > 0 && r[i].chunkIndex == r[i - 1].chunkIndex + 1
       && r[i].sectionId == r[i - 1].sectionId && r[i].sectionTitle == r[i - 1].sectionTitle)
  }

  lemma NumberedConcat(a: seq<TextChunk>, b: seq<TextChunk>)
    requires Numbered(a) && Numbered(b)
    ensures Numbered(a + b)
  {
    var r := a + b;
    forall i | 0 <= i < |r| && r[i].chunkIndex != 0
      ensures i > 0 && r[i].chunkIndex == r[i - 1].chunkIndex + 1
              && r[i].sectionId == r[i - 1].sectionId && r[i].sectionTitle == r[i - 1].sectionTitle
    {
      if i < |a| {
        assert r[i] == a[i];
        assert a[i].chunkIndex == 0 || (i > 0 && a[i].chunkIndex == a[i - 1].chunkIndex + 1
          && a[i].sectionId == a[i - 1].sectionId && a[i].sectionTitle == a[i - 1].sectionTitle);
        assert r[i - 1] == a[i - 1];
      } else {
        var k := i - |a|;
        assert r[i] == b[k];
        assert b[k].chunkIndex == 0 || (k > 0 && b[k].chunkIndex == b[k - 1].chunkIndex + 1
          && b[k].sectionId == b[k - 1].sectionId && b[k].sectionTitle == b[k - 1].sectionTitle);
        assert r[i - 1] == b[k - 1];
      }
    }
  }

  /** Every chunk of a document is numbered within its group, the first chunk is
      number 0, and every chunk names the source file it was given. */
  lemma {:induction false} ChunksNumbered(c: Chunker, groups: seq<Group>, source: Option<string>)
    requires c.chunkSize > 0
    ensures var r := DocumentChunks(c, groups, source);
            && Numbered(r) && (r != [] ==> r[0].chunkIndex == 0)
            && forall i :: 0 <= i < |r| ==> r[i].sourceFile == source
  {
    if groups != [] {
      var last := groups[|groups| - 1];
      ChunksNumbered(c, groups[..|groups| - 1], source);
      NumberedConcat(DocumentChunks(c, groups[..|groups| - 1], source), GroupChunks(last, Split(c, last.text), source));
    }
  }

  /** A non-empty stripped text gives at least one chunk, and every chunk is non-empty
      and stripped. */
  lemma SplitOfStripped(c: Chunker, text: string)
    requires c.chunkSize > 0 && text != [] && IsStripped(text)
    ensures Split(c, text) != []
    ensures forall j :: 0 <= j < |Split(c, text)| ==> Split(c, text)[j] != [] && IsStripped(Split(c, text)[j])
  {
    SplitShape(c, text);
    if |text| > c.chunkSize {
      LongTextSplits(c, text, |text| - 1);
    }
  }

  /** A section id as the header groups carry it: a numeral with no trailing dot. */
  predicate IsSectionId(id: Option<string>) {
    id.Some? && id.value != [] && IsDigit(id.value[0]) && id.value[|id.value| - 1] != '.'
  }

  /** A group as the header path keeps it: a section id and a non-empty stripped body. */
  predicate KeptGroup(g: Group) {
    IsSectionId(g.id) && g.text != [] && IsStripped(g.text)
  }

  /** Groups found under headers give chunks that all have text and a section id. */
  lemma {:induction false} ChunksOfKeptGroups(c: Chunker, groups: seq<Group>, source: Option<string>)
    requires c.chunkSize > 0
    requires forall i :: 0 <= i < |groups| ==> KeptGroup(groups[i])
    ensures var r := DocumentChunks(c, groups, source);
            && (r == [] <==> groups == [])
            && forall i :: 0 <= i < |r| ==> r[i].text != [] && IsStripped(r[i].text) && IsSectionId(r[i].sectionId)
  {
    if groups != [] {
      var init := groups[..|groups| - 1];
      var last := groups[|groups| - 1];
      ChunksOfKeptGroups(c, init, source);
      var front := DocumentChunks(c, init, source);
      var pieces := Split(c, last.text);
      SplitOfStripped(c, last.text);
      var tail := GroupChunks(last, pieces, source);
      var r := front + tail;
      forall i | 0 <= i < |r| ensures r[i].text != [] && IsStripped(r[i].text) && IsSectionId(r[i].sectionId) {
        if i < |front| {
          assert r[i] == front[i];
        } else {
          assert r[i] == tail[i - |front|];
          StripStripped(pieces[i - |front|]);
        }
      }
    }
  }

  /** What `chunk_document` gives: a text without headers is chunked whole, every chunk
      without a section id or title; a text with headers gives chunks that all have text
      and a section id, and at least one chunk whenever some header has a body. */
  lemma ChunksOfDocument(c: Chunker, text: string, source: Option<string>)
    requires c.chunkSize > 0
    ensures Headers(text) == [] ==>
              Chunks(c, text, source) == GroupChunks(Group(None, None, text), Split(c, text), source)
    ensures Headers(text) != [] ==>
              && (Chunks(c, text, source) == [] <==> SectionGroups(text) == [])
              && forall i :: 0 <= i < |Chunks(c, text, source)| ==>
                   var ch := Chunks(c, text, source)[i];
                   ch.text != [] && IsStripped(ch.text) && IsSectionId(ch.sectionId)
  {
    SectionGroupsShape(text);
    var hs := Headers(text);
    if hs == [] {
      assert DocumentChunks(c, [Group(None, None, text)], source)
          == DocumentChunks(c, [], source) + GroupChunks(Group(None, None, text), Split(c, text), source);
    } else {
      var groups := SectionGroups(text);
      forall i | 0 <= i < |groups| ensures KeptGroup(groups[i]) {
        assert HeaderGroupShape(text, hs[0].end, groups[i]);
      }
      ChunksOfKeptGroups(c, groups, source);
    }
  }
}
