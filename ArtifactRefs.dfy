/** Artifact references inside chat text: `[artifact:id]` and `[artifact:id|display text]`.
    The source scans with the global regular expression
    `/\[artifact:([^\]|]+)(?:\|([^\]]+))?\]/g`; here one attempt of that expression at
    one position is `MatchAt`, the regex engine's search for the leftmost match from
    `lastIndex` is `NextMatch` (method `Exec`), and the `while` loop that collects every
    match is `ParseArtifactReferences`. */
module ArtifactRefs {
  import opened Wrappers
  import opened Seqs

  datatype ArtifactReference = ArtifactReference(id: string, displayText: string, start: nat, end: nat)

  const Prefix: string := "[artifact:"
  const DefaultDisplay: string := "artifact"

  /** The characters the id group `[^\]|]+` accepts. */
  predicate IsIdChar(c: char) { c != ']' && c != '|' }

  /** End of the maximal run of id characters starting at `k`. */
  function IdEnd(text: string, k: nat): (j: nat)
    requires k <= |text|
    ensures k <= j <= |text|
    ensures forall m :: k <= m < j ==> IsIdChar(text[m])
    ensures j < |text| ==> !IsIdChar(text[j])
    decreases |text| - k
  {
    if k == |text| || !IsIdChar(text[k]) then k else IdEnd(text, k + 1)
  }

  /** End of the maximal run of characters other than `]` starting at `k`
      (the display group `[^\]]+`). */
  function DisplayEnd(text: string, k: nat): (j: nat)
    requires k <= |text|
    ensures k <= j <= |text|
    ensures forall m :: k <= m < j ==> text[m] != ']'
    ensures j < |text| ==> text[j] == ']'
    decreases |text| - k
  {
    if k == |text| || text[k] == ']' then k else DisplayEnd(text, k + 1)
  }

  predicate ValidId(id: string) {
    id != [] && forall m :: 0 <= m < |id| ==> IsIdChar(id[m])
  }

  predicate ValidDisplay(d: string) {
    d != [] && forall m :: 0 <= m < |d| ==> d[m] != ']'
  }

  /** What a reference found in `text` is: its span lies in the text and spells
      either `[artifact:<id>]`, with the default display text, or
      `[artifact:<id>|<displayText>]`. */
  predicate WellFormed(text: string, r: ArtifactReference) {
    && r.start < r.end <= |text|
    && ValidId(r.id)
    && ValidDisplay(r.displayText)
    && (|| (text[r.start..r.end] == Prefix + r.id + "]" && r.displayText == DefaultDisplay)
        || text[r.start..r.end] == Prefix + r.id + "|" + r.displayText + "]")
  }

  /** One attempt of the regular expression at position `i`. The id group is greedy and
      can only end at `]`, `|` or the end of the text; backtracking into it never helps,
      because the character after a shorter id would be an id character. */
  function MatchAt(text: string, i: nat): (m: Option<ArtifactReference>)
    ensures m.Some? ==> m.value.start == i && WellFormed(text, m.value)
  {
    if i + |Prefix| > |text| || text[i..i + |Prefix|] != Prefix then None
    else
      var k := i + |Prefix|;
      var p := IdEnd(text, k);
      if p == k || p == |text| then None
      else if text[p] == ']' then
        var r := ArtifactReference(text[k..p], DefaultDisplay, i, p + 1);
        SliceParts3(text, i, k, p);
        Some(r)
      else
        var q := DisplayEnd(text, p + 1);
        if q == p + 1 || q == |text| then None
        else
          var r := ArtifactReference(text[k..p], text[p + 1..q], i, q + 1);
          SliceParts5(text, i, k, p, q);
          Some(r)
  }

  /** The converse of MatchAt's contract: a well-formed reference starting at `i` is
      exactly what the regular expression matches there. */
  lemma MatchAtComplete(text: string, r: ArtifactReference)
    requires WellFormed(text, r)
    ensures MatchAt(text, r.start) == Some(r)
  {
    if text[r.start..r.end] == Prefix + r.id + "]" && r.displayText == DefaultDisplay {
      MatchAtPlain(text, r);
    } else {
      MatchAtWithDisplay(text, r);
    }
  }

  lemma MatchAtPlain(text: string, r: ArtifactReference)
    requires r.start < r.end <= |text| && ValidId(r.id) && r.displayText == DefaultDisplay
    requires text[r.start..r.end] == Prefix + r.id + "]"
    ensures MatchAt(text, r.start) == Some(r)
  {
    var i, k := r.start, r.start + |Prefix|;
    var p := k + |r.id|;
    SplitSlice(text, i, r.end, Prefix, r.id + "]");
    SplitSlice(text, k, r.end, r.id, "]");
    SliceChars(text, k, p, r.id);
    assert text[p] == text[p..r.end][0];
    IdEndIsLeast(text, k, p);
  }

  lemma MatchAtWithDisplay(text: string, r: ArtifactReference)
    requires r.start < r.end <= |text| && ValidId(r.id) && ValidDisplay(r.displayText)
    requires text[r.start..r.end] == Prefix + r.id + "|" + r.displayText + "]"
    ensures MatchAt(text, r.start) == Some(r)
  {
    var i, k := r.start, r.start + |Prefix|;
    var p := k + |r.id|;
    var q := p + 1 + |r.displayText|;
    DisplaySpanParts(text, i, r.end, r.id, r.displayText);
    SliceChars(text, k, p, r.id);
    forall m | p + 1 <= m < q ensures text[m] != ']' {
      assert text[m] == text[p + 1..q][m - p - 1];
    }
    MatchAtFromParts(text, i, p, q);
  }

  lemma DisplaySpanParts(text: string, i: nat, e: nat, id: string, d: string)
    requires i <= e <= |text|
    requires text[i..e] == Prefix + id + "|" + d + "]"
    ensures e == i + |Prefix| + |id| + 1 + |d| + 1
    ensures text[i..i + |Prefix|] == Prefix
    ensures text[i + |Prefix|..i + |Prefix| + |id|] == id
    ensures text[i + |Prefix| + |id|] == '|'
    ensures text[i + |Prefix| + |id| + 1..e - 1] == d
    ensures text[e - 1] == ']'
  {
    var k := i + |Prefix|;
    var p := k + |id|;
    var tail := id + ("|" + (d + "]"));
    assert Prefix + id + "|" + d + "]" == Prefix + tail;
    SplitSlice(text, i, e, Prefix, tail);
    SplitSlice(text, k, e, id, "|" + (d + "]"));
    SplitSlice(text, p, e, "|", d + "]");
    SplitSlice(text, p + 1, e, d, "]");
    assert text[p] == text[p..p + 1][0];
    assert text[e - 1] == text[e - 1..e][0];
  }

  /** The display case of MatchAt, from the positions of `|` and `]`. */
  lemma MatchAtFromParts(text: string, i: nat, p: nat, q: nat)
    requires i + |Prefix| < p < p + 1 < q < |text|
    requires text[i..i + |Prefix|] == Prefix
    requires forall m :: i + |Prefix| <= m < p ==> IsIdChar(text[m])
    requires text[p] == '|'
    requires forall m :: p + 1 <= m < q ==> text[m] != ']'
    requires text[q] == ']'
    ensures MatchAt(text, i) == Some(ArtifactReference(text[i + |Prefix|..p], text[p + 1..q], i, q + 1))
  {
    IdEndIsLeast(text, i + |Prefix|, p);
    DisplayEndIsLeast(text, p + 1, q);
  }

  lemma SplitSlice(text: string, lo: nat, hi: nat, a: string, b: string)
    requires lo <= hi <= |text| && text[lo..hi] == a + b
    ensures lo + |a| <= hi && text[lo..lo + |a|] == a && text[lo + |a|..hi] == b
  {
    assert text[lo..lo + |a|] == text[lo..hi][..|a|];
    assert text[lo + |a|..hi] == text[lo..hi][|a|..];
  }

  lemma SliceChars(text: string, lo: nat, hi: nat, id: string)
    requires lo <= hi <= |text| && text[lo..hi] == id && ValidId(id)
    ensures forall m :: lo <= m < hi ==> IsIdChar(text[m])
  {
    forall m | lo <= m < hi ensures IsIdChar(text[m]) {
      assert text[m] == text[lo..hi][m - lo] == id[m - lo];
    }
  }

  lemma {:induction false} IdEndIsLeast(text: string, k: nat, p: nat)
    requires k <= p < |text|
    requires forall m :: k <= m < p ==> IsIdChar(text[m])
    requires !IsIdChar(text[p])
    ensures IdEnd(text, k) == p
    decreases p - k
  {
    if k < p {
      IdEndIsLeast(text, k + 1, p);
    }
  }

  lemma {:induction false} DisplayEndIsLeast(text: string, k: nat, q: nat)
    requires k <= q < |text|
    requires forall m :: k <= m < q ==> text[m] != ']'
    requires text[q] == ']'
    ensures DisplayEnd(text, k) == q
    decreases q - k
  {
    if k < q {
      DisplayEndIsLeast(text, k + 1, q);
    }
  }

  /** `regex.exec(text)` with `regex.lastIndex == i`: the leftmost match at or after `i`. */
  function NextMatch(text: string, i: nat): (m: Option<ArtifactReference>)
    ensures m.Some? ==> i <= m.value.start && MatchAt(text, m.value.start) == m
    ensures m.Some? ==> forall k :: i <= k < m.value.start ==> MatchAt(text, k).None?
    ensures m.None? ==> forall k :: i <= k ==> MatchAt(text, k).None?
    decreases |text| - i
  {
    if i >= |text| then None
    else match MatchAt(text, i)
      case Some(r) => Some(r)
      case None => NextMatch(text, i + 1)
  }

  /** The references in order of position, from `lo` on, inside `[lo, hi)`, none overlapping. */
  predicate Ordered(refs: seq<ArtifactReference>, lo: nat, hi: nat) {
    lo <= hi && (refs == [] || (lo <= refs[0].start < refs[0].end <= hi && Ordered(refs[1..], refs[0].end, hi)))
  }

  /** Every reference the scan from `i` collects. */
  function ParseFrom(text: string, i: nat): (refs: seq<ArtifactReference>)
    requires i <= |text|
    ensures Ordered(refs, i, |text|)
    ensures forall j :: 0 <= j < |refs| ==> WellFormed(text, refs[j])
    decreases |text| - i
  {
    match NextMatch(text, i)
    case None => []
    case Some(r) =>
      var rest := ParseFrom(text, r.end);
      assert ([r] + rest)[1..] == rest;
      [r] + rest
  }

  /** `parseArtifactReferences(text)` as a function. */
  function Parse(text: string): seq<ArtifactReference> {
    ParseFrom(text, 0)
  }

  /** Ordered, spelled out pairwise: strictly increasing starts, and each reference ends
      no later than the next one starts. */
  lemma {:induction false} OrderedPairwise(refs: seq<ArtifactReference>, lo: nat, hi: nat)
    requires Ordered(refs, lo, hi)
    ensures forall j :: 0 <= j < |refs| ==> lo <= refs[j].start < refs[j].end <= hi
    ensures forall j :: 0 <= j < |refs| - 1 ==> refs[j].end <= refs[j + 1].start
  {
    if refs != [] {
      OrderedPairwise(refs[1..], refs[0].end, hi);
      assert forall j :: 0 < j < |refs| ==> refs[j] == refs[1..][j - 1];
    }
  }

  /** No match is skipped: every position where the expression matches is the start of a
      collected reference or lies inside one. */
  lemma {:induction false} ParseFromCovers(text: string, i: nat, k: nat)
    requires i <= k && i <= |text| && MatchAt(text, k).Some?
    ensures exists j :: 0 <= j < |ParseFrom(text, i)| && ParseFrom(text, i)[j].start <= k < ParseFrom(text, i)[j].end
    decreases |text| - i
  {
    var refs := ParseFrom(text, i);
    match NextMatch(text, i)
    case None =>
    case Some(r) =>
      assert refs[0] == r;
      if k >= r.end {
        ParseFromCovers(text, r.end, k);
        var rest := ParseFrom(text, r.end);
        var j :| 0 <= j < |rest| && rest[j].start <= k < rest[j].end;
        assert refs[j + 1] == rest[j];
      }
  }

  /** The search loop inside `regex.exec`: try each position from `lastIndex` on. */
  method Exec(text: string, lastIndex: nat) returns (m: Option<ArtifactReference>)
    ensures m == NextMatch(text, lastIndex)
  {
    var k := lastIndex;
    while k < |text|
      invariant lastIndex <= k
      invariant NextMatch(text, lastIndex) == NextMatch(text, k)
      decreases |text| - k
    {
      var attempt := MatchAt(text, k);
      if attempt.Some? {
        return attempt;
      }
      k := k + 1;
    }
    return None;
  }

  /** `parseArtifactReferences`: call `exec` until it fails, resuming each time at the
      end of the previous match. */
  method ParseArtifactReferences(text: string) returns (references: seq<ArtifactReference>)
    ensures references == Parse(text)
    ensures Ordered(references, 0, |text|)
    ensures forall j :: 0 <= j < |references| ==> WellFormed(text, references[j])
  {
    references := [];
    var lastIndex := 0;
    var m := Exec(text, lastIndex);
    while m.Some?
      invariant lastIndex <= |text|
      invariant m == NextMatch(text, lastIndex)
      invariant references + ParseFrom(text, lastIndex) == Parse(text)
      decreases |text| - lastIndex
    {
      assert ParseFrom(text, lastIndex) == [m.value] + ParseFrom(text, m.value.end);
      references := references + [m.value];
      lastIndex := m.value.end;
      m := Exec(text, lastIndex);
    }
  }

  datatype TextSegment =
    | TextSeg(content: string)
    | ArtifactSeg(content: string, artifactId: string, displayText: string)

  /** The segments from position `last` on, given the references still ahead. */
  function SegmentsFrom(text: string, refs: seq<ArtifactReference>, last: nat): seq<TextSegment>
    requires Ordered(refs, last, |text|)
  {
    if refs == [] then
      if last < |text| then [TextSeg(text[last..])] else []
    else
      var r := refs[0];
      (if r.start > last then [TextSeg(text[last..r.start])] else [])
      + [ArtifactSeg(text[r.start..r.end], r.id, r.displayText)]
      + SegmentsFrom(text, refs[1..], r.end)
  }

  /** `segmentTextWithArtifacts(text)` as a function. */
  function Segment(text: string): seq<TextSegment> {
    var refs := Parse(text);
    if refs == [] then [TextSeg(text)] else SegmentsFrom(text, refs, 0)
  }

  lemma SegmentsFromStep(text: string, refs: seq<ArtifactReference>, k: nat, last: nat)
    requires k < |refs| && Ordered(refs[k..], last, |text|)
    ensures refs[k].start <= refs[k].end <= |text| && Ordered(refs[k + 1..], refs[k].end, |text|)
    ensures SegmentsFrom(text, refs[k..], last)
         == (if refs[k].start > last then [TextSeg(text[last..refs[k].start])] else [])
            + [RefSegment(text, refs[k])] + SegmentsFrom(text, refs[k + 1..], refs[k].end)
  {
    assert refs[k..][0] == refs[k] && refs[k..][1..] == refs[k + 1..];
  }

  /** `segmentTextWithArtifacts`: parse, then walk the references keeping `lastIndex`. */
  method SegmentTextWithArtifacts(text: string) returns (segments: seq<TextSegment>)
    ensures segments == Segment(text)
    ensures Parse(text) == [] ==> segments == [TextSeg(text)]
  {
    var references := ParseArtifactReferences(text);
    if |references| == 0 {
      return [TextSeg(text)];
    }
    segments := SegmentsLoop(text, references);
  }

  /** The `for` loop of `segmentTextWithArtifacts` and the trailing text after it. */
  method SegmentsLoop(text: string, references: seq<ArtifactReference>) returns (segments: seq<TextSegment>)
    requires Ordered(references, 0, |text|)
    ensures segments == SegmentsFrom(text, references, 0)
  {
    segments := [];
    var lastIndex: nat := 0;
    for k := 0 to |references|
      invariant lastIndex <= |text|
      invariant Ordered(references[k..], lastIndex, |text|)
      invariant segments + SegmentsFrom(text, references[k..], lastIndex) == SegmentsFrom(text, references, 0)
    {
      var ref := references[k];
      SegmentsFromStep(text, references, k, lastIndex);
      ghost var gap := if ref.start > lastIndex then [TextSeg(text[lastIndex..ref.start])] else [];
      ghost var before := segments;
      if ref.start > lastIndex {
        segments := segments + [TextSeg(text[lastIndex..ref.start])];
      }
      segments := segments + [ArtifactSeg(text[ref.start..ref.end], ref.id, ref.displayText)];
      assert segments == before + gap + [RefSegment(text, ref)];
      lastIndex := ref.end;
    }
    assert references[|references|..] == [];
    if lastIndex < |text| {
      segments := segments + [TextSeg(text[lastIndex..])];
    }
  }

  function Concat(segs: seq<TextSegment>): string {
    if segs == [] then "" else segs[0].content + Concat(segs[1..])
  }

  lemma {:induction false} ConcatAppend(a: seq<TextSegment>, b: seq<TextSegment>)
    ensures Concat(a + b) == Concat(a) + Concat(b)
  {
    if a == [] {
      AppendEmpty(a, b);
    } else {
      TailOfAppend(a, b);
      ConcatAppend(a[1..], b);
    }
  }

  lemma {:induction false} SegmentsFromConcat(text: string, refs: seq<ArtifactReference>, last: nat)
    requires Ordered(refs, last, |text|)
    ensures Concat(SegmentsFrom(text, refs, last)) == text[last..]
  {
    if refs == [] {
      if last < |text| {
        assert Concat([TextSeg(text[last..])]) == text[last..] + Concat([]);
      }
    } else {
      var r := refs[0];
      var gap: seq<TextSegment> := if r.start > last then [TextSeg(text[last..r.start])] else [];
      var art := [ArtifactSeg(text[r.start..r.end], r.id, r.displayText)];
      var rest := SegmentsFrom(text, refs[1..], r.end);
      SegmentsFromConcat(text, refs[1..], r.end);
      ConcatAppend(gap + art, rest);
      ConcatAppend(gap, art);
      assert Concat(art) == text[r.start..r.end] + Concat([]);
      assert Concat(gap) == text[last..r.start] by {
        if r.start > last {
          assert Concat(gap) == text[last..r.start] + Concat([]);
        }
      }
      Slice3(text, last, r.start, r.end);
    }
  }

  /** Round trip: the segments' contents, concatenated, give back the text. */
  lemma SegmentRoundTrip(text: string)
    ensures Concat(Segment(text)) == text
  {
    if Parse(text) == [] {
      assert Concat([TextSeg(text)]) == text + Concat([]);
    } else {
      SegmentsFromConcat(text, Parse(text), 0);
    }
  }

  /** No text segment is empty and no two text segments are adjacent. */
  predicate TextSegmentsSeparated(segs: seq<TextSegment>) {
    && (forall j :: 0 <= j < |segs| && segs[j].TextSeg? ==> segs[j].content != "")
    && (forall j :: 0 <= j < |segs| - 1 && segs[j].TextSeg? ==> segs[j + 1].ArtifactSeg?)
  }

  lemma {:induction false} SegmentsFromSeparated(text: string, refs: seq<ArtifactReference>, last: nat)
    requires Ordered(refs, last, |text|)
    ensures TextSegmentsSeparated(SegmentsFrom(text, refs, last))
  {
    if refs != [] {
      var r := refs[0];
      var gap: seq<TextSegment> := if r.start > last then [TextSeg(text[last..r.start])] else [];
      var art := [ArtifactSeg(text[r.start..r.end], r.id, r.displayText)];
      var rest := SegmentsFrom(text, refs[1..], r.end);
      SegmentsFromSeparated(text, refs[1..], r.end);
      var all := gap + art + rest;
      assert all == SegmentsFrom(text, refs, last);
      forall j | 0 <= j < |all| && all[j].TextSeg? ensures all[j].content != "" {
        if j >= |gap| + 1 {
          assert all[j] == rest[j - |gap| - 1];
        }
      }
      forall j | 0 <= j < |all| - 1 && all[j].TextSeg? ensures all[j + 1].ArtifactSeg? {
        if j >= |gap| + 1 {
          assert all[j] == rest[j - |gap| - 1] && all[j + 1] == rest[j + 1 - |gap| - 1];
        }
      }
    }
  }

  /** When the text holds at least one reference, its segmentation has no empty text
      segment and never two text segments in a row. */
  lemma SegmentSeparated(text: string)
    requires Parse(text) != []
    ensures TextSegmentsSeparated(Segment(text))
  {
    SegmentsFromSeparated(text, Parse(text), 0);
  }

  function ArtifactSegments(segs: seq<TextSegment>): seq<TextSegment> {
    if segs == [] then []
    else (if segs[0].ArtifactSeg? then [segs[0]] else []) + ArtifactSegments(segs[1..])
  }

  lemma {:induction false} ArtifactSegmentsAppend(a: seq<TextSegment>, b: seq<TextSegment>)
    ensures ArtifactSegments(a + b) == ArtifactSegments(a) + ArtifactSegments(b)
  {
    if a == [] {
      AppendEmpty(a, b);
    } else {
      TailOfAppend(a, b);
      ArtifactSegmentsAppend(a[1..], b);
    }
  }

  /** The artifact segment a reference becomes. */
  function RefSegment(text: string, r: ArtifactReference): TextSegment
    requires r.start <= r.end <= |text|
  {
    ArtifactSeg(text[r.start..r.end], r.id, r.displayText)
  }

  lemma {:induction false} SegmentsFromArtifacts(text: string, refs: seq<ArtifactReference>, last: nat)
    requires Ordered(refs, last, |text|)
    ensures |ArtifactSegments(SegmentsFrom(text, refs, last))| == |refs|
    ensures forall j :: 0 <= j < |refs| ==>
      refs[j].start <= refs[j].end <= |text| &&
      ArtifactSegments(SegmentsFrom(text, refs, last))[j] == RefSegment(text, refs[j])
  {
    OrderedPairwise(refs, last, |text|);
    if refs == [] {
      if last < |text| {
        assert ArtifactSegments([TextSeg(text[last..])]) == [] + ArtifactSegments([]);
      }
    } else {
      var r := refs[0];
      var gap: seq<TextSegment> := if r.start > last then [TextSeg(text[last..r.start])] else [];
      var art := [ArtifactSeg(text[r.start..r.end], r.id, r.displayText)];
      var rest := SegmentsFrom(text, refs[1..], r.end);
      SegmentsFromArtifacts(text, refs[1..], r.end);
      ArtifactSegmentsAppend(gap + art, rest);
      ArtifactSegmentsAppend(gap, art);
      assert ArtifactSegments(art) == art + ArtifactSegments([]);
      assert ArtifactSegments(gap) == [] by {
        if r.start > last {
          assert ArtifactSegments(gap) == [] + ArtifactSegments([]);
        }
      }
      var tail := ArtifactSegments(rest);
      AppendEmpty([], art);
      assert ArtifactSegments(SegmentsFrom(text, refs, last)) == art + tail;
      forall j | 0 <= j < |refs|
        ensures (art + tail)[j] == RefSegment(text, refs[j])
      {
        if j > 0 {
          assert refs[j] == refs[1..][j - 1];
          assert (art + tail)[j] == tail[j - 1];
        }
      }
    }
  }

  /** One artifact segment per reference, in the same order, carrying that reference's
      id and display text, with the matched span as its content. */
  lemma SegmentArtifacts(text: string)
    ensures |ArtifactSegments(Segment(text))| == |Parse(text)|
    ensures forall j :: 0 <= j < |Parse(text)| ==>
      Parse(text)[j].start < Parse(text)[j].end <= |text| &&
      ArtifactSegments(Segment(text))[j] == RefSegment(text, Parse(text)[j])
  {
    var refs := Parse(text);
    OrderedPairwise(refs, 0, |text|);
    if refs == [] {
      assert ArtifactSegments([TextSeg(text)]) == [] + ArtifactSegments([]);
    } else {
      SegmentsFromArtifacts(text, refs, 0);
    }
  }
}
