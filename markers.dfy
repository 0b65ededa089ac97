/** The marker parser of `speak`: splits free text at `[move:<name>]` markers into ordered
    text and move segments, the way `re.finditer` walks the pattern `\[move:([^\]]+)\]`. */
module Markers {
  import opened Wrappers

  datatype Segment = Text(content: string) | Move(name: string)

  /** The literal that opens a marker. */
  const Open: string := "[move:"

  /** No `]` in `t[lo..hi]`. */
  predicate NoCloseIn(t: string, lo: nat, hi: nat)
    requires hi <= |t|
    decreases hi - lo
  {
    lo >= hi || (t[lo] != ']' && NoCloseIn(t, lo + 1, hi))
  }

  lemma {:induction false} NoCloseInMeans(t: string, lo: nat, hi: nat)
    requires lo <= hi <= |t|
    ensures NoCloseIn(t, lo, hi) <==> ']' !in t[lo..hi]
    decreases hi - lo
  {
    if lo < hi {
      NoCloseInMeans(t, lo + 1, hi);
      assert t[lo..hi] == [t[lo]] + t[lo + 1..hi];
    }
  }

  /** First index at or after `k` that holds `]`, or `|t|` when there is none. */
  function NameEnd(t: string, k: nat): (e: nat)
    requires k <= |t|
    ensures k <= e <= |t|
    ensures e < |t| ==> t[e] == ']'
    ensures NoCloseIn(t, k, e)
    decreases |t| - k
  {
    if k == |t| || t[k] == ']' then k else NameEnd(t, k + 1)
  }

  /** The literal `[move:` starts at `p`. */
  predicate OpensAt(t: string, p: nat)
  {
    p + 6 <= |t| && t[p] == '[' && t[p + 1] == 'm' && t[p + 2] == 'o' && t[p + 3] == 'v'
    && t[p + 4] == 'e' && t[p + 5] == ':'
  }

  /** The pattern matches at `p` with its closing bracket at `c`: the literal `[move:`, then
      one or more characters other than `]`, then `]`. */
  predicate IsMarker(t: string, p: nat, c: nat)
  {
    && p + |Open| < c < |t|
    && OpensAt(t, p)
    && t[c] == ']'
    && NoCloseIn(t, p + |Open|, c)
  }

  /** The first `]` after a run without one is where `NameEnd` stops. */
  lemma {:induction false} NameEndFirst(t: string, k: nat, c: nat)
    requires k <= c < |t| && t[c] == ']' && NoCloseIn(t, k, c)
    ensures NameEnd(t, k) == c
    decreases c - k
  {
    if k < c {
      NameEndFirst(t, k + 1, c);
    }
  }

  /** The pattern tried at position `p`: the index of its closing bracket, if it matches. */
  function MarkerAt(t: string, p: nat): (r: Option<nat>)
    ensures r.Some? ==> IsMarker(t, p, r.value)
  {
    if OpensAt(t, p) then
      var e := NameEnd(t, p + |Open|);
      if p + |Open| < e < |t| then Some(e) else None
    else None
  }

  /** A match is found where it is: the attempt at `p` reports the closing bracket `c`. */
  lemma MarkerAtComplete(t: string, p: nat, c: nat)
    requires IsMarker(t, p, c)
    ensures MarkerAt(t, p) == Some(c)
  {
    NameEndFirst(t, p + |Open|, c);
  }

  /** No match of the pattern starts in `[lo, hi)`. */
  predicate NoMatchIn(t: string, lo: nat, hi: nat)
    decreases hi - lo
  {
    lo >= hi || (MarkerAt(t, lo).None? && NoMatchIn(t, lo + 1, hi))
  }

  /** The recursive reading of `NoMatchIn` agrees with the quantified one. */
  lemma {:induction false} NoMatchInMeans(t: string, lo: nat, hi: nat)
    ensures NoMatchIn(t, lo, hi) <==> forall p: nat, c: nat :: lo <= p < hi ==> !IsMarker(t, p, c)
    decreases hi - lo
  {
    if lo < hi {
      NoMatchInMeans(t, lo + 1, hi);
      forall c: nat | IsMarker(t, lo, c) ensures MarkerAt(t, lo).Some? {
        MarkerAtComplete(t, lo, c);
      }
    }
  }

  /** Where `re.finditer`, resuming at `from`, finds its next match: the leftmost start. */
  function FindMarker(t: string, from: nat): (r: Option<nat>)
    requires from <= |t|
    ensures r.Some? ==> from <= r.value < |t| && MarkerAt(t, r.value).Some?
    ensures r.Some? ==> NoMatchIn(t, from, r.value)
    ensures r.None? ==> NoMatchIn(t, from, |t|)
    decreases |t| - from
  {
    if from == |t| then None
    else if MarkerAt(t, from).Some? then Some(from)
    else FindMarker(t, from + 1)
  }

  /** The text between the end of the previous match and the start of the next, if any. */
  function Gap(t: string, last: nat, p: nat): (g: seq<Segment>)
    requires last <= p <= |t|
    ensures g == [] <==> last == p
  {
    if last < p then [Text(t[last..p])] else []
  }

  /** The segments `_parse_choreographed_text` produces once its last match ended at `last`. */
  function ParseFrom(t: string, last: nat): seq<Segment>
    requires last <= |t|
    decreases |t| - last
  {
    match FindMarker(t, last)
    case None => Gap(t, last, |t|)
    case Some(p) =>
      var c := MarkerAt(t, p).value;
      Gap(t, last, p) + [Move(t[p + |Open|..c])] + ParseFrom(t, c + 1)
  }

  lemma ParseFromNext(t: string, last: nat, p: nat, c: nat)
    requires last <= |t| && FindMarker(t, last) == Some(p) && MarkerAt(t, p) == Some(c)
    ensures ParseFrom(t, last) == Gap(t, last, p) + [Move(t[p + |Open|..c])] + ParseFrom(t, c + 1)
  {
  }

  lemma ParseFromLast(t: string, last: nat)
    requires last <= |t| && FindMarker(t, last) == None
    ensures ParseFrom(t, last) == Gap(t, last, |t|)
  {
  }

  function Parse(t: string): seq<Segment>
  {
    ParseFrom(t, 0)
  }

  /** A segment written back as text: a move re-wrapped as `[move:<name>]`. */
  function RenderSegment(s: Segment): string
  {
    match s
    case Text(c) => c
    case Move(n) => Open + n + "]"
  }

  function Render(segs: seq<Segment>): string
    decreases |segs|
  {
    if segs == [] then "" else RenderSegment(segs[0]) + Render(segs[1..])
  }

  predicate ValidSegment(s: Segment)
  {
    match s
    case Text(c) => c != []
    case Move(n) => n != [] && ']' !in n
  }

  /** No empty text, no two texts side by side, and every move name non-empty without `]`. */
  predicate WellFormed(segs: seq<Segment>)
  {
    && (forall i :: 0 <= i < |segs| ==> ValidSegment(segs[i]))
    && (forall i :: 0 < i < |segs| ==> !(segs[i - 1].Text? && segs[i].Text?))
  }

  lemma {:induction false} RenderAppend(a: seq<Segment>, b: seq<Segment>)
    ensures Render(a + b) == Render(a) + Render(b)
    decreases |a|
  {
    if a == [] {
      assert a + b == b;
    } else {
      assert (a + b)[0] == a[0];
      assert (a + b)[1..] == a[1..] + b;
      RenderAppend(a[1..], b);
    }
  }

  lemma Assoc<T>(a: seq<T>, b: seq<T>, c: seq<T>)
    ensures (a + b) + c == a + (b + c)
  {
  }

  lemma SliceSplit<T>(t: seq<T>, a: nat, b: nat)
    requires a <= b <= |t|
    ensures t[a..] == t[a..b] + t[b..]
  {
  }

  lemma RenderSingle(s: Segment)
    ensures Render([s]) == RenderSegment(s)
  {
    assert Render([s]) == RenderSegment(s) + Render([]);
  }

  /** A match re-wrapped is the text it was cut from. */
  lemma MarkerSlice(t: string, p: nat, c: nat)
    requires MarkerAt(t, p) == Some(c)
    ensures t[p..] == RenderSegment(Move(t[p + |Open|..c])) + t[c + 1..]
  {
    assert IsMarker(t, p, c);
    assert t[p..p + |Open|] == Open;
    assert t[p..c + 1] == t[p..p + |Open|] + t[p + |Open|..c] + [t[c]];
    assert t[p..] == t[p..c + 1] + t[c + 1..];
  }

  lemma GapRender(t: string, last: nat, p: nat)
    requires last <= p <= |t|
    ensures Render(Gap(t, last, p)) == t[last..p]
  {
    if last < p {
      RenderSingle(Text(t[last..p]));
    }
  }

  lemma RenderStep(t: string, last: nat, p: nat, c: nat, m: Segment, r: seq<Segment>)
    requires last <= p <= c < |t|
    requires t[p..] == RenderSegment(m) + t[c + 1..]
    requires Render(r) == t[c + 1..]
    ensures Render(Gap(t, last, p) + [m] + r) == t[last..]
  {
    var g := Gap(t, last, p);
    RenderAppend(g + [m], r);
    RenderAppend(g, [m]);
    GapRender(t, last, p);
    RenderSingle(m);
    SliceSplit(t, last, p);
    Assoc(t[last..p], RenderSegment(m), t[c + 1..]);
  }

  lemma RenderAtEnd(t: string, last: nat)
    requires last <= |t| && FindMarker(t, last) == None
    ensures Render(ParseFrom(t, last)) == t[last..]
  {
    ParseFromLast(t, last);
    GapRender(t, last, |t|);
    assert t[last..|t|] == t[last..];
  }

  lemma RenderAfterMatch(t: string, last: nat, p: nat, c: nat)
    requires last <= |t| && FindMarker(t, last) == Some(p) && MarkerAt(t, p) == Some(c)
    requires Render(ParseFrom(t, c + 1)) == t[c + 1..]
    ensures Render(ParseFrom(t, last)) == t[last..]
  {
    ParseFromNext(t, last, p, c);
    MarkerSlice(t, p, c);
    RenderStep(t, last, p, c, Move(t[p + |Open|..c]), ParseFrom(t, c + 1));
  }

  lemma {:induction false} ParseFromRender(t: string, last: nat)
    requires last <= |t|
    ensures Render(ParseFrom(t, last)) == t[last..]
    decreases |t| - last
  {
    match FindMarker(t, last)
    case None =>
      RenderAtEnd(t, last);
    case Some(p) =>
      var c := MarkerAt(t, p).value;
      ParseFromRender(t, c + 1);
      RenderAfterMatch(t, last, p, c);
  }

  /** A move name cut out of a match is non-empty and holds no `]`. */
  lemma MarkerName(t: string, p: nat, c: nat)
    requires MarkerAt(t, p) == Some(c)
    ensures ValidSegment(Move(t[p + |Open|..c]))
  {
    assert IsMarker(t, p, c);
    NoCloseInMeans(t, p + |Open|, c);
  }

  lemma ShapeStep(t: string, last: nat, p: nat, m: Segment, r: seq<Segment>)
    requires last <= p <= |t| && m.Move? && ValidSegment(m) && WellFormed(r)
    ensures WellFormed(Gap(t, last, p) + [m] + r)
  {
    var g := Gap(t, last, p);
    var s := g + [m] + r;
    assert s[|g|] == m;
    forall i | 0 <= i < |s| ensures ValidSegment(s[i]) {
      if i > |g| { assert s[i] == r[i - |g| - 1]; }
    }
    forall i | 0 < i < |s| ensures !(s[i - 1].Text? && s[i].Text?) {
      if i > |g| + 1 { assert s[i - 1] == r[i - |g| - 2] && s[i] == r[i - |g| - 1]; }
    }
  }

  lemma {:induction false} ParseFromShape(t: string, last: nat)
    requires last <= |t|
    ensures WellFormed(ParseFrom(t, last))
    decreases |t| - last
  {
    match FindMarker(t, last)
    case None =>
      ParseFromLast(t, last);
    case Some(p) =>
      var c := MarkerAt(t, p).value;
      ParseFromNext(t, last, p, c);
      ParseFromShape(t, c + 1);
      MarkerName(t, p, c);
      ShapeStep(t, last, p, Move(t[p + |Open|..c]), ParseFrom(t, c + 1));
  }

  /** Concatenating the text segments verbatim and the moves re-wrapped gives the input back. */
  lemma ParseRoundTrip(t: string)
    ensures Render(Parse(t)) == t
  {
    ParseFromRender(t, 0);
  }

  /** The parser never emits an empty text, never two texts in a row, and every move name
      is non-empty and free of `]`. */
  lemma ParseShape(t: string)
    ensures WellFormed(Parse(t))
  {
    ParseFromShape(t, 0);
  }

  /** The pattern tried at one position, as the regex engine does it: compare the literal,
      then run over the name up to the first `]`. */
  method MatchMarker(t: string, p: nat) returns (close: Option<nat>)
    ensures close == MarkerAt(t, p)
  {
    if !OpensAt(t, p) {
      return None;
    }
    var j := p + |Open|;
    while j < |t| && t[j] != ']'
      invariant p + |Open| <= j <= |t|
      invariant NameEnd(t, p + |Open|) == NameEnd(t, j)
      decreases |t| - j
    {
      j := j + 1;
    }
    if p + |Open| < j < |t| {
      close := Some(j);
    } else {
      close := None;
    }
  }

  lemma Regroup<T>(done: seq<T>, g: seq<T>, m: seq<T>, r: seq<T>)
    ensures done + (g + m + r) == (done + g + m) + r
  {
  }

  /** One turn of the scan in `_parse_choreographed_text`: try the pattern at `pos`; on a
      match, emit the gap since the previous match (when non-empty) and the move, and resume
      after the closing bracket; otherwise move on by one character. */
  method ScanStep(text: string, segments: seq<Segment>, lastEnd: nat, pos: nat, ghost whole: seq<Segment>)
    returns (segments': seq<Segment>, lastEnd': nat, pos': nat)
    requires lastEnd <= pos < |text|
    requires FindMarker(text, lastEnd) == FindMarker(text, pos)
    requires segments + ParseFrom(text, lastEnd) == whole
    ensures lastEnd' <= pos' <= |text| && pos < pos'
    ensures FindMarker(text, lastEnd') == FindMarker(text, pos')
    ensures segments' + ParseFrom(text, lastEnd') == whole
  {
    var close := MatchMarker(text, pos);
    match close
    case None =>
      assert FindMarker(text, pos) == FindMarker(text, pos + 1);
      segments', lastEnd', pos' := segments, lastEnd, pos + 1;
    case Some(c) =>
      ghost var gap := Gap(text, lastEnd, pos);
      var move := [Move(text[pos + |Open|..c])];
      ParseFromNext(text, lastEnd, pos, c);
      Regroup(segments, gap, move, ParseFrom(text, c + 1));
      segments' := segments;
      if pos > lastEnd {
        segments' := segments' + [Text(text[lastEnd..pos])];
      } else {
        assert segments == segments + gap;
      }
      segments' := segments' + move;
      assert segments' == segments + gap + move;
      lastEnd', pos' := c + 1, c + 1;
  }

  /** `_parse_choreographed_text`: walks the matches left to right, emitting the gap before
      each one when it is non-empty, then the move, then any non-empty remainder. */
  method ParseChoreographedText(text: string) returns (segments: seq<Segment>)
    ensures segments == Parse(text)
    ensures Render(segments) == text
    ensures WellFormed(segments)
  {
    segments := [];
    var lastEnd: nat := 0;
    var pos: nat := 0;
    while pos < |text|
      invariant lastEnd <= pos <= |text|
      invariant FindMarker(text, lastEnd) == FindMarker(text, pos)
      invariant segments + ParseFrom(text, lastEnd) == Parse(text)
      decreases |text| - pos
    {
      segments, lastEnd, pos := ScanStep(text, segments, lastEnd, pos, Parse(text));
    }
    ParseFromLast(text, lastEnd);
    ghost var before := segments;
    if lastEnd < |text| {
      assert text[lastEnd..] == text[lastEnd..|text|];
      segments := segments + [Text(text[lastEnd..])];
    } else {
      assert segments == segments + Gap(text, lastEnd, |text|);
    }
    assert segments == before + Gap(text, lastEnd, |text|);
    ParseRoundTrip(text);
    ParseShape(text);
  }

  // ---------------------------------------------------------------- a worked example

  /** Two markers in a row, then a short chunk. */
  const Sample: string := "[move:a][move:b] Hi"

  lemma SampleChars()
    ensures |Sample| == 19
    ensures Sample[..8] == "[move:a]" && Sample[8..16] == "[move:b]" && Sample[16..] == " Hi"
  {
  }

  lemma SampleMarkers()
    ensures MarkerAt(Sample, 0) == Some(7) && MarkerAt(Sample, 8) == Some(15)
    ensures Sample[6..7] == "a" && Sample[14..15] == "b"
  {
    SampleChars();
    assert Sample[..8][6] == Sample[6];
    assert NameEnd(Sample, 6) == 7;
    assert NameEnd(Sample, 14) == 15;
  }

  lemma SampleTail()
    ensures FindMarker(Sample, 16) == None
  {
    SampleChars();
    assert MarkerAt(Sample, 16) == None && MarkerAt(Sample, 17) == None && MarkerAt(Sample, 18) == None;
  }

  lemma ParseSampleTail()
    ensures ParseFrom(Sample, 16) == [Text(" Hi")]
  {
    SampleChars();
    SampleTail();
    ParseFromLast(Sample, 16);
    assert Sample[16..|Sample|] == " Hi";
  }

  lemma ParseSampleSecond()
    ensures ParseFrom(Sample, 8) == [Move("b"), Text(" Hi")]
  {
    SampleMarkers();
    ParseSampleTail();
    assert FindMarker(Sample, 8) == Some(8);
    ParseFromNext(Sample, 8, 8, 15);
  }

  /** The sample parses into its two moves and the chunk. */
  lemma ParseSample()
    ensures Parse(Sample) == [Move("a"), Move("b"), Text(" Hi")]
  {
    SampleMarkers();
    ParseSampleSecond();
    assert FindMarker(Sample, 0) == Some(0);
    ParseFromNext(Sample, 0, 0, 7);
  }
}
