/** The streaming text segmenter of the speech service: reply fragments accumulate in a buffer,
    and punctuation-aware segments bounded by a minimum, maximum and preferred length are cut off
    the front of it. */
module TtsService {
  import opened Wrappers
  import opened Py
  import Seqs

  /** The three lengths a segmenter is configured with. */
  datatype Limits = Limits(minLength: int, maxLength: int, preferLength: int)

  /** `[。！？；.!?;]` */
  predicate IsSentenceEnd(c: char) {
    c == '。' || c == '！' || c == '？' || c == '；' || c == '.' || c == '!' || c == '?' || c == ';'
  }

  /** `[，、,]` */
  predicate IsSecondary(c: char) {
    c == '，' || c == '、' || c == ','
  }

  function Dist(pos: int, prefer: int): nat {
    if pos >= prefer then pos - prefer else prefer - pos
  }

  /** `pos` is the end of a sentence-ending punctuation match that is long enough. */
  predicate IsCut(b: string, lim: Limits, pos: int) {
    0 < pos <= |b| && IsSentenceEnd(b[pos - 1]) && pos >= lim.minLength
  }

  /** `c` is at least as good a cut as `d`: nearer to the preferred length, or as near and earlier. */
  predicate BetterOrEqual(lim: Limits, c: int, d: int) {
    Dist(c, lim.preferLength) < Dist(d, lim.preferLength)
    || (Dist(c, lim.preferLength) == Dist(d, lim.preferLength) && c <= d)
  }

  /** The cut chosen among the match ends up to `n`. */
  function NaturalCutUpTo(b: string, lim: Limits, n: nat): (r: Option<nat>)
    requires n <= |b|
    ensures r.None? <==> forall p :: 0 < p <= n ==> !IsCut(b, lim, p)
    ensures r.Some? ==> 0 < r.value <= n && IsCut(b, lim, r.value)
    ensures r.Some? ==> forall p :: 0 < p <= n && IsCut(b, lim, p) ==> BetterOrEqual(lim, r.value, p)
  {
    if n == 0 then None
    else
      var prev := NaturalCutUpTo(b, lim, n - 1);
      if IsCut(b, lim, n) && (prev.None? || Dist(n, lim.preferLength) < Dist(prev.value, lim.preferLength))
      then Some(n)
      else prev
  }

  /** One more character: its sentence end replaces the best cut so far only when strictly nearer. */
  lemma NaturalCutStep(b: string, lim: Limits, n: nat)
    requires n < |b|
    ensures IsCut(b, lim, n + 1) <==> IsSentenceEnd(b[n]) && n + 1 >= lim.minLength
    ensures var prev := NaturalCutUpTo(b, lim, n);
      NaturalCutUpTo(b, lim, n + 1) ==
        if IsCut(b, lim, n + 1) && (prev.None? || Dist(n + 1, lim.preferLength) < Dist(prev.value, lim.preferLength))
        then Some(n + 1) else prev
  {
  }

  /** The natural break of `_find_natural_break`: the sentence end at or after `minLength` whose end
      is nearest `preferLength`, the earliest one on ties; None when there is none. */
  function NaturalCut(b: string, lim: Limits): (r: Option<nat>)
    ensures r.None? <==> forall p :: !IsCut(b, lim, p)
    ensures r.Some? ==> IsCut(b, lim, r.value)
    ensures r.Some? ==> forall p :: IsCut(b, lim, p) ==> BetterOrEqual(lim, r.value, p)
  {
    NaturalCutUpTo(b, lim, |b|)
  }

  /** `q` is the end of a `[，、,]` match. */
  predicate SecondaryAt(b: string, q: int) {
    0 < q <= |b| && IsSecondary(b[q - 1])
  }

  /** The end of the last secondary delimiter among the first `n` characters, or 0. */
  function LastSecondary(b: string, n: nat): (p: nat)
    requires n <= |b|
    ensures p <= n
    ensures p > 0 ==> SecondaryAt(b, p)
    ensures forall q :: p < q <= n ==> !SecondaryAt(b, q)
  {
    if n == 0 then 0 else if IsSecondary(b[n - 1]) then n else LastSecondary(b, n - 1)
  }

  /** The cut of `_force_split` for a buffer longer than `maxLength`: after the last `，、,` within
      the first `maxLength` characters, or at exactly `maxLength`. */
  function ForceCut(b: string, lim: Limits): (pos: nat)
    requires 1 <= lim.maxLength < |b|
    ensures 1 <= pos <= lim.maxLength
    ensures (exists q :: q <= lim.maxLength && SecondaryAt(b, q)) ==>
      SecondaryAt(b, pos) && forall q :: pos < q <= lim.maxLength ==> !SecondaryAt(b, q)
    ensures (forall q :: q <= lim.maxLength ==> !SecondaryAt(b, q)) ==> pos == lim.maxLength
  {
    var p := LastSecondary(b, lim.maxLength);
    if p > 0 then p else lim.maxLength
  }

  /** The segment emitted and the buffer kept when cutting at `pos`. */
  function Cut(b: string, pos: nat): (string, string)
    requires pos <= |b|
  {
    (Strip(b[..pos]), Strip(b[pos..]))
  }

  /** Cutting loses only whitespace. */
  lemma {:induction false} CutKeepsText(b: string, pos: nat)
    requires pos <= |b|
    ensures NonSpace(Cut(b, pos).0) + NonSpace(Cut(b, pos).1) == NonSpace(b)
  {
    assert b == b[..pos] + b[pos..];
    NonSpaceAppend(b[..pos], b[pos..]);
    StripKeepsNonSpace(b[..pos]);
    StripKeepsNonSpace(b[pos..]);
  }

  /** What `_extract_segment` does to buffer `b`: None, or the segment and the new buffer. */
  function Extract(b: string, lim: Limits): (r: Option<(string, string)>)
    requires lim.maxLength >= 1
    ensures r.None? <==> b == [] || (|b| <= lim.maxLength && (|b| < lim.minLength || NaturalCut(b, lim).None?))
    ensures r.Some? ==> |r.value.1| < |b|
    ensures r.Some? ==> |r.value.0| <= lim.maxLength
  {
    if b == [] then None
    else if |b| > lim.maxLength then Some(Cut(b, ForceCut(b, lim)))
    else if |b| < lim.minLength then None
    else match NaturalCut(b, lim)
      case None => None
      case Some(pos) => Some(Cut(b, pos))
  }

  /** A natural-break segment always holds its punctuation mark, so it is never empty. */
  lemma {:induction false} NaturalSegmentNonEmpty(b: string, lim: Limits, pos: nat)
    requires IsCut(b, lim, pos)
    ensures Strip(b[..pos]) != []
  {
    assert b[..pos][pos - 1] == b[pos - 1];
    assert !IsSpace(b[pos - 1]);
  }

  /** A buffer within `maxLength` but shorter than `minLength` yields nothing. */
  lemma {:induction false} ShortBufferWaits(b: string, lim: Limits)
    requires lim.maxLength >= 1 && |b| <= lim.maxLength && |b| < lim.minLength
    ensures Extract(b, lim) == None
  {
  }

  /** Every extraction loses only the whitespace at the cut. */
  lemma {:induction false} ExtractKeepsText(b: string, lim: Limits)
    requires lim.maxLength >= 1 && Extract(b, lim).Some?
    ensures NonSpace(Extract(b, lim).value.0) + NonSpace(Extract(b, lim).value.1) == NonSpace(b)
  {
    if |b| > lim.maxLength {
      CutKeepsText(b, ForceCut(b, lim));
    } else {
      CutKeepsText(b, NaturalCut(b, lim).value);
    }
  }

  /** The `add_text` loop: extract until nothing more can be extracted; the segments in extraction
      order and the buffer left. */
  function ExtractAll(b: string, lim: Limits): (r: (seq<string>, string))
    requires lim.maxLength >= 1
    ensures |r.1| <= lim.maxLength
    ensures forall k :: 0 <= k < |r.0| ==> |r.0[k]| <= lim.maxLength
    decreases |b|
  {
    var e := Extract(b, lim);
    if e.None? then ([], b)
    else
      var r := ExtractAll(e.value.1, lim);
      BoundedAppend([e.value.0], r.0, lim.maxLength);
      ([e.value.0] + r.0, r.1)
  }

  /** Two lists of segments of at most `n` characters make one. */
  lemma BoundedAppend(xs: seq<string>, ys: seq<string>, n: nat)
    requires forall k :: 0 <= k < |xs| ==> |xs[k]| <= n
    requires forall k :: 0 <= k < |ys| ==> |ys[k]| <= n
    ensures forall k :: 0 <= k < |xs + ys| ==> |(xs + ys)[k]| <= n
  {
  }

  lemma {:induction false} ExtractAllUnfold(b: string, lim: Limits)
    requires lim.maxLength >= 1
    ensures Extract(b, lim).None? ==> ExtractAll(b, lim) == ([], b)
    ensures Extract(b, lim).Some? ==>
      ExtractAll(b, lim) == ([Extract(b, lim).value.0] + ExtractAll(Extract(b, lim).value.1, lim).0,
                             ExtractAll(Extract(b, lim).value.1, lim).1)
  {
  }

  /** Repeated extraction loses only whitespace too. */
  lemma {:induction false} ExtractAllKeepsText(b: string, lim: Limits)
    requires lim.maxLength >= 1
    ensures NonSpace(Seqs.Concat(ExtractAll(b, lim).0)) + NonSpace(ExtractAll(b, lim).1) == NonSpace(b)
    decreases |b|
  {
    match Extract(b, lim)
    case None =>
    case Some((seg, rest)) =>
      var (more, left) := ExtractAll(rest, lim);
      ExtractAllKeepsText(rest, lim);
      ExtractKeepsText(b, lim);
      assert ExtractAll(b, lim) == ([seg] + more, left);
      Seqs.ConcatCons(seg, more);
      PrependKeepsText(seg, rest, Seqs.Concat(more), left, b);
  }

  /** One extracted segment in front of the rest's extraction keeps the text of both. */
  lemma {:induction false} PrependKeepsText(seg: string, rest: string, more: string, left: string, b: string)
    requires NonSpace(seg) + NonSpace(rest) == NonSpace(b)
    requires NonSpace(more) + NonSpace(left) == NonSpace(rest)
    ensures NonSpace(seg + more) + NonSpace(left) == NonSpace(b)
  {
    NonSpaceAppend(seg, more);
    Seqs.AppendAssoc(NonSpace(seg), NonSpace(more), NonSpace(left));
  }

  /** The segments and the buffer after the chunks of a stream have been added in order. */
  function Feed(chunks: seq<string>, lim: Limits): (r: (seq<string>, string))
    requires lim.maxLength >= 1
    ensures |r.1| <= lim.maxLength
    ensures forall k :: 0 <= k < |r.0| ==> |r.0[k]| <= lim.maxLength
  {
    if chunks == [] then ([], "")
    else
      var fed := Feed(chunks[..|chunks| - 1], lim);
      var all := ExtractAll(fed.1 + chunks[|chunks| - 1], lim);
      BoundedAppend(fed.0, all.0, lim.maxLength);
      (fed.0 + all.0, all.1)
  }

  /** What `flush` returns for a buffer. */
  function Flushed(buf: string): Option<string> {
    if buf == [] then None else Some(Strip(buf))
  }

  /** The output of `segment_text_stream`: every `add_text` segment in order, then the flushed
      remainder when it is non-empty. */
  function StreamSegments(chunks: seq<string>, lim: Limits): seq<string>
    requires lim.maxLength >= 1
  {
    var fed := Feed(chunks, lim);
    var last := Flushed(fed.1);
    fed.0 + (if last.Some? && last.value != [] then [last.value] else [])
  }

  /** No streamed segment is longer than `maxLength`. */
  lemma {:induction false} StreamSegmentsBounded(chunks: seq<string>, lim: Limits)
    requires lim.maxLength >= 1
    ensures forall k :: 0 <= k < |StreamSegments(chunks, lim)| ==> |StreamSegments(chunks, lim)[k]| <= lim.maxLength
  {
    var fed := Feed(chunks, lim);
    var last := Flushed(fed.1);
    var tail := if last.Some? && last.value != [] then [last.value] else [];
    assert StreamSegments(chunks, lim) == fed.0 + tail;
    assert |Strip(fed.1)| <= |fed.1|;
    BoundedAppend(fed.0, tail, lim.maxLength);
  }

  lemma {:induction false} FeedKeepsText(chunks: seq<string>, lim: Limits)
    requires lim.maxLength >= 1
    ensures NonSpace(Seqs.Concat(Feed(chunks, lim).0)) + NonSpace(Feed(chunks, lim).1) == NonSpace(Seqs.Concat(chunks))
  {
    if chunks != [] {
      var init := chunks[..|chunks| - 1];
      var last := chunks[|chunks| - 1];
      var fed := Feed(init, lim);
      var segs, buf := fed.0, fed.1;
      var all := ExtractAll(buf + last, lim);
      var more, rest := all.0, all.1;
      assert Feed(chunks, lim) == (segs + more, rest);
      assert Seqs.Concat(chunks) == Seqs.Concat(init) + last;
      FeedKeepsText(init, lim);
      ExtractAllKeepsText(buf + last, lim);
      Seqs.ConcatAppend(segs, more);
      NonSpaceAppend(Seqs.Concat(segs), Seqs.Concat(more));
      NonSpaceAppend(buf, last);
      NonSpaceAppend(Seqs.Concat(init), last);
      var S, M, R, B, L := NonSpace(Seqs.Concat(segs)), NonSpace(Seqs.Concat(more)), NonSpace(rest), NonSpace(buf), NonSpace(last);
      calc {
        NonSpace(Seqs.Concat(segs + more)) + R;
        (S + M) + R;
        { Seqs.AppendAssoc(S, M, R); }
        S + (M + R);
        S + (B + L);
        { Seqs.AppendAssoc(S, B, L); }
        (S + B) + L;
        NonSpace(Seqs.Concat(init)) + L;
        NonSpace(Seqs.Concat(chunks));
      }
    }
  }

  /** The stream's segments hold exactly the non-whitespace text of its input, in order. */
  lemma {:induction false} StreamKeepsText(chunks: seq<string>, lim: Limits)
    requires lim.maxLength >= 1
    ensures NonSpace(Seqs.Concat(StreamSegments(chunks, lim))) == NonSpace(Seqs.Concat(chunks))
  {
    var fed := Feed(chunks, lim);
    var tail := if fed.1 != [] && Strip(fed.1) != [] then [Strip(fed.1)] else [];
    StreamShape(chunks, lim, fed, tail);
    assert NonSpace(Seqs.Concat(fed.0)) + NonSpace(fed.1) == NonSpace(Seqs.Concat(chunks)) by {
      FeedKeepsText(chunks, lim);
    }
    AppendFlushKeepsText(fed.0, fed.1, tail);
  }

  /** The stream is what was fed, then the flushed remainder when it holds text. */
  lemma {:induction false} StreamShape(chunks: seq<string>, lim: Limits, fed: (seq<string>, string), tail: seq<string>)
    requires lim.maxLength >= 1 && fed == Feed(chunks, lim)
    requires tail == if fed.1 != [] && Strip(fed.1) != [] then [Strip(fed.1)] else []
    ensures StreamSegments(chunks, lim) == fed.0 + tail
  {
  }

  /** Appending the flushed remainder appends the buffer's non-whitespace text. */
  lemma {:induction false} AppendFlushKeepsText(segs: seq<string>, buf: string, tail: seq<string>)
    requires tail == if buf != [] && Strip(buf) != [] then [Strip(buf)] else []
    ensures NonSpace(Seqs.Concat(segs + tail)) == NonSpace(Seqs.Concat(segs)) + NonSpace(buf)
  {
    assert Seqs.Concat(segs + tail) == Seqs.Concat(segs) + Seqs.Concat(tail) by {
      Seqs.ConcatAppend(segs, tail);
    }
    assert NonSpace(Seqs.Concat(segs) + Seqs.Concat(tail)) == NonSpace(Seqs.Concat(segs)) + NonSpace(Seqs.Concat(tail)) by {
      NonSpaceAppend(Seqs.Concat(segs), Seqs.Concat(tail));
    }
    FlushKeepsText(buf, tail);
  }

  /** The flushed remainder holds the non-whitespace text of the buffer. */
  lemma {:induction false} FlushKeepsText(buf: string, tail: seq<string>)
    requires tail == if buf != [] && Strip(buf) != [] then [Strip(buf)] else []
    ensures NonSpace(Seqs.Concat(tail)) == NonSpace(buf)
  {
    if buf != [] && Strip(buf) != [] {
      var t := Strip(buf);
      assert tail[..0] == [];
      assert Seqs.Concat(tail) == t;
      StripKeepsNonSpace(buf);
    } else {
      assert Seqs.Concat(tail) == [];
      if buf != [] {
        NonSpaceOfSpaces(buf);
      }
    }
  }

  /** Two sentences of 7 and 14 characters. */
  const TwoSentences := "这是第一句话。这是第二句话，内容稍长一些。"

  /** The default lengths of `TextSegmenter`. */
  const DefaultLimits := Limits(10, 200, 50)

  /** Under the default lengths the first `。` of `TwoSentences` ends at 7, below the minimum, so
      the only cut is at the end of the text. */
  lemma TwoSentencesCut()
    ensures NaturalCut(TwoSentences, DefaultLimits) == Some(|TwoSentences|)
  {
    var t := TwoSentences;
    assert |t| == 21 && IsSentenceEnd(t[20]);
    assert IsCut(t, DefaultLimits, 21);
    forall p | IsCut(t, DefaultLimits, p)
      ensures p == 21
    {
      assert 10 <= p <= 21 && IsSentenceEnd(t[p - 1]);
    }
  }

  /** A stripped buffer that fits `maxLength` and whose only natural cut is its end is extracted
      whole, leaving nothing. */
  lemma WholeBufferExtracted(b: string, lim: Limits)
    requires 1 <= lim.maxLength && b != [] && |b| <= lim.maxLength && lim.minLength <= |b|
    requires IsStripped(b) && NaturalCut(b, lim) == Some(|b|)
    ensures ExtractAll(b, lim) == ([b], [])
  {
    StripStripped(b);
    assert b[..|b|] == b && b[|b|..] == [];
    assert Extract(b, lim) == Some((b, []));
    assert Extract([], lim).None?;
    assert ExtractAll([], lim) == ([], []);
    assert [b] + [] == [b];
  }

  /** Such a chunk, fed alone, streams as exactly one segment, itself. */
  lemma WholeChunkOneSegment(b: string, lim: Limits)
    requires 1 <= lim.maxLength && b != [] && |b| <= lim.maxLength && lim.minLength <= |b|
    requires IsStripped(b) && NaturalCut(b, lim) == Some(|b|)
    ensures StreamSegments([b], lim) == [b]
  {
    var chunks := [b];
    assert chunks[..0] == [] && chunks[0] == b;
    var fed := Feed(chunks[..0], lim);
    assert fed == ([], []);
    assert fed.1 + chunks[0] == b;
    WholeBufferExtracted(b, lim);
    assert Feed(chunks, lim) == ([] + [b], []);
  }

  /** Streamed as one chunk under the default lengths, `TwoSentences` comes out as one segment:
      the cut at its end takes the whole buffer, and nothing is left to flush. */
  lemma TwoSentencesOneSegment()
    ensures StreamSegments([TwoSentences], DefaultLimits) == [TwoSentences]
  {
    TwoSentencesCut();
    assert !IsSpace(TwoSentences[0]) && !IsSpace(TwoSentences[20]);
    WholeChunkOneSegment(TwoSentences, DefaultLimits);
  }

  /** `TextSegmenter`: the buffer of text not yet emitted. */
  class TextSegmenter {
    const limits: Limits
    var buffer: string

    /** The extraction loop terminates only when a cut always makes progress. */
    predicate Valid() {
      limits.maxLength >= 1
    }

    constructor(minLength: int, maxLength: int, preferLength: int)
      requires maxLength >= 1
      ensures Valid()
      ensures limits == Limits(minLength, maxLength, preferLength) && buffer == ""
    {
      limits := Limits(minLength, maxLength, preferLength);
      buffer := "";
    }

    /** `add_text`: append the chunk, then extract segments until none is left to extract. */
    method AddText(text: string) returns (segments: seq<string>)
      requires Valid()
      modifies this
      ensures (segments, buffer) == ExtractAll(old(buffer) + text, limits)
    {
      buffer := buffer + text;
      segments := [];
      ghost var start := buffer;
      assert segments + ExtractAll(buffer, limits).0 == ExtractAll(buffer, limits).0;
      while true
        invariant ExtractAll(start, limits) == (segments + ExtractAll(buffer, limits).0, ExtractAll(buffer, limits).1)
        decreases |buffer|
      {
        ghost var before := buffer;
        var segment := ExtractSegment();
        if segment.None? {
          assert Extract(before, limits).None?;
          assert buffer == before;
          ExtractAllUnfold(before, limits);
          assert segments + [] == segments;
          break;
        }
        ExtractAllUnfold(before, limits);
        Seqs.AppendAssoc(segments, [segment.value], ExtractAll(buffer, limits).0);
        segments := segments + [segment.value];
      }
    }

    /** `_extract_segment` */
    method ExtractSegment() returns (segment: Option<string>)
      requires Valid()
      modifies this
      ensures Extract(old(buffer), limits).None? ==> segment.None? && buffer == old(buffer)
      ensures Extract(old(buffer), limits).Some? ==>
        segment == Some(Extract(old(buffer), limits).value.0) && buffer == Extract(old(buffer), limits).value.1
    {
      if buffer == [] {
        return None;
      }
      if |buffer| > limits.maxLength {
        var s := ForceSplit();
        return Some(s);
      }
      if |buffer| < limits.minLength {
        return None;
      }
      ghost var b := buffer;
      segment := FindNaturalBreak();
      if segment.Some? {
        NaturalSegmentNonEmpty(b, limits, NaturalCut(b, limits).value);
      }
      if segment.Some? && segment.value != [] {
        return segment;
      }
      return None;
    }

    /** `_find_natural_break`: scan the match ends, keeping the best so far (strictly nearer wins). */
    method FindNaturalBreak() returns (segment: Option<string>)
      modifies this
      ensures NaturalCut(old(buffer), limits).None? ==> segment.None? && buffer == old(buffer)
      ensures NaturalCut(old(buffer), limits).Some? ==>
        var (seg, rest) := Cut(old(buffer), NaturalCut(old(buffer), limits).value);
        segment == Some(seg) && buffer == rest
    {
      var best: Option<nat> := None;
      var bestDistance := 0;
      var b := buffer;
      var i := 0;
      while i < |b|
        invariant 0 <= i <= |b| && b == buffer
        invariant best == NaturalCutUpTo(b, limits, i)
        invariant best.Some? ==> bestDistance == Dist(best.value, limits.preferLength)
      {
        NaturalCutStep(b, limits, i);
        if IsSentenceEnd(b[i]) {
          var pos := i + 1;
          var distance := Dist(pos, limits.preferLength);
          if pos >= limits.minLength && (best.None? || distance < bestDistance) {
            best := Some(pos);
            bestDistance := distance;
          }
        }
        i := i + 1;
      }
      assert best == NaturalCut(old(buffer), limits);
      if best.Some? {
        var pos := best.value;
        segment := Some(Strip(buffer[..pos]));
        buffer := Strip(buffer[pos..]);
      } else {
        segment := None;
      }
    }

    /** `_force_split` */
    method ForceSplit() returns (segment: string)
      requires 1 <= limits.maxLength < |buffer|
      modifies this
      ensures (segment, buffer) == Cut(old(buffer), ForceCut(old(buffer), limits))
    {
      var pos := ForceCut(buffer, limits);
      segment := Strip(buffer[..pos]);
      buffer := Strip(buffer[pos..]);
    }

    /** `flush`: the stripped remainder (None for an empty buffer); the buffer is left empty. */
    method Flush() returns (segment: Option<string>)
      modifies this
      ensures segment == Flushed(old(buffer))
      ensures buffer == ""
    {
      if buffer == [] {
        return None;
      }
      segment := Some(Strip(buffer));
      buffer := "";
    }
  }

  /** `segment_text_stream` over a finite stream of chunks. */
  method SegmentTextStream(chunks: seq<string>, minLength: int, maxLength: int, preferLength: int)
    returns (out: seq<string>)
    requires maxLength >= 1
    ensures out == StreamSegments(chunks, Limits(minLength, maxLength, preferLength))
  {
    var segmenter := new TextSegmenter(minLength, maxLength, preferLength);
    var lim := segmenter.limits;
    out := [];
    var i := 0;
    while i < |chunks|
      invariant 0 <= i <= |chunks|
      invariant Feed(chunks[..i], lim) == (out, segmenter.buffer)
    {
      assert chunks[..i + 1][..i] == chunks[..i];
      var segments := segmenter.AddText(chunks[i]);
      out := out + segments;
      i := i + 1;
    }
    assert chunks[..|chunks|] == chunks;
    var last := segmenter.Flush();
    if last.Some? && last.value != [] {
      out := out + [last.value];
    }
  }
}
