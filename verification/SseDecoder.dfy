/** internal/sse/decoder.go: cutting a byte stream into server-sent-event frames. */
module SseDecoder {
  import opened Text

  const LF := "\n\n"
  const CRLF := "\r\n\r\n"

  predicate OccursAt(raw: string, sep: string, i: int) {
    0 <= i && i + |sep| <= |raw| && raw[i..i + |sep|] == sep
  }

  /** `bytes.Index`: where a separator first occurs, or -1. */
  function Index(raw: string, sep: string): (i: int)
    requires sep != ""
    ensures i < 0 ==> i == -1 && forall j :: !OccursAt(raw, sep, j)
    ensures i >= 0 ==> OccursAt(raw, sep, i) && forall j :: j < i ==> !OccursAt(raw, sep, j)
  {
    IndexFrom(raw, sep, 0)
  }

  function IndexFrom(raw: string, sep: string, from: nat): (i: int)
    requires sep != "" && from <= |raw|
    requires forall j :: j < from ==> !OccursAt(raw, sep, j)
    ensures i < 0 ==> i == -1 && forall j :: !OccursAt(raw, sep, j)
    ensures i >= 0 ==> OccursAt(raw, sep, i) && forall j :: j < i ==> !OccursAt(raw, sep, j)
    decreases |raw| - from
  {
    if OccursAt(raw, sep, from) then from
    else if from == |raw| then -1
    else IndexFrom(raw, sep, from + 1)
  }

  datatype Cut = Cut(end: int, width: nat)

  /** `frameEnd`: the earlier of the two separators, and its width. */
  function FrameEnd(raw: string): Cut {
    var lf := Index(raw, LF);
    var crlf := Index(raw, CRLF);
    if lf < 0 then
      if crlf < 0 then Cut(-1, 0) else Cut(crlf, 4)
    else if crlf < 0 || lf < crlf then Cut(lf, 2)
    else Cut(crlf, 4)
  }

  // ---- What a frame is ----

  /** Does a separator end at position k? */
  predicate EndsAt(s: string, k: int) {
    OccursAt(s, LF, k - 2) || OccursAt(s, CRLF, k - 4)
  }

  lemma LfChars(s: string, i: int)
    ensures OccursAt(s, LF, i) <==> 0 <= i && i + 2 <= |s| && s[i] == '\n' && s[i + 1] == '\n'
  {
    if 0 <= i && i + 2 <= |s| {
      assert s[i..i + 2] == [s[i], s[i + 1]];
    }
  }

  lemma CrlfChars(s: string, i: int)
    ensures OccursAt(s, CRLF, i)
            <==> 0 <= i && i + 4 <= |s| && s[i] == '\r' && s[i + 1] == '\n' && s[i + 2] == '\r' && s[i + 3] == '\n'
  {
    if 0 <= i && i + 4 <= |s| {
      assert s[i..i + 4] == [s[i], s[i + 1], s[i + 2], s[i + 3]];
    }
  }

  /** A separator, spelled by its characters, ends at k. */
  lemma EndsAtChars(s: string, k: int)
    ensures EndsAt(s, k) <==>
              (2 <= k <= |s| && s[k - 1] == '\n' && s[k - 2] == '\n')
              || (4 <= k <= |s| && s[k - 1] == '\n' && s[k - 2] == '\r' && s[k - 3] == '\n' && s[k - 4] == '\r')
  {
    LfChars(s, k - 2);
    CrlfChars(s, k - 4);
  }

  ghost predicate Unended(s: string) {
    forall k :: !EndsAt(s, k)
  }

  /** A frame: it ends with a separator, and no separator ends before. */
  ghost predicate IsFrame(s: string) {
    EndsAt(s, |s|) && forall k :: k < |s| ==> !EndsAt(s, k)
  }

  /** Although `frameEnd` compares where separators begin, it finds the one that ends first. */
  lemma FrameEndIsFirst(s: string)
    ensures var c := FrameEnd(s);
            && (c.end < 0 ==> Unended(s))
            && (c.end >= 0 ==> EndsAt(s, c.end + c.width) && c.end + c.width >= 2)
            && forall k :: EndsAt(s, k) ==> c.end + c.width <= k
  {
    var c := FrameEnd(s);
    var lf, crlf := Index(s, LF), Index(s, CRLF);
    forall k | EndsAt(s, k) ensures c.end >= 0 && c.end + c.width <= k {
      if OccursAt(s, LF, k - 2) {
        assert 0 <= lf <= k - 2;
        LfChars(s, k - 2);
        CrlfChars(s, crlf);
      } else {
        assert OccursAt(s, CRLF, k - 4);
        assert 0 <= crlf <= k - 4;
      }
    }
  }

  lemma EndsInPrefix(a: string, b: string, k: int)
    requires k <= |a|
    ensures EndsAt(a + b, k) <==> EndsAt(a, k)
  {
    EndsAtChars(a, k);
    EndsAtChars(a + b, k);
  }

  // ---- Decoding as a function ----

  datatype Decoded = Decoded(frames: seq<string>, rest: string)

  /** Cut off frames as long as there are any. */
  function Split(s: string): Decoded
    decreases |s|
  {
    var c := FrameEnd(s);
    if c.end < 0 then Decoded([], s)
    else
      FrameEndIsFirst(s);
      var tail := Split(s[c.end + c.width..]);
      Decoded([s[..c.end + c.width]] + tail.frames, tail.rest)
  }

  /** Up to the first place where a separator ends, there is a frame. */
  lemma PrefixIsFrame(s: string, k: int)
    requires EndsAt(s, k) && forall j :: EndsAt(s, j) ==> k <= j
    ensures 0 <= k <= |s| && IsFrame(s[..k])
  {
    assert s == s[..k] + s[k..];
    forall j | j <= k ensures EndsAt(s[..k], j) <==> EndsAt(s, j) {
      EndsInPrefix(s[..k], s[k..], j);
    }
  }

  /** One round of the loop: no separator at all, or the first one cuts off a frame. */
  lemma SplitStep(s: string) returns (k: int)
    ensures k == if FrameEnd(s).end < 0 then 0 else FrameEnd(s).end + FrameEnd(s).width
    ensures k == 0 ==> Unended(s) && Split(s) == Decoded([], s)
    ensures k != 0 ==> 2 <= k <= |s| && EndsAt(s, k) && IsFrame(s[..k])
                       && Split(s) == Decoded([s[..k]] + Split(s[k..]).frames, Split(s[k..]).rest)
    ensures forall j :: EndsAt(s, j) ==> k <= j && k != 0
  {
    FrameEndIsFirst(s);
    var c := FrameEnd(s);
    k := if c.end < 0 then 0 else c.end + c.width;
    if k != 0 {
      PrefixIsFrame(s, k);
    }
  }

  ghost predicate AllFrames(frames: seq<string>) {
    forall f :: f in frames ==> IsFrame(f)
  }

  lemma {:induction false} ConsFrames(f: string, frames: seq<string>)
    requires IsFrame(f) && AllFrames(frames)
    ensures AllFrames([f] + frames) && Concat([f] + frames) == f + Concat(frames)
  {
    assert ([f] + frames)[1..] == frames;
  }

  /** The same round, by the strings it cuts: a frame and what comes after. */
  lemma CutStep(s: string) returns (f: string, after: string)
    ensures f == "" ==> Unended(s) && Split(s) == Decoded([], s)
    ensures f != "" ==> IsFrame(f) && s == f + after && |after| < |s|
                        && Split(s) == Decoded([f] + Split(after).frames, Split(after).rest)
  {
    var k := SplitStep(s);
    f, after := s[..k], s[k..];
  }

  /** Nothing is lost; every frame has its own final separator and no other; the rest has none. */
  lemma {:induction false} SplitSound(s: string)
    ensures Concat(Split(s).frames) + Split(s).rest == s
    ensures AllFrames(Split(s).frames) && Unended(Split(s).rest)
    decreases |s|
  {
    var f, after := CutStep(s);
    if f != "" {
      SplitSound(after);
      ConsFrames(f, Split(after).frames);
      Regroup(f, Concat(Split(after).frames), Split(after).rest);
    }
  }

  /** A frame in front is cut off as it is. */
  lemma CutFirst(f: string, after: string)
    requires IsFrame(f)
    ensures Split(f + after) == Decoded([f] + Split(after).frames, Split(after).rest)
  {
    var s := f + after;
    var k := SplitStep(s);
    EndsInPrefix(f, after, |f|);
    assert k <= |f|;
    EndsInPrefix(f, after, k);
    assert s[..|f|] == f && s[|f|..] == after;
  }

  /** And that determines the decoding. */
  lemma {:induction false} SplitComplete(frames: seq<string>, rest: string)
    requires AllFrames(frames) && Unended(rest)
    ensures Split(Concat(frames) + rest) == Decoded(frames, rest)
    decreases |frames|
  {
    if frames == [] {
      assert Concat(frames) + rest == rest;
      var k := SplitStep(rest);
    } else {
      assert frames[0] in frames;
      Regroup(frames[0], Concat(frames[1..]), rest);
      CutFirst(frames[0], Concat(frames[1..]) + rest);
      SplitComplete(frames[1..], rest);
    }
  }

  /** Decoding in two pieces is decoding in one, even when a separator is cut. */
  lemma SplitAppend(a: string, b: string)
    ensures var first := Split(a);
            var second := Split(first.rest + b);
            Split(a + b) == Decoded(first.frames + second.frames, second.rest)
  {
    var first := Decode(a);
    var second := Decode(first.rest + b);
    ConcatAppend(first.frames, second.frames);
    Regroup(Concat(first.frames), Concat(second.frames), second.rest);
    Regroup(Concat(first.frames), first.rest, b);
    SplitComplete(first.frames + second.frames, second.rest);
  }

  lemma {:induction false} Decode(s: string) returns (d: Decoded)
    ensures d == Split(s) && Concat(d.frames) + d.rest == s && AllFrames(d.frames) && Unended(d.rest)
  {
    SplitSound(s);
    d := Split(s);
  }

  /** What feeding chunks one after another yields. */
  function FeedAll(buffer: string, chunks: seq<string>): Decoded
    decreases |chunks|
  {
    if chunks == [] then Decoded([], buffer)
    else
      var first := Split(buffer + chunks[0]);
      var rest := FeedAll(first.rest, chunks[1..]);
      Decoded(first.frames + rest.frames, rest.rest)
  }

  /** Frames and buffer depend only on the bytes, not on how they were cut into chunks. */
  lemma {:induction false} ChunkingIrrelevant(buffer: string, chunks: seq<string>)
    requires Unended(buffer)
    ensures FeedAll(buffer, chunks) == Split(buffer + Concat(chunks))
    decreases |chunks|
  {
    if chunks == [] {
      assert buffer + Concat(chunks) == buffer;
      var k := SplitStep(buffer);
    } else {
      var first := Decode(buffer + chunks[0]);
      ChunkingIrrelevant(first.rest, chunks[1..]);
      SplitAppend(buffer + chunks[0], Concat(chunks[1..]));
      Regroup(buffer, chunks[0], Concat(chunks[1..]));
    }
  }

  // ---- The decoder ----

  class Decoder {
    var buffer: string

    /** Between calls the buffer holds no complete frame. */
    ghost predicate Valid()
      reads this
    {
      Unended(buffer)
    }

    constructor ()
      ensures Valid() && buffer == ""
    {
      buffer := "";
      new;
      FrameEndIsFirst(buffer);
    }

    method Feed(chunk: string) returns (frames: seq<string>)
      requires Valid()
      modifies this
      ensures Valid()
      ensures Decoded(frames, buffer) == Split(old(buffer) + chunk)
    {
      frames := [];
      if |chunk| == 0 {
        ghost var none := SplitStep(buffer);
        assert buffer + chunk == buffer;
        return;
      }
      buffer := buffer + chunk;
      ghost var all := Split(buffer);
      var cut := FrameEnd(buffer);
      while cut.end >= 0
        invariant cut == FrameEnd(buffer)
        invariant all == Decoded(frames + Split(buffer).frames, Split(buffer).rest)
        decreases |buffer|
      {
        ghost var k := SplitStep(buffer);
        Regroup(frames, [buffer[..k]], Split(buffer[k..]).frames);
        frames := frames + [buffer[..cut.end + cut.width]];
        buffer := buffer[cut.end + cut.width..];
        cut := FrameEnd(buffer);
      }
      ghost var none := SplitStep(buffer);
      EmptyEnds(frames);
    }

    /** What is left at the end of the stream, unless it is blank. */
    method Flush() returns (out: string)
      requires Valid()
      modifies this
      ensures Valid() && buffer == ""
      ensures out == if Trim(old(buffer)) == "" then "" else old(buffer)
    {
      out := if |Trim(buffer)| == 0 then "" else buffer;
      buffer := "";
      FrameEndIsFirst(buffer);
    }
  }
}
