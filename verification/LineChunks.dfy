// What the line writer promises about any way of cutting its input into Writes.
module LineChunks {
  import opened LineWriting

  // ---------------------------------------------------------------------------------------------
  // Chunk invariance
  // ---------------------------------------------------------------------------------------------

  /** Some cut between two Writes falls between a CR and its LF. */
  ghost predicate SeparatesCRLF(chunks: seq<Text>) {
    exists i | 0 <= i <= |chunks| :: CutAt(chunks, i)
  }

  predicate CutAt(chunks: seq<Text>, i: nat)
    requires i <= |chunks|
  {
    EndsWithCR(Concat(chunks[..i])) && StartsWithLF(Concat(chunks[i..]))
  }

  /** Line by line equal, up to one CR that the left side kept. */
  ghost predicate SameUpToCR(s: seq<Text>, t: seq<Text>) {
    |s| == |t| && forall i | 0 <= i < |s| :: s[i] == t[i] || s[i] == t[i] + [CR]
  }

  /** `SeparatesCRLF` as seen from the middle of a run: `rest` is the open line so far. */
  predicate CutFrom(rest: Text, chunks: seq<Text>)
    decreases |chunks|
  {
    chunks != [] &&
    (|| (EndsWithCR(rest) && StartsWithLF(chunks[0]))
     || CutFrom(FeedAll(Acc([], rest, true), chunks[0]).rest, chunks[1..]))
  }

  lemma {:induction false} FeedLines(a: Acc, lines: seq<Text>, data: Text)
    ensures var f := FeedAll(a, data);
      FeedAll(Acc(lines + a.lines, a.rest, a.here), data) == Acc(lines + f.lines, f.rest, f.here)
    decreases |data|
  {
    if data != [] {
      var b := Feed(a, data[0]);
      var c := Acc(lines + a.lines, a.rest, a.here);
      assert Feed(c, data[0]) == Acc(lines + b.lines, b.rest, b.here);
      FeedLines(b, lines, data[1..]);
    }
  }

  lemma {:induction false} FeedRest(a: Acc, b: Acc, data: Text)
    requires a.rest == b.rest
    ensures FeedAll(a, data).rest == FeedAll(b, data).rest
    ensures a.here == (a.rest != []) ==> FeedAll(a, data).here == (FeedAll(a, data).rest != [])
    decreases |data|
  {
    if data != [] {
      FeedRest(Feed(a, data[0]), Feed(b, data[0]), data[1..]);
    }
  }

  // One chunk read by a writer that starts it afresh (a) and by one in the middle of its data (b).
  lemma FeedChunk(a: Acc, b: Acc, chunk: Text)
    requires a.rest == b.rest && b.here == (b.rest != []) && !a.here
    requires SameUpToCR(a.lines, b.lines)
    ensures var f, g := FeedAll(a, chunk), FeedAll(b, chunk);
      && f.rest == g.rest && g.here == (g.rest != [])
      && SameUpToCR(f.lines, g.lines)
      && (f.lines == g.lines <==> a.lines == b.lines && !(EndsWithCR(a.rest) && StartsWithLF(chunk)))
  {
    if chunk != [] {
      var f, g := Feed(a, chunk[0]), Feed(b, chunk[0]);
      FeedRest(a, b, chunk);
      FeedRest(b, b, chunk);
      assert f.rest == g.rest && f.here == g.here;
      if chunk[0] == LF {
        if EndsWithCR(a.rest) {
          assert a.rest == DropCR(a.rest) + [CR];
          assert |a.rest| != |DropCR(a.rest)|;
        }
        assert f.lines[|a.lines|] == a.rest && g.lines[|a.lines|] == DropCR(a.rest);
        assert f.lines[..|a.lines|] == a.lines && g.lines[..|a.lines|] == b.lines;
      }
      assert SameUpToCR(f.lines, g.lines);
      assert f.lines == g.lines <==> a.lines == b.lines && !(EndsWithCR(a.rest) && StartsWithLF(chunk));
      var h := Acc([], f.rest, f.here);
      assert f.lines + h.lines == f.lines && g.lines + h.lines == g.lines;
      FeedLines(h, f.lines, chunk[1..]);
      FeedLines(h, g.lines, chunk[1..]);
      SameSuffix(f.lines, g.lines, FeedAll(h, chunk[1..]).lines);
    }
  }

  lemma SameSuffix(s: seq<Text>, t: seq<Text>, u: seq<Text>)
    requires SameUpToCR(s, t)
    ensures SameUpToCR(s + u, t + u)
    ensures s + u == t + u <==> s == t
  {
    assert (s + u)[..|s|] == s && (t + u)[..|t|] == t;
  }

  lemma {:induction false} ChunksAgree(a: Acc, b: Acc, chunks: seq<Text>)
    requires a.rest == b.rest && b.here == (b.rest != [])
    requires SameUpToCR(a.lines, b.lines)
    ensures var f, g := WrittenAll(a, chunks), FeedAll(b, Concat(chunks));
      && f.rest == g.rest
      && SameUpToCR(f.lines, g.lines)
      && (f.lines == g.lines <==> a.lines == b.lines && !CutFrom(a.rest, chunks))
    decreases |chunks|
  {
    if chunks != [] {
      var c := a.(here := false);
      FeedChunk(c, b, chunks[0]);
      FeedRest(c, Acc([], a.rest, true), chunks[0]);
      FeedAppend(b, chunks[0], Concat(chunks[1..]));
      ChunksAgree(FeedAll(c, chunks[0]), FeedAll(b, chunks[0]), chunks[1..]);
    }
  }

  /** The open line is what follows the last LF of the text read so far. */
  ghost predicate OpenLine(text: Text, rest: Text) {
    |rest| <= |text| && text[|text| - |rest|..] == rest && (rest == [] ==> text == [] || text[|text| - 1] == LF)
  }

  lemma {:induction false} OpenLineStep(text: Text, a: Acc, data: Text)
    requires OpenLine(text, a.rest)
    ensures OpenLine(text + data, FeedAll(a, data).rest)
    decreases |data|
  {
    if data == [] {
      assert text + data == text;
    } else {
      assert text + data == (text + [data[0]]) + data[1..];
      OpenLineStep(text + [data[0]], Feed(a, data[0]), data[1..]);
    }
  }

  lemma ConcatAppend(s: seq<Text>, t: seq<Text>)
    ensures Concat(s + t) == Concat(s) + Concat(t)
  {
    if s == [] {
      assert s + t == t;
    } else {
      assert (s + t)[1..] == s[1..] + t;
    }
  }

  ghost predicate CutsFrom(text: Text, chunks: seq<Text>) {
    exists i | 0 <= i <= |chunks| :: CutsAt(text, chunks, i)
  }

  ghost predicate CutsAt(text: Text, chunks: seq<Text>, i: nat)
    requires i <= |chunks|
  {
    EndsWithCR(text + Concat(chunks[..i])) && StartsWithLF(Concat(chunks[i..]))
  }

  lemma CutsTail(text: Text, chunks: seq<Text>)
    requires chunks != []
    ensures CutsFrom(text, chunks) <==> CutsAt(text, chunks, 0) || CutsFrom(text + chunks[0], chunks[1..])
  {
    var tail := chunks[1..];
    forall i | 0 <= i <= |tail|
      ensures CutsAt(text + chunks[0], tail, i) == CutsAt(text, chunks, i + 1)
    {
      assert chunks[..i + 1] == [chunks[0]] + tail[..i];
      ConcatAppend([chunks[0]], tail[..i]);
      assert Concat([chunks[0]]) == chunks[0] + [] == chunks[0];
      assert text + Concat(chunks[..i + 1]) == text + chunks[0] + Concat(tail[..i]);
      assert chunks[i + 1..] == tail[i..];
    }
    if CutsFrom(text, chunks) {
      var i :| 0 <= i <= |chunks| && CutsAt(text, chunks, i);
      if i > 0 {
        assert CutsAt(text + chunks[0], tail, i - 1);
      }
    }
    if CutsFrom(text + chunks[0], tail) {
      var i :| 0 <= i <= |tail| && CutsAt(text + chunks[0], tail, i);
      assert CutsAt(text, chunks, i + 1);
    }
  }

  lemma {:induction false} CutFromMeansCuts(text: Text, rest: Text, chunks: seq<Text>)
    requires OpenLine(text, rest)
    ensures CutFrom(rest, chunks) <==> CutsFrom(text, chunks)
    decreases |chunks|
  {
    assert EndsWithCR(rest) == EndsWithCR(text);
    if chunks != [] {
      CutsTail(text, chunks);
      assert chunks[..0] == [] && text + Concat([]) == text && chunks[0..] == chunks;
      OpenLineStep(text, Acc([], rest, true), chunks[0]);
      CutFromMeansCuts(text + chunks[0], FeedAll(Acc([], rest, true), chunks[0]).rest, chunks[1..]);
      if chunks[0] == [] {
        assert text + chunks[0] == text;
        assert Concat(chunks) == Concat(chunks[1..]);
        if CutsAt(text, chunks, 0) {
          var tail := chunks[1..];
          assert tail[..0] == [] && tail[0..] == tail && text + Concat([]) == text;
          assert CutsAt(text, tail, 0);
        }
      } else {
        assert Concat(chunks)[0] == chunks[0][0];
      }
    }
  }

  /** Cutting the input into Writes is invisible after Finish, exactly when no cut separates a CR from its LF. */
  lemma ChunkInvariance(chunks: seq<Text>)
    ensures Finished(WrittenAll(EMPTY, chunks)) == Finished(Written(EMPTY, Concat(chunks))) <==> !SeparatesCRLF(chunks)
  {
    ChunksAgree(EMPTY, EMPTY, chunks);
    CutFromMeansCuts([], [], chunks);
    forall i | 0 <= i <= |chunks|
      ensures CutsAt([], chunks, i) == CutAt(chunks, i)
    {
      assert [] + Concat(chunks[..i]) == Concat(chunks[..i]);
    }
    if SeparatesCRLF(chunks) {
      var i :| 0 <= i <= |chunks| && CutAt(chunks, i);
      assert CutsAt([], chunks, i);
    }
    if CutsFrom([], chunks) {
      var i :| 0 <= i <= |chunks| && CutsAt([], chunks, i);
      assert CutAt(chunks, i);
    }
    var f, g := WrittenAll(EMPTY, chunks), Written(EMPTY, Concat(chunks));
    assert f.rest == g.rest && |f.lines| == |g.lines|;
    if Finished(f) == Finished(g) {
      assert f.lines == Finished(f)[..|f.lines|] && g.lines == Finished(g)[..|g.lines|];
    }
  }

  // ---------------------------------------------------------------------------------------------
  // Reassembly
  // ---------------------------------------------------------------------------------------------

  function Join(lines: seq<Text>): Text {
    if lines == [] then [] else Join(lines[..|lines| - 1]) + lines[|lines| - 1] + [LF]
  }

  function Reassembled(a: Acc): Text {
    Join(a.lines) + a.rest
  }

  ghost predicate HasCRLF(s: Text) {
    exists i | 0 < i < |s| :: s[i - 1] == CR && s[i] == LF
  }

  lemma FeedReassembled(a: Acc, b: byte)
    ensures var r := Reassembled(Feed(a, b));
      if b == LF && a.here && EndsWithCR(a.rest) then |r| == |Reassembled(a)| else r == Reassembled(a) + [b]
  {
    var f := Feed(a, b);
    if b == LF {
      assert f.lines[..|f.lines| - 1] == a.lines;
    }
  }

  // `seen` is the part of the chunk read so far.
  lemma {:induction false} ChunkReassembled(a: Acc, seen: Text, data: Text, text: Text)
    requires a.here == (seen != [] && seen[|seen| - 1] != LF)
    requires a.here ==> EndsWithCR(a.rest) == EndsWithCR(seen)
    requires !HasCRLF(seen) ==> Reassembled(a) == text
    requires HasCRLF(seen) ==> |Reassembled(a)| < |text|
    ensures var r := Reassembled(FeedAll(a, data));
      if HasCRLF(seen + data) then |r| < |text + data| else r == text + data
    decreases |data|
  {
    if data == [] {
      assert seen + data == seen && text + data == text;
    } else {
      var b := data[0];
      FeedReassembled(a, b);
      var next := seen + [b];
      if HasCRLF(seen) {
        var i :| 0 < i < |seen| && seen[i - 1] == CR && seen[i] == LF;
        assert next[i - 1] == CR && next[i] == LF;
      }
      if b == LF && EndsWithCR(seen) {
        assert next[|seen| - 1] == CR && next[|seen|] == LF;
      } else if HasCRLF(next) {
        var i :| 0 < i < |next| && next[i - 1] == CR && next[i] == LF;
        assert i < |seen| && seen[i - 1] == CR && seen[i] == LF;
      }
      assert seen + data == next + data[1..] && text + data == (text + [b]) + data[1..];
      ChunkReassembled(Feed(a, b), next, data[1..], text + [b]);
    }
  }

  ghost predicate AnyCRLF(chunks: seq<Text>) {
    exists c | c in chunks :: HasCRLF(c)
  }

  lemma {:induction false} ChunksReassembled(a: Acc, chunks: seq<Text>, text: Text, lost: bool)
    requires if lost then |Reassembled(a)| < |text| else Reassembled(a) == text
    ensures var r := Reassembled(WrittenAll(a, chunks));
      if lost || AnyCRLF(chunks) then |r| < |text + Concat(chunks)| else r == text + Concat(chunks)
    decreases |chunks|
  {
    assert !HasCRLF([]) && !AnyCRLF([]);
    hide HasCRLF, AnyCRLF;
    if chunks == [] {
      assert text + Concat(chunks) == text;
    } else {
      var c, tail := chunks[0], chunks[1..];
      if lost {
        ShortStaysShort(a.(here := false), c, |text|);
      } else {
        assert [] + c == c;
        ChunkReassembled(a.(here := false), [], c, text);
      }
      assert text + Concat(chunks) == (text + c) + Concat(tail);
      ChunksReassembled(Written(a, c), tail, text + c, lost || HasCRLF(c));
      AnyCRLFTail(chunks);
    }
  }

  lemma AnyCRLFTail(chunks: seq<Text>)
    requires chunks != []
    ensures AnyCRLF(chunks) == (HasCRLF(chunks[0]) || AnyCRLF(chunks[1..]))
  {
    assert forall d :: d in chunks <==> d == chunks[0] || d in chunks[1..];
  }

  lemma {:induction false} ShortStaysShort(a: Acc, data: Text, n: nat)
    requires |Reassembled(a)| < n
    ensures |Reassembled(FeedAll(a, data))| < n + |data|
    decreases |data|
  {
    if data != [] {
      FeedReassembled(a, data[0]);
      ShortStaysShort(Feed(a, data[0]), data[1..], n + 1);
    }
  }

  /**
   * Joining the lines with LF and adding the remainder gives the input back, however it was cut,
   * exactly when no single Write contained a CR LF pair. CR-free input is the common case.
   */
  lemma ReassemblyExact(chunks: seq<Text>)
    ensures Reassembled(WrittenAll(EMPTY, chunks)) == Concat(chunks) <==> !AnyCRLF(chunks)
    ensures CR !in Concat(chunks) ==> Reassembled(WrittenAll(EMPTY, chunks)) == Concat(chunks)
  {
    assert Reassembled(EMPTY) == [];
    assert [] + Concat(chunks) == Concat(chunks);
    ChunksReassembled(EMPTY, chunks, [], false);
    forall c | c in chunks && HasCRLF(c)
      ensures CR in Concat(chunks)
    {
      InConcat(chunks, c);
    }
  }

  lemma InConcat(chunks: seq<Text>, c: Text)
    requires c in chunks
    ensures forall b | b in c :: b in Concat(chunks)
  {
    if c != chunks[0] {
      InConcat(chunks[1..], c);
    }
  }

  // ---------------------------------------------------------------------------------------------
  // The last line
  // ---------------------------------------------------------------------------------------------

  /** The text with its last line terminated. */
  function Terminated(text: Text): Text {
    if text == [] || text[|text| - 1] == LF then text else text + [LF]
  }

  lemma {:induction false} RestHasNoLF(a: Acc, data: Text)
    requires LF !in a.rest
    ensures LF !in FeedAll(a, data).rest
    decreases |data|
  {
    if data != [] {
      RestHasNoLF(Feed(a, data[0]), data[1..]);
    }
  }

  lemma {:induction false} OpenLineOf(text: Text, a: Acc, chunks: seq<Text>)
    requires OpenLine(text, a.rest) && LF !in a.rest
    ensures var f := WrittenAll(a, chunks); OpenLine(text + Concat(chunks), f.rest) && LF !in f.rest
    decreases |chunks|
  {
    if chunks == [] {
      assert text + Concat(chunks) == text;
    } else {
      var b := a.(here := false);
      OpenLineStep(text, b, chunks[0]);
      RestHasNoLF(b, chunks[0]);
      OpenLineOf(text + chunks[0], Written(a, chunks[0]), chunks[1..]);
      assert text + Concat(chunks) == text + chunks[0] + Concat(chunks[1..]);
    }
  }

  lemma OpenLineEnds(text: Text, rest: Text)
    requires OpenLine(text, rest) && LF !in rest
    ensures rest == [] <==> text == [] || text[|text| - 1] == LF
  {
    if rest != [] {
      assert text[|text| - 1] == text[|text| - |rest|..][|rest| - 1] == rest[|rest| - 1];
    }
  }

  lemma EmptyIsOpen()
    ensures OpenLine([], EMPTY.rest) && LF !in EMPTY.rest
  {
  }

  lemma FinishedJoins(a: Acc)
    ensures Join(Finished(a)) == if a.rest == [] then Reassembled(a) else Reassembled(a) + [LF]
  {
    if a.rest == [] {
      assert Join(a.lines) + a.rest == Join(a.lines);
    } else {
      assert (a.lines + [a.rest])[..|a.lines|] == a.lines;
    }
  }

  lemma SameEnd(s: Text, t: Text)
    ensures s + [LF] == t + [LF] <==> s == t
  {
    assert (s + [LF])[..|s|] == s && (t + [LF])[..|t|] == t;
  }

  lemma FinishedMeans(a: Acc, text: Text)
    requires OpenLine(text, a.rest) && LF !in a.rest
    ensures Join(Finished(a)) == Terminated(text) <==> Reassembled(a) == text
  {
    hide Join, OpenLine, Finished, Reassembled;
    OpenLineEnds(text, a.rest);
    FinishedJoins(a);
    SameEnd(Reassembled(a), text);
  }

  /**
   * Finish loses nothing: the lines, each with its LF, are the input with its last line terminated, however it was
   * cut, exactly when no single Write contained a CR LF pair.
   */
  lemma FinishedExact(chunks: seq<Text>)
    ensures Join(Finished(WrittenAll(EMPTY, chunks))) == Terminated(Concat(chunks)) <==> !AnyCRLF(chunks)
  {
    hide WrittenAll, Concat, Join, AnyCRLF, OpenLine, Finished, Reassembled, Terminated;
    ReassemblyExact(chunks);
    EmptyIsOpen();
    OpenLineOf([], EMPTY, chunks);
    assert [] + Concat(chunks) == Concat(chunks);
    FinishedMeans(WrittenAll(EMPTY, chunks), Concat(chunks));
  }
}
