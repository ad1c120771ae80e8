// The incremental line splitter of taskctl/line_writer.go.
//
// `Write` hands each chunk to bufio.ScanLines, which drops a CR before an LF only when both bytes
// are in the data it is given. The specification is a machine that reads one byte at a time and
// remembers whether the open line already holds a byte of the current chunk.
module LineWriting {

  newtype byte = b: int | 0 <= b < 256

  const LF: byte := 10
  const CR: byte := 13

  type Text = seq<byte>

  /** `lines` and `rest` are the writer's two fields; `here` says that `rest` ends in the current chunk. */
  datatype Acc = Acc(lines: seq<Text>, rest: Text, here: bool)

  const EMPTY := Acc([], [], false)

  predicate EndsWithCR(s: Text) {
    s != [] && s[|s| - 1] == CR
  }

  predicate StartsWithLF(s: Text) {
    s != [] && s[0] == LF
  }

  function DropCR(s: Text): Text {
    if EndsWithCR(s) then s[..|s| - 1] else s
  }

  function Feed(a: Acc, b: byte): Acc {
    if b == LF
    then Acc(a.lines + [if a.here then DropCR(a.rest) else a.rest], [], false)
    else Acc(a.lines, a.rest + [b], true)
  }

  function FeedAll(a: Acc, data: Text): Acc
    decreases |data|
  {
    if data == [] then a else FeedAll(Feed(a, data[0]), data[1..])
  }

  /** One call of Write. */
  function Written(a: Acc, chunk: Text): Acc {
    FeedAll(a.(here := false), chunk)
  }

  function WrittenAll(a: Acc, chunks: seq<Text>): Acc
    decreases |chunks|
  {
    if chunks == [] then a else WrittenAll(Written(a, chunks[0]), chunks[1..])
  }

  /** Finish turns a non-empty remainder into a last line (append never leaves an empty non-nil slice). */
  function Finished(a: Acc): seq<Text> {
    if a.rest != [] then a.lines + [a.rest] else a.lines
  }

  function Concat(chunks: seq<Text>): Text {
    if chunks == [] then [] else chunks[0] + Concat(chunks[1..])
  }

  /** The index of the first LF, or the length. */
  function LineEnd(data: Text): (k: nat)
    ensures k <= |data|
    ensures k < |data| ==> data[k] == LF
    ensures LF !in data[..k]
  {
    if data == [] || data[0] == LF then 0
    else
      var k := 1 + LineEnd(data[1..]);
      assert data[..k] == [data[0]] + data[1..][..k - 1];
      k
  }

  class LineWriter {
    var lines: seq<Text>
    var remainder: Text

    constructor ()
      ensures lines == [] && remainder == []
    {
      lines, remainder := [], [];
    }

    method Write(p: Text) returns (n: nat)
      modifies this
      ensures n == |p|
      ensures var a := Written(Acc(old(lines), old(remainder), false), p); lines == a.lines && remainder == a.rest
    {
      var i := 0;
      ghost var a := Acc(lines, remainder, false);
      while true
        invariant 0 <= i <= |p|
        invariant FeedAll(a, p) == FeedAll(Acc(lines, remainder, false), p[i..])
        decreases |p| - i
      {
        var k := LineEnd(p[i..]);
        FeedOneLine(Acc(lines, remainder, false), p[i..], k);
        if i + k == |p| {
          break;
        }
        var token := DropCR(p[i..i + k]);
        assert p[i..][..k] == p[i..i + k] && p[i..][k + 1..] == p[i + k + 1..];
        lines := lines + [remainder + token];
        remainder := [];
        i := i + k + 1;
      }
      assert p[i..][..|p| - i] == p[i..];
      remainder := remainder + p[i..];
      return |p|;
    }

    method Finish()
      modifies this
      ensures lines == Finished(Acc(old(lines), old(remainder), false)) && remainder == []
    {
      if remainder != [] {
        lines := lines + [remainder];
        remainder := [];
      }
    }
  }

  lemma {:induction false} FeedAppend(a: Acc, s: Text, t: Text)
    ensures FeedAll(a, s + t) == FeedAll(FeedAll(a, s), t)
    decreases |s|
  {
    if s == [] {
      assert s + t == t;
    } else {
      assert (s + t)[1..] == s[1..] + t;
      FeedAppend(Feed(a, s[0]), s[1..], t);
    }
  }

  lemma {:induction false} FeedPlain(a: Acc, s: Text)
    requires LF !in s
    ensures FeedAll(a, s) == Acc(a.lines, a.rest + s, a.here || s != [])
    decreases |s|
  {
    if s != [] {
      FeedPlain(Feed(a, s[0]), s[1..]);
      assert a.rest + s == a.rest + [s[0]] + s[1..];
    } else {
      assert a.rest + s == a.rest;
    }
  }

  lemma FeedOneLine(a: Acc, s: Text, k: nat)
    requires k == LineEnd(s) && !a.here
    ensures k == |s| ==> FeedAll(a, s) == Acc(a.lines, a.rest + s, s != [])
    ensures k < |s| ==> FeedAll(a, s) == FeedAll(Acc(a.lines + [a.rest + DropCR(s[..k])], [], false), s[k + 1..])
  {
    assert s == s[..k] + s[k..];
    FeedPlain(a, s[..k]);
    if k < |s| {
      FeedAppend(a, s[..k], s[k..]);
      var b := FeedAll(a, s[..k]);
      assert s[k..][0] == LF && s[k..][1..] == s[k + 1..];
      if s[..k] == [] {
        assert a.rest + s[..k] == a.rest;
      } else {
        assert DropCR(a.rest + s[..k]) == a.rest + DropCR(s[..k]);
      }
      assert Feed(b, LF) == Acc(a.lines + [a.rest + DropCR(s[..k])], [], false);
    } else {
      assert s[..k] == s;
    }
  }
}
