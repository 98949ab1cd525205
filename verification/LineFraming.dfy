/** Cutting a stream of chunks into lines. */
module LineFraming {

  /** The pieces of a text that starts with `c` and goes on with the text of `pieces`. */
  function Prepend(c: char, pieces: seq<string>): (r: seq<string>)
    requires pieces != []
    ensures r != []
  {
    if c == '\n' then [""] + pieces else [[c] + pieces[0]] + pieces[1..]
  }

  /** `split("\n")`: the pieces between newlines, at least one. */
  function Split(s: string): (r: seq<string>)
    ensures r != []
  {
    if s == "" then [""] else Prepend(s[0], Split(s[1..]))
  }

  function Joined(lines: seq<string>): string
    requires lines != []
  {
    if |lines| == 1 then lines[0] else lines[0] + "\n" + Joined(lines[1..])
  }

  function Flatten(chunks: seq<string>): string {
    if chunks == [] then "" else Flatten(chunks[..|chunks| - 1]) + chunks[|chunks| - 1]
  }

  /** The newline-terminated lines of a text, and what follows the last newline. */
  function Lines(s: string): seq<string> { var p := Split(s); p[..|p| - 1] }
  function Tail(s: string): string { var p := Split(s); p[|p| - 1] }

  /** The pieces are the only way to read the text as lines: they hold no newline, and joined by
      newlines they give it back. */
  lemma {:induction false} SplitReadsLines(s: string)
    ensures Joined(Split(s)) == s
    ensures forall k :: 0 <= k < |Split(s)| ==> '\n' !in Split(s)[k]
  {
    if s != "" {
      SplitReadsLines(s[1..]);
      var rest := Split(s[1..]);
      assert s == [s[0]] + s[1..];
      if s[0] != '\n' {
        if |rest| > 1 {
          assert Split(s)[1..] == rest[1..];
        }
      } else {
        assert Split(s)[1..] == rest;
      }
    }
  }

  lemma {:induction false} SplitOfJoined(lines: seq<string>)
    requires lines != [] && forall k :: 0 <= k < |lines| ==> '\n' !in lines[k]
    ensures Split(Joined(lines)) == lines
    decreases |lines|, |lines[0]|
  {
    var s := Joined(lines);
    if lines[0] != "" {
      var shorter := [lines[0][1..]] + lines[1..];
      assert Joined(shorter) == s[1..] by {
        if |lines| > 1 { assert shorter[1..] == lines[1..]; }
      }
      assert s[0] == lines[0][0];
      SplitOfJoined(shorter);
      assert [s[0]] + shorter[0] == lines[0];
    } else if |lines| > 1 {
      SplitOfJoined(lines[1..]);
      assert s == "\n" + Joined(lines[1..]);
      assert s[1..] == Joined(lines[1..]);
      assert lines == [""] + lines[1..];
    }
  }

  /** All pieces but the last, and then the pieces of the last one continued by `b`. */
  function Continue(pieces: seq<string>, b: string): (r: seq<string>)
    requires pieces != []
    ensures r != []
  {
    pieces[..|pieces| - 1] + Split(pieces[|pieces| - 1] + b)
  }

  lemma PrependOne(c: char, piece: string, b: string)
    requires c != '\n'
    ensures Split([c] + piece + b) == Prepend(c, Split(piece + b))
  {
    assert ([c] + piece + b)[1..] == piece + b;
  }

  lemma ContinueAfterPrepend(c: char, pieces: seq<string>, b: string)
    requires pieces != []
    ensures Continue(Prepend(c, pieces), b) == Prepend(c, Continue(pieces, b))
  {
    var n := |pieces| - 1;
    var last := Split(pieces[n] + b);
    if c == '\n' {
      assert ([""] + pieces)[..n + 1] == [""] + pieces[..n];
      assert [""] + pieces[..n] + last == [""] + (pieces[..n] + last);
    } else if n == 0 {
      PrependOne(c, pieces[0], b);
      assert Prepend(c, pieces) == [[c] + pieces[0]];
      assert pieces[..0] + last == last;
    } else {
      ContinueTail(c, pieces, last);
    }
  }

  lemma ContinueTail(c: char, pieces: seq<string>, last: seq<string>)
    requires |pieces| > 1 && last != [] && c != '\n'
    ensures Prepend(c, pieces)[..|pieces| - 1] + last == Prepend(c, pieces[..|pieces| - 1] + last)
  {
    var n, first := |pieces| - 1, [c] + pieces[0];
    CutBehindFirst(first, pieces[1..], n);
    assert pieces[1..][..n - 1] == pieces[1..n];
    assert (pieces[..n] + last)[1..] == pieces[1..n] + last;
  }

  lemma CutBehindFirst(first: string, rest: seq<string>, n: nat)
    requires 0 < n <= |rest| + 1
    ensures ([first] + rest)[..n] == [first] + rest[..n - 1]
  {
  }

  /** Splitting a longer text keeps all pieces but the last, and goes on from there. */
  lemma {:induction false} SplitContinues(a: string, b: string)
    ensures Split(a + b) == Continue(Split(a), b)
  {
    if a == "" {
      assert a + b == b && "" + b == b;
    } else {
      assert (a + b)[1..] == a[1..] + b;
      SplitContinues(a[1..], b);
      ContinueAfterPrepend(a[0], Split(a[1..]), b);
    }
  }

  /** One chunk: completes some lines, and leaves the rest in the buffer. */
  method CutChunk(buffer: string, chunk: string, ghost stream: string) returns (lines: seq<string>, rest: string)
    requires buffer == Tail(stream)
    ensures Lines(stream + chunk) == Lines(stream) + lines && rest == Tail(stream + chunk)
  {
    SplitContinues(stream, chunk);
    var pieces := Split(buffer + chunk);
    lines, rest := pieces[..|pieces| - 1], pieces[|pieces| - 1];
  }

  /** The reader's loop: however the stream is cut, the lines handed on are its newline-terminated
      lines in order, and the buffer is the rest. */
  method ReadLines(chunks: seq<string>) returns (handed: seq<string>, buffer: string)
    ensures handed == Lines(Flatten(chunks))
    ensures buffer == Tail(Flatten(chunks))
  {
    handed, buffer := [], "";
    for i := 0 to |chunks|
      invariant handed == Lines(Flatten(chunks[..i])) && buffer == Tail(Flatten(chunks[..i]))
    {
      assert chunks[..i + 1][..i] == chunks[..i];
      var lines;
      lines, buffer := CutChunk(buffer, chunks[i], Flatten(chunks[..i]));
      handed := handed + lines;
    }
    assert chunks[..|chunks|] == chunks;
  }
}
