/** Streaming a session file line by line through one buffer that is refilled in place. */
module SessionLines {
  // Whatever the read sizes, the lines visited are those of the whole content.

  import opened Wrappers

  newtype Byte = x: int | 0 <= x < 256

  const NEWLINE: Byte := 0x0a

  const READ_CHUNK_BYTES := 1024 * 1024

  const MAX_LINE_BYTES := 8 * 1024 * 1024

  // ---------------------------------------------------------------- lines of a content

  /** The lines that end with a newline, and what follows the last newline. */
  function Split(s: seq<Byte>): (seq<seq<Byte>>, seq<Byte>) {
    if s == [] then ([], [])
    else
      var (lines, tail) := Split(s[..|s| - 1]);
      if s[|s| - 1] == NEWLINE then (lines + [tail], []) else (lines, tail + [s[|s| - 1]])
  }

  function Tail(s: seq<Byte>): seq<Byte> {
    Split(s).1
  }

  /** All lines, without an empty one after a final newline. */
  function Lines(s: seq<Byte>): seq<seq<Byte>> {
    Split(s).0 + if Tail(s) == [] then [] else [Tail(s)]
  }

  function Unlines(lines: seq<seq<Byte>>): seq<Byte> {
    if lines == [] then [] else Unlines(lines[..|lines| - 1]) + lines[|lines| - 1] + [NEWLINE]
  }

  predicate OneLine(line: seq<Byte>) {
    NEWLINE !in line
  }

  /** Splitting loses nothing: newlines put back give the content, and no line holds one. */
  lemma {:induction false} SplitRoundTrip(s: seq<Byte>)
    ensures Unlines(Split(s).0) + Tail(s) == s
    ensures OneLine(Tail(s)) && forall line | line in Split(s).0 :: OneLine(line)
  {
    if s != [] {
      var n := |s| - 1;
      var (lines, tail) := Split(s[..n]);
      SplitRoundTrip(s[..n]);
      assert s == s[..n] + [s[n]];
      if s[n] == NEWLINE {
        assert (lines + [tail])[..|lines|] == lines;
      }
    }
  }

  /** And it is the only way to write the content so: any newline-free lines and tail that make up
      the content are these. */
  lemma {:induction false} SplitUnique(s: seq<Byte>, lines: seq<seq<Byte>>, tail: seq<Byte>)
    requires Unlines(lines) + tail == s && OneLine(tail) && forall line | line in lines :: OneLine(line)
    ensures Split(s) == (lines, tail)
    decreases |s|
  {
    if s != [] {
      var n := |s| - 1;
      if tail != [] {
        assert s[n] == tail[|tail| - 1] && s[n] in tail;
        assert s[..n] == Unlines(lines) + tail[..|tail| - 1];
        assert forall b | b in tail[..|tail| - 1] :: b in tail;
        SplitUnique(s[..n], lines, tail[..|tail| - 1]);
        assert tail == tail[..|tail| - 1] + [s[n]];
      } else {
        assert lines != [];
        var (init, last) := (lines[..|lines| - 1], lines[|lines| - 1]);
        assert Unlines(lines) == Unlines(init) + last + [NEWLINE];
        assert s[n] == NEWLINE && s[..n] == Unlines(init) + last;
        assert last in lines;
        SplitUnique(s[..n], init, last);
        assert lines == init + [last];
      }
    } else {
      NoEmptyLines(lines);
    }
  }

  lemma NoEmptyLines(lines: seq<seq<Byte>>)
    ensures lines != [] ==> Unlines(lines) != []
  {
  }

  lemma SplitMore(s: seq<Byte>, b: Byte)
    ensures Split(s + [b]) == if b == NEWLINE then (Split(s).0 + [Tail(s)], []) else (Split(s).0, Tail(s) + [b])
  {
    assert (s + [b])[..|s|] == s;
  }

  /** Lines that are complete stay what they are when content is added. */
  lemma {:induction false} SplitGrows(s: seq<Byte>, more: seq<Byte>)
    ensures Split(s).0 <= Split(s + more).0
    ensures |Split(s + more).0| == |Split(s).0| ==> Tail(s) <= Tail(s + more)
    ensures |Split(s + more).0| > |Split(s).0| ==> Tail(s) <= Split(s + more).0[|Split(s).0|]
  {
    if more == [] {
      assert s + more == s;
    } else {
      var (init, b) := (more[..|more| - 1], more[|more| - 1]);
      SplitGrows(s, init);
      assert s + more == s + init + [b];
      SplitMore(s + init, b);
    }
  }

  /** What was carried over at some point is part of one line of the whole. */
  lemma TailWithinLine(s: seq<Byte>, more: seq<Byte>)
    requires Tail(s) != []
    ensures exists k :: 0 <= k < |Lines(s + more)| && Tail(s) <= Lines(s + more)[k]
    ensures Split(s).0 <= Lines(s + more)
  {
    SplitGrows(s, more);
    var k := |Split(s).0|;
    assert k < |Lines(s + more)| && Tail(s) <= Lines(s + more)[k];
  }

  // ---------------------------------------------------------------- reading a file

  /** An open file: reads return any positive number of bytes up to the buffer, none at the end.
      The cuts are the positions after each read. */
  class Handle {
    const content: seq<Byte>
    var pos: nat
    ghost var cuts: seq<nat>

    constructor (content: seq<Byte>)
      ensures this.content == content && pos == 0 && cuts == []
    {
      this.content := content;
      pos, cuts := 0, [];
    }

    method Read(buffer: array<Byte>) returns (n: nat)
      requires pos <= |content| && buffer.Length > 0
      modifies this`pos, this`cuts, buffer
      ensures n <= buffer.Length && old(pos) + n == pos <= |content|
      ensures n == 0 <==> old(pos) == |content|
      ensures buffer[..n] == content[old(pos)..pos]
      ensures cuts == if n == 0 then old(cuts) else old(cuts) + [pos]
    {
      if pos == |content| { return 0; }
      n :| 0 < n <= buffer.Length && pos + n <= |content|;
      for i := 0 to n
        invariant pos == old(pos) && cuts == old(cuts) && pos + n <= |content|
        invariant buffer[..i] == content[pos..pos + i]
      {
        buffer[i] := content[pos + i];
      }
      pos := pos + n;
      cuts := cuts + [pos];
    }
  }

  function Concat(pieces: seq<seq<Byte>>): seq<Byte> {
    if pieces == [] then [] else Concat(pieces[..|pieces| - 1]) + pieces[|pieces| - 1]
  }

  lemma ConcatNone()
    ensures Concat([]) == []
  {
  }

  lemma ConcatMore(pieces: seq<seq<Byte>>, p: seq<Byte>)
    ensures Concat(pieces + [p]) == Concat(pieces) + p
  {
    assert (pieces + [p])[..|pieces|] == pieces;
  }

  /** The scan of one buffer: complete lines are visited, the rest is carried over as a copy. */
  method ScanChunk(chunk: array<Byte>, n: nat, ghost before: seq<Byte>, carried: seq<seq<Byte>>, carriedBytes: nat, visited: seq<seq<Byte>>)
    returns (pending: seq<seq<Byte>>, pendingBytes: nat, lines: seq<seq<Byte>>)
    requires 0 < n <= chunk.Length
    requires Carries(before, visited, carried) && carriedBytes == |Tail(before)|
    ensures Carries(before + chunk[..n], lines, pending) && pendingBytes == |Tail(before + chunk[..n])|
    ensures |visited| <= |lines| && lines[..|visited|] == visited
    ensures forall k | |visited| <= k < |lines| :: |lines[k]| <= carriedBytes + n
  {
    hide Split, Concat;
    ConcatNone();
    pending, pendingBytes, lines := carried, carriedBytes, visited;
    var start := 0;
    assert before + chunk[..0] == before && Concat(pending) + chunk[0..0] == Concat(pending);
    for at := 0 to n
      invariant start <= at
      invariant Split(before + chunk[..at]) == (lines, Concat(pending) + chunk[start..at])
      invariant start > 0 ==> pending == []
      invariant pending == [] <==> Concat(pending) == []
      invariant pendingBytes == |Concat(pending)| <= carriedBytes
      invariant |visited| <= |lines| && lines[..|visited|] == visited
      invariant forall k | |visited| <= k < |lines| :: |lines[k]| <= carriedBytes + n
    {
      assert before + chunk[..at + 1] == before + chunk[..at] + [chunk[at]];
      SplitMore(before + chunk[..at], chunk[at]);
      if chunk[at] != NEWLINE {
        assert Concat(pending) + chunk[start..at] + [chunk[at]] == Concat(pending) + chunk[start..at + 1];
        continue;
      }
      ConcatMore(pending, chunk[start..at]);
      pending := pending + [chunk[start..at]];
      lines := lines + [Concat(pending)];
      pending, pendingBytes := [], 0;
      start := at + 1;
      assert Concat(pending) + chunk[start..at + 1] == [];
    }
    if start < n {
      ConcatMore(pending, chunk[start..n]);
      pending := pending + [chunk[start..n]];
      pendingBytes := pendingBytes + (n - start);
    } else {
      assert Concat(pending) + chunk[start..n] == Concat(pending);
    }
  }

  /** The state between two reads: the lines so far, and the rest in pieces, none if there is none. */
  predicate Carries(s: seq<Byte>, visited: seq<seq<Byte>>, pending: seq<seq<Byte>>) {
    Split(s) == (visited, Concat(pending)) && (pending == [] <==> Tail(s) == [])
  }

  predicate TooLong(content: seq<Byte>, cut: nat) {
    cut <= |content| && |Tail(content[..cut])| > MAX_LINE_BYTES
  }

  /** Visit every line of a file. The answer is the lines visited, and whether the scan gave up
      because what it carried over at the end of a read was longer than the bound. */
  method EachLine(file: Handle) returns (visited: seq<seq<Byte>>, complete: bool)
    requires file.pos == 0 && file.cuts == []
    modifies file
    ensures complete ==> visited == Lines(file.content)
    ensures !complete ==> visited <= Lines(file.content)
    ensures complete <==> forall k | 0 <= k < |file.cuts| :: !TooLong(file.content, file.cuts[k])
    ensures complete ==> forall k | 0 <= k < |visited| :: |visited[k]| <= MAX_LINE_BYTES + READ_CHUNK_BYTES
    ensures !complete ==> exists k :: 0 <= k < |Lines(file.content)| && |Lines(file.content)[k]| > MAX_LINE_BYTES
  {
    var chunk := new Byte[READ_CHUNK_BYTES];
    var pending: seq<seq<Byte>> := [];
    var pendingBytes := 0;
    visited := [];
    assert file.content[..0] == [] && Split(file.content[..0]) == ([], []) && Concat(pending) == [];
    hide Split, Concat;
    while true
      invariant file.pos <= |file.content| && fresh(chunk)
      invariant Carries(file.content[..file.pos], visited, pending) && pendingBytes == |Tail(file.content[..file.pos])|
      invariant forall k | 0 <= k < |file.cuts| :: !TooLong(file.content, file.cuts[k])
      invariant pendingBytes <= MAX_LINE_BYTES && chunk.Length == READ_CHUNK_BYTES
      invariant forall k | 0 <= k < |visited| :: |visited[k]| <= MAX_LINE_BYTES + READ_CHUNK_BYTES
      decreases |file.content| - file.pos
    {
      ghost var before := file.content[..file.pos];
      var n := file.Read(chunk);
      if n == 0 { break; }
      assert before + chunk[..n] == file.content[..file.pos];
      pending, pendingBytes, visited := ScanChunk(chunk, n, before, pending, pendingBytes, visited);
      if pendingBytes > MAX_LINE_BYTES {
        assert TooLong(file.content, file.cuts[|file.cuts| - 1]);
        assert file.content[..file.pos] + file.content[file.pos..] == file.content;
        TailWithinLine(file.content[..file.pos], file.content[file.pos..]);
        hide Lines;
        return visited, false;
      }
    }
    assert file.content[..file.pos] == file.content;
    if pending != [] { visited := visited + [Concat(pending)]; }
    complete := true;
  }
}
