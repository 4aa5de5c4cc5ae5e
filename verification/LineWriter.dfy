/**
 The per-stream line splitter of the container output pump (lineWriter in
 internal/executor/docker.go): bytes arrive in arbitrary chunks, complete lines go out one by one,
 and no line may grow the buffer past its cap.
 */
module LineWriting {
  import opened LineScanner

  /** scannerBufferMax, 1 MiB. */
  const LINE_CAP := 0x10_0000

  // ---------------------------------------------------------------- what a stream means

  /** The newline-terminated segments of a stream, and what follows the last newline. */
  function Completed(s: string): seq<string> {
    if s == "" then [] else
    var init := s[..|s| - 1];
    if s[|s| - 1] == '\n' then Completed(init) + [Rest(init)] else Completed(init)
  }

  function Rest(s: string): string {
    if s == "" || s[|s| - 1] == '\n' then "" else Rest(s[..|s| - 1]) + [s[|s| - 1]]
  }

  /** The split cuts at every newline and loses nothing. */
  lemma {:induction false} SplitIsFaithful(s: string)
    ensures Unlines(Completed(s)) + Rest(s) == s
    ensures NewlineFree(Completed(s)) && '\n' !in Rest(s)
  {
    if s != "" {
      var init, c := s[..|s| - 1], s[|s| - 1];
      SplitIsFaithful(init);
      assert s == init + [c];
      if c == '\n' { UnlinesAppend(Completed(init), Rest(init)); }
    }
  }

  function Truncate(line: string): string {
    if |line| > LINE_CAP then line[..LINE_CAP] else line
  }

  /** bytes.TrimRight(line, "\r"). */
  function TrimCRs(line: string): string {
    if line != "" && line[|line| - 1] == '\r' then TrimCRs(line[..|line| - 1]) else line
  }

  lemma {:induction false} TrimCRsMeaning(line: string)
    ensures TrimCRs(line) <= line
    ensures forall i :: |TrimCRs(line)| <= i < |line| ==> line[i] == '\r'
    ensures TrimCRs(line) != "" ==> TrimCRs(line)[|TrimCRs(line)| - 1] != '\r'
  {
    if line != "" && line[|line| - 1] == '\r' { TrimCRsMeaning(line[..|line| - 1]); }
  }

  /** The line delivered for a segment. */
  function Delivered(segment: string): string {
    TrimCRs(Truncate(segment))
  }

  /** What is delivered is the start of the segment; what is missing of it is carriage returns, or
      lies past the cap, and no carriage return is left at the end. */
  lemma DeliveredMeaning(segment: string)
    ensures Delivered(segment) <= segment && |Delivered(segment)| <= LINE_CAP
    ensures forall i :: |Delivered(segment)| <= i < |segment| && i < LINE_CAP ==> segment[i] == '\r'
    ensures Delivered(segment) != "" ==> Delivered(segment)[|Delivered(segment)| - 1] != '\r'
  {
    TrimCRsMeaning(Truncate(segment));
  }

  function DeliveredAll(segments: seq<string>): (r: seq<string>)
    ensures |r| == |segments|
    ensures forall i :: 0 <= i < |segments| ==> r[i] == Delivered(segments[i])
  {
    seq(|segments|, i requires 0 <= i < |segments| => Delivered(segments[i]))
  }

  /** Everything a stream delivers once it has been flushed. */
  function StreamLines(s: string): seq<string> {
    DeliveredAll(Completed(s)) + if Rest(s) == "" then [] else [Delivered(Rest(s))]
  }

  /** What a stream means: `lines`, each terminated, and then `last` deliver one line each, the last
      exactly if it is not empty. */
  lemma StreamMeaning(lines: seq<string>, last: string)
    requires NewlineFree(lines) && '\n' !in last
    ensures |StreamLines(Unlines(lines) + last)| == |lines| + (if last == "" then 0 else 1)
    ensures forall i :: 0 <= i < |lines| ==> StreamLines(Unlines(lines) + last)[i] == Delivered(lines[i])
    ensures last != "" ==> StreamLines(Unlines(lines) + last)[|lines|] == Delivered(last)
  {
    SplitOfLines(lines);
    AppendPlain(Unlines(lines), last);
    assert "" + last == last;
  }

  lemma {:induction false} SplitOfLines(lines: seq<string>)
    requires NewlineFree(lines)
    ensures Completed(Unlines(lines)) == lines && Rest(Unlines(lines)) == ""
  {
    if lines != [] {
      var n := |lines| - 1;
      var before := Unlines(lines[..n]);
      assert lines == lines[..n] + [lines[n]];
      SplitOfLines(lines[..n]);
      UnlinesAppend(lines[..n], lines[n]);
      AppendPlain(before, lines[n]);
      AppendNewline(before + lines[n]);
      assert "" + lines[n] == lines[n];
    }
  }

  function Concat(chunks: seq<string>): string {
    if chunks == [] then "" else Concat(chunks[..|chunks| - 1]) + chunks[|chunks| - 1]
  }

  // ---------------------------------------------------------------- how appending changes it

  lemma {:induction false} AppendPlain(s: string, p: string)
    requires '\n' !in p
    ensures Rest(s + p) == Rest(s) + p && Completed(s + p) == Completed(s)
  {
    if p == "" {
      assert s + p == s;
    } else {
      var init, c := p[..|p| - 1], p[|p| - 1];
      AppendPlain(s, init);
      assert (s + p)[..|s + p| - 1] == s + init && (s + p)[|s + p| - 1] == c;
      assert Rest(s) + p == Rest(s) + init + [c];
    }
  }

  lemma AppendNewline(s: string)
    ensures Rest(s + "\n") == "" && Completed(s + "\n") == Completed(s) + [Rest(s)]
  {
    assert (s + "\n")[..|s + "\n"| - 1] == s;
  }

  // ---------------------------------------------------------------- the writer

  class LineWriter {
    var buf: string
    /** Every line passed to the emit callback so far. */
    var emitted: seq<string>
    /** Every byte written so far. */
    ghost var stream: string

    ghost predicate Valid()
      reads this
    {
      && |buf| <= LINE_CAP
      && buf == Truncate(Rest(stream))
      && emitted == DeliveredAll(Completed(stream))
    }

    constructor ()
      ensures Valid() && stream == "" && emitted == []
    {
      buf, emitted, stream := "", [], "";
    }

    method Write(p: string) returns (n: nat)
      requires Valid()
      modifies this
      ensures Valid() && stream == old(stream) + p && n == |p|
    {
      n := |p|;
      var q := p;
      while |q| > 0
        invariant Valid()
        invariant stream + q == old(stream) + p
        decreases |q|
      {
        var i := IndexOf(q, '\n');
        if i < 0 {
          AppendBounded(q);
          q := "";
          break;
        }
        AppendBounded(q[..i]);
        EndLine();
        assert q == q[..i] + "\n" + q[i + 1..];
        q := q[i + 1..];
      }
    }

    method AppendBounded(p: string)
      requires Valid() && '\n' !in p
      modifies this`buf, this`stream
      ensures Valid() && stream == old(stream) + p
    {
      AppendPlain(stream, p);
      var room := LINE_CAP - |buf|;
      if room > 0 {
        buf := buf + if |p| > room then p[..room] else p;
      }
      stream := stream + p;
    }

    /** flushLine as Write calls it, on meeting a newline. */
    method EndLine()
      requires Valid()
      modifies this
      ensures Valid() && stream == old(stream) + "\n"
    {
      AppendNewline(stream);
      FlushLine();
      stream := stream + "\n";
      assert DeliveredAll(Completed(stream)) == old(emitted) + [TrimCRs(old(buf))];
    }

    method FlushLine()
      requires |buf| <= LINE_CAP
      modifies this`buf, this`emitted
      ensures buf == "" && emitted == old(emitted) + [TrimCRs(old(buf))]
    {
      var line := buf;
      buf := "";
      while line != "" && line[|line| - 1] == '\r'
        invariant TrimCRs(line) == TrimCRs(old(buf))
        decreases |line|
      {
        line := line[..|line| - 1];
      }
      emitted := emitted + [line];
    }

    /** Ends the stream: an unterminated last line is delivered exactly when it is not empty. */
    method Flush()
      requires Valid()
      modifies this`buf, this`emitted
      ensures emitted == StreamLines(stream) && buf == ""
    {
      if |buf| > 0 { FlushLine(); }
    }
  }

  /** One stream of the pump: however the bytes are chunked, the delivered lines are those of the
      whole stream. */
  method Pump(chunks: seq<string>) returns (lines: seq<string>)
    ensures lines == StreamLines(Concat(chunks))
  {
    var w := new LineWriter();
    for i := 0 to |chunks|
      invariant w.Valid() && w.stream == Concat(chunks[..i])
      invariant fresh(w)
    {
      assert chunks[..i + 1][..i] == chunks[..i];
      var _ := w.Write(chunks[i]);
    }
    assert chunks[..|chunks|] == chunks;
    w.Flush();
    lines := w.emitted;
  }
}
