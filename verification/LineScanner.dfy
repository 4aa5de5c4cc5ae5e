/**
 The line reader behind every file the worker parses: Go's `bufio.Scanner` with its default
 split function. A line ends at '\n'; one trailing '\r' is dropped; an unterminated last line
 counts; a line that does not fit the buffer stops the scan with an error.
 */
module LineScanner {

  /** Position of the first `c`, or -1. */
  function IndexOf(s: string, c: char): (i: int)
    ensures -1 <= i < |s|
    ensures i >= 0 ==> s[i] == c && c !in s[..i]
    ensures i < 0 ==> c !in s
  {
    if s == "" then -1
    else if s[0] == c then 0
    else
      var j := IndexOf(s[1..], c);
      assert s == [s[0]] + s[1..];
      if j < 0 then -1 else
        assert s[..j + 1] == [s[0]] + s[1..][..j];
        j + 1
  }

  function DropCR(line: string): string {
    if line != "" && line[|line| - 1] == '\r' then line[..|line| - 1] else line
  }

  /** One '\r' at the end of a line goes, and nothing else. */
  lemma DropCRMeaning(line: string)
    ensures forall body :: line == body + "\r" ==> DropCR(line) == body
    ensures (forall body :: line != body + "\r") ==> DropCR(line) == line
  {
    if line != "" && line[|line| - 1] == '\r' { assert line == line[..|line| - 1] + "\r"; }
  }

  function DropCRs(lines: seq<string>): (r: seq<string>)
    ensures |r| == |lines|
    ensures forall i :: 0 <= i < |lines| ==> r[i] == DropCR(lines[i])
  {
    seq(|lines|, i requires 0 <= i < |lines| => DropCR(lines[i]))
  }

  datatype Scan = Scan(lines: seq<string>, tooLong: bool)

  /** All lines of `text`; `limit` is the scanner's maximum token size, newline included. */
  function ScanLines(text: string, limit: nat): Scan
    decreases |text|
  {
    if text == "" then Scan([], false) else
    var i := IndexOf(text, '\n');
    if i < 0 then
      if |text| >= limit then Scan([], true) else Scan([DropCR(text)], false)
    else if i >= limit then Scan([], true)
    else
      var rest := ScanLines(text[i + 1..], limit);
      Scan([DropCR(text[..i])] + rest.lines, rest.tooLong)
  }

  /** One line per element, each terminated: what every writer in this program produces. */
  function Unlines(lines: seq<string>): string {
    if lines == [] then "" else lines[0] + "\n" + Unlines(lines[1..])
  }

  ghost predicate NewlineFree(lines: seq<string>) {
    forall i :: 0 <= i < |lines| ==> '\n' !in lines[i]
  }

  ghost predicate Fits(lines: seq<string>, limit: nat) {
    forall i :: 0 <= i < |lines| ==> |lines[i]| < limit
  }

  lemma FitsHeadTail(lines: seq<string>, limit: nat)
    requires lines != []
    ensures Fits(lines, limit) <==> |lines[0]| < limit && Fits(lines[1..], limit)
  {
    assert forall i :: 0 < i < |lines| ==> lines[i] == lines[1..][i - 1];
  }

  lemma FirstLine(line: string, rest: string)
    requires '\n' !in line
    ensures IndexOf(line + "\n" + rest, '\n') == |line|
    ensures (line + "\n" + rest)[..|line|] == line
    ensures (line + "\n" + rest)[|line| + 1..] == rest
  {
    var t := line + "\n" + rest;
    var i := IndexOf(t, '\n');
    assert t[|line|] == '\n';
    assert forall k :: 0 <= k < |line| ==> t[k] == line[k] && t[k] != '\n';
    assert forall n, k :: 0 <= k < n <= |t| ==> t[..n][k] == t[k];
    assert i <= |line|;
  }

  /** The first `n` lines fit, and the next one, if any, does not. */
  ghost predicate StopsAt(lines: seq<string>, limit: nat, n: nat) {
    n <= |lines| && Fits(lines[..n], limit) && (n < |lines| ==> |lines[n]| >= limit)
  }

  lemma StopsAtTheEnd(lines: seq<string>, limit: nat, n: nat)
    requires StopsAt(lines, limit, n)
    ensures n < |lines| <==> !Fits(lines, limit)
    ensures n == |lines| ==> lines[..n] == lines
  {
  }

  lemma StopsOnce(lines: seq<string>, limit: nat, n: nat, m: nat)
    requires StopsAt(lines, limit, n) && StopsAt(lines, limit, m)
    ensures n == m
  {
    assert forall i :: 0 <= i < n ==> lines[i] == lines[..n][i];
    assert forall i :: 0 <= i < m ==> lines[i] == lines[..m][i];
  }

  /** These are `lines` up to the first that does not fit, minus one trailing '\r' each, and scanning
      has failed exactly if there is such a one. */
  ghost predicate IsScanOf(scan: Scan, lines: seq<string>, limit: nat) {
    StopsAt(lines, limit, |scan.lines|)
    && scan == Scan(DropCRs(lines[..|scan.lines|]), |scan.lines| < |lines|)
  }

  ghost predicate ScansAs(text: string, lines: seq<string>, limit: nat) {
    IsScanOf(ScanLines(text, limit), lines, limit)
  }

  lemma ScanFirst(line: string, rest: string, limit: nat)
    requires '\n' !in line
    ensures var after := ScanLines(rest, limit);
            ScanLines(line + "\n" + rest, limit) ==
              if |line| >= limit then Scan([], true) else Scan([DropCR(line)] + after.lines, after.tooLong)
  {
    FirstLine(line, rest);
  }

  lemma OneMoreLine(after: Scan, lines: seq<string>, limit: nat)
    requires lines != [] && |lines[0]| < limit && IsScanOf(after, lines[1..], limit)
    ensures IsScanOf(Scan([DropCR(lines[0])] + after.lines, after.tooLong), lines, limit)
  {
    var n := |after.lines|;
    assert lines[..n + 1] == [lines[0]] + lines[1..][..n];
    assert forall i :: 0 < i < |lines| ==> lines[i] == lines[1..][i - 1];
  }

  /** The lines a text holds when it is `lines`, each terminated, and then `last`. */
  function AndLast(lines: seq<string>, last: string): seq<string> {
    if last == "" then lines else lines + [last]
  }

  lemma ScanOne(last: string, limit: nat)
    requires '\n' !in last && last != ""
    ensures ScansAs(last, [last], limit)
  {
    assert [last][0] == last && [last][..1] == [last] && DropCRs([last]) == [DropCR(last)];
  }

  lemma TailOfWhole(lines: seq<string>, last: string)
    requires lines != []
    ensures AndLast(lines, last)[0] == lines[0] && AndLast(lines, last)[1..] == AndLast(lines[1..], last)
    ensures Unlines(lines) + last == lines[0] + "\n" + (Unlines(lines[1..]) + last)
  {
    var head, rest := lines[0] + "\n", Unlines(lines[1..]);
    assert Unlines(lines) == head + rest;
    assert (head + rest) + last == head + (rest + last);
  }

  /** Every text is some terminated lines and a last one, and is scanned as those. */
  lemma {:induction false} ScanWhole(lines: seq<string>, last: string, limit: nat)
    requires NewlineFree(lines) && '\n' !in last
    ensures ScansAs(Unlines(lines) + last, AndLast(lines, last), limit)
  {
    if lines != [] {
      TailOfWhole(lines, last);
      ScanWhole(lines[1..], last, limit);
      var rest := Unlines(lines[1..]) + last;
      ScanFirst(lines[0], rest, limit);
      if |lines[0]| < limit { OneMoreLine(ScanLines(rest, limit), AndLast(lines, last), limit); }
    } else if last != "" {
      assert Unlines(lines) + last == last && AndLast(lines, last) == [last];
      ScanOne(last, limit);
    }
  }

  /** What was written as lines is read back as those lines. */
  lemma ScanUnlines(lines: seq<string>, limit: nat)
    requires NewlineFree(lines)
    ensures ScanLines(Unlines(lines), limit).tooLong <==> !Fits(lines, limit)
    ensures Fits(lines, limit) ==> ScanLines(Unlines(lines), limit).lines == DropCRs(lines)
  {
    assert Unlines(lines) + "" == Unlines(lines);
    ScanWhole(lines, "", limit);
    StopsAtTheEnd(lines, limit, |ScanLines(Unlines(lines), limit).lines|);
  }

  /** No scanned line contains a newline, whatever the text. */
  lemma {:induction false} ScannedLinesAreNewlineFree(text: string, limit: nat)
    ensures NewlineFree(ScanLines(text, limit).lines)
    decreases |text|
  {
    if text != "" {
      var i := IndexOf(text, '\n');
      if i < 0 {
        DropCRStaysFree(text);
      } else if i < limit {
        DropCRStaysFree(text[..i]);
        ScannedLinesAreNewlineFree(text[i + 1..], limit);
      }
    }
  }

  lemma DropCRStaysFree(line: string)
    requires '\n' !in line
    ensures '\n' !in DropCR(line)
  {
  }

  lemma {:induction false} UnlinesAppend(a: seq<string>, line: string)
    ensures Unlines(a + [line]) == Unlines(a) + line + "\n"
  {
    if a == [] {
      assert a + [line] == [line];
      assert Unlines([line]) == line + "\n" + Unlines([]);
    } else {
      assert (a + [line])[1..] == a[1..] + [line];
      UnlinesAppend(a[1..], line);
      assert a[0] + "\n" + (Unlines(a[1..]) + line + "\n") == (a[0] + "\n" + Unlines(a[1..])) + line + "\n";
    }
  }
}
