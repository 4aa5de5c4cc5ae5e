/**
 KEY=value env files (internal/secrets/secrets.go): the worker stages its git-credential
 settings with WriteEnvFile and its scrubbed subcommands read them back with Open.
 */
module EnvFile {
  import opened Options
  import opened LineScanner

  /** bufio.MaxScanTokenSize. */
  const MAX_LINE := 65536

  /** What the operating system answers when the file is opened. */
  datatype FileState = Missing | Unreadable | Text(text: string)

  datatype OpenResult = Source(vals: map<string, string>) | OpenError

  // ---------------------------------------------------------------- reading

  /** The entry a line contributes: blank lines, comments and lines without '=' contribute none. */
  function Entry(line: string): Option<(string, string)> {
    if line == "" || line[0] == '#' then None else
    var i := IndexOf(line, '=');
    if i < 0 then None else Some((line[..i], line[i + 1..]))
  }

  /** A line defines a key exactly when it is that key, free of '=', then '=', then the value, and
      does not start as a comment. */
  lemma EntryMeaning(line: string, k: string, v: string)
    ensures Entry(line) == Some((k, v)) <==> '=' !in k && line == k + "=" + v && line[0] != '#'
  {
    var i := IndexOf(line, '=');
    if '=' !in k && line == k + "=" + v {
      assert line[|k|] == '=' && forall n :: 0 <= n < |k| ==> line[n] == k[n];
      assert forall n, m :: 0 <= m < n <= |line| ==> line[..n][m] == line[m];
      assert i == |k| && line[..i] == k && line[i + 1..] == v;
    }
    if i >= 0 { assert line == line[..i] + "=" + line[i + 1..]; }
  }

  function Put(vals: map<string, string>, entry: Option<(string, string)>): map<string, string> {
    match entry
    case None => vals
    case Some((k, v)) => vals[k := v]
  }

  function ParseLines(lines: seq<string>): map<string, string> {
    if lines == [] then map[]
    else Put(ParseLines(lines[..|lines| - 1]), Entry(lines[|lines| - 1]))
  }

  function OpenFile(file: FileState): OpenResult {
    match file
    case Missing => Source(map[])
    case Unreadable => OpenError
    case Text(text) =>
      var scan := ScanLines(text, MAX_LINE);
      if scan.tooLong then OpenError else Source(ParseLines(scan.lines))
  }

  lemma ParseOneMore(lines: seq<string>, n: nat)
    requires n < |lines|
    ensures ParseLines(lines[..n + 1]) == Put(ParseLines(lines[..n]), Entry(lines[n]))
  {
    assert lines[..n + 1][..n] == lines[..n];
  }

  method Open(file: FileState) returns (r: OpenResult)
    ensures r == OpenFile(file)
  {
    if file.Missing? { return Source(map[]); }
    if file.Unreadable? { return OpenError; }
    var scan := ScanLines(file.text, MAX_LINE);
    var lines := scan.lines;
    var vals: map<string, string> := map[];
    for n := 0 to |lines|
      invariant vals == ParseLines(lines[..n])
    {
      var line := lines[n];
      ParseOneMore(lines, n);
      if line == "" || line[0] == '#' { continue; }
      var i := IndexOf(line, '=');
      if i < 0 { continue; }
      vals := vals[line[..i] := line[i + 1..]];
    }
    assert lines[..|lines|] == lines;
    if scan.tooLong { return OpenError; }
    return Source(vals);
  }

  /** A missing file is an empty source, any other unreadable one an error; a text with a line that
      does not fit is an error, any other is parsed line by line, the unterminated last one too. */
  lemma OpenMeaning(lines: seq<string>, last: string)
    requires NewlineFree(lines) && '\n' !in last
    ensures OpenFile(Missing) == Source(map[]) && OpenFile(Unreadable) == OpenError
    ensures OpenFile(Text(Unlines(lines) + last)) ==
              if Fits(AndLast(lines, last), MAX_LINE) then Source(ParseLines(DropCRs(AndLast(lines, last))))
              else OpenError
  {
    ScanWhole(lines, last, MAX_LINE);
    StopsAtTheEnd(AndLast(lines, last), MAX_LINE, |ScanLines(Unlines(lines) + last, MAX_LINE).lines|);
  }

  ghost predicate Defines(lines: seq<string>, i: int, k: string, v: string) {
    0 <= i < |lines| && Entry(lines[i]) == Some((k, v))
  }

  /** What parsing means without the fold: a key has the value of the last line that defines it. */
  lemma {:induction false} LastDefinitionWins(lines: seq<string>, k: string)
    ensures k in ParseLines(lines) <==> exists i, v :: Defines(lines, i, k, v)
    ensures k in ParseLines(lines) ==>
              exists i :: Defines(lines, i, k, ParseLines(lines)[k])
                && forall j, v :: i < j ==> !Defines(lines, j, k, v)
  {
    if lines != [] {
      var n := |lines| - 1;
      var init := lines[..n];
      LastDefinitionWins(init, k);
      assert forall i, v :: i != n ==> (Defines(lines, i, k, v) <==> Defines(init, i, k, v));
      match Entry(lines[n])
      case Some((k', v')) => if k' == k { assert Defines(lines, n, k, v'); }
      case None =>
    }
  }

  // ---------------------------------------------------------------- writing

  /** Byte-wise string order, the order slices.Sorted uses. */
  predicate LexLe(a: string, b: string) {
    a == "" || (b != "" && (a[0] < b[0] || (a[0] == b[0] && LexLe(a[1..], b[1..]))))
  }

  /** Ascending byte order: a prefix, or smaller where they first differ. */
  ghost predicate Precedes(a: string, b: string) {
    a <= b || exists i :: SmallerAt(a, b, i)
  }

  /** `a` and `b` are the same below `i` and differ there. */
  ghost predicate SmallerAt(a: string, b: string, i: int) {
    0 <= i < |a| && i < |b| && a[..i] == b[..i] && a[i] < b[i]
  }

  lemma {:induction false} LexLeSays(a: string, b: string) returns (i: int)
    requires LexLe(a, b)
    ensures a <= b || SmallerAt(a, b, i)
  {
    i := 0;
    if a != "" && a[0] == b[0] {
      i := LexLeSays(a[1..], b[1..]);
      i := i + 1;
      assert a == [a[0]] + a[1..] && b == [b[0]] + b[1..];
      if SmallerAt(a[1..], b[1..], i - 1) {
        assert a[..i] == [a[0]] + a[1..][..i - 1] && b[..i] == [b[0]] + b[1..][..i - 1];
      }
    }
  }

  lemma {:induction false} PrefixIsLexLe(a: string, b: string)
    requires a <= b
    ensures LexLe(a, b)
  {
    if a != "" { PrefixIsLexLe(a[1..], b[1..]); }
  }

  lemma {:induction false} SmallerIsLexLe(a: string, b: string, i: int)
    requires SmallerAt(a, b, i)
    ensures LexLe(a, b)
    decreases i
  {
    if i > 0 {
      assert a[0] == a[..i][0] == b[..i][0] == b[0];
      assert a[1..][..i - 1] == a[..i][1..] && b[1..][..i - 1] == b[..i][1..];
      SmallerIsLexLe(a[1..], b[1..], i - 1);
    }
  }

  lemma LexLeMeaning(a: string, b: string)
    ensures LexLe(a, b) <==> Precedes(a, b)
  {
    if LexLe(a, b) { var i := LexLeSays(a, b); }
    if a <= b { PrefixIsLexLe(a, b); }
    else if Precedes(a, b) {
      var i :| SmallerAt(a, b, i);
      SmallerIsLexLe(a, b, i);
    }
  }

  lemma {:induction false} LexTotal(a: string, b: string)
    ensures LexLe(a, b) || LexLe(b, a)
  {
    if a != "" && b != "" { LexTotal(a[1..], b[1..]); }
  }

  lemma {:induction false} LexAntisymmetric(a: string, b: string)
    requires LexLe(a, b) && LexLe(b, a)
    ensures a == b
  {
    if a != "" && b != "" {
      LexAntisymmetric(a[1..], b[1..]);
      assert a == [a[0]] + a[1..] && b == [b[0]] + b[1..];
    }
  }

  lemma {:induction false} LexTransitive(a: string, b: string, c: string)
    requires LexLe(a, b) && LexLe(b, c)
    ensures LexLe(a, c)
  {
    if a != "" && b != "" && a[0] == b[0] && b[0] == c[0] { LexTransitive(a[1..], b[1..], c[1..]); }
  }

  ghost predicate IsSorted(ks: seq<string>) {
    forall i, j :: 0 <= i < j < |ks| ==> LexLe(ks[i], ks[j])
  }

  function Insert(k: string, ks: seq<string>): (r: seq<string>)
    ensures multiset(r) == multiset(ks) + multiset{k}
  {
    if ks == [] then [k]
    else if LexLe(k, ks[0]) then [k] + ks
    else
      assert ks == [ks[0]] + ks[1..];
      [ks[0]] + Insert(k, ks[1..])
  }

  lemma {:induction false} InsertSorted(k: string, ks: seq<string>)
    requires IsSorted(ks)
    ensures IsSorted(Insert(k, ks))
  {
    if ks != [] {
      if LexLe(k, ks[0]) {
        forall j | 0 <= j < |ks| ensures LexLe(k, ks[j]) {
          if j > 0 { LexTransitive(k, ks[0], ks[j]); }
        }
      } else {
        LexTotal(k, ks[0]);
        var rest := Insert(k, ks[1..]);
        InsertSorted(k, ks[1..]);
        forall x | x in rest ensures LexLe(ks[0], x) {
          assert x in multiset(rest);
          assert x == k || x in ks[1..];
        }
      }
    }
  }

  /** slices.Sorted over the keys, from whatever order the map iteration produced them in. */
  function Sorted(ks: seq<string>): (r: seq<string>)
    ensures multiset(r) == multiset(ks)
  {
    if ks == [] then []
    else
      assert ks == [ks[0]] + ks[1..];
      Insert(ks[0], Sorted(ks[1..]))
  }

  lemma {:induction false} SortedIsSorted(ks: seq<string>)
    ensures IsSorted(Sorted(ks))
  {
    if ks != [] { SortedIsSorted(ks[1..]); InsertSorted(ks[0], Sorted(ks[1..])); }
  }

  /** So the keys come in ascending byte order, each as often as it was given. */
  lemma SortedAscends(ks: seq<string>, i: nat, j: nat)
    requires i < j < |ks|
    ensures multiset(Sorted(ks)) == multiset(ks) && |Sorted(ks)| == |ks|
    ensures Precedes(Sorted(ks)[i], Sorted(ks)[j])
  {
    assert |Sorted(ks)| == |multiset(Sorted(ks))| == |ks|;
    SortedIsSorted(ks);
    LexLeMeaning(Sorted(ks)[i], Sorted(ks)[j]);
  }

  lemma SortedHeadIsLeast(a: seq<string>, x: string)
    requires IsSorted(a) && x in multiset(a)
    ensures a != [] && LexLe(a[0], x)
  {
    var i :| 0 <= i < |a| && a[i] == x;
    LexTotal(x, x);
  }

  lemma SplitHead(a: seq<string>)
    requires a != []
    ensures multiset(a[1..]) == multiset(a) - multiset{a[0]}
  {
    assert a == [a[0]] + a[1..];
  }

  lemma SameHead(a: seq<string>, b: seq<string>)
    requires IsSorted(a) && IsSorted(b) && multiset(a) == multiset(b) && a != [] && b != []
    ensures a[0] == b[0] && multiset(a[1..]) == multiset(b[1..])
  {
    SortedHeadIsLeast(b, a[0]);
    SortedHeadIsLeast(a, b[0]);
    LexAntisymmetric(a[0], b[0]);
    SplitHead(a);
    SplitHead(b);
  }

  lemma {:induction false} SortedUnique(a: seq<string>, b: seq<string>)
    requires IsSorted(a) && IsSorted(b) && multiset(a) == multiset(b)
    ensures a == b
  {
    assert |a| == |multiset(a)| == |b|;
    if a != [] {
      SameHead(a, b);
      SortedUnique(a[1..], b[1..]);
      assert a == [a[0]] + a[1..] && b == [b[0]] + b[1..];
    }
  }

  function Line(k: string, v: string): string {
    k + "=" + v
  }

  function LinesFor(vals: map<string, string>, ks: seq<string>): (r: seq<string>)
    requires forall i :: 0 <= i < |ks| ==> ks[i] in vals
    ensures |r| == |ks| && forall i :: 0 <= i < |r| ==> r[i] == ks[i] + "=" + vals[ks[i]]
  {
    seq(|ks|, i requires 0 <= i < |ks| => Line(ks[i], vals[ks[i]]))
  }

  /** `ks` lists the keys of `vals`, each once: one possible iteration order of the map. */
  ghost predicate Enumerates(ks: seq<string>, vals: map<string, string>) {
    multiset(ks) == multiset(vals.Keys)
  }

  lemma EnumeratesMembers(ks: seq<string>, vals: map<string, string>)
    requires Enumerates(ks, vals)
    ensures forall k :: k in ks <==> k in vals
  {
    assert forall k :: k in ks <==> k in multiset(ks);
  }

  lemma WriteOneMore(vals: map<string, string>, ks: seq<string>, n: nat)
    requires Lists(ks, vals) && n < |ks|
    ensures Unlines(LinesFor(vals, ks)[..n + 1])
            == Unlines(LinesFor(vals, ks)[..n]) + ks[n] + "=" + vals[ks[n]] + "\n"
  {
    var lines := LinesFor(vals, ks);
    assert lines[..n + 1] == lines[..n] + [lines[n]];
    UnlinesAppend(lines[..n], lines[n]);
  }

  method WriteEnvFile(vals: map<string, string>, iteration: seq<string>) returns (text: string)
    requires Enumerates(iteration, vals)
    ensures text == FileText(vals, iteration)
  {
    var ks := Sorted(iteration);
    EnumeratesMembers(ks, vals);
    text := "";
    for n := 0 to |ks|
      invariant text == Unlines(LinesFor(vals, ks)[..n])
    {
      WriteOneMore(vals, ks, n);
      text := text + ks[n];
      text := text + "=";
      text := text + vals[ks[n]];
      text := text + "\n";
    }
    assert LinesFor(vals, ks)[..|ks|] == LinesFor(vals, ks);
  }

  ghost function FileText(vals: map<string, string>, iteration: seq<string>): string
    requires Enumerates(iteration, vals)
  {
    EnumeratesMembers(Sorted(iteration), vals);
    Unlines(LinesFor(vals, Sorted(iteration)))
  }

  /** Byte-identical rewrites: the text does not depend on the map's iteration order. */
  lemma OutputDependsOnlyOnTheMap(vals: map<string, string>, one: seq<string>, other: seq<string>)
    requires Enumerates(one, vals) && Enumerates(other, vals)
    ensures FileText(vals, one) == FileText(vals, other)
  {
    SortedIsSorted(one);
    SortedIsSorted(other);
    SortedUnique(Sorted(one), Sorted(other));
  }

  // ---------------------------------------------------------------- round trip

  ghost predicate PlainKey(k: string) {
    '=' !in k && '\n' !in k && (k != "" ==> k[0] != '#')
  }

  ghost predicate StorableEntry(k: string, v: string) {
    && PlainKey(k)
    && '\n' !in v && (v != "" ==> v[|v| - 1] != '\r')
    && |k| + 1 + |v| < MAX_LINE
  }

  ghost predicate Storable(vals: map<string, string>) {
    forall k :: k in vals ==> StorableEntry(k, vals[k])
  }

  lemma EntryOfLine(k: string, v: string)
    requires PlainKey(k)
    ensures Entry(Line(k, v)) == Some((k, v))
  {
    var line := Line(k, v);
    var i := IndexOf(line, '=');
    assert forall n :: 0 <= n < |k| ==> line[n] == k[n] && line[n] != '=';
    assert line[|k|] == '=';
    assert forall n, m :: 0 <= m < n <= |line| ==> line[..n][m] == line[m];
    assert i == |k|;
    assert line[..i] == k && line[i + 1..] == v;
  }

  lemma DropCROfLine(k: string, v: string)
    ensures DropCR(Line(k, v)) == Line(k, DropCR(v))
  {
    if v != "" {
      assert Line(k, v)[|Line(k, v)| - 1] == v[|v| - 1];
      assert Line(k, v)[..|Line(k, v)| - 1] == Line(k, v[..|v| - 1]);
    }
  }

  /** Any map Open can return has plain keys and newline-free values. */
  lemma {:induction false} ParsedIsPlain(lines: seq<string>, k: string)
    requires NewlineFree(lines)
    requires k in ParseLines(lines)
    ensures PlainKey(k) && '\n' !in ParseLines(lines)[k]
  {
    LastDefinitionWins(lines, k);
    var i :| Defines(lines, i, k, ParseLines(lines)[k]);
    var line := lines[i];
    var n := IndexOf(line, '=');
    assert k == line[..n] && ParseLines(lines)[k] == line[n + 1..];
    assert forall m :: 0 <= m < |k| ==> k[m] == line[m];
  }

  ghost predicate AllPlain(vals: map<string, string>) {
    forall k :: k in vals ==> PlainKey(k)
  }

  ghost predicate Lists(ks: seq<string>, vals: map<string, string>) {
    forall k :: k in ks <==> k in vals
  }

  lemma WrittenEntry(vals: map<string, string>, ks: seq<string>, i: nat)
    requires Lists(ks, vals) && AllPlain(vals) && i < |ks|
    ensures Entry(DropCRs(LinesFor(vals, ks))[i]) == Some((ks[i], DropCR(vals[ks[i]])))
  {
    DropCROfLine(ks[i], vals[ks[i]]);
    EntryOfLine(ks[i], DropCR(vals[ks[i]]));
  }

  /** Lines written for plain keys parse back to exactly those keys, values losing one '\r'. */
  lemma ParseWrittenAt(vals: map<string, string>, ks: seq<string>, k: string)
    requires Lists(ks, vals) && AllPlain(vals)
    ensures var parsed := ParseLines(DropCRs(LinesFor(vals, ks)));
            (k in parsed <==> k in vals) && (k in vals ==> parsed[k] == DropCR(vals[k]))
  {
    var lines := DropCRs(LinesFor(vals, ks));
    LastDefinitionWins(lines, k);
    if k in vals {
      assert k in ks;
      var i :| 0 <= i < |ks| && ks[i] == k;
      WrittenEntry(vals, ks, i);
      assert Defines(lines, i, k, DropCR(vals[k]));
    }
    if k in ParseLines(lines) {
      var j :| Defines(lines, j, k, ParseLines(lines)[k]);
      WrittenEntry(vals, ks, j);
    }
  }

  lemma ParseWritten(vals: map<string, string>, ks: seq<string>)
    requires Lists(ks, vals) && AllPlain(vals)
    ensures ParseLines(DropCRs(LinesFor(vals, ks))) == map k | k in vals :: DropCR(vals[k])
  {
    forall k { ParseWrittenAt(vals, ks, k); }
  }

  lemma LineNewlineFree(k: string, v: string)
    ensures '\n' !in Line(k, v) <==> '\n' !in k && '\n' !in v
  {
    var line := Line(k, v);
    assert forall i :: 0 <= i < |k| ==> line[i] == k[i];
    assert forall i :: 0 <= i < |v| ==> line[|k| + 1 + i] == v[i];
  }

  lemma StorableLines(vals: map<string, string>, ks: seq<string>)
    requires Lists(ks, vals) && Storable(vals)
    ensures NewlineFree(LinesFor(vals, ks)) && Fits(LinesFor(vals, ks), MAX_LINE)
  {
    forall i | 0 <= i < |ks|
      ensures '\n' !in LinesFor(vals, ks)[i] && |LinesFor(vals, ks)[i]| < MAX_LINE
    {
      assert ks[i] in vals && StorableEntry(ks[i], vals[ks[i]]);
      LineNewlineFree(ks[i], vals[ks[i]]);
    }
  }

  lemma StorableValuesKeepTheirEnd(vals: map<string, string>)
    requires Storable(vals)
    ensures AllPlain(vals)
    ensures (map k | k in vals :: DropCR(vals[k])) == vals
  {
    forall k | k in vals ensures PlainKey(k) && DropCR(vals[k]) == vals[k] {
      assert StorableEntry(k, vals[k]);
    }
  }

  lemma RoundTripFromStorable(vals: map<string, string>, iteration: seq<string>)
    requires Enumerates(iteration, vals) && Storable(vals)
    ensures OpenFile(Text(FileText(vals, iteration))) == Source(vals)
  {
    var ks := Sorted(iteration);
    EnumeratesMembers(ks, vals);
    StorableLines(vals, ks);
    ScanUnlines(LinesFor(vals, ks), MAX_LINE);
    StorableValuesKeepTheirEnd(vals);
    ParseWritten(vals, ks);
  }

  lemma StorableFromRoundTrip(vals: map<string, string>, iteration: seq<string>)
    requires Enumerates(iteration, vals)
    requires OpenFile(Text(FileText(vals, iteration))) == Source(vals)
    ensures Storable(vals)
  {
    var ks := Sorted(iteration);
    EnumeratesMembers(ks, vals);
    var lines := LinesFor(vals, ks);
    var scan := ScanLines(Unlines(lines), MAX_LINE);
    ScannedLinesAreNewlineFree(Unlines(lines), MAX_LINE);
    forall k | k in vals ensures PlainKey(k) && '\n' !in vals[k] { ParsedIsPlain(scan.lines, k); }
    forall i | 0 <= i < |ks| ensures '\n' !in lines[i] { LineNewlineFree(ks[i], vals[ks[i]]); }
    ScanUnlines(lines, MAX_LINE);
    ParseWritten(vals, ks);
    forall k | k in vals ensures StorableEntry(k, vals[k]) {
      ParseWrittenAt(vals, ks, k);
      assert k in ks;
      var i :| 0 <= i < |ks| && ks[i] == k;
      assert |lines[i]| < MAX_LINE;
    }
  }

  /** Open gives back exactly what WriteEnvFile was given, for exactly the storable maps. */
  lemma RoundTripExactlyWhenStorable(vals: map<string, string>, iteration: seq<string>)
    requires Enumerates(iteration, vals)
    ensures OpenFile(Text(FileText(vals, iteration))) == Source(vals) <==> Storable(vals)
  {
    if Storable(vals) { RoundTripFromStorable(vals, iteration); }
    if OpenFile(Text(FileText(vals, iteration))) == Source(vals) { StorableFromRoundTrip(vals, iteration); }
  }
}
