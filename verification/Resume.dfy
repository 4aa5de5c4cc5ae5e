/**
 Resuming a chat: the host writes the transcript as JSON lines (writeResumeJSONL in
 internal/webhook/chat.go) and the worker reads it back and seeds the model's history
 (LoadResume and SeedHistory in internal/chatwork/resume.go). The JSON codec is a parameter.
 */
module Resume {
  import opened Options
  import opened LineScanner
  import opened Llm
  import RoleOrder

  datatype Turn = Turn(role: string, content: string)

  /** maxResumeLine, 1 MiB. */
  const MAX_RESUME_LINE := 0x10_0000

  datatype FileState = Unopenable | Text(text: string)

  datatype LoadResult = Loaded(turns: seq<Turn>) | OpenFailed | BadLine | ScanFailed

  function EncodeAll(turns: seq<Turn>, enc: Turn -> string): (r: seq<string>)
    ensures |r| == |turns| && forall i :: 0 <= i < |turns| ==> r[i] == enc(turns[i])
  {
    seq(|turns|, i requires 0 <= i < |turns| => enc(turns[i]))
  }

  method WriteResumeJSONL(turns: seq<Turn>, enc: Turn -> string) returns (text: string)
    ensures text == Unlines(EncodeAll(turns, enc))
  {
    text := "";
    var i := 0;
    while i < |turns|
      invariant 0 <= i <= |turns|
      invariant text == Unlines(EncodeAll(turns, enc)[..i])
    {
      var lines := EncodeAll(turns, enc);
      assert lines[..i + 1] == lines[..i] + [lines[i]];
      UnlinesAppend(lines[..i], lines[i]);
      text := text + enc(turns[i]) + "\n";
      i := i + 1;
    }
    assert EncodeAll(turns, enc)[..|turns|] == EncodeAll(turns, enc);
  }

  /** The turns of the lines in order, blank lines skipped; None when a line does not decode. */
  function DecodeAll(lines: seq<string>, dec: string -> Option<Turn>): Option<seq<Turn>> {
    if lines == [] then Some([]) else
    var line := lines[|lines| - 1];
    match DecodeAll(lines[..|lines| - 1], dec)
    case None => None
    case Some(turns) =>
      if line == "" then Some(turns) else
      match dec(line)
      case None => None
      case Some(t) => Some(turns + [t])
  }

  ghost predicate Increasing(idx: seq<nat>) {
    forall a, b :: 0 <= a < b < |idx| ==> idx[a] < idx[b]
  }

  /** What decoding means: it fails exactly when some line that is not blank does not decode, and
      otherwise gives the turns of the lines that are not blank, one each, in order. */
  lemma {:induction false} DecodeMeaning(lines: seq<string>, dec: string -> Option<Turn>) returns (idx: seq<nat>)
    ensures DecodeAll(lines, dec).None? <==> exists i :: 0 <= i < |lines| && lines[i] != "" && dec(lines[i]).None?
    ensures Increasing(idx) && forall k :: 0 <= k < |idx| ==> idx[k] < |lines|
    ensures forall i :: 0 <= i < |lines| ==> (i in idx <==> lines[i] != "")
    ensures DecodeAll(lines, dec).Some? ==>
              && |idx| == |DecodeAll(lines, dec).value|
              && forall k :: 0 <= k < |idx| ==> dec(lines[idx[k]]) == Some(DecodeAll(lines, dec).value[k])
  {
    if lines == [] {
      idx := [];
    } else {
      var n := |lines| - 1;
      var init := lines[..n];
      idx := DecodeMeaning(init, dec);
      assert forall i :: 0 <= i < n ==> lines[i] == init[i];
      if lines[n] != "" { idx := idx + [n]; }
    }
  }

  function LoadFile(file: FileState, dec: string -> Option<Turn>): LoadResult {
    match file
    case Unopenable => OpenFailed
    case Text(text) =>
      var scan := ScanLines(text, MAX_RESUME_LINE);
      match DecodeAll(scan.lines, dec)
      case None => BadLine
      case Some(turns) => if scan.tooLong then ScanFailed else Loaded(turns)
  }

  /** What loading answers: a line before the first that does not fit fails the load if it is not blank
      and does not decode, and only then a line that does not fit does. `n` is how many lines fit
      before the first that does not. */
  lemma LoadMeaning(lines: seq<string>, last: string, n: nat, dec: string -> Option<Turn>)
    requires NewlineFree(lines) && '\n' !in last
    requires StopsAt(AndLast(lines, last), MAX_RESUME_LINE, n)
    ensures LoadFile(Unopenable, dec) == OpenFailed
    ensures var read := DropCRs(AndLast(lines, last)[..n]);
            var r := LoadFile(Text(Unlines(lines) + last), dec);
            && (r == BadLine <==> exists i :: 0 <= i < n && read[i] != "" && dec(read[i]).None?)
            && (r == ScanFailed <==> r != BadLine && n < |AndLast(lines, last)|)
            && (r.Loaded? <==> r != BadLine && n == |AndLast(lines, last)|)
            && (r.Loaded? ==> DecodeAll(read, dec) == Some(r.turns))
  {
    var all := AndLast(lines, last);
    ScanWhole(lines, last, MAX_RESUME_LINE);
    StopsOnce(all, MAX_RESUME_LINE, n, |ScanLines(Unlines(lines) + last, MAX_RESUME_LINE).lines|);
    var _ := DecodeMeaning(DropCRs(all[..n]), dec);
  }

  lemma {:induction false} BadPrefixIsBad(lines: seq<string>, n: nat, dec: string -> Option<Turn>)
    requires n <= |lines| && DecodeAll(lines[..n], dec).None?
    ensures DecodeAll(lines, dec).None?
    decreases |lines| - n
  {
    if n < |lines| {
      assert lines[..n + 1][..n] == lines[..n];
      BadPrefixIsBad(lines, n + 1, dec);
    } else {
      assert lines[..n] == lines;
    }
  }

  method LoadResume(file: FileState, dec: string -> Option<Turn>) returns (r: LoadResult)
    ensures r == LoadFile(file, dec)
  {
    if file.Unopenable? { return OpenFailed; }
    var scan := ScanLines(file.text, MAX_RESUME_LINE);
    var turns: seq<Turn> := [];
    for n := 0 to |scan.lines|
      invariant DecodeAll(scan.lines[..n], dec) == Some(turns)
    {
      var line := scan.lines[n];
      assert scan.lines[..n + 1][..n] == scan.lines[..n];
      if line == "" { continue; }
      var t := dec(line);
      if t.None? {
        BadPrefixIsBad(scan.lines, n + 1, dec);
        return BadLine;
      }
      turns := turns + [t.value];
    }
    assert scan.lines[..|scan.lines|] == scan.lines;
    if scan.tooLong { return ScanFailed; }
    return Loaded(turns);
  }

  /** The codec inverts on these turns; as JSON objects do, encodings are not empty, hold no raw
      newline and do not end in a carriage return. */
  ghost predicate CodecInverts(turns: seq<Turn>, enc: Turn -> string, dec: string -> Option<Turn>) {
    forall t :: t in turns ==>
      && dec(enc(t)) == Some(t)
      && enc(t) != "" && '\n' !in enc(t) && enc(t)[|enc(t)| - 1] != '\r'
  }

  lemma {:induction false} DecodeEncoded(turns: seq<Turn>, enc: Turn -> string, dec: string -> Option<Turn>)
    requires CodecInverts(turns, enc, dec)
    ensures DecodeAll(EncodeAll(turns, enc), dec) == Some(turns)
  {
    if turns != [] {
      var n := |turns| - 1;
      DecodeEncoded(turns[..n], enc, dec);
      assert EncodeAll(turns, enc)[..n] == EncodeAll(turns[..n], enc);
      assert turns[n] in turns;
      assert turns == turns[..n] + [turns[n]];
    }
  }

  /** LoadResume gives back the very turns the host wrote, for exactly the transcripts whose lines
      fit the 1 MiB line buffer. */
  lemma RoundTripExactlyWhenLinesFit(turns: seq<Turn>, enc: Turn -> string, dec: string -> Option<Turn>)
    requires CodecInverts(turns, enc, dec)
    ensures LoadFile(Text(Unlines(EncodeAll(turns, enc))), dec) == Loaded(turns)
            <==> Fits(EncodeAll(turns, enc), MAX_RESUME_LINE)
  {
    var lines := EncodeAll(turns, enc);
    forall i | 0 <= i < |lines| ensures '\n' !in lines[i] && DropCR(lines[i]) == lines[i] {
      assert turns[i] in turns;
    }
    ScanUnlines(lines, MAX_RESUME_LINE);
    assert DropCRs(lines) == lines;
    DecodeEncoded(turns, enc, dec);
  }

  // ---------------------------------------------------------------- seeding the history

  /** The message a turn becomes: empty and unknown turns become none. */
  function SeedOne(t: Turn): seq<Message> {
    if t.content == "" then []
    else if t.role == "user" then [Message("user", t.content, false)]
    else if t.role == "assistant_text" then [Message("assistant", t.content, false)]
    else if t.role == "tool_call" || t.role == "tool_result_summary" then
      [Message("system", t.content, false)]
    else []
  }

  function Seed(turns: seq<Turn>): seq<Message> {
    FlatMap(turns, SeedOne)
  }

  function FlatMap<A, B>(xs: seq<A>, f: A -> seq<B>): seq<B> {
    if xs == [] then [] else FlatMap(xs[..|xs| - 1], f) + f(xs[|xs| - 1])
  }

  /** nil and empty histories are the same to the harness; both are []. */
  method SeedHistory(rc: Option<seq<Turn>>) returns (msgs: seq<Message>)
    ensures msgs == if rc.None? then [] else Seed(rc.value)
  {
    if rc.None? || |rc.value| == 0 { return []; }
    msgs := [];
    for n := 0 to |rc.value|
      invariant msgs == Seed(rc.value[..n])
    {
      var t := rc.value[n];
      assert rc.value[..n + 1][..n] == rc.value[..n];
      if t.content == "" { continue; }
      match t.role {
        case "user" => msgs := msgs + [Message("user", t.content, false)];
        case "assistant_text" => msgs := msgs + [Message("assistant", t.content, false)];
        case "tool_call" => msgs := msgs + [Message("system", t.content, false)];
        case "tool_result_summary" => msgs := msgs + [Message("system", t.content, false)];
        case _ =>
      }
    }
    assert rc.value[..|rc.value|] == rc.value;
  }

  lemma {:induction false} FlatMapAppend<A, B>(a: seq<A>, b: seq<A>, f: A -> seq<B>)
    ensures FlatMap(a + b, f) == FlatMap(a, f) + FlatMap(b, f)
  {
    if b == [] {
      assert a + b == a;
    } else {
      var n := |b| - 1;
      assert (a + b)[..|a + b| - 1] == a + b[..n];
      FlatMapAppend(a, b[..n], f);
    }
  }

  /** What seeding means: the turns that count are those with content and one of the four roles; each
      gives one message, in order, with its very content and no details, from the user for a user
      turn, from the assistant for assistant_text, and from the system for the rest. */
  lemma {:induction false} SeedMeaning(turns: seq<Turn>) returns (idx: seq<nat>)
    ensures Increasing(idx) && |idx| == |Seed(turns)| && forall k :: 0 <= k < |idx| ==> idx[k] < |turns|
    ensures forall i :: 0 <= i < |turns| ==>
              (i in idx <==>
                 && turns[i].content != ""
                 && turns[i].role in {"user", "assistant_text", "tool_call", "tool_result_summary"})
    ensures forall k :: 0 <= k < |idx| ==>
              && Seed(turns)[k].content == turns[idx[k]].content && !Seed(turns)[k].details
              && (Seed(turns)[k].role == "user" <==> turns[idx[k]].role == "user")
              && (Seed(turns)[k].role == "assistant" <==> turns[idx[k]].role == "assistant_text")
              && Seed(turns)[k].role in {"user", "assistant", "system"}
  {
    if turns == [] {
      idx := [];
    } else {
      var n := |turns| - 1;
      var init := turns[..n];
      idx := SeedMeaning(init);
      SeedOneMeaning(turns[n]);
      assert forall i :: 0 <= i < n ==> turns[i] == init[i];
      if SeedOne(turns[n]) != [] { idx := idx + [n]; }
    }
  }

  lemma SeedOneMeaning(t: Turn)
    ensures |SeedOne(t)| ==
              if t.content != "" && t.role in {"user", "assistant_text", "tool_call", "tool_result_summary"}
              then 1 else 0
    ensures |SeedOne(t)| == 1 ==>
              && SeedOne(t)[0].content == t.content && !SeedOne(t)[0].details
              && (SeedOne(t)[0].role == "user" <==> t.role == "user")
              && (SeedOne(t)[0].role == "assistant" <==> t.role == "assistant_text")
              && SeedOne(t)[0].role in {"user", "assistant", "system"}
  {
  }

  /** Seeding works turn by turn and keeps their order: splitting a transcript anywhere splits its
      history at the same place. */
  lemma SeedIsInOrder(a: seq<Turn>, b: seq<Turn>)
    ensures Seed(a + b) == Seed(a) + Seed(b)
  {
    FlatMapAppend(a, b, SeedOne);
  }

  /** Turns that keep their speaker: everything else becomes a system message or nothing. */
  ghost predicate Speaks(t: Turn) {
    t.content != "" && (t.role == "user" || t.role == "assistant_text")
  }

  ghost predicate AssistantOpens(turns: seq<Turn>, i: int) {
    && 0 <= i < |turns|
    && turns[i].content != "" && turns[i].role == "assistant_text"
    && forall j :: 0 <= j < i ==> !Speaks(turns[j])
  }

  lemma {:induction false} SilentTurnsSeedSystem(turns: seq<Turn>)
    requires forall j :: 0 <= j < |turns| ==> !Speaks(turns[j])
    ensures forall m :: m in Seed(turns) ==> m.role == "system"
  {
    if turns != [] { SilentTurnsSeedSystem(turns[..|turns| - 1]); }
  }

  /** If the first speaking turn is at `i`, its message is the first one that is not "system". */
  lemma FirstSpeakerLeads(turns: seq<Turn>, i: nat)
    requires i < |turns| && Speaks(turns[i])
    requires forall j :: 0 <= j < i ==> !Speaks(turns[j])
    ensures var k := |Seed(turns[..i])|;
            && k < |Seed(turns)|
            && Seed(turns)[k] == SeedOne(turns[i])[0]
            && forall j :: 0 <= j < k ==> Seed(turns)[j].role == "system"
  {
    var before := Seed(turns[..i]);
    assert turns == turns[..i + 1] + turns[i + 1..];
    SeedIsInOrder(turns[..i + 1], turns[i + 1..]);
    assert turns[..i + 1][..i] == turns[..i];
    SilentTurnsSeedSystem(turns[..i]);
    assert forall j :: 0 <= j < |before| ==> Seed(turns)[j] == before[j] && before[j] in before;
  }

  lemma {:induction false} FirstSpeaker(turns: seq<Turn>) returns (i: int)
    ensures i < 0 ==> forall j :: 0 <= j < |turns| ==> !Speaks(turns[j])
    ensures i >= 0 ==> i < |turns| && Speaks(turns[i]) && forall j :: 0 <= j < i ==> !Speaks(turns[j])
  {
    i := 0;
    while i < |turns| && !Speaks(turns[i])
      invariant 0 <= i <= |turns|
      invariant forall j :: 0 <= j < i ==> !Speaks(turns[j])
    {
      i := i + 1;
    }
    if i == |turns| { i := -1; }
  }

  /** A resumed history is one the role-order fallback has to watch exactly when the first turn
      anybody speaks in is the assistant's. */
  lemma SeededHistoryAssistantFirst(turns: seq<Turn>)
    ensures RoleOrder.Leading(Seed(turns)) >= 0 <==> exists i :: AssistantOpens(turns, i)
  {
    var i := FirstSpeaker(turns);
    if i < 0 {
      SilentTurnsSeedSystem(turns);
      assert forall k :: 0 <= k < |Seed(turns)| ==> Seed(turns)[k] in Seed(turns);
    } else {
      FirstSpeakerLeads(turns, i);
      var k := |Seed(turns[..i])|;
      if turns[i].role == "assistant_text" {
        assert AssistantOpens(turns, i);
        assert RoleOrder.LeadsAt(Seed(turns), k);
      } else {
        assert Seed(turns)[k].role == "user";
        forall j ensures !AssistantOpens(turns, j) && !RoleOrder.LeadsAt(Seed(turns), j) {
          assert AssistantOpens(turns, j) ==> Speaks(turns[j]);
        }
      }
    }
  }
}
