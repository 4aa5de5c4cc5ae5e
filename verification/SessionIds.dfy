/**
 What a session ID is as a file name: the guard handleChatStart puts on it
 (internal/webhook/chat.go), and the run dir filepath.Join makes of it.
 */
module SessionIds {
  import opened LineScanner

  /** The ID that Join drops: its run dir is the run-dir base. */
  const BASE := "."

  /** Accepted: not empty, no separators, no "..". The guard's comparison with filepath.Base says
      nothing more, as BaseAddsNothing shows. */
  predicate SafeId(sid: string) {
    && sid != "" && '/' !in sid && '\\' !in sid
    && !exists i :: 0 <= i < |sid| - 1 && sid[i] == '.' && sid[i + 1] == '.'
  }

  /** filepath.Clean on the elements of a rooted path: empty and "." elements go, ".." goes up. */
  function Clean(elements: seq<string>): seq<string> {
    if elements == [] then [] else
    var init, last := Clean(elements[..|elements| - 1]), elements[|elements| - 1];
    if last == "" || last == "." then init
    else if last == ".." then (if init == [] then [] else init[..|init| - 1])
    else init + [last]
  }

  /** The elements of a path, between its separators. */
  function Split(path: string): seq<string> {
    var i := IndexOf(path, '/');
    if i < 0 then [path] else [path[..i]] + Split(path[i + 1..])
  }

  /** filepath.Join(base, sid). */
  function RunDir(base: seq<string>, sid: string): seq<string> {
    Clean(base + Split(sid))
  }

  /** filepath.Base: the last element that is not empty; "." for no path, "/" for a root. */
  function BaseName(path: string): string {
    if path == "" then "." else LastElement(Split(path))
  }

  function LastElement(elements: seq<string>): string {
    if elements == [] then "/"
    else if elements[|elements| - 1] != "" then elements[|elements| - 1]
    else LastElement(elements[..|elements| - 1])
  }

  lemma BaseAddsNothing(sid: string)
    requires sid != "" && '/' !in sid
    ensures BaseName(sid) == sid
  {
    assert Split(sid) == [sid];
  }

  /** The guard outright: what it refuses. */
  lemma RefusedIds(sid: string)
    ensures !SafeId(sid) <==>
              || sid == ""
              || sid != BaseName(sid)
              || (exists i :: 0 <= i < |sid| && (sid[i] == '/' || sid[i] == '\\'))
              || (exists i :: 0 <= i < |sid| - 1 && sid[i] == '.' && sid[i + 1] == '.')
  {
    if sid != "" && '/' !in sid { BaseAddsNothing(sid); }
    if '/' in sid || '\\' in sid {
      var i :| 0 <= i < |sid| && (sid[i] == '/' || sid[i] == '\\');
    }
  }

  predicate OwnDir(sid: string) {
    sid != BASE
  }

  lemma DotDotIsRefused()
    ensures !SafeId("..")
  {
    var up := "..";
    assert up[0] == '.' && up[1] == '.';
  }

  lemma RunDirOf(base: seq<string>, sid: string)
    requires Clean(base) == base && SafeId(sid)
    ensures RunDir(base, sid) == if sid == BASE then base else base + [sid]
  {
    assert Split(sid) == [sid];
    assert (base + [sid])[..|base + [sid]| - 1] == base;
    DotDotIsRefused();
  }

  /** An accepted ID names a directory below the base, and no other accepted ID's, exactly when it
      is not ".". */
  lemma OwnDirExactlyWhenNotDot(base: seq<string>, sid: string)
    requires Clean(base) == base && SafeId(sid)
    ensures OwnDir(sid) <==> base < RunDir(base, sid)
    ensures OwnDir(sid) <==> forall o :: SafeId(o) && o != sid ==> !(RunDir(base, sid) <= RunDir(base, o))
  {
    RunDirOf(base, sid);
    forall o | SafeId(o) ensures RunDir(base, sid) <= RunDir(base, o) <==> Covers(sid, o) {
      RemovalCovers(base, sid, o);
    }
    if sid == BASE {
      assert SafeId("s") && Covers(sid, "s");
    }
  }

  /** RemoveAll on the run dir of `sid` takes the run dir of `o`. */
  predicate Covers(sid: string, o: string) {
    o == sid || sid == BASE
  }

  /** A path is taken when it lies at or below what is removed. */
  lemma RemovalCovers(base: seq<string>, sid: string, o: string)
    requires Clean(base) == base && SafeId(sid) && SafeId(o)
    ensures RunDir(base, sid) <= RunDir(base, o) <==> Covers(sid, o)
  {
    RunDirOf(base, sid);
    RunDirOf(base, o);
    if RunDir(base, sid) <= RunDir(base, o) && sid != BASE {
      assert RunDir(base, o)[|base|] == RunDir(base, sid)[|base|];
    }
  }

  /** os.RemoveAll on the run dir of `sid`, given the run dirs there are. */
  function RemoveRunDir<D>(dirs: map<string, D>, sid: string): map<string, D> {
    if sid == BASE then map[] else dirs - {sid}
  }

  lemma RemoveRunDirTakesWhatIsBelow<D>(base: seq<string>, dirs: map<string, D>, sid: string)
    requires Clean(base) == base && SafeId(sid) && forall o :: o in dirs ==> SafeId(o)
    ensures RemoveRunDir(dirs, sid) == map o | o in dirs && !(RunDir(base, sid) <= RunDir(base, o)) :: dirs[o]
  {
    forall o | o in dirs ensures RunDir(base, sid) <= RunDir(base, o) <==> Covers(sid, o) {
      RemovalCovers(base, sid, o);
    }
  }
}
