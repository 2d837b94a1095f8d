/** The rule every binary lookup of the engine follows: walk an ordered list
    of candidate paths and take the first one that exists and whose `chmod`
    succeeds; a candidate that exists but cannot be made executable is
    skipped. */
module Resolver {
  import opened Wrappers
  import opened Fs

  /** A candidate the search accepts: it exists and `chmod` on it succeeds. */
  predicate Usable(p: string, existing: set<string>, denied: set<string>) {
    p in existing && p !in denied
  }

  /** Index of the first usable candidate, if any. */
  function FirstUsable(cands: seq<string>, existing: set<string>, denied: set<string>): (r: Option<nat>)
    ensures r.Some? ==> r.value < |cands| && Usable(cands[r.value], existing, denied)
    ensures r.Some? ==> forall j :: 0 <= j < r.value ==> !Usable(cands[j], existing, denied)
    ensures r.None? ==> forall j :: 0 <= j < |cands| ==> !Usable(cands[j], existing, denied)
  {
    if cands == [] then None
    else if Usable(cands[0], existing, denied) then Some(0)
    else match FirstUsable(cands[1..], existing, denied)
      case None => None
      case Some(i) => Some(i + 1)
  }

  /** The candidate the search returns, if any. */
  function Chosen(cands: seq<string>, existing: set<string>, denied: set<string>): Option<string> {
    match FirstUsable(cands, existing, denied)
    case None => None
    case Some(i) => Some(cands[i])
  }

  /** Adds the chosen candidate, which the search made executable, to `executable`. */
  function MarkedExecutable(executable: set<string>, chosen: Option<string>): set<string> {
    if chosen.Some? then executable + {chosen.value} else executable
  }

  /** The search returns `Some(p)` when `p` is the earliest usable candidate. */
  lemma ChosenFirst(cands: seq<string>, existing: set<string>, denied: set<string>, i: nat)
    requires i < |cands| && Usable(cands[i], existing, denied)
    requires forall j :: 0 <= j < i ==> !Usable(cands[j], existing, denied)
    ensures Chosen(cands, existing, denied) == Some(cands[i])
  {
    var r := FirstUsable(cands, existing, denied);
    assert r.Some?;
    assert !(r.value < i);
  }

  /** The search returns `None` exactly when no candidate is usable. */
  lemma ChosenNone(cands: seq<string>, existing: set<string>, denied: set<string>)
    ensures Chosen(cands, existing, denied).None?
            <==> forall j :: 0 <= j < |cands| ==> !Usable(cands[j], existing, denied)
  {
  }

  /** A candidate found earlier in the list wins over anything after it, and a
      list with no usable candidate defers to what follows it. */
  lemma {:induction false} ChosenAppend(a: seq<string>, b: seq<string>, existing: set<string>, denied: set<string>)
    ensures Chosen(a + b, existing, denied)
            == if Chosen(a, existing, denied).Some? then Chosen(a, existing, denied) else Chosen(b, existing, denied)
  {
    if a == [] {
      assert a + b == b;
    } else {
      assert (a + b)[0] == a[0];
      assert (a + b)[1..] == a[1..] + b;
      ChosenAppend(a[1..], b, existing, denied);
    }
  }

  /** An existing candidate whose `chmod` fails is skipped and the search
      goes on with the rest of the list. */
  lemma SkipsDenied(cands: seq<string>, existing: set<string>, denied: set<string>)
    requires cands != [] && cands[0] in existing && cands[0] in denied
    ensures Chosen(cands, existing, denied) == Chosen(cands[1..], existing, denied)
  {
  }

  /** Whatever the search returns is one of the candidates, exists and can be
      made executable. */
  lemma ChosenIsUsableCandidate(cands: seq<string>, existing: set<string>, denied: set<string>)
    ensures Chosen(cands, existing, denied).Some? ==>
              Chosen(cands, existing, denied).value in cands
              && Chosen(cands, existing, denied).value in existing
              && Chosen(cands, existing, denied).value !in denied
  {
  }

  /** The `for path in candidates: if exists: try chmod; return path` loop. */
  method FirstUsableCandidate(fs: FileSystem, cands: seq<string>) returns (r: Option<string>)
    modifies fs`executable
    ensures r == Chosen(cands, fs.existing, fs.chmodDenied)
    ensures fs.executable == MarkedExecutable(old(fs.executable), r)
  {
    var i := 0;
    while i < |cands|
      invariant 0 <= i <= |cands|
      invariant forall j :: 0 <= j < i ==> !Usable(cands[j], fs.existing, fs.chmodDenied)
      invariant fs.executable == old(fs.executable)
    {
      var present := fs.Exists(cands[i]);
      if present {
        var ok := fs.Chmod(cands[i]);
        if ok {
          ChosenFirst(cands, fs.existing, fs.chmodDenied, i);
          return Some(cands[i]);
        }
      }
      i := i + 1;
    }
    ChosenNone(cands, fs.existing, fs.chmodDenied);
    r := None;
  }

  /** The `shutil.which` fallback: taken only when it returns a non-empty
      path (Python's `if system_ffmpeg:`). */
  function WhichResult(which: map<string, string>, name: string): Option<string> {
    if name in which && which[name] != "" then Some(which[name]) else None
  }

  /** Candidate search with the `shutil.which(name)` fallback. */
  function Resolve(cands: seq<string>, existing: set<string>, denied: set<string>,
                   which: map<string, string>, name: string): Option<string>
  {
    match Chosen(cands, existing, denied)
    case Some(p) => Some(p)
    case None => WhichResult(which, name)
  }

  /** `which` is consulted only when no candidate qualifies: with a usable
      candidate the answer does not depend on the PATH search at all. */
  lemma WhichOnlyAsFallback(cands: seq<string>, existing: set<string>, denied: set<string>,
                            w1: map<string, string>, w2: map<string, string>, name: string, i: nat)
    requires i < |cands| && Usable(cands[i], existing, denied)
    ensures Resolve(cands, existing, denied, w1, name) == Resolve(cands, existing, denied, w2, name)
    ensures Resolve(cands, existing, denied, w1, name).Some?
  {
    ChosenNone(cands, existing, denied);
  }

  /** The resolved path is never a candidate that does not exist: it is an
      existing, `chmod`-able candidate, or else exactly the PATH search's
      answer after every candidate failed. */
  lemma ResolveSound(cands: seq<string>, existing: set<string>, denied: set<string>,
                     which: map<string, string>, name: string)
    ensures var r := Resolve(cands, existing, denied, which, name);
            r.Some? ==>
              (r.value in cands && Usable(r.value, existing, denied))
              || (r == WhichResult(which, name) && r.value != ""
                  && forall j :: 0 <= j < |cands| ==> !Usable(cands[j], existing, denied))
  {
    ChosenIsUsableCandidate(cands, existing, denied);
    if Chosen(cands, existing, denied).Some? {
      var i := FirstUsable(cands, existing, denied).value;
      assert cands[i] in existing;
    }
  }
}
