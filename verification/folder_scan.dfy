/** The loop both folder scans share: every file is processed on its own inside a
    `try`; a file that succeeds appends one record, a file that fails appends one
    warning (naming the file) and the loop goes on. */
module FolderScan {
  import opened Wrappers
  import opened Sequences

  /** The records built, in enumeration order, and the names of the files a
      warning was shown for. */
  datatype Scan<R> = Scan(records: seq<R>, skipped: seq<string>)

  /** The loop over `files`; `load` is the body of the `try`, `None` standing for
      an exception, and `name` is the file name the warning shows. */
  function ScanAll<F, R>(files: seq<F>, load: F -> Option<R>, name: F -> string): (r: Scan<R>)
    ensures |r.records| + |r.skipped| == |files|
  {
    if files == [] then Scan([], [])
    else
      var rest := ScanAll(files[1..], load, name);
      match load(files[0])
      case Some(x) => Scan([x] + rest.records, rest.skipped)
      case None => Scan(rest.records, [name(files[0])] + rest.skipped)
  }

  /** The values of loads that are known to succeed, in order. */
  function Values<F, R>(files: seq<F>, load: F -> Option<R>): (r: seq<R>)
    requires forall k | 0 <= k < |files| :: load(files[k]).Some?
    ensures |r| == |files|
    ensures forall k | 0 <= k < |files| :: r[k] == load(files[k]).value
  {
    if files == [] then [] else [load(files[0]).value] + Values(files[1..], load)
  }

  /** The names of `files`, in order. */
  function Names<F>(files: seq<F>, name: F -> string): (r: seq<string>)
    ensures |r| == |files|
    ensures forall k | 0 <= k < |files| :: r[k] == name(files[k])
  {
    if files == [] then [] else [name(files[0])] + Names(files[1..], name)
  }

  /** The records are the results of the files that load, and the warnings name
      exactly the files that do not, both in enumeration order. */
  lemma {:induction false} ScanAllSelects<F, R>(files: seq<F>, load: F -> Option<R>, name: F -> string)
    ensures ScanAll(files, load, name).records == Values(Filter(files, (f: F) => load(f).Some?), load)
    ensures ScanAll(files, load, name).skipped == Names(Filter(files, (f: F) => load(f).None?), name)
  {
    if files != [] {
      ScanAllSelects(files[1..], load, name);
    }
  }

  /** Scanning two batches of files scans each on its own. */
  lemma {:induction false} ScanAllConcat<F, R>(a: seq<F>, b: seq<F>, load: F -> Option<R>, name: F -> string)
    ensures ScanAll(a + b, load, name).records == ScanAll(a, load, name).records + ScanAll(b, load, name).records
    ensures ScanAll(a + b, load, name).skipped == ScanAll(a, load, name).skipped + ScanAll(b, load, name).skipped
  {
    if a == [] {
      assert a + b == b;
    } else {
      assert (a + b)[0] == a[0] && (a + b)[1..] == a[1..] + b;
      ScanAllConcat(a[1..], b, load, name);
    }
  }

  /** A file that fails changes nothing for the others: the records are those of
      the folder without it, and only its name is added to the warnings. */
  lemma FailureIsolated<F, R>(before: seq<F>, bad: F, after: seq<F>, load: F -> Option<R>, name: F -> string)
    requires load(bad).None?
    ensures ScanAll(before + [bad] + after, load, name).records == ScanAll(before + after, load, name).records
    ensures ScanAll(before + [bad] + after, load, name).skipped
         == ScanAll(before, load, name).skipped + [name(bad)] + ScanAll(after, load, name).skipped
  {
    ScanAllConcat(before + [bad], after, load, name);
    ScanAllConcat(before, [bad], load, name);
    ScanAllConcat(before, after, load, name);
    assert ScanAll([bad], load, name) == Scan([], [name(bad)]);
  }
}
