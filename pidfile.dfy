/**
 * `goes/pidfile`: where the pid file of a named daemon lives. The run
 * directory of package varrun is a parameter here (`run`).
 */
module PidFile {
  import opened PyStr

  /** `Dir = varrun.Dir + "/pids"` */
  function Dir(run: string): string {
    run + "/pids"
  }

  /**
   * `filepath.Join(dir, name)` on a clean directory and a name that needs no
   * cleaning: the empty name, or a `Tidy` one.
   */
  function Join(dir: string, name: string): string {
    if name == "" then dir else dir + "/" + name
  }

  /**
   * A relative name whose '/'-separated elements are neither empty, "." nor
   * "..": the lexical cleaning of `filepath.Join` leaves `dir + "/" + name`
   * as it is.
   */
  predicate Tidy(name: string) {
    forall e :: e in Split(name, "/") ==> e != "" && e != "." && e != ".."
  }

  /** `Path(name)`: a name already under `Dir` is kept; any other name ends the path. */
  function Path(run: string, name: string): (r: string)
    ensures StartsWith(name, Dir(run)) ==> r == name
    ensures |name| <= |r| && r[|r| - |name|..] == name
  {
    if StartsWith(name, Dir(run)) then name
    else
      var r := Join(Dir(run), name);
      assert r[|r| - |name|..] == name;
      r
  }

  /** Every path of a name that needs no cleaning lies under `Dir`, as a string prefix. */
  lemma PathUnderDir(run: string, name: string)
    requires name == "" || StartsWith(name, Dir(run)) || Tidy(name)
    ensures StartsWith(Path(run, name), Dir(run))
  {
    var d := Dir(run);
    if !StartsWith(name, d) {
      JoinStarts(d, name);
    }
  }

  lemma JoinStarts(d: string, name: string)
    ensures StartsWith(Join(d, name), d)
  {
    if name != "" {
      assert (d + "/" + name)[..|d|] == d;
    }
  }

  /** Hence `Path` is idempotent on such names. */
  lemma PathIdempotent(run: string, name: string)
    requires name == "" || StartsWith(name, Dir(run)) || Tidy(name)
    ensures Path(run, Path(run, name)) == Path(run, name)
  {
    PathUnderDir(run, name);
  }

  /** A bare name is placed in `Dir` behind a slash. */
  lemma PathOfBareName(run: string, name: string)
    requires name != "" && name != "." && name != ".." && '/' !in name
    ensures Path(run, name) == Dir(run) + "/" + name
  {
    assert Dir(run)[|run|] == '/';
  }

  /** The prefix test is on strings, not on path elements: `Dir + "x"` is kept as it is. */
  lemma PathKeepsSiblings(run: string, suffix: string)
    ensures Path(run, Dir(run) + suffix) == Dir(run) + suffix
  {
    assert (Dir(run) + suffix)[..|Dir(run)|] == Dir(run);
  }
}
