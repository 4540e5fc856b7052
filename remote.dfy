/**
 * The host under test as the seed subsystem sees it: an FTP channel that
 * puts and gets whole files, and an SSH channel that runs a script and
 * returns its output or starts a script in the background. Nothing of the
 * transport is modelled: the files the host holds are a map, whatever a
 * remote process writes is a fixed function of the path and of how many
 * reads came before, and the output of a script is a fixed function of
 * its text.
 */
module Remote {
  import opened Py
  import opened Values

  /** A script the SSH channel was asked to run, with the keyword arguments it was given. */
  datatype Run =
    | Script(text: string, kwargs: Kwargs)
    | Background(text: string)

  /**
   * What a read of `path` gives as read number `n` on a host holding `files`:
   * an uploaded file's contents, or what the remote side has produced by then.
   */
  function ReadFrom(files: map<string, string>, produced: (string, nat) -> Result<string>, path: string, n: nat): (r: Result<string>)
    ensures path in files ==> r == Ok(files[path])
    ensures path !in files ==> r == produced(path, n)
  {
    if path in files then Ok(files[path]) else produced(path, n)
  }

  class Host {
    /** The files uploaded with `ftp.putContents`. */
    var files: map<string, string>
    /** Every script run so far, in order. */
    var runs: seq<Run>
    /** How many `ftp.getContents` calls were made so far. */
    var fetches: nat
    /** What a read of a path not uploaded gives, by the number of reads before it. */
    const produced: (string, nat) -> Result<string>
    /** What `run.script(text)` returns or raises. */
    const answer: string -> Result<string>

    constructor(produced: (string, nat) -> Result<string>, answer: string -> Result<string>)
      ensures files == map[] && runs == [] && fetches == 0
      ensures this.produced == produced && this.answer == answer
    {
      files := map[];
      runs := [];
      fetches := 0;
      this.produced := produced;
      this.answer := answer;
    }

    /** What `ftp.getContents(path)` gives as read number `n`. */
    function ReadAt(path: string, n: nat): Result<string>
      reads this
    {
      ReadFrom(files, produced, path, n)
    }

    /** `ftp.putContents(path, contents)`. */
    method PutContents(path: string, contents: string)
      modifies this
      ensures files == old(files)[path := contents]
      ensures runs == old(runs) && fetches == old(fetches)
    {
      files := files[path := contents];
    }

    /** `ftp.getContents(path)`. */
    method GetContents(path: string) returns (r: Result<string>)
      modifies this
      ensures r == old(ReadAt(path, fetches))
      ensures fetches == old(fetches) + 1
      ensures files == old(files) && runs == old(runs)
    {
      r := ReadAt(path, fetches);
      fetches := fetches + 1;
    }

    /** `run.script(text, **kwargs)`: the script's output, or what it raised. */
    method RunScript(text: string, kwargs: Kwargs) returns (r: Result<string>)
      modifies this
      ensures r == answer(text)
      ensures runs == old(runs) + [Script(text, kwargs)]
      ensures files == old(files) && fetches == old(fetches)
    {
      runs := runs + [Script(text, kwargs)];
      r := answer(text);
    }

    /** `run.backgroundScript(text)`. */
    method BackgroundScript(text: string)
      modifies this
      ensures runs == old(runs) + [Background(text)]
      ensures files == old(files) && fetches == old(fetches)
    {
      runs := runs + [Background(text)];
    }
  }
}
