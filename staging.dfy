/** The staging directory as the exporter sees it: the files written so far,
    keyed by path, and the directories created. A path is its list of segments
    (filepath.Join's lexical cleaning is not modelled). os.MkdirAll and
    ioutil.WriteFile either succeed or fail as the caller's oracle says. */
module Staging {
  import opened Common

  type Path = seq<string>

  /** The directories MkdirAll(p) makes sure exist: p and all its ancestors. */
  function Prefixes(p: Path): set<Path> {
    set k | 1 <= k <= |p| :: p[..k]
  }

  class StagingDir {
    var files: map<Path, string>
    var dirs: set<Path>

    constructor ()
      ensures files == map[] && dirs == {}
    {
      files, dirs := map[], {};
    }

    method MkdirAll(p: Path, fails: bool) returns (r: Result<()>)
      modifies this
      ensures files == old(files)
      ensures fails ==> r == Failure(MkdirError) && dirs == old(dirs)
      ensures !fails ==> r == Success(()) && dirs == old(dirs) + Prefixes(p)
      ensures !fails && p != [] ==> p in dirs
    {
      if fails {
        return Failure(MkdirError);
      }
      dirs := dirs + Prefixes(p);
      assert p != [] ==> p[..|p|] in Prefixes(p) && p[..|p|] == p;
      return Success(());
    }

    /** WriteFile creates or overwrites the file at p. */
    method WriteFile(p: Path, content: string, fails: bool) returns (r: Result<()>)
      modifies this
      ensures dirs == old(dirs)
      ensures fails ==> r == Failure(WriteError) && files == old(files)
      ensures !fails ==> r == Success(()) && files == old(files)[p := content]
    {
      if fails {
        return Failure(WriteError);
      }
      files := files[p := content];
      return Success(());
    }
  }
}
