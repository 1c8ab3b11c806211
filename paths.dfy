/** Where the session and history files live, after the XDG Base Directory
    Specification: under `$XDG_DATA_HOME` when that variable is set, else
    under `~/.local/share`. */
module DataPaths {

  /** A `pathlib.Path` built from a base directory and the components
      appended to it with `/`. */
  datatype Path = Path(base: string, parts: seq<string>)

  /** `data_path / "mchat" / name`, where `data_path` is `$XDG_DATA_HOME`
      when the variable is present in the environment (even when it is
      empty) and `Path.home() / ".local" / "share"` otherwise. */
  function DataFile(env: map<string, string>, home: string, name: string): (p: Path)
    ensures |p.parts| >= 2 && p.parts[|p.parts| - 2..] == ["mchat", name]
    ensures "XDG_DATA_HOME" in env ==> p.base == env["XDG_DATA_HOME"] && p.parts == ["mchat", name]
    ensures "XDG_DATA_HOME" !in env ==> p == Path(home, [".local", "share", "mchat", name])
  {
    if "XDG_DATA_HOME" in env then Path(env["XDG_DATA_HOME"], ["mchat", name])
    else Path(home, [".local", "share", "mchat", name])
  }

  /** The path depends on the environment only through `XDG_DATA_HOME`. */
  lemma DataFileReadsOnlyXdg(env1: map<string, string>, env2: map<string, string>, home: string, name: string)
    requires "XDG_DATA_HOME" in env1 <==> "XDG_DATA_HOME" in env2
    requires "XDG_DATA_HOME" in env1 ==> env1["XDG_DATA_HOME"] == env2["XDG_DATA_HOME"]
    ensures DataFile(env1, home, name) == DataFile(env2, home, name)
  {
  }
}
