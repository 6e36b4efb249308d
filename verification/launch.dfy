/** Choice of the command that launches the tool server, from the
    extension of its script (createCommand). */
module Launch {

  import opened Wrappers
  import opened Text

  const UnsupportedScript := "Server script must be a .js or .py file"

  /** No path ends both in ".js" and in ".py": the second-to-last
      characters differ. */
  lemma NotBothExtensions(path: string)
    ensures EndsWith(path, ".js") ==> !EndsWith(path, ".py")
  {
    if EndsWith(path, ".js") {
      assert path[|path| - 2] == ".js"[1] == 'j';
    }
  }

  /** The interpreter for the tool-server script: an error unless the path
      ends in ".js" or ".py"; a Python script runs under "python" on
      win32 and "python3" elsewhere; a JavaScript script runs under the
      executable of the current runtime, `execPath`. */
  function CreateCommand(scriptPath: string, platform: string, execPath: string): (r: Result<string, string>)
    ensures r.Err? <==> !EndsWith(scriptPath, ".js") && !EndsWith(scriptPath, ".py")
    ensures r.Err? ==> r.error == UnsupportedScript
    ensures EndsWith(scriptPath, ".py") ==> r == Ok(if platform == "win32" then "python" else "python3")
    ensures EndsWith(scriptPath, ".js") ==> r == Ok(execPath)
  {
    NotBothExtensions(scriptPath);
    var isJs := EndsWith(scriptPath, ".js");
    var isPy := EndsWith(scriptPath, ".py");
    if !isJs && !isPy then Err(UnsupportedScript)
    else if isPy then Ok(if platform == "win32" then "python" else "python3")
    else Ok(execPath)
  }
}
