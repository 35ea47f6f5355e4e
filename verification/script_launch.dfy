/**
 * CallPythonScript.callPythonScript and the argument text it is given: the
 * script path is the repository directory (with "/" added if missing)
 * followed by the script name (with ".py" added if missing), resolved
 * against the web-content root; a missing file stops the run, otherwise
 * "python3 <script> <arguments>" is started in the repository directory.
 * The arguments travel as one text in which every field is followed by ",".
 */
module ScriptLaunch {
  import opened Outcomes
  import opened JavaText
  import opened DestinationVariables

  const PYTHON: string := "python3"
  const SCRIPT_NOT_FOUND_ERROR: string := "ETPBIC_ScriptNotFound"
  const EXECUTE_PYTHON_ERROR: string := "ETPBIC_ExecutePythonError"

  /**
   * What the launch can observe of the server: the servlet context's
   * real-path mapping, the paths that exist on disk, and whether a
   * `python3` executable can be started at all.
   */
  datatype Server = Server(realPath: string -> string, existing: set<string>, pythonInstalled: bool)

  /**
   * A started child process: the resolved script, the single argument
   * text it is given, and its working directory.
   */
  datatype Launch = Launch(script: string, arguments: string, directory: string)

  /**
   * The command line of a launch: the interpreter, the script, the argument
   * text. The argument text is one element, whatever commas or spaces it holds.
   */
  function Command(launch: Launch): (r: seq<string>)
    ensures |r| == 3 && r[0] == PYTHON
    ensures r[1] == launch.script && r[2] == launch.arguments
  {
    [PYTHON, launch.script, launch.arguments]
  }

  /** The repository-relative path of the script, before it is resolved. */
  function ScriptPath(repositoryPath: string, scriptName: string): (r: string)
    ensures r == ResolvePathDelimiter(repositoryPath) + WithSuffix(scriptName, ".py")
    ensures EndsWith(r, ".py")
  {
    var dir := ResolvePathDelimiter(repositoryPath);
    var file := WithSuffix(scriptName, ".py");
    assert (dir + file)[|dir + file| - 3..] == file[|file| - 3..];
    dir + file
  }

  /**
   * callPythonScript: the script must exist once resolved; the process
   * then starts when python3 can run in the resolved repository directory,
   * and fails with the execution error otherwise.
   */
  function LaunchScript(server: Server, repositoryPath: string, scriptName: string, args: string): (r: Result<Launch>)
    ensures var script := server.realPath(ScriptPath(repositoryPath, scriptName));
            var dir := server.realPath(ResolvePathDelimiter(repositoryPath));
            && (r.Err? && script !in server.existing ==> r.error == Translated(SCRIPT_NOT_FOUND_ERROR))
            && (r.Ok? <==> script in server.existing && server.pythonInstalled && dir in server.existing)
            && (r.Err? && script in server.existing ==> r.error == Translated(EXECUTE_PYTHON_ERROR))
            && (r.Ok? ==> r.value == Launch(script, args, dir) && Command(r.value) == [PYTHON, script, args])
  {
    var script := server.realPath(ScriptPath(repositoryPath, scriptName));
    var dir := server.realPath(ResolvePathDelimiter(repositoryPath));
    if script !in server.existing then Err(Translated(SCRIPT_NOT_FOUND_ERROR))
    else if !server.pythonInstalled || dir !in server.existing then Err(Translated(EXECUTE_PYTHON_ERROR))
    else Ok(Launch(script, args, dir))
  }

  /** The paths of the unit test: "/" is added to the repository, the script name already ends in ".py". */
  lemma ScriptPathExample()
    ensures ScriptPath("/test/repo", "test_script.py") == "/test/repo/test_script.py"
  {
    TestRepoGainsSlash();
    TestScriptKeepsSuffix();
    assert "/test/repo/" + "test_script.py" == "/test/repo/test_script.py";
  }

  /** The other way round: the repository already ends in "/", ".py" is added to the script name. */
  lemma ScriptSuffixExample()
    ensures ScriptPath("/test/repo/", "test_script") == "/test/repo/test_script.py"
  {
    TestRepoKeepsSlash();
    TestScriptGainsSuffix();
    assert "/test/repo/" + "test_script.py" == "/test/repo/test_script.py";
  }

  lemma TestRepoGainsSlash()
    ensures ResolvePathDelimiter("/test/repo") == "/test/repo/"
  {
    assert "/test/repo"[9] == 'o';
  }

  lemma TestRepoKeepsSlash()
    ensures ResolvePathDelimiter("/test/repo/") == "/test/repo/"
  {
    assert "/test/repo/"[10..] == "/";
  }

  lemma TestScriptKeepsSuffix()
    ensures WithSuffix("test_script.py", ".py") == "test_script.py"
  {
    assert "test_script.py"[11..] == ".py";
  }

  lemma TestScriptGainsSuffix()
    ensures WithSuffix("test_script", ".py") == "test_script.py"
  {
    assert "test_script"[8] == 'i';
    assert "test_script" + ".py" == "test_script.py";
  }

  /**
   * The unit test's server: every path resolves to "/nonexistent/path",
   * which does not exist, so the script is reported missing.
   */
  lemma ScriptNotFoundExample()
    ensures var server := Server(_ => "/nonexistent/path", {}, true);
            LaunchScript(server, "/test/repo", "test_script.py", "arg1,arg2") == Err(Translated(SCRIPT_NOT_FOUND_ERROR))
  {
  }

  /** A script that does not exist once resolved is never started. */
  lemma MissingScriptIsNotLaunched(server: Server, repositoryPath: string, scriptName: string, args: string)
    requires server.realPath(ScriptPath(repositoryPath, scriptName)) !in server.existing
    ensures LaunchScript(server, repositoryPath, scriptName, args) == Err(Translated(SCRIPT_NOT_FOUND_ERROR))
  {
  }

  // ---------------------------------------------------------------------
  // The argument text

  /** The text the builder holds after appending each field followed by ",". */
  function Terminated(fields: seq<string>): (r: string)
    ensures fields != [] ==> r != [] && r[|r| - 1] == ','
    decreases |fields|
  {
    if fields == [] then "" else Terminated(fields[..|fields| - 1]) + fields[|fields| - 1] + ","
  }

  /** Appending more fields extends the text: the builder is only ever appended to. */
  lemma {:induction false} TerminatedAppend(a: seq<string>, b: seq<string>)
    ensures Terminated(a + b) == Terminated(a) + Terminated(b)
    decreases |b|
  {
    if b == [] {
      assert a + b == a;
    } else {
      var n := |b| - 1;
      assert (a + b)[..|a + b| - 1] == a + b[..n] && (a + b)[|a + b| - 1] == b[n];
      assert Terminated(a + b) == Terminated(a + b[..n]) + b[n] + ",";
      TerminatedAppend(a, b[..n]);
      assert Terminated(b) == Terminated(b[..n]) + b[n] + ",";
    }
  }

  predicate CommaFree(fields: seq<string>) {
    forall i :: 0 <= i < |fields| ==> ',' !in fields[i]
  }

  /** How a reader recovers the fields: cut the text after every ",". */
  function CommaFields(s: string): (r: seq<string>)
    decreases |s|
  {
    if ',' !in s then (if s == "" then [] else [s])
    else
      var i := FirstComma(s);
      [s[..i]] + CommaFields(s[i + 1..])
  }

  function FirstComma(s: string): (i: nat)
    requires ',' in s
    ensures i < |s| && s[i] == ',' && ',' !in s[..i]
  {
    if s[0] == ',' then 0
    else
      assert ',' in s[1..] by {
        var j :| 0 <= j < |s| && s[j] == ',';
        assert s[1..][j - 1] == ',';
      }
      var i := 1 + FirstComma(s[1..]);
      assert s[..i] == [s[0]] + s[1..][..i - 1];
      i
  }

  lemma CommaFieldsCons(f: string, rest: string)
    requires ',' !in f
    ensures CommaFields(f + "," + rest) == [f] + CommaFields(rest)
  {
    var s := f + "," + rest;
    assert s[|f|] == ',' && s[..|f|] == f;
    assert FirstComma(s) == |f|;
    assert s[|f| + 1..] == rest;
  }

  /** The argument text seen from the front: the first field, its comma, then the text of the others. */
  lemma {:induction false} TerminatedCons(fields: seq<string>)
    requires fields != []
    ensures Terminated(fields) == fields[0] + "," + Terminated(fields[1..])
    decreases |fields|
  {
    if |fields| > 1 {
      var n := |fields| - 1;
      var init := fields[..n];
      TerminatedCons(init);
      assert init[1..] == fields[1..][..n - 1] && init[0] == fields[0];
      assert fields[1..][n - 1] == fields[n];
      assert Terminated(fields[1..]) == Terminated(init[1..]) + fields[n] + ",";
    } else {
      assert fields[1..] == [] && fields[..0] == [];
    }
  }

  /**
   * Round trip: when no field holds a comma, cutting the argument text at
   * its commas gives back exactly the fields, in order.
   */
  lemma {:induction false} CommaFieldsOfTerminated(fields: seq<string>)
    requires CommaFree(fields)
    ensures CommaFields(Terminated(fields)) == fields
    decreases |fields|
  {
    if fields != [] {
      TerminatedCons(fields);
      CommaFieldsOfTerminated(fields[1..]);
      CommaFieldsCons(fields[0], Terminated(fields[1..]));
    }
  }
}
