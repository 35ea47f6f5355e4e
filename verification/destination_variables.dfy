/**
 * The per-destination settings of CallPythonScript.doExecute: the
 * execution variables of one data destination are scanned once into eight
 * named slots (matching the lower-cased variable name exactly), then the
 * required slots are checked, missing database credentials fall back to
 * the application properties, and the port and path get their defaults.
 */
module DestinationVariables {
  import opened Outcomes
  import opened JavaText
  import opened DbProperties

  const VARIABLES_NOT_FOUND_ERROR: string := "ETPBIC_VariablesNotFoundError"
  const DEFAULT_PORT: string := "22"

  const CLIENT: string := "client"
  const USER: string := "user"
  const IP: string := "ip"
  const PORT: string := "port"
  const PATH: string := "path"
  const BBDD_USER_VAR: string := "bbdd_user"
  const BBDD_PASSWORD_VAR: string := "bbdd_password"
  const PRIVATE_KEY_PATH: string := "private-key-path"

  /** One execution variable of a data destination: a name and its value. */
  datatype ExecVar = ExecVar(variable: string, value: string)

  /** The eight local slots the scan fills; each starts as "". */
  datatype Slots = Slots(
    client: string, user: string, ip: string, port: string, path: string,
    bbddUser: string, bbddPassword: string, privateKeyPath: string)

  /** Whether a variable is dispatched to the slot `name`: its lower-cased name is exactly `name`. */
  predicate Names(x: ExecVar, name: string) {
    ToLower(x.variable) == name
  }

  /**
   * The value the scan leaves in the slot `name`: that of the last variable
   * naming it, or "" when none does.
   */
  /** Some variable of the list names the slot. */
  predicate NamedIn(vars: seq<ExecVar>, name: string)
  {
    exists i :: 0 <= i < |vars| && Names(vars[i], name)
  }

  function LastValue(vars: seq<ExecVar>, name: string): (r: string)
    ensures !NamedIn(vars, name) ==> r == ""
    decreases |vars|
  {
    if vars == [] then ""
    else if Names(vars[|vars| - 1], name) then vars[|vars| - 1].value
    else LastValue(vars[..|vars| - 1], name)
  }

  /** The eight names the switch dispatches on. */
  const SLOT_NAMES: set<string> := {CLIENT, USER, IP, PORT, PATH, BBDD_USER_VAR, BBDD_PASSWORD_VAR, PRIVATE_KEY_PATH}

  /** One pass of the switch: the slot that the lower-cased name selects takes the value; other names change nothing. */
  function Dispatch(s: Slots, x: ExecVar): (r: Slots)
    ensures r.client == (if Names(x, CLIENT) then x.value else s.client)
    ensures r.user == (if Names(x, USER) then x.value else s.user)
    ensures r.ip == (if Names(x, IP) then x.value else s.ip)
    ensures r.port == (if Names(x, PORT) then x.value else s.port)
    ensures r.path == (if Names(x, PATH) then x.value else s.path)
    ensures r.bbddUser == (if Names(x, BBDD_USER_VAR) then x.value else s.bbddUser)
    ensures r.bbddPassword == (if Names(x, BBDD_PASSWORD_VAR) then x.value else s.bbddPassword)
    ensures r.privateKeyPath == (if Names(x, PRIVATE_KEY_PATH) then x.value else s.privateKeyPath)
    ensures ToLower(x.variable) !in SLOT_NAMES ==> r == s
  {
    var name := ToLower(x.variable);
    if name == CLIENT then s.(client := x.value)
    else if name == USER then s.(user := x.value)
    else if name == IP then s.(ip := x.value)
    else if name == PORT then s.(port := x.value)
    else if name == PATH then s.(path := x.value)
    else if name == BBDD_USER_VAR then s.(bbddUser := x.value)
    else if name == BBDD_PASSWORD_VAR then s.(bbddPassword := x.value)
    else if name == PRIVATE_KEY_PATH then s.(privateKeyPath := x.value)
    else s
  }

  /**
   * Every slot as the scan over `vars` leaves it: the switch applied to the
   * variables one after the other, from eight empty slots. Each slot then
   * holds the value of the last variable naming it, or "" when none does.
   */
  function SlotsOf(vars: seq<ExecVar>): (r: Slots)
    ensures vars == [] ==> r == Slots("", "", "", "", "", "", "", "")
    ensures r.client == LastValue(vars, CLIENT) && r.user == LastValue(vars, USER)
    ensures r.ip == LastValue(vars, IP) && r.port == LastValue(vars, PORT)
    ensures r.path == LastValue(vars, PATH) && r.bbddUser == LastValue(vars, BBDD_USER_VAR)
    ensures r.bbddPassword == LastValue(vars, BBDD_PASSWORD_VAR)
    ensures r.privateKeyPath == LastValue(vars, PRIVATE_KEY_PATH)
    decreases |vars|
  {
    if vars == [] then Slots("", "", "", "", "", "", "", "")
    else Dispatch(SlotsOf(vars[..|vars| - 1]), vars[|vars| - 1])
  }

  /** The scan of the execution variables into the eight slots, one switch per variable. */
  method ScanVariables(vars: seq<ExecVar>) returns (s: Slots)
    ensures s == SlotsOf(vars)
  {
    s := Slots("", "", "", "", "", "", "", "");
    var i := 0;
    while i < |vars|
      invariant 0 <= i <= |vars|
      invariant s == SlotsOf(vars[..i])
    {
      var x := vars[i];
      ghost var before := s;
      var name := ToLower(x.variable);
      if name == CLIENT {
        s := s.(client := x.value);
      } else if name == USER {
        s := s.(user := x.value);
      } else if name == IP {
        s := s.(ip := x.value);
      } else if name == PORT {
        s := s.(port := x.value);
      } else if name == PATH {
        s := s.(path := x.value);
      } else if name == BBDD_USER_VAR {
        s := s.(bbddUser := x.value);
      } else if name == BBDD_PASSWORD_VAR {
        s := s.(bbddPassword := x.value);
      } else if name == PRIVATE_KEY_PATH {
        s := s.(privateKeyPath := x.value);
      }
      assert s == Dispatch(before, x);
      assert vars[..i + 1][..i] == vars[..i] && vars[..i + 1][i] == x;
      i := i + 1;
    }
    assert vars[..i] == vars;
  }

  /** The value of the last variable naming the slot is what the scan leaves there. */
  lemma {:induction false} LastNamingVariableWins(vars: seq<ExecVar>, name: string, k: nat)
    requires k < |vars| && Names(vars[k], name)
    requires forall j :: k < j < |vars| ==> !Names(vars[j], name)
    ensures LastValue(vars, name) == vars[k].value
    decreases |vars|
  {
    if k < |vars| - 1 {
      var init := vars[..|vars| - 1];
      assert init[k] == vars[k];
      LastNamingVariableWins(init, name, k);
    }
  }

  /** A variable whose lower-cased name matches no slot changes nothing. */
  lemma UnknownNameIgnored(vars: seq<ExecVar>, x: ExecVar)
    requires ToLower(x.variable) !in {CLIENT, USER, IP, PORT, PATH, BBDD_USER_VAR, BBDD_PASSWORD_VAR, PRIVATE_KEY_PATH}
    ensures SlotsOf(vars + [x]) == SlotsOf(vars)
  {
    assert (vars + [x])[..|vars|] == vars;
  }

  /** A later variable naming a slot overrides an earlier one. */
  lemma LaterDuplicateOverrides(vars: seq<ExecVar>, first: ExecVar, second: ExecVar, name: string)
    requires Names(first, name) && Names(second, name)
    ensures LastValue(vars + [first, second], name) == second.value
  {
  }

  /**
   * Variables with different lower-cased names can be listed in either
   * order: only duplicates make the order matter.
   */
  lemma DistinctNamesCommute(vars: seq<ExecVar>, x: ExecVar, y: ExecVar, rest: seq<ExecVar>)
    requires ToLower(x.variable) != ToLower(y.variable)
    ensures SlotsOf(vars + [x, y] + rest) == SlotsOf(vars + [y, x] + rest)
  {
    forall name: string
      ensures LastValue(vars + [x, y] + rest, name) == LastValue(vars + [y, x] + rest, name)
    {
      SwapKeepsLastValue(vars, x, y, rest, name);
    }
  }

  lemma {:induction false} SwapKeepsLastValue(vars: seq<ExecVar>, x: ExecVar, y: ExecVar, rest: seq<ExecVar>, name: string)
    requires ToLower(x.variable) != ToLower(y.variable)
    ensures LastValue(vars + [x, y] + rest, name) == LastValue(vars + [y, x] + rest, name)
    decreases |rest|
  {
    if rest == [] {
      assert vars + [x, y] + rest == (vars + [x]) + [y];
      assert vars + [y, x] + rest == (vars + [y]) + [x];
      LastValueSnoc(vars + [x], y, name);
      LastValueSnoc(vars + [y], x, name);
      LastValueSnoc(vars, x, name);
      LastValueSnoc(vars, y, name);
    } else {
      var n := |rest| - 1;
      assert vars + [x, y] + rest == (vars + [x, y] + rest[..n]) + [rest[n]];
      assert vars + [y, x] + rest == (vars + [y, x] + rest[..n]) + [rest[n]];
      LastValueSnoc(vars + [x, y] + rest[..n], rest[n], name);
      LastValueSnoc(vars + [y, x] + rest[..n], rest[n], name);
      SwapKeepsLastValue(vars, x, y, rest[..n], name);
    }
  }

  /** One more variable: it decides the slot if it names it, otherwise the slot keeps its value. */
  lemma LastValueSnoc(vars: seq<ExecVar>, x: ExecVar, name: string)
    ensures LastValue(vars + [x], name) == if Names(x, name) then x.value else LastValue(vars, name)
  {
    assert (vars + [x])[..|vars|] == vars;
  }

  /** The slot names match whatever the case of the variable's name. */
  lemma CaseOfNameIgnored(vars: seq<ExecVar>, value: string)
    ensures SlotsOf(vars + [ExecVar("CLIENT", value)]).client == value
    ensures SlotsOf(vars + [ExecVar("Ip", value)]).ip == value
    ensures SlotsOf(vars + [ExecVar("BBDD_Password", value)]).bbddPassword == value
  {
    MixedCaseNames();
    SlotsOfSnoc(vars, ExecVar("CLIENT", value));
    SlotsOfSnoc(vars, ExecVar("Ip", value));
    SlotsOfSnoc(vars, ExecVar("BBDD_Password", value));
  }

  lemma MixedCaseNames()
    ensures ToLower("CLIENT") == CLIENT && ToLower("Ip") == IP && ToLower("BBDD_Password") == BBDD_PASSWORD_VAR
  {
  }

  /** One more variable: one more pass of the switch. */
  lemma SlotsOfSnoc(vars: seq<ExecVar>, x: ExecVar)
    ensures SlotsOf(vars + [x]) == Dispatch(SlotsOf(vars), x)
  {
    assert (vars + [x])[..|vars|] == vars;
  }

  /** resolveEmptyPort: an empty port becomes the SSH default "22", any other is kept. */
  function ResolveEmptyPort(port: string): (r: string)
    ensures r != ""
    ensures port != "" ==> r == port
    ensures port == "" ==> r == DEFAULT_PORT
  {
    if port == "" then DEFAULT_PORT else port
  }

  /** Text ending with `suffix`, appending it only when it is not already there. */
  function WithSuffix(s: string, suffix: string): (r: string)
    ensures EndsWith(r, suffix)
    ensures EndsWith(s, suffix) <==> r == s
    ensures r == s || r == s + suffix
  {
    if EndsWith(s, suffix) then s else
      assert (s + suffix)[|s + suffix| - |suffix|..] == suffix;
      s + suffix
  }

  /** Adding a suffix that is already there changes nothing: WithSuffix is idempotent. */
  lemma WithSuffixIdempotent(s: string, suffix: string)
    ensures WithSuffix(WithSuffix(s, suffix), suffix) == WithSuffix(s, suffix)
  {
  }

  /** resolvePathDelimiter: the path as a directory, ending in "/". */
  function ResolvePathDelimiter(path: string): (r: string)
    ensures EndsWith(r, "/")
    ensures EndsWith(path, "/") <==> r == path
    ensures !EndsWith(path, "/") ==> r == path + "/"
  {
    WithSuffix(path, "/")
  }

  lemma ResolvePathDelimiterIdempotent(path: string)
    ensures ResolvePathDelimiter(ResolvePathDelimiter(path)) == ResolvePathDelimiter(path)
  {
    WithSuffixIdempotent(path, "/");
  }

  /** The paths of the unit tests: "path/to/something" gains its "/", "path/to/something/" is kept. */
  lemma ResolvePathDelimiterExamples()
    ensures ResolvePathDelimiter("path/to/something") == "path/to/something/"
    ensures ResolvePathDelimiter("path/to/something/") == "path/to/something/"
  {
    assert !EndsWith("path/to/something", "/");
    assert EndsWith("path/to/something/", "/");
  }

  /** The ports of the unit tests: "" becomes "22", "8080" is kept. */
  lemma ResolveEmptyPortExamples()
    ensures ResolveEmptyPort("") == "22"
    ensures ResolveEmptyPort("8080") == "8080"
  {
  }

  /**
   * The eight-field segment of one destination, in argument order, or the
   * variables-not-found error when a required slot is empty. The database
   * credentials are taken from the slots only when both are non-empty;
   * otherwise both come from the properties, and a missing property is
   * rendered as "null".
   */
  function DestinationSegment(props: Properties, s: Slots): (r: Result<seq<string>>)
    ensures r.Err? <==> s.client == "" || s.user == "" || s.ip == ""
    ensures r.Err? ==> r.error == Translated(VARIABLES_NOT_FOUND_ERROR)
    ensures r.Ok? ==> |r.value| == 8
    ensures r.Ok? ==> r.value[0] == ReplaceChar(s.client, ',', '_') && ',' !in r.value[0]
    ensures r.Ok? ==> r.value[1] == s.user && r.value[2] == s.ip && r.value[7] == s.privateKeyPath
    ensures r.Ok? ==> r.value[3] == ResolveEmptyPort(s.port) && r.value[4] == ResolvePathDelimiter(s.path)
    ensures r.Ok? && s.bbddUser != "" && s.bbddPassword != "" ==>
              r.value[5] == s.bbddUser && r.value[6] == s.bbddPassword
    ensures r.Ok? && (s.bbddUser == "" || s.bbddPassword == "") ==>
              r.value[5] == JavaString(GetBbddUser(props)) && r.value[6] == JavaString(GetBbddPassword(props))
  {
    if s.client == "" || s.user == "" || s.ip == "" then Err(Translated(VARIABLES_NOT_FOUND_ERROR))
    else
      var useGlobal := s.bbddPassword == "" || s.bbddUser == "";
      var dbUser := if useGlobal then JavaString(GetBbddUser(props)) else s.bbddUser;
      var dbPassword := if useGlobal then JavaString(GetBbddPassword(props)) else s.bbddPassword;
      Ok([ReplaceChar(s.client, ',', '_'), s.user, s.ip, ResolveEmptyPort(s.port),
          ResolvePathDelimiter(s.path), dbUser, dbPassword, s.privateKeyPath])
  }

  /**
   * The credentials never mix sources: both come from the variables or
   * both from the properties.
   */
  lemma CredentialsComeInPairs(props: Properties, s: Slots)
    requires s.client != "" && s.user != "" && s.ip != ""
    ensures var seg := DestinationSegment(props, s).value;
            (seg[5] == s.bbddUser && seg[6] == s.bbddPassword)
            || (seg[5] == JavaString(GetBbddUser(props)) && seg[6] == JavaString(GetBbddPassword(props)))
  {
  }
}
