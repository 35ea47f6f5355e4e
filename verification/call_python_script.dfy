/**
 * CallPythonScript.doExecute: the export process. It finds the BI
 * connection of the context organisation, checks the webhook definition,
 * its access and token, the context URL and the database URL, in that
 * order, and starts one Python script per data destination of the
 * connection. The argument text is built once and only ever appended to:
 * the nine common fields, then each destination's eight fields in turn.
 */
module Processes {
  import opened Outcomes
  import opened JavaText
  import opened DbProperties
  import opened BiConnectionLookup
  import opened DestinationVariables
  import opened ScriptLaunch

  const NO_WEBHOOK_ERROR: string := "ETPBIC_NoWebhookError"
  const NO_WEBHOOK_ACCESS_ERROR: string := "ETPBIC_NoWebhookAccessError"
  const NO_WEBHOOK_TOKEN_ERROR: string := "ETPBIC_NoWebhookTokenError"
  const CONTEXT_URL_NOT_FOUND: string := "ETPBIC_ContextUrlNotFound"
  const NO_DATA_DEST_ERROR: string := "ETPBIC_NoDataDestError"

  /** The token of a webhook access, whose API key may be null. */
  datatype WebhookToken = WebhookToken(apiKey: Option<string>)

  /** The access record of a webhook and its token (None: no token). */
  datatype WebhookAccess = WebhookAccess(token: Option<WebhookToken>)

  /** A data destination of a BI connection: the script to run and its execution variables. */
  datatype DataDestination = DataDestination(scriptPath: string, variables: seq<ExecVar>)

  /**
   * Everything one run reads. The database queries are maps: webhook id to
   * webhook name (which may be null), webhook id to its first access
   * record, connection id to its data destinations (in query order).
   */
  datatype Request = Request(
    clientId: string,
    contextOrgId: OrgId,
    contextOrgName: string,
    parentListCount: nat,
    tree: OrgTree,
    webhooks: map<string, Option<string>>,
    accesses: map<string, WebhookAccess>,
    destinations: map<string, seq<DataDestination>>,
    props: Properties,
    server: Server)

  /** What the checks before the first launch hand on to the destination loop. */
  datatype Prepared = Prepared(repositoryPath: string, prefix: seq<string>, destinations: seq<DataDestination>)

  /** The processes a run starts, in order, and how it ends. */
  datatype Run = Run(launches: seq<Launch>, outcome: Outcome)

  function Config(rq: Request): Result<BiConnection> {
    FindConnection(rq.tree, rq.contextOrgId, rq.parentListCount)
  }

  function DestinationsOf(rq: Request, connectionId: string): seq<DataDestination> {
    if connectionId in rq.destinations then rq.destinations[connectionId] else []
  }

  // Each stage holds when every check up to and including its own passes.

  predicate WebhookReferenced(rq: Request) {
    Config(rq).Ok? && Config(rq).value.webhook.Some?
  }

  /** The id of the webhook the connection refers to. */
  function WebhookId(rq: Request): string
    requires WebhookReferenced(rq)
  {
    Config(rq).value.webhook.value
  }

  predicate WebhookDefined(rq: Request) {
    WebhookReferenced(rq) && WebhookId(rq) in rq.webhooks
  }

  predicate AccessDefined(rq: Request) {
    WebhookDefined(rq) && WebhookId(rq) in rq.accesses
  }

  predicate TokenDefined(rq: Request) {
    AccessDefined(rq) && rq.accesses[WebhookId(rq)].token.Some?
  }

  predicate ContextUrlDefined(rq: Request) {
    TokenDefined(rq) && CONTEXT_URL in rq.props
  }

  predicate DbUrlReadable(rq: Request) {
    ContextUrlDefined(rq) && DbHostPort(GetBbddUrl(rq.props)).Ok?
  }

  predicate DestinationsDefined(rq: Request) {
    DbUrlReadable(rq) && DestinationsOf(rq, Config(rq).value.id) != []
  }

  /**
   * The checks before any launch, first failure wins; on success, the
   * repository path, the nine common fields and the destinations.
   */
  function PreLaunch(rq: Request): (r: Result<Prepared>)
    ensures r == Err(Translated(NULL_CONFIG_ERROR)) <==> Config(rq).Err?
    ensures Config(rq).Ok? && !WebhookReferenced(rq) ==> r == Err(NullPointer)
    ensures r == Err(Translated(NO_WEBHOOK_ERROR)) <==> WebhookReferenced(rq) && !WebhookDefined(rq)
    ensures r == Err(Translated(NO_WEBHOOK_ACCESS_ERROR)) <==> WebhookDefined(rq) && !AccessDefined(rq)
    ensures r == Err(Translated(NO_WEBHOOK_TOKEN_ERROR)) <==> AccessDefined(rq) && !TokenDefined(rq)
    ensures r == Err(Translated(CONTEXT_URL_NOT_FOUND)) <==> TokenDefined(rq) && !ContextUrlDefined(rq)
    ensures ContextUrlDefined(rq) && !DbUrlReadable(rq) ==> r == Err(DbHostPort(GetBbddUrl(rq.props)).error)
    ensures r.Err? && !r.error.Translated? <==>
              (Config(rq).Ok? && !WebhookReferenced(rq)) || (ContextUrlDefined(rq) && !DbUrlReadable(rq))
    ensures r == Err(Translated(NO_DATA_DEST_ERROR)) <==> DbUrlReadable(rq) && !DestinationsDefined(rq)
    ensures r.Ok? <==> DestinationsDefined(rq)
    ensures r.Ok? ==> var c := Config(rq).value;
                      var hp := DbHostPort(GetBbddUrl(rq.props)).value;
                      var w := c.webhook.value;
                      && r.value.repositoryPath == c.repositoryPath
                      && r.value.destinations == DestinationsOf(rq, c.id)
                      && r.value.prefix == [JavaString(GetBbddSid(rq.props)), hp.host, hp.port,
                                            rq.props[CONTEXT_URL], rq.clientId, rq.contextOrgId,
                                            JavaString(rq.webhooks[w]),
                                            JavaString(rq.accesses[w].token.value.apiKey),
                                            ReplaceChar(rq.contextOrgName, ',', '_')]
  {
    match Config(rq)
    case Err(e) => Err(e)
    case Ok(c) =>
      match c.webhook
      case None => Err(NullPointer)
      case Some(w) =>
        if w !in rq.webhooks then Err(Translated(NO_WEBHOOK_ERROR))
        else if w !in rq.accesses then Err(Translated(NO_WEBHOOK_ACCESS_ERROR))
        else if rq.accesses[w].token.None? then Err(Translated(NO_WEBHOOK_TOKEN_ERROR))
        else if CONTEXT_URL !in rq.props then Err(Translated(CONTEXT_URL_NOT_FOUND))
        else match DbHostPort(GetBbddUrl(rq.props))
          case Err(e) => Err(e)
          case Ok(hp) =>
            var prefix := [JavaString(GetBbddSid(rq.props)), hp.host, hp.port, rq.props[CONTEXT_URL],
                           rq.clientId, rq.contextOrgId, JavaString(rq.webhooks[w]),
                           JavaString(rq.accesses[w].token.value.apiKey), ReplaceChar(rq.contextOrgName, ',', '_')];
            var dests := DestinationsOf(rq, c.id);
            if dests == [] then Err(Translated(NO_DATA_DEST_ERROR))
            else Ok(Prepared(c.repositoryPath, prefix, dests))
  }

  /** One destination as the loop meets it: its script, and its eight fields or why they are incomplete. */
  datatype Step = Step(scriptPath: string, fields: Result<seq<string>>)

  /** The step of each destination: its variables scanned into slots, then checked and defaulted. */
  function Steps(props: Properties, dests: seq<DataDestination>): (r: seq<Step>)
    ensures |r| == |dests|
    ensures forall i :: 0 <= i < |r| ==> r[i].scriptPath == dests[i].scriptPath
    ensures forall i :: 0 <= i < |r| ==>
              var s := SlotsOf(dests[i].variables);
              r[i].fields.Err? <==> s.client == "" || s.user == "" || s.ip == ""
    ensures forall i :: 0 <= i < |r| && r[i].fields.Ok? ==> |r[i].fields.value| == 8
  {
    seq(|dests|, i requires 0 <= i < |dests| => Step(dests[i].scriptPath, DestinationSegment(props, SlotsOf(dests[i].variables))))
  }

  /**
   * The destination loop from the argument text `built` on: each
   * destination appends its fields, then its script is started with the
   * whole text; the first failure ends the run.
   */
  function RunSteps(server: Server, repositoryPath: string, built: string, steps: seq<Step>): (r: Run)
    ensures |r.launches| <= |steps|
    ensures r.outcome == Pass <==> |r.launches| == |steps|
    decreases |steps|
  {
    if steps == [] then Run([], Pass)
    else match steps[0].fields
      case Err(e) => Run([], Fail(e))
      case Ok(fields) =>
        var args := built + Terminated(fields);
        match LaunchScript(server, repositoryPath, steps[0].scriptPath, args)
        case Err(e) => Run([], Fail(e))
        case Ok(launch) =>
          var rest := RunSteps(server, repositoryPath, args, steps[1..]);
          Run([launch] + rest.launches, rest.outcome)
  }

  /** A whole run: nothing is started unless every check before the loop passes. */
  function Execute(rq: Request): (r: Run)
    ensures PreLaunch(rq).Err? ==> r == Run([], Fail(PreLaunch(rq).error))
    ensures PreLaunch(rq).Ok? ==> |r.launches| <= |PreLaunch(rq).value.destinations|
  {
    match PreLaunch(rq)
    case Err(e) => Run([], Fail(e))
    case Ok(p) => RunSteps(rq.server, p.repositoryPath, Terminated(p.prefix), Steps(rq.props, p.destinations))
  }

  /** The fields the steps contribute, in order (a step whose fields are incomplete contributes none). */
  function SegmentFields(steps: seq<Step>): seq<string>
    decreases |steps|
  {
    if steps == [] then []
    else
      var first := match steps[0].fields case Ok(f) => f case Err(_) => [];
      first + SegmentFields(steps[1..])
  }

  /** One step of the destination loop: the first destination is started, then the rest run on. */
  lemma RunStep(server: Server, repositoryPath: string, built: string, steps: seq<Step>)
    requires 0 < |RunSteps(server, repositoryPath, built, steps).launches|
    ensures steps[0].fields.Ok?
    ensures var args := built + Terminated(steps[0].fields.value);
            var launch := LaunchScript(server, repositoryPath, steps[0].scriptPath, args);
            var rest := RunSteps(server, repositoryPath, args, steps[1..]);
            && launch.Ok?
            && RunSteps(server, repositoryPath, built, steps) == Run([launch.value] + rest.launches, rest.outcome)
  {
  }

  /**
   * The destination loop as one step followed by the rest: when the first
   * step passes, the rest runs on the text it extended; when it fails,
   * nothing more happens.
   */
  lemma RunFirstStep(server: Server, repositoryPath: string, built: string, steps: seq<Step>)
    requires steps != []
    ensures var first := RunSteps(server, repositoryPath, built, [steps[0]]);
            && (first.outcome.Fail? ==> RunSteps(server, repositoryPath, built, steps) == first)
            && (first.outcome == Pass ==>
                  var rest := RunSteps(server, repositoryPath, built + Terminated(steps[0].fields.value), steps[1..]);
                  RunSteps(server, repositoryPath, built, steps) == Run(first.launches + rest.launches, rest.outcome))
  {
    var first := steps[0];
    assert [first][0] == first && [first][1..] == [];
    match first.fields
    case Err(e) =>
      assert RunSteps(server, repositoryPath, built, [first]) == Run([], Fail(e));
      assert RunSteps(server, repositoryPath, built, steps) == Run([], Fail(e));
    case Ok(fields) =>
      var args := built + Terminated(fields);
      match LaunchScript(server, repositoryPath, first.scriptPath, args)
      case Err(e) =>
        assert RunSteps(server, repositoryPath, built, [first]) == Run([], Fail(e));
        assert RunSteps(server, repositoryPath, built, steps) == Run([], Fail(e));
      case Ok(launch) =>
        var rest := RunSteps(server, repositoryPath, args, steps[1..]);
        assert RunSteps(server, repositoryPath, args, []) == Run([], Pass);
        assert RunSteps(server, repositoryPath, built, [first]) == Run([launch], Pass);
        assert RunSteps(server, repositoryPath, built, steps) == Run([launch] + rest.launches, rest.outcome);
  }

  /** The destination loop over a single step: its fields, then its launch. */
  lemma SingleStep(server: Server, repositoryPath: string, built: string, step: Step)
    ensures var run := RunSteps(server, repositoryPath, built, [step]);
            && (step.fields.Err? ==> run == Run([], Fail(step.fields.error)))
            && (step.fields.Ok? ==>
                  var launch := LaunchScript(server, repositoryPath, step.scriptPath, built + Terminated(step.fields.value));
                  && (launch.Err? ==> run == Run([], Fail(launch.error)))
                  && (launch.Ok? ==> run == Run([launch.value], Pass)))
  {
    assert [step][0] == step && [step][1..] == [];
    if step.fields.Ok? {
      assert RunSteps(server, repositoryPath, built + Terminated(step.fields.value), []) == Run([], Pass);
    }
  }

  /** The fields of the first k + 1 steps: the first step's, then those of the next k. */
  lemma SegmentFieldsFront(steps: seq<Step>, k: nat)
    requires k < |steps| && steps[0].fields.Ok?
    ensures SegmentFields(steps[..k + 1]) == steps[0].fields.value + SegmentFields(steps[1..][..k])
  {
    assert steps[..k + 1][0] == steps[0];
    assert steps[..k + 1][1..] == steps[1..][..k];
  }

  /**
   * The k-th launch starts the k-th destination's script, and its argument
   * text is the common text followed by the fields of destinations 0 to k,
   * because the builder is never reset.
   */
  lemma {:induction false} LaunchArguments(server: Server, repositoryPath: string, built: string,
                                           steps: seq<Step>, k: nat)
    requires k < |RunSteps(server, repositoryPath, built, steps).launches|
    ensures forall i :: 0 <= i <= k ==> steps[i].fields.Ok?
    ensures var launch := LaunchScript(server, repositoryPath, steps[k].scriptPath,
                                       built + Terminated(SegmentFields(steps[..k + 1])));
            launch.Ok? && RunSteps(server, repositoryPath, built, steps).launches[k] == launch.value
    decreases k, 1
  {
    if k == 0 {
      FirstLaunchArguments(server, repositoryPath, built, steps);
    } else {
      LaterLaunchArguments(server, repositoryPath, built, steps, k);
    }
  }

  /** A later launch is the (k - 1)-th launch of the rest, whose text starts with the first step's fields. */
  lemma {:induction false} LaterLaunchArguments(server: Server, repositoryPath: string, built: string,
                                                steps: seq<Step>, k: nat)
    requires 0 < k < |RunSteps(server, repositoryPath, built, steps).launches|
    ensures forall i :: 0 <= i <= k ==> steps[i].fields.Ok?
    ensures var launch := LaunchScript(server, repositoryPath, steps[k].scriptPath,
                                       built + Terminated(SegmentFields(steps[..k + 1])));
            launch.Ok? && RunSteps(server, repositoryPath, built, steps).launches[k] == launch.value
    decreases k, 0
  {
    RunStep(server, repositoryPath, built, steps);
    var args := built + Terminated(steps[0].fields.value);
    LaunchArguments(server, repositoryPath, args, steps[1..], k - 1);
    ShiftedFieldsOk(steps, k);
    ShiftedArguments(built, steps, k);
    assert steps[k] == steps[1..][k - 1];
  }

  /** The first launch: the first destination's script, started on the common text and its own fields. */
  lemma FirstLaunchArguments(server: Server, repositoryPath: string, built: string, steps: seq<Step>)
    requires 0 < |RunSteps(server, repositoryPath, built, steps).launches|
    ensures steps[0].fields.Ok?
    ensures var launch := LaunchScript(server, repositoryPath, steps[0].scriptPath,
                                       built + Terminated(SegmentFields(steps[..1])));
            launch.Ok? && RunSteps(server, repositoryPath, built, steps).launches[0] == launch.value
  {
    RunStep(server, repositoryPath, built, steps);
    SegmentFieldsFront(steps, 0);
    assert SegmentFields(steps[1..][..0]) == [];
    assert SegmentFields(steps[..1]) == steps[0].fields.value;
  }

  lemma ShiftedFieldsOk(steps: seq<Step>, k: nat)
    requires 0 < k < |steps| && steps[0].fields.Ok?
    requires forall i :: 0 <= i <= k - 1 ==> steps[1..][i].fields.Ok?
    ensures forall i :: 0 <= i <= k ==> steps[i].fields.Ok?
  {
    forall i | 0 < i <= k
      ensures steps[i].fields.Ok?
    {
      assert steps[i] == steps[1..][i - 1];
    }
  }

  /** The text after the first step's fields, extended by the next k steps, is the text after the first k + 1. */
  lemma ShiftedArguments(built: string, steps: seq<Step>, k: nat)
    requires k < |steps| && steps[0].fields.Ok?
    ensures built + Terminated(steps[0].fields.value) + Terminated(SegmentFields(steps[1..][..k]))
            == built + Terminated(SegmentFields(steps[..k + 1]))
  {
    var fields := steps[0].fields.value;
    var later := SegmentFields(steps[1..][..k]);
    SegmentFieldsFront(steps, k);
    TerminatedAppend(fields, later);
  }

  /**
   * A run that fails stops at the destination after the last one started:
   * its fields are incomplete or its script cannot be started, and that is
   * the error reported.
   */
  lemma {:induction false} FailureStopsAtNextDestination(server: Server, repositoryPath: string,
                                                         built: string, steps: seq<Step>)
    requires RunSteps(server, repositoryPath, built, steps).outcome.Fail?
    ensures var r := RunSteps(server, repositoryPath, built, steps);
            var n := |r.launches|;
            && n < |steps|
            && var step := steps[n];
               var args := built + Terminated(SegmentFields(steps[..n]));
               || step.fields == Err(r.outcome.error)
               || (step.fields.Ok?
                   && LaunchScript(server, repositoryPath, step.scriptPath, args + Terminated(step.fields.value))
                      == Err(r.outcome.error))
    decreases |steps|
  {
    var r := RunSteps(server, repositoryPath, built, steps);
    var n := |r.launches|;
    if n == 0 {
      assert steps[..0] == [];
    } else {
      RunStep(server, repositoryPath, built, steps);
      var fields := steps[0].fields.value;
      var args := built + Terminated(fields);
      var rest := steps[1..];
      FailureStopsAtNextDestination(server, repositoryPath, args, rest);
      assert steps[n] == rest[n - 1];
      SegmentFieldsFront(steps, n - 1);
      TerminatedAppend(fields, SegmentFields(rest[..n - 1]));
    }
  }

  /** Every step has its eight fields and none of them holds a comma. */
  predicate CommaFreeSteps(steps: seq<Step>) {
    forall i :: 0 <= i < |steps| ==> steps[i].fields.Ok? && CommaFree(steps[i].fields.value)
  }

  /** When every step has its fields and none holds a comma, neither does the text the steps contribute. */
  lemma {:induction false} SegmentFieldsCommaFree(steps: seq<Step>)
    requires CommaFreeSteps(steps)
    ensures CommaFree(SegmentFields(steps))
    decreases |steps|
  {
    if steps != [] {
      assert CommaFreeSteps(steps[1..]) by {
        forall i | 0 <= i < |steps[1..]|
          ensures steps[1..][i].fields.Ok? && CommaFree(steps[1..][i].fields.value)
        {
          assert steps[1..][i] == steps[i + 1];
        }
      }
      SegmentFieldsCommaFree(steps[1..]);
      CommaFreeAppend(steps[0].fields.value, SegmentFields(steps[1..]));
    }
  }

  /**
   * What a reader of the arguments sees at fixed positions: when no field
   * holds a comma, fields 9 onwards of every launch start with the first
   * destination's fields, whichever destination the launch is for.
   */
  lemma EveryLaunchCarriesFirstSegment(server: Server, repositoryPath: string, prefix: seq<string>,
                                       steps: seq<Step>, k: nat)
    requires |prefix| == 9 && CommaFree(prefix) && CommaFreeSteps(steps)
    requires k < |RunSteps(server, repositoryPath, Terminated(prefix), steps).launches|
    ensures var fields := CommaFields(RunSteps(server, repositoryPath, Terminated(prefix), steps).launches[k].arguments);
            var first := steps[0].fields.value;
            |fields| >= 9 + |first| && fields[9..9 + |first|] == first
  {
    LaunchArguments(server, repositoryPath, Terminated(prefix), steps, k);
    TerminatedAppend(prefix, SegmentFields(steps[..k + 1]));
    FirstSegmentReadBack(prefix, steps, k);
  }

  /** Cut at its commas, the text of the first k + 1 steps shows the first step's fields right after the prefix. */
  lemma FirstSegmentReadBack(prefix: seq<string>, steps: seq<Step>, k: nat)
    requires |prefix| == 9 && CommaFree(prefix) && CommaFreeSteps(steps) && k < |steps|
    ensures var fields := CommaFields(Terminated(prefix + SegmentFields(steps[..k + 1])));
            var first := steps[0].fields.value;
            |fields| >= 9 + |first| && fields[9..9 + |first|] == first
  {
    var segs := SegmentFields(steps[..k + 1]);
    CommaFreeStepsPrefix(steps, k + 1);
    SegmentFieldsCommaFree(steps[..k + 1]);
    CommaFreeAppend(prefix, segs);
    CommaFieldsOfTerminated(prefix + segs);
    SegmentFieldsFront(steps, k);
    var first := steps[0].fields.value;
    assert (prefix + segs)[9..9 + |first|] == first;
  }

  lemma CommaFreeStepsPrefix(steps: seq<Step>, n: nat)
    requires n <= |steps| && CommaFreeSteps(steps)
    ensures CommaFreeSteps(steps[..n])
  {
    forall i | 0 <= i < n
      ensures steps[..n][i].fields.Ok? && CommaFree(steps[..n][i].fields.value)
    {
      assert steps[..n][i] == steps[i];
    }
  }

  lemma CommaFreeAppend(a: seq<string>, b: seq<string>)
    requires CommaFree(a) && CommaFree(b)
    ensures CommaFree(a + b)
  {
    forall i | 0 <= i < |a + b|
      ensures ',' !in (a + b)[i]
    {
      if i >= |a| {
        assert (a + b)[i] == b[i - |a|];
      }
    }
  }

  /** The run passes exactly when every destination's script was started. */
  lemma PassLaunchesEveryDestination(rq: Request)
    ensures Execute(rq).outcome == Pass <==> PreLaunch(rq).Ok? && |Execute(rq).launches| == |PreLaunch(rq).value.destinations|
  {
  }

  /**
   * The order of the checks: a missing context URL is reported even when
   * the database URL is unusable too, and a missing token even when the
   * context URL is missing too.
   */
  lemma EarlierCheckWins(rq: Request)
    ensures TokenDefined(rq) && CONTEXT_URL !in rq.props ==>
              Execute(rq) == Run([], Fail(Translated(CONTEXT_URL_NOT_FOUND)))
    ensures AccessDefined(rq) && !TokenDefined(rq) ==>
              Execute(rq) == Run([], Fail(Translated(NO_WEBHOOK_TOKEN_ERROR)))
  {
  }

  lemma SeqAssociative<T>(a: seq<T>, b: seq<T>, c: seq<T>)
    ensures (a + b) + c == a + (b + c)
  {
  }

  /**
   * The processes the export starts. A started process is not stopped
   * when a later destination fails.
   */
  class CallPythonScript {
    var launched: seq<Launch>

    constructor ()
      ensures launched == []
    {
      launched := [];
    }

    /** callPythonScript: start one script, or report why it cannot be started. */
    method StartScript(server: Server, repositoryPath: string, scriptName: string, args: string)
      returns (outcome: Outcome)
      modifies this
      ensures var r := LaunchScript(server, repositoryPath, scriptName, args);
              && (r.Ok? ==> launched == old(launched) + [r.value] && outcome == Pass)
              && (r.Err? ==> launched == old(launched) && outcome == Fail(r.error))
    {
      var scriptPath := ResolvePathDelimiter(repositoryPath) + WithSuffix(scriptName, ".py");
      var finalScriptPath := server.realPath(scriptPath);
      if finalScriptPath !in server.existing {
        return Fail(Translated(SCRIPT_NOT_FOUND_ERROR));
      }
      var directory := server.realPath(ResolvePathDelimiter(repositoryPath));
      if !server.pythonInstalled || directory !in server.existing {
        return Fail(Translated(EXECUTE_PYTHON_ERROR));
      }
      launched := launched + [Launch(finalScriptPath, args, directory)];
      return Pass;
    }

    /**
     * One pass of the destination loop: scan the variables, check and
     * default them, append the eight fields, start the script.
     */
    method LaunchDestination(server: Server, repositoryPath: string, built: string, props: Properties,
                             d: DataDestination, ghost step: Step) returns (outcome: Outcome, next: string)
      requires step == Step(d.scriptPath, DestinationSegment(props, SlotsOf(d.variables)))
      modifies this
      ensures var run := RunSteps(server, repositoryPath, built, [step]);
              && launched == old(launched) + run.launches
              && outcome == run.outcome
              && (outcome == Pass ==> next == built + Terminated(step.fields.value))
    {
      var slots := ScanVariables(d.variables);
      var segment := DestinationSegment(props, slots);
      SingleStep(server, repositoryPath, built, step);
      if segment.Err? {
        return Fail(segment.error), built;
      }
      next := built + Terminated(segment.value);
      outcome := StartScript(server, repositoryPath, d.scriptPath, next);
    }

    /** doExecute: the checks, then one launch per destination with the growing argument text. */
    method DoExecute(rq: Request) returns (outcome: Outcome)
      modifies this
      ensures launched == old(launched) + Execute(rq).launches
      ensures outcome == Execute(rq).outcome
    {
      var config := GetBiConnection(rq.tree, rq.contextOrgId, rq.parentListCount);
      if config.Err? {
        return Fail(config.error);
      }
      var conn := config.value;
      if conn.webhook.None? {
        return Fail(NullPointer);
      }
      var webhookId := conn.webhook.value;
      if webhookId !in rq.webhooks {
        return Fail(Translated(NO_WEBHOOK_ERROR));
      }
      if webhookId !in rq.accesses {
        return Fail(Translated(NO_WEBHOOK_ACCESS_ERROR));
      }
      var token := rq.accesses[webhookId].token;
      if token.None? {
        return Fail(Translated(NO_WEBHOOK_TOKEN_ERROR));
      }
      if CONTEXT_URL !in rq.props {
        return Fail(Translated(CONTEXT_URL_NOT_FOUND));
      }
      var url := rq.props[CONTEXT_URL];
      var sid := JavaString(GetBbddSid(rq.props));
      var hostPort := DbHostPort(GetBbddUrl(rq.props));
      if hostPort.Err? {
        return Fail(hostPort.error);
      }
      var args := Terminated([sid, hostPort.value.host, hostPort.value.port, url, rq.clientId, rq.contextOrgId,
                              JavaString(rq.webhooks[webhookId]), JavaString(token.value.apiKey),
                              ReplaceChar(rq.contextOrgName, ',', '_')]);
      var dests := DestinationsOf(rq, conn.id);
      if dests == [] {
        return Fail(Translated(NO_DATA_DEST_ERROR));
      }
      outcome := LaunchDestinations(rq.server, conn.repositoryPath, args, rq.props, dests);
    }

    /** The loop over the destinations, each appending its fields to the shared argument text. */
    method LaunchDestinations(server: Server, repositoryPath: string, args: string, props: Properties,
                              dests: seq<DataDestination>) returns (outcome: Outcome)
      modifies this
      ensures launched == old(launched) + RunSteps(server, repositoryPath, args, Steps(props, dests)).launches
      ensures outcome == RunSteps(server, repositoryPath, args, Steps(props, dests)).outcome
    {
      ghost var steps := Steps(props, dests);
      ghost var run := RunSteps(server, repositoryPath, args, steps);
      var built := args;
      var i := 0;
      while i < |dests|
        invariant 0 <= i <= |dests|
        invariant launched + RunSteps(server, repositoryPath, built, steps[i..]).launches == old(launched) + run.launches
        invariant RunSteps(server, repositoryPath, built, steps[i..]).outcome == run.outcome
      {
        RunFirstStep(server, repositoryPath, built, steps[i..]);
        assert steps[i..][0] == steps[i] && steps[i..][1..] == steps[i + 1..];
        ghost var before := launched;
        ghost var first := RunSteps(server, repositoryPath, built, [steps[i]]);
        ghost var whole := RunSteps(server, repositoryPath, built, steps[i..]);
        var started;
        started, built := LaunchDestination(server, repositoryPath, built, props, dests[i], steps[i]);
        if started.Fail? {
          return started;
        }
        ghost var rest := RunSteps(server, repositoryPath, built, steps[i + 1..]);
        assert whole.launches == first.launches + rest.launches;
        assert launched == before + first.launches;
        SeqAssociative(before, first.launches, rest.launches);
        i := i + 1;
      }
      return Pass;
    }
  }
}
