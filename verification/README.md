# Etendo Power BI integration: export launch and persistence guards

This project is a Dafny model of two parts of the Etendo Power BI add-on (`com.etendoerp.integration.powerbi`).

**The export process `CallPythonScript`.** It finds the BI connection of the context organisation. The organisation itself is asked first, then its parents, nearest first, up to a bound. The process then checks, in this order:
- the connection's webhook;
- the webhook's access record;
- the access record's token;
- the `context.url` property;
- the database URL.

The database URL is split on `://|:`, and its third and fourth tokens are the host and the port. For each data destination of the connection, the process:
1. scans the destination's execution variables into eight slots;
2. requires `client`, `user` and `ip`;
3. takes the database credentials from the properties when either one is missing from the variables;
4. defaults the port to `22` and makes the path end in `/`;
5. appends the destination's eight fields to one argument text that is never reset;
6. starts `python3 <script> <arguments>` in the repository directory.

The first failure ends the run. Processes already started keep running.

**The persistence-event observers.**
- `DelimiterValidator` refuses a CSV separator that is not exactly one character long.
- `EtendoBaseQueryHandler` and `CustomQueryHandler` refuse a query whose trimmed, lower-cased text does not start with `select`. The logic is in `QueryValidationUtil`.
- `EtendoBaseQueryHandler` also refuses to delete a query flagged as an Etendo base query.

## Layout

| file | module | models |
|---|---|---|
| `outcomes.dfy` | `Outcomes` | null references, results, errors (message key, raw message, Java runtime fault), observer verdicts |
| `java_text.dfy` | `JavaText` | `String.trim`, `toLowerCase`, `startsWith`, `endsWith`, `replace(char, char)`, `length` in UTF-16 units |
| `query_validation_util.dfy` | `QueryValidationUtil` | the SELECT-prefix guard |
| `delimiter_validator.dfy` | `DelimiterValidator` | the separator-length observer |
| `etendo_base_query_handler.dfy` | `EtendoBaseQueryHandler` | the BI query observer, deletion guard included |
| `custom_query_handler.dfy` | `CustomQueryHandler` | the custom BI query observer |
| `db_properties.dfy` | `DbProperties` | the `bbdd.*` getters; `split("://|:")`; host and port |
| `bi_connection_lookup.dfy` | `BiConnectionLookup` | `getBiConnection`, the bounded walk up the organisation tree |
| `destination_variables.dfy` | `DestinationVariables` | the variable switch, the required check, the credential fallback, `resolveEmptyPort`, `resolvePathDelimiter` |
| `script_launch.dfy` | `ScriptLaunch` | `callPythonScript`; the comma-terminated argument text and how a reader cuts it back into fields |
| `call_python_script.dfy` | `Processes` | `doExecute`: the checks before the loop, the destination loop, and the class that records started processes |

Each loop of the source is a method with a loop, proved against a function:
- the organisation walk: `GetBiConnection` against `FindConnection`;
- the variable switch: `ScanVariables` against `SlotsOf`;
- the destination loop: `LaunchDestinations` against `RunSteps`.

The process is a class, `Processes.CallPythonScript`. Its field `launched` records every process started. `DoExecute` ties the new value of `launched`, and the outcome, to the function `Execute`.

## Model

| member | source | states |
|---|---|---|
| Outcomes.JavaString | src/com/etendoerp/integration/powerbi/processes/CallPythonScript.java:155-159 | a null property value concatenated into text reads "null"; a present value reads as itself |
| JavaText.TrimStart | src/com/etendoerp/integration/powerbi/eventhandler/QueryValidationUtil.java:17 | the leading half of `trim`: the result is a suffix of the text, everything dropped is a character up to U+0020, and the result does not start with one |
| JavaText.TrimEnd | src/com/etendoerp/integration/powerbi/eventhandler/QueryValidationUtil.java:17 | the trailing half of `trim`: the result is a prefix of the text, everything dropped is a character up to U+0020, and the result does not end with one |
| JavaText.Trim | src/com/etendoerp/integration/powerbi/eventhandler/QueryValidationUtil.java:17 | the result is a slice s[i..j] of the text with only characters up to U+0020 before i and from j on; neither of its ends is such a character, and it is empty exactly when every character of the text is one |
| JavaText.StartsWith | src/com/etendoerp/integration/powerbi/eventhandler/QueryValidationUtil.java:18 | holds exactly when the prefix is no longer than the text and agrees with it character by character |
| JavaText.EndsWith | src/com/etendoerp/integration/powerbi/processes/CallPythonScript.java:192 | holds exactly when the suffix is no longer than the text and agrees with its last characters one by one |
| JavaText.ToLower | src/com/etendoerp/integration/powerbi/eventhandler/QueryValidationUtil.java:17 | lower-casing keeps the length and maps each character by itself |
| JavaText.ReplaceChar | src/com/etendoerp/integration/powerbi/processes/CallPythonScript.java:99 | every `from` becomes `to`, every other character is kept, and the result holds no `from` |
| JavaText.Utf16Length | src/com/etendoerp/integration/powerbi/eventhandler/DelimiterValidator.java:45 | `String.length` in UTF-16 units: between the number of characters and twice it, and 1 exactly for a single character inside the basic plane (up to U+FFFF) |
| JavaText.TrimIdempotent | src/com/etendoerp/integration/powerbi/eventhandler/QueryValidationUtil.java:17 | trimming twice is trimming once |
| JavaText.TrimIgnoresPadding | src/com/etendoerp/integration/powerbi/eventhandler/QueryValidationUtil.java:17 | surrounding whitespace does not change the trimmed text |
| JavaText.TrimCommutesWithLower | src/com/etendoerp/integration/powerbi/eventhandler/QueryValidationUtil.java:17 | trimming then lower-casing equals lower-casing then trimming |
| QueryValidationUtil.QueryValidation | src/com/etendoerp/integration/powerbi/eventhandler/QueryValidationUtil.java:15-21 | accepted exactly when the trimmed, lower-cased query starts with "select". Acceptance logs "custom query created"; rejection raises ETPBIC_InvalidQuerySyntax |
| QueryValidationUtil.PaddingIsIgnored | src/com/etendoerp/integration/powerbi/eventhandler/QueryValidationUtil.java:17-18 | whitespace around a query never changes the verdict |
| QueryValidationUtil.CaseIsIgnored | src/com/etendoerp/integration/powerbi/eventhandler/QueryValidationUtil.java:17-18 | queries equal up to letter case get the same verdict |
| QueryValidationUtil.AcceptsSelectKeyword | src/com/etendoerp/integration/powerbi/eventhandler/QueryValidationUtil.java:17-18 | leading whitespace, then SELECT in any case, then any text, is accepted (a prefix check only) |
| QueryValidationUtil.RejectsOtherFirstWord | src/com/etendoerp/integration/powerbi/eventhandler/QueryValidationUtil.java:17-18 | a query whose first visible character is not s/S is rejected with ETPBIC_InvalidQuerySyntax |
| QueryValidationUtil.TestSelectQueryAccepted | src-test/src/com/etendoerp/integration/powerbi/eventhandler/QueryValidationUtilTest.java:69-78 | "SELECT * FROM C_Order" is accepted |
| QueryValidationUtil.TestPaddedSelectQueryAccepted | src-test/src/com/etendoerp/integration/powerbi/eventhandler/QueryValidationUtilTest.java:84-93 | the space-padded SELECT query is accepted |
| QueryValidationUtil.TestModifyingQueriesRejected | src-test/src/com/etendoerp/integration/powerbi/eventhandler/QueryValidationUtilTest.java:99-132 | the INSERT, UPDATE and DELETE statements are rejected |
| DelimiterValidator.ValidateDelimiter | src/com/etendoerp/integration/powerbi/eventhandler/DelimiterValidator.java:43-48 | the separator passes exactly when its `length()` is 1: one character inside the basic plane; otherwise ETPBIC_InvalidDelimiter |
| DelimiterValidator.OnUpdate | src/com/etendoerp/integration/powerbi/eventhandler/DelimiterValidator.java:29-34 | an update is blocked exactly when the event is valid and the separator's UTF-16 length is not 1 |
| DelimiterValidator.OnSave | src/com/etendoerp/integration/powerbi/eventhandler/DelimiterValidator.java:36-41 | a creation is blocked exactly when the event is valid and the separator's UTF-16 length is not 1 |
| DelimiterValidator.SaveAndUpdateAgree | src/com/etendoerp/integration/powerbi/eventhandler/DelimiterValidator.java:29-41 | creation and update give the same verdict; an invalid event always passes |
| DelimiterValidator.SupplementaryCharacterRefused | src/com/etendoerp/integration/powerbi/eventhandler/DelimiterValidator.java:45 | a single character beyond U+FFFF is two UTF-16 units and is refused |
| DelimiterValidator.SurrogatePairExamples | src/com/etendoerp/integration/powerbi/eventhandler/DelimiterValidator.java:45 | one emoji (U+1F600) is refused; U+FFFF passes |
| DelimiterValidator.TestSeparators | src/com/etendoerp/integration/powerbi/eventhandler/DelimiterValidator.java:43-48 | "," and ";" pass; "", ",," and "tab" are refused |
| EtendoBaseQueryHandler.OnUpdate | src/com/etendoerp/integration/powerbi/eventhandler/EtendoBaseQueryHandler.java:27-32 | blocked exactly for a valid event whose query fails the SELECT check; a valid event that passes logs the creation line |
| EtendoBaseQueryHandler.OnSave | src/com/etendoerp/integration/powerbi/eventhandler/EtendoBaseQueryHandler.java:34-39 | as OnUpdate, for creation |
| EtendoBaseQueryHandler.OnDelete | src/com/etendoerp/integration/powerbi/eventhandler/EtendoBaseQueryHandler.java:41-53 | blocked exactly for a valid event on a base query, with the raw message ETPBIC_CantDeleteEtendoQuery |
| EtendoBaseQueryHandler.GuardsAreIndependent | src/com/etendoerp/integration/powerbi/eventhandler/EtendoBaseQueryHandler.java:27-53 | deletion ignores the query text; creation and update ignore the base flag |
| EtendoBaseQueryHandler.BaseQueryCanBeSavedButNotDeleted | src-test/src/com/etendoerp/integration/powerbi/eventhandler/EtendoBaseQueryHandlerTest.java:128-180 | a base query with a SELECT text can be saved but not deleted; a non-base one can be deleted |
| CustomQueryHandler.OnUpdate | src/com/etendoerp/integration/powerbi/eventhandler/CustomQueryHandler.java:27-32 | blocked exactly for a valid event whose query fails the SELECT check |
| CustomQueryHandler.OnSave | src/com/etendoerp/integration/powerbi/eventhandler/CustomQueryHandler.java:34-39 | as OnUpdate, for creation |
| CustomQueryHandler.SameRuleAsBaseQueries | src/com/etendoerp/integration/powerbi/eventhandler/CustomQueryHandler.java:18-42 | custom queries get the verdict base queries get, whatever the base flag |
| DbProperties.GetProperty | src/com/etendoerp/integration/powerbi/processes/CallPythonScript.java:81 | a present key gives its value; an absent key gives null |
| DbProperties.GetBbddUrl | src/com/etendoerp/integration/powerbi/processes/CallPythonScript.java:204-208 | bbdd.readonly.url when present, else bbdd.url (or null) |
| DbProperties.GetBbddPassword | src/com/etendoerp/integration/powerbi/processes/CallPythonScript.java:210-214 | bbdd.readonly.password when present, else bbdd.password (or null) |
| DbProperties.GetBbddUser | src/com/etendoerp/integration/powerbi/processes/CallPythonScript.java:216-220 | bbdd.readonly.user when present, else bbdd.user (or null) |
| DbProperties.GetBbddSid | src/com/etendoerp/integration/powerbi/processes/CallPythonScript.java:222-226 | bbdd.readonly.sid when present, else bbdd.sid (or null) |
| DbProperties.ReadonlyOverridesPrimary | src-test/src/com/etendoerp/integration/powerbi/processes/CallPythonScriptTest.java:318-389 | for all four settings, a read-only value wins over any primary value; without it, the primary value is read |
| DbProperties.Pieces | src/com/etendoerp/integration/powerbi/processes/CallPythonScript.java:87 | there is at least one piece, and no piece holds a colon |
| DbProperties.SplitUrl | src/com/etendoerp/integration/powerbi/processes/CallPythonScript.java:87 | no token holds a colon; a URL without a colon is one token; a URL with one never ends in an empty token |
| DbProperties.PiecesOfColonJoin | src/com/etendoerp/integration/powerbi/processes/CallPythonScript.java:87 | colon-free tokens joined with ":" are cut back into exactly those tokens, when no later token starts with "//" |
| DbProperties.SplitOfColonJoin | src/com/etendoerp/integration/powerbi/processes/CallPythonScript.java:87 | round trip: splitting such a join whose last token is non-empty gives back the tokens |
| DbProperties.DropTrailingEmpty | src/com/etendoerp/integration/powerbi/processes/CallPythonScript.java:87 | the result is a prefix of the tokens, does not end in "", and only empty tokens were dropped |
| DbProperties.DbHostPort | src/com/etendoerp/integration/powerbi/processes/CallPythonScript.java:85-89 | host and port are tokens 2 and 3 of the split URL; a null URL and fewer than four tokens are faults |
| DbProperties.JdbcUrlHostPort | src/com/etendoerp/integration/powerbi/processes/CallPythonScript.java:87-89 | `scheme:sub://host:rest` gives host `host` and port `rest`; "jdbc:postgresql://h:5432/db" has port "5432/db" |
| DbProperties.UrlWithoutColonFaults | src/com/etendoerp/integration/powerbi/processes/CallPythonScript.java:87-88 | a URL without a colon faults on the host |
| DbProperties.EmptyPortFaults | src/com/etendoerp/integration/powerbi/processes/CallPythonScript.java:87-89 | a URL ending in ":" loses its empty last token and faults on the port |
| BiConnectionLookup.GetBiConnection | src/com/etendoerp/integration/powerbi/processes/CallPythonScript.java:240-256 | the loop returns the lookup's connection, or ETPBIC_NullConfigError |
| BiConnectionLookup.ParentOrg | src/com/etendoerp/integration/powerbi/processes/CallPythonScript.java:248 | the parent of a known organisation is its recorded parent; the null organisation and unknown ones have none |
| BiConnectionLookup.ConnectionAt | src/com/etendoerp/integration/powerbi/processes/CallPythonScript.java:244-246 | an organisation has a connection exactly when one is recorded for it, and it is that one |
| BiConnectionLookup.Nearest | src/com/etendoerp/integration/powerbi/processes/CallPythonScript.java:242-250 | with a positive bound, an organisation's own connection wins; anything found is the connection of an ancestor within the bound |
| BiConnectionLookup.FindConnection | src/com/etendoerp/integration/powerbi/processes/CallPythonScript.java:240-256 | fails with ETPBIC_NullConfigError exactly when no ancestor within the bound has a connection; otherwise returns one of theirs |
| BiConnectionLookup.NearestIsFirstHit | src/com/etendoerp/integration/powerbi/processes/CallPythonScript.java:242-250 | if the k-th ancestor (k below the bound) is the first with a connection, that connection is returned |
| BiConnectionLookup.NearestMissesBeyondBound | src/com/etendoerp/integration/powerbi/processes/CallPythonScript.java:242-254 | if no ancestor within the bound has a connection, none is found |
| BiConnectionLookup.NearestIsAnAncestorsConnection | src/com/etendoerp/integration/powerbi/processes/CallPythonScript.java:242-250 | a found connection belongs to an ancestor within the bound, and every nearer ancestor has none |
| BiConnectionLookup.NearestIsStable | src/com/etendoerp/integration/powerbi/processes/CallPythonScript.java:242 | raising the bound never changes a connection already found |
| BiConnectionLookup.ZeroBoundFails | src/com/etendoerp/integration/powerbi/processes/CallPythonScript.java:242-254 | a bound of zero always fails with ETPBIC_NullConfigError |
| BiConnectionLookup.ParentChainExample | src/com/etendoerp/integration/powerbi/processes/CallPythonScript.java:242-250 | the connection is found on the parent when the bound reaches it, and not otherwise |
| BiConnectionLookup.OwnConnectionWins | src-test/src/com/etendoerp/integration/powerbi/processes/CallPythonScriptTest.java:431-442 | an organisation with its own connection gets it, even with a bound of one |
| DestinationVariables.LastValue | src/com/etendoerp/integration/powerbi/processes/CallPythonScript.java:111-149 | a slot that no variable names (`NamedIn` false) stays "" |
| DestinationVariables.Dispatch | src/com/etendoerp/integration/powerbi/processes/CallPythonScript.java:120-149 | the slot whose name is the lower-cased variable name takes the value, every other slot keeps its own, and a name outside the eight changes nothing |
| DestinationVariables.SlotsOf | src/com/etendoerp/integration/powerbi/processes/CallPythonScript.java:111-149 | no variables leave eight empty slots; otherwise each of the eight slots holds the value of the last variable whose lower-cased name is that slot's name, or "" when none names it |
| DestinationVariables.SlotsOfSnoc | src/com/etendoerp/integration/powerbi/processes/CallPythonScript.java:120-149 | one more variable applies one more pass of the switch to the slots of the ones before it |
| DestinationVariables.ScanVariables | src/com/etendoerp/integration/powerbi/processes/CallPythonScript.java:111-149 | the switch loop leaves each slot holding the value of the last variable naming it |
| DestinationVariables.LastNamingVariableWins | src/com/etendoerp/integration/powerbi/processes/CallPythonScript.java:120-149 | the last variable whose lower-cased name is the slot decides it |
| DestinationVariables.UnknownNameIgnored | src/com/etendoerp/integration/powerbi/processes/CallPythonScript.java:146-147 | a variable with an unknown name changes no slot |
| DestinationVariables.LaterDuplicateOverrides | src/com/etendoerp/integration/powerbi/processes/CallPythonScript.java:120-149 | of two variables naming one slot, the later wins |
| DestinationVariables.DistinctNamesCommute | src/com/etendoerp/integration/powerbi/processes/CallPythonScript.java:120-149 | swapping adjacent variables with different names changes no slot |
| DestinationVariables.CaseOfNameIgnored | src/com/etendoerp/integration/powerbi/processes/CallPythonScript.java:121 | "CLIENT", "Ip" and "BBDD_Password" fill their slots |
| DestinationVariables.ResolveEmptyPort | src/com/etendoerp/integration/powerbi/processes/CallPythonScript.java:197-202 | an empty port becomes "22"; any other is kept; the result is never empty |
| DestinationVariables.WithSuffix | src/com/etendoerp/integration/powerbi/processes/CallPythonScript.java:263-264 | the result ends with the suffix, and equals the input exactly when the input already did |
| DestinationVariables.WithSuffixIdempotent | src/com/etendoerp/integration/powerbi/processes/CallPythonScript.java:263-264 | adding a suffix twice is adding it once |
| DestinationVariables.ResolvePathDelimiter | src/com/etendoerp/integration/powerbi/processes/CallPythonScript.java:190-195 | the result ends in "/"; "/" is added exactly when missing |
| DestinationVariables.ResolvePathDelimiterIdempotent | src/com/etendoerp/integration/powerbi/processes/CallPythonScript.java:190-195 | resolving a resolved path changes nothing |
| DestinationVariables.ResolvePathDelimiterExamples | src-test/src/com/etendoerp/integration/powerbi/processes/CallPythonScriptTest.java:210-226 | "path/to/something" gains its "/"; "path/to/something/" is kept |
| DestinationVariables.ResolveEmptyPortExamples | src-test/src/com/etendoerp/integration/powerbi/processes/CallPythonScriptTest.java:235-252 | "" becomes "22"; "8080" is kept |
| DestinationVariables.DestinationSegment | src/com/etendoerp/integration/powerbi/processes/CallPythonScript.java:151-171 | fails with ETPBIC_VariablesNotFoundError exactly when client, user or ip is empty. Otherwise eight fields in argument order: the comma-free client, defaulted port, directory path, and the credentials from the variables or the properties |
| DestinationVariables.CredentialsComeInPairs | src/com/etendoerp/integration/powerbi/processes/CallPythonScript.java:155-159 | user and password both come from the variables or both from the properties |
| ScriptLaunch.ScriptPath | src/com/etendoerp/integration/powerbi/processes/CallPythonScript.java:260-265 | the directory with "/" ensured, then the name with ".py" ensured; it ends in ".py" |
| ScriptLaunch.LaunchScript | src/com/etendoerp/integration/powerbi/processes/CallPythonScript.java:258-282 | a missing script gives ETPBIC_ScriptNotFound. A launch happens exactly when the script exists and python3 starts in the directory, otherwise ETPBIC_ExecutePythonError. The launch carries the resolved script, the arguments and the directory, and its command line is python3, the script, the arguments |
| ScriptLaunch.Command | src/com/etendoerp/integration/powerbi/processes/CallPythonScript.java:273-274 | three elements: python3, the script, and the whole argument text as one element |
| ScriptLaunch.ScriptPathExample | src/com/etendoerp/integration/powerbi/processes/CallPythonScript.java:260-265 | "/test/repo" with "test_script.py" gives "/test/repo/test_script.py": only the missing "/" is added |
| ScriptLaunch.ScriptSuffixExample | src/com/etendoerp/integration/powerbi/processes/CallPythonScript.java:260-265 | "/test/repo/" with "test_script" gives the same path: only the missing ".py" is added |
| ScriptLaunch.ScriptNotFoundExample | src-test/src/com/etendoerp/integration/powerbi/processes/CallPythonScriptTest.java:263-278 | with every path resolving to the missing "/nonexistent/path", the script is reported not found |
| ScriptLaunch.MissingScriptIsNotLaunched | src/com/etendoerp/integration/powerbi/processes/CallPythonScript.java:268-271 | a script missing on disk is never started, whatever python3 and the directory do |
| ScriptLaunch.Terminated | src/com/etendoerp/integration/powerbi/processes/CallPythonScript.java:91-99 | a non-empty field list gives text ending in "," |
| ScriptLaunch.TerminatedAppend | src/com/etendoerp/integration/powerbi/processes/CallPythonScript.java:91-171 | appending fields appends their text: the builder is only ever extended |
| ScriptLaunch.CommaFieldsOfTerminated | src/com/etendoerp/integration/powerbi/processes/CallPythonScript.java:91-171 | round trip: cutting the argument text at its commas gives back comma-free fields exactly |
| Processes.PreLaunch | src/com/etendoerp/integration/powerbi/processes/CallPythonScript.java:50-105 | each check's error is reported exactly when the earlier checks pass and it fails; a connection without a webhook reference is a runtime fault. On success, the nine common fields in argument order |
| Processes.Steps | src/com/etendoerp/integration/powerbi/processes/CallPythonScript.java:107-171 | one step per destination, in order, with its script; a step lacks its fields exactly when its variables leave client, user or ip empty, and has eight otherwise |
| Processes.SegmentFieldsCommaFree | src/com/etendoerp/integration/powerbi/processes/CallPythonScript.java:164-171 | fields without commas make an appended text without commas |
| Processes.RunSteps | src/com/etendoerp/integration/powerbi/processes/CallPythonScript.java:107-176 | never more launches than destinations; the loop passes exactly when every destination was launched |
| Processes.Execute | src/com/etendoerp/integration/powerbi/processes/CallPythonScript.java:38-188 | a failed check launches nothing and reports its error |
| Processes.LaunchArguments | src/com/etendoerp/integration/powerbi/processes/CallPythonScript.java:107-176 | the k-th launch starts the k-th script with the common text followed by the fields of destinations 0 to k |
| Processes.FailureStopsAtNextDestination | src/com/etendoerp/integration/powerbi/processes/CallPythonScript.java:151-176 | a failing run stops at the destination after the last one launched, whose fields or launch give the error |
| Processes.EveryLaunchCarriesFirstSegment | src/com/etendoerp/integration/powerbi/processes/CallPythonScript.java:164-174 | with comma-free fields, every launch's fields 9 onwards begin with the first destination's fields |
| Processes.PassLaunchesEveryDestination | src/com/etendoerp/integration/powerbi/processes/CallPythonScript.java:107-176 | a run passes exactly when the checks pass and every destination was launched |
| Processes.EarlierCheckWins | src/com/etendoerp/integration/powerbi/processes/CallPythonScript.java:69-89 | a missing token is reported before a missing context URL, and that before an unusable database URL |
| Processes.CallPythonScript.StartScript | src/com/etendoerp/integration/powerbi/processes/CallPythonScript.java:258-282 | records the launch and passes, or records nothing and reports the error |
| Processes.CallPythonScript.LaunchDestination | src/com/etendoerp/integration/powerbi/processes/CallPythonScript.java:108-175 | one pass of the loop does what the first step of RunSteps does, and extends the argument text |
| Processes.CallPythonScript.LaunchDestinations | src/com/etendoerp/integration/powerbi/processes/CallPythonScript.java:107-176 | the loop records exactly the launches of RunSteps and ends with its outcome |
| Processes.CallPythonScript.DoExecute | src/com/etendoerp/integration/powerbi/processes/CallPythonScript.java:38-188 | the recorded launches grow by exactly those of Execute, and the outcome is Execute's |

## Left out

- Logging to the process logger and log4j is not modelled; the observers' accepted verdict records only the one info line that `QueryValidationUtil` writes. `OBMessageUtils.messageBD` is not modelled: an error carries the message key, not its translation. The final catch blocks of `doExecute` rethrow every failure with the same message as an `OBException`, so only the message matters: `Processes.Execute` reports the error the failing step raised.
- `isValidEvent` belongs to the framework's observer base class, which is not part of this model; it is an input of each event.
- The database queries (BI connection by organisation, webhook, webhook access, data destinations, execution variables) become maps and sequences in `Processes.Request` and `BiConnectionLookup.OrgTree`. `setMaxResults(1)` is read as "the first record", already chosen.
- `parentListCount` (the size of the organisation's parent list) is an input of the lookup; it is not derived from the tree. `getParentOrg` of a missing parent is the null organisation, which has no connection and no parent.
- The servlet context's `getRealPath` is a total function given with the server; the file system is the set of existing paths. `ProcessBuilder.start` is modelled as failing exactly when python3 is not installed or the working directory does not exist; other operating-system failures are not modelled. The started processes are not run, so they are not modelled beyond their command line. The Python script (`ETPBIC_SyncScript.py`) and the log window (`FillLogWindow`) are not part of this model.
- Entity fields read through getters (ids, variable names and values, repository path, script path, organisation name, separator, query text) are non-null strings. The `NullPointerException`s a null value would raise are not modelled, with three exceptions: the null database URL and a connection whose webhook reference is null both fault, and a null webhook name or API key is appended as the text "null" (`Processes.PreLaunch`).
- The static `clientObj` is an input of the request (`clientId`).
- Java strings are sequences of UTF-16 units; the model's strings are sequences of Unicode characters (scalar values). The one place the source counts length, the separator check, counts UTF-16 units (`JavaText.Utf16Length`). A Java string holding an unpaired surrogate cannot be represented. `toLowerCase` is modelled for ASCII letters only, with no locale rules.
- The unit tests of `DelimiterValidator` exercise a variant gated by a `csv_separator` variable name, with two properties; the observer in the source reads one `csvSeparator` property with no name gate. The model follows the source.
- For "jdbc:postgresql://host:5432/db" the split gives host "host" and port "5432/db": the database name stays in the fourth token, and the Python script receives that port text as it is (`DbProperties.JdbcUrlHostPort`).
- The argument text keeps growing across destinations because the builder is never reset. The model keeps this as written (`Processes.LaunchArguments`). Fields that hold a comma shift the positions a reader sees. The organisation and client names have their commas replaced; the other fields are not. So the read-back lemmas (`ScriptLaunch.CommaFieldsOfTerminated`, `Processes.EveryLaunchCarriesFirstSegment`) require comma-free fields.
- The multi-clause SELECT query of the unit tests has no lemma of its own; `QueryValidationUtil.AcceptsSelectKeyword` covers every query that starts with the keyword.
