# DIRAC production validation and job description builder, in Dafny

This project models two pieces of DIRAC and proves properties about them.

**The production validator** (`ProdValidator`). It runs before a transformation is started:

- the transformation's status must be exactly `New`;
- the input meta-query of a child transformation must be compatible with the output meta-query of its parent.

Compatibility is checked attribute by attribute. Each attribute of the child must be:

- declared in the file catalog's metadata tables;
- of type `VARCHAR(128)`, `int` or `float`;
- present in the parent's query;
- compatible with the parent's value. For the values, one operand set must contain the other, in either direction.

Before comparing, both queries are normalized in place: a bare value `v` becomes `{"in": [v]}`. The replies of the remote services are parameters holding the S_OK / S_ERROR reply: the transformation status, the two meta-queries and the catalog's metadata fields.

**The `Job` builder of the job-description API** (`Job`). It is a class whose setters check their arguments and append JDL parameters to the job's workflow. The setters modelled are:

- output sandbox, input data, parameter sequences, input-data policy, output data, destination and banned sites;
- `__checkSiteIsValid` and `_addParameter`.

For `_toJDL`, the model covers building the parameter dictionary it renders:

- the dictionary collected from the workflow;
- the merge of the extra sandbox and input-data files;
- the rewriting of parametric sequences by `_handleParameterSequences`;
- the clean-up of the extra input sandbox;
- the final bracket slicing of the rendered JDL.

Files:

- `outcomes.dfy`: `Result<T>` with three cases. `Ok` is S_OK, `Error(message)` is S_ERROR, and `Raised(exception)` is a Python exception escaping the call. Also `Option<T>`.
- `py_strings.dfy`: the Python 2 string operations the core uses: `join`, `split`, `replace(x, '')`, `lower`, `strip`, `find`/`rfind`, slicing and `in`.
- `prod_validator.dfy`: the production validator.
- `job_params.dfy`: parameter values, the parameter dictionary of `_toJDL`, and the pure steps of the merge and sequence handling.
- `job.dfy`: the class `Job` and the specification functions of its setters.

Dictionary iteration order in Python 2 is unspecified. Each loop over a dictionary therefore picks its next key with `:|`. The contracts are stated for every possible order:

- success is an if-and-only-if over all keys;
- a failure names some key that fails;
- the arguments added by the sequences appear in some ordering of the sequence names.

Behaviours of the code that the model keeps as written:

- **Empty operator dict.** It is not refused with an error: `keys()[0]` raises IndexError (`Raised("IndexError")`).
- **Empty metadata-field reply.** It is not an error: `checkMatchQuery` hands back the empty OK reply (`NoFieldsDefined`), and `checkTransDependency` then fails with "checkMatchQuery result is False".
- **Mismatch message.** A mismatch becomes that fixed message, not an error carrying the mismatched values.
- **Order of steps.** The catalog's metadata fields are read before the queries are normalized, and normalization rewrites the caller's dicts in place.
- **Numbers.** Integers and floats compare by value, as in Python (`1 == 1.0`), so a numeric literal is a `real`.
- **Comparison direction.** The value comparison accepts nesting in either direction, and the model keeps that. The lemma `CompareValuesAcceptsBroaderChild` exhibits a child asking for more values than the parent produces, which is accepted.

## Model

| member | source | states |
|---|---|---|
| ProdValidator.CheckTransStatus | ProductionSystem/Utilities/ProdValidator.py:17-25 | succeeds iff the status reply is OK and exactly `New`; another status gives an error whose message ends with that status; a failed reply is passed on unchanged |
| ProdValidator.FormatValue | ProductionSystem/Utilities/ProdValidator.py:104-113 | a bare value becomes `{"in": [v]}`; an operator dict is kept iff its first operator is `=` or `in`; another operator is an error naming it; an empty dict raises IndexError; every accepted value is normalized |
| ProdValidator.NormalizeQuery | ProductionSystem/Utilities/ProdValidator.py:102-115 | the formatted query has the same keys and only normalized values |
| ProdValidator.BareIsIn | ProductionSystem/Utilities/ProdValidator.py:111-113 | a bare literal and `{"in": [literal]}` format to the same value |
| ProdValidator.NormalizeQueryIdempotent | ProductionSystem/Utilities/ProdValidator.py:102-115 | formatting an already formatted query succeeds and changes nothing |
| ProdValidator.CheckFormatQuery | ProductionSystem/Utilities/ProdValidator.py:102-115 | rewrites the dict in place: keys kept; succeeds iff every value formats, and then the dict and the result are the normalized query; otherwise returns the failure of some offending value; each entry is either untouched or its formatted value |
| ProdValidator.CompareValues | ProductionSystem/Utilities/ProdValidator.py:117-125 | compareValues holds iff every first operand of one value occurs among the first operands of the other, in either direction |
| ProdValidator.CompareValuesSymmetric | ProductionSystem/Utilities/ProdValidator.py:117-125 | compareValues is symmetric |
| ProdValidator.CompareValuesReflexive | ProductionSystem/Utilities/ProdValidator.py:117-125 | compareValues holds between a value and itself |
| ProdValidator.CompareValuesAcceptsBroaderChild | ProductionSystem/Utilities/ProdValidator.py:119-125 | a child asking for values 1 and 2 passes against a parent producing only 1, although the child's values are not covered |
| ProdValidator.MergedTypes | ProductionSystem/Utilities/ProdValidator.py:69-70 | the type table holds the names of both tables, the directory table winning on a shared name |
| ProdValidator.CheckAttribute | ProductionSystem/Utilities/ProdValidator.py:83-98 | the verdict on one attribute: not in catalog iff undeclared; unsupported type iff declared with a type outside the three; not in parent iff supported but absent from the parent; pass or mismatch by compareValues otherwise |
| ProdValidator.MatchAttributes | ProductionSystem/Utilities/ProdValidator.py:82-100 | the loop returns True iff every attribute passes (the empty query included); False only when some attribute mismatches; an error only with the message of some rejected attribute; it never raises |
| ProdValidator.MatchOutcomeVerdict | ProductionSystem/Utilities/ProdValidator.py:82-100 | the loop's OK value is truthy iff the queries match; an error means some attribute is rejected; with no rejection, a failed match is a plain False; an error's message is never the plain "checkMatchQuery result is False" |
| ProdValidator.RejectionNotFalse | ProductionSystem/Utilities/ProdValidator.py:48-52 | no rejection message of checkMatchQuery equals "checkMatchQuery result is False", so a propagated error is told apart from a "no" |
| ProdValidator.CheckMatchQuery | ProductionSystem/Utilities/ProdValidator.py:56-100 | a failed field reply is passed on; an empty one comes back as the OK empty value; otherwise the child is formatted first and its failure returned before the parent is touched, then the parent, then the attribute loop decides; both dicts are left normalized; after a format failure the failing dict has its keys, each value untouched or already formatted, and the child stays normalized when the parent fails |
| ProdValidator.CheckTransDependency | ProductionSystem/Utilities/ProdValidator.py:27-54 | succeeds iff both queries are present and non-empty, the fields are defined, both queries format and every child attribute passes; the missing-query errors come first, child before parent; a logical "no" or an empty field reply becomes "checkMatchQuery result is False"; a failed field reply and a format failure (of the child first, then of the parent) pass through unchanged; when both format it never raises, "checkMatchQuery result is False" then comes only from a child attribute whose values the parent's do not cover, and any other error is the message of a rejected child attribute |
| ProdValidator.ChildWithinParentPasses | ProductionSystem/Utilities/ProdValidator.py:27-54 | runs 100 and 101 asked of a parent producing 100 to 102, with `Run` declared `int`, pass |
| ProdValidator.AttributeMissingFromParentIsRejected | ProductionSystem/Utilities/ProdValidator.py:90-92 | an attribute the parent's query lacks is rejected, not a mismatch |
| ProdValidator.UnsupportedOperatorRefused | ProductionSystem/Utilities/ProdValidator.py:106-110 | an operator dict whose first operator is neither `=` nor `in` is refused with the message naming that operator, whatever follows |
| JobParams.IoFlags | Interfaces/API/Job.py:856-863 | `input` gives (true, false), `output` gives (false, true), any other flag raises TypeError |
| JobParams.ParamsDictOf | Interfaces/API/Job.py:998-1003 | the dictionary has exactly the names of the workflow's parameters |
| JobParams.LastParameterWins | Interfaces/API/Job.py:1002-1003 | the entry of a name holds the type and value of the last parameter recorded under it |
| JobParams.Unique | Interfaces/API/Job.py:1076 | the de-duplicated list has the same elements, no duplicates, and is non-empty when the input is |
| JobParams.Dedup | Interfaces/API/Job.py:1076-1077 | re-joining the unique entries names the same files, each once |
| JobParams.MergeFiles | Interfaces/API/Job.py:1071-1110 | a missing entry becomes the joined extra files with type JDL; a non-string current value raises TypeError (in the input-data variant only when it is truthy); otherwise only that entry changes, keeping its type |
| JobParams.MergedFileSet | Interfaces/API/Job.py:1071-1110 | a merged list holds each file once, and exactly the current files and the extra ones (the input-data variant dropping an empty current value) |
| JobParams.InputDataMergeHasNoEmptyEntry | Interfaces/API/Job.py:1097-1110 | extra input data merged into an empty InputData holds exactly the extra files and no empty entry |
| JobParams.SandboxMergeKeepsEmptyEntry | Interfaces/API/Job.py:1071-1083 | extra files merged into an empty sandbox string keep an empty entry |
| JobParams.MergeSandboxes | Interfaces/API/Job.py:1071-1110 | the three merges never return an error; on success they add exactly the keys of the non-empty lists and leave every other entry unchanged |
| JobParams.ExtendSequence | Interfaces/API/Job.py:953-963 | raises IndexError for an empty sequence and TypeError for a list sequence holding a non-list; otherwise each value is the current list extended by that element (or its items) |
| JobParams.SequenceEntry | Interfaces/API/Job.py:940-968 | the new entry per case: a missing name gets a JDL placeholder; InputSandbox gets the placeholder appended; a non-JDL type is kept; a JDL entry becomes the placeholder, its list value extending the sequence; the sequence keeps its length |
| JobParams.InputSandboxPlaceholderAppended | Interfaces/API/Job.py:944-946 | a non-empty InputSandbox string gains the placeholder as one more `;`-separated file |
| JobParams.SequenceArgumentsAppend | Interfaces/API/Job.py:973-975 | visiting one more name appends its ` -p` option exactly when it feeds a workflow argument |
| JobParams.RemoveFirst | Interfaces/API/Job.py:1141-1145 | removing a file absent from the list changes nothing; otherwise exactly its first occurrence goes, the other files keeping their order |
| JobParams.ScriptNameRemovedAgain | Interfaces/API/Job.py:1141-1145 | a script name appended to an input sandbox that held neither it nor stdout/stderr is removed again, leaving the sandbox as it was |
| JobParams.AppendedRemoved | Interfaces/API/Job.py:1141-1145 | removing a file just appended to a list that did not hold it restores the list |
| JobParams.JDLBody | Interfaces/API/Job.py:1147-1150 | when the first `[` precedes the last `]` by two or more, the rendering is the text through that `[`, the result, then the character before the `]` and the rest, with no `[` before and no `]` after; with no bracket at all Python's negative index drops the last two characters |
| JobParams.JDLBodyOfClassAd | Interfaces/API/Job.py:1147-1150 | the slice of a rendering `[body c]` is exactly `body`, whatever brackets the body holds |
| JobParams.WithLfnPrefix | Interfaces/API/Job.py:296-297 | every stored LFN starts with `LFN:` and gains no `;` |
| JobParams.LfnPrefixOptional | Interfaces/API/Job.py:296-297 | an LFN with or without a leading `LFN:` is stored alike |
| JobParams.InputDataEntries | Interfaces/API/Job.py:294-300 | the stored InputData splits back into one `LFN:`-prefixed entry per given LFN, in order |
| JobParams.InputDataPrefixOptional | Interfaces/API/Job.py:294-300 | lists that differ only by `LFN:` prefixes store the same InputData value |
| JobParams.OutputSEEntries | Interfaces/API/Job.py:430-434 | the stored OutputSE splits back into the stripped element names, one per given name, none starting with whitespace |
| JobParams.LeadingSlashesStripped | Interfaces/API/Job.py:444-445 | a path made only of slashes (or empty) raises IndexError; otherwise the result is non-empty, does not start with `/`, ends the path, and only slashes precede it |
| JobParams.StripLeadingSlashes | Interfaces/API/Job.py:444-445 | the loop computes `LeadingSlashesStripped` |
| JobParams.MatchPolicy | Interfaces/API/Job.py:356-360 | the canonical `Download` / `Protocol` iff the policy matches it case-insensitively, and "" for any other policy |
| JobDescription.JoinedEntries | Interfaces/API/Job.py:266-269 | a list joined for storage splits back into its entries when none holds `;` |
| JobDescription.FreshJobInputData | Interfaces/API/Job.py:827-846 | a new job's InputData is an empty JDL string, so the first extra input data merged into it leaves no empty entry |
| JobDescription.RequestedSitesElements | Interfaces/API/Job.py:541 | the sites checked are exactly the destination entries other than `any` in any case |
| JobDescription.DestinationEntriesClean | Interfaces/API/Job.py:535-536 | entries parsed from a destination string hold no space and no comma |
| JobDescription.Unknown | Interfaces/API/Job.py:557 | the unknown sites are exactly the given names outside the known set |
| JobDescription.NoUnknown | Interfaces/API/Job.py:557-559 | with no unknown site, every name is known |
| JobDescription.OutputPathEffect | Interfaces/API/Job.py:438-447 | no parameter when no path is given; a non-string path is an error; a path of slashes raises IndexError; otherwise one JDL input parameter `OutputPath` holding the stripped path |
| JobDescription.OutputDataEffect | Interfaces/API/Job.py:414-449 | nothing is recorded iff the files are refused; otherwise OutputData, holding the joined files, is recorded first |
| JobDescription.OutputDataResult | Interfaces/API/Job.py:414-449 | succeeds iff the files are a string or non-empty list, the storage elements a string, list or falsy, and the path falsy or a string holding a non-slash; raises IndexError iff the path is only slashes; each refusal carries its message |
| JobDescription.OutputDataInputs | Interfaces/API/Job.py:414-449 | every parameter recorded is an input parameter of type JDL |
| JobDescription.OutputDataNames | Interfaces/API/Job.py:414-449 | on success the names recorded are OutputData, then OutputSE when storage elements are given, then OutputPath when a path is given |
| JobDescription.OutputDataPath | Interfaces/API/Job.py:438-447 | on success with a path, the last parameter holds a non-empty path not starting with `/`, ending the given path, behind only slashes |
| JobDescription.SequenceLoopStep | Interfaces/API/Job.py:939-975 | one more sequence handled keeps the loop's invariant: rewritten names show their step, other entries are untouched, lengths are kept, arguments follow the visiting order |
| JobDescription.SequenceLoopFails | Interfaces/API/Job.py:953-963 | a step that raises ends the handling, and (with no clashing names) its exception is the one the step of that name raises on the original entry |
| JobDescription.SequenceLoopDone | Interfaces/API/Job.py:939-977 | with every name visited the whole dictionary is rewritten, every step having succeeded |
| JobDescription.DefaultParameters | Interfaces/API/Job.py:827-846 | the default parameters are all inputs, each recorded under a name of its own |
| JobDescription.Job.constructor | Interfaces/API/Job.py:59-100 | a job without a script starts with the default parameters, no sequences and empty extra lists, and the configured sites |
| JobDescription.Job.AddParameter | Interfaces/API/Job.py:851-866 | appends one parameter with the flags of `io`, or raises TypeError and records nothing |
| JobDescription.Job.SetOutputSandbox | Interfaces/API/Job.py:266-277 | a string or non-empty list is recorded joined by `;`; anything else is refused and records nothing |
| JobDescription.Job.SetInputData | Interfaces/API/Job.py:294-308 | a non-empty list is cleaned of `LFN:` in place and stored with one `LFN:` per entry; a string is stored as given; anything else is refused and records nothing |
| JobDescription.Job.SetParameterSequence | Interfaces/API/Job.py:323-336 | while the parameter count is zero a sequence sets it to its own length; otherwise a sequence of another length is refused and changes nothing; otherwise it is stored and its workflow argument registered as the flag says; stored sequences stay consistent with the count |
| JobDescription.Job.SetInputDataPolicy | Interfaces/API/Job.py:354-383 | an unknown policy is refused; a missing Operations value is refused; otherwise the policy module is recorded (and DisableDataScheduling for download without scheduling), and bypassing scheduling with another policy is an error |
| JobDescription.Job.SetOutputData | Interfaces/API/Job.py:414-449 | appends exactly the parameters `OutputDataEffect` names and returns its result |
| JobDescription.Job.AddOutputFiles | Interfaces/API/Job.py:417-426 | records OutputData for a string or non-empty list; otherwise refuses and records nothing |
| JobDescription.Job.AddOutputSE | Interfaces/API/Job.py:428-436 | a truthy value other than a string or list is refused; otherwise records the storage element parameters, if any |
| JobDescription.Job.AddOutputPath | Interfaces/API/Job.py:438-447 | appends and returns what `OutputPathEffect` names |
| JobDescription.Job.CheckSiteIsValid | Interfaces/API/Job.py:553-562 | succeeds iff every given site is known; a single unknown site is named in the error; it never raises |
| JobDescription.Job.SetDestination | Interfaces/API/Job.py:534-550 | a non-string non-list is refused; otherwise succeeds iff every entry other than `any` is a known site, recording all entries joined by `;`; a refusal names the parsed list and records nothing |
| JobDescription.Job.SetBannedSites | Interfaces/API/Job.py:602-612 | a string or non-empty list is recorded joined by `;`; anything else is refused and records nothing |
| JobDescription.Job.HandleParameterSequences | Interfaces/API/Job.py:937-977 | never an error; sequence lengths kept; with no clashing names it succeeds iff every entry's step succeeds, and then every name and its `Parameters.` entry are rewritten and every other entry kept; the arguments gain one option per workflow-fed sequence in some order of the names; with no clashing names, a raised exception is the one some original entry's step raises, and every sequence is either as it was or the one its own step produced |
| JobDescription.SequencesRaiseOnlyFromExtend | Interfaces/API/Job.py:953-963 | with no clashing names, the handling raises only for a name whose entry is a list-valued JDL entry: IndexError when its sequence is empty, TypeError otherwise |
| JobDescription.Job.CollectParameters | Interfaces/API/Job.py:998-1003 | the loop computes `ParamsDictOf` of the workflow |
| JobDescription.Job.ToJDL | Interfaces/API/Job.py:1030-1145 | stdout and stderr are appended to the output sandbox; the dictionary is the workflow's with the sandboxes merged, sequences handled when there are parameters, then rendered; rendering raises IndexError when an entry typed `JDL...` holds an empty list, and then the input sandbox keeps the script name; on success the script name, stdout and stderr are removed from the input sandbox once each |
| JobDescription.Job.FinishJDL | Interfaces/API/Job.py:1112-1145 | sequences handled when there are parameters, then rendering; the input sandbox is cleaned only when rendering succeeds, and is otherwise unchanged |
| JobDescription.Job.SequencesRendered | Interfaces/API/Job.py:1112-1136 | the dictionary is left as it is without parameters, handled by the sequences otherwise, and rendered only when that succeeds; a raising step is passed on |
| JobDescription.Job.CleanInputSandbox | Interfaces/API/Job.py:1141-1145 | the script name, stdout and stderr are each removed once from the input sandbox, in that order, when present |
| JobDescription.EmptySequenceNotRendered | Interfaces/API/Job.py:1119-1129 | a stored sequence of length zero leaves, after the sequences are handled, an empty `JDL` list under its `Parameters.` name, so rendering raises IndexError |

## Left out

- ClassAd rendering in `_toJDL` is modelled only for whether it raises: `value[0]` of an empty list typed `JDL...` raises IndexError. The rendered text itself is not modelled; `JDLBody` models only its final slice.
- The assembly of the executable's arguments in `_toJDL` (the script basename, LogLevel, DIRACSetup, JobMode, JobConfigArgs and parametric workflow arguments) is an input of `ToJDL`.
- The lookup of the job description file on disk is not modelled. `ToJDL` takes the resulting name and whether a file was given.
- Remote reads are parameters:
  - the transformation status and meta-queries;
  - the catalog's metadata fields;
  - the Operations option value (a map);
  - the configured sites and the proxy's VO group.
- Logging is not modelled.
- JobDescription.Job.CheckSiteIsValid: the message for several unknown sites prints them in list order. Python prints a `set` in hash order, so only the single-site message is stated exactly.
- Python's `repr` of strings containing quotes or backslashes is not modelled (`Quoted` adds plain quotes).
- `_reportError` is modelled as an S_ERROR carrying the message. The keyword arguments it logs are not modelled.
- Aliasing of list values is not modelled:
  - a list value of the parameter dictionary shares its object with the workflow parameter;
  - the input-sandbox list is extended in place by `_handleParameterSequences`.

  Values are immutable here.
- A job created from an existing workflow script (XML) is not modelled. Its parameters are not visible.
- `setExecutable`, `setName`, `setInputSandbox`, `setPlatform`, `setCPUTime`, `setDestinationCE`, the owner, type, tag, group and log-level setters, `setExecutionEnv`, `_resolveInputSandbox`, `execute`/`runLocal` and `_dumpParameters` are not modelled. They are outside the builder logic covered here.
- `setDestination`'s `site.lower()` on non-string list elements is not modelled. List arguments hold strings.
- `set()` applied to a string operand would yield its characters. Operands are modelled as sequences of literals instead.
- CompareValues: two crashes of `compareValues` are outside the modelled domain. An operator dict with a scalar operand (`{"=": 5}`) passes the format check, and then `set(5)` raises TypeError. A bare list value (`{"Run": [1, 2]}`) becomes `{"in": [[1, 2]]}`, and `set()` of it raises TypeError because a list is unhashable. Operands are always a list of literals here, so `MatchAttributes` never raises only over that domain.
- The `StatesAccountingAgent` and the command-line scripts are not part of this model.
- Dictionary iteration order is chosen freely (`:|`) rather than following CPython 2's hash order.
- JobDescription.Job.HandleParameterSequences: when a sequence name equals another name's `Parameters.` entry, the rewritten dictionary depends on the visiting order. The contract then states only that no error occurs, the lengths are kept and the arguments are added.
