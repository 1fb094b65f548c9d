/** The `Job` builder of the job-description API: setter methods that check
    their arguments and record JDL parameters in the job's workflow, the
    parametric-sequence bookkeeping, and the dictionary `_toJDL` assembles
    before rendering. The workflow is the log of the parameters added to it. */
module JobDescription {
  import opened Outcomes
  import opened PyStrings
  import opened JobParams

  /** A Python argument that is a string, a list of strings, or any other
      object (None, a number, a tuple, ...), of which only the truthiness
      matters. */
  datatype Arg = StrArg(s: string) | ListArg(items: array<string>) | OtherArg(truthy: bool)

  predicate ArgTruthy(a: Arg)
  {
    match a
    case StrArg(s) => s != ""
    case ListArg(items) => items.Length > 0
    case OtherArg(truthy) => truthy
  }

  /** The array an argument holds, if any. */
  function ArrayOf(a: Arg): set<object>
  {
    if a.ListArg? then {a.items} else {}
  }

  /** The rule shared by the sandbox, input-data, output-data and banned-site
      setters: a non-empty list or a string. */
  predicate AcceptsListOrString(a: Arg)
  {
    a.StrArg? || (a.ListArg? && a.items.Length > 0)
  }

  /** The stored value of an accepted argument: the string, or the list joined by ';'. */
  function Joined(a: Arg): string
    requires AcceptsListOrString(a)
    reads ArrayOf(a)
  {
    if a.StrArg? then a.s else Join(a.items[..], ";")
  }

  /** A joined list splits back into its entries when none of them holds ';'. */
  lemma JoinedEntries(a: Arg)
    requires a.ListArg? && a.items.Length > 0
    requires forall i :: 0 <= i < a.items.Length ==> ';' !in a.items[i]
    ensures Split(Joined(a), ';') == a.items[..]
  {
    SplitJoin(a.items[..], ';');
  }

  function InputParam(name: string, ptype: string, value: Value, description: string): Param
  {
    Param(name, ptype, value, description, true, false)
  }

  /** The parameters a new job starts with: all of them inputs, each under
      a name of its own. */
  function DefaultParameters(group: string, stdout: string, stderr: string): (ps: seq<Param>)
    ensures forall i :: 0 <= i < |ps| ==> ps[i].isInput && !ps[i].isOutput
    ensures forall i, j :: 0 <= i < j < |ps| ==> ps[i].name != ps[j].name
  {
    [ InputParam("JobType", "JDL", Str("User"), "Job Type"),
      InputParam("Priority", "JDL", Int(1), "User Job Priority"),
      InputParam("JobGroup", "JDL", Str(group), "Name of the JobGroup"),
      InputParam("JobName", "JDL", Str("Name"), "Name of Job"),
      InputParam("Site", "JDL", Str("ANY"), "Site Requirement"),
      InputParam("Origin", "JDL", Str("DIRAC"), "Origin of client"),
      InputParam("StdOutput", "JDL", Str(stdout), "Standard output file"),
      InputParam("StdError", "JDL", Str(stderr), "Standard error file"),
      InputParam("InputData", "JDL", Str(""), "Default null input data value"),
      InputParam("LogLevel", "JDL", Str("info"), "Job Logging Level"),
      InputParam("arguments", "string", Str(""), "Arguments to executable Step"),
      InputParam("ParametricInputData", "string", Str(""), "Default null parametric input data value"),
      InputParam("ParametricInputSandbox", "string", Str(""), "Default null parametric input sandbox value") ]
  }

  /** A new job's InputData entry is the empty string, so the first input
      data merged into it are stored without an empty entry. */
  lemma FreshJobInputData(group: string, stdout: string, stderr: string, extra: seq<string>)
    requires |extra| > 0
    requires forall i :: 0 <= i < |extra| ==> extra[i] != "" && ';' !in extra[i]
    ensures var d := ParamsDictOf(DefaultParameters(group, stdout, stderr));
      && "InputData" in d && d["InputData"] == Entry("JDL", Str(""))
      && MergeFiles(d, "InputData", extra, true).Ok?
      && "" !in Split(MergeFiles(d, "InputData", extra, true).value["InputData"].value.s, ';')
  {
    var log := DefaultParameters(group, stdout, stderr);
    assert log[8].name == "InputData";
    LastParameterWins(log, 8);
    InputDataMergeHasNoEmptyEntry(ParamsDictOf(log), extra);
  }

  /** The second argument of `setParameterSequence`: a flag, or the name of
      the workflow argument the sequence feeds. */
  datatype WorkflowFlag = Flag(b: bool) | Named(argument: string)

  /** The workflow argument a sequence is registered under, if any. */
  function WorkflowArgument(name: string, flag: WorkflowFlag): Option<string>
  {
    match flag
    case Named(argument) => if argument != "" then Some(argument) else None
    case Flag(b) => if b then Some(name) else None
  }

  /** What `__checkSiteIsValid` is given: several site names, or one. */
  datatype SiteSpec = SiteCollection(names: seq<string>) | SiteName(name: string)

  /** Python 2's repr of a byte string without quotes or escapes. */
  function Quoted(s: string): string
  {
    "'" + s + "'"
  }

  /** Python 2's repr of a list of such strings. */
  function ListRepr(xs: seq<string>): string
  {
    "[" + Join(seq(|xs|, i requires 0 <= i < |xs| => Quoted(xs[i])), ", ") + "]"
  }

  /** The sites `setDestination` checks: every entry except 'any', in any case. */
  function RequestedSites(dest: seq<string>): seq<string>
  {
    if dest == [] then []
    else (if Lower(dest[0]) != "any" then [dest[0]] else []) + RequestedSites(dest[1..])
  }

  lemma {:induction false} RequestedSitesElements(dest: seq<string>)
    ensures Elements(RequestedSites(dest)) == set x | x in dest && Lower(x) != "any"
    decreases |dest|
  {
    if dest != [] {
      RequestedSitesElements(dest[1..]);
      assert dest == [dest[0]] + dest[1..];
      ElementsConcat(if Lower(dest[0]) != "any" then [dest[0]] else [], RequestedSites(dest[1..]));
    }
  }

  /** The entries of a destination: a string loses its spaces and is split on
      ','; a list is taken as it is. */
  function DestinationList(destination: Arg): seq<string>
    requires !destination.OtherArg?
    reads ArrayOf(destination)
  {
    if destination.StrArg? then Split(RemoveAll(destination.s, " "), ',') else destination.items[..]
  }

  /** Every entry parsed from a destination string is free of spaces and commas. */
  lemma DestinationEntriesClean(s: string)
    ensures forall i :: 0 <= i < |DestinationList(StrArg(s))| ==>
      ' ' !in DestinationList(StrArg(s))[i] && ',' !in DestinationList(StrArg(s))[i]
  {
    RemoveAllChar(s, ' ');
  }

  /** The names a list holds that are not in `known`, each once. */
  function Unknown(names: seq<string>, known: set<string>): (r: seq<string>)
    ensures Elements(r) == Elements(names) - known
  {
    if names == [] then []
    else
      var rest := Unknown(names[1..], known);
      assert names == [names[0]] + names[1..];
      if names[0] in known || names[0] in rest then rest
      else
        ElementsConcat([names[0]], rest);
        [names[0]] + rest
  }

  lemma NoUnknown(names: seq<string>, known: set<string>)
    requires Unknown(names, known) == []
    ensures Elements(names) <= known
  {
    assert Elements(Unknown(names, known)) == {};
  }

  /** The ` -p` arguments of the sequences were appended in some order in
      which every sequence name occurs exactly once. */
  ghost predicate IsOrdering(order: seq<string>, names: set<string>)
  {
    Elements(order) == names && NoDuplicates(order)
  }

  function ParametersKeys(names: set<string>): set<string>
  {
    set p | p in names :: ParametersKey(p)
  }

  /** `d` and `seqs` are what `_handleParameterSequences` makes of `d0` and
      `seqs0` when no step fails: every sequence name holds its new entry and
      its `Parameters.` entry holds the (possibly extended) sequence, and
      every other entry is as it was. */
  ghost predicate SequencesRewritten(d0: ParamsDict, seqs0: map<string, seq<Value>>,
                                     d: ParamsDict, seqs: map<string, seq<Value>>)
  {
    && seqs.Keys == seqs0.Keys
    && d.Keys == d0.Keys + seqs0.Keys + ParametersKeys(seqs0.Keys)
    && (forall p :: p in seqs0 ==> StepApplied(d0, seqs0, d, seqs, p))
    && (forall k :: k in d0 && k !in seqs0 && k !in ParametersKeys(seqs0.Keys) ==> d[k] == d0[k])
  }

  ghost predicate StepApplied(d0: ParamsDict, seqs0: map<string, seq<Value>>,
                              d: ParamsDict, seqs: map<string, seq<Value>>, p: string)
    requires p in seqs0
  {
    var step := SequenceEntry(Lookup(d0, p), p, seqs0[p]);
    && step.Ok?
    && p in d && d[p] == step.value.0
    && p in seqs && seqs[p] == step.value.1
    && ParametersKey(p) in d && d[ParametersKey(p)] == Entry("JDL", List(step.value.1))
  }

  /** The sequence names outside `pending` have been handled: each shows its
      step, and every entry no handled name touches is as it was in `d0`. */
  ghost predicate Progress(d0: ParamsDict, seqs0: map<string, seq<Value>>, pending: set<string>,
                           d: ParamsDict, seqs: map<string, seq<Value>>)
  {
    var done := seqs0.Keys - pending;
    && (forall p :: p in done ==> StepApplied(d0, seqs0, d, seqs, p))
    && (forall k :: k !in done && k !in ParametersKeys(done) ==> Lookup(d, k) == Lookup(d0, k))
    && d.Keys == d0.Keys + done + ParametersKeys(done)
  }

  /** A name still to be handled sees its original entry. */
  lemma PendingUntouched(d0: ParamsDict, seqs0: map<string, seq<Value>>, pending: set<string>,
                         d: ParamsDict, seqs: map<string, seq<Value>>, name: string)
    requires NoClash(seqs0.Keys) && pending <= seqs0.Keys && name in pending
    requires Progress(d0, seqs0, pending, d, seqs)
    ensures Lookup(d, name) == Lookup(d0, name)
  {
    var done := seqs0.Keys - pending;
    assert name !in ParametersKeys(done);
  }

  /** Different names have different `Parameters.` entries. */
  lemma ParametersKeyInjective(a: string, b: string)
    requires ParametersKey(a) == ParametersKey(b)
    ensures a == b
  {
    assert a == ParametersKey(a)[11..];
    assert b == ParametersKey(b)[11..];
  }

  /** A handled name keeps its step when another name is handled. */
  lemma StepKept(d0: ParamsDict, seqs0: map<string, seq<Value>>, d: ParamsDict, seqs: map<string, seq<Value>>,
                 name: string, entry: Entry, sequence: seq<Value>, p: string)
    requires p in seqs0 && p != name
    requires ParametersKey(name) != p && ParametersKey(p) != name
    requires StepApplied(d0, seqs0, d, seqs, p)
    ensures StepApplied(d0, seqs0, d[name := entry][ParametersKey(name) := Entry("JDL", List(sequence))],
                        seqs[name := sequence], p)
  {
    if ParametersKey(p) == ParametersKey(name) {
      ParametersKeyInjective(p, name);
    }
  }

  lemma ParametersKeysAdd(names: set<string>, name: string)
    ensures ParametersKeys(names + {name}) == ParametersKeys(names) + {ParametersKey(name)}
  {
  }

  /** The name just handled shows its step. */
  lemma StepHere(d0: ParamsDict, seqs0: map<string, seq<Value>>, d: ParamsDict, seqs: map<string, seq<Value>>,
                 name: string)
    requires name in seqs0 && name in seqs && seqs[name] == seqs0[name]
    requires Lookup(d, name) == Lookup(d0, name)
    requires SequenceEntry(Lookup(d, name), name, seqs[name]).Ok?
    ensures var step := SequenceEntry(Lookup(d, name), name, seqs[name]).value;
      StepApplied(d0, seqs0, d[name := step.0][ParametersKey(name) := Entry("JDL", List(step.1))],
                  seqs[name := step.1], name)
  {
    assert |ParametersKey(name)| > |name|;
  }

  /** After one more name is handled, every handled name shows its step. */
  lemma ProgressStepApplied(d0: ParamsDict, seqs0: map<string, seq<Value>>, pending: set<string>,
                            d: ParamsDict, seqs: map<string, seq<Value>>, name: string,
                            entry: Entry, sequence: seq<Value>)
    requires NoClash(seqs0.Keys) && pending <= seqs0.Keys && name in pending
    requires seqs.Keys == seqs0.Keys && seqs[name] == seqs0[name]
    requires Progress(d0, seqs0, pending, d, seqs)
    requires SequenceEntry(Lookup(d, name), name, seqs[name]) == Ok((entry, sequence))
    ensures forall p :: p in seqs0.Keys - (pending - {name}) ==>
      StepApplied(d0, seqs0, d[name := entry][ParametersKey(name) := Entry("JDL", List(sequence))],
                  seqs[name := sequence], p)
  {
    PendingUntouched(d0, seqs0, pending, d, seqs, name);
    StepHere(d0, seqs0, d, seqs, name);
    forall p | p in seqs0.Keys - (pending - {name})
      ensures StepApplied(d0, seqs0, d[name := entry][ParametersKey(name) := Entry("JDL", List(sequence))],
                          seqs[name := sequence], p)
    {
      if p != name {
        assert p in seqs0.Keys - pending;
        StepKept(d0, seqs0, d, seqs, name, entry, sequence, p);
      }
    }
  }

  /** After one more name is handled, the entries no handled name touches
      are still as they were. */
  lemma ProgressStepUntouched(d0: ParamsDict, seqs0: map<string, seq<Value>>, pending: set<string>,
                              d: ParamsDict, name: string, entry: Entry, sequence: seq<Value>)
    requires pending <= seqs0.Keys && name in pending
    requires forall k :: k !in seqs0.Keys - pending && k !in ParametersKeys(seqs0.Keys - pending) ==>
      Lookup(d, k) == Lookup(d0, k)
    ensures var done := seqs0.Keys - (pending - {name});
      forall k :: k !in done && k !in ParametersKeys(done) ==>
        Lookup(d[name := entry][ParametersKey(name) := Entry("JDL", List(sequence))], k) == Lookup(d0, k)
  {
    var done := seqs0.Keys - pending;
    assert seqs0.Keys - (pending - {name}) == done + {name};
    ParametersKeysAdd(done, name);
  }

  /** After one more name is handled, the dictionary has gained exactly its
      entry and its `Parameters.` entry. */
  lemma ProgressStepKeys(d0: ParamsDict, seqs0: map<string, seq<Value>>, pending: set<string>,
                         d: ParamsDict, name: string, entry: Entry, sequence: seq<Value>)
    requires pending <= seqs0.Keys && name in pending
    requires d.Keys == d0.Keys + (seqs0.Keys - pending) + ParametersKeys(seqs0.Keys - pending)
    ensures var done := seqs0.Keys - (pending - {name});
      d[name := entry][ParametersKey(name) := Entry("JDL", List(sequence))].Keys
        == d0.Keys + done + ParametersKeys(done)
  {
    var done := seqs0.Keys - pending;
    assert seqs0.Keys - (pending - {name}) == done + {name};
    ParametersKeysAdd(done, name);
  }

  /** Handling one more name keeps the progress of the others. */
  lemma ProgressStep(d0: ParamsDict, seqs0: map<string, seq<Value>>, pending: set<string>,
                     d: ParamsDict, seqs: map<string, seq<Value>>, name: string)
    requires NoClash(seqs0.Keys) && pending <= seqs0.Keys && name in pending
    requires seqs.Keys == seqs0.Keys && forall p :: p in pending ==> seqs[p] == seqs0[p]
    requires Progress(d0, seqs0, pending, d, seqs)
    requires SequenceEntry(Lookup(d, name), name, seqs[name]).Ok?
    ensures var step := SequenceEntry(Lookup(d, name), name, seqs[name]).value;
      Progress(d0, seqs0, pending - {name},
               d[name := step.0][ParametersKey(name) := Entry("JDL", List(step.1))], seqs[name := step.1])
  {
    var step := SequenceEntry(Lookup(d, name), name, seqs[name]).value;
    ProgressStepApplied(d0, seqs0, pending, d, seqs, name, step.0, step.1);
    ProgressStepUntouched(d0, seqs0, pending, d, name, step.0, step.1);
    ProgressStepKeys(d0, seqs0, pending, d, name, step.0, step.1);
  }

  /** With every name handled, the dictionary is rewritten as a whole. */
  lemma ProgressDone(d0: ParamsDict, seqs0: map<string, seq<Value>>, d: ParamsDict, seqs: map<string, seq<Value>>)
    requires seqs.Keys == seqs0.Keys
    requires Progress(d0, seqs0, {}, d, seqs)
    ensures SequencesRewritten(d0, seqs0, d, seqs)
  {
    assert seqs0.Keys - {} == seqs0.Keys;
    forall k | k in d0 && k !in seqs0 && k !in ParametersKeys(seqs0.Keys)
      ensures d[k] == d0[k]
    {
      assert Lookup(d, k) == Lookup(d0, k);
    }
  }

  /** Visiting one more pending name extends the ordering of the visited ones. */
  lemma VisitOneMore(visited: seq<string>, name: string, names: set<string>, pending: set<string>)
    requires pending <= names && name in pending
    requires IsOrdering(visited, names - pending)
    ensures IsOrdering(visited + [name], names - (pending - {name}))
  {
    ElementsConcat(visited, [name]);
    assert name !in Elements(visited);
    assert forall i :: 0 <= i < |visited| ==> (visited + [name])[i] == visited[i] && visited[i] in Elements(visited);
  }

  /** The storage element names of a string-or-list argument. */
  function SeNames(a: Arg): seq<string>
    requires !a.OtherArg?
    reads ArrayOf(a)
  {
    if a.StrArg? then [a.s] else a.items[..]
  }

  /** Regrouping appended runs of parameters; stated once so that the
      proof of `setOutputData` need not rediscover it. */
  lemma AppendAssociative(a: seq<Param>, b: seq<Param>, c: seq<Param>)
    ensures a + (b + c) == a + b + c
  {
  }

  /** The names of a run of parameters, in order. */
  function Names(ps: seq<Param>): (r: seq<string>)
    ensures |r| == |ps| && forall i :: 0 <= i < |ps| ==> r[i] == ps[i].name
  {
    seq(|ps|, i requires 0 <= i < |ps| => ps[i].name)
  }

  function OutputDataParam(lfns: Arg): Param
    requires AcceptsListOrString(lfns)
    reads ArrayOf(lfns)
  {
    InputParam("OutputData", "JDL", Str(Joined(lfns)),
               if lfns.StrArg? then "Output data file" else "List of output data files")
  }

  function OutputSEParams(outputSE: Arg): seq<Param>
    requires !(outputSE.OtherArg? && outputSE.truthy)
    reads ArrayOf(outputSE)
  {
    if ArgTruthy(outputSE)
    then [InputParam("OutputSE", "JDL", Str(OutputSEValue(SeNames(outputSE))), "User specified Output SE")]
    else []
  }

  /** The output path part of `setOutputData`: nothing when no path is
      given, else the path without its leading slashes. */
  function OutputPathEffect(outputPath: Arg): (e: (seq<Param>, Result<()>))
    ensures forall i :: 0 <= i < |e.0| ==> e.0[i].ptype == "JDL" && e.0[i].isInput && !e.0[i].isOutput
    ensures e.1.Ok? <==>
      !ArgTruthy(outputPath) || (outputPath.StrArg? && exists i :: 0 <= i < |outputPath.s| && outputPath.s[i] != '/')
    ensures e.1.Raised? <==>
      outputPath.StrArg? && outputPath.s != "" && forall i :: 0 <= i < |outputPath.s| ==> outputPath.s[i] == '/'
    ensures e.1.Raised? ==> e.1.exception == "IndexError"
    ensures ArgTruthy(outputPath) && !outputPath.StrArg? ==> e.1 == Error("Expected string for OutputPath")
    ensures !e.1.Ok? || !ArgTruthy(outputPath) <==> e.0 == []
    ensures e.1.Ok? && ArgTruthy(outputPath) ==>
      && |e.0| == 1 && e.0[0].name == "OutputPath"
      && var stored := e.0[0].value;
      && stored.Str? && |stored.s| > 0 && stored.s[0] != '/'
      && EndsWith(outputPath.s, stored.s)
      && forall i :: 0 <= i < |outputPath.s| - |stored.s| ==> outputPath.s[i] == '/'
  {
    if !ArgTruthy(outputPath) then ([], Ok(()))
    else if !outputPath.StrArg? then ([], Error("Expected string for OutputPath"))
    else
      var path := LeadingSlashesStripped(outputPath.s);
      if path.Ok? then ([InputParam("OutputPath", "JDL", Str(path.value), "User specified Output Path")], Ok(()))
      else ([], path.PropagateFailure())
  }

  /** What `setOutputData` appends to the workflow and what it returns. The
      output files come first and stay recorded whatever fails later. */
  function OutputDataEffect(lfns: Arg, outputSE: Arg, outputPath: Arg): (e: (seq<Param>, Result<()>))
    reads ArrayOf(lfns), ArrayOf(outputSE)
    ensures !AcceptsListOrString(lfns) <==> e.0 == []
    ensures AcceptsListOrString(lfns) ==> e.0[0].name == "OutputData" && e.0[0].value == Str(Joined(lfns))
  {
    if !AcceptsListOrString(lfns) then
      ([], Error("Expected file name string or list of file names for output data"))
    else if outputSE.OtherArg? && outputSE.truthy then
      ([OutputDataParam(lfns)], Error("Expected string or list for OutputSE"))
    else
      var path := OutputPathEffect(outputPath);
      ([OutputDataParam(lfns)] + OutputSEParams(outputSE) + path.0, path.1)
  }

  /** When `setOutputData` succeeds, fails or raises: the storage elements
      must be a string or a list, the path a string holding something besides
      slashes; a path made only of slashes raises IndexError. */
  lemma OutputDataResult(lfns: Arg, outputSE: Arg, outputPath: Arg)
    ensures var e := OutputDataEffect(lfns, outputSE, outputPath);
      && (e.1.Ok? <==>
            && AcceptsListOrString(lfns) && !(outputSE.OtherArg? && outputSE.truthy)
            && (!ArgTruthy(outputPath) || (outputPath.StrArg? && exists i :: 0 <= i < |outputPath.s| && outputPath.s[i] != '/')))
      && (e.1.Raised? <==>
            && AcceptsListOrString(lfns) && !(outputSE.OtherArg? && outputSE.truthy)
            && outputPath.StrArg? && outputPath.s != "" && forall i :: 0 <= i < |outputPath.s| ==> outputPath.s[i] == '/')
      && (e.1.Raised? ==> e.1.exception == "IndexError")
      && (!AcceptsListOrString(lfns) ==> e.1 == Error("Expected file name string or list of file names for output data"))
      && (AcceptsListOrString(lfns) && outputSE.OtherArg? && outputSE.truthy ==>
            e.1 == Error("Expected string or list for OutputSE") && |e.0| == 1)
      && (AcceptsListOrString(lfns) && !(outputSE.OtherArg? && outputSE.truthy) && ArgTruthy(outputPath) && !outputPath.StrArg? ==>
            e.1 == Error("Expected string for OutputPath"))
  {
    if AcceptsListOrString(lfns) && !(outputSE.OtherArg? && outputSE.truthy) {
      assert OutputDataEffect(lfns, outputSE, outputPath).1 == OutputPathEffect(outputPath).1;
    }
  }

  /** Every parameter `setOutputData` records is an input parameter of type
      JDL. */
  lemma OutputDataInputs(lfns: Arg, outputSE: Arg, outputPath: Arg)
    ensures var e := OutputDataEffect(lfns, outputSE, outputPath);
      forall i :: 0 <= i < |e.0| ==> e.0[i].ptype == "JDL" && e.0[i].isInput && !e.0[i].isOutput
  {
    var e := OutputDataEffect(lfns, outputSE, outputPath);
    if e.0 != [] && !(outputSE.OtherArg? && outputSE.truthy) {
      var head := [OutputDataParam(lfns)] + OutputSEParams(outputSE);
      var path := OutputPathEffect(outputPath);
      assert e.0 == head + path.0;
      assert forall i :: 0 <= i < |head| ==> head[i].ptype == "JDL" && head[i].isInput && !head[i].isOutput;
    }
  }

  /** A successful `setOutputData` records OutputData, then OutputSE when
      storage elements are given, then OutputPath when a path is given. */
  lemma OutputDataNames(lfns: Arg, outputSE: Arg, outputPath: Arg)
    ensures var e := OutputDataEffect(lfns, outputSE, outputPath);
      e.1.Ok? ==>
        Names(e.0) == ["OutputData"] + (if ArgTruthy(outputSE) then ["OutputSE"] else [])
                                     + (if ArgTruthy(outputPath) then ["OutputPath"] else [])
  {
    var e := OutputDataEffect(lfns, outputSE, outputPath);
    if e.1.Ok? {
      var head := [OutputDataParam(lfns)];
      var se := OutputSEParams(outputSE);
      var path := OutputPathEffect(outputPath).0;
      assert e.0 == head + se + path;
      var seNames: seq<string> := if ArgTruthy(outputSE) then ["OutputSE"] else [];
      var pathNames: seq<string> := if ArgTruthy(outputPath) then ["OutputPath"] else [];
      assert Names(head) == ["OutputData"];
      assert Names(se) == seNames;
      assert Names(path) == pathNames;
      NamesOfParts(head, se, path, ["OutputData"], seNames, pathNames);
    }
  }

  /** The output path a successful `setOutputData` records last: never
      empty and never starting with '/', the given path behind nothing but
      slashes. */
  lemma OutputDataPath(lfns: Arg, outputSE: Arg, outputPath: Arg)
    ensures var e := OutputDataEffect(lfns, outputSE, outputPath);
      e.1.Ok? && ArgTruthy(outputPath) ==>
        && var stored := e.0[|e.0| - 1].value;
        && stored.Str? && |stored.s| > 0 && stored.s[0] != '/'
        && EndsWith(outputPath.s, stored.s)
        && forall i :: 0 <= i < |outputPath.s| - |stored.s| ==> outputPath.s[i] == '/'
  {
    var e := OutputDataEffect(lfns, outputSE, outputPath);
    if e.1.Ok? && ArgTruthy(outputPath) {
      var head := [OutputDataParam(lfns)] + OutputSEParams(outputSE);
      var path := OutputPathEffect(outputPath);
      assert e.0 == head + path.0;
      assert e.0[|e.0| - 1] == path.0[0];
    }
  }

  lemma NamesOfParts(a: seq<Param>, b: seq<Param>, c: seq<Param>, na: seq<string>, nb: seq<string>, nc: seq<string>)
    requires Names(a) == na && Names(b) == nb && Names(c) == nc
    ensures Names(a + b + c) == na + nb + nc
  {
    assert Names(a + b) == na + nb;
  }

  /** The outcome of `_handleParameterSequences` on the dictionary `d0`
      with the sequences `seqs0`: no sequence changes length; when the
      rewritten names cannot clash, it succeeds exactly when every
      sequence's entry can be rewritten, and then every entry is; the
      arguments gain one workflow argument per sequence, in some order of
      the names. */
  ghost predicate SequencesHandled(d0: ParamsDict, seqs0: map<string, seq<Value>>, wf: map<string, string>,
                                   arguments: seq<string>, r: Result<(ParamsDict, seq<string>)>,
                                   seqs: map<string, seq<Value>>)
  {
    && !r.Error?
    && seqs.Keys == seqs0.Keys
    && (forall p :: p in seqs ==> |seqs[p]| == |seqs0[p]|)
    && (r.Ok? ==> exists order :: IsOrdering(order, seqs0.Keys) &&
                                  r.value.1 == arguments + SequenceArguments(order, wf))
    && (NoClash(seqs0.Keys) ==>
          (r.Ok? <==> forall p :: p in seqs0 ==> SequenceEntry(Lookup(d0, p), p, seqs0[p]).Ok?))
    && (NoClash(seqs0.Keys) && r.Ok? ==> SequencesRewritten(d0, seqs0, r.value.0, seqs))
    && (NoClash(seqs0.Keys) && r.Raised? ==> forall p :: p in seqs ==> SequenceKeptOrStepped(d0, seqs0, seqs, p))
    && (NoClash(seqs0.Keys) && r.Raised? ==> exists p :: p in seqs0 && StepRaised(d0, seqs0, p, r))
  }

  /** `r` is the exception raised by the step of the name `p` on the
      original dictionary and sequences. */
  ghost predicate StepRaised(d0: ParamsDict, seqs0: map<string, seq<Value>>, p: string,
                             r: Result<(ParamsDict, seq<string>)>)
    requires p in seqs0
  {
    var step := SequenceEntry(Lookup(d0, p), p, seqs0[p]);
    !step.Ok? && r == step.PropagateFailure()
  }

  /** With no clashing names, the handling raises only as `extend` does:
      IndexError for an empty sequence, TypeError for a sequence mixing
      lists and scalars, each under a list-valued JDL entry. */
  lemma SequencesRaiseOnlyFromExtend(d0: ParamsDict, seqs0: map<string, seq<Value>>, wf: map<string, string>,
                                     arguments: seq<string>, r: Result<(ParamsDict, seq<string>)>,
                                     seqs: map<string, seq<Value>>)
    requires SequencesHandled(d0, seqs0, wf, arguments, r, seqs)
    requires NoClash(seqs0.Keys) && r.Raised?
    ensures exists p :: (p in seqs0 && p != "InputSandbox" && p in d0 && IsJDLType(d0[p].ptype) &&
                         d0[p].value.List? && r.exception == (if |seqs0[p]| == 0 then "IndexError" else "TypeError"))
  {
    var p :| p in seqs0 && StepRaised(d0, seqs0, p, r);
    assert p != "InputSandbox" && p in d0 && IsJDLType(d0[p].ptype) && d0[p].value.List?;
  }

  /** After a step raised, a sequence is either as it was or, for a name
      handled before, the sequence its step produced. */
  ghost predicate SequenceKeptOrStepped(d0: ParamsDict, seqs0: map<string, seq<Value>>,
                                        seqs: map<string, seq<Value>>, p: string)
    requires p in seqs0 && p in seqs
  {
    var step := SequenceEntry(Lookup(d0, p), p, seqs0[p]);
    seqs[p] == seqs0[p] || (step.Ok? && seqs[p] == step.value.1)
  }

  /** The invariant of the loop of `_handleParameterSequences` over the
      names still `pending`. */
  ghost predicate SequenceLoop(d0: ParamsDict, seqs0: map<string, seq<Value>>, wf: map<string, string>,
                               arguments: seq<string>, pending: set<string>, visited: seq<string>,
                               d: ParamsDict, seqs: map<string, seq<Value>>, args: seq<string>)
  {
    && pending <= seqs0.Keys
    && seqs.Keys == seqs0.Keys
    && IsOrdering(visited, seqs0.Keys - pending)
    && args == arguments + SequenceArguments(visited, wf)
    && (forall p :: p in pending ==> seqs[p] == seqs0[p])
    && (forall p :: p in seqs ==> |seqs[p]| == |seqs0[p]|)
    && (NoClash(seqs0.Keys) ==> Progress(d0, seqs0, pending, d, seqs))
  }

  /** One more handled name keeps the loop invariant. */
  lemma SequenceLoopStep(d0: ParamsDict, seqs0: map<string, seq<Value>>, wf: map<string, string>,
                         arguments: seq<string>, pending: set<string>, visited: seq<string>,
                         d: ParamsDict, seqs: map<string, seq<Value>>, args: seq<string>, name: string,
                         entry: Entry, sequence: seq<Value>)
    requires SequenceLoop(d0, seqs0, wf, arguments, pending, visited, d, seqs, args)
    requires name in pending
    requires SequenceEntry(Lookup(d, name), name, seqs[name]) == Ok((entry, sequence))
    ensures SequenceLoop(d0, seqs0, wf, arguments, pending - {name}, visited + [name],
                         d[name := entry][ParametersKey(name) := Entry("JDL", List(sequence))],
                         seqs[name := sequence],
                         if name in wf then args + [SequenceArgument(name, wf[name])] else args)
  {
    if NoClash(seqs0.Keys) {
      ProgressStep(d0, seqs0, pending, d, seqs, name);
    }
    VisitOneMore(visited, name, seqs0.Keys, pending);
    SequenceArgumentsAppend(visited, name, wf);
    SequenceLengthsKept(seqs0, pending, seqs, name, sequence);
  }

  /** Replacing a pending sequence by one of the same length keeps the
      other pending sequences and every length. */
  lemma SequenceLengthsKept(seqs0: map<string, seq<Value>>, pending: set<string>,
                            seqs: map<string, seq<Value>>, name: string, sequence: seq<Value>)
    requires name in pending && pending <= seqs0.Keys && seqs.Keys == seqs0.Keys
    requires forall p :: p in pending ==> seqs[p] == seqs0[p]
    requires forall p :: p in seqs ==> |seqs[p]| == |seqs0[p]|
    requires |sequence| == |seqs[name]|
    ensures forall p :: p in pending - {name} ==> seqs[name := sequence][p] == seqs0[p]
    ensures forall p :: p in seqs[name := sequence] ==> |seqs[name := sequence][p]| == |seqs0[p]|
  {
  }

  /** A step that raises ends the handling: when the rewritten names cannot
      clash, it is a step of the original dictionary that raises. */
  lemma SequenceLoopFails(d0: ParamsDict, seqs0: map<string, seq<Value>>, wf: map<string, string>,
                          arguments: seq<string>, pending: set<string>, visited: seq<string>,
                          d: ParamsDict, seqs: map<string, seq<Value>>, args: seq<string>, name: string,
                          r: Result<(ParamsDict, seq<string>)>)
    requires SequenceLoop(d0, seqs0, wf, arguments, pending, visited, d, seqs, args)
    requires name in pending
    requires !SequenceEntry(Lookup(d, name), name, seqs[name]).Ok?
    requires r == SequenceEntry(Lookup(d, name), name, seqs[name]).PropagateFailure()
    ensures SequencesHandled(d0, seqs0, wf, arguments, r, seqs)
  {
    if NoClash(seqs0.Keys) {
      PendingUntouched(d0, seqs0, pending, d, seqs, name);
      assert StepRaised(d0, seqs0, name, r);
      forall p | p in seqs
        ensures SequenceKeptOrStepped(d0, seqs0, seqs, p)
      {
        if p !in pending {
          assert StepApplied(d0, seqs0, d, seqs, p);
        }
      }
    }
  }

  /** With no name pending, the handling is complete. */
  lemma SequenceLoopDone(d0: ParamsDict, seqs0: map<string, seq<Value>>, wf: map<string, string>,
                         arguments: seq<string>, visited: seq<string>,
                         d: ParamsDict, seqs: map<string, seq<Value>>, args: seq<string>)
    requires SequenceLoop(d0, seqs0, wf, arguments, {}, visited, d, seqs, args)
    ensures SequencesHandled(d0, seqs0, wf, arguments, Ok((d, args)), seqs)
  {
    assert seqs0.Keys - {} == seqs0.Keys;
    if NoClash(seqs0.Keys) {
      ProgressDone(d0, seqs0, d, seqs);
      forall p | p in seqs0
        ensures SequenceEntry(Lookup(d0, p), p, seqs0[p]).Ok?
      {
        assert StepApplied(d0, seqs0, d, seqs, p);
      }
    }
  }

  /** Keeping every sequence's length keeps the sequences consistent with
      the number of parameters. */
  lemma ConsistentKept(seqs0: map<string, seq<Value>>, seqs: map<string, seq<Value>>, n: nat)
    requires seqs.Keys == seqs0.Keys && forall p :: p in seqs ==> |seqs[p]| == |seqs0[p]|
    ensures (forall p :: p in seqs0 ==> |seqs0[p]| == n || |seqs0[p]| == 0) ==>
      forall p :: p in seqs ==> |seqs[p]| == n || |seqs[p]| == 0
  {
  }

  /** The input sandbox after `_toJDL` removed the script name, stdout and
      stderr from it, once each when present. */
  function Cleaned(inputSandbox: seq<string>, scriptName: string, stdout: string, stderr: string): seq<string>
  {
    RemoveFirst(RemoveFirst(RemoveFirst(inputSandbox, scriptName), stdout), stderr)
  }

  /** The rendering loop of `_toJDL` reads `value[0]` of every list held by
      an entry whose type starts with "JDL"; an empty one raises. */
  predicate RenderRaises(d: ParamsDict)
  {
    exists k :: k in d && IsPrefix("JDL", d[k].ptype) && d[k].value == List([])
  }

  /** The outcome of rendering the dictionary and the arguments. */
  function Rendered(d: ParamsDict, arguments: seq<string>): Result<(ParamsDict, seq<string>)>
  {
    if RenderRaises(d) then Raised("IndexError") else Ok((d, arguments))
  }

  /** An empty parameter sequence cannot be rendered: its `Parameters.`
      entry is an empty JDL list. */
  lemma EmptySequenceNotRendered(d0: ParamsDict, seqs0: map<string, seq<Value>>,
                                 d: ParamsDict, seqs: map<string, seq<Value>>, p: string,
                                 arguments: seq<string>)
    requires SequencesRewritten(d0, seqs0, d, seqs)
    requires p in seqs0 && |seqs0[p]| == 0
    ensures RenderRaises(d)
    ensures Rendered(d, arguments) == Raised("IndexError")
  {
  }

  /** The end of `_toJDL` from the merged dictionary `d`: the sequences are
      handled when there are parameters (giving `handled` and the new
      sequences `seqs`), otherwise nothing changes; a dictionary that comes
      through is then rendered. */
  ghost predicate SequencesThenRendered(d: ParamsDict, seqs0: map<string, seq<Value>>, wf: map<string, string>,
                                        n: nat, arguments: seq<string>, handled: Result<(ParamsDict, seq<string>)>,
                                        seqs: map<string, seq<Value>>, r: Result<(ParamsDict, seq<string>)>)
  {
    && (n == 0 ==> handled == Ok((d, arguments)) && seqs == seqs0)
    && (n > 0 ==> SequencesHandled(d, seqs0, wf, arguments, handled, seqs))
    && r == if handled.Ok? then Rendered(handled.value.0, handled.value.1) else handled
  }

  class Job {
    /** The parameters added to the job's workflow, oldest first. */
    var workflow: seq<Param>
    var numberOfParameters: nat
    var parameterSeqs: map<string, seq<Value>>
    var wfArguments: map<string, string>
    var addToInputSandbox: seq<string>
    var addToOutputSandbox: seq<string>
    var addToInputData: seq<string>
    /** The sites known to the configuration when the job was made. */
    const siteSet: set<string>
    const stdout: string
    const stderr: string

    /** Every stored sequence is empty or as long as the job's parameter count. */
    ghost predicate SequencesConsistent()
      reads this
    {
      forall name :: name in parameterSeqs ==>
        |parameterSeqs[name]| == numberOfParameters || |parameterSeqs[name]| == 0
    }

    /** A job made without a workflow script, for the VO `group` of the
        caller's proxy and the sites `sites` of the configuration. */
    constructor (sites: set<string>, group: string, stdout: string, stderr: string)
      ensures workflow == DefaultParameters(group, stdout, stderr)
      ensures numberOfParameters == 0 && parameterSeqs == map[] && wfArguments == map[]
      ensures addToInputSandbox == [] && addToOutputSandbox == [] && addToInputData == []
      ensures siteSet == sites && this.stdout == stdout && this.stderr == stderr
      ensures SequencesConsistent()
    {
      workflow := DefaultParameters(group, stdout, stderr);
      numberOfParameters := 0;
      parameterSeqs := map[];
      wfArguments := map[];
      addToInputSandbox := [];
      addToOutputSandbox := [];
      addToInputData := [];
      siteSet := sites;
      this.stdout := stdout;
      this.stderr := stderr;
    }

    /** `_addParameter`: records one parameter, flagged as input or output. */
    method AddParameter(name: string, ptype: string, value: Value, description: string, io: string)
      returns (r: Result<()>)
      modifies this`workflow
      ensures IoFlags(io).Ok? ==>
        r == Ok(()) &&
        workflow == old(workflow) + [Param(name, ptype, value, description, IoFlags(io).value.0, IoFlags(io).value.1)]
      ensures !IoFlags(io).Ok? ==> r == Raised("TypeError") && workflow == old(workflow)
    {
      var inBool, outBool;
      if io == "input" {
        inBool, outBool := true, false;
      } else if io == "output" {
        inBool, outBool := false, true;
      } else {
        return Raised("TypeError");
      }
      workflow := workflow + [Param(name, ptype, value, description, inBool, outBool)];
      r := Ok(());
    }

    /** `setOutputSandbox`. */
    method SetOutputSandbox(files: Arg) returns (r: Result<()>)
      modifies this`workflow
      ensures AcceptsListOrString(files) ==>
        r == Ok(()) &&
        workflow == old(workflow) + [InputParam("OutputSandbox", "JDL", Str(Joined(files)),
                                                if files.StrArg? then "Output sandbox file" else "Output sandbox file list")]
      ensures !AcceptsListOrString(files) ==>
        r == Error("Expected file string or list of files for output sandbox contents") && workflow == old(workflow)
    {
      if files.ListArg? && files.items.Length > 0 {
        var added := AddParameter("OutputSandbox", "JDL", Str(Join(files.items[..], ";")), "Output sandbox file list", "input");
      } else if files.StrArg? {
        var added := AddParameter("OutputSandbox", "JDL", Str(files.s), "Output sandbox file", "input");
      } else {
        return Error("Expected file string or list of files for output sandbox contents");
      }
      r := Ok(());
    }

    /** `setInputData`: strips every `LFN:` from the list entries in place,
        then stores them each with one `LFN:` in front. */
    method SetInputData(lfns: Arg) returns (r: Result<()>)
      modifies this`workflow, ArrayOf(lfns)
      ensures lfns.ListArg? && lfns.items.Length > 0 ==>
        && r == Ok(())
        && lfns.items[..] == seq(lfns.items.Length, i requires 0 <= i < lfns.items.Length reads lfns.items =>
                                   RemoveAll(old(lfns.items[i]), "LFN:"))
        && workflow == old(workflow) + [InputParam("InputData", "JDL", Str(InputDataValue(old(lfns.items[..]))),
                                                   "List of input data specified by LFNs")]
      ensures lfns.StrArg? ==>
        r == Ok(()) &&
        workflow == old(workflow) + [InputParam("InputData", "JDL", Str(lfns.s), "Input data specified by LFN")]
      ensures !AcceptsListOrString(lfns) ==>
        r == Error("Expected lfn string or list of lfns for input data") && workflow == old(workflow)
    {
      if lfns.ListArg? && lfns.items.Length > 0 {
        var a := lfns.items;
        ghost var original := a[..];
        for i := 0 to a.Length
          modifies a
          invariant forall j :: 0 <= j < i ==> a[j] == RemoveAll(original[j], "LFN:")
          invariant forall j :: i <= j < a.Length ==> a[j] == original[j]
        {
          a[i] := RemoveAll(a[i], "LFN:");
        }
        var cleaned := a[..];
        var inputData := seq(|cleaned|, j requires 0 <= j < |cleaned| => "LFN:" + cleaned[j]);
        assert inputData == seq(|original|, j requires 0 <= j < |original| => WithLfnPrefix(original[j]));
        assert Join(inputData, ";") == InputDataValue(original);
        var added := AddParameter("InputData", "JDL", Str(Join(inputData, ";")), "List of input data specified by LFNs", "input");
      } else if lfns.StrArg? {
        var added := AddParameter("InputData", "JDL", Str(lfns.s), "Input data specified by LFN", "input");
      } else {
        return Error("Expected lfn string or list of lfns for input data");
      }
      r := Ok(());
    }

    /** `setParameterSequence`: while the number of parameters is zero a
        sequence sets it to its own length; otherwise a sequence of another
        length is refused. */
    method SetParameterSequence(name: string, parameterList: seq<Value>, addToWorkflow: WorkflowFlag)
      returns (r: Result<()>)
      modifies this`numberOfParameters, this`parameterSeqs, this`wfArguments
      ensures old(numberOfParameters) != 0 && old(numberOfParameters) != |parameterList| ==>
        && r == Error("Parameter sequences of different length")
        && numberOfParameters == old(numberOfParameters)
        && parameterSeqs == old(parameterSeqs) && wfArguments == old(wfArguments)
      ensures old(numberOfParameters) == 0 || old(numberOfParameters) == |parameterList| ==>
        && r == Ok(())
        && numberOfParameters == |parameterList|
        && parameterSeqs == old(parameterSeqs)[name := parameterList]
        && wfArguments == (match WorkflowArgument(name, addToWorkflow)
                           case Some(argument) => old(wfArguments)[name := argument]
                           case None => old(wfArguments))
      ensures old(SequencesConsistent()) ==> SequencesConsistent()
    {
      if numberOfParameters == 0 {
        numberOfParameters := |parameterList|;
      } else if numberOfParameters != |parameterList| {
        return Error("Parameter sequences of different length");
      }
      parameterSeqs := parameterSeqs[name := parameterList];
      match addToWorkflow {
        case Named(argument) =>
          if argument != "" {
            wfArguments := wfArguments[name := argument];
          }
        case Flag(b) =>
          if b {
            wfArguments := wfArguments[name := name];
          }
      }
      r := Ok(());
    }

    /** `setInputDataPolicy`: the policy is matched case-insensitively and
        its module location read from the Operations option
        `InputDataPolicy/<policy>`, given here as `operations`. */
    method SetInputDataPolicy(policy: string, dataScheduling: bool, operations: map<string, string>)
      returns (r: Result<()>)
      modifies this`workflow
      ensures Lower(policy) != "download" && Lower(policy) != "protocol" ==>
        r == Error("Expected one of Download, Protocol for input data policy") && workflow == old(workflow)
      ensures Lower(policy) == "download" || Lower(policy) == "protocol" ==>
        var option := "InputDataPolicy/" + (if Lower(policy) == "download" then "Download" else "Protocol");
        var jobPolicy := if option in operations then operations[option] else "";
        if jobPolicy == "" then
          r == Error("Could not get value for Operations option " + option) && workflow == old(workflow)
        else
          && workflow == old(workflow)
                         + [InputParam("InputDataPolicy", "JDL", Str(jobPolicy), "User specified input data policy")]
                         + (if !dataScheduling && Lower(policy) == "download"
                            then [InputParam("DisableDataScheduling", "JDL", Str("True"), "Disable scheduling by input data")]
                            else [])
          && (r.Ok? <==> dataScheduling || Lower(policy) == "download")
          && (!r.Ok? ==> r == Error("Expected policy to be \"download\" for bypassing data scheduling"))
    {
      var finalPolicy := MatchPolicy(policy);
      if finalPolicy == "" {
        return Error("Expected one of Download, Protocol for input data policy");
      }
      var option := "InputDataPolicy/" + finalPolicy;
      var jobPolicy := if option in operations then operations[option] else "";
      if jobPolicy == "" {
        return Error("Could not get value for Operations option " + option);
      }
      var added := AddParameter("InputDataPolicy", "JDL", Str(jobPolicy), "User specified input data policy", "input");
      if !dataScheduling && Lower(policy) == "download" {
        added := AddParameter("DisableDataScheduling", "JDL", Str("True"), "Disable scheduling by input data", "input");
      }
      if !dataScheduling && Lower(policy) != "download" {
        return Error("Expected policy to be \"download\" for bypassing data scheduling");
      }
      r := Ok(());
    }

    /** `setOutputData`: appends the parameters `OutputDataEffect` names,
        in order, and returns its result. */
    method SetOutputData(lfns: Arg, outputSE: Arg, outputPath: Arg) returns (r: Result<()>)
      modifies this`workflow
      ensures workflow == old(workflow + OutputDataEffect(lfns, outputSE, outputPath).0)
      ensures r == old(OutputDataEffect(lfns, outputSE, outputPath).1)
    {
      ghost var w0 := workflow;
      ghost var e := OutputDataEffect(lfns, outputSE, outputPath);
      ghost var sep := if outputSE.OtherArg? && outputSE.truthy then [] else OutputSEParams(outputSE);
      ghost var path := OutputPathEffect(outputPath);
      r := AddOutputFiles(lfns);
      if !r.Ok? {
        return;
      }
      ghost var head := [OutputDataParam(lfns)];
      assert workflow == w0 + head;
      r := AddOutputSE(outputSE);
      if !r.Ok? {
        return;
      }
      assert e == (head + sep + path.0, path.1);
      AppendAssociative(w0, head, sep);
      r := AddOutputPath(outputPath);
      AppendAssociative(w0, head + sep, path.0);
    }

    /** The output files block of `setOutputData`. */
    method AddOutputFiles(lfns: Arg) returns (r: Result<()>)
      modifies this`workflow
      ensures !AcceptsListOrString(lfns) ==>
        r == Error("Expected file name string or list of file names for output data") && workflow == old(workflow)
      ensures AcceptsListOrString(lfns) ==> r == Ok(()) && workflow == old(workflow + [OutputDataParam(lfns)])
    {
      if lfns.ListArg? && lfns.items.Length > 0 {
        r := AddParameter("OutputData", "JDL", Str(Join(lfns.items[..], ";")), "List of output data files", "input");
      } else if lfns.StrArg? {
        r := AddParameter("OutputData", "JDL", Str(lfns.s), "Output data file", "input");
      } else {
        r := Error("Expected file name string or list of file names for output data");
      }
    }

    /** The storage element block of `setOutputData`. */
    method AddOutputSE(outputSE: Arg) returns (r: Result<()>)
      modifies this`workflow
      ensures outputSE.OtherArg? && outputSE.truthy ==>
        r == Error("Expected string or list for OutputSE") && workflow == old(workflow)
      ensures !(outputSE.OtherArg? && outputSE.truthy) ==>
        r == Ok(()) && workflow == old(workflow + OutputSEParams(outputSE))
    {
      if ArgTruthy(outputSE) {
        var ses;
        match outputSE {
          case StrArg(s) =>
            ses := [s];
          case ListArg(items) =>
            ses := items[..];
          case OtherArg(_) =>
            return Error("Expected string or list for OutputSE");
        }
        assert ses == SeNames(outputSE);
        var added := AddParameter("OutputSE", "JDL", Str(OutputSEValue(ses)), "User specified Output SE", "input");
      } else {
        assert workflow + [] == workflow;
      }
      r := Ok(());
    }

    /** The output path block of `setOutputData`. */
    method AddOutputPath(outputPath: Arg) returns (r: Result<()>)
      modifies this`workflow
      ensures workflow == old(workflow) + OutputPathEffect(outputPath).0
      ensures r == OutputPathEffect(outputPath).1
    {
      if ArgTruthy(outputPath) {
        if !outputPath.StrArg? {
          return Error("Expected string for OutputPath");
        }
        var path := StripLeadingSlashes(outputPath.s);
        if !path.Ok? {
          return path.PropagateFailure();
        }
        var added := AddParameter("OutputPath", "JDL", Str(path.value), "User specified Output Path", "input");
      }
      r := Ok(());
    }

    /** `__checkSiteIsValid`: every named site must be known. */
    function CheckSiteIsValid(site: SiteSpec): (r: Result<()>)
      ensures r.Ok? <==> match site
                         case SiteCollection(names) => Elements(names) <= siteSet
                         case SiteName(name) => name in siteSet
      ensures !r.Raised?
      ensures site.SiteName? && !r.Ok? ==> r == Error("Specified site " + site.name + " is not in list of defined sites")
    {
      match site
      case SiteCollection(names) =>
        var unknown := Unknown(names, siteSet);
        if unknown == [] then
          NoUnknown(names, siteSet);
          Ok(())
        else
          assert unknown[0] in Elements(unknown);
          Error("Specified site set(" + ListRepr(unknown) + ") is not in list of defined sites")
      case SiteName(name) =>
        if name in siteSet then Ok(()) else Error("Specified site " + name + " is not in list of defined sites")
    }

    /** `setDestination`: the requested sites, except 'any', must be known;
        all entries are stored joined by ';'. */
    method SetDestination(destination: Arg) returns (r: Result<()>)
      modifies this`workflow
      ensures destination.OtherArg? ==>
        r == Error("Invalid destination site, expected string or list") && workflow == old(workflow)
      ensures !destination.OtherArg? ==>
        var dest := DestinationList(destination);
        && (r.Ok? <==> forall site :: site in dest && Lower(site) != "any" ==> site in siteSet)
        && (r.Ok? ==> workflow == old(workflow) + [InputParam("Site", "JDL", Str(Join(dest, ";")),
                                                               if destination.StrArg? then "User specified destination site"
                                                               else "List of sites selected by user")])
        && (!r.Ok? ==> r == Error(ListRepr(dest) + " is not a valid destination site") && workflow == old(workflow))
    {
      var dest, description;
      match destination {
        case StrArg(s) =>
          dest := Split(RemoveAll(s, " "), ',');
          description := "User specified destination site";
        case ListArg(items) =>
          dest := items[..];
          description := "List of sites selected by user";
        case OtherArg(_) =>
          return Error("Invalid destination site, expected string or list");
      }
      var sites := RequestedSites(dest);
      RequestedSitesElements(dest);
      assert (forall site :: site in dest && Lower(site) != "any" ==> site in siteSet) <==> Elements(sites) <= siteSet;
      if sites != [] {
        var valid := CheckSiteIsValid(SiteCollection(sites));
        if !valid.Ok? {
          return Error(ListRepr(dest) + " is not a valid destination site");
        }
      }
      var added := AddParameter("Site", "JDL", Str(Join(dest, ";")), description, "input");
      r := Ok(());
    }

    /** `setBannedSites`. */
    method SetBannedSites(sites: Arg) returns (r: Result<()>)
      modifies this`workflow
      ensures AcceptsListOrString(sites) ==>
        r == Ok(()) &&
        workflow == old(workflow) + [InputParam("BannedSites", "JDL", Str(Joined(sites)),
                                                if sites.StrArg? then "Site excluded by user" else "List of sites excluded by user")]
      ensures !AcceptsListOrString(sites) ==>
        r == Error("Expected site string or list of sites") && workflow == old(workflow)
    {
      if sites.ListArg? && sites.items.Length > 0 {
        var added := AddParameter("BannedSites", "JDL", Str(Join(sites.items[..], ";")), "List of sites excluded by user", "input");
      } else if sites.StrArg? {
        var added := AddParameter("BannedSites", "JDL", Str(sites.s), "Site excluded by user", "input");
      } else {
        return Error("Expected site string or list of sites");
      }
      r := Ok(());
    }

    /** `_handleParameterSequences`: visits the sequence names in some order,
        rewrites each name's entry, adds its `Parameters.` entry and appends
        its workflow argument. */
    method HandleParameterSequences(paramsDict: ParamsDict, arguments: seq<string>)
      returns (r: Result<(ParamsDict, seq<string>)>)
      modifies this`parameterSeqs
      ensures SequencesHandled(paramsDict, old(parameterSeqs), wfArguments, arguments, r, parameterSeqs)
      ensures old(SequencesConsistent()) ==> SequencesConsistent()
    {
      ghost var seqs0 := parameterSeqs;
      var seqs := parameterSeqs;
      var wf := wfArguments;
      ghost var visited: seq<string> := [];
      var d := paramsDict;
      var args := arguments;
      var pending := seqs.Keys;
      while pending != {}
        invariant SequenceLoop(paramsDict, seqs0, wf, arguments, pending, visited, d, seqs, args)
        decreases pending
      {
        var pName :| pName in pending;
        var step := SequenceEntry(Lookup(d, pName), pName, seqs[pName]);
        if !step.Ok? {
          r := step.PropagateFailure();
          SequenceLoopFails(paramsDict, seqs0, wf, arguments, pending, visited, d, seqs, args, pName, r);
          ConsistentKept(seqs0, seqs, numberOfParameters);
          parameterSeqs := seqs;
          return;
        }
        SequenceLoopStep(paramsDict, seqs0, wf, arguments, pending, visited, d, seqs, args, pName, step.value.0, step.value.1);
        seqs := seqs[pName := step.value.1];
        d := d[pName := step.value.0][ParametersKey(pName) := Entry("JDL", List(step.value.1))];
        if pName in wf {
          args := args + [SequenceArgument(pName, wf[pName])];
        }
        visited := visited + [pName];
        pending := pending - {pName};
      }
      SequenceLoopDone(paramsDict, seqs0, wf, arguments, visited, d, seqs, args);
      ConsistentKept(seqs0, seqs, numberOfParameters);
      parameterSeqs := seqs;
      r := Ok((d, args));
    }

    /** The loop of `_toJDL` that collects the workflow's parameters. */
    method CollectParameters() returns (d: ParamsDict)
      ensures d == ParamsDictOf(workflow)
    {
      d := map[];
      for i := 0 to |workflow|
        invariant d == ParamsDictOf(workflow[..i])
      {
        assert workflow[..i + 1][..i] == workflow[..i];
        d := d[workflow[i].name := Entry(workflow[i].ptype, workflow[i].value)];
      }
      assert workflow[..|workflow|] == workflow;
    }

    /** The part of `_toJDL` that builds the parameter dictionary and the
        executable's arguments: the workflow's parameters, the extra sandbox
        and input-data files, and the parametric sequences. `scriptName` is
        the job description file added to the input sandbox when
        `describedByFile` holds; `arguments` are the arguments assembled
        before the sequences are handled. `handled` is the dictionary and
        arguments before rendering, which raises on an empty JDL list and
        then skips the input-sandbox clean-up. */
    method ToJDL(scriptName: string, describedByFile: bool, arguments: seq<string>)
      returns (r: Result<(ParamsDict, seq<string>)>, ghost handled: Result<(ParamsDict, seq<string>)>)
      modifies this`addToInputSandbox, this`addToOutputSandbox, this`parameterSeqs
      ensures addToOutputSandbox == old(addToOutputSandbox) + [stderr] + [stdout]
      ensures !r.Error?
      ensures var inputSandbox := old(addToInputSandbox) + (if describedByFile then [scriptName] else []);
        && (r.Ok? ==> addToInputSandbox == Cleaned(inputSandbox, scriptName, stdout, stderr))
        && (r.Raised? ==> addToInputSandbox == inputSandbox)
      ensures var merged := MergeSandboxes(ParamsDictOf(old(workflow)),
                                           old(addToInputSandbox) + (if describedByFile then [scriptName] else []),
                                           old(addToOutputSandbox) + [stderr] + [stdout], old(addToInputData));
        && (!merged.Ok? ==> r == merged.PropagateFailure() && parameterSeqs == old(parameterSeqs))
        && (merged.Ok? ==>
              SequencesThenRendered(merged.value, old(parameterSeqs), wfArguments, numberOfParameters, arguments,
                                    handled, parameterSeqs, r))
      ensures old(SequencesConsistent()) ==> SequencesConsistent()
    {
      var d := CollectParameters();
      var inputSandbox := addToInputSandbox + (if describedByFile then [scriptName] else []);
      var outputSandbox := addToOutputSandbox + [stderr] + [stdout];
      addToInputSandbox, addToOutputSandbox := inputSandbox, outputSandbox;
      var merged := MergeSandboxes(d, inputSandbox, outputSandbox, addToInputData);
      if !merged.Ok? {
        r, handled := merged.PropagateFailure(), merged.PropagateFailure();
        return;
      }
      r, handled := FinishJDL(merged.value, arguments, scriptName);
    }

    /** The end of `_toJDL` from the merged dictionary `d`: the parametric
        sequences when there are parameters, the rendering, and on success
        the clean-up of the input sandbox. */
    method FinishJDL(d: ParamsDict, arguments: seq<string>, scriptName: string)
      returns (r: Result<(ParamsDict, seq<string>)>, ghost handled: Result<(ParamsDict, seq<string>)>)
      modifies this`parameterSeqs, this`addToInputSandbox
      ensures SequencesThenRendered(d, old(parameterSeqs), wfArguments, numberOfParameters, arguments,
                                    handled, parameterSeqs, r)
      ensures r.Ok? ==> addToInputSandbox == Cleaned(old(addToInputSandbox), scriptName, stdout, stderr)
      ensures !r.Ok? ==> addToInputSandbox == old(addToInputSandbox)
      ensures old(SequencesConsistent()) ==> SequencesConsistent()
    {
      r, handled := SequencesRendered(d, arguments);
      if r.Ok? {
        CleanInputSandbox(scriptName);
      }
    }

    /** The parametric sequences, when there are parameters, and the
        rendering that follows them. */
    method SequencesRendered(d: ParamsDict, arguments: seq<string>)
      returns (r: Result<(ParamsDict, seq<string>)>, ghost handled: Result<(ParamsDict, seq<string>)>)
      modifies this`parameterSeqs
      ensures SequencesThenRendered(d, old(parameterSeqs), wfArguments, numberOfParameters, arguments,
                                    handled, parameterSeqs, r)
      ensures old(SequencesConsistent()) ==> SequencesConsistent()
    {
      var sequenced: Result<(ParamsDict, seq<string>)>;
      if numberOfParameters > 0 {
        sequenced := HandleParameterSequences(d, arguments);
      } else {
        sequenced := Ok((d, arguments));
      }
      handled := sequenced;
      if !sequenced.Ok? {
        r := sequenced;
        return;
      }
      r := Rendered(sequenced.value.0, sequenced.value.1);
    }

    /** The clean-up of the input sandbox at the end of `_toJDL`: the script
        name, stdout and stderr are removed once each, if present. */
    method CleanInputSandbox(scriptName: string)
      modifies this`addToInputSandbox
      ensures addToInputSandbox == Cleaned(old(addToInputSandbox), scriptName, stdout, stderr)
    {
      addToInputSandbox := RemoveFirst(addToInputSandbox, scriptName);
      addToInputSandbox := RemoveFirst(addToInputSandbox, stdout);
      addToInputSandbox := RemoveFirst(addToInputSandbox, stderr);
    }
  }
}
