/** The values a job description is built from, and the pure steps of
    `Job._toJDL` and `Job._handleParameterSequences`: collecting the workflow
    parameters into a dictionary, merging extra files into the sandbox and
    input-data lists, rewriting parametric entries, and slicing the rendered
    JDL. */
module JobParams {
  import opened Outcomes
  import opened PyStrings

  /** A workflow parameter value: a string, an integer, or a list. */
  datatype Value = Str(s: string) | Int(i: int) | List(items: seq<Value>)

  /** Python truthiness of a parameter value. */
  predicate ValueTruthy(v: Value)
  {
    match v
    case Str(s) => s != ""
    case Int(i) => i != 0
    case List(items) => items != []
  }

  /** One parameter handed to the workflow by `Job._addParameter`. */
  datatype Param = Param(name: string, ptype: string, value: Value, description: string,
                         isInput: bool, isOutput: bool)

  /** The `{'type': ..., 'value': ...}` record `_toJDL` keeps per parameter name. */
  datatype Entry = Entry(ptype: string, value: Value)

  type ParamsDict = map<string, Entry>

  function Lookup(d: ParamsDict, name: string): Option<Entry>
  {
    if name in d then Some(d[name]) else None
  }

  /** The `io` check of `_addParameter`: the (input, output) flags of the new
      parameter, or the TypeError raised for any other flag. */
  function IoFlags(io: string): (r: Result<(bool, bool)>)
    ensures r.Ok? <==> io == "input" || io == "output"
    ensures r.Ok? ==> r.value.0 != r.value.1 && (r.value.0 <==> io == "input")
    ensures !r.Ok? ==> r == Raised("TypeError")
  {
    if io == "input" then Ok((true, false))
    else if io == "output" then Ok((false, true))
    else Raised("TypeError")
  }

  /** The dictionary `_toJDL` builds from the workflow's parameters: one entry
      per name, holding the type and value of the last parameter recorded
      under that name. */
  function ParamsDictOf(log: seq<Param>): (d: ParamsDict)
    ensures forall name :: name in d <==> exists i :: 0 <= i < |log| && log[i].name == name
    decreases |log|
  {
    if log == [] then map[]
    else
      var last := log[|log| - 1];
      var d := ParamsDictOf(log[..|log| - 1]);
      assert forall i :: 0 <= i < |log| - 1 ==> log[..|log| - 1][i] == log[i];
      d[last.name := Entry(last.ptype, last.value)]
  }

  /** A later parameter of the same name replaces an earlier one. */
  lemma {:induction false} LastParameterWins(log: seq<Param>, i: nat)
    requires i < |log|
    requires forall j :: i < j < |log| ==> log[j].name != log[i].name
    ensures ParamsDictOf(log)[log[i].name] == Entry(log[i].ptype, log[i].value)
    decreases |log|
  {
    if i < |log| - 1 {
      var prefix := log[..|log| - 1];
      assert forall j :: i < j < |prefix| ==> prefix[j] == log[j];
      LastParameterWins(prefix, i);
    }
  }

  predicate NoDuplicates(xs: seq<string>)
  {
    forall i, j :: 0 <= i < j < |xs| ==> xs[i] != xs[j]
  }

  /** `uniqueElements`: each element once, in order of first occurrence. */
  function Unique(xs: seq<string>): (u: seq<string>)
    ensures Elements(u) == Elements(xs)
    ensures NoDuplicates(u)
    ensures |xs| > 0 ==> |u| > 0
    decreases |xs|
  {
    if xs == [] then []
    else
      var front := xs[..|xs| - 1];
      var last := xs[|xs| - 1];
      var u := Unique(front);
      assert xs == front + [last];
      assert Elements(xs) == Elements(front) + {last};
      if last in u then u
      else
        assert Elements(u + [last]) == Elements(u) + {last};
        u + [last]
  }

  /** `';'.join(uniqueElements(files.split(';')))`: the same file names, each once. */
  function Dedup(files: string): (r: string)
    ensures NoDuplicates(Split(r, ';'))
    ensures Elements(Split(r, ';')) == Elements(Split(files, ';'))
  {
    var parts := Split(files, ';');
    var u := Unique(parts);
    assert forall i :: 0 <= i < |u| ==> ';' !in u[i] by {
      forall i | 0 <= i < |u|
        ensures ';' !in u[i]
      {
        assert u[i] in Elements(parts);
      }
    }
    SplitJoin(u, ';');
    Join(u, ";")
  }

  /** The merge of an `addTo...` list into the sandbox or input-data entry of
      `_toJDL`. `skipEmptyCurrent` is the input-data variant, which drops a
      falsy current value instead of putting a ';' in front of the extra files. */
  function MergeFiles(d: ParamsDict, key: string, extra: seq<string>, skipEmptyCurrent: bool): (r: Result<ParamsDict>)
    requires |extra| > 0
    ensures key !in d ==> r == Ok(d[key := Entry("JDL", Str(Join(extra, ";")))])
    ensures !r.Error?
    ensures r.Raised? <==> key in d && !d[key].value.Str? && (!skipEmptyCurrent || ValueTruthy(d[key].value))
    ensures r.Raised? ==> r.exception == "TypeError"
    ensures r.Ok? ==> r.value.Keys == d.Keys + {key}
    ensures r.Ok? ==> forall k :: k in d && k != key ==> r.value[k] == d[k]
    ensures r.Ok? && key in d ==> r.value[key].ptype == d[key].ptype && r.value[key].value.Str?
  {
    var extraFiles := Join(extra, ";");
    if key !in d then Ok(d[key := Entry("JDL", Str(extraFiles))])
    else
      var current := d[key].value;
      if skipEmptyCurrent && !ValueTruthy(current) then
        Ok(d[key := Entry(d[key].ptype, Str(Dedup(extraFiles)))])
      else if !current.Str? then Raised("TypeError")
      else Ok(d[key := Entry(d[key].ptype, Str(Dedup(current.s + ";" + extraFiles)))])
  }

  /** A merged list names each file once, and names exactly the current files
      (unless the input-data variant dropped an empty value) and the extra ones. */
  lemma MergedFileSet(d: ParamsDict, key: string, extra: seq<string>, skipEmptyCurrent: bool)
    requires |extra| > 0 && key in d
    requires MergeFiles(d, key, extra, skipEmptyCurrent).Ok?
    ensures var merged := MergeFiles(d, key, extra, skipEmptyCurrent).value[key].value.s;
      && NoDuplicates(Split(merged, ';'))
      && Elements(Split(merged, ';'))
         == (if skipEmptyCurrent && !ValueTruthy(d[key].value) then {} else Elements(Split(d[key].value.s, ';')))
            + Elements(Split(Join(extra, ";"), ';'))
  {
    var current := d[key].value;
    var extraFiles := Join(extra, ";");
    var merged := MergeFiles(d, key, extra, skipEmptyCurrent).value[key].value.s;
    if skipEmptyCurrent && !ValueTruthy(current) {
      assert merged == Dedup(extraFiles);
    } else {
      assert merged == Dedup(current.s + ";" + extraFiles);
      assert current.s + ";" + extraFiles == current.s + [';'] + extraFiles;
      SplitConcat(current.s, extraFiles, ';');
      ElementsConcat(Split(current.s, ';'), Split(extraFiles, ';'));
    }
  }

  lemma ElementsConcat(a: seq<string>, b: seq<string>)
    ensures Elements(a + b) == Elements(a) + Elements(b)
  {
    assert forall x :: x in a + b <==> x in a || x in b;
  }

  /** Input data: with an empty current value the merged list holds exactly the
      extra files, so no empty entry (no leading ';') appears. */
  lemma InputDataMergeHasNoEmptyEntry(d: ParamsDict, extra: seq<string>)
    requires |extra| > 0 && "InputData" in d && d["InputData"].value == Str("")
    requires forall i :: 0 <= i < |extra| ==> extra[i] != "" && ';' !in extra[i]
    ensures MergeFiles(d, "InputData", extra, true).Ok?
    ensures var merged := Split(MergeFiles(d, "InputData", extra, true).value["InputData"].value.s, ';');
      Elements(merged) == Elements(extra) && "" !in merged
  {
    MergedFileSet(d, "InputData", extra, true);
    SplitJoin(extra, ';');
    assert "" !in Elements(extra);
  }

  /** Sandboxes: an empty current value is kept, so the merged list holds an
      empty entry next to the extra files. */
  lemma SandboxMergeKeepsEmptyEntry(d: ParamsDict, key: string, extra: seq<string>)
    requires |extra| > 0 && key in d && d[key].value == Str("")
    ensures MergeFiles(d, key, extra, false).Ok?
    ensures "" in Split(MergeFiles(d, key, extra, false).value[key].value.s, ';')
  {
    MergedFileSet(d, key, extra, false);
    assert "" in Elements(Split("", ';'));
  }

  /** The three merges of `_toJDL`, each applied only when its list is non-empty. */
  function MergeSandboxes(d: ParamsDict, inputSandbox: seq<string>, outputSandbox: seq<string>,
                          inputData: seq<string>): (r: Result<ParamsDict>)
    ensures !r.Error?
    ensures r.Ok? ==> r.value.Keys == d.Keys
                      + (if |inputSandbox| > 0 then {"InputSandbox"} else {})
                      + (if |outputSandbox| > 0 then {"OutputSandbox"} else {})
                      + (if |inputData| > 0 then {"InputData"} else {})
    ensures r.Ok? ==> forall k :: k in d && k !in {"InputSandbox", "OutputSandbox", "InputData"} ==> r.value[k] == d[k]
  {
    var d1 :- if |inputSandbox| > 0 then MergeFiles(d, "InputSandbox", inputSandbox, false) else Ok(d);
    var d2 :- if |outputSandbox| > 0 then MergeFiles(d1, "OutputSandbox", outputSandbox, false) else Ok(d1);
    if |inputData| > 0 then MergeFiles(d2, "InputData", inputData, true) else Ok(d2)
  }

  /** The `%(name)s` placeholder a parametric job substitutes per job. */
  function Placeholder(name: string): string
  {
    "%(" + name + ")s"
  }

  /** The entry holding the values of a parameter sequence. */
  function ParametersKey(name: string): string
  {
    "Parameters." + name
  }

  /** No sequence name is the `Parameters.` entry of another one. */
  predicate NoClash(names: set<string>)
  {
    forall a, b :: a in names && b in names ==> ParametersKey(a) != b
  }

  /** The InputSandbox value with the placeholder appended: a list gains an
      element, a non-empty string gains `;placeholder`, an empty string becomes
      the placeholder. */
  function WithPlaceholder(v: Value, name: string): Value
  {
    match v
    case List(items) => List(items + [Str(Placeholder(name))])
    case Str(s) => if s != "" then Str(s + ";" + Placeholder(name)) else Str(Placeholder(name))
    case Int(_) => v
  }

  /** A list-valued JDL parameter extended by each value of its sequence:
      element-wise list concatenation when the sequence holds lists, a single
      appended element otherwise. */
  function ExtendSequence(current: seq<Value>, pData: seq<Value>): (r: Result<seq<Value>>)
    ensures !r.Error?
    ensures r.Raised? <==> |pData| == 0 || (pData[0].List? && exists i :: 0 <= i < |pData| && !pData[i].List?)
    ensures r.Raised? ==> r.exception == (if |pData| == 0 then "IndexError" else "TypeError")
    ensures r.Ok? ==> |r.value| == |pData|
    ensures r.Ok? ==> forall i :: 0 <= i < |pData| ==>
      && r.value[i].List?
      && current <= r.value[i].items
      && r.value[i].items[|current|..] == (if pData[0].List? then pData[i].items else [pData[i]])
  {
    if |pData| == 0 then Raised("IndexError")
    else if !pData[0].List? then
      Ok(seq(|pData|, i requires 0 <= i < |pData| => List(current + [pData[i]])))
    else if forall i :: 0 <= i < |pData| ==> pData[i].List? then
      Ok(seq(|pData|, i requires 0 <= i < |pData| => List(current + pData[i].items)))
    else Raised("TypeError")
  }

  function IsJDLType(ptype: string): bool
  {
    Contains(Lower(ptype), "jdl")
  }

  /** What `_handleParameterSequences` does for one sequence name: the new
      entry under that name and the (possibly extended) sequence. */
  function SequenceEntry(current: Option<Entry>, name: string, pData: seq<Value>): (r: Result<(Entry, seq<Value>)>)
    ensures !r.Error?
    ensures current.None? ==> r == Ok((Entry("JDL", Str(Placeholder(name))), pData))
    ensures r.Ok? && current.Some? ==> r.value.0.ptype == current.value.ptype
    ensures name == "InputSandbox" && current.Some? ==> r == Ok((Entry(current.value.ptype, WithPlaceholder(current.value.value, name)), pData))
    ensures name != "InputSandbox" && current.Some? && !IsJDLType(current.value.ptype) ==> r == Ok((current.value, pData))
    ensures name != "InputSandbox" && current.Some? && IsJDLType(current.value.ptype) && !current.value.value.List? ==>
      r == Ok((Entry(current.value.ptype, Str(Placeholder(name))), pData))
    ensures name != "InputSandbox" && current.Some? && IsJDLType(current.value.ptype) && current.value.value.List? ==>
      var extended := ExtendSequence(current.value.value.items, pData);
      if extended.Ok? then r == Ok((Entry(current.value.ptype, Str(Placeholder(name))), extended.value))
      else r == extended.PropagateFailure()
    ensures r.Ok? ==> |r.value.1| == |pData|
  {
    match current
    case None => Ok((Entry("JDL", Str(Placeholder(name))), pData))
    case Some(e) =>
      if name == "InputSandbox" then Ok((Entry(e.ptype, WithPlaceholder(e.value, name)), pData))
      else if !IsJDLType(e.ptype) then Ok((e, pData))
      else if !e.value.List? then Ok((Entry(e.ptype, Str(Placeholder(name))), pData))
      else
        var extended :- ExtendSequence(e.value.items, pData);
        Ok((Entry(e.ptype, Str(Placeholder(name))), extended))
  }

  /** A non-empty InputSandbox string gains the placeholder as one more file. */
  lemma InputSandboxPlaceholderAppended(ptype: string, files: string, pData: seq<Value>)
    requires files != ""
    ensures var r := SequenceEntry(Some(Entry(ptype, Str(files))), "InputSandbox", pData);
      && r.Ok? && r.value.0.value.Str?
      && Split(r.value.0.value.s, ';') == Split(files, ';') + [Placeholder("InputSandbox")]
  {
    var ph := Placeholder("InputSandbox");
    assert ';' !in ph;
    SplitConcat(files, ph, ';');
    SplitWithoutSeparator(ph, ';');
    assert files + ";" + ph == files + [';'] + ph;
  }

  /** The ` -p <argument>=%(name)s` option a sequence feeding a workflow
      argument adds. */
  function SequenceArgument(name: string, argument: string): string
  {
    " -p " + argument + "=" + Placeholder(name)
  }

  /** The options the sequences add, in the order their names were visited. */
  function SequenceArguments(order: seq<string>, wfArguments: map<string, string>): seq<string>
  {
    if order == [] then []
    else
      var name := order[|order| - 1];
      SequenceArguments(order[..|order| - 1], wfArguments)
      + (if name in wfArguments then [SequenceArgument(name, wfArguments[name])] else [])
  }

  lemma SequenceArgumentsAppend(order: seq<string>, name: string, wfArguments: map<string, string>)
    ensures SequenceArguments(order + [name], wfArguments)
            == SequenceArguments(order, wfArguments)
               + (if name in wfArguments then [SequenceArgument(name, wfArguments[name])] else [])
  {
    assert (order + [name])[..|order|] == order;
  }

  /** `i` is where `x` first occurs in `xs`. */
  predicate FirstOccurrence(xs: seq<string>, x: string, i: int)
  {
    0 <= i < |xs| && xs[i] == x && x !in xs[..i]
  }

  /** `list.remove(x)` with the ValueError swallowed: the first occurrence goes. */
  function RemoveFirst(xs: seq<string>, x: string): (r: seq<string>)
    ensures x !in xs ==> r == xs
    ensures x in xs ==> exists i :: FirstOccurrence(xs, x, i) && r == xs[..i] + xs[i + 1..]
    ensures x in xs ==> |r| == |xs| - 1 && multiset(r) == multiset(xs) - multiset{x}
  {
    if xs == [] then []
    else if xs[0] == x then
      RemovedAt(xs, 0);
      assert FirstOccurrence(xs, x, 0) && xs[..0] + xs[1..] == xs[1..];
      xs[1..]
    else
      var rest := RemoveFirst(xs[1..], x);
      if x in xs[1..] then
        FirstOccurrenceShifted(xs, x, rest);
        [xs[0]] + rest
      else
        assert xs == [xs[0]] + xs[1..];
        [xs[0]] + rest
  }

  /** Dropping the element at `i` takes exactly that element out. */
  lemma RemovedAt(xs: seq<string>, i: int)
    requires 0 <= i < |xs|
    ensures |xs[..i] + xs[i + 1..]| == |xs| - 1
    ensures multiset(xs[..i] + xs[i + 1..]) == multiset(xs) - multiset{xs[i]}
  {
    assert xs == xs[..i] + [xs[i]] + xs[i + 1..];
  }

  /** The first occurrence in the tail of a list that does not start with
      `x` is the first occurrence in the whole list, one place further on. */
  lemma FirstOccurrenceShifted(xs: seq<string>, x: string, rest: seq<string>)
    requires |xs| > 0 && xs[0] != x
    requires exists j :: FirstOccurrence(xs[1..], x, j) && rest == xs[1..][..j] + xs[1..][j + 1..]
    ensures exists i :: FirstOccurrence(xs, x, i) && [xs[0]] + rest == xs[..i] + xs[i + 1..]
    ensures |[xs[0]] + rest| == |xs| - 1 && multiset([xs[0]] + rest) == multiset(xs) - multiset{x}
  {
    var j :| FirstOccurrence(xs[1..], x, j) && rest == xs[1..][..j] + xs[1..][j + 1..];
    var i := j + 1;
    assert xs[..i] == [xs[0]] + xs[1..][..j];
    assert xs[i + 1..] == xs[1..][j + 1..];
    assert FirstOccurrence(xs, x, i);
    RemovedAt(xs, i);
  }

  /** The script name, stdout and stderr that `_toJDL` removes again leave an
      input sandbox that did not hold them as it was. */
  lemma {:induction false} ScriptNameRemovedAgain(xs: seq<string>, script: string, stdout: string, stderr: string)
    requires script !in xs && stdout !in xs && stderr !in xs
    requires stdout != script && stderr != script
    ensures RemoveFirst(RemoveFirst(RemoveFirst(xs + [script], script), stdout), stderr) == xs
  {
    AppendedRemoved(xs, script);
  }

  /** A file appended to a list that did not hold it is the first
      occurrence, so removing it gives the list back. */
  lemma AppendedRemoved(xs: seq<string>, x: string)
    requires x !in xs
    ensures RemoveFirst(xs + [x], x) == xs
  {
    var ys := xs + [x];
    assert ys[..|xs|] == xs;
    assert FirstOccurrence(ys, x, |xs|);
    var i :| FirstOccurrence(ys, x, i) && RemoveFirst(ys, x) == ys[..i] + ys[i + 1..];
    FirstOccurrenceUnique(ys, x, i, |xs|);
  }

  lemma FirstOccurrenceUnique(xs: seq<string>, x: string, i: int, j: int)
    requires FirstOccurrence(xs, x, i) && FirstOccurrence(xs, x, j)
    ensures i == j
  {
    assert forall k :: 0 <= k < j ==> xs[k] in xs[..j];
    assert forall k :: 0 <= k < i ==> xs[k] in xs[..i];
  }

  /** `jdl[jdl.find('[') + 1 : jdl.rfind(']') - 1]`. */
  function JDLBody(jdl: string): (body: string)
    ensures var open, close := Find(jdl, '['), RFind(jdl, ']');
      0 <= open && open + 2 <= close ==>
        && '[' !in jdl[..open] && ']' !in jdl[close + 1..]
        && jdl == jdl[..open + 1] + body + jdl[close - 1..]
    ensures '[' !in jdl && ']' !in jdl ==> body == if |jdl| >= 2 then jdl[..|jdl| - 2] else ""
  {
    Slice(jdl, Find(jdl, '[') + 1, RFind(jdl, ']') - 1)
  }

  /** For a rendering that opens with '[' and closes with one character and
      ']', the slice is exactly what lies between, whatever brackets it holds. */
  lemma JDLBodyOfClassAd(body: string, last: char)
    ensures JDLBody("[" + body + [last] + "]") == body
  {
    var jdl := "[" + body + [last] + "]";
    assert jdl[0] == '[';
    assert Find(jdl, '[') == 0;
    assert jdl[|jdl| - 1] == ']';
    assert RFind(jdl, ']') == |jdl| - 1;
    assert jdl[1..|jdl| - 2] == body;
  }

  /** An LFN with every `LFN:` removed and one put back in front. */
  function WithLfnPrefix(lfn: string): (r: string)
    ensures IsPrefix("LFN:", r)
    ensures ';' !in lfn ==> ';' !in r
  {
    "LFN:" + RemoveAll(lfn, "LFN:")
  }

  /** A leading `LFN:` in the input makes no difference. */
  lemma LfnPrefixOptional(lfn: string)
    ensures WithLfnPrefix("LFN:" + lfn) == WithLfnPrefix(lfn)
  {
    RemoveAllLeading("LFN:", lfn);
  }

  /** The InputData value `setInputData` stores for a list of LFNs. */
  function InputDataValue(lfns: seq<string>): string
  {
    Join(seq(|lfns|, i requires 0 <= i < |lfns| => WithLfnPrefix(lfns[i])), ";")
  }

  /** The stored value names each LFN once, prefixed by `LFN:`, in order. */
  lemma InputDataEntries(lfns: seq<string>)
    requires |lfns| > 0
    requires forall i :: 0 <= i < |lfns| ==> ';' !in lfns[i]
    ensures var entries := Split(InputDataValue(lfns), ';');
      && entries == seq(|lfns|, i requires 0 <= i < |lfns| => WithLfnPrefix(lfns[i]))
      && forall i :: 0 <= i < |entries| ==> IsPrefix("LFN:", entries[i])
  {
    SplitJoin(seq(|lfns|, i requires 0 <= i < |lfns| => WithLfnPrefix(lfns[i])), ';');
  }

  /** Lists that differ only in `LFN:` prefixes give the same InputData value. */
  lemma InputDataPrefixOptional(lfns: seq<string>)
    ensures InputDataValue(seq(|lfns|, i requires 0 <= i < |lfns| => "LFN:" + lfns[i])) == InputDataValue(lfns)
  {
    var prefixed := seq(|lfns|, i requires 0 <= i < |lfns| => "LFN:" + lfns[i]);
    forall i | 0 <= i < |lfns|
      ensures WithLfnPrefix(prefixed[i]) == WithLfnPrefix(lfns[i])
    {
      LfnPrefixOptional(lfns[i]);
    }
    assert seq(|prefixed|, i requires 0 <= i < |prefixed| => WithLfnPrefix(prefixed[i]))
        == seq(|lfns|, i requires 0 <= i < |lfns| => WithLfnPrefix(lfns[i]));
  }

  /** The OutputSE value of `setOutputData`: the element names stripped and
      joined by ';'. */
  function OutputSEValue(ses: seq<string>): string
  {
    Join(seq(|ses|, i requires 0 <= i < |ses| => Strip(ses[i])), ";")
  }

  /** Each stored element name is the stripped input name. */
  lemma OutputSEEntries(ses: seq<string>)
    requires |ses| > 0
    requires forall i :: 0 <= i < |ses| ==> ';' !in ses[i]
    ensures var entries := Split(OutputSEValue(ses), ';');
      && |entries| == |ses|
      && forall i :: 0 <= i < |ses| ==> entries[i] == Strip(ses[i]) && (|entries[i]| > 0 ==> !IsSpace(entries[i][0]))
  {
    var stripped := seq(|ses|, i requires 0 <= i < |ses| => Strip(ses[i]));
    forall i | 0 <= i < |ses|
      ensures ';' !in stripped[i]
    {
      var left := StripLeft(ses[i]);
      assert left == ses[i][|ses[i]| - |left|..];
      assert stripped[i] == left[..|stripped[i]|];
    }
    SplitJoin(stripped, ';');
    forall i | 0 <= i < |ses| && |stripped[i]| > 0
      ensures !IsSpace(stripped[i][0])
    {
      var left := StripLeft(ses[i]);
      assert stripped[i] == left[..|stripped[i]|];
    }
  }

  /** The path `setOutputData` stores after dropping leading slashes: never
      empty and never starting with '/', a suffix of the given path behind
      nothing but slashes; a path made only of slashes raises IndexError. */
  function LeadingSlashesStripped(path: string): (r: Result<string>)
    ensures !r.Error?
    ensures r.Raised? <==> forall i :: 0 <= i < |path| ==> path[i] == '/'
    ensures r.Raised? ==> r.exception == "IndexError"
    ensures r.Ok? ==> |r.value| > 0 && r.value[0] != '/' && EndsWith(path, r.value)
    ensures r.Ok? ==> forall i :: 0 <= i < |path| - |r.value| ==> path[i] == '/'
    decreases |path|
  {
    if |path| == 0 then Raised("IndexError")
    else if path[0] != '/' then Ok(path)
    else
      var r := LeadingSlashesStripped(path[1..]);
      assert forall i :: 1 <= i < |path| ==> path[i] == path[1..][i - 1];
      assert r.Ok? ==> path[|path| - |r.value|..] == path[1..][|path| - 1 - |r.value|..];
      r
  }

  /** The `while outputPath[0] == '/'` loop of `setOutputData`. */
  method StripLeadingSlashes(path: string) returns (r: Result<string>)
    ensures r == LeadingSlashesStripped(path)
  {
    var rest := path;
    while |rest| > 0 && rest[0] == '/'
      invariant LeadingSlashesStripped(rest) == LeadingSlashesStripped(path)
      decreases |rest|
    {
      rest := rest[1..];
    }
    if |rest| == 0 {
      return Raised("IndexError");
    }
    return Ok(rest);
  }

  /** The input data policies `setInputDataPolicy` knows, spelled canonically. */
  const PolicyNames: seq<string> := ["Download", "Protocol"]

  lemma LowerPolicyNames()
    ensures Lower(PolicyNames[0]) == "download" && Lower(PolicyNames[1]) == "protocol"
  {
    assert Lower("Download") == "download";
    assert Lower("Protocol") == "protocol";
  }

  /** The matching loop of `setInputDataPolicy`: the canonical spelling of a
      policy named case-insensitively, or "" for any other name. */
  method MatchPolicy(policy: string) returns (finalPolicy: string)
    ensures finalPolicy == "Download" <==> Lower(policy) == "download"
    ensures finalPolicy == "Protocol" <==> Lower(policy) == "protocol"
    ensures finalPolicy == "" <==> Lower(policy) != "download" && Lower(policy) != "protocol"
  {
    LowerPolicyNames();
    finalPolicy := "";
    for i := 0 to |PolicyNames|
      invariant finalPolicy == "" || finalPolicy in PolicyNames[..i]
      invariant finalPolicy != "" ==> Lower(policy) == Lower(finalPolicy)
      invariant finalPolicy == "" <==> forall j :: 0 <= j < i ==> Lower(policy) != Lower(PolicyNames[j])
    {
      if Lower(policy) == Lower(PolicyNames[i]) {
        finalPolicy := PolicyNames[i];
      }
    }
  }
}
