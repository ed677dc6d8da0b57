/** Synthesis of agent tools from a component's declared inputs and outputs
    (`base/tools/component_tool.py`).

    A component declares an ordered list of inputs and an ordered list of
    outputs; each output names the component method that computes it. For every
    output except the component's own "tool" output, the toolkit builds one
    tool record: a sanitised name, a generated description, the list of inputs
    handed to the schema generator, and a callable that writes its keyword
    arguments into the component's inputs and then runs the output method. */
module ComponentTool {
  import opened Common
  import opened Strings

  /** One declared input: its key, the type tags it accepts (possibly none),
      the fallback field type and its current value. */
  datatype InputSpec = InputSpec(name: string, inputTypes: seq<string>, fieldType: string, value: Value)

  /** One declared output. `method == ""` is an output without a method;
      an empty `requiredInputs` is an output that declares no dependencies. */
  datatype Output = Output(name: string, methodName: string, requiredInputs: seq<string>)

  /** What the toolkit reads of a component: its name, description, inputs in
      declaration order, outputs in order, and the names of its methods. */
  datatype Declaration = Declaration(
    name: string,
    description: string,
    inputs: seq<InputSpec>,
    outputs: seq<Output>,
    methods: set<string>)

  /** A generated description, and whether building it logged the
      "does not have required inputs defined" warning. */
  datatype Described = Described(text: string, warned: bool)

  /** A tool record. `schema` is the input list given to the schema generator;
      `method` is the output method the callable runs. */
  datatype Tool = Tool(name: string, description: string, schema: seq<InputSpec>, methodName: string)

  /** The exceptions `get_tools` and the tool callable can raise: `ValueError`
      for an output without a method, `AttributeError` from the method lookup,
      `KeyError` from the input lookup, and a rejected keyword argument. */
  datatype ToolError = MethodUnset(output: string) | MethodNotFound(methodName: string) | UnknownInput(input: string) | UnknownArgument

  // ---------------------------------------------------------------------------
  // Type tags

  /** `_get_input_type`: the single accepted tag, all tags joined by " | ",
      or the field type when no tag is declared. */
  function InputType(i: InputSpec): (r: string)
    ensures |i.inputTypes| == 1 ==> r == i.inputTypes[0]
    ensures |i.inputTypes| > 1 ==> r == i.inputTypes[0] + " | " + Join(" | ", i.inputTypes[1..])
    ensures |i.inputTypes| == 0 ==> r == i.fieldType
  {
    if |i.inputTypes| > 0 then
      if |i.inputTypes| == 1 then i.inputTypes[0] else Join(" | ", i.inputTypes)
    else
      i.fieldType
  }

  /** The single-tag case agrees with the general join: whenever some tag is
      declared, the type is the tags joined by " | ". */
  lemma InputTypeIsJoin(i: InputSpec)
    requires |i.inputTypes| > 0
    ensures InputType(i) == Join(" | ", i.inputTypes)
  {
  }

  // ---------------------------------------------------------------------------
  // Input lookup (`component._inputs[name]`)

  function InputNames(inputs: seq<InputSpec>): set<string>
  {
    set k | 0 <= k < |inputs| :: inputs[k].name
  }

  /** The inputs are a dictionary: no key is declared twice. */
  ghost predicate DistinctNames(inputs: seq<InputSpec>)
  {
    forall j, k :: 0 <= j < k < |inputs| ==> inputs[j].name != inputs[k].name
  }

  /** The position of the input called `n`, or `|inputs|` when there is none. */
  function IndexOf(inputs: seq<InputSpec>, n: string): (k: nat)
    ensures k <= |inputs|
    ensures forall j :: 0 <= j < k ==> inputs[j].name != n
    ensures k < |inputs| ==> inputs[k].name == n
    decreases |inputs|
  {
    if inputs == [] then 0
    else if inputs[0].name == n then 0
    else 1 + IndexOf(inputs[1..], n)
  }

  /** The input called `n`, if any. */
  function Lookup(inputs: seq<InputSpec>, n: string): (r: Option<InputSpec>)
    ensures r.Some? <==> n in InputNames(inputs)
    ensures r.Some? ==> r.value.name == n && r.value in inputs
  {
    var k := IndexOf(inputs, n);
    if k < |inputs| then Some(inputs[k]) else None
  }

  /** `[component._inputs[n] for n in names]`: the named inputs in the order
      of `names`, or a `KeyError` for the first name that is not an input. */
  function SelectInputs(inputs: seq<InputSpec>, names: seq<string>): (r: Result<seq<InputSpec>, ToolError>)
    ensures r.Ok? <==> forall k :: 0 <= k < |names| ==> names[k] in InputNames(inputs)
    ensures r.Ok? ==> |r.value| == |names|
    ensures r.Ok? ==> forall k :: 0 <= k < |names| ==> Lookup(inputs, names[k]) == Some(r.value[k])
    ensures r.Err? ==> exists k :: 0 <= k < |names| && r.error == UnknownInput(names[k])
                         && names[k] !in InputNames(inputs)
                         && forall j :: 0 <= j < k ==> names[j] in InputNames(inputs)
    decreases |names|
  {
    if names == [] then Ok([])
    else match Lookup(inputs, names[0])
      case None => Err(UnknownInput(names[0]))
      case Some(i) =>
        match SelectInputs(inputs, names[1..])
        case Err(e) =>
          ghost var k :| 0 <= k < |names[1..]| && e == UnknownInput(names[1..][k])
                         && names[1..][k] !in InputNames(inputs)
                         && forall j :: 0 <= j < k ==> names[1..][j] in InputNames(inputs);
          assert names[k + 1] == names[1..][k];
          Err(e)
        case Ok(rest) =>
          assert forall k :: 0 < k < |names| ==> names[k] == names[1..][k - 1];
          Ok([i] + rest)
  }

  // ---------------------------------------------------------------------------
  // Description

  /** `f"{name}: {type}"` for the input called `n`. */
  function ArgOf(inputs: seq<InputSpec>, n: string): string
  {
    match Lookup(inputs, n)
    case Some(i) => n + ": " + InputType(i)
    case None => n + ": "
  }

  /** The unsorted argument strings, one per name, in the order of `names`. */
  function ArgList(inputs: seq<InputSpec>, names: seq<string>): (r: seq<string>)
    ensures |r| == |names|
    ensures forall k :: 0 <= k < |names| ==> r[k] == ArgOf(inputs, names[k])
  {
    MapSeq(n => ArgOf(inputs, n), names)
  }

  /** The argument strings of two rearrangements of the same names are
      rearrangements of each other. */
  lemma ArgListPermutation(inputs: seq<InputSpec>, a: seq<string>, b: seq<string>)
    requires multiset(a) == multiset(b)
    ensures multiset(ArgList(inputs, a)) == multiset(ArgList(inputs, b))
  {
    MapSeqPermutation(n => ArgOf(inputs, n), a, b);
  }

  /** `build_description`: `method(args) - description`, where `args` joins
      the sorted `"name: type"` strings of the required inputs with ", ", and
      is empty (with a warning) when the output declares no required inputs. */
  function Describe(d: Declaration, o: Output): (r: Result<Described, ToolError>)
    ensures r.Ok? <==> SelectInputs(d.inputs, o.requiredInputs).Ok?
    ensures r.Ok? ==> (r.value.warned <==> |o.requiredInputs| == 0)
  {
    if |o.requiredInputs| == 0 then
      assert Join(", ", []) == "";
      Ok(Described(o.methodName + "(" + "" + ") - " + d.description, true))
    else
      match SelectInputs(d.inputs, o.requiredInputs)
      case Err(e) => Err(e)
      case Ok(_) =>
        var args := SortStrings(ArgList(d.inputs, o.requiredInputs));
        Ok(Described(o.methodName + "(" + Join(", ", args) + ") - " + d.description, false))
  }

  /** What `build_description` returns: the method, the sorted argument strings
      of the required inputs in parentheses, then the component description; the
      warning exactly when no input is required; a `KeyError` for a required
      name that is not an input. */
  lemma DescribeCorrect(d: Declaration, o: Output)
    ensures Describe(d, o).Ok? <==>
      forall k :: 0 <= k < |o.requiredInputs| ==> o.requiredInputs[k] in InputNames(d.inputs)
    ensures Describe(d, o).Ok? ==> (Describe(d, o).value.warned <==> |o.requiredInputs| == 0)
    ensures Describe(d, o).Ok? && |o.requiredInputs| == 0 ==>
      Describe(d, o).value.text == o.methodName + "() - " + d.description
    ensures Describe(d, o).Ok? ==>
      exists args :: Sorted(args) && multiset(args) == multiset(ArgList(d.inputs, o.requiredInputs))
                     && Describe(d, o).value.text == o.methodName + "(" + Join(", ", args) + ") - " + d.description
    ensures Describe(d, o).Err? ==>
      exists k :: 0 <= k < |o.requiredInputs| && Describe(d, o).error == UnknownInput(o.requiredInputs[k])
  {
    if Describe(d, o).Ok? {
      var args := SortStrings(ArgList(d.inputs, o.requiredInputs));
      if |o.requiredInputs| == 0 {
        assert args == [];
      }
      assert Describe(d, o).value.text == o.methodName + "(" + Join(", ", args) + ") - " + d.description;
    }
  }

  /** The description does not depend on the order of the required inputs. */
  lemma DescriptionPermutationInvariant(d: Declaration, o1: Output, o2: Output)
    requires o1.methodName == o2.methodName
    requires multiset(o1.requiredInputs) == multiset(o2.requiredInputs)
    ensures Describe(d, o1).Ok? <==> Describe(d, o2).Ok?
    ensures Describe(d, o1).Ok? ==> Describe(d, o1).value == Describe(d, o2).value
  {
    var a, b := o1.requiredInputs, o2.requiredInputs;
    assert |a| == |b| by { assert |multiset(a)| == |a| && |multiset(b)| == |b|; }
    assert (forall k :: 0 <= k < |a| ==> a[k] in InputNames(d.inputs))
       <==> (forall k :: 0 <= k < |b| ==> b[k] in InputNames(d.inputs)) by {
      assert forall k :: 0 <= k < |a| ==> a[k] in multiset(b);
      assert forall k :: 0 <= k < |b| ==> b[k] in multiset(a);
    }
    if |a| > 0 && Describe(d, o1).Ok? {
      ArgListPermutation(d.inputs, a, b);
      SortPermutationInvariant(ArgList(d.inputs, a), ArgList(d.inputs, b));
    }
  }

  // ---------------------------------------------------------------------------
  // Tool names

  /** The characters a tool name may hold: `[a-zA-Z0-9_-]`. */
  predicate NameChar(c: char)
  {
    ('a' <= c <= 'z') || ('A' <= c <= 'Z') || ('0' <= c <= '9') || c == '_' || c == '-'
  }

  /** `_format_tool_name`: every character outside `[a-zA-Z0-9_-]` becomes `-`. */
  function FormatToolName(s: string): (r: string)
    ensures |r| == |s|
    ensures forall k :: 0 <= k < |s| ==> NameChar(r[k])
    ensures forall k :: 0 <= k < |s| ==> (NameChar(s[k]) ==> r[k] == s[k]) && (!NameChar(s[k]) ==> r[k] == '-')
  {
    seq(|s|, k requires 0 <= k < |s| => if NameChar(s[k]) then s[k] else '-')
  }

  lemma FormatToolNameIdempotent(s: string)
    ensures FormatToolName(FormatToolName(s)) == FormatToolName(s)
  {
  }

  /** A name already inside the character set is left as it is. */
  lemma FormatToolNameFixesValidNames(s: string)
    requires forall k :: 0 <= k < |s| ==> NameChar(s[k])
    ensures FormatToolName(s) == s
  {
  }

  /** The tool name of an output: the sanitised `"<component>.<method>"`. The
      dot is sanitised too, so the name holds `-` where the dot was. */
  function ToolName(component: string, methodName: string): (r: string)
    ensures r == FormatToolName(component) + "-" + FormatToolName(methodName)
  {
    var s := component + "." + methodName;
    assert forall k :: 0 <= k < |component| ==> s[k] == component[k];
    assert s[|component|] == '.';
    assert forall k :: 0 <= k < |methodName| ==> s[|component| + 1 + k] == methodName[k];
    FormatToolName(s)
  }

  /** Two methods of one component get distinct tool names exactly when their
      sanitised names differ. */
  lemma ToolNamesDistinct(component: string, m1: string, m2: string)
    ensures ToolName(component, m1) == ToolName(component, m2) <==> FormatToolName(m1) == FormatToolName(m2)
  {
    var p := FormatToolName(component) + "-";
    if ToolName(component, m1) == ToolName(component, m2) {
      assert p + FormatToolName(m1) == p + FormatToolName(m2);
      assert FormatToolName(m1) == (p + FormatToolName(m1))[|p|..];
      assert FormatToolName(m2) == (p + FormatToolName(m2))[|p|..];
    }
  }

  /** Distinct methods need not give distinct names: `a.b` and `a-b` collide. */
  lemma ToolNamesCanCollide()
    ensures ToolName("C", "a.b") == ToolName("C", "a-b")
  {
    assert FormatToolName("a.b") == "a-b";
    assert FormatToolName("a-b") == "a-b";
  }

  // ---------------------------------------------------------------------------
  // The toolkit

  /** The schema inputs of an output: its required inputs in their declared
      order, or every input of the component when none is declared. */
  function SchemaInputs(d: Declaration, o: Output): (r: Result<seq<InputSpec>, ToolError>)
    ensures |o.requiredInputs| == 0 ==> r == Ok(d.inputs)
    ensures |o.requiredInputs| > 0 ==> r == SelectInputs(d.inputs, o.requiredInputs)
  {
    if |o.requiredInputs| > 0 then SelectInputs(d.inputs, o.requiredInputs) else Ok(d.inputs)
  }

  /** The tool one output yields, or the exception that aborts `get_tools`:
      a missing method name, a method the component does not have, then a
      required input the component does not have. */
  function BuildTool(d: Declaration, o: Output): (r: Result<Tool, ToolError>)
    ensures r.Ok? ==> r.value.methodName == o.methodName
  {
    if o.methodName == "" then Err(MethodUnset(o.name))
    else if o.methodName !in d.methods then Err(MethodNotFound(o.methodName))
    else match SchemaInputs(d, o)
      case Err(e) => Err(e)
      case Ok(schema) => Ok(Tool(ToolName(d.name, o.methodName), Describe(d, o).value.text, schema, o.methodName))
  }

  /** The checks of one output in the order `get_tools` makes them, and the
      tool they lead to. */
  lemma BuildToolCorrect(d: Declaration, o: Output)
    ensures o.methodName == "" ==> BuildTool(d, o) == Err(MethodUnset(o.name))
    ensures o.methodName != "" && o.methodName !in d.methods ==> BuildTool(d, o) == Err(MethodNotFound(o.methodName))
    ensures BuildTool(d, o).Ok? <==> o.methodName != "" && o.methodName in d.methods && SchemaInputs(d, o).Ok?
    ensures BuildTool(d, o).Ok? ==>
      var t := BuildTool(d, o).value;
      t.name == ToolName(d.name, o.methodName) && t.methodName == o.methodName &&
      Ok(t.schema) == SchemaInputs(d, o) && Describe(d, o).Ok? && t.description == Describe(d, o).value.text
  {
  }

  /** The outputs that yield a tool: all except the one named `toolOutputName`. */
  function Kept(toolOutputName: string, outs: seq<Output>): (r: seq<Output>)
    decreases |outs|
  {
    if outs == [] then []
    else if outs[0].name == toolOutputName then Kept(toolOutputName, outs[1..])
    else [outs[0]] + Kept(toolOutputName, outs[1..])
  }

  function Prepend(acc: seq<Tool>, r: Result<seq<Tool>, ToolError>): Result<seq<Tool>, ToolError>
  {
    match r
    case Ok(ts) => Ok(acc + ts)
    case Err(e) => Err(e)
  }

  /** `get_tools` over the outputs `outs`, in order, where `build` gives the
      tool or the exception of one output: the first exception aborts the
      whole call. */
  function ToolsFrom(build: Output -> Result<Tool, ToolError>, toolOutputName: string, outs: seq<Output>)
    : Result<seq<Tool>, ToolError>
    decreases |outs|
  {
    if outs == [] then Ok([])
    else if outs[0].name == toolOutputName then ToolsFrom(build, toolOutputName, outs[1..])
    else match build(outs[0])
      case Err(e) => Err(e)
      case Ok(t) => Prepend([t], ToolsFrom(build, toolOutputName, outs[1..]))
  }

  /** `BuildTool` on the outputs of one component. */
  function Builder(d: Declaration): Output -> Result<Tool, ToolError>
  {
    o => BuildTool(d, o)
  }

  /** The tools of a component (the specification of `ComponentToolkit.GetTools`). */
  function Tools(d: Declaration, toolOutputName: string): Result<seq<Tool>, ToolError>
  {
    ToolsFrom(Builder(d), toolOutputName, d.outputs)
  }

  /** Every output of `outs` yields a tool. */
  ghost predicate AllBuilt(build: Output -> Result<Tool, ToolError>, outs: seq<Output>)
  {
    forall k :: 0 <= k < |outs| ==> build(outs[k]).Ok?
  }

  lemma AllBuiltCons(build: Output -> Result<Tool, ToolError>, o: Output, outs: seq<Output>)
    ensures AllBuilt(build, [o] + outs) <==> build(o).Ok? && AllBuilt(build, outs)
  {
    var s := [o] + outs;
    if AllBuilt(build, s) {
      assert build(s[0]).Ok?;
      forall k | 0 <= k < |outs| ensures build(outs[k]).Ok? {
        assert outs[k] == s[k + 1];
      }
    }
    if build(o).Ok? && AllBuilt(build, outs) {
      forall k | 0 <= k < |s| ensures build(s[k]).Ok? {
        if k > 0 { assert s[k] == outs[k - 1]; }
      }
    }
  }

  /** The call succeeds exactly when every kept output yields a tool. */
  lemma {:induction false} ToolsFromSucceeds(build: Output -> Result<Tool, ToolError>, toolOutputName: string, outs: seq<Output>)
    ensures ToolsFrom(build, toolOutputName, outs).Ok? <==> AllBuilt(build, Kept(toolOutputName, outs))
    decreases |outs|
  {
    if outs != [] {
      ToolsFromSucceeds(build, toolOutputName, outs[1..]);
      var rest := Kept(toolOutputName, outs[1..]);
      if outs[0].name != toolOutputName {
        assert Kept(toolOutputName, outs) == [outs[0]] + rest;
        AllBuiltCons(build, outs[0], rest);
      }
    }
  }

  /** On success there is one tool per kept output, in output order. */
  lemma {:induction false} ToolsFromInOrder(build: Output -> Result<Tool, ToolError>, toolOutputName: string, outs: seq<Output>)
    requires ToolsFrom(build, toolOutputName, outs).Ok?
    ensures var kept, ts := Kept(toolOutputName, outs), ToolsFrom(build, toolOutputName, outs).value;
      |ts| == |kept| && forall k :: 0 <= k < |kept| ==> build(kept[k]) == Ok(ts[k])
    decreases |outs|
  {
    if outs != [] {
      ToolsFromInOrder(build, toolOutputName, outs[1..]);
      var kept, rest := Kept(toolOutputName, outs), Kept(toolOutputName, outs[1..]);
      if outs[0].name != toolOutputName {
        assert kept == [outs[0]] + rest;
      }
    }
  }

  /** One step of `get_tools`, at output `i`, in the order of its checks. */
  lemma ToolsFromAt(d: Declaration, toolOutputName: string, outs: seq<Output>, i: nat)
    requires i < |outs|
    ensures var o, rest := outs[i], ToolsFrom(Builder(d), toolOutputName, outs[i + 1..]);
      ToolsFrom(Builder(d), toolOutputName, outs[i..]) ==
        if o.name == toolOutputName then rest
        else if o.methodName == "" then Err(MethodUnset(o.name))
        else if o.methodName !in d.methods then Err(MethodNotFound(o.methodName))
        else if |o.requiredInputs| > 0 && SelectInputs(d.inputs, o.requiredInputs).Err? then
          Err(SelectInputs(d.inputs, o.requiredInputs).error)
        else
          var schema := if |o.requiredInputs| > 0 then SelectInputs(d.inputs, o.requiredInputs).value else d.inputs;
          Prepend([Tool(ToolName(d.name, o.methodName), Describe(d, o).value.text, schema, o.methodName)], rest)
  {
    assert outs[i..][1..] == outs[i + 1..];
    assert Builder(d)(outs[i]) == BuildTool(d, outs[i]);
  }

  lemma PrependAppend(acc: seq<Tool>, t: Tool, r: Result<seq<Tool>, ToolError>)
    ensures Prepend(acc, Prepend([t], r)) == Prepend(acc + [t], r)
  {
    if r.Ok? {
      assert acc + ([t] + r.value) == acc + [t] + r.value;
    }
  }

  /** `outs[k]` is the first output of `outs` that cannot be built, and it
      fails with `e`. */
  ghost predicate FirstFailure(build: Output -> Result<Tool, ToolError>, outs: seq<Output>, k: int, e: ToolError)
  {
    0 <= k < |outs| && build(outs[k]) == Err(e) && forall j :: 0 <= j < k ==> build(outs[j]).Ok?
  }

  /** On failure the exception is that of the first kept output that cannot
      be built. */
  lemma {:induction false} ToolsFromFirstError(build: Output -> Result<Tool, ToolError>, toolOutputName: string, outs: seq<Output>)
    requires ToolsFrom(build, toolOutputName, outs).Err?
    ensures exists k :: FirstFailure(build, Kept(toolOutputName, outs), k, ToolsFrom(build, toolOutputName, outs).error)
    decreases |outs|
  {
    var kept, rest := Kept(toolOutputName, outs), Kept(toolOutputName, outs[1..]);
    var e := ToolsFrom(build, toolOutputName, outs).error;
    if outs[0].name == toolOutputName {
      ToolsFromFirstError(build, toolOutputName, outs[1..]);
    } else {
      assert kept == [outs[0]] + rest;
      if build(outs[0]).Ok? {
        ToolsFromFirstError(build, toolOutputName, outs[1..]);
        var k :| FirstFailure(build, rest, k, e);
        assert kept[k + 1] == rest[k];
        assert forall j :: 0 < j < k + 1 ==> kept[j] == rest[j - 1];
        assert FirstFailure(build, kept, k + 1, e);
      } else {
        assert FirstFailure(build, kept, 0, e);
      }
    }
  }

  /** The toolkit's whole contract on one component: one tool per output not
      named `toolOutputName`, in output order, with the name, method, schema
      and description `BuildTool` gives; or the exception of the first output
      that cannot be built, and no list. */
  lemma ToolsCorrect(d: Declaration, toolOutputName: string)
    ensures Tools(d, toolOutputName).Ok? <==> AllBuilt(Builder(d), Kept(toolOutputName, d.outputs))
    ensures var kept := Kept(toolOutputName, d.outputs);
      Tools(d, toolOutputName).Ok? ==>
        |Tools(d, toolOutputName).value| == |kept| &&
        forall k :: 0 <= k < |kept| ==> BuildTool(d, kept[k]) == Ok(Tools(d, toolOutputName).value[k])
    ensures Tools(d, toolOutputName).Err? ==>
      exists k :: FirstFailure(Builder(d), Kept(toolOutputName, d.outputs), k, Tools(d, toolOutputName).error)
  {
    var build := Builder(d);
    ToolsFromSucceeds(build, toolOutputName, d.outputs);
    if Tools(d, toolOutputName).Ok? {
      ToolsFromInOrder(build, toolOutputName, d.outputs);
    } else {
      ToolsFromFirstError(build, toolOutputName, d.outputs);
    }
  }

  /** Each tool's name is the sanitised `"<component>.<method>"` of its output. */
  lemma ToolNamesFollowOutputs(d: Declaration, toolOutputName: string, k: nat)
    requires Tools(d, toolOutputName).Ok?
    requires k < |Kept(toolOutputName, d.outputs)|
    ensures k < |Tools(d, toolOutputName).value|
    ensures var o, t := Kept(toolOutputName, d.outputs)[k], Tools(d, toolOutputName).value[k];
      t.name == ToolName(d.name, o.methodName) && t.methodName == o.methodName &&
      Ok(t.schema) == SchemaInputs(d, o) && t.description == Describe(d, o).value.text
  {
    ToolsCorrect(d, toolOutputName);
    BuildToolCorrect(d, Kept(toolOutputName, d.outputs)[k]);
  }

  /** A calculator component with inputs `x` and `y` and one output `sum`
      computed by `add` from the inputs `y` and `x`. */
  function Calculator(): Declaration
  {
    Declaration("Calculator", "adds numbers",
      [InputSpec("x", [], "int", Null), InputSpec("y", [], "int", Null)],
      [Output("sum", "add", ["y", "x"])], {"add"})
  }

  lemma CalculatorLookup()
    ensures Lookup(Calculator().inputs, "x") == Some(Calculator().inputs[0])
    ensures Lookup(Calculator().inputs, "y") == Some(Calculator().inputs[1])
  {
    var inputs := Calculator().inputs;
    assert IndexOf(inputs, "x") == 0;
    assert IndexOf(inputs, "y") == 1 by { assert inputs[1..] == [inputs[1]]; }
  }

  lemma SelectInputsCons(inputs: seq<InputSpec>, n: string, names: seq<string>, i: InputSpec, rest: seq<InputSpec>)
    requires Lookup(inputs, n) == Some(i) && SelectInputs(inputs, names) == Ok(rest)
    ensures SelectInputs(inputs, [n] + names) == Ok([i] + rest)
  {
    assert ([n] + names)[1..] == names;
  }

  lemma CalculatorSelect()
    ensures SelectInputs(Calculator().inputs, ["y", "x"]) == Ok([Calculator().inputs[1], Calculator().inputs[0]])
  {
    var inputs := Calculator().inputs;
    CalculatorLookup();
    assert SelectInputs(inputs, []) == Ok([]);
    SelectInputsCons(inputs, "x", [], inputs[0], []);
    assert ["x"] + [] == ["x"] && [inputs[0]] + [] == [inputs[0]];
    SelectInputsCons(inputs, "y", ["x"], inputs[1], [inputs[0]]);
    assert ["y"] + ["x"] == ["y", "x"];
    assert [inputs[1]] + [inputs[0]] == [inputs[1], inputs[0]];
  }

  lemma CalculatorArgList()
    ensures ArgList(Calculator().inputs, ["y", "x"]) == ["y: int", "x: int"]
  {
    var inputs := Calculator().inputs;
    CalculatorLookup();
    assert ArgOf(inputs, "x") == "x: int";
    assert ArgOf(inputs, "y") == "y: int";
  }

  lemma CalculatorSort()
    ensures SortStrings(["y: int", "x: int"]) == ["x: int", "y: int"]
  {
    assert ["y: int", "x: int"][1..] == ["x: int"];
    assert SortStrings(["x: int"]) == ["x: int"] by {
      assert ["x: int"][1..] == [];
      assert Insert("x: int", []) == ["x: int"];
    }
    assert LexLe("x: int", "y: int");
    assert !LexLe("y: int", "x: int");
  }

  lemma DescribeWith(d: Declaration, o: Output, args: seq<string>)
    requires |o.requiredInputs| > 0 && SelectInputs(d.inputs, o.requiredInputs).Ok?
    requires SortStrings(ArgList(d.inputs, o.requiredInputs)) == args
    ensures Describe(d, o) == Ok(Described(o.methodName + "(" + Join(", ", args) + ") - " + d.description, false))
  {
  }

  lemma CalculatorDescribeArgs()
    ensures Describe(Calculator(), Calculator().outputs[0])
         == Ok(Described("add" + "(" + Join(", ", ["x: int", "y: int"]) + ") - " + "adds numbers", false))
  {
    CalculatorSelect();
    CalculatorArgList();
    CalculatorSort();
    DescribeWith(Calculator(), Calculator().outputs[0], ["x: int", "y: int"]);
  }

  lemma CalculatorText()
    ensures "add" + "(" + Join(", ", ["x: int", "y: int"]) + ") - " + "adds numbers" == "add(x: int, y: int) - adds numbers"
  {
    CalculatorJoin();
  }

  lemma CalculatorJoin()
    ensures Join(", ", ["x: int", "y: int"]) == "x: int, y: int"
  {
    assert ["x: int", "y: int"][1..] == ["y: int"];
  }

  /** The calculator's description lists its arguments sorted, although the
      output requires them in the order `y`, `x`. */
  lemma CalculatorDescription()
    ensures Describe(Calculator(), Calculator().outputs[0]) == Ok(Described("add(x: int, y: int) - adds numbers", false))
  {
    CalculatorDescribeArgs();
    CalculatorText();
  }

  lemma CalculatorToolName()
    ensures ToolName("Calculator", "add") == "Calculator-add"
  {
    assert FormatToolName("Calculator") == "Calculator";
    assert FormatToolName("add") == "add";
  }

  /** The calculator's one output builds the tool `Calculator-add`. */
  lemma CalculatorBuild()
    ensures BuildTool(Calculator(), Calculator().outputs[0]) ==
      Ok(Tool("Calculator-add", "add(x: int, y: int) - adds numbers",
              [Calculator().inputs[1], Calculator().inputs[0]], "add"))
  {
    var d := Calculator();
    CalculatorSelect();
    CalculatorDescription();
    CalculatorToolName();
    var o := d.outputs[0];
    assert o.methodName == "add" && o.methodName in d.methods && |o.requiredInputs| > 0;
  }

  /** The calculator yields the single tool `Calculator-add`. */
  lemma CalculatorExample(toolOutputName: string)
    requires toolOutputName != "sum"
    ensures Tools(Calculator(), toolOutputName) ==
      Ok([Tool("Calculator-add", "add(x: int, y: int) - adds numbers",
               [Calculator().inputs[1], Calculator().inputs[0]], "add")])
  {
    var d := Calculator();
    var t := Tool("Calculator-add", "add(x: int, y: int) - adds numbers", [d.inputs[1], d.inputs[0]], "add");
    CalculatorBuild();
    assert Builder(d)(d.outputs[0]) == Ok(t);
    assert ToolsFrom(Builder(d), toolOutputName, d.outputs[1..]) == Ok([]);
    assert [t] + [] == [t];
  }

  // ---------------------------------------------------------------------------
  // The component and its tool callables

  /** The inputs after `component.set(**kwargs)`: each input named in `kwargs`
      takes the given value; nothing else changes. */
  function Assign(inputs: seq<InputSpec>, kwargs: map<string, Value>): (r: seq<InputSpec>)
    ensures |r| == |inputs|
    ensures forall k :: 0 <= k < |inputs| ==>
      r[k].name == inputs[k].name && r[k].inputTypes == inputs[k].inputTypes && r[k].fieldType == inputs[k].fieldType
    ensures forall k :: 0 <= k < |inputs| ==>
      r[k].value == if inputs[k].name in kwargs then kwargs[inputs[k].name] else inputs[k].value
  {
    seq(|inputs|, k requires 0 <= k < |inputs| =>
      if inputs[k].name in kwargs then inputs[k].(value := kwargs[inputs[k].name]) else inputs[k])
  }

  /** Writing the arguments keeps the declared keys, so a second call sees the
      same inputs, with the values of the first call. */
  lemma AssignKeepsNames(inputs: seq<InputSpec>, kwargs: map<string, Value>)
    ensures InputNames(Assign(inputs, kwargs)) == InputNames(inputs)
    ensures DistinctNames(inputs) ==> DistinctNames(Assign(inputs, kwargs))
  {
    var r := Assign(inputs, kwargs);
    assert forall n :: n in InputNames(r) ==> n in InputNames(inputs) by {
      forall n | n in InputNames(r) ensures n in InputNames(inputs) {
        var k :| 0 <= k < |r| && r[k].name == n;
        assert inputs[k].name == n;
      }
    }
    assert forall n :: n in InputNames(inputs) ==> n in InputNames(r) by {
      forall n | n in InputNames(inputs) ensures n in InputNames(r) {
        var k :| 0 <= k < |inputs| && inputs[k].name == n;
        assert r[k].name == n;
      }
    }
  }

  /** A component instance. Its inputs change when a tool runs; its name,
      description, outputs and methods are fixed. Each method is a function of
      the current inputs. */
  class Component {
    const name: string
    const description: string
    var inputs: seq<InputSpec>
    const outputs: seq<Output>
    const behaviours: map<string, seq<InputSpec> -> Value>

    ghost predicate Valid()
      reads this
    {
      DistinctNames(inputs)
    }

    /** The declaration the toolkit reads. */
    function Declared(): (d: Declaration)
      reads this
      ensures d.inputs == inputs && d.methods == behaviours.Keys
    {
      Declaration(name, description, inputs, outputs, behaviours.Keys)
    }

    constructor (name: string, description: string, inputs: seq<InputSpec>, outputs: seq<Output>,
                 behaviours: map<string, seq<InputSpec> -> Value>)
      requires DistinctNames(inputs)
      ensures Valid()
      ensures this.name == name && this.description == description && this.inputs == inputs
      ensures this.outputs == outputs && this.behaviours == behaviours
    {
      this.name := name;
      this.description := description;
      this.inputs := inputs;
      this.outputs := outputs;
      this.behaviours := behaviours;
    }

    /** `component.set(**kwargs)`: every keyword must name an input; then each
        named input takes its argument. A rejected call changes nothing. */
    method Set(kwargs: map<string, Value>) returns (ok: bool)
      requires Valid()
      modifies this
      ensures Valid()
      ensures ok <==> kwargs.Keys <= InputNames(old(inputs))
      ensures inputs == if ok then Assign(old(inputs), kwargs) else old(inputs)
    {
      ok := kwargs.Keys <= InputNames(inputs);
      if ok {
        AssignKeepsNames(inputs, kwargs);
        inputs := Assign(inputs, kwargs);
      }
    }
  }

  /** The callable of a tool (`_build_output_function`): write the arguments
      into the component, then run the output method on the new inputs and
      return its result unchanged. The written values stay in the component. */
  method RunTool(c: Component, t: Tool, kwargs: map<string, Value>) returns (r: Result<Value, ToolError>)
    requires c.Valid()
    requires t.methodName in c.behaviours
    modifies c
    ensures c.Valid()
    ensures kwargs.Keys <= InputNames(old(c.inputs)) ==>
      c.inputs == Assign(old(c.inputs), kwargs) && r == Ok(c.behaviours[t.methodName](c.inputs))
    ensures !(kwargs.Keys <= InputNames(old(c.inputs))) ==> c.inputs == old(c.inputs) && r == Err(UnknownArgument)
  {
    var ok := c.Set(kwargs);
    if !ok {
      return Err(UnknownArgument);
    }
    var run := c.behaviours[t.methodName];
    r := Ok(run(c.inputs));
  }

  /** `ComponentToolkit`: builds the tools of one component. */
  class ComponentToolkit {
    const component: Component

    constructor (component: Component)
      ensures this.component == component
    {
      this.component := component;
    }

    /** `get_tools`: loops over the outputs, skipping `toolOutputName`, and
        appends one tool per output, or stops at the first exception. */
    method GetTools(toolOutputName: string) returns (r: Result<seq<Tool>, ToolError>)
      ensures r == Tools(component.Declared(), toolOutputName)
    {
      ghost var d := component.Declared();
      ghost var spec := Tools(d, toolOutputName);
      ghost var build := Builder(d);
      var outs := component.outputs;
      var tools: seq<Tool> := [];
      var i := 0;
      assert outs[i..] == d.outputs;
      match ToolsFrom(build, toolOutputName, outs) {
        case Ok(ts) => assert tools + ts == ts;
        case Err(_) =>
      }
      while i < |outs|
        invariant 0 <= i <= |outs|
        invariant spec == Prepend(tools, ToolsFrom(build, toolOutputName, outs[i..]))
      {
        var output := outs[i];
        ghost var rest := ToolsFrom(build, toolOutputName, outs[i + 1..]);
        ToolsFromAt(d, toolOutputName, outs, i);
        if output.name == toolOutputName {
          i := i + 1;
          continue;
        }
        if output.methodName == "" {
          return Err(MethodUnset(output.name));
        }
        if output.methodName !in component.behaviours {
          return Err(MethodNotFound(output.methodName));
        }
        var schema: seq<InputSpec>;
        if |output.requiredInputs| > 0 {
          var selected := SelectInputs(component.inputs, output.requiredInputs);
          if selected.Err? {
            return Err(selected.error);
          }
          schema := selected.value;
        } else {
          schema := component.inputs;
        }
        var toolName := ToolName(component.name, output.methodName);
        var described := Describe(component.Declared(), output);
        var tool := Tool(toolName, described.value.text, schema, output.methodName);
        PrependAppend(tools, tool, rest);
        tools := tools + [tool];
        i := i + 1;
      }
      assert outs[i..] == [] && tools + [] == tools;
      r := Ok(tools);
    }
  }
}
