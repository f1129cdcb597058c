/**
 * The tools the assistant can call, how one is found by name, how their names are listed
 * for the prompt, and the pure decisions inside the tool functions.
 */
module Tools {
  import opened Wrappers

  /** Which retriever a `search_qa` tool was built from. */
  type RetrieverId = nat

  /** The function behind a tool; its behaviour is supplied from outside the model. */
  datatype ToolFunc =
    | CustomerFeature
    | ScheduledFlights
    | FlightDetail
    | Retriever(source: RetrieverId)

  datatype Tool = Tool(name: string, func: ToolFunc)

  /** The three decorated tool functions, named after the functions themselves. */
  function DefaultTools(): seq<Tool>
  {
    [ Tool("get_customer_feature", CustomerFeature),
      Tool("get_scheduled_flights", ScheduledFlights),
      Tool("get_flight_detail", FlightDetail) ]
  }

  /** The knowledge-base tool each assistant construction creates around its retriever. */
  function SearchQa(retriever: RetrieverId): Tool
  {
    Tool("search_qa", Retriever(retriever))
  }

  // ---------------------------------------------------------------------------------------
  // find_tool_by_name

  /** Message of the ValueError raised when no tool has the name (spelling as in the source). */
  function NotFoundMessage(name: string): string
  {
    "Tool wtih name " + name + " not found"
  }

  /** Index i holds the first tool of the list whose name is exactly `name`. */
  predicate IsFirstNamed(tools: seq<Tool>, name: string, i: int)
  {
    0 <= i < |tools| && tools[i].name == name &&
    forall j :: 0 <= j < i ==> tools[j].name != name
  }

  /** What `find_tool_by_name` returns or raises, as a function of the list. */
  function FindTool(tools: seq<Tool>, name: string): (r: Result<Tool, string>)
    ensures r.Success? <==> exists i :: 0 <= i < |tools| && tools[i].name == name
    ensures r.Success? ==> exists i :: IsFirstNamed(tools, name, i) && tools[i] == r.value
    ensures r.Failure? ==> r.error == NotFoundMessage(name)
  {
    if tools == [] then Failure(NotFoundMessage(name))
    else if tools[0].name == name then
      assert IsFirstNamed(tools, name, 0);
      Success(tools[0])
    else
      var r := FindTool(tools[1..], name);
      if r.Success? then
        var i :| IsFirstNamed(tools[1..], name, i) && tools[1..][i] == r.value;
        assert IsFirstNamed(tools, name, i + 1);
        r
      else
        assert forall i :: 1 <= i < |tools| ==> tools[i] == tools[1..][i - 1];
        r
  }

  /** `find_tool_by_name`: a linear scan with early return, raising when the scan ends. */
  method FindToolByName(tools: seq<Tool>, toolName: string) returns (r: Result<Tool, string>)
    ensures r == FindTool(tools, toolName)
  {
    for i := 0 to |tools|
      invariant forall j :: 0 <= j < i ==> tools[j].name != toolName
    {
      if tools[i].name == toolName {
        FirstNamedUnique(tools, toolName, i);
        return Success(tools[i]);
      }
    }
    return Failure(NotFoundMessage(toolName));
  }

  lemma FirstNamedUnique(tools: seq<Tool>, name: string, i: int)
    requires IsFirstNamed(tools, name, i)
    ensures FindTool(tools, name) == Success(tools[i])
  {
    assert tools[i].name == name;
    var r := FindTool(tools, name);
    assert r.Success?;
    var k :| IsFirstNamed(tools, name, k) && tools[k] == r.value;
    assert !(k < i) && !(i < k);
  }

  /** Appending tools never changes what a name that is already present resolves to. */
  lemma {:induction false} FindToolShadowed(tools: seq<Tool>, more: seq<Tool>, name: string)
    requires FindTool(tools, name).Success?
    ensures FindTool(tools + more, name) == FindTool(tools, name)
  {
    var i :| IsFirstNamed(tools, name, i) && tools[i] == FindTool(tools, name).value;
    assert IsFirstNamed(tools + more, name, i);
    FirstNamedUnique(tools + more, name, i);
  }

  /**
   * However many `search_qa` tools have been appended behind the defaults, the name resolves
   * to the first of them.
   */
  lemma SearchQaResolvesToEarliest(retriever: RetrieverId, later: seq<Tool>)
    ensures FindTool(DefaultTools() + [SearchQa(retriever)] + later, "search_qa") == Success(SearchQa(retriever))
  {
    var tools := DefaultTools() + [SearchQa(retriever)] + later;
    assert IsFirstNamed(tools, "search_qa", 3);
    FirstNamedUnique(tools, "search_qa", 3);
  }

  // ---------------------------------------------------------------------------------------
  // tool_names: ', '.join([t.name for t in tools])

  function Names(tools: seq<Tool>): (names: seq<string>)
    ensures |names| == |tools|
    ensures forall i :: 0 <= i < |tools| ==> names[i] == tools[i].name
  {
    seq(|tools|, i requires 0 <= i < |tools| => tools[i].name)
  }

  /** `", ".join(parts)`. */
  function Join(parts: seq<string>): (s: string)
    ensures |parts| == 1 ==> s == parts[0]
  {
    if parts == [] then ""
    else if |parts| == 1 then parts[0]
    else parts[0] + ", " + Join(parts[1..])
  }

  function ToolNames(tools: seq<Tool>): string
  {
    Join(Names(tools))
  }

  /** Joining one more part adds the separator and that part at the end. */
  lemma {:induction false} JoinSnoc(parts: seq<string>, p: string)
    requires parts != []
    ensures Join(parts + [p]) == Join(parts) + ", " + p
    decreases |parts|
  {
    if |parts| > 1 {
      assert (parts + [p])[1..] == parts[1..] + [p];
      JoinSnoc(parts[1..], p);
    }
  }

  /** Joining two non-empty lists of parts joins their joins with one separator. */
  lemma {:induction false} JoinAppend(parts: seq<string>, more: seq<string>)
    requires parts != [] && more != []
    ensures Join(parts + more) == Join(parts) + ", " + Join(more)
    decreases |parts|
  {
    assert (parts + more)[0] == parts[0];
    assert (parts + more)[1..] == parts[1..] + more;
    if |parts| > 1 {
      JoinAppend(parts[1..], more);
    }
  }

  /** Appending tools keeps the joined names of the tools already there as a prefix. */
  lemma ToolNamesPrefix(tools: seq<Tool>, more: seq<Tool>)
    ensures ToolNames(tools) <= ToolNames(tools + more)
  {
    if tools != [] && more != [] {
      assert Names(tools + more) == Names(tools) + Names(more);
      JoinAppend(Names(tools), Names(more));
    } else if more == [] {
      assert tools + more == tools;
    }
  }

  /** The separator `", "` starts at index i of s. */
  predicate SeparatorAt(s: string, i: int)
  {
    0 <= i && i + 1 < |s| && s[i] == ',' && s[i + 1] == ' '
  }

  function FirstSeparator(s: string): (i: nat)
    ensures i <= |s| && (i < |s| ==> SeparatorAt(s, i))
    ensures forall j :: 0 <= j < i ==> !SeparatorAt(s, j)
  {
    if |s| < 2 then |s|
    else if s[0] == ',' && s[1] == ' ' then 0
    else
      assert forall j :: 1 <= j ==> SeparatorAt(s, j) == SeparatorAt(s[1..], j - 1);
      1 + FirstSeparator(s[1..])
  }

  /** `s.split(", ")`: the parts between non-overlapping separators, left to right. */
  function Split(s: string): (parts: seq<string>)
    ensures parts != []
    decreases |s|
  {
    var i := FirstSeparator(s);
    if i == |s| then [s] else [s[..i]] + Split(s[i + 2..])
  }

  predicate NoComma(p: string)
  {
    forall k :: 0 <= k < |p| ==> p[k] != ','
  }

  lemma NoCommaNoSeparator(p: string, rest: string)
    requires NoComma(p)
    ensures FirstSeparator(p + rest) >= |p|
  {
    var s := p + rest;
    forall j | 0 <= j < |p| ensures !SeparatorAt(s, j) {
      assert s[j] == p[j];
    }
  }

  /** A comma-free part followed by the separator is split off as it is. */
  lemma SplitStep(p: string, rest: string)
    requires NoComma(p)
    ensures Split(p + ", " + rest) == [p] + Split(rest)
  {
    var s := p + ", " + rest;
    assert s == p + (", " + rest);
    NoCommaNoSeparator(p, ", " + rest);
    assert SeparatorAt(s, |p|);
    assert FirstSeparator(s) == |p|;
    assert s[..|p|] == p;
    assert s[|p| + 2..] == rest;
  }

  /** When no name contains a comma, splitting the joined names gives back the names. */
  lemma {:induction false} SplitJoin(parts: seq<string>)
    requires parts != []
    requires forall i :: 0 <= i < |parts| ==> NoComma(parts[i])
    ensures Split(Join(parts)) == parts
    decreases |parts|
  {
    var p := parts[0];
    if |parts| == 1 {
      NoCommaNoSeparator(p, []);
      assert p + [] == p;
    } else {
      assert Join(parts) == p + ", " + Join(parts[1..]);
      SplitStep(p, Join(parts[1..]));
      assert forall i :: 0 <= i < |parts[1..]| ==> NoComma(parts[1..][i]) by {
        forall i | 0 <= i < |parts[1..]| ensures NoComma(parts[1..][i]) {
          assert parts[1..][i] == parts[i + 1];
        }
      }
      SplitJoin(parts[1..]);
      assert parts == [p] + parts[1..];
    }
  }

  // ---------------------------------------------------------------------------------------
  // Decisions inside the tool functions; the database answers are inputs

  const NotFound: string := "Not found"

  /**
   * `_get_customer_feature` after its REST call: `data` is the response's row list. One row
   * gives its `value` (a KeyError when it has none); any other count gives "Not found".
   */
  function CustomerFeatureValue(data: seq<map<string, string>>): (r: Result<string, string>)
    ensures |data| != 1 ==> r == Success(NotFound)
    ensures |data| == 1 ==> (r.Success? <==> "value" in data[0])
    ensures |data| == 1 && r.Success? ==> r.value == data[0]["value"]
  {
    if |data| == 1 then
      if "value" in data[0] then Success(data[0]["value"]) else Failure("value")
    else Success(NotFound)
  }

  /**
   * The filter of `get_scheduled_flights`: `{"customerId": customer_id, **conditions}`.
   * Every condition is kept, and a `customerId` among the conditions wins over the argument.
   */
  function ScheduledFlightsFilter<J>(customerId: J, conditions: map<string, J>): (f: map<string, J>)
    ensures f.Keys == conditions.Keys + {"customerId"}
    ensures forall k :: k in conditions ==> f[k] == conditions[k]
    ensures "customerId" !in conditions ==> f["customerId"] == customerId
  {
    map["customerId" := customerId] + conditions
  }

  /** The filter of `get_flight_detail`: the ticket is looked up by document id alone. */
  function FlightDetailFilter<J>(ticketId: J): (f: map<string, J>)
    ensures f.Keys == {"_id"} && f["_id"] == ticketId
  {
    map["_id" := ticketId]
  }
}
