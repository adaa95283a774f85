/** The request helpers of the reference v3 API: reading the log list
    from a body, the delegate tenant override, reading single, integer and
    time parameters, parsing and validating `dimensions`, and the start/end
    check. The app v3 helpers share every routine here except the time
    handling (see AppHelpers). */
module ReferenceHelpers {
  import opened Base
  import opened Py
  import opened PyDict
  import opened LogsRepository

  // ---------------------------------------------------------------------
  // get_logs

  /** The `logs` member of a decoded request body. */
  function GetLogs(body: map<string, Json>): (r: Result<Json>)
    ensures r.Ok? <==> "logs" in body
    ensures r.Ok? ==> r.value == body["logs"]
    ensures r.Err? ==> r.error == Unprocessable("Unprocessable Entity Logs not found")
  {
    if "logs" !in body then Err(Unprocessable("Unprocessable Entity Logs not found"))
    else Ok(body["logs"])
  }

  // ---------------------------------------------------------------------
  // get_x_tenant_or_tenant_id

  /** What `for x in req.roles` visits: the elements of a list, or the
      one-character strings of a string. */
  function RoleItems(roles: ParamVal): (r: seq<string>)
    ensures roles.Lst? ==> r == roles.items
    ensures roles.Str? ==> |r| == |roles.s| && forall i :: 0 <= i < |r| ==> r[i] == [roles.s[i]]
  {
    match roles
    case Lst(items) => items
    case Str(s) => seq(|s|, i requires 0 <= i < |s| => [s[i]])
  }

  /** `any(x in set(ys) for x in xs)`. */
  function AnyIn(xs: seq<string>, ys: seq<string>): (b: bool)
    ensures b <==> exists i :: 0 <= i < |xs| && xs[i] in ys
  {
    if |xs| == 0 then false
    else if xs[0] in ys then true
    else
      assert forall i :: 1 <= i < |xs| ==> xs[i] == xs[1..][i - 1];
      AnyIn(xs[1..], ys)
  }

  /** The request's own project as a tenant. */
  function ProjectTenant(projectId: Option<string>): Option<ParamVal> {
    if projectId.Some? then Some(Str(projectId.value)) else None
  }

  /** The query `tenant_id` when one of the caller's roles is a delegate
      role and the query names a tenant, otherwise the caller's project. */
  function GetXTenantOrTenantId(roles: ParamVal, delegateRoles: seq<string>, params: Params,
                                projectId: Option<string>): (r: Option<ParamVal>)
    ensures ((exists i :: 0 <= i < |RoleItems(roles)| && RoleItems(roles)[i] in delegateRoles)
             && "tenant_id" in params) ==> r == Some(params["tenant_id"])
    ensures !(exists i :: 0 <= i < |RoleItems(roles)| && RoleItems(roles)[i] in delegateRoles)
            ==> r == ProjectTenant(projectId)
    ensures "tenant_id" !in params ==> r == ProjectTenant(projectId)
  {
    if AnyIn(RoleItems(roles), delegateRoles) && "tenant_id" in params then Some(params["tenant_id"])
    else ProjectTenant(projectId)
  }

  // ---------------------------------------------------------------------
  // get_query_param, get_int_query_param

  /** The first value of a parameter; the default when it is absent and
      optional; 422 when it is absent and required, or given as an empty list. */
  function GetQueryParam(params: Params, name: string, required: bool, default: Scalar): (r: Result<Scalar>)
    ensures name in params && params[name].Str? ==> r == Ok(SStr(params[name].s))
    ensures name in params && params[name].Lst? && |params[name].items| > 0
            ==> r == Ok(SStr(params[name].items[0]))
    ensures name in params && params[name] == Lst([]) ==> r == Err(Unprocessable("list index out of range"))
    ensures name !in params && required ==> r == Err(Unprocessable("Missing " + name))
    ensures name !in params && !required ==> r == Ok(default)
  {
    if name in params then
      match params[name]
      case Lst(items) =>
        if |items| > 0 then Ok(SStr(items[0])) else Err(Unprocessable("list index out of range"))
      case Str(s) => Ok(SStr(s))
    else if required then Err(Unprocessable("Missing " + name))
    else Ok(default)
  }

  /** A repeated parameter reads as its first occurrence. */
  lemma RepeatedParamReadsFirst(params: Params, name: string, v: string, more: seq<string>,
                                required: bool, default: Scalar)
    ensures GetQueryParam(params[name := Lst([v] + more)], name, required, default)
         == GetQueryParam(params[name := Str(v)], name, required, default)
  {
  }

  /** An optional integer parameter: `None` and ints pass through, text
      goes through `int()`, and text that is not an integer gives 422
      naming the parameter and the text. */
  function GetIntQueryParam(params: Params, name: string, default: Scalar): (r: Result<Option<int>>)
    ensures name !in params && default == SNone ==> r == Ok(None)
    ensures name !in params && default.SInt? ==> r == Ok(Some(default.i))
    ensures name !in params && default.SStr? && ParseInt(default.s).Some?
            ==> r == Ok(Some(ParseInt(default.s).value))
    ensures name in params && params[name].Str? ==>
              r == (if ParseInt(params[name].s).Some? then Ok(Some(ParseInt(params[name].s).value))
                    else Err(Unprocessable("Parameter " + name + " value " + params[name].s + " must be an integer")))
    ensures name in params && params[name] == Lst([]) ==> r == Err(Unprocessable("list index out of range"))
    ensures name in params && params[name].Lst? && |params[name].items| > 0 ==>
              var first := params[name].items[0];
              r == (if ParseInt(first).Some? then Ok(Some(ParseInt(first).value))
                    else Err(Unprocessable("Parameter " + name + " value " + first + " must be an integer")))
    ensures name !in params && default.SStr? && ParseInt(default.s).None?
            ==> r == Err(Unprocessable("Parameter " + name + " value " + default.s + " must be an integer"))
    ensures r.Ok? && r.value.None? ==> name !in params && default == SNone
  {
    var val :- GetQueryParam(params, name, false, default);
    match val
    case SNone => Ok(None)
    case SInt(i) => Ok(Some(i))
    case SStr(s) =>
      var n := ParseInt(s);
      if n.Some? then Ok(Some(n.value))
      else Err(Unprocessable("Parameter " + name + " value " + s + " must be an integer"))
  }

  /** The text of any integer reads back as that integer. */
  lemma IntQueryParamRoundTrip(params: Params, name: string, default: Scalar, n: int)
    ensures GetIntQueryParam(params[name := Str(IntToString(n))], name, default) == Ok(Some(n))
  {
    IntRoundTrip(n);
  }

  // ---------------------------------------------------------------------
  // get_query_dimensions

  /** Each text split on `sep`, the pieces concatenated in order. */
  function SplitAll(items: seq<string>, sep: char): (r: seq<string>)
    ensures forall i :: 0 <= i < |r| ==> sep !in r[i]
    ensures |r| >= |items|
  {
    if |items| == 0 then []
    else SplitAll(items[..|items| - 1], sep) + Split(items[|items| - 1], sep)
  }

  /** The comma-separated fragments of a `dimensions` value: a string is
      split on `,`; each element of a list is, in turn. */
  function DimensionFragments(p: ParamVal): (r: seq<string>)
    ensures forall i :: 0 <= i < |r| ==> ',' !in r[i]
  {
    match p
    case Str(s) => Split(s, ',')
    case Lst(items) => SplitAll(items, ',')
  }

  /** Joining the fragments of a list with commas gives back its elements
      joined with commas. */
  lemma {:induction false} SplitAllJoin(items: seq<string>)
    requires |items| >= 1
    ensures Join(',', SplitAll(items, ',')) == Join(',', items)
  {
    var init := items[..|items| - 1];
    var last := items[|items| - 1];
    assert items == init + [last];
    JoinSplit(last, ',');
    if |init| == 0 {
      assert SplitAll(items, ',') == Split(last, ',');
    } else {
      SplitAllJoin(init);
      JoinAppend(',', SplitAll(init, ','), Split(last, ','));
      JoinAppend(',', init, [last]);
    }
  }

  /** A repeated `dimensions` parameter yields the same fragments as one
      parameter holding its values joined by commas. */
  lemma ListFragmentsAsJoined(items: seq<string>)
    requires |items| >= 1
    ensures DimensionFragments(Lst(items)) == DimensionFragments(Str(Join(',', items)))
  {
    SplitAllJoin(items);
    SplitJoin(SplitAll(items, ','), ',');
  }

  /** The name a `name:value` fragment stores under. */
  function FragmentName(f: string): string { Split(f, ':')[0] }

  /** The value it stores: the text after the colon, or `""` without one. */
  function FragmentValue(f: string): string {
    var parts := Split(f, ':');
    if |parts| == 2 then parts[1] else ""
  }

  /** A fragment is well formed when it has at most one colon. */
  predicate WellFormedFragment(f: string) { |Split(f, ':')| <= 2 }

  /** The mapping the fragments build, each storing its name and value in
      turn, or 422 `Dimensions are malformed` for a fragment with two
      colons or more. */
  function ParseDimensionFragments(frags: seq<string>): (r: Result<Dict<string>>)
    ensures r.Ok? <==> forall i :: 0 <= i < |frags| ==> WellFormedFragment(frags[i])
    ensures r.Err? ==> r.error == Unprocessable("Dimensions are malformed")
  {
    if |frags| == 0 then Ok([])
    else
      var init := frags[..|frags| - 1];
      var f := frags[|frags| - 1];
      assert frags == init + [f];
      var dims :- ParseDimensionFragments(init);
      if !WellFormedFragment(f) then Err(Unprocessable("Dimensions are malformed"))
      else Ok(Put(dims, FragmentName(f), FragmentValue(f)))
  }

  /** Unfolding the last fragment of a well-formed list. */
  lemma ParseLastFragment(frags: seq<string>)
    requires |frags| > 0 && ParseDimensionFragments(frags).Ok?
    ensures ParseDimensionFragments(frags[..|frags| - 1]).Ok?
    ensures ParseDimensionFragments(frags).value
         == Put(ParseDimensionFragments(frags[..|frags| - 1]).value,
                FragmentName(frags[|frags| - 1]), FragmentValue(frags[|frags| - 1]))
  {
    var init := frags[..|frags| - 1];
    assert forall i :: 0 <= i < |init| ==> init[i] == frags[i];
  }

  /** The parsed mapping holds each key once. */
  lemma {:induction false} ParsedDistinct(frags: seq<string>)
    requires ParseDimensionFragments(frags).Ok?
    ensures DistinctKeys(ParseDimensionFragments(frags).value)
  {
    if |frags| > 0 {
      ParseLastFragment(frags);
      var init := frags[..|frags| - 1];
      ParsedDistinct(init);
      PutDistinct(ParseDimensionFragments(init).value, FragmentName(frags[|frags| - 1]),
                  FragmentValue(frags[|frags| - 1]));
    }
  }

  /** The names the fragments store under, in order. */
  function FragmentNames(frags: seq<string>): (r: seq<string>)
    ensures |r| == |frags|
    ensures forall i :: 0 <= i < |frags| ==> r[i] == FragmentName(frags[i])
  {
    if |frags| == 0 then []
    else FragmentNames(frags[..|frags| - 1]) + [FragmentName(frags[|frags| - 1])]
  }

  /** Its keys are exactly the fragments' names. */
  lemma {:induction false} ParsedKeys(frags: seq<string>)
    requires ParseDimensionFragments(frags).Ok?
    ensures forall k :: k in Keys(ParseDimensionFragments(frags).value) <==> k in FragmentNames(frags)
  {
    if |frags| > 0 {
      var init := frags[..|frags| - 1];
      var f := frags[|frags| - 1];
      ParseLastFragment(frags);
      ParsedKeys(init);
      var d := ParseDimensionFragments(init).value;
      var n := FragmentName(f);
      var d' := ParseDimensionFragments(frags).value;
      assert d' == Put(d, n, FragmentValue(f));
      forall k
        ensures k in Keys(d') <==> k in FragmentNames(frags)
      {
        assert k in Keys(d') <==> Get(d', k).Some?;
        assert k in Keys(d) <==> Get(d, k).Some?;
        if k != n {
          assert Get(d', k) == Get(d, k);
        }
      }
    }
  }

  /** A repeated name keeps the value of its last fragment. */
  lemma {:induction false} LastFragmentWins(frags: seq<string>, i: int)
    requires ParseDimensionFragments(frags).Ok?
    requires 0 <= i < |frags|
    requires forall j :: i < j < |frags| ==> FragmentName(frags[j]) != FragmentName(frags[i])
    ensures Get(ParseDimensionFragments(frags).value, FragmentName(frags[i])) == Some(FragmentValue(frags[i]))
  {
    var init := frags[..|frags| - 1];
    ParseLastFragment(frags);
    if i < |frags| - 1 {
      assert forall j :: i < j < |init| ==> init[j] == frags[j];
      LastFragmentWins(init, i);
    }
  }

  /** The dimensions named in the query: the empty mapping when the
      parameter is absent. */
  function QueryDimensions(params: Params): (r: Result<Dict<string>>)
    ensures "dimensions" !in params ==> r == Ok([])
    ensures "dimensions" in params ==> r == ParseDimensionFragments(DimensionFragments(params["dimensions"]))
  {
    if "dimensions" !in params then Ok([])
    else ParseDimensionFragments(DimensionFragments(params["dimensions"]))
  }

  /** The first loop of `get_query_dimensions`: a string is split on `,`,
      each element of a list is split and the pieces added in turn. */
  method GatherFragments(p: ParamVal) returns (frags: seq<string>)
    ensures frags == DimensionFragments(p)
  {
    match p {
      case Str(s) =>
        frags := Split(s, ',');
      case Lst(items) =>
        frags := [];
        var i := 0;
        while i < |items|
          invariant 0 <= i <= |items|
          invariant frags == SplitAll(items[..i], ',')
        {
          assert items[..i + 1][..i] == items[..i];
          frags := frags + Split(items[i], ',');
          i := i + 1;
        }
        assert items[..|items|] == items;
    }
  }

  /** The second loop: each fragment stored into the mapping in turn,
      stopping at the first malformed one. */
  method StoreFragments(frags: seq<string>) returns (r: Result<Dict<string>>)
    ensures r == ParseDimensionFragments(frags)
  {
    var dims: Dict<string> := [];
    var j := 0;
    while j < |frags|
      invariant 0 <= j <= |frags|
      invariant ParseDimensionFragments(frags[..j]) == Ok(dims)
    {
      var parts := Split(frags[j], ':');
      assert frags[..j + 1][..j] == frags[..j];
      if |parts| == 2 {
        dims := Put(dims, parts[0], parts[1]);
      } else if |parts| == 1 {
        dims := Put(dims, parts[0], "");
      } else {
        assert !WellFormedFragment(frags[j]);
        return Err(Unprocessable("Dimensions are malformed"));
      }
      j := j + 1;
    }
    assert frags[..|frags|] == frags;
    return Ok(dims);
  }

  /** `get_query_dimensions`: gathers the fragments, then stores each into
      the mapping. */
  method GetQueryDimensions(params: Params) returns (r: Result<Dict<string>>)
    ensures r == QueryDimensions(params)
  {
    if "dimensions" !in params {
      return Ok([]);
    }
    var frags := GatherFragments(params["dimensions"]);
    r := StoreFragments(frags);
  }

  // ---------------------------------------------------------------------
  // validate_query_dimensions

  /** One value checked by the dimension-value validator. */
  function CheckValue(c: Collaborators, key: string, v: string): (r: Result<string>)
    ensures r.Ok? <==> c.validateDimensionValue(key, v).None?
    ensures r.Ok? ==> r.value == v
    ensures r.Err? ==> r.error == Unprocessable(c.validateDimensionValue(key, v).value)
  {
    var e := c.validateDimensionValue(key, v);
    if e.Some? then Err(Unprocessable(e.value)) else Ok(v)
  }

  function CheckValueStep(c: Collaborators, key: string): string -> Result<string> {
    v => CheckValue(c, key, v)
  }

  /** Every `|`-separated piece of a non-empty value passes the value validator. */
  predicate ValuesAccepted(c: Collaborators, key: string, value: string) {
    value == "" || forall i :: 0 <= i < |Split(value, '|')| ==> c.validateDimensionValue(key, Split(value, '|')[i]).None?
  }

  /** One `(key, value)` entry validated: 422 for a key starting with `_`
      or refused by the key validator; no values for an empty value; the
      `|`-separated alternatives, each checked, otherwise. */
  function ValidateEntry(c: Collaborators, key: string, value: string): (r: Result<Dimension>)
    ensures StartsWith(key, "_") ==> r == Err(Unprocessable("Dimension key " + key + " may not start with '_'"))
    ensures !StartsWith(key, "_") && c.validateDimensionKey(key).Some?
            ==> r == Err(Unprocessable(c.validateDimensionKey(key).value))
    ensures r.Ok? <==> !StartsWith(key, "_") && c.validateDimensionKey(key).None? && ValuesAccepted(c, key, value)
    ensures r.Ok? ==> r.value.name == key
    ensures r.Ok? ==> (r.value.values.None? <==> value == "")
    ensures r.Ok? && value != "" ==> r.value.values == Some(Split(value, '|'))
    ensures !StartsWith(key, "_") && c.validateDimensionKey(key).None? && !ValuesAccepted(c, key, value) ==>
              exists k :: 0 <= k < |Split(value, '|')|
                          && c.validateDimensionValue(key, Split(value, '|')[k]).Some?
                          && r == Err(Unprocessable(c.validateDimensionValue(key, Split(value, '|')[k]).value))
                          && forall j :: 0 <= j < k ==> c.validateDimensionValue(key, Split(value, '|')[j]).None?
  {
    if StartsWith(key, "_") then
      Err(Unprocessable("Dimension key " + key + " may not start with '_'"))
    else if c.validateDimensionKey(key).Some? then
      Err(Unprocessable(c.validateDimensionKey(key).value))
    else if value == "" then
      Ok(Dimension(key, None))
    else if '|' in value then
      var vs := Split(value, '|');
      var checked := MapResult(CheckValueStep(c, key), vs);
      assert forall k :: 0 <= k < |vs| ==> CheckValueStep(c, key)(vs[k]) == CheckValue(c, key, vs[k]);
      if checked.Err? then
        assert exists k :: 0 <= k < |vs| && CheckValueStep(c, key)(vs[k]).Err?;
        assert !ValuesAccepted(c, key, value) by {
          var k :| 0 <= k < |vs| && c.validateDimensionValue(key, vs[k]).Some?;
          assert Split(value, '|')[k] == vs[k];
        }
        Err(checked.error)
      else
        assert checked.value == vs;
        Ok(Dimension(key, Some(vs)))
    else
      SplitWithoutSeparator(value, '|');
      assert Split(value, '|') == [value];
      assert Split(value, '|')[0] == value;
      assert ValuesAccepted(c, key, value) <==> c.validateDimensionValue(key, value).None?;
      var e := c.validateDimensionValue(key, value);
      if e.Some? then Err(Unprocessable(e.value))
      else Ok(Dimension(key, Some([value])))
  }

  /** The values of a validated dimension joined by `|` give back the text. */
  lemma ValidatedValuesRoundTrip(c: Collaborators, key: string, value: string)
    requires ValidateEntry(c, key, value).Ok?
    requires ValidateEntry(c, key, value).value.values.Some?
    ensures Join('|', ValidateEntry(c, key, value).value.values.value) == value
  {
    JoinSplit(value, '|');
  }

  function ValidateStep(c: Collaborators): ((string, string)) -> Result<Dimension> {
    (e: (string, string)) => ValidateEntry(c, e.0, e.1)
  }

  /** The dimensions validated entry by entry, in mapping order, stopping at
      the first entry refused. */
  function ValidatedDimensions(c: Collaborators, dims: Dict<string>): (r: Result<seq<Dimension>>)
    ensures r.Ok? <==> forall i :: 0 <= i < |dims| ==> ValidateEntry(c, dims[i].0, dims[i].1).Ok?
    ensures r.Ok? ==> |r.value| == |dims|
    ensures r.Ok? ==> forall i :: 0 <= i < |dims| ==>
              ValidateEntry(c, dims[i].0, dims[i].1).Ok? && r.value[i] == ValidateEntry(c, dims[i].0, dims[i].1).value
    ensures r.Err? ==> exists k :: 0 <= k < |dims| && ValidateEntry(c, dims[k].0, dims[k].1) == Err(r.error)
                                   && forall i :: 0 <= i < k ==> ValidateEntry(c, dims[i].0, dims[i].1).Ok?
  {
    MapResult(ValidateStep(c), dims)
  }

  /** The body of the `validate_query_dimensions` loop for one entry: the
      key checks, then the value checked whole or piece by piece. */
  method ValidateOne(c: Collaborators, key: string, value: string) returns (r: Result<Dimension>)
    ensures r == ValidateEntry(c, key, value)
  {
    if StartsWith(key, "_") {
      return Err(Unprocessable("Dimension key " + key + " may not start with '_'"));
    }
    var keyError := c.validateDimensionKey(key);
    if keyError.Some? {
      return Err(Unprocessable(keyError.value));
    }
    var values: Option<seq<string>> := None;
    if value != "" {
      if '|' in value {
        var vs := Split(value, '|');
        var k := 0;
        while k < |vs|
          invariant 0 <= k <= |vs|
          invariant forall j :: 0 <= j < k ==> CheckValueStep(c, key)(vs[j]).Ok?
        {
          var valueError := c.validateDimensionValue(key, vs[k]);
          if valueError.Some? {
            FirstFailureDecides(CheckValueStep(c, key), vs, k);
            return Err(Unprocessable(valueError.value));
          }
          k := k + 1;
        }
        values := Some(vs);
      } else {
        SplitWithoutSeparator(value, '|');
        var valueError := c.validateDimensionValue(key, value);
        if valueError.Some? {
          return Err(Unprocessable(valueError.value));
        }
        values := Some([value]);
      }
    }
    return Ok(Dimension(key, values));
  }

  /** `validate_query_dimensions`: one output pair per entry, in mapping
      order, stopping at the first entry refused. */
  method ValidateQueryDimensions(c: Collaborators, dims: Dict<string>) returns (r: Result<seq<Dimension>>)
    ensures r == ValidatedDimensions(c, dims)
  {
    var result: seq<Dimension> := [];
    var i := 0;
    while i < |dims|
      invariant 0 <= i <= |dims|
      invariant forall j :: 0 <= j < i ==> ValidateStep(c)(dims[j]).Ok?
      invariant |result| == i
      invariant forall j :: 0 <= j < i ==> result[j] == ValidateStep(c)(dims[j]).value
    {
      var entry := ValidateOne(c, dims[i].0, dims[i].1);
      if entry.Err? {
        FirstFailureDecides(ValidateStep(c), dims, i);
        return Err(entry.error);
      }
      result := result + [entry.value];
      i := i + 1;
    }
    assert MapResult(ValidateStep(c), dims).Ok?;
    assert MapResult(ValidateStep(c), dims).value == result;
    return Ok(result);
  }

  // ---------------------------------------------------------------------
  // get_query_starttime_timestamp, get_query_endtime_timestamp

  /** A time parameter parsed to seconds since the epoch. */
  function GetQueryTimestamp(c: Collaborators, params: Params, name: string, missing: string,
                             required: bool): (r: Result<Option<real>>)
    ensures name !in params ==> r == (if required then Err(Unprocessable(missing)) else Ok(None))
    ensures name in params && c.parseIsoTime(params[name]).Returned?
            ==> r == Ok(Some(c.parseIsoTime(params[name]).value))
    ensures name in params && c.parseIsoTime(params[name]).Raised?
            ==> r == Err(Unprocessable(c.parseIsoTime(params[name]).message))
  {
    if name in params then
      match c.parseIsoTime(params[name])
      case Returned(t) => Ok(Some(t))
      case Raised(m) => Err(Unprocessable(m))
    else if required then Err(Unprocessable(missing))
    else Ok(None)
  }

  function GetQueryStartTimestamp(c: Collaborators, params: Params, required: bool): (r: Result<Option<real>>)
    ensures "start_time" !in params && required ==> r == Err(Unprocessable("Missing start time"))
    ensures "start_time" !in params && !required ==> r == Ok(None)
    ensures "start_time" in params ==> (r.Ok? <==> c.parseIsoTime(params["start_time"]).Returned?)
    ensures r.Ok? && r.value.Some? ==> r.value.value == c.parseIsoTime(params["start_time"]).value
  {
    GetQueryTimestamp(c, params, "start_time", "Missing start time", required)
  }

  function GetQueryEndTimestamp(c: Collaborators, params: Params, required: bool): (r: Result<Option<real>>)
    ensures "end_time" !in params && required ==> r == Err(Unprocessable("Missing end time"))
    ensures "end_time" !in params && !required ==> r == Ok(None)
    ensures "end_time" in params ==> (r.Ok? <==> c.parseIsoTime(params["end_time"]).Returned?)
    ensures r.Ok? && r.value.Some? ==> r.value.value == c.parseIsoTime(params["end_time"]).value
  {
    GetQueryTimestamp(c, params, "end_time", "Missing end time", required)
  }

  // ---------------------------------------------------------------------
  // validate_start_end_timestamps

  /** Checked only when the end time is truthy (present and non-zero): then
      the start must come strictly before it. A missing start passes, as
      `None` compares below every number (see README). */
  function ValidateStartEndTimestamps(start: Option<real>, end: Option<real>): (r: Result<()>)
    ensures r.Err? <==> end.Some? && end.value != 0.0 && start.Some? && !(start.value < end.value)
    ensures r.Err? ==> r.error == BadRequest("start_time must be before end_time")
  {
    if end.Some? && end.value != 0.0 then
      if start.None? || start.value < end.value then Ok(())
      else Err(BadRequest("start_time must be before end_time"))
    else Ok(())
  }
}
