/** The request helpers of the app v3 controller. Reading the log list,
    the delegate tenant, single and integer parameters and the dimensions
    are the same routines as in ReferenceHelpers; what differs is the role
    check, the time conversion (truncated to whole seconds at once), the
    start/end check (equal times pass) and the `sort_by` parser, which the
    reference listing parser shares. */
module AppHelpers {
  import opened Base
  import opened Py
  import opened LogsRepository
  import ReferenceHelpers

  // ---------------------------------------------------------------------
  // validate_authorization

  /** Python truthiness of the roles header: an empty string or list is false. */
  predicate HasRoles(roles: ParamVal) {
    match roles
    case Str(s) => |s| > 0
    case Lst(items) => |items| > 0
  }

  /** The roles the check visits: a string is split on `,`. */
  function AuthorizationItems(roles: ParamVal): seq<string> {
    match roles
    case Str(s) => Split(s, ',')
    case Lst(items) => items
  }

  function LowerAll(xs: seq<string>): (r: seq<string>)
    ensures |r| == |xs|
    ensures forall i :: 0 <= i < |xs| ==> r[i] == Lower(xs[i])
  {
    seq(|xs|, i requires 0 <= i < |xs| => Lower(xs[i]))
  }

  /** The outcome of the role check: 401 without roles, success as soon as
      one role matches an authorized role ignoring case, 401 otherwise. */
  function Authorization(roles: ParamVal, authorizedRoles: seq<string>): (r: Result<()>)
    ensures !HasRoles(roles) ==> r == Err(Unauthorized("Tenant does not have any roles"))
    ensures HasRoles(roles) ==>
              (r.Ok? <==> exists i :: 0 <= i < |AuthorizationItems(roles)|
                                      && Lower(AuthorizationItems(roles)[i]) in LowerAll(authorizedRoles))
    ensures HasRoles(roles) && r.Err?
            ==> r.error == Unauthorized("Tenant ID is missing a required role to access this service")
  {
    if !HasRoles(roles) then Err(Unauthorized("Tenant does not have any roles"))
    else
      var items := LowerAll(AuthorizationItems(roles));
      if ReferenceHelpers.AnyIn(items, LowerAll(authorizedRoles)) then Ok(())
      else Err(Unauthorized("Tenant ID is missing a required role to access this service"))
  }

  /** The case of the configured roles and of the caller's roles does not matter. */
  lemma AuthorizationIgnoresCase(items: seq<string>, authorizedRoles: seq<string>)
    requires |items| > 0
    ensures Authorization(Lst(items), authorizedRoles) == Authorization(Lst(items), LowerAll(authorizedRoles))
    ensures Authorization(Lst(items), authorizedRoles) == Authorization(Lst(LowerAll(items)), authorizedRoles)
  {
    forall i | 0 <= i < |authorizedRoles| {
      LowerIdempotent(authorizedRoles[i]);
    }
    assert LowerAll(LowerAll(authorizedRoles)) == LowerAll(authorizedRoles);
    forall i | 0 <= i < |items| {
      LowerIdempotent(items[i]);
    }
  }

  /** `validate_authorization`: walks the roles and returns at the first match. */
  method ValidateAuthorization(roles: ParamVal, authorizedRoles: seq<string>) returns (r: Result<()>)
    ensures r == Authorization(roles, authorizedRoles)
  {
    if !HasRoles(roles) {
      return Err(Unauthorized("Tenant does not have any roles"));
    }
    var items := AuthorizationItems(roles);
    var authorizedLower := LowerAll(authorizedRoles);
    var i := 0;
    while i < |items|
      invariant 0 <= i <= |items|
      invariant forall j :: 0 <= j < i ==> Lower(items[j]) !in authorizedLower
    {
      var role := Lower(items[i]);
      if role in authorizedLower {
        return Ok(());
      }
      i := i + 1;
    }
    return Err(Unauthorized("Tenant ID is missing a required role to access this service"));
  }

  // ---------------------------------------------------------------------
  // get_query_starttime_timestamp, get_query_endtime_timestamp

  /** The reference reading of a time parameter, converted by `int()`. */
  function Truncated(t: Result<Option<real>>): (r: Result<Option<int>>)
    ensures r.Ok? <==> t.Ok?
    ensures r.Err? ==> r.error == t.error
    ensures r.Ok? ==> (r.value.Some? <==> t.value.Some?)
    ensures r.Ok? && r.value.Some? ==> r.value.value == Trunc(t.value.value)
  {
    match t
    case Err(e) => Err(e)
    case Ok(None) => Ok(None)
    case Ok(Some(x)) => Ok(Some(Trunc(x)))
  }

  /** The start time in whole seconds since the epoch. */
  function GetQueryStartTimestamp(c: Collaborators, params: Params, required: bool): (r: Result<Option<int>>)
    ensures "start_time" !in params && required ==> r == Err(Unprocessable("Missing start time"))
    ensures "start_time" !in params && !required ==> r == Ok(None)
    ensures "start_time" in params ==> (r.Ok? <==> c.parseIsoTime(params["start_time"]).Returned?)
    ensures r.Ok? && r.value.Some? ==> r.value.value == Trunc(c.parseIsoTime(params["start_time"]).value)
  {
    Truncated(ReferenceHelpers.GetQueryStartTimestamp(c, params, required))
  }

  /** The end time in whole seconds since the epoch. */
  function GetQueryEndTimestamp(c: Collaborators, params: Params, required: bool): (r: Result<Option<int>>)
    ensures "end_time" !in params && required ==> r == Err(Unprocessable("Missing end time"))
    ensures "end_time" !in params && !required ==> r == Ok(None)
    ensures "end_time" in params ==> (r.Ok? <==> c.parseIsoTime(params["end_time"]).Returned?)
    ensures r.Ok? && r.value.Some? ==> r.value.value == Trunc(c.parseIsoTime(params["end_time"]).value)
  {
    Truncated(ReferenceHelpers.GetQueryEndTimestamp(c, params, required))
  }

  // ---------------------------------------------------------------------
  // validate_timestamp_order

  /** Checked only when both times are given; refused only when the start
      comes after the end. */
  function ValidateTimestampOrder(start: Option<int>, end: Option<int>): (r: Result<()>)
    ensures r.Err? <==> start.Some? && end.Some? && start.value > end.value
    ensures r.Err? ==> r.error == BadRequest("start_time must be before end_time")
  {
    if start.Some? && end.Some? && start.value > end.value then
      Err(BadRequest("start_time must be before end_time"))
    else Ok(())
  }

  /** The two start/end checks differ: equal non-zero times are refused by
      the reference check and accepted here; where the reference check
      applies and accepts, this one accepts too. */
  lemma TimestampChecksCompared(start: int, end: int)
    ensures end != 0 ==> ReferenceHelpers.ValidateStartEndTimestamps(Some(end as real), Some(end as real)).Err?
    ensures ValidateTimestampOrder(Some(end), Some(end)).Ok?
    ensures end != 0 && ReferenceHelpers.ValidateStartEndTimestamps(Some(start as real), Some(end as real)).Ok?
            ==> ValidateTimestampOrder(Some(start), Some(end)).Ok?
  {
  }

  // ---------------------------------------------------------------------
  // get_sort_by (and the reference parser's _get_sort_by, the same code)

  /** The sort specs a `sort_by` value holds: a list as given, a string
      split on `,`. */
  function SortFragments(p: ParamVal): seq<string> {
    match p
    case Lst(items) => items
    case Str(s) => Split(s, ',')
  }

  /** One spec, split on whitespace: more than two words, a field other than
      `timestamp`, or a direction other than `asc`/`desc` give 422; no
      words, or a field without a direction, cannot build a `SortBy` and
      fail uncaught. */
  function ParseSortSpec(frag: string): (r: Result<SortBy>)
    ensures r.Ok? <==> SplitWhitespace(frag) == ["timestamp", "asc"] || SplitWhitespace(frag) == ["timestamp", "desc"]
    ensures r.Ok? ==> r.value.field == "timestamp" && IsSortDirection(r.value.direction)
                      && SplitWhitespace(frag) == [r.value.field, r.value.direction]
    ensures |SplitWhitespace(frag)| > 2 ==> r == Err(Unprocessable("Invalid sort_by " + frag))
    ensures |SplitWhitespace(frag)| in {1, 2} && SplitWhitespace(frag)[0] != "timestamp"
            ==> r == Err(Unprocessable("sort_by field " + SplitWhitespace(frag)[0] + " must be one of [timestamp]"))
    ensures |SplitWhitespace(frag)| == 2 && SplitWhitespace(frag)[0] == "timestamp"
            && !IsSortDirection(SplitWhitespace(frag)[1])
            ==> r == Err(Unprocessable("sort_by value " + SplitWhitespace(frag)[1] + " must be 'asc' or 'desc'"))
    ensures SplitWhitespace(frag) == ["timestamp"] ==> r == Err(Uncaught)
    ensures SplitWhitespace(frag) == [] ==> r == Err(Uncaught)
  {
    var parts := SplitWhitespace(frag);
    if |parts| > 2 then Err(Unprocessable("Invalid sort_by " + frag))
    else if |parts| == 0 then Err(Uncaught)
    else if parts[0] != "timestamp" then
      Err(Unprocessable("sort_by field " + parts[0] + " must be one of [timestamp]"))
    else if |parts| > 1 && !(parts[1] == "asc" || parts[1] == "desc") then
      Err(Unprocessable("sort_by value " + parts[1] + " must be 'asc' or 'desc'"))
    else if |parts| == 1 then Err(Uncaught)
    else Ok(SortBy(parts[0], parts[1]))
  }

  /** A `SortBy` written as `field direction` parses back to itself. */
  lemma SortSpecRoundTrip(s: SortBy)
    requires s.field == "timestamp" && IsSortDirection(s.direction)
    ensures ParseSortSpec(s.field + " " + s.direction) == Ok(s)
  {
    var words := [s.field, s.direction];
    assert Join(' ', words[1..]) == s.direction;
    assert Join(' ', words) == s.field + " " + s.direction;
    SplitWhitespaceJoin(words);
  }

  /** The `sort_by` parameter: `None` when absent or when its list is
      empty, otherwise every spec parsed, in order. */
  function SortSpecs(params: Params): (r: Result<Option<seq<SortBy>>>)
    ensures "sort_by" !in params ==> r == Ok(None)
    ensures "sort_by" in params && params["sort_by"] == Lst([]) ==> r == Ok(None)
    ensures r.Ok? && r.value.Some? ==>
              var frags := SortFragments(params["sort_by"]);
              |r.value.value| == |frags| > 0
              && forall i :: 0 <= i < |frags| ==> ParseSortSpec(frags[i]) == Ok(r.value.value[i])
    ensures r.Ok? && r.value.Some? ==>
              forall i :: 0 <= i < |r.value.value| ==>
                r.value.value[i].field == "timestamp" && IsSortDirection(r.value.value[i].direction)
    ensures "sort_by" in params && |SortFragments(params["sort_by"])| > 0 ==>
              var frags := SortFragments(params["sort_by"]);
              (r.Ok? <==> forall i :: 0 <= i < |frags| ==> ParseSortSpec(frags[i]).Ok?)
              && (r.Ok? ==> r.value.Some?)
    ensures "sort_by" in params && r.Err? ==>
              var frags := SortFragments(params["sort_by"]);
              exists k :: 0 <= k < |frags| && ParseSortSpec(frags[k]) == Err(r.error)
                          && forall i :: 0 <= i < k ==> ParseSortSpec(frags[i]).Ok?
  {
    if "sort_by" !in params then Ok(None)
    else
      var frags := SortFragments(params["sort_by"]);
      if |frags| == 0 then Ok(None)
      else
        var specs :- MapResult(ParseSortSpec, frags);
        Ok(Some(specs))
  }

  /** The checks `get_sort_by` makes of one spec before building its
      `SortBy`, in the order it makes them. */
  method CheckSortSpec(frag: string) returns (r: Result<SortBy>)
    ensures r == ParseSortSpec(frag)
  {
    var parts := SplitWhitespace(frag);
    if |parts| > 2 {
      return Err(Unprocessable("Invalid sort_by " + frag));
    }
    if |parts| == 0 {
      return Err(Uncaught);
    }
    if parts[0] != "timestamp" {
      return Err(Unprocessable("sort_by field " + parts[0] + " must be one of [timestamp]"));
    }
    if |parts| > 1 && !(parts[1] == "asc" || parts[1] == "desc") {
      return Err(Unprocessable("sort_by value " + parts[1] + " must be 'asc' or 'desc'"));
    }
    if |parts| == 1 {
      return Err(Uncaught);
    }
    return Ok(SortBy(parts[0], parts[1]));
  }

  /** The loop of `get_sort_by`: each spec checked and appended, in input
      order, stopping at the first spec refused. */
  method CheckSortSpecs(sortBy: seq<string>) returns (r: Result<seq<SortBy>>)
    ensures r == MapResult(ParseSortSpec, sortBy)
  {
    var result: seq<SortBy> := [];
    var i := 0;
    while i < |sortBy|
      invariant 0 <= i <= |sortBy|
      invariant forall j :: 0 <= j < i ==> ParseSortSpec(sortBy[j]).Ok?
      invariant |result| == i
      invariant forall j :: 0 <= j < i ==> result[j] == ParseSortSpec(sortBy[j]).value
    {
      var spec := CheckSortSpec(sortBy[i]);
      if spec.Err? {
        FirstFailureDecides(ParseSortSpec, sortBy, i);
        return Err(spec.error);
      }
      result := result + [spec.value];
      i := i + 1;
    }
    assert MapResult(ParseSortSpec, sortBy).value == result;
    return Ok(result);
  }

  /** `get_sort_by`: `None` for an absent parameter or an empty list,
      otherwise the specs checked in order. */
  method GetSortBy(params: Params) returns (r: Result<Option<seq<SortBy>>>)
    ensures r == SortSpecs(params)
  {
    if "sort_by" !in params {
      return Ok(None);
    }
    var sortBy := SortFragments(params["sort_by"]);
    if |sortBy| == 0 {
      return Ok(None);
    }
    var specs :- CheckSortSpecs(sortBy);
    return Ok(Some(specs));
  }
}
