/** Tidying a raw Elasticsearch listing result: each hit's `_source` is
    cut down to the three configured fields, each reached by a dotted
    path. */
module ResultTransformer {
  import opened Base
  import opened Py
  import opened LogsRepository

  /** The dotted paths of a log's time, message and dimensions inside a
      document, as the transformer is configured. */
  datatype Paths = Paths(timestampField: string, messageField: string, dimensionsField: string)

  /** `doc[key]`: only an object holding the key can be indexed so; a
      missing key (KeyError) or a document of another kind (TypeError)
      fails uncaught. */
  function Item(doc: Json, key: string): (r: Result<Json>)
    ensures r.Ok? <==> doc.JObj? && key in doc.fields
    ensures r.Ok? ==> r.value == doc.fields[key]
    ensures r.Err? ==> r.error == Uncaught
  {
    if doc.JObj? && key in doc.fields then Ok(doc.fields[key]) else Err(Uncaught)
  }

  /** The nested `get`: split off the first segment, look it up, and go
      on with the rest while there is one. */
  function Get(doc: Json, field: string): (r: Result<Json>)
    ensures '.' !in field ==> r == Item(doc, field)
    ensures Item(doc, SplitOnce(field, '.')[0]).Err? ==> r == Err(Uncaught)
    ensures r.Err? ==> r.error == Uncaught
    decreases |field|
  {
    var parts := SplitOnce(field, '.');
    var inner :- Item(doc, parts[0]);
    if |parts| == 1 then Ok(inner) else Get(inner, parts[1])
  }

  /** The reference reading of a path given as its segments: look each one
      up in turn. */
  function Descend(doc: Json, segs: seq<string>): (r: Result<Json>)
    requires |segs| >= 1
    decreases |segs|
  {
    var inner :- Item(doc, segs[0]);
    if |segs| == 1 then Ok(inner) else Descend(inner, segs[1..])
  }

  /** Looking up a dotted path is looking up each of its segments in turn:
      `get(doc, 'a.b.c')` is `doc['a']['b']['c']`. */
  lemma {:induction false} GetDescends(doc: Json, field: string)
    ensures Get(doc, field) == Descend(doc, Split(field, '.'))
    decreases |field|
  {
    var parts := SplitOnce(field, '.');
    var segs := Split(field, '.');
    if |parts| == 1 {
      SplitWithoutSeparator(field, '.');
    } else {
      SplitAfterPiece(parts[0], '.', parts[1]);
      assert segs == [parts[0]] + Split(parts[1], '.');
      assert segs[1..] == Split(parts[1], '.');
      if Item(doc, parts[0]).Ok? {
        GetDescends(Item(doc, parts[0]).value, parts[1]);
      }
    }
  }

  /** A path of several segments needs every key on the way: one missing
      at any depth fails, it never reads as null. */
  lemma {:induction false} DescendNeedsEveryKey(doc: Json, segs: seq<string>)
    requires |segs| >= 1
    ensures Descend(doc, segs).Ok? ==> Item(doc, segs[0]).Ok?
    ensures |segs| > 1 && Descend(doc, segs).Ok? ==> Descend(Item(doc, segs[0]).value, segs[1..]).Ok?
    ensures Descend(doc, segs).Err? ==> Descend(doc, segs).error == Uncaught
    decreases |segs|
  {
    if |segs| > 1 && Item(doc, segs[0]).Ok? {
      DescendNeedsEveryKey(Item(doc, segs[0]).value, segs[1..]);
    }
  }

  /** A path with a first segment looks that segment up and goes on with
      the rest. */
  lemma GetStep(doc: Json, head: string, rest: string)
    requires '.' !in head
    ensures Get(doc, head + "." + rest) ==
              if Item(doc, head).Ok? then Get(Item(doc, head).value, rest) else Err(Uncaught)
  {
    SplitOncePrefix(head + "." + rest, '.', head, rest);
  }

  /** A three-segment path such as `unusually.nested.timestamp` reads
      `doc['unusually']['nested']['timestamp']`. */
  lemma NestedPath(doc: Json, a: string, b: string, c: string, t: Json)
    requires '.' !in a && '.' !in b && '.' !in c
    requires doc == JObj(map[a := JObj(map[b := JObj(map[c := t])])])
    ensures Get(doc, a + "." + b + "." + c) == Ok(t)
  {
    var upper := JObj(map[b := JObj(map[c := t])]);
    GetStep(upper, b, c);
    assert a + "." + b + "." + c == a + "." + (b + "." + c);
    GetStep(doc, a, b + "." + c);
  }

  /** `tidy`: a record of exactly the three fields, each read by its path,
      every other field of the document dropped. */
  function Tidy(p: Paths, doc: Json): (r: Result<Json>)
    ensures r.Ok? <==> Get(doc, p.timestampField).Ok? && Get(doc, p.messageField).Ok? && Get(doc, p.dimensionsField).Ok?
    ensures r.Ok? ==> IsLogEntry(r.value)
    ensures r.Ok? ==> r.value.fields["timestamp"] == Get(doc, p.timestampField).value
                      && r.value.fields["message"] == Get(doc, p.messageField).value
                      && r.value.fields["dimensions"] == Get(doc, p.dimensionsField).value
    ensures r.Err? ==> r.error == Uncaught
  {
    var timestamp :- Get(doc, p.timestampField);
    var message :- Get(doc, p.messageField);
    var dimensions :- Get(doc, p.dimensionsField);
    var record := map["timestamp" := timestamp, "message" := message, "dimensions" := dimensions];
    assert record.Keys == {"timestamp", "message", "dimensions"};
    Ok(JObj(record))
  }

  /** One hit: its `_source`, tidied. */
  function TidyHit(p: Paths, hit: Json): (r: Result<Json>)
  {
    var source :- Item(hit, "_source");
    Tidy(p, source)
  }

  function HitStep(p: Paths): Json -> Result<Json>
  {
    (hit: Json) => TidyHit(p, hit)
  }

  /** `[tidy(hit['_source']) for hit in result['hits']['hits']]`. Iterating
      an object visits its keys and a string its characters, so an empty
      one of either yields no records and a non-empty one fails when its
      first element is indexed by `'_source'`. */
  function TransformListLogsResult(p: Paths, result: Json): (r: Result<seq<Json>>)
    ensures r.Ok? ==> forall i :: 0 <= i < |r.value| ==> IsLogEntry(r.value[i])
    ensures r.Err? ==> r.error == Uncaught
  {
    var outer :- Item(result, "hits");
    var hits :- Item(outer, "hits");
    match hits
    case JList(items) =>
      var records :- MapResult(HitStep(p), items);
      assert forall i :: 0 <= i < |items| ==> HitStep(p)(items[i]) == TidyHit(p, items[i]);
      Ok(records)
    case JObj(m) => if |m| == 0 then Ok([]) else Err(Uncaught)
    case JStr(s) => if |s| == 0 then Ok([]) else Err(Uncaught)
    case _ => Err(Uncaught)
  }

  /** One record per hit, in hit order, each built from that hit's
      `_source` alone; the listing fails as soon as one hit does. */
  lemma OneRecordPerHit(p: Paths, result: Json, items: seq<Json>)
    requires result.JObj? && "hits" in result.fields && result.fields["hits"].JObj?
    requires "hits" in result.fields["hits"].fields && result.fields["hits"].fields["hits"] == JList(items)
    ensures TransformListLogsResult(p, result).Ok? <==>
              forall i :: 0 <= i < |items| ==> Item(items[i], "_source").Ok? && Tidy(p, items[i].fields["_source"]).Ok?
    ensures TransformListLogsResult(p, result).Ok? ==>
              |TransformListLogsResult(p, result).value| == |items|
              && forall i :: 0 <= i < |items| ==>
                   TransformListLogsResult(p, result).value[i] == Tidy(p, items[i].fields["_source"]).value
  {
    assert forall i :: 0 <= i < |items| ==> HitStep(p)(items[i]) == TidyHit(p, items[i]);
  }

  /** No hits, no records. */
  lemma NoHitsNoRecords(p: Paths, result: Json)
    requires result.JObj? && "hits" in result.fields && result.fields["hits"].JObj?
    requires "hits" in result.fields["hits"].fields && result.fields["hits"].fields["hits"] == JList([])
    ensures TransformListLogsResult(p, result) == Ok([])
  {
  }
}
