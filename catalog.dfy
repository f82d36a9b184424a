/**
 * Catalog resolution: a destination connector's catalog is an ordered list of
 * stream records plus catalog-level rate-limit defaults and cursor settings.
 * The behaviour is the one pinned down for `Catalog#find_stream_by_name`,
 * `Catalog#stream_to_protocol` and `Catalog#default_cursor_field`.
 */
module Catalog {
  import opened Wrappers

  /** A JSON schema, carried through unchanged and never inspected. */
  type JsonSchema = map<string, string>

  /** One entry of the catalog's `"streams"` list. Every key but `"name"` may be absent (`None`). */
  datatype Stream = Stream(
    name: string,
    url: Option<string>,
    jsonSchema: Option<JsonSchema>,
    requestMethod: Option<string>,
    batchSupport: Option<bool>,
    batchSize: Option<int>,
    requestRateLimit: Option<int>,
    requestRateLimitUnit: Option<string>,
    requestRateConcurrency: Option<int>,
    otherAttributes: map<string, string>)

  /** The `catalog` JSON payload of a Catalog record. */
  datatype CatalogData = CatalogData(
    streams: seq<Stream>,
    requestRateLimit: Option<int>,
    requestRateLimitUnit: Option<string>,
    requestRateConcurrency: Option<int>,
    sourceDefinedCursor: Option<bool>,
    defaultCursorField: Option<string>)

  /** The protocol stream handed to the execution engine, with its rate limits resolved. */
  datatype StreamProtocol = StreamProtocol(
    name: string,
    url: Option<string>,
    jsonSchema: Option<JsonSchema>,
    requestMethod: Option<string>,
    batchSupport: Option<bool>,
    batchSize: Option<int>,
    requestRateLimit: Option<int>,
    requestRateLimitUnit: Option<string>,
    requestRateConcurrency: Option<int>)

  /** True when some stream of `streams` is called `name`. */
  predicate HasStream(streams: seq<Stream>, name: string) {
    exists i :: 0 <= i < |streams| && streams[i].name == name
  }

  /** `i` is the position of the first stream called `name`. */
  predicate FirstMatch(streams: seq<Stream>, name: string, i: int) {
    && 0 <= i < |streams|
    && streams[i].name == name
    && forall j :: 0 <= j < i ==> streams[j].name != name
  }

  /** First-match search over a stream list, by exact (case-sensitive) name. */
  function FindIn(streams: seq<Stream>, name: string): (r: Option<Stream>)
    ensures r.None? <==> !HasStream(streams, name)
    ensures r.Some? ==> r.value in streams && r.value.name == name
  {
    if |streams| == 0 then None
    else if streams[0].name == name then Some(streams[0])
    else
      var r := FindIn(streams[1..], name);
      assert HasStream(streams[1..], name) ==> HasStream(streams, name) by {
        if HasStream(streams[1..], name) {
          var k :| 0 <= k < |streams[1..]| && streams[1..][k].name == name;
          assert streams[k + 1].name == name;
        }
      }
      assert HasStream(streams, name) ==> HasStream(streams[1..], name) by {
        if HasStream(streams, name) {
          var k :| 0 <= k < |streams| && streams[k].name == name;
          assert k != 0;
          assert streams[1..][k - 1].name == name;
        }
      }
      r
  }

  function FindStreamByName(catalog: CatalogData, name: string): Option<Stream> {
    FindIn(catalog.streams, name)
  }

  /** With duplicate names, the stream listed first is the one returned, unchanged. */
  lemma {:induction false} FindInReturnsFirstMatch(streams: seq<Stream>, name: string, i: int)
    requires FirstMatch(streams, name, i)
    ensures FindIn(streams, name) == Some(streams[i])
  {
    if i > 0 {
      assert streams[0].name != name;
      assert FirstMatch(streams[1..], name, i - 1);
      FindInReturnsFirstMatch(streams[1..], name, i - 1);
    }
  }

  /** Every successful lookup is a first match: the result's position exists and is the first. */
  lemma FindStreamByNameIsFirstMatch(catalog: CatalogData, name: string)
    ensures FindStreamByName(catalog, name).Some? <==>
              exists i :: FirstMatch(catalog.streams, name, i)
    ensures forall i :: FirstMatch(catalog.streams, name, i) ==>
              FindStreamByName(catalog, name) == Some(catalog.streams[i])
  {
    var streams := catalog.streams;
    forall i | FirstMatch(streams, name, i)
      ensures FindStreamByName(catalog, name) == Some(streams[i])
    {
      FindInReturnsFirstMatch(streams, name, i);
    }
    if HasStream(streams, name) {
      var k := FirstIndex(streams, name);
      assert FirstMatch(streams, name, k);
    }
  }

  /** The position of the first stream called `name`. */
  function FirstIndex(streams: seq<Stream>, name: string): (i: nat)
    requires HasStream(streams, name)
    ensures FirstMatch(streams, name, i)
  {
    if streams[0].name == name then 0
    else
      assert HasStream(streams[1..], name) by {
        var k :| 0 <= k < |streams| && streams[k].name == name;
        assert streams[1..][k - 1].name == name;
      }
      1 + FirstIndex(streams[1..], name)
  }

  /**
   * The protocol stream for `stream`: its own fields copied, and each of the
   * three rate-limit fields taken from the stream when present and from the
   * catalog-level default otherwise, one field at a time.
   */
  function StreamToProtocol(catalog: CatalogData, stream: Stream): StreamProtocol {
    StreamProtocol(
      stream.name, stream.url, stream.jsonSchema, stream.requestMethod,
      stream.batchSupport, stream.batchSize,
      stream.requestRateLimit.OrElse(catalog.requestRateLimit),
      stream.requestRateLimitUnit.OrElse(catalog.requestRateLimitUnit),
      stream.requestRateConcurrency.OrElse(catalog.requestRateConcurrency))
  }

  /** The stream's descriptive fields reach the protocol object unchanged; an absent key stays absent. */
  lemma StreamToProtocolCopiesFields(catalog: CatalogData, stream: Stream)
    ensures var p := StreamToProtocol(catalog, stream);
      && p.name == stream.name && p.url == stream.url && p.jsonSchema == stream.jsonSchema
      && p.requestMethod == stream.requestMethod
      && p.batchSupport == stream.batchSupport && p.batchSize == stream.batchSize
  {
  }

  /**
   * Rate-limit inheritance, field by field: a field the stream declares wins,
   * a field it lacks is the catalog's default (itself possibly absent).
   */
  lemma RateLimitInheritance(catalog: CatalogData, stream: Stream)
    ensures var p := StreamToProtocol(catalog, stream);
      && (stream.requestRateLimit.Some? ==> p.requestRateLimit == stream.requestRateLimit)
      && (stream.requestRateLimit.None? ==> p.requestRateLimit == catalog.requestRateLimit)
      && (stream.requestRateLimitUnit.Some? ==> p.requestRateLimitUnit == stream.requestRateLimitUnit)
      && (stream.requestRateLimitUnit.None? ==> p.requestRateLimitUnit == catalog.requestRateLimitUnit)
      && (stream.requestRateConcurrency.Some? ==> p.requestRateConcurrency == stream.requestRateConcurrency)
      && (stream.requestRateConcurrency.None? ==> p.requestRateConcurrency == catalog.requestRateConcurrency)
  {
  }

  /** A resolved rate-limit field is absent only when both the stream and the catalog leave it out. */
  lemma RateLimitAbsentOnlyIfBothAbsent(catalog: CatalogData, stream: Stream)
    ensures var p := StreamToProtocol(catalog, stream);
      && (p.requestRateLimit.None? <==> stream.requestRateLimit.None? && catalog.requestRateLimit.None?)
      && (p.requestRateLimitUnit.None? <==> stream.requestRateLimitUnit.None? && catalog.requestRateLimitUnit.None?)
      && (p.requestRateConcurrency.None? <==> stream.requestRateConcurrency.None? && catalog.requestRateConcurrency.None?)
  {
  }

  /** The catalog-level default cursor field, given only when the source defines the cursor. */
  function DefaultCursorField(catalog: CatalogData): (r: Option<string>)
    ensures r.Some? ==> catalog.sourceDefinedCursor == Some(true)
    ensures catalog.sourceDefinedCursor == Some(true) ==> r == catalog.defaultCursorField
  {
    if catalog.sourceDefinedCursor == Some(true) then catalog.defaultCursorField else None
  }

  /** A Catalog record as persisted; every field may be blank. */
  datatype CatalogRecord = CatalogRecord(
    workspaceId: Option<int>,
    connectorId: Option<int>,
    catalog: Option<CatalogData>,
    catalogHash: string)

  datatype CatalogAttribute = WorkspaceId | ConnectorId | CatalogPayload | CatalogHash

  /** The attributes whose presence validation fails, in declaration order. */
  function PresenceErrors(rec: CatalogRecord): (errs: seq<CatalogAttribute>)
    ensures WorkspaceId in errs <==> rec.workspaceId.None?
    ensures ConnectorId in errs <==> rec.connectorId.None?
    ensures CatalogPayload in errs <==> rec.catalog.None?
    ensures CatalogHash in errs <==> Blank(rec.catalogHash)
    ensures |errs| <= 4
  {
    (if rec.workspaceId.None? then [WorkspaceId] else [])
    + (if rec.connectorId.None? then [ConnectorId] else [])
    + (if rec.catalog.None? then [CatalogPayload] else [])
    + (if Blank(rec.catalogHash) then [CatalogHash] else [])
  }

  // ---- The examples of the model's test file, as lemmas ----

  const PROFILE := Stream("profile", None, None, None, None, None, None, None, None, map["other_attributes" := "value1"])
  const CUSTOMER := Stream("customer", None, None, None, None, None, None, None, None, map["other_attributes" := "value2"])

  /** Lookup of an existing name returns its record unchanged; an unknown name gives nil. */
  lemma FindStreamByNameExamples()
    ensures var c := CatalogData([PROFILE, CUSTOMER], None, None, None, None, None);
      && FindStreamByName(c, "profile") == Some(PROFILE)
      && FindStreamByName(c, "non_existent") == None
  {
    var c := CatalogData([PROFILE, CUSTOMER], None, None, None, None, None);
    assert FirstMatch(c.streams, "profile", 0);
    FindInReturnsFirstMatch(c.streams, "profile", 0);
    assert c.streams[0].name != "non_existent";
    assert c.streams[1].name != "non_existent";
  }

  /** Stream-level limits 10/minute/1 win over catalog-level 5/minute/2; without them, 5/minute/2 is used. */
  lemma StreamToProtocolExamples()
    ensures
      var full := Stream("test_stream", Some("http://example.com"), Some(map[]), Some("GET"), Some(false), Some(0),
                         Some(10), Some("minute"), Some(1), map[]);
      var bare := full.(requestRateLimit := None, requestRateLimitUnit := None, requestRateConcurrency := None);
      var c := CatalogData([full], Some(5), Some("minute"), Some(2), None, None);
      && StreamToProtocol(c, full) ==
           StreamProtocol("test_stream", Some("http://example.com"), Some(map[]), Some("GET"), Some(false), Some(0),
                          Some(10), Some("minute"), Some(1))
      && StreamToProtocol(c, bare).requestRateLimit == Some(5)
      && StreamToProtocol(c, bare).requestRateLimitUnit == Some("minute")
      && StreamToProtocol(c, bare).requestRateConcurrency == Some(2)
  {
  }

  /** The three `default_cursor_field` cases: flag true, flag absent, flag false. */
  lemma DefaultCursorFieldExamples()
    ensures DefaultCursorField(CatalogData([], None, None, None, Some(true), Some("timestamp"))) == Some("timestamp")
    ensures DefaultCursorField(CatalogData([], None, None, None, None, None)) == None
    ensures DefaultCursorField(CatalogData([], None, None, None, Some(false), Some("timestamp"))) == None
  {
  }
}
