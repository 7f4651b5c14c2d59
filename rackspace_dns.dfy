/** The Rackspace DNS driver: how error bodies become messages, how an
    asynchronous job is polled and judged finished, which payloads the zone
    and record operations send, and how zones and records are read back
    from the service's JSON. */
module RackspaceDns {
  import opened Wrappers
  import opened Strings
  import opened PyValues

  const VALID_ZONE_EXTRA_PARAMS: seq<string> := ["email", "comment", "ns1"]
  const VALID_RECORD_EXTRA_PARAMS: seq<string> := ["ttl", "comment"]

  /** The record types; `OtherType` stands for every type the driver's
      table does not list. */
  datatype RecordType = A | AAAA | CNAME | MX | NS | TXT | SRV | OtherType(code: int)

  /** `RECORD_TYPE_MAP[type]`. */
  function RecordTypeName(t: RecordType): (r: Outcome<string>)
    ensures r.Success? <==> !t.OtherType?
    ensures t.OtherType? ==> r == Failure(KeyError(IntToString(t.code)))
  {
    match t
    case A => Success("A")
    case AAAA => Success("AAAA")
    case CNAME => Success("CNAME")
    case MX => Success("MX")
    case NS => Success("NS")
    case TXT => Success("TXT")
    case SRV => Success("SRV")
    case OtherType(code) => Failure(KeyError(IntToString(code)))
  }

  /** `_string_to_record_type`: the type whose name the string is. */
  function StringToRecordType(v: Value): (r: Outcome<RecordType>)
    ensures r.Success? ==> v.Str? && RecordTypeName(r.value) == Success(v.s)
    ensures r.Failure? ==> r == Failure(AttributeError(PyStr(v)))
  {
    if v == Str("A") then Success(A)
    else if v == Str("AAAA") then Success(AAAA)
    else if v == Str("CNAME") then Success(CNAME)
    else if v == Str("MX") then Success(MX)
    else if v == Str("NS") then Success(NS)
    else if v == Str("TXT") then Success(TXT)
    else if v == Str("SRV") then Success(SRV)
    else Failure(AttributeError(PyStr(v)))
  }

  /** The two tables are inverse to each other on the listed types. */
  lemma RecordTypeRoundTrip(t: RecordType)
    ensures RecordTypeName(t).Success? ==> StringToRecordType(Str(RecordTypeName(t).value)) == Success(t)
  {
  }

  datatype Zone = Zone(id: string, domain: Value, zoneType: Value, ttl: Value, extra: map<string, Value>)

  datatype Record = Record(id: string, name: Value, recordType: RecordType, data: Value, zone: Zone,
                           extra: map<string, Value>)

  /** `if src in data: extra[key] = data[src]`, as a one-entry dictionary. */
  function CopyIfPresent(data: map<string, Value>, src: string, key: string): (r: map<string, Value>)
    ensures r.Keys == (if src in data then {key} else {})
    ensures key in r ==> r[key] == data[src]
  {
    if src in data then map[key := data[src]] else map[]
  }

  /** `_to_zone`: the type is always `master`, a missing ttl is 0, and the
      id is turned into a string. */
  function ToZone(data: Value): (r: Outcome<Zone>)
    ensures r.Success? <==>
      data.Dict? && "id" in data.entries && "name" in data.entries &&
      PyInt(GetOr(data.entries, "ttl", Int(0))).Success?
    ensures r.Success? ==>
      && r.value.id == PyStr(data.entries["id"])
      && r.value.domain == data.entries["name"]
      && r.value.zoneType == Str("master")
      && r.value.ttl == Int(PyInt(GetOr(data.entries, "ttl", Int(0))).value)
      && r.value.extra.Keys ==
           (if "emailAddress" in data.entries then {"email"} else {}) +
           (if "comment" in data.entries then {"comment"} else {})
      && ("email" in r.value.extra ==> r.value.extra["email"] == data.entries["emailAddress"])
      && ("comment" in r.value.extra ==> r.value.extra["comment"] == data.entries["comment"])
  {
    var id :- Lookup(data, "id");
    var domain :- Lookup(data, "name");
    var ttl := GetOr(data.entries, "ttl", Int(0));
    var extra := CopyIfPresent(data.entries, "emailAddress", "email") + CopyIfPresent(data.entries, "comment", "comment");
    var ttlValue :- PyInt(ttl);
    Success(Zone(PyStr(id), domain, Str("master"), Int(ttlValue), extra))
  }

  /** `_to_record`: the ttl goes into `extra` only when the data has one. */
  function ToRecord(data: Value, zone: Zone): (r: Outcome<Record>)
    ensures r.Success? <==>
      data.Dict? && "id" in data.entries && "name" in data.entries && "type" in data.entries &&
      StringToRecordType(data.entries["type"]).Success? && "data" in data.entries
    ensures r.Success? ==>
      && r.value.id == PyStr(data.entries["id"])
      && r.value.name == data.entries["name"]
      && RecordTypeName(r.value.recordType) == Success(data.entries["type"].s)
      && r.value.data == data.entries["data"]
      && r.value.zone == zone
      && r.value.extra == CopyIfPresent(data.entries, "ttl", "ttl")
  {
    var id :- Lookup(data, "id");
    var name :- Lookup(data, "name");
    var typeName :- Lookup(data, "type");
    var recordType :- StringToRecordType(typeName);
    var recordData :- Lookup(data, "data");
    Success(Record(PyStr(id), name, recordType, recordData, zone, CopyIfPresent(data.entries, "ttl", "ttl")))
  }

  /** `_to_zones`: one zone per listed entry, in order; it fails exactly
      when an entry does not convert. */
  function ZonesOf(data: Value): (r: Outcome<seq<Zone>>)
    ensures r.Success? <==>
      SubscriptableElements(data).Success? &&
      forall i :: 0 <= i < |SubscriptableElements(data).value| ==> ToZone(SubscriptableElements(data).value[i]).Success?
    ensures r.Success? ==>
      |r.value| == |SubscriptableElements(data).value| &&
      forall i :: 0 <= i < |r.value| ==> r.value[i] == ToZone(SubscriptableElements(data).value[i]).value
  {
    var items :- SubscriptableElements(data);
    MapAllSpec(ToZone, items);
    MapAll(ToZone, items)
  }

  /** `_to_records`: one record of `zone` per listed entry, in order; it
      fails exactly when an entry does not convert. */
  function RecordsOf(data: Value, zone: Zone): (r: Outcome<seq<Record>>)
    ensures r.Success? <==>
      SubscriptableElements(data).Success? &&
      forall i :: 0 <= i < |SubscriptableElements(data).value| ==>
        ToRecord(SubscriptableElements(data).value[i], zone).Success?
    ensures r.Success? ==>
      |r.value| == |SubscriptableElements(data).value| &&
      forall i :: 0 <= i < |r.value| ==> r.value[i] == ToRecord(SubscriptableElements(data).value[i], zone).value
  {
    var items :- SubscriptableElements(data);
    MapAllSpec(v => ToRecord(v, zone), items);
    MapAll(v => ToRecord(v, zone), items)
  }

  /** `_to_zones`. */
  method ToZones(data: Value) returns (r: Outcome<seq<Zone>>)
    ensures r == ZonesOf(data)
  {
    var items :- SubscriptableElements(data);
    var zones: seq<Zone> := [];
    assert items[0..] == items;
    PrependNothing(MapAll(ToZone, items));
    for i := 0 to |items|
      invariant MapAll(ToZone, items) == Prepend(zones, MapAll(ToZone, items[i..]))
    {
      MapAllStep(ToZone, items, i, zones);
      var zone :- ToZone(items[i]);
      zones := zones + [zone];
    }
    assert items[|items|..] == [];
    assert zones + [] == zones;
    return Success(zones);
  }

  /** `_to_records`. */
  method ToRecords(data: Value, zone: Zone) returns (r: Outcome<seq<Record>>)
    ensures r == RecordsOf(data, zone)
  {
    var items :- SubscriptableElements(data);
    var convert := v => ToRecord(v, zone);
    var records: seq<Record> := [];
    assert items[0..] == items;
    PrependNothing(MapAll(convert, items));
    for i := 0 to |items|
      invariant MapAll(convert, items) == Prepend(records, MapAll(convert, items[i..]))
    {
      MapAllStep(convert, items, i, records);
      var record :- convert(items[i]);
      records := records + [record];
    }
    assert items[|items|..] == [];
    assert records + [] == records;
    return Success(records);
  }

  /** A zone listing has one zone per entry, in order, each of type
      `master`; it fails if any entry does. */
  lemma ZonesOfSpec(items: seq<Value>)
    ensures ZonesOf(List(items)).Success? <==> forall i :: 0 <= i < |items| ==> ToZone(items[i]).Success?
    ensures ZonesOf(List(items)).Success? ==>
      |ZonesOf(List(items)).value| == |items| &&
      forall i :: 0 <= i < |items| ==>
        ZonesOf(List(items)).value[i] == ToZone(items[i]).value &&
        ZonesOf(List(items)).value[i].zoneType == Str("master")
  {
    MapAllSpec(ToZone, items);
  }

  /** A record listing has one record per entry, in order, all in `zone`. */
  lemma RecordsOfSpec(items: seq<Value>, zone: Zone)
    ensures RecordsOf(List(items), zone).Success? <==> forall i :: 0 <= i < |items| ==> ToRecord(items[i], zone).Success?
    ensures RecordsOf(List(items), zone).Success? ==>
      |RecordsOf(List(items), zone).value| == |items| &&
      forall i :: 0 <= i < |items| ==>
        RecordsOf(List(items), zone).value[i] == ToRecord(items[i], zone).value &&
        RecordsOf(List(items), zone).value[i].zone == zone
  {
    MapAllSpec(v => ToRecord(v, zone), items);
  }

  // ---------------------------------------------------------------------
  // RackspaceDNSResponse.parse_error

  /** The statuses and contexts for which `parse_error` goes on to read the
      body: anything but a 404 about a zone or a record. */
  predicate ReadsBody(status: int, context: map<string, Value>) {
    status != 404 || ("resource" in context && context["resource"] != Str("zone") && context["resource"] != Str("record"))
  }

  /** `[m for m in v]`: a list gives its items and a string its characters. */
  function Iterated(v: Value): (r: Outcome<seq<Value>>)
    ensures v.List? ==> r == Success(v.items)
  {
    match v
    case List(items) => Success(items)
    case Str(s) => Success(Characters(s))
    case _ => Failure(TypeError)
  }

  function Characters(s: string): (r: seq<Value>)
    ensures |r| == |s|
    ensures forall i :: 0 <= i < |s| ==> r[i] == Str([s[i]])
  {
    if s == [] then [] else [Str([s[0]])] + Characters(s[1..])
  }

  /** The strings among `items`, when all of them are strings (`join` raises
      TypeError otherwise). */
  function Texts(items: seq<Value>): (r: Outcome<seq<string>>)
    ensures r.Success? <==> forall i :: 0 <= i < |items| ==> items[i].Str?
    ensures r.Success? ==> |r.value| == |items| && forall i :: 0 <= i < |items| ==> r.value[i] == items[i].s
  {
    if items == [] then Success([])
    else if items[0].Str? then
      var rest :- Texts(items[1..]);
      Success([items[0].s] + rest)
    else Failure(TypeError)
  }

  function Strs(texts: seq<string>): (r: seq<Value>)
    ensures |r| == |texts| && forall i :: 0 <= i < |texts| ==> r[i] == Str(texts[i])
  {
    if texts == [] then [] else [Str(texts[0])] + Strs(texts[1..])
  }

  /** `parse_error`. A 404 about a zone or a record raises the matching
      "does not exist" error with the context's id. Otherwise the test
      `'code' and 'message' in body` only asks for `message` (the literal
      `'code'` is always true); such a body is formatted as
      `code - message (details)`, a body with `validationErrors` lists its
      messages, and any other body leaves `err` unbound. */
  function ParseError(status: int, context: map<string, Value>, body: Value): (r: Outcome<string>)
    ensures status == 404 && "resource" in context && context["resource"] == Str("zone") && "id" in context ==>
      r == Failure(ZoneDoesNotExistError(context["id"]))
    ensures status == 404 && "resource" in context && context["resource"] == Str("record") && "id" in context ==>
      r == Failure(RecordDoesNotExistError(context["id"]))
    ensures ReadsBody(status, context) && body.Dict? && "message" in body.entries ==>
      (r.Success? <==> "code" in body.entries && "details" in body.entries)
    ensures ReadsBody(status, context) && body.Dict? && "message" in body.entries && r.Success? ==>
      r.value == PyStr(body.entries["code"]) + " - " + PyStr(body.entries["message"])
                 + " (" + PyStr(body.entries["details"]) + ")"
    ensures ReadsBody(status, context) && body.Dict? && "message" !in body.entries
            && "validationErrors" !in body.entries ==>
      r == Failure(UnboundLocalError("err"))
    ensures r.Success? ==> ReadsBody(status, context)
  {
    if status == 404 && "resource" !in context then Failure(KeyError("resource"))
    else if status == 404 && context["resource"] == Str("zone") then
      (if "id" in context then Failure(ZoneDoesNotExistError(context["id"])) else Failure(KeyError("id")))
    else if status == 404 && context["resource"] == Str("record") then
      (if "id" in context then Failure(RecordDoesNotExistError(context["id"])) else Failure(KeyError("id")))
    else
      var hasMessage :- Has(body, "message");
      if hasMessage then
        var code :- Lookup(body, "code");
        var details :- Lookup(body, "details");
        Success(PyStr(code) + " - " + PyStr(body.entries["message"]) + " (" + PyStr(details) + ")")
      else
        var hasValidationErrors :- Has(body, "validationErrors");
        if hasValidationErrors then
          var validationErrors :- Lookup(body, "validationErrors");
          var messages :- Lookup(validationErrors, "messages");
          var errors :- Iterated(messages);
          var texts :- Texts(errors);
          Success("Validation errors: " + Join(texts, ", "))
        else Failure(UnboundLocalError("err"))
  }

  /** A validation report is the list of its messages, comma-separated,
      whatever else the body and the report hold. */
  lemma ValidationErrorsJoined(status: int, context: map<string, Value>, entries: map<string, Value>,
                               report: map<string, Value>, messages: seq<string>)
    requires ReadsBody(status, context)
    requires "message" !in entries && "validationErrors" in entries && entries["validationErrors"] == Dict(report)
    requires "messages" in report && report["messages"] == List(Strs(messages))
    ensures ParseError(status, context, Dict(entries)) == Success("Validation errors: " + Join(messages, ", "))
  {
    var texts := Texts(Strs(messages));
    assert texts.value == messages;
  }

  /** The precedence of `'code' and 'message' in body`: a body with a
      message but no code raises KeyError on `code`, and a body with a code
      but neither a message nor validation errors leaves `err` unbound. */
  lemma CodeIsNotTested(status: int, context: map<string, Value>, entries: map<string, Value>)
    requires ReadsBody(status, context)
    ensures "message" in entries && "code" !in entries ==>
      ParseError(status, context, Dict(entries)) == Failure(KeyError("code"))
    ensures "message" !in entries && "validationErrors" !in entries ==>
      ParseError(status, context, Dict(entries)) == Failure(UnboundLocalError("err"))
  {
  }

  // ---------------------------------------------------------------------
  // RackspaceDNSConnection: the asynchronous job

  /** The keyword arguments of the status request. */
  datatype PollKwargs = PollKwargs(action: string, params: map<string, Value>)

  /** `get_poll_request_kwargs`: the job's status, with its details. */
  function PollRequest(response: Value): (r: Outcome<PollKwargs>)
    ensures r.Success? <==> response.Dict? && "jobId" in response.entries
    ensures r.Success? ==> StartsWith(r.value.action, "/status/")
    ensures r.Success? ==> r.value.action[|"/status/"|..] == PyStr(response.entries["jobId"])
    ensures r.Success? ==> r.value.params == map["showDetails" := Bool(true)]
  {
    var jobId :- Lookup(response, "jobId");
    Success(PollKwargs("/status/" + PyStr(jobId), map["showDetails" := Bool(true)]))
  }

  /** A job reported by number is polled at an action the number can be read
      back from. */
  lemma PollActionNamesJob(jobId: int)
    ensures PollRequest(Dict(map["jobId" := Int(jobId)])).Success?
    ensures ParseInt(PollRequest(Dict(map["jobId" := Int(jobId)])).value.action[|"/status/"|..]) == Some(jobId)
  {
    IntToStringRoundTrip(jobId);
  }

  /** `has_completed`: `ERROR` raises with the job's error message; the job
      is done exactly when its status is `COMPLETED`. */
  function HasCompleted(response: Value): (r: Outcome<bool>)
    ensures r == Success(true) <==>
      response.Dict? && "status" in response.entries && response.entries["status"] == Str("COMPLETED")
    ensures r == Success(false) <==>
      response.Dict? && "status" in response.entries &&
      response.entries["status"] != Str("COMPLETED") && response.entries["status"] != Str("ERROR")
    ensures response.Dict? && "status" in response.entries && response.entries["status"] == Str("ERROR") ==>
      r.Failure?
    ensures response.Dict? && "status" in response.entries && response.entries["status"] == Str("ERROR")
            && "error" in response.entries && Lookup(response.entries["error"], "message").Success? ==>
      r == Failure(LibcloudError(Lookup(response.entries["error"], "message").value))
    ensures r.Failure? && r.error.LibcloudError? ==>
      response.Dict? && "error" in response.entries && Lookup(response.entries["error"], "message").Success?
  {
    var status :- Lookup(response, "status");
    if status == Str("ERROR") then
      var error :- Lookup(response, "error");
      var message :- Lookup(error, "message");
      Failure(LibcloudError(message))
    else Success(status == Str("COMPLETED"))
  }

  // ---------------------------------------------------------------------
  // RackspaceDNSDriver

  /** One request handed to the connection (`request` or `async_request`). */
  datatype DnsRequest = DnsRequest(action: string, verb: string, params: map<string, Value>, data: Value)

  function ZoneContext(id: Value): map<string, Value> {
    map["resource" := Str("zone"), "id" := id]
  }

  function RecordContext(id: Value): map<string, Value> {
    map["resource" := Str("record"), "id" := id]
  }

  /** Under the context a zone operation sets, a 404 names that zone, and
      under a record operation's, that record. */
  lemma NotFoundNamesContext(id: Value, body: Value)
    ensures ParseError(404, ZoneContext(id), body) == Failure(ZoneDoesNotExistError(id))
    ensures ParseError(404, RecordContext(id), body) == Failure(RecordDoesNotExistError(id))
  {
  }

  /** The zone `create_zone` sends: always the name, the email address and
      an empty record list; the ttl only when it is truthy, the comment only
      when given. */
  predicate IsZonePayload(domain: Value, ttl: Value, extra: map<string, Value>, payload: map<string, Value>) {
    && "email" in extra
    && payload.Keys == {"name", "emailAddress", "recordsList"}
                       + (if Truthy(ttl) then {"ttl"} else {})
                       + (if "comment" in extra then {"comment"} else {})
    && payload["name"] == domain
    && payload["emailAddress"] == extra["email"]
    && payload["recordsList"] == Dict(map["records" := List([])])
    && (Truthy(ttl) ==> payload["ttl"] == ttl)
    && ("comment" in extra ==> payload["comment"] == extra["comment"])
  }

  /** The record `create_record` sends: name, type name and data, and the
      ttl as an integer when `extra` has one. */
  predicate IsRecordPayload(name: Value, typeName: string, data: Value, extra: map<string, Value>,
                            payload: map<string, Value>)
  {
    && payload.Keys == {"name", "type", "data"} + (if "ttl" in extra then {"ttl"} else {})
    && payload["name"] == name
    && payload["type"] == Str(typeName)
    && payload["data"] == data
    && ("ttl" in extra ==> PyInt(extra["ttl"]).Success? && payload["ttl"] == Int(PyInt(extra["ttl"]).value))
  }

  /** The first element of `reply['response'][key]`: the first item of a
      list, the first character of a string. */
  function FirstCreated(reply: Value, key: string): (r: Outcome<Value>)
    ensures r.Success? <==>
      Lookup(reply, "response").Success? && Lookup(reply.entries["response"], key).Success? &&
      ((reply.entries["response"].entries[key].List? && |reply.entries["response"].entries[key].items| > 0) ||
       (reply.entries["response"].entries[key].Str? && |reply.entries["response"].entries[key].s| > 0))
    ensures r.Success? && reply.entries["response"].entries[key].List? ==>
      r.value == reply.entries["response"].entries[key].items[0]
    ensures r.Success? && reply.entries["response"].entries[key].Str? ==>
      r.value == Str([reply.entries["response"].entries[key].s[0]])
  {
    var response :- Lookup(reply, "response");
    var created :- Lookup(response, key);
    Index(created, 0)
  }

  /** A zone the service echoes back with an id is read as the zone that
      was asked for: same domain, email and comment, and the ttl sent. */
  lemma CreatedZoneEchoesPayload(domain: Value, ttl: Value, extra: map<string, Value>,
                                 payload: map<string, Value>, id: Value)
    requires IsZonePayload(domain, ttl, extra, payload) && "id" !in payload
    requires Truthy(ttl) ==> ttl.Int?
    ensures ToZone(Dict(payload["id" := id])).Success?
    ensures ToZone(Dict(payload["id" := id])).value.domain == domain
    ensures ToZone(Dict(payload["id" := id])).value.extra["email"] == extra["email"]
    ensures "comment" in extra ==> ToZone(Dict(payload["id" := id])).value.extra["comment"] == extra["comment"]
    ensures ToZone(Dict(payload["id" := id])).value.ttl == (if Truthy(ttl) then ttl else Int(0))
  {
    var echoed := payload["id" := id];
    assert "emailAddress" in echoed && echoed["emailAddress"] == extra["email"];
    assert "comment" in extra ==> "comment" in echoed && echoed["comment"] == extra["comment"];
    assert GetOr(echoed, "ttl", Int(0)) == (if Truthy(ttl) then ttl else Int(0));
  }

  /** A record the service echoes back with an id is read as the record
      that was asked for: same name, type, data and ttl. */
  lemma CreatedRecordEchoesPayload(name: Value, recordType: RecordType, data: Value, extra: map<string, Value>,
                                   payload: map<string, Value>, id: Value, zone: Zone)
    requires RecordTypeName(recordType).Success?
    requires IsRecordPayload(name, RecordTypeName(recordType).value, data, extra, payload) && "id" !in payload
    ensures ToRecord(Dict(payload["id" := id]), zone).Success?
    ensures ToRecord(Dict(payload["id" := id]), zone).value.name == name
    ensures ToRecord(Dict(payload["id" := id]), zone).value.recordType == recordType
    ensures ToRecord(Dict(payload["id" := id]), zone).value.data == data
    ensures "ttl" in extra ==>
      ToRecord(Dict(payload["id" := id]), zone).value.extra == map["ttl" := Int(PyInt(extra["ttl"]).value)]
    ensures "ttl" !in extra ==> ToRecord(Dict(payload["id" := id]), zone).value.extra == map[]
  {
    var echoed := payload["id" := id];
    RecordTypeRoundTrip(recordType);
    assert echoed["type"] == Str(RecordTypeName(recordType).value);
    var r := ToRecord(Dict(echoed), zone);
    assert RecordTypeName(r.value.recordType) == RecordTypeName(recordType);
  }

  /** The connection state the driver changes: the context `parse_error`
      reads. */
  class DnsConnection {
    var context: map<string, Value>

    constructor ()
      ensures context == map[]
    {
      context := map[];
    }

    /** `set_context`. */
    method SetContext(context: map<string, Value>)
      modifies this
      ensures this.context == context
    {
      this.context := context;
    }
  }

  /** `merge_valid_keys(params, valid_keys, extra)`, whose code is not part
      of this model, is passed in as `merge`. */
  type Merge = (map<string, Value>, seq<string>, map<string, Value>) -> map<string, Value>

  class RackspaceDnsDriver {
    const connection: DnsConnection

    constructor (connection: DnsConnection)
      ensures this.connection == connection
    {
      this.connection := connection;
    }

    /** `list_zones`: `reply` is the decoded reply. */
    method ListZones(reply: Value) returns (sent: seq<DnsRequest>, r: Outcome<seq<Zone>>)
      ensures sent == [DnsRequest("/domains", "GET", map[], Null)]
      ensures Lookup(reply, "domains").Failure? ==> r == Failure(Lookup(reply, "domains").error)
      ensures Lookup(reply, "domains").Success? ==> r == ZonesOf(Lookup(reply, "domains").value)
    {
      sent := [DnsRequest("/domains", "GET", map[], Null)];
      var domains := Lookup(reply, "domains");
      if domains.Failure? {
        return sent, Failure(domains.error);
      }
      r := ToZones(domains.value);
    }

    /** `list_records`: the context names the zone before the request. */
    method ListRecords(zone: Zone, reply: Value) returns (sent: seq<DnsRequest>, r: Outcome<seq<Record>>)
      modifies connection
      ensures connection.context == ZoneContext(Str(zone.id))
      ensures sent == [DnsRequest("/domains/" + zone.id, "GET", map["showRecord" := Bool(true)], Null)]
      ensures r == (var list :- Lookup(reply, "recordsList");
                    var records :- Lookup(list, "records");
                    RecordsOf(records, zone))
    {
      connection.SetContext(ZoneContext(Str(zone.id)));
      sent := [DnsRequest("/domains/" + zone.id, "GET", map["showRecord" := Bool(true)], Null)];
      var list := Lookup(reply, "recordsList");
      if list.Failure? {
        return sent, Failure(list.error);
      }
      var records := Lookup(list.value, "records");
      if records.Failure? {
        return sent, Failure(records.error);
      }
      r := ToRecords(records.value, zone);
    }

    /** `get_zone`. */
    method GetZone(zoneId: Value, reply: Value) returns (sent: seq<DnsRequest>, r: Outcome<Zone>)
      modifies connection
      ensures connection.context == ZoneContext(zoneId)
      ensures sent == [DnsRequest("/domains/" + PyStr(zoneId), "GET", map[], Null)]
      ensures r == ToZone(reply)
    {
      connection.SetContext(ZoneContext(zoneId));
      sent := [DnsRequest("/domains/" + PyStr(zoneId), "GET", map[], Null)];
      r := ToZone(reply);
    }

    /** `get_record`: the zone is fetched first (and its failure stops
      everything), then the context names the record. */
    method GetRecord(zoneId: Value, recordId: Value, zoneReply: Value, recordReply: Value)
      returns (sent: seq<DnsRequest>, r: Outcome<Record>)
      modifies connection
      ensures ToZone(zoneReply).Failure? ==>
        && connection.context == ZoneContext(zoneId)
        && sent == [DnsRequest("/domains/" + PyStr(zoneId), "GET", map[], Null)]
        && r == Failure(ToZone(zoneReply).error)
      ensures ToZone(zoneReply).Success? ==>
        && connection.context == RecordContext(recordId)
        && sent == [DnsRequest("/domains/" + PyStr(zoneId), "GET", map[], Null),
                    DnsRequest("/domains/" + PyStr(zoneId) + "/records/" + PyStr(recordId), "GET", map[], Null)]
        && r == ToRecord(recordReply, ToZone(zoneReply).value)
    {
      var zone;
      sent, zone := GetZone(zoneId, zoneReply);
      if zone.Failure? {
        return sent, Failure(zone.error);
      }
      connection.SetContext(RecordContext(recordId));
      sent := sent + [DnsRequest("/domains/" + PyStr(zoneId) + "/records/" + PyStr(recordId), "GET", map[], Null)];
      r := ToRecord(recordReply, zone.value);
    }

    /** `create_zone`: without an email address nothing is sent; otherwise
      the payload is posted and the zone read from the job's result. */
    method CreateZone(domain: Value, ttl: Value, extra: Option<map<string, Value>>, reply: Value)
      returns (payload: map<string, Value>, sent: seq<DnsRequest>, r: Outcome<Zone>)
      ensures "email" !in OrEmpty(extra) ==>
        sent == [] && r == Failure(ValueError("\"email\" key must be present in extra dictionary"))
      ensures "email" in OrEmpty(extra) ==>
        && IsZonePayload(domain, ttl, OrEmpty(extra), payload)
        && sent == [DnsRequest("/domains", "POST", map[], Dict(map["domains" := List([Dict(payload)])]))]
        && r == (var created :- FirstCreated(reply, "domains"); ToZone(created))
    {
      var ex := OrEmpty(extra);
      payload := map[];
      if "email" !in ex {
        return payload, [], Failure(ValueError("\"email\" key must be present in extra dictionary"));
      }
      payload := map["name" := domain, "emailAddress" := ex["email"], "recordsList" := Dict(map["records" := List([])])];
      if Truthy(ttl) {
        payload := payload["ttl" := ttl];
      }
      if "comment" in ex {
        payload := payload["comment" := ex["comment"]];
      }
      assert IsZonePayload(domain, ttl, ex, payload);
      sent := [DnsRequest("/domains", "POST", map[], Dict(map["domains" := List([Dict(payload)])]))];
      var created := FirstCreated(reply, "domains");
      if created.Failure? {
        return payload, sent, Failure(created.error);
      }
      r := ToZone(created.value);
    }

    /** `update_zone`: a new domain is refused before anything is sent; the
      data holds the ttl (as an integer), email address and comment, each
      only when supplied; the zone comes back with its type and ttl
      replaced when given and its extra merged. */
    method UpdateZone(zone: Zone, domain: Value, zoneType: Value, ttl: Value, extra: Option<map<string, Value>>,
                      merge: Merge)
      returns (data: map<string, Value>, sent: seq<DnsRequest>, r: Outcome<Zone>)
      modifies connection
      ensures Truthy(domain) ==>
        r == Failure(LibcloudError(Str("Domain cannot be changed"))) && sent == [] && unchanged(connection)
      ensures !Truthy(domain) && Truthy(ttl) && PyInt(ttl).Failure? ==>
        r == Failure(PyInt(ttl).error) && sent == [] && unchanged(connection)
      ensures !Truthy(domain) && (Truthy(ttl) ==> PyInt(ttl).Success?) ==>
        && data.Keys == (if Truthy(ttl) then {"ttl"} else {})
                        + (if "email" in OrEmpty(extra) then {"emailAddress"} else {})
                        + (if "comment" in OrEmpty(extra) then {"comment"} else {})
        && (Truthy(ttl) ==> data["ttl"] == Int(PyInt(ttl).value))
        && ("email" in OrEmpty(extra) ==> data["emailAddress"] == OrEmpty(extra)["email"])
        && ("comment" in OrEmpty(extra) ==> data["comment"] == OrEmpty(extra)["comment"])
        && connection.context == ZoneContext(Str(zone.id))
        && sent == [DnsRequest("/domains/" + zone.id, "PUT", map[], Dict(data))]
        && r == Success(zone.(zoneType := if Truthy(zoneType) then zoneType else zone.zoneType,
                              ttl := if Truthy(ttl) then ttl else zone.ttl,
                              extra := merge(zone.extra, VALID_ZONE_EXTRA_PARAMS, OrEmpty(extra))))
    {
      var ex := OrEmpty(extra);
      data := map[];
      if Truthy(domain) {
        return data, [], Failure(LibcloudError(Str("Domain cannot be changed")));
      }
      if Truthy(ttl) {
        var ttlValue := PyInt(ttl);
        if ttlValue.Failure? {
          return data, [], Failure(ttlValue.error);
        }
        data := data["ttl" := Int(ttlValue.value)];
      }
      if "email" in ex {
        data := data["emailAddress" := ex["email"]];
      }
      if "comment" in ex {
        data := data["comment" := ex["comment"]];
      }
      var newType := if Truthy(zoneType) then zoneType else zone.zoneType;
      var newTtl := if Truthy(ttl) then ttl else zone.ttl;
      connection.SetContext(ZoneContext(Str(zone.id)));
      sent := [DnsRequest("/domains/" + zone.id, "PUT", map[], Dict(data))];
      var merged := merge(zone.extra, VALID_ZONE_EXTRA_PARAMS, ex);
      r := Success(zone.(zoneType := newType, ttl := newTtl, extra := merged));
    }

    /** `create_record`: an unlisted type raises KeyError and a missing
      `extra` raises TypeError (`'ttl' in None`), both before anything is
      sent; otherwise the record is posted under the zone's context. */
    method CreateRecord(name: Value, zone: Zone, recordType: RecordType, data: Value,
                        extra: Option<map<string, Value>>, reply: Value)
      returns (record: map<string, Value>, sent: seq<DnsRequest>, r: Outcome<Record>)
      modifies connection
      ensures RecordTypeName(recordType).Failure? ==>
        r == Failure(RecordTypeName(recordType).error) && sent == [] && unchanged(connection)
      ensures RecordTypeName(recordType).Success? && extra.None? ==>
        r == Failure(TypeError) && sent == [] && unchanged(connection)
      ensures RecordTypeName(recordType).Success? && extra.Some? && "ttl" in extra.value
              && PyInt(extra.value["ttl"]).Failure? ==>
        r == Failure(PyInt(extra.value["ttl"]).error) && sent == [] && unchanged(connection)
      ensures RecordTypeName(recordType).Success? && extra.Some?
              && ("ttl" in extra.value ==> PyInt(extra.value["ttl"]).Success?) ==>
        && IsRecordPayload(name, RecordTypeName(recordType).value, data, extra.value, record)
        && connection.context == ZoneContext(Str(zone.id))
        && sent == [DnsRequest("/domains/" + zone.id + "/records", "POST", map[],
                               Dict(map["records" := List([Dict(record)])]))]
        && r == (var created :- FirstCreated(reply, "records"); ToRecord(created, zone))
    {
      record := map[];
      var typeName := RecordTypeName(recordType);
      if typeName.Failure? {
        return record, [], Failure(typeName.error);
      }
      record := map["name" := name, "type" := Str(typeName.value), "data" := data];
      if extra.None? {
        return record, [], Failure(TypeError);
      }
      if "ttl" in extra.value {
        var ttlValue := PyInt(extra.value["ttl"]);
        if ttlValue.Failure? {
          return record, [], Failure(ttlValue.error);
        }
        record := record["ttl" := Int(ttlValue.value)];
      }
      connection.SetContext(ZoneContext(Str(zone.id)));
      sent := [DnsRequest("/domains/" + zone.id + "/records", "POST", map[], Dict(map["records" := List([Dict(record)])]))];
      var created := FirstCreated(reply, "records");
      if created.Failure? {
        return record, sent, Failure(created.error);
      }
      r := ToRecord(created.value, zone);
    }

    /** `update_record`: the payload always carries the record's own name
      (the `name` argument is not used); data, ttl and comment are added
      only when given. The record comes back with type and data replaced
      when given and its extra merged. */
    method UpdateRecord(record: Record, name: Value, recordType: Option<RecordType>, data: Value,
                        extra: Option<map<string, Value>>, merge: Merge)
      returns (payload: map<string, Value>, sent: seq<DnsRequest>, r: Record)
      modifies connection
      ensures payload.Keys == {"name"} + (if Truthy(data) then {"data"} else {})
                              + (if "ttl" in OrEmpty(extra) then {"ttl"} else {})
                              + (if "comment" in OrEmpty(extra) then {"comment"} else {})
      ensures payload["name"] == record.name
      ensures Truthy(data) ==> payload["data"] == data
      ensures "ttl" in OrEmpty(extra) ==> payload["ttl"] == OrEmpty(extra)["ttl"]
      ensures "comment" in OrEmpty(extra) ==> payload["comment"] == OrEmpty(extra)["comment"]
      ensures connection.context == RecordContext(Str(record.id))
      ensures sent == [DnsRequest("/domains/" + record.zone.id + "/records/" + record.id, "PUT", map[], Dict(payload))]
      ensures r == record.(recordType := if recordType.Some? then recordType.value else record.recordType,
                           data := if Truthy(data) then data else record.data,
                           extra := merge(record.extra, VALID_RECORD_EXTRA_PARAMS, OrEmpty(extra)))
    {
      var ex := OrEmpty(extra);
      payload := map["name" := record.name];
      if Truthy(data) {
        payload := payload["data" := data];
      }
      if "ttl" in ex {
        payload := payload["ttl" := ex["ttl"]];
      }
      if "comment" in ex {
        payload := payload["comment" := ex["comment"]];
      }
      var newType := if recordType.Some? then recordType.value else record.recordType;
      var newData := if Truthy(data) then data else record.data;
      connection.SetContext(RecordContext(Str(record.id)));
      sent := [DnsRequest("/domains/" + record.zone.id + "/records/" + record.id, "PUT", map[], Dict(payload))];
      var merged := merge(record.extra, VALID_RECORD_EXTRA_PARAMS, ex);
      r := record.(recordType := newType, data := newData, extra := merged);
    }

    /** `delete_zone`. */
    method DeleteZone(zone: Zone) returns (sent: seq<DnsRequest>, r: bool)
      modifies connection
      ensures connection.context == ZoneContext(Str(zone.id))
      ensures sent == [DnsRequest("/domains/" + zone.id, "DELETE", map[], Null)]
      ensures r
    {
      connection.SetContext(ZoneContext(Str(zone.id)));
      sent := [DnsRequest("/domains/" + zone.id, "DELETE", map[], Null)];
      r := true;
    }

    /** `delete_record`. */
    method DeleteRecord(record: Record) returns (sent: seq<DnsRequest>, r: bool)
      modifies connection
      ensures connection.context == RecordContext(Str(record.id))
      ensures sent == [DnsRequest("/domains/" + record.zone.id + "/records/" + record.id, "DELETE", map[], Null)]
      ensures r
    {
      connection.SetContext(RecordContext(Str(record.id)));
      sent := [DnsRequest("/domains/" + record.zone.id + "/records/" + record.id, "DELETE", map[], Null)];
      r := true;
    }
  }
}
