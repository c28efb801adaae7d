/** JSON-RPC 2.0 messages, how they are laid out as JSON objects, and how they are read back. */
module JsonRpc {
  import opened Options

  /** A parsed JSON text. Object members keep their order and repetitions, as the reader of an
      untagged message sees them. */
  datatype Json =
    | Null
    | Bool(b: bool)
    | Int(n: int)
    | Float(r: real)
    | Str(s: string)
    | Arr(items: seq<Json>)
    | Obj(members: seq<(string, Json)>)

  type Int64 = n: int | -0x8000_0000_0000_0000 <= n < 0x8000_0000_0000_0000

  datatype RequestId = Number(n: Int64) | Name(s: string)

  datatype JsonRpcRequest = JsonRpcRequest(
    jsonrpc: string, id: Option<RequestId>, procedure: string, params: Option<Json>)

  datatype JsonRpcError = JsonRpcError(code: Int64, message: string, data: Option<Json>)

  datatype JsonRpcResponse = JsonRpcResponse(
    jsonrpc: string, id: Option<RequestId>, result: Option<Json>, error: Option<JsonRpcError>)

  datatype JsonRpcMessage = Request(request: JsonRpcRequest) | Response(response: JsonRpcResponse)

  // ----- writing -----

  function IdToJson(id: RequestId): Json {
    match id
    case Number(n) => Int(n)
    case Name(s) => Str(s)
  }

  /** A member that is left out when absent. */
  function Optional(name: string, v: Option<Json>): seq<(string, Json)> {
    if v.Some? then [(name, v.value)] else []
  }

  function OptionalId(id: Option<RequestId>): seq<(string, Json)> {
    Optional("id", if id.Some? then Some(IdToJson(id.value)) else None)
  }

  function ErrorToJson(e: JsonRpcError): Json {
    Obj([("code", Int(e.code)), ("message", Str(e.message))] + Optional("data", e.data))
  }

  function ToJson(m: JsonRpcMessage): Json {
    match m
    case Request(r) =>
      Obj([("jsonrpc", Str(r.jsonrpc))] + OptionalId(r.id) + [("method", Str(r.procedure))]
          + Optional("params", r.params))
    case Response(r) =>
      Obj([("jsonrpc", Str(r.jsonrpc))] + OptionalId(r.id) + Optional("result", r.result)
          + Optional("error", if r.error.Some? then Some(ErrorToJson(r.error.value)) else None))
  }

  // ----- reading -----

  datatype Read<+T> = Bad | Good(value: T)

  /** Every value given for a member, in order. */
  function Values(members: seq<(string, Json)>, name: string): seq<Json> {
    if members == [] then []
    else if members[0].0 == name then [members[0].1] + Values(members[1..], name)
    else Values(members[1..], name)
  }

  /** A record is read from an object by member name, or from an array of exactly `arity` items by
      position. Naming a member twice is an error. */
  function Member(v: Json, arity: nat, name: string, position: nat): Read<Option<Json>>
    requires position < arity
  {
    match v
    case Obj(members) =>
      var found := Values(members, name);
      if |found| == 0 then Good(None) else if |found| == 1 then Good(Some(found[0])) else Bad
    case Arr(items) => if |items| == arity then Good(Some(items[position])) else Bad
    case _ => Bad
  }

  function ReadString(m: Read<Option<Json>>): Read<string> {
    if m.Good? && m.value.Some? && m.value.value.Str? then Good(m.value.value.s) else Bad
  }

  function ReadInt(m: Read<Option<Json>>): Read<Int64> {
    if m.Good? && m.value.Some? && m.value.value.Int?
       && -0x8000_0000_0000_0000 <= m.value.value.n < 0x8000_0000_0000_0000
    then Good(m.value.value.n) else Bad
  }

  /** An optional value: null counts as absent. */
  function ReadOptional(m: Read<Option<Json>>): Read<Option<Json>> {
    if m.Bad? then Bad else if m.value == Some(Null) then Good(None) else m
  }

  function ReadId(m: Read<Option<Json>>): Read<Option<RequestId>> {
    match ReadOptional(m)
    case Bad => Bad
    case Good(None) => Good(None)
    case Good(Some(_)) =>
      if ReadInt(m).Good? then Good(Some(Number(ReadInt(m).value)))
      else if ReadString(m).Good? then Good(Some(Name(ReadString(m).value)))
      else Bad
  }

  function ReadError(m: Read<Option<Json>>): Read<Option<JsonRpcError>> {
    match ReadOptional(m)
    case Bad => Bad
    case Good(None) => Good(None)
    case Good(Some(v)) =>
      var code := ReadInt(Member(v, 3, "code", 0));
      var message := ReadString(Member(v, 3, "message", 1));
      var data := ReadOptional(Member(v, 3, "data", 2));
      if code.Good? && message.Good? && data.Good?
      then Good(Some(JsonRpcError(code.value, message.value, data.value))) else Bad
  }

  function ReadRequest(v: Json): Read<JsonRpcRequest> {
    var jsonrpc := ReadString(Member(v, 4, "jsonrpc", 0));
    var id := ReadId(Member(v, 4, "id", 1));
    var procedure := ReadString(Member(v, 4, "method", 2));
    var params := ReadOptional(Member(v, 4, "params", 3));
    if jsonrpc.Good? && id.Good? && procedure.Good? && params.Good?
    then Good(JsonRpcRequest(jsonrpc.value, id.value, procedure.value, params.value)) else Bad
  }

  function ReadResponse(v: Json): Read<JsonRpcResponse> {
    var jsonrpc := ReadString(Member(v, 4, "jsonrpc", 0));
    var id := ReadId(Member(v, 4, "id", 1));
    var result := ReadOptional(Member(v, 4, "result", 2));
    var error := ReadError(Member(v, 4, "error", 3));
    if jsonrpc.Good? && id.Good? && result.Good? && error.Good?
    then Good(JsonRpcResponse(jsonrpc.value, id.value, result.value, error.value)) else Bad
  }

  /** The untagged choice: a request if it can be read as one, otherwise a response. */
  function ReadMessage(v: Json): Read<JsonRpcMessage> {
    var request := ReadRequest(v);
    var response := ReadResponse(v);
    if request.Good? then Good(Request(request.value))
    else if response.Good? then Good(Response(response.value))
    else Bad
  }

  // ----- what is read -----

  /** The member is given once with this value, which is not null, or it is absent or null. */
  predicate Gives(members: seq<(string, Json)>, name: string, v: Option<Json>) {
    var found := Values(members, name);
    if v.Some? then v.value != Null && found == [v.value] else found == [] || found == [Null]
  }

  function IdField(id: Option<RequestId>): Option<Json> {
    if id.Some? then Some(IdToJson(id.value)) else None
  }

  function ErrorField(e: Option<JsonRpcError>): Option<Json> {
    if e.Some? then Some(ErrorToJson(e.value)) else None
  }

  lemma ReadIdIff(m: Read<Option<Json>>, id: Option<RequestId>)
    ensures ReadId(m) == Good(id) <==> ReadOptional(m) == Good(IdField(id))
  {
  }

  lemma GivesIff(members: seq<(string, Json)>, arity: nat, name: string, position: nat, v: Option<Json>)
    requires position < arity
    ensures ReadOptional(Member(Obj(members), arity, name, position)) == Good(v) <==> Gives(members, name, v)
  {
  }

  /** An object is read as this request exactly when it gives each of the four members at most once and
      as the request has it; whatever else it has does not matter. */
  lemma RequestIff(members: seq<(string, Json)>, r: JsonRpcRequest)
    ensures ReadMessage(Obj(members)) == Good(Request(r)) <==>
            && Gives(members, "jsonrpc", Some(Str(r.jsonrpc))) && Gives(members, "id", IdField(r.id))
            && Gives(members, "method", Some(Str(r.procedure))) && Gives(members, "params", r.params)
  {
    ReadIdIff(Member(Obj(members), 4, "id", 1), r.id);
    GivesIff(members, 4, "id", 1, IdField(r.id));
    GivesIff(members, 4, "params", 3, r.params);
  }

  /** An object that is no request is read as this response exactly when it gives the version, the id
      and the result as the response has them, and an error object that is read as the response's. */
  lemma ResponseIff(members: seq<(string, Json)>, r: JsonRpcResponse)
    requires ReadRequest(Obj(members)).Bad?
    ensures ReadMessage(Obj(members)) == Good(Response(r)) <==>
            && Gives(members, "jsonrpc", Some(Str(r.jsonrpc))) && Gives(members, "id", IdField(r.id))
            && Gives(members, "result", r.result)
            && ReadError(Member(Obj(members), 4, "error", 3)) == Good(r.error)
  {
    ReadIdIff(Member(Obj(members), 4, "id", 1), r.id);
    GivesIff(members, 4, "id", 1, IdField(r.id));
    GivesIff(members, 4, "result", 2, r.result);
  }

  lemma ErrorIff(members: seq<(string, Json)>, e: JsonRpcError)
    ensures ReadError(Good(Some(Obj(members)))) == Good(Some(e)) <==>
            && Gives(members, "code", Some(Int(e.code))) && Gives(members, "message", Some(Str(e.message)))
            && Gives(members, "data", e.data)
  {
    GivesIff(members, 3, "data", 2, e.data);
  }

  /** The object that has these items under these names. */
  function Named(names: seq<string>, items: seq<Json>): Json
    requires |names| == |items|
  {
    Obj(seq(|items|, i requires 0 <= i < |items| => (names[i], items[i])))
  }

  lemma NamedValues(names: seq<string>, items: seq<Json>, i: nat)
    requires |names| == |items| == 4 && i < 4
    requires forall j, k :: 0 <= j < k < 4 ==> names[j] != names[k]
    ensures Values(Named(names, items).members, names[i]) == [items[i]]
  {
    var members := Named(names, items).members;
    assert members[1..][1..] == members[2..] && members[2..][1..] == members[3..] && members[3..][1..] == [];
    assert Values(members[3..], names[i]) == if i == 3 then [items[i]] else [];
    assert Values(members[2..], names[i]) == if i >= 2 then [items[i]] else [];
    assert Values(members[1..], names[i]) == if i >= 1 then [items[i]] else [];
  }

  /** An array of four is read as the object that has its items under the members' names, as a request
      first and then as a response; an array of any other length is not read. */
  lemma PositionalReading(items: seq<Json>)
    ensures |items| != 4 ==> ReadMessage(Arr(items)).Bad?
    ensures |items| == 4 ==>
              && ReadRequest(Arr(items)) == ReadRequest(Named(["jsonrpc", "id", "method", "params"], items))
              && ReadResponse(Arr(items)) == ReadResponse(Named(["jsonrpc", "id", "result", "error"], items))
  {
    if |items| == 4 {
      SamePlace("jsonrpc", "id", "method", "params", items);
      SamePlace("jsonrpc", "id", "result", "error", items);
    }
  }

  lemma SamePlace(a: string, b: string, c: string, d: string, items: seq<Json>)
    requires |items| == 4 && a != b && a != c && a != d && b != c && b != d && c != d
    ensures var v := Named([a, b, c, d], items);
            && Member(v, 4, a, 0) == Member(Arr(items), 4, a, 0)
            && Member(v, 4, b, 1) == Member(Arr(items), 4, b, 1)
            && Member(v, 4, c, 2) == Member(Arr(items), 4, c, 2)
            && Member(v, 4, d, 3) == Member(Arr(items), 4, d, 3)
  {
    NamedValues([a, b, c, d], items, 0);
    NamedValues([a, b, c, d], items, 1);
    NamedValues([a, b, c, d], items, 2);
    NamedValues([a, b, c, d], items, 3);
  }

  // ----- round trip -----

  /** No optional payload is present and null. */
  predicate NoNullPayload(m: JsonRpcMessage) {
    match m
    case Request(r) => r.params != Some(Null)
    case Response(r) => r.result != Some(Null) && (r.error.Some? ==> r.error.value.data != Some(Null))
  }

  lemma {:induction false} ValuesConcat(a: seq<(string, Json)>, b: seq<(string, Json)>, name: string)
    ensures Values(a + b, name) == Values(a, name) + Values(b, name)
  {
    if a == [] {
      assert a + b == b;
    } else {
      assert (a + b)[1..] == a[1..] + b;
      ValuesConcat(a[1..], b, name);
    }
  }

  lemma ErrorMembers(e: JsonRpcError, name: string)
    ensures Values(ErrorToJson(e).members, name)
         == Values([("code", Int(e.code)), ("message", Str(e.message))], name) + Values(Optional("data", e.data), name)
  {
    ValuesConcat([("code", Int(e.code)), ("message", Str(e.message))], Optional("data", e.data), name);
  }

  /** An error object is read back as it was, up to a null payload. */
  lemma ErrorRoundTrip(e: JsonRpcError)
    ensures ReadError(Good(Some(ErrorToJson(e))))
         == Good(Some(e.(data := if e.data == Some(Null) then None else e.data)))
  {
    ErrorMembers(e, "code");
    ErrorMembers(e, "message");
    ErrorMembers(e, "data");
  }

  lemma RequestMembers(r: JsonRpcRequest, name: string)
    ensures Values(ToJson(Request(r)).members, name)
         == Values([("jsonrpc", Str(r.jsonrpc))], name) + Values(OptionalId(r.id), name)
          + Values([("method", Str(r.procedure))], name) + Values(Optional("params", r.params), name)
  {
    var a, b := [("jsonrpc", Str(r.jsonrpc))], OptionalId(r.id);
    var c, d := [("method", Str(r.procedure))], Optional("params", r.params);
    ValuesConcat(a, b, name);
    ValuesConcat(a + b, c, name);
    ValuesConcat(a + b + c, d, name);
  }

  lemma ResponseMembers(r: JsonRpcResponse, name: string)
    ensures Values(ToJson(Response(r)).members, name)
         == Values([("jsonrpc", Str(r.jsonrpc))], name) + Values(OptionalId(r.id), name)
          + Values(Optional("result", r.result), name) + Values(Optional("error", ErrorField(r.error)), name)
  {
    var a, b := [("jsonrpc", Str(r.jsonrpc))], OptionalId(r.id);
    var c, d := Optional("result", r.result), Optional("error", ErrorField(r.error));
    ValuesConcat(a, b, name);
    ValuesConcat(a + b, c, name);
    ValuesConcat(a + b + c, d, name);
  }

  lemma IdReadBack(id: Option<RequestId>)
    ensures ReadId(Good(IdField(id))) == Good(id)
  {
  }

  /** The members of a printed response, a missing method among them. */
  lemma ResponseFields(r: JsonRpcResponse)
    ensures var v := ToJson(Response(r));
            && Member(v, 4, "jsonrpc", 0) == Good(Some(Str(r.jsonrpc)))
            && Member(v, 4, "id", 1) == Good(IdField(r.id))
            && Member(v, 4, "method", 2) == Good(None)
            && Member(v, 4, "result", 2) == Good(r.result)
            && Member(v, 4, "error", 3) == Good(ErrorField(r.error))
  {
    ResponseMembers(r, "jsonrpc");
    ResponseMembers(r, "id");
    ResponseMembers(r, "method");
    ResponseMembers(r, "result");
    ResponseMembers(r, "error");
  }

  /** What reading a printed message gives: the message with null payloads gone. */
  function WithoutNulls(m: JsonRpcMessage): JsonRpcMessage {
    match m
    case Request(r) => Request(r.(params := if r.params == Some(Null) then None else r.params))
    case Response(r) =>
      var error := if r.error.Some? && r.error.value.data == Some(Null)
                   then Some(r.error.value.(data := None)) else r.error;
      Response(r.(result := if r.result == Some(Null) then None else r.result, error := error))
  }

  lemma RequestReadBack(r: JsonRpcRequest)
    ensures ReadMessage(ToJson(Request(r))) == Good(WithoutNulls(Request(r)))
  {
    RequestMembers(r, "jsonrpc");
    RequestMembers(r, "id");
    RequestMembers(r, "method");
    RequestMembers(r, "params");
  }

  /** A printed response has no method, so it is never taken for a request. */
  lemma ResponseReadBack(r: JsonRpcResponse)
    ensures ReadRequest(ToJson(Response(r))).Bad?
    ensures ReadMessage(ToJson(Response(r))) == Good(WithoutNulls(Response(r)))
  {
    ResponseFields(r);
    IdReadBack(r.id);
    if r.error.Some? { ErrorRoundTrip(r.error.value); }
  }

  /** Printing then reading gives the message back exactly when it has no null payload, and it
      never turns a response into a request or the other way round. */
  lemma MessageRoundTrip(m: JsonRpcMessage)
    ensures ReadMessage(ToJson(m)) == Good(m) <==> NoNullPayload(m)
    ensures ReadMessage(ToJson(m)).Good? && (ReadMessage(ToJson(m)).value.Request? <==> m.Request?)
  {
    match m
    case Request(r) => RequestReadBack(r);
    case Response(r) => ResponseReadBack(r);
  }
}
