/** fromJSON and toJSON of the generated messages. */
module JsonMapping {
  import opened Messages

  datatype Json = Null | Num(n: int) | Str(s: string) | Other(id: nat)

  /** A JavaScript object; a key that is absent is undefined. */
  type Object = map<string, Json>

  datatype Response = Response(status: int, message: string)

  predicate IsSet(o: Object, key: string) {
    key in o && o[key] != Null
  }

  // ---------- The status ----------

  function StatusFromJson(j: Json): int {
    if j == Num(0) || j == Str("DELIVERY_STATUS_UNSPECIFIED") then 0
    else if j == Num(1) || j == Str("DELIVERY_STATUS_SENT") then 1
    else if j == Num(2) || j == Str("DELIVERY_STATUS_DUPLICATE") then 2
    else -1
  }

  function StatusToJson(status: int): string {
    if status == 0 then "DELIVERY_STATUS_UNSPECIFIED"
    else if status == 1 then "DELIVERY_STATUS_SENT"
    else if status == 2 then "DELIVERY_STATUS_DUPLICATE"
    else "UNRECOGNIZED"
  }

  // ---------- The messages ----------

  /** Both spellings of a key, the JSON one first. */
  function Read(o: Object, camel: string, snake: string, text: Json -> string): string {
    if IsSet(o, camel) then text(o[camel]) else if IsSet(o, snake) then text(o[snake]) else ""
  }

  function RequestFromJson(o: Object, text: Json -> string): Request {
    Request(Read(o, "email", "email", text), Read(o, "repo", "repo", text), Read(o, "tag", "tag", text),
            Read(o, "unsubscribeToken", "unsubscribe_token", text),
            Read(o, "idempotencyKey", "idempotency_key", text))
  }

  function Written(o: Object, key: string, s: string): Object {
    if s == "" then o else o[key := Str(s)]
  }

  function RequestToJson(m: Request): Object {
    Written(Written(Written(Written(Written(map[], "email", m.email), "repo", m.repo), "tag", m.tag),
                    "unsubscribeToken", m.unsubscribeToken), "idempotencyKey", m.idempotencyKey)
  }

  function ResponseFromJson(o: Object, text: Json -> string): Response {
    Response(if IsSet(o, "status") then StatusFromJson(o["status"]) else 0, Read(o, "message", "message", text))
  }

  function ResponseToJson(m: Response): Object {
    Written(if m.status == 0 then map[] else map["status" := Str(StatusToJson(m.status))], "message", m.message)
  }

  // ---------- Laws ----------

  /** String() of a string is the string. */
  ghost predicate KeepsStrings(text: Json -> string) {
    forall s :: text(Str(s)) == s
  }

  /** Every request survives toJSON and fromJSON, default fields left out on the way included. */
  lemma RequestRoundTrip(m: Request, text: Json -> string)
    requires KeepsStrings(text)
    ensures RequestFromJson(RequestToJson(m), text) == m
  {
  }

  /** The JSON name of a status reads back exactly for the four members of the enumeration. */
  lemma StatusRoundTripIff(status: int)
    ensures StatusFromJson(Str(StatusToJson(status))) == status <==> -1 <= status <= 2
    ensures !(-1 <= status <= 2) ==> StatusFromJson(Str(StatusToJson(status))) == -1
  {
  }

  /** A response survives toJSON and fromJSON exactly when its status is in the enumeration: any other int32
      that the wire carries faithfully comes back as UNRECOGNIZED. */
  lemma ResponseRoundTripIff(m: Response, text: Json -> string)
    requires KeepsStrings(text)
    ensures ResponseFromJson(ResponseToJson(m), text) == m <==> -1 <= m.status <= 2
    ensures ResponseFromJson(ResponseToJson(m), text).message == m.message
  {
  }

  /** The same object under the names of the message definition. */
  function Renamed(o: Object): Object {
    (o - {"unsubscribeToken", "idempotencyKey"})
    + (if "unsubscribeToken" in o then map["unsubscribe_token" := o["unsubscribeToken"]] else map[])
    + (if "idempotencyKey" in o then map["idempotency_key" := o["idempotencyKey"]] else map[])
  }

  /** A request written with the original field names reads back as well. */
  lemma OriginalNamesRoundTrip(m: Request, text: Json -> string)
    requires KeepsStrings(text)
    ensures RequestFromJson(Renamed(RequestToJson(m)), text) == m
  {
    WrittenKeys(m);
    var o := RequestToJson(m);
    RequestRoundTrip(m, text);
    RenamedReads(o, text);
  }

  /** toJSON uses the JSON names only. */
  lemma WrittenKeys(m: Request)
    ensures "unsubscribe_token" !in RequestToJson(m) && "idempotency_key" !in RequestToJson(m)
  {
  }

  lemma RenamedReads(o: Object, text: Json -> string)
    requires "unsubscribe_token" !in o && "idempotency_key" !in o
    ensures RequestFromJson(Renamed(o), text) == RequestFromJson(o, text)
  {
  }
}
