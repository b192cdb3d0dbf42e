/** The shapes of what the adapters send and receive: decoded JSON and abstract HTTP requests. */
module Http {

  /** A decoded JSON value. */
  datatype Json =
    | Null
    | Bool(b: bool)
    | Num(n: int)
    | Str(s: string)
    | Arr(items: seq<Json>)
    | Obj(fields: map<string, Json>)

  datatype Verb = Get | Post | Put | Delete

  /** How a request carries its data: as query parameters, as a JSON body, or as the raw bytes
      that were downloaded from `sourceUrl`. */
  datatype Payload =
    | NoPayload
    | Query(params: map<string, Json>)
    | Body(json: Json)
    | Bytes(sourceUrl: string)

  /** One outbound HTTP call. Headers are not part of the model. */
  datatype Request = Request(verb: Verb, url: string, payload: Payload)

  /** What one operation sent, in order, and the value it handed back to its caller. */
  datatype Exchange = Exchange(requests: seq<Request>, result: Json)

  /** The `{"error": message}` object the adapters return or store on failure. */
  function ErrorObject(message: string): Json {
    Obj(map["error" := Str(message)])
  }
}
