/**
  The HTTP handler `hba1c_classifier`: it takes the `hba1c` field from the
  JSON body, or else from the query string, checks that it is there and that
  `float()` accepts it, classifies the number and answers with a
  (payload, status code, headers) triple. Any exception outside the two
  validation checks becomes a 500 answer.
*/
module Handler {
  import opened PyValues
  import opened Classification
  import QueryArgs

  /** What the handler reads from a request: the result of
      `request.get_json(silent=True)`, where `Null` stands both for a body
      that is missing or not JSON and for the JSON literal `null`, and the
      query parameters `request.args`. */
  datatype Request = Request(body: Json, args: QueryArgs.Args)

  /** The three shapes of JSON object the handler answers with. */
  datatype Payload =
    | Classified(hba1c: Float, status: string, category: string)
    | ClientError(error: string)
    | ServerError(error: string, message: string)

  datatype Response = Response(payload: Payload, code: int, headers: map<string, string>)

  const Key: string := "hba1c"
  const JsonHeaders: map<string, string> := map["Content-Type" := "application/json"]
  const RequiredMessage: string := "Field 'hba1c' is required."
  const NotANumberMessage: string := "'hba1c' must be a number."
  const InternalErrorTag: string := "internal_server_error"

  function Required(): Response { Response(ClientError(RequiredMessage), 400, JsonHeaders) }
  function NotANumber(): Response { Response(ClientError(NotANumberMessage), 400, JsonHeaders) }
  function InternalError(message: string): Response
  {
    Response(ServerError(InternalErrorTag, message), 500, JsonHeaders)
  }

  /** `request.get_json(silent=True) or {}`: a falsy body becomes an empty dict. */
  function Data(body: Json): Json
  {
    if Truthy(body) then body else Object(map[])
  }

  /** The text of the AttributeError that `data.get` raises on a non-dict. */
  function NoGetMessage(data: Json): string
  {
    "'" + TypeName(data) + "' object has no attribute 'get'"
  }

  /** The outcome of `data.get("hba1c", args.get("hba1c"))`: the value it
      returns (`Null` for Python's None), or the text of what it raised. */
  datatype Lookup = Found(value: Json) | Failed(message: string)

  /** The query string's `hba1c`, as the default that `data.get` is given. */
  function QueryValue(args: QueryArgs.Args): Json
  {
    match QueryArgs.Get(args, Key)
    case Some(s) => Str(s)
    case None => Null
  }

  /** Input resolution: a dict body that has the key supplies the value
      (even a null one); a falsy body, or a dict without the key, defers to
      the first query parameter of that name; any other body makes
      `data.get` raise. */
  function Resolve(req: Request): (l: Lookup)
    ensures req.body.Object? && Key in req.body.fields ==> l == Found(req.body.fields[Key])
    ensures !Truthy(req.body) || (req.body.Object? && Key !in req.body.fields) ==>
      && l.Found?
      && (l.value.Null? <==> QueryArgs.Lacks(req.args, Key))
      && (!l.value.Null? ==> l.value == Str(QueryArgs.Get(req.args, Key).value))
    ensures l.Failed? <==> Truthy(req.body) && !req.body.Object?
    ensures l.Failed? ==> l.message == NoGetMessage(req.body)
  {
    var data := Data(req.body);
    var fallback := QueryValue(req.args);
    match data
    case Object(fields) => Found(if Key in fields then fields[Key] else fallback)
    case _ => Failed(NoGetMessage(data))
  }

  /** The handler. `parseStr` is what `float()` makes of a string. */
  function Handle(req: Request, parseStr: string -> Option<Float>): (resp: Response)
    ensures resp.headers == JsonHeaders
    ensures resp.code == 200 <==> resp.payload.Classified?
    ensures resp.code == 400 <==> resp.payload.ClientError?
    ensures resp.code == 500 <==> resp.payload.ServerError?
    ensures resp.payload.Classified? ==>
      && resp.payload.status == Classify(resp.payload.hba1c).Name()
      && resp.payload.category == Classify(resp.payload.hba1c).Category()
    ensures resp.payload.ServerError? ==> resp.payload.error == InternalErrorTag
  {
    match Resolve(req)
    case Failed(message) => InternalError(message)
    case Found(v) =>
      if v.Null? then Required()
      else
        match ToFloat(v, parseStr)
        case Rejected => NotANumber()
        case Raised(message) => InternalError(message)
        case Converted(f) =>
          var s := Classify(f);
          Response(Classified(f, s.Name(), s.Category()), 200, JsonHeaders)
  }

  /** The only status codes are 200, 400 and 500, and each of them occurs. */
  lemma StatusCodes(req: Request, parseStr: string -> Option<Float>, code: int)
    ensures Handle(req, parseStr).code in {200, 400, 500}
    ensures code in {200, 400, 500} ==> exists r: Request :: Handle(r, parseStr).code == code
  {
    if code == 200 {
      var r := Request(Object(map[Key := Num(Double(Finite(5.2)))]), []);
      assert Handle(r, parseStr).code == 200;
    } else if code == 400 {
      var r := Request(Null, []);
      assert Handle(r, parseStr).code == 400;
    } else if code == 500 {
      var r := Request(Array([Null]), []);
      assert Handle(r, parseStr).code == 500;
    }
  }

  /** A dict body that has the key decides the answer alone: the query
      string is never consulted. */
  lemma BodyShadowsQuery(fields: map<string, Json>, args1: QueryArgs.Args, args2: QueryArgs.Args,
                         parseStr: string -> Option<Float>)
    requires Key in fields
    ensures Handle(Request(Object(fields), args1), parseStr) == Handle(Request(Object(fields), args2), parseStr)
  {
  }

  /** Without the key in the body, the first `hba1c` query parameter is what
      gets converted and classified. */
  lemma QueryFallback(body: Json, args: QueryArgs.Args, s: string, f: Float,
                      parseStr: string -> Option<Float>)
    requires !Truthy(body) || (body.Object? && Key !in body.fields)
    requires QueryArgs.Get(args, Key) == Some(s) && parseStr(s) == Some(f)
    ensures Handle(Request(body, args), parseStr)
         == Response(Classified(f, Classify(f).Name(), Classify(f).Category()), 200, JsonHeaders)
  {
    assert Resolve(Request(body, args)) == Found(Str(s));
    assert ToFloat(Str(s), parseStr) == Converted(f);
  }

  /** A key present in the body with value null hides the query parameter:
      the answer is "required" whatever the query says. */
  lemma NullShadowsQuery(fields: map<string, Json>, args: QueryArgs.Args,
                         parseStr: string -> Option<Float>)
    requires Key in fields && fields[Key] == Null
    ensures Handle(Request(Object(fields), args), parseStr) == Required()
  {
  }

  /** A falsy body (`false`, `0`, `""`, `[]`, `{}`) is the same as no body. */
  lemma FalsyBodyIsNoBody(body: Json, args: QueryArgs.Args, parseStr: string -> Option<Float>)
    requires !Truthy(body)
    ensures Handle(Request(body, args), parseStr) == Handle(Request(Null, args), parseStr)
  {
  }

  /** A truthy body that is not a dict makes `data.get` raise, and the
      catch-all answers 500 with the AttributeError's text. */
  lemma NonDictBodyIsInternalError(body: Json, args: QueryArgs.Args, parseStr: string -> Option<Float>)
    requires Truthy(body) && !body.Object?
    ensures Handle(Request(body, args), parseStr) == InternalError(NoGetMessage(body))
  {
  }

  /** The answer is exactly "required" when, and only when, the lookup gives
      None; it is decided before `float()` is ever consulted. */
  lemma RequiredExactlyWhenAbsent(req: Request, parseStr: string -> Option<Float>,
                                  otherParse: string -> Option<Float>)
    ensures Handle(req, parseStr) == Required() <==> Resolve(req) == Found(Null)
    ensures Resolve(req) == Found(Null) ==> Handle(req, parseStr) == Handle(req, otherParse)
  {
  }

  /** Neither the body nor the query string has the key: "required". */
  lemma MissingEverywhere(req: Request, parseStr: string -> Option<Float>)
    requires !Truthy(req.body) || (req.body.Object? && Key !in req.body.fields)
    requires QueryArgs.Lacks(req.args, Key)
    ensures Handle(req, parseStr) == Required()
  {
  }

  /** The answer is exactly "must be a number" when, and only when, a value
      was found and `float()` raised TypeError or ValueError on it. */
  lemma NotANumberExactlyWhenRejected(req: Request, parseStr: string -> Option<Float>)
    ensures Handle(req, parseStr) == NotANumber() <==>
      Resolve(req).Found? && !Resolve(req).value.Null? && ToFloat(Resolve(req).value, parseStr).Rejected?
  {
  }

  /** A list or dict under the key is not a number. */
  lemma ContainerIsNotANumber(fields: map<string, Json>, args: QueryArgs.Args,
                              parseStr: string -> Option<Float>)
    requires Key in fields && (fields[Key].Array? || fields[Key].Object?)
    ensures Handle(Request(Object(fields), args), parseStr) == NotANumber()
  {
  }

  /** `float()` accepts a boolean: `true` is 1.0, which is normal. */
  lemma BooleanIsCoerced(fields: map<string, Json>, args: QueryArgs.Args,
                         parseStr: string -> Option<Float>)
    requires Key in fields && fields[Key] == Bool(true)
    ensures Handle(Request(Object(fields), args), parseStr)
         == Response(Classified(Finite(1.0), "normal", "Normal (<5.7%)"), 200, JsonHeaders)
  {
  }

  /** An integer too large for a double makes `float()` raise OverflowError,
      which the inner handler does not catch: the answer is 500. */
  lemma HugeIntegerIsInternalError(fields: map<string, Json>, args: QueryArgs.Args, i: int,
                                   parseStr: string -> Option<Float>)
    requires Key in fields && fields[Key] == Num(Int(i))
    requires i >= IntOverflowBound || -i >= IntOverflowBound
    ensures Handle(Request(Object(fields), args), parseStr) == InternalError("int too large to convert to float")
  {
  }

  /** An integer within the double range is converted to its value,
      classified and echoed with 200. */
  lemma IntegerIsClassified(fields: map<string, Json>, args: QueryArgs.Args, i: int,
                            parseStr: string -> Option<Float>)
    requires Key in fields && fields[Key] == Num(Int(i))
    requires -IntOverflowBound < i < IntOverflowBound
    ensures Handle(Request(Object(fields), args), parseStr)
         == Response(Classified(Finite(i as real), Classify(Finite(i as real)).Name(),
                                Classify(Finite(i as real)).Category()), 200, JsonHeaders)
  {
  }

  /** Success exactly when a value was found and converted; the payload then
      echoes the converted number with its band's name and label. */
  lemma SuccessExactlyWhenConverted(req: Request, parseStr: string -> Option<Float>)
    ensures Handle(req, parseStr).code == 200 <==>
      Resolve(req).Found? && ToFloat(Resolve(req).value, parseStr).Converted?
    ensures Handle(req, parseStr).code == 200 ==>
      Handle(req, parseStr).payload.hba1c == ToFloat(Resolve(req).value, parseStr).value
  {
  }

  /** 500 exactly when `data.get` raised or `float()` raised something other
      than TypeError or ValueError (an integer beyond the double range). */
  lemma InternalErrorExactlyWhenRaised(req: Request, parseStr: string -> Option<Float>)
    ensures Handle(req, parseStr).code == 500 <==>
      Resolve(req).Failed? || ToFloat(Resolve(req).value, parseStr).Raised?
  {
  }

  /** The worked examples: a body value in each band, a numeric query
      string, a numeric string and an integer in the body, an empty request
      and a non-numeric string. */
  lemma Examples(parseStr: string -> Option<Float>)
    requires parseStr("6.0") == Some(Finite(6.0)) && parseStr("high") == None
    ensures Handle(Request(Object(map[Key := Num(Double(Finite(5.2)))]), []), parseStr)
         == Response(Classified(Finite(5.2), "normal", "Normal (<5.7%)"), 200, JsonHeaders)
    ensures Handle(Request(Object(map[Key := Num(Double(Finite(6.5)))]), []), parseStr)
         == Response(Classified(Finite(6.5), "diabetes", "Diabetes (\U{2265}6.5%)"), 200, JsonHeaders)
    ensures Handle(Request(Null, [(Key, "6.0")]), parseStr)
         == Response(Classified(Finite(6.0), "prediabetes", "Prediabetes (5.7\U{2013}6.4%)"), 200, JsonHeaders)
    ensures Handle(Request(Object(map[]), []), parseStr)
         == Response(ClientError("Field 'hba1c' is required."), 400, JsonHeaders)
    ensures Handle(Request(Object(map[Key := Str("high")]), []), parseStr)
         == Response(ClientError("'hba1c' must be a number."), 400, JsonHeaders)
    ensures Handle(Request(Object(map[Key := Str("6.0")]), []), parseStr)
         == Response(Classified(Finite(6.0), "prediabetes", "Prediabetes (5.7\U{2013}6.4%)"), 200, JsonHeaders)
    ensures Handle(Request(Object(map[Key := Num(Int(7))]), [(Key, "5.0")]), parseStr)
         == Response(Classified(Finite(7.0), "diabetes", "Diabetes (\U{2265}6.5%)"), 200, JsonHeaders)
  {
    assert ToFloat(Num(Int(7)), parseStr) == Converted(Finite(7.0));
    assert ToFloat(Str("6.0"), parseStr) == Converted(Finite(6.0));
    assert ToFloat(Str("high"), parseStr) == Rejected;
  }
}
