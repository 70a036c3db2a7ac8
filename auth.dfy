/**
 * The `/auth` endpoint: a password check against an allow-list taken from the `PASSWORDS`
 * environment value. `JSON.parse` is an input, a function from text to its parse result.
 */
module Auth {
  import opened Common
  import opened Http

  /** A JSON value as `JSON.parse` or the request-body parser produces it. */
  datatype Json =
    | JNull
    | JBool(b: bool)
    | JNumber(n: real)
    | JString(s: string)
    | JArray(items: seq<Json>)
    | JObject(members: seq<(string, Json)>)

  /** The outcome of `JSON.parse`: a value, or the `SyntaxError` it throws. */
  datatype Parsed = Parsed(value: Json) | SyntaxError

  /** `req.body`: absent (`undefined` or `null`, so destructuring it throws), or a value whose `password` is read. */
  datatype RequestBody = Missing | Present(password: Option<Json>)

  /**
   * JavaScript truthiness; JSON numbers are never NaN. An absent value and `null` are
   * falsy, arrays and objects always truthy, and a string exactly when it is non-empty.
   */
  function Truthy(v: Option<Json>): (r: bool)
    ensures v.None? || v == Some(JNull) ==> !r
    ensures v.Some? && (v.value.JArray? || v.value.JObject?) ==> r
    ensures v.Some? && v.value.JString? ==> (r <==> v.value.s != "")
  {
    match v
    case None => false
    case Some(JNull) => false
    case Some(JBool(b)) => b
    case Some(JNumber(n)) => n != 0.0
    case Some(JString(s)) => s != ""
    case Some(JArray(_)) => true
    case Some(JObject(_)) => true
  }

  /**
   * The comparison `Array.prototype.includes` uses between an allow-list entry and the
   * submitted password: primitives compare by value; an array or object is never the same
   * object as one parsed from the environment.
   */
  function SameValueZero(entry: Json, password: Json): (r: bool)
    ensures r ==> entry == password
    ensures entry.JArray? || entry.JObject? ==> !r
    ensures r <==> password == entry && !password.JArray? && !password.JObject?
  {
    !entry.JArray? && !entry.JObject? && entry == password
  }

  /** `validPasswords.includes(password)`. */
  function Includes(entries: seq<Json>, password: Json): (r: bool)
    ensures r <==> exists i :: 0 <= i < |entries| && SameValueZero(entries[i], password)
  {
    if |entries| == 0 then false
    else SameValueZero(entries[0], password) || Includes(entries[1..], password)
  }

  /**
   * The allow-list derived from a non-empty `PASSWORDS`: the parsed array itself; a one-entry
   * list of any other parsed value; or, when the text is not JSON, a one-entry list of the
   * raw text.
   */
  function AllowList(passwords: string, parse: string -> Parsed): (r: seq<Json>)
    ensures parse(passwords).SyntaxError? ==> r == [JString(passwords)]
    ensures parse(passwords).Parsed? && parse(passwords).value.JArray? ==> r == parse(passwords).value.items
    ensures parse(passwords).Parsed? && !parse(passwords).value.JArray? ==> r == [parse(passwords).value]
  {
    match parse(passwords)
    case SyntaxError => [JString(passwords)]
    case Parsed(JArray(items)) => items
    case Parsed(value) => [value]
  }

  /**
   * The handler: 405 for any method but POST; 500 when there is no body to destructure;
   * 400 for a missing or falsy password; success when `PASSWORDS` is unset or empty;
   * otherwise success exactly when the allow-list includes the password, and 401 if not.
   */
  function Handle(requestMethod: string, body: RequestBody, passwords: Option<string>, parse: string -> Parsed): (r: Response)
    ensures r.status in {200, 400, 401, 405, 500}
    ensures r.status == 200 <==> r.body == Succeeded
    ensures r.headers == []
  {
    if requestMethod != "POST" then Response(405, [], Failed("Method not allowed"))
    else match body
      case Missing => Response(500, [], Failed("Внутренняя ошибка сервера"))
      case Present(password) =>
        if !Truthy(password) then Response(400, [], Failed("Пароль не указан"))
        else if passwords.None? || passwords.value == "" then Response(200, [], Succeeded)
        else if Includes(AllowList(passwords.value, parse), password.value) then Response(200, [], Succeeded)
        else Response(401, [], Failed("Неверный пароль"))
  }

  /** Any method but POST is refused with 405 before the body or `PASSWORDS` is looked at. */
  lemma NonPostRefusedFirst(
    requestMethod: string,
    body: RequestBody, passwords: Option<string>, parse: string -> Parsed,
    body': RequestBody, passwords': Option<string>, parse': string -> Parsed)
    requires requestMethod != "POST"
    ensures Handle(requestMethod, body, passwords, parse).status == 405
    ensures Handle(requestMethod, body, passwords, parse) == Handle(requestMethod, body', passwords', parse')
  {
  }

  /** A POST with a missing or falsy password gets 400, whatever `PASSWORDS` holds. */
  lemma MissingPasswordRefusedBeforeAllowList(
    password: Option<Json>, passwords: Option<string>, parse: string -> Parsed)
    requires !Truthy(password)
    ensures Handle("POST", Present(password), passwords, parse).status == 400
    ensures Handle("POST", Present(password), passwords, parse) == Handle("POST", Present(password), None, parse)
  {
  }

  /** With `PASSWORDS` unset or empty, every present, truthy password is accepted. */
  lemma OpenAccessWhenUnset(password: Option<Json>, passwords: Option<string>, parse: string -> Parsed)
    requires Truthy(password)
    requires passwords.None? || passwords.value == ""
    ensures Handle("POST", Present(password), passwords, parse).status == 200
  {
  }

  /**
   * With `PASSWORDS` set, a truthy password is accepted exactly when it is a primitive equal
   * to some allow-list entry, and refused with 401 otherwise.
   */
  lemma AcceptedIffListed(password: Json, passwords: string, parse: string -> Parsed)
    requires Truthy(Some(password)) && passwords != ""
    ensures var r := Handle("POST", Present(Some(password)), Some(passwords), parse);
      && (r.status == 200 <==> exists i :: 0 <= i < |AllowList(passwords, parse)| && AllowList(passwords, parse)[i] == password && !password.JArray? && !password.JObject?)
      && (r.status == 200 || r.status == 401)
  {
  }

  /** A `PASSWORDS` value that is not JSON is the one accepted password. */
  lemma RawTextIsSinglePassword(password: Json, passwords: string, parse: string -> Parsed)
    requires Truthy(Some(password)) && passwords != ""
    requires parse(passwords) == SyntaxError
    ensures Handle("POST", Present(Some(password)), Some(passwords), parse).status == 200 <==> password == JString(passwords)
  {
    assert AllowList(passwords, parse) == [JString(passwords)];
    if password == JString(passwords) {
      assert SameValueZero(AllowList(passwords, parse)[0], password);
    }
  }

  /** A `PASSWORDS` value that parses to something other than an array is the one accepted value. */
  lemma ScalarIsSinglePassword(password: Json, passwords: string, parse: string -> Parsed)
    requires Truthy(Some(password)) && passwords != ""
    requires parse(passwords).Parsed? && !parse(passwords).value.JArray?
    ensures Handle("POST", Present(Some(password)), Some(passwords), parse).status == 200 <==>
      SameValueZero(parse(passwords).value, password)
  {
    assert AllowList(passwords, parse) == [parse(passwords).value];
  }

  /** `PASSWORDS='["a","b"]'` accepts `"a"` and refuses `"c"` with 401. */
  lemma TwoPasswordExample(parse: string -> Parsed)
    requires parse("[\"a\",\"b\"]") == Parsed(JArray([JString("a"), JString("b")]))
    ensures Handle("POST", Present(Some(JString("a"))), Some("[\"a\",\"b\"]"), parse).status == 200
    ensures Handle("POST", Present(Some(JString("c"))), Some("[\"a\",\"b\"]"), parse).status == 401
  {
    var list := AllowList("[\"a\",\"b\"]", parse);
    assert SameValueZero(list[0], JString("a"));
    assert !SameValueZero(list[0], JString("c")) && !SameValueZero(list[1], JString("c"));
  }

  /** 500 arises only from the exception of a POST without a body. */
  lemma ServerErrorOnlyWithoutBody(requestMethod: string, body: RequestBody, passwords: Option<string>, parse: string -> Parsed)
    ensures Handle(requestMethod, body, passwords, parse).status == 500 <==> requestMethod == "POST" && body.Missing?
  {
  }
}
