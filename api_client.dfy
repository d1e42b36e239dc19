/** The HTTP helper of the front end (src/lib/api/apiClient.ts): five verbs
    that build a request against the configured base URL and classify the
    response text in the same way. The network call is outside the model;
    `JSON.parse` is the parameter `parse`, a partial parser that either
    yields a value or fails. */
module ApiClient {
  import opened Wrappers
  import opened Text

  datatype Verb = Get | Post | Put | Patch | Delete

  function VerbName(v: Verb): string {
    match v
    case Get => "GET"
    case Post => "POST"
    case Put => "PUT"
    case Patch => "PATCH"
    case Delete => "DELETE"
  }

  /** The verbs whose signature has a `data` argument. */
  predicate TakesData(v: Verb) {
    v == Post || v == Put || v == Patch
  }

  /** The `fetch` options every verb passes besides method and body. */
  const Headers: seq<(string, string)> := [("Content-Type", "application/json"), ("Accept", "application/json")]
  const Mode := "cors"

  datatype Request = Request(
    verb: string, url: string, headers: seq<(string, string)>, mode: string, body: Option<string>)

  /** The request a verb sends. `data` is `None` when the argument is
      omitted; otherwise `truthy` is its JavaScript truthiness and
      `stringify` is `JSON.stringify`. */
  function BuildRequest<P>(baseUrl: string, verb: Verb, url: string, data: Option<P>,
                           truthy: P -> bool, stringify: P -> string): (r: Request)
    ensures r.url == baseUrl + url && r.verb == VerbName(verb)
    ensures r.headers == Headers && r.mode == Mode
    ensures r.body.Some? <==> TakesData(verb) && data.Some? && truthy(data.value)
    ensures r.body.Some? ==> r.body.value == stringify(data.value)
  {
    var body := if TakesData(verb) && data.Some? && truthy(data.value) then Some(stringify(data.value)) else None;
    Request(VerbName(verb), baseUrl + url, Headers, Mode, body)
  }

  /** A successful result: `{}` for an empty body, or the parsed value. */
  datatype Body<J> = EmptyObject | Parsed(value: J)

  /** The three errors the verbs throw. */
  datatype ApiError =
    | HttpError(status: int, text: string)
    | InvalidJson(snippet: string)
    | ExpectedJson(snippet: string)

  /** How much of the body an error message quotes. */
  const SnippetLimit := 200

  /** The trimmed body starts with `{` or `[`. */
  predicate LooksLikeJson(text: string)
    ensures LooksLikeJson(text) <==> Trim(text) != [] && (Trim(text)[0] == '{' || Trim(text)[0] == '[')
    ensures LooksLikeJson(text) ==> !AllWhitespace(text)
  {
    StartsWith(Trim(text), "{") || StartsWith(Trim(text), "[")
  }

  /** The classification chain shared by `get`, `post`, `put`, `patch` and
      `delete`, over `response.ok`, `response.status` and the body text. */
  function Classify<J>(ok: bool, status: int, text: string, parse: string -> Option<J>): (r: Result<Body<J>, ApiError>)
    ensures !ok ==> r == Failure(HttpError(status, text))
    ensures r == Success(EmptyObject) <==> ok && text == ""
    ensures r.Success? <==> ok && (text == "" || (LooksLikeJson(text) && parse(text).Some?))
    ensures r.Success? && r.value.Parsed? ==> parse(text) == Some(r.value.value)
    ensures r.Failure? && r.error.InvalidJson? <==> ok && text != "" && LooksLikeJson(text) && parse(text).None?
    ensures r.Failure? && r.error.ExpectedJson? <==> ok && text != "" && !LooksLikeJson(text)
    ensures r.Failure? && !r.error.HttpError? ==> r.error.snippet == Take(text, SnippetLimit)
  {
    if !ok then Failure(HttpError(status, text))
    else if text == "" then Success(EmptyObject)
    else if LooksLikeJson(text) then
      match parse(text)
      case Some(v) => Success(Parsed(v))
      case None => Failure(InvalidJson(Take(text, SnippetLimit)))
    else Failure(ExpectedJson(Take(text, SnippetLimit)))
  }

  /** An error quotes at most 200 characters, and they are the body's first. */
  lemma SnippetIsBoundedPrefix<J>(ok: bool, status: int, text: string, parse: string -> Option<J>)
    ensures var r := Classify(ok, status, text, parse);
            r.Failure? && !r.error.HttpError? ==>
              |r.error.snippet| <= SnippetLimit && StartsWith(text, r.error.snippet)
  {
  }

  /** The emptiness test is on the untrimmed text: a body of only
      whitespace is not `{}` but an "Expected JSON" error. */
  lemma WhitespaceBodyIsNotJson<J>(status: int, w: string, parse: string -> Option<J>)
    requires w != [] && AllWhitespace(w)
    ensures Classify(true, status, w, parse) == Failure(ExpectedJson(Take(w, SnippetLimit)))
  {
    assert Trim(w) == [];
  }

  /** Whitespace before the opening bracket does not stop the body from
      being handed to the parser. */
  lemma LeadingWhitespaceIsParsed<J>(status: int, w: string, t: string, parse: string -> Option<J>)
    requires AllWhitespace(w) && t != [] && (t[0] == '{' || t[0] == '[')
    ensures LooksLikeJson(w + t)
    ensures parse(w + t).Some? ==> Classify(true, status, w + t, parse) == Success(Parsed(parse(w + t).value))
    ensures parse(w + t).None? ==> Classify(true, status, w + t, parse) == Failure(InvalidJson(Take(w + t, SnippetLimit)))
  {
    TrimSkipsLeadingWhitespace(w, t);
  }

  /** A response that is not ok is an HTTP error whatever its body, even a
      well-formed JSON one. */
  lemma NotOkIgnoresBody<J>(status: int, t1: string, t2: string, parse: string -> Option<J>)
    ensures Classify(false, status, t1, parse).error.status == Classify(false, status, t2, parse).error.status == status
    ensures Classify(false, status, t1, parse).error.text == t1
  {
  }

  /** The `Error` message each error carries: an HTTP error names its
      status and then its text, a JSON error quotes its snippet between its
      own prefix and "...". */
  function ErrorMessage(e: ApiError): (m: string)
    ensures e.HttpError? ==>
      var d := IntToString(e.status);
      |m| == |HttpPrefix| + |d| + |HttpSeparator| + |e.text| &&
      m[..|HttpPrefix|] == HttpPrefix &&
      m[|HttpPrefix|..|HttpPrefix| + |d|] == d &&
      m[|HttpPrefix| + |d|..|HttpPrefix| + |d| + |HttpSeparator|] == HttpSeparator &&
      m[|HttpPrefix| + |d| + |HttpSeparator|..] == e.text
    ensures !e.HttpError? ==>
      var prefix := if e.InvalidJson? then InvalidPrefix else ExpectedPrefix;
      |m| == |prefix| + |e.snippet| + 3 &&
      m[..|prefix|] == prefix &&
      m[|prefix|..|m| - 3] == e.snippet &&
      m[|m| - 3..] == "..."
  {
    match e
    case HttpError(status, text) => Joined(HttpPrefix, IntToString(status), HttpSeparator, text)
    case InvalidJson(snippet) => Joined(InvalidPrefix, snippet, "...", [])
    case ExpectedJson(snippet) => Joined(ExpectedPrefix, snippet, "...", [])
  }

  /** Four strings one after another, each found again at its offset. */
  function Joined(a: string, b: string, c: string, d: string): (m: string)
    ensures |m| == |a| + |b| + |c| + |d|
    ensures m[..|a|] == a && m[|a|..|a| + |b|] == b
    ensures m[|a| + |b|..|a| + |b| + |c|] == c && m[|a| + |b| + |c|..] == d
  {
    a + b + c + d
  }

  const HttpPrefix := "HTTP error! status: "
  const InvalidPrefix := "Invalid JSON response: "
  const ExpectedPrefix := "Expected JSON response but got: "
  const HttpSeparator := ", message: "

  /** A message tells which error it reports and can be read back: the
      status and text of an HTTP error, the snippet of a JSON error. */
  lemma ErrorMessageDeterminesError(e1: ApiError, e2: ApiError)
    requires ErrorMessage(e1) == ErrorMessage(e2)
    ensures e1.HttpError? <==> e2.HttpError?
    ensures e1 == e2
  {
    var m := ErrorMessage(e1);
    assert m[0] == ErrorMessage(e2)[0];
    if e1.HttpError? {
      HttpMessageDeterminesError(e1, e2);
    } else {
      var prefix := if e1.InvalidJson? then InvalidPrefix else ExpectedPrefix;
      assert m[|prefix| - 1] == ErrorMessage(e2)[|prefix| - 1];
      assert e1.snippet == m[|prefix|..|m| - 3] == e2.snippet;
    }
  }

  /** The status ends at the first ',' of the message, since its decimal
      form holds only '-' and digits. */
  lemma HttpMessageDeterminesError(e1: ApiError, e2: ApiError)
    requires e1.HttpError? && e2.HttpError?
    requires ErrorMessage(e1) == ErrorMessage(e2)
    ensures e1 == e2
  {
    var d1, d2 := IntToString(e1.status), IntToString(e2.status);
    assert Joined(HttpPrefix, d1, HttpSeparator, e1.text) == Joined(HttpPrefix, d2, HttpSeparator, e2.text);
    JoinedSplitsAtSeparator(HttpPrefix, d1, HttpSeparator, e1.text, d2, e2.text);
    IntToStringInjective(e1.status, e2.status);
  }

  /** Two joins that share their first and third parts, where the third
      part starts with a character absent from both second parts, agree on
      the second and fourth parts too. */
  lemma JoinedSplitsAtSeparator(a: string, b1: string, c: string, d1: string, b2: string, d2: string)
    requires c != [] && c[0] !in b1 && c[0] !in b2
    requires Joined(a, b1, c, d1) == Joined(a, b2, c, d2)
    ensures b1 == b2 && d1 == d2
  {
  }
}
