/**
 * The decision logic of the `/api/submit` handler: the configuration check,
 * the `name` check, the one outbound call, and the mapping of its outcome
 * to the `{ok, result | error}` reply and its HTTP status.
 *
 * The JSON request body, the result of splitting the configured URL and
 * the result of the outbound GET are inputs; the handler becomes a
 * function of them that also reports which URL, if any, it fetched.
 */
module Submit {
  import opened Wrappers
  import opened Text
  import opened UrlCompose

  /** A parsed JSON value (numbers are integers in this model). */
  datatype Json =
    | JNull
    | JBool(b: bool)
    | JInt(i: int)
    | JStr(s: string)
    | JArray(items: seq<Json>)
    | JObject(fields: map<string, Json>)

  /** Python truthiness of the value `json.loads` gives back. */
  predicate Truthy(j: Json) {
    match j
    case JNull => false
    case JBool(b) => b
    case JInt(i) => i != 0
    case JStr(s) => s != ""
    case JArray(items) => items != []
    case JObject(fields) => fields != map[]
  }

  /** The member of the request body that carries the name. */
  const NameMember: string := "name"

  /**
   * What the handler gets from the body: the stripped name, or the
   * `AttributeError` raised when the body (after `or {}`) is not an object,
   * or when the name (after `or ""`) is not a string.
   */
  datatype NameField = Stripped(name: string) | AttributeError

  /** `(data.get("name") or "").strip()` where `data = request.get_json(silent=True) or {}`. */
  function ReadName(body: Option<Json>): (r: NameField)
    ensures r == Stripped("") <==> NameIsBlank(body)
    ensures (r.Stripped? && r.name != "") <==> NameIsUsable(body)
    ensures NameIsUsable(body) ==> r.name == Strip(body.value.fields[NameMember].s)
  {
    var data := if body.Some? && Truthy(body.value) then body.value else JObject(map[]);
    match data
    case JObject(fields) =>
      var member := Get(fields, NameMember).GetOr(JNull);
      var name := if Truthy(member) then member else JStr("");
      if name.JStr? then Stripped(Strip(name.s)) else AttributeError
    case _ => AttributeError
  }

  /** The exceptions the `try` block distinguishes. */
  datatype Failure =
    | Timeout
    | HttpError(response: Option<(int, string)>, message: string)
    | OtherError(message: string)

  /** What `requests.get` does: answer with a status and text, or raise. */
  datatype Fetched = Got(status: int, text: string) | Raised(failure: Failure)

  /** What `urlparse` makes of the configured URL (it raises `ValueError` on some inputs). */
  datatype Split = Parsed(url: Url) | SplitError(message: string)

  /** The reply: a JSON success, a JSON failure with its status, or Flask's own 500 for an escaped exception. */
  datatype Reply = Succeeded(result: string) | Failed(status: int, error: string) | Uncaught {
    function StatusCode(): int {
      match this
      case Succeeded(_) => 200
      case Failed(status, _) => status
      case Uncaught => 500
    }
  }

  /** The reply, together with the URL of the outbound GET if one was made. */
  datatype Handled = Handled(reply: Reply, fetchedUrl: Option<Url>)

  const NotConfiguredError: string := "No se ha configurado FUNCTION_URL"
  const EmptyNameError: string := "El campo 'name' está vacío."
  const TimeoutError: string := "Tiempo de espera agotado llamando a Azure Function."

  function HttpErrorMessage(status: int, body: string): string {
    "Error HTTP " + IntToString(status) + ": " + body
  }

  function UnexpectedErrorMessage(message: string): string {
    "Error inesperado: " + message
  }

  /** `raise_for_status` raises for client (4xx) and server (5xx) errors. */
  predicate IsErrorStatus(status: int) {
    400 <= status < 600
  }

  /**
   * The `try` block of the handler: the reply for the outcome of the outbound call. Only a
   * response whose status `raise_for_status` lets through is a success, and
   * it is relayed with status 200 whatever its own status was; an HTTP error
   * mirrors the upstream status (502 when no response is attached); a
   * timeout is 504 and anything else 500.
   */
  function ReplyFor(fetched: Fetched): (r: Reply)
    ensures r.Succeeded? <==> fetched.Got? && !IsErrorStatus(fetched.status)
    ensures r.Succeeded? ==> r.result == fetched.text && r.StatusCode() == 200
    ensures r != Uncaught
    ensures fetched.Got? && IsErrorStatus(fetched.status) ==>
              r == Failed(fetched.status, HttpErrorMessage(fetched.status, fetched.text))
    ensures fetched == Raised(Timeout) ==> r == Failed(504, TimeoutError)
    ensures fetched.Raised? && fetched.failure.HttpError? && fetched.failure.response.Some? ==>
              var (status, body) := fetched.failure.response.value;
              r == Failed(status, HttpErrorMessage(status, body))
    ensures fetched.Raised? && fetched.failure.HttpError? && fetched.failure.response.None? ==>
              r == Failed(502, HttpErrorMessage(502, fetched.failure.message))
    ensures fetched.Raised? && fetched.failure.OtherError? ==>
              r == Failed(500, UnexpectedErrorMessage(fetched.failure.message))
  {
    match fetched
    case Got(status, text) =>
      if IsErrorStatus(status) then Failed(status, HttpErrorMessage(status, text)) else Succeeded(text)
    case Raised(Timeout) => Failed(504, TimeoutError)
    case Raised(HttpError(response, message)) =>
      (match response
       case Some((status, body)) => Failed(status, HttpErrorMessage(status, body))
       case None => Failed(502, HttpErrorMessage(502, message)))
    case Raised(OtherError(message)) => Failed(500, UnexpectedErrorMessage(message))
  }

  /**
   * The body gives no usable name: it is absent or falsy, or it is an object
   * whose `name` member is missing, falsy or whitespace only.
   */
  predicate NameIsBlank(body: Option<Json>) {
    || body.None?
    || !Truthy(body.value)
    || (body.value.JObject?
        && (|| NameMember !in body.value.fields
            || !Truthy(body.value.fields[NameMember])
            || (body.value.fields[NameMember].JStr? && Blank(body.value.fields[NameMember].s))))
  }

  /** The body is an object whose `name` member is a string with a non-whitespace character. */
  predicate NameIsUsable(body: Option<Json>) {
    && body.Some?
    && body.value.JObject?
    && NameMember in body.value.fields
    && body.value.fields[NameMember].JStr?
    && !Blank(body.value.fields[NameMember].s)
  }

  /**
   * The whole `submit` handler as a decision. The configuration check comes
   * first and rejects with 500 whatever the body; then a blank name is
   * rejected with 400; in both cases nothing is fetched. The GET is made
   * exactly when the URL is configured, the name usable and the URL splits,
   * it goes to the configured URL with the stripped name set, and its
   * outcome decides the reply.
   */
  function Handle(functionUrl: string, body: Option<Json>, split: Split, fetched: Fetched): (h: Handled)
    ensures functionUrl == "" ==> h == Handled(Failed(500, NotConfiguredError), None)
    ensures functionUrl != "" && NameIsBlank(body) ==> h == Handled(Failed(400, EmptyNameError), None)
    ensures h.fetchedUrl.Some? <==> functionUrl != "" && NameIsUsable(body) && split.Parsed?
    ensures functionUrl != "" && NameIsUsable(body) && split.SplitError? ==>
              h == Handled(Failed(500, UnexpectedErrorMessage(split.message)), None)
    ensures h.fetchedUrl.Some? ==>
              && h.fetchedUrl.value == BuildUrlWithName(split.url, Strip(body.value.fields[NameMember].s))
              && h.reply == ReplyFor(fetched)
  {
    if functionUrl == "" then Handled(Failed(500, NotConfiguredError), None)
    else
      match ReadName(body)
      case AttributeError => Handled(Uncaught, None)
      case Stripped(name) =>
        if name == "" then Handled(Failed(400, EmptyNameError), None)
        else
          match split
          case SplitError(message) => Handled(Failed(500, UnexpectedErrorMessage(message)), None)
          case Parsed(baseUrl) => Handled(ReplyFor(fetched), Some(BuildUrlWithName(baseUrl, name)))
  }

  /**
   * Once the URL is configured, the "name is empty" rejection happens exactly
   * for a blank name: no upstream answer can produce the same reply.
   */
  lemma BlankNameRejectedExactly(functionUrl: string, body: Option<Json>, split: Split, fetched: Fetched)
    requires functionUrl != ""
    ensures Handle(functionUrl, body, split, fetched).reply == Failed(400, EmptyNameError)
            <==> NameIsBlank(body)
  {
    match ReadName(body)
    case AttributeError =>
    case Stripped(name) =>
      if name != "" && split.Parsed? {
        ReplyForIsNotEmptyNameError(fetched);
      }
  }

  /** No upstream outcome is answered with the "name is empty" reply. */
  lemma ReplyForIsNotEmptyNameError(fetched: Fetched)
    ensures ReplyFor(fetched) != Failed(400, EmptyNameError)
  {
    match fetched
    case Got(status, text) =>
      assert HttpErrorMessage(status, text)[1] == 'r';
    case Raised(HttpError(Some((status, body)), _)) =>
      assert HttpErrorMessage(status, body)[1] == 'r';
    case Raised(_) =>
  }

  /**
   * Once the URL is configured, an exception escapes the handler (and Flask
   * answers with its own 500 page instead of the JSON envelope) exactly when
   * the body is neither blank nor carries a usable name: a truthy body that is
   * not an object, or a truthy `name` that is not a string.
   */
  lemma UncaughtExactly(functionUrl: string, body: Option<Json>, split: Split, fetched: Fetched)
    requires functionUrl != ""
    ensures Handle(functionUrl, body, split, fetched).reply == Uncaught
            <==> !NameIsBlank(body) && !NameIsUsable(body)
  {
    var h := Handle(functionUrl, body, split, fetched);
    if h.reply == Uncaught {
      assert ReadName(body) == AttributeError;
    }
  }

  /**
   * The HTTP-error message names the status in decimal and ends with the
   * upstream body: "Error HTTP <status>: <body>".
   */
  lemma HttpErrorMessageParts(status: int, body: string)
    requires status >= 0
    ensures var m := HttpErrorMessage(status, body);
      && |m| > |"Error HTTP "| + 2 + |body|
      && m[..|"Error HTTP "|] == "Error HTTP "
      && m[|m| - |body| - 2..] == ": " + body
      && AllDigits(m[|"Error HTTP "|..|m| - |body| - 2])
      && (m[|"Error HTTP "|] == '0' ==> m[|"Error HTTP "|..|m| - |body| - 2] == "0")
      && DecimalValue(m[|"Error HTTP "|..|m| - |body| - 2]) == status
  {
    var d := IntToString(status);
    var m := HttpErrorMessage(status, body);
    assert m == "Error HTTP " + d + (": " + body);
    assert m[|"Error HTTP "|..|m| - |body| - 2] == d;
  }

  /** An upstream 404 "not found" is relayed as status 404 naming both. */
  lemma UpstreamNotFoundExample(baseUrl: Url)
    ensures var h := Handle("https://fn.example/api", Some(JObject(map[NameMember := JStr(" Ada ")])),
                            Parsed(baseUrl), Got(404, "not found"));
      && h.reply == Failed(404, "Error HTTP 404: not found")
      && h.fetchedUrl == Some(BuildUrlWithName(baseUrl, "Ada"))
  {
    ReadPaddedName();
    NotFoundMessage();
  }

  lemma NotFoundMessage()
    ensures HttpErrorMessage(404, "not found") == "Error HTTP 404: not found"
  {
    assert NatToString(404) == NatToString(40) + [DigitChar(4)];
    assert NatToString(40) == NatToString(4) + [DigitChar(0)];
    assert IntToString(404) == "404";
  }

  lemma ReadPaddedName()
    ensures ReadName(Some(JObject(map[NameMember := JStr(" Ada ")]))) == Stripped("Ada")
  {
    StripPaddedName();
    var body := Some(JObject(map[NameMember := JStr(" Ada ")]));
    assert NameIsUsable(body) by {
      assert " Ada "[1] == 'A' && !IsSpace('A');
    }
  }

  lemma StripPaddedName()
    ensures Strip(" Ada ") == "Ada"
  {
    assert LeadingSpaces(" Ada ") == 1 by {
      assert " Ada "[1..] == "Ada " && LeadingSpaces("Ada ") == 0;
    }
    assert TrailingSpaces(" Ada ") == 1 by {
      assert " Ada "[..4] == " Ada" && TrailingSpaces(" Ada") == 0;
    }
  }
}
