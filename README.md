# Name-forwarding proxy: URL rewrite and submit decision

This project models the two pieces of logic in `app.py`, the Flask front end that forwards a user's
`name` to one configured HTTP endpoint (an Azure Function):

- `build_url_with_name` (`UrlCompose`): the configured URL's query is turned into a Python dict,
  its `name` entry is assigned, and the dict's items become the new query. The URL is the
  six-slot result of `urlparse` (scheme, netloc, path, params, query, fragment), and the query
  slot holds the already-decoded key/value pairs. A Python dict is modelled as `Dict`, which holds
  the keys in insertion order plus the mapping. `dict(pairs)` is `FromPairs`, `d[k] = v` is
  `Dict.Set`, and `d.items()` is `Dict.Items`.
- `submit` (`Submit.Handle`): a function of the configured URL string, the JSON request body, the
  outcome of splitting the URL and the outcome of the outbound GET. It returns the reply
  (JSON success, JSON failure with its status, or an exception escaping the view) and the URL
  fetched, if any. The fetched URL records whether the outbound call happened.
- `Text` holds the Python string behaviour the handler relies on: `str.strip()` and decimal
  rendering of an `int` in an f-string. `Wrappers` holds `Option`.

Behaviour of the code that a reader might not expect (the model follows the code):

- Every repeated query key collapses, not only `name`. `a=1&a=2` becomes `a=2`, at the position of
  the first `a` (app.py:26).
- A truthy JSON body that is not an object, or a truthy `name` that is not a string, raises
  `AttributeError` before the `try` (app.py:61-62). Flask then answers with its own 500 page, not
  the JSON envelope (`Reply.Uncaught`, `Submit.UncaughtExactly`).
- Only 4xx and 5xx responses fail, because that is what `raise_for_status` rejects. Any other
  upstream status, 3xx included, is relayed as a success with status 200 (app.py:69-70).
- Any other failure is reported as `"Error inesperado: " + str(e)` with status 500. That includes a
  `ValueError` from `urlparse` on the configured URL (app.py:67, 77-79).

## Model

| member | source | states |
|---|---|---|
| UrlCompose.BuildUrlWithName | app.py:24-29 | only the query slot changes; the new query has distinct keys and contains (`name`, the given name), so `name` occurs exactly once with the new value |
| UrlCompose.FromPairs | app.py:26 | `dict(pairs)` is a well-formed dict whose keys are exactly the keys occurring in the pairs |
| UrlCompose.FromPairsLastValue | app.py:26 | in `dict(pairs)` each key maps to the value of its last occurrence, and absent keys are absent |
| UrlCompose.FromPairsOrder | app.py:26 | the keys of `dict(pairs)` are listed in the order of their first occurrence |
| UrlCompose.Dict.Set | app.py:27 | `query["name"] = name` keeps the dict well formed; what it does to the items is stated by `UrlCompose.SetItems` |
| UrlCompose.SetItems | app.py:27 | `query["name"] = name` replaces the value in place when the key exists, keeping every other pair and its position, and appends the pair otherwise |
| UrlCompose.Dict.Items | app.py:28 | the items handed to `urlencode` never repeat a key |
| UrlCompose.FromPairsOfItems | app.py:26-28 | rebuilding a dict from its own items gives back the same dict |
| UrlCompose.RewriteValues | app.py:26-28 | after the rewrite `name` maps to the given value and every other key to its last value in the original query; no other key is added or removed |
| UrlCompose.RewriteKeyOrder | app.py:26-28 | keys keep first-occurrence order, an existing `name` included; a `name` that was absent is appended last |
| UrlCompose.BlankValuesKept | app.py:26 | a key whose last value is the empty string keeps it after the rewrite |
| UrlCompose.RewriteIdempotent | app.py:24-29 | rewriting twice with the same name gives the same URL as rewriting once |
| UrlCompose.AppendExample | app.py:24-29 | `foo=bar` with name `Ada` becomes `foo=bar&name=Ada` |
| UrlCompose.OverwriteExample | app.py:24-29 | `name=Old&x=1` with name `New` becomes `name=New&x=1` |
| UrlCompose.CollapseExample | app.py:26 | `a=1&a=2` becomes `a=2` followed by `name` |
| Text.Strip | app.py:62 | `strip()` returns an infix of the input with only whitespace cut from either end; the result neither starts nor ends with whitespace, and it is empty exactly when the input is all whitespace |
| Text.NatToString | app.py:76 | the decimal rendering has at least one digit, only digits, and no leading zero |
| Text.NatToStringRoundTrip | app.py:76 | reading the decimal rendering back gives the number |
| Text.IntToString | app.py:76 | `f"{status}"` is the canonical decimal rendering of the status (non-empty, no leading zero unless it is `0`) after a minus sign when it is negative, and it reads back to the status |
| Submit.ReadName | app.py:61-62 | the body yields an empty stripped name exactly when it is blank (absent or falsy, or an object whose `name` is missing, falsy or whitespace only), and a non-empty one exactly when its `name` is a string with a non-whitespace character, in which case the name is that string stripped |
| Submit.ReplyFor | app.py:68-79 | success exactly for a response `raise_for_status` accepts, relayed with status 200 and its text; a rejected response gives its own status with `Error HTTP <status>: <text>`; a raised HTTP error gives the attached status with `Error HTTP <status>: <body>`, or 502 with `Error HTTP 502: <message>` without a response; a timeout gives 504 with the fixed timeout text; anything else gives 500 with `Error inesperado: <message>`; never an escaped exception |
| Submit.Handle | app.py:56-79 | unconfigured gives 500 whatever the body, then a blank name gives 400, neither fetching; a usable name with a URL that fails to split gives 500 with `Error inesperado: <message>` and no fetch; a fetch happens exactly when the URL is configured, the name usable and the URL splits (for names of Unicode scalar values); it goes to the URL rewritten with the stripped name, and its outcome decides the reply |
| Submit.BlankNameRejectedExactly | app.py:58-64 | with the URL configured, the "name is empty" 400 reply occurs exactly for a blank name, and no upstream answer produces it |
| Submit.UncaughtExactly | app.py:61-62 | with the URL configured, an exception escapes the view exactly when the body is neither blank nor carries a usable name |
| Submit.HttpErrorMessageParts | app.py:74-76 | the HTTP-error message is `Error HTTP `, then the status in canonical decimal (no leading zero unless it is `0`, reading back to the status), then `: ` and the upstream body |
| Submit.UpstreamNotFoundExample | app.py:66-76 | a name ` Ada ` and an upstream 404 `not found` give status 404 with `Error HTTP 404: not found`, after fetching the URL rewritten with `Ada` |

## Left out

- URL splitting, query parsing and percent-encoding (`urlparse`, `parse_qsl`, `urlencode`, `urlunparse`; app.py:3, 25-29) are library code. The model starts from the six components with the query as decoded pairs. `Submit.Handle` takes the outcome of splitting the configured URL as its `split` argument, and the model does not tie it to the `functionUrl` string.
- The outbound `requests.get` with its 10-second timeout (app.py:22, 68) is network I/O. Its outcome is the `fetched` argument: a response's status and text, or the exception it raised. `raise_for_status` (app.py:69) is modelled.
- JSON parsing (`get_json(silent=True)`) is library code. A body that does not parse is `None`. JSON numbers are integers only: floating-point values, and the falsiness of `0.0`, are not modelled.
- Flask routing, `jsonify` and the exact page Flask shows for an escaped exception (app.py:19, 56) are framework code. That page is `Reply.Uncaught` with status 500.
- The `/` page and its template fallback (app.py:39-54) are UI rendering.
- `/health` (app.py:35-37) only reflects whether `FUNCTION_URL` is set.
- `.env` loading, reading and stripping `FUNCTION_URL`, request logging, the exception log in the handler's last `except`, and server start-up (app.py:8-21, 31-33, 78, 81-86) are process plumbing. `Submit.Handle` receives the already-stripped value.
- Names are sequences of Unicode scalar values. A name holding a lone surrogate (JSON `"\ud800"`) is not modelled. For such a name `urlencode` raises `UnicodeEncodeError` (app.py:28), and the handler answers 500 `Error inesperado` without a GET (app.py:67, 77-79). The `split` argument covers only failures of `urlparse`, not encoding failures.
- quick_test.py is a constant hello-world route with no logic.
- Submit.HttpErrorMessageParts: stated for non-negative statuses only. Upstream statuses are three-digit codes; `Text.IntToString` covers the negative rendering.
