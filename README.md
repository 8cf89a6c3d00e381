# Trading-signal bridge to Telegram: a verified model

The bridge is a small FastAPI service. A trading platform POSTs a signal
payload; the service checks a shared secret, turns the payload into a
multi-line chat message, and hands that text to the Telegram Bot API once.

This project models the decision-making part of `main.py` in Dafny:

- **Signal formatting** (`format_signal_message`). A `text` key is sent verbatim.
  Otherwise every field falls back to its default (`UNKNOWN`, `N/A`, `H1`,
  `-`) and `side` is upper-cased. Six fixed lines are built, a reason line is
  appended when the reason is truthy, and a risk line when the risk is not
  `None`. The lines are joined with `"\n"`. The method `FormatSignalMessage`
  builds the list and appends to it as the source does. The function
  `SignalMessage` specifies it, and the lemmas about the output's structure
  are stated on that function.
- **Secret checks.** `AuthorizeBearer` models the `Authorization: Bearer <token>` check of
  `/webhook`. A missing header reads as `""`. No `"Bearer "` prefix gives 401.
  Otherwise the token is the second piece of `split(" ", 1)`, and a token unequal to the secret gives 403.
  `AuthorizeBody` models the `secret` body field of `POST /manual-signal`; any mismatch gives 401.
- **Routes.** The class `Bridge` holds the startup secret and a ghost log
  `sent` of every text handed to `send_to_telegram`. `Webhook` and
  `ManualSignalPost` authorize, format, then send. A rejected request leaves
  the log unchanged. An accepted one appends exactly the formatted message, unless formatting fails on a non-string `side`, in which case it appends nothing and answers 500.

Python's values are modelled by `Values.Value`. Integers, booleans and
`None` are exact, and so are strings made of Unicode scalar values. Floats, lists and objects are `Other`, and each one
carries its own `str()` text and truthiness. `Values.Get` is the definition of `payload.get(key, default)`. `str.upper` is modelled for
ASCII letters only. `str.join`, `str.split(sep)` and `str.split(sep, 1)` are
modelled for one-character separators.

Some of the code's behaviour is easy to misread; the model follows the code:

- The `text` bypass fires when the key is present at all, even when its value is empty or false.
- The reason line comes before the risk line.
- `risk` present with value JSON `null` adds no line.
- Prices are printed as `str()` prints them. There is no thousands grouping and no decoding of a nested `message` field.
- Auth failures are 401 or 403 as written at `main.py:88`, `main.py:98` and `main.py:101`.

## Model

| member | source | states |
|---|---|---|
| `Text.Upper` | main.py:45 | `side.upper()` keeps the length, maps each character by ASCII upper-casing, and leaves no lower-case ASCII letter |
| `Text.UpperKeepsUppercase` | main.py:45 | a side already in upper case is shown unchanged |
| `Text.UpperIdempotent` | main.py:45 | upper-casing twice is the same as upper-casing once |
| `Text.UpperKeepsNewlines` | main.py:45 | upper-casing neither adds nor removes a line break |
| `Text.Join` | main.py:67 | `"\n".join(lines)` is empty for no lines and otherwise at least as long as its first line; it is the inverse of `Split` for parts without the separator (`SplitJoin`, `JoinSplit`), and spelled out for six parts by `Formatter.JoinSix` |
| `Text.JoinEndsWithoutSeparator` | main.py:67 | a join of separator-free parts whose last part is not empty does not end in the separator |
| `Text.Split` | main.py:67 | `s.split("\n")` has at least one piece and no piece contains the separator |
| `Text.SplitWithoutSeparator` | main.py:67 | a string without the separator splits into itself alone |
| `Text.SplitAfterPiece` | main.py:67 | splitting `a + sep + b` with `sep` not in `a` gives `a` followed by the pieces of `b` |
| `Text.SplitJoin` | main.py:67 | splitting `"\n".join(lines)` on `"\n"` gives back `lines` when no line contains a newline |
| `Text.JoinSplit` | main.py:67 | joining the pieces of a split with the separator gives back the string |
| `Text.JoinEndsWithLast` | main.py:67 | a join ends with its last part: no separator is added at the end |
| `Text.FirstIndex` | main.py:99 | the index found holds the separator and no earlier position does; none is found exactly when the separator is absent |
| `Text.SplitOnce` | main.py:99 | `split(" ", 1)` gives one piece (the whole string) without a space, otherwise two pieces that rebuild the string around its first space |
| `Text.SplitOnceAfterWord` | main.py:97-99 | for a header starting with `"Bearer "`, `split(" ", 1)` is `["Bearer", rest]`, so the token is the suffix after the prefix |
| `Values.GetAfterStore` | main.py:44-53 | `payload.get(key, default)` sees the value stored under `key` and is unaffected by a value stored under any other key |
| `Values.IntToString` | main.py:42 | `str()` of an integer is non-empty, starts with `-` exactly for negatives, and is decimal digits after that |
| `Values.Render` | main.py:56-66 | `str()`, which the f-string placeholders also print: an integer prints with a leading `-` exactly when negative, and integers, booleans and `None` print without line breaks |
| `Values.Truthy` | main.py:63 | among strings, integers, booleans and `None`, exactly the empty string, 0, False and None are false |
| `Values.NatToString` | main.py:42 | `str()` of a natural number is a non-empty string of decimal digits |
| `Formatter.DisplayedSide` | main.py:45 | the side is shown when it is absent (as `N/A`) or a string (upper-cased), and is then free of lower-case ASCII; any other value makes `.upper()` fail |
| `Formatter.FixedLines` | main.py:55-62 | the six fixed lines, with the side line second |
| `Formatter.SignalLines` | main.py:55-66 | the `lines` list starts with the six fixed lines, and every later entry is the reason line or the risk line |
| `Formatter.SignalMessage` | main.py:36-67 | with a `text` key the message is `str(payload["text"])`; without it, formatting fails exactly when `side` is present and not a string |
| `Formatter.FormatSignalMessage` | main.py:36-67 | the list-building, appending implementation returns exactly the message `SignalMessage` specifies, including the failure on a non-string side |
| `Formatter.TextBypass` | main.py:41-42 | with a `text` key the message is `str(payload["text"])`, and any two payloads with the same `text` value give the same message whatever their other keys |
| `Formatter.EmptyPayloadLines` | main.py:44-62 | the empty payload's side is `N/A` and its lines are exactly the six default lines |
| `Formatter.EmptyPayloadMessage` | main.py:44-67 | the empty payload is formatted, not rejected, into those six lines joined by single newlines |
| `Formatter.JoinSix` | main.py:67 | `"\n".join` of six lines is the six lines with one separator between neighbours |
| `Formatter.DefaultLinesSpelled` | main.py:56-61 | each line builder, given the defaults, spells out the corresponding default line |
| `Formatter.LineCount` | main.py:55-66 | the `lines` list has 6 entries, plus one if the reason is truthy, plus one if the risk is not `None` (the message has that many lines when no field prints a newline, by `SplitRecoversLines`) |
| `Formatter.LineOrder` | main.py:55-66 | the six fixed lines come first in their order, the side line is second, the reason line is seventh when present, and the risk line is last when present |
| `Formatter.SideShownUppercase` | main.py:45-57 | a string side is shown upper-cased on the side line, and an already upper-case side is shown as given |
| `Formatter.NoNewlineInFixedLines` | main.py:55-62 | when no field prints a newline, none of the six fixed lines contains one |
| `Formatter.NoNewlineInLines` | main.py:55-66 | when no field and not the side prints a newline, no entry of `lines` contains one |
| `Formatter.SplitRecoversLines` | main.py:55-67 | when no field prints a newline, splitting the message on `"\n"` gives exactly the list of lines, and the message does not end in a newline |
| `Formatter.LinesOnOneLine` | main.py:45-66 | when no field prints a newline, the upper-cased side does not either, so no entry of `lines` contains one |
| `Formatter.LastLineNonEmpty` | main.py:55-66 | every line starts with its label, so the last entry of `lines` is not empty |
| `Formatter.FormattedMessageNonEmpty` | main.py:55-67 | without the `text` bypass a formatted message is never empty |
| `Auth.AuthorizeBearer` | main.py:96-101 | 401 exactly when the header (default `""`) lacks the `"Bearer "` prefix, 403 exactly when the suffix after the prefix differs from the secret, and success exactly when the header is `"Bearer " + secret` |
| `Auth.AuthorizeBody` | main.py:87-88 | success exactly when the body's `secret` field is the string equal to the secret; every other case is 401, never 403 |
| `Auth.MissingHeaderUnauthorized` | main.py:96-98 | a request with no `Authorization` header is 401 |
| `Auth.LowercaseSchemeUnauthorized` | main.py:97-98 | the prefix is case-sensitive: `"bearer " + secret` is 401 |
| `Auth.EmptyTokenForbidden` | main.py:99-101 | with a non-empty secret a bare `"Bearer "` is 403 |
| `Auth.AbsentSecretUnauthorized` | main.py:87-88 | a body with no `secret` field is 401 for every secret |
| `Routes.Bridge.constructor` | main.py:12-19 | the bridge runs only with a non-empty secret (its `Valid()` invariant, kept by both routes), and starts with nothing sent |
| `Routes.Bridge.SendToTelegram` | main.py:69-75 | one call appends exactly its text to the sent log and reports the delivery outcome |
| `Routes.Bridge.ManualSignalPost` | main.py:86-91 | any secret mismatch answers 401 "Invalid secret" and sends nothing. A non-string side answers 500 and sends nothing. Otherwise the formatted message is sent exactly once, and the answer is "sent" when delivery succeeds, 500 when it fails |
| `Routes.Bridge.Webhook` | main.py:95-106 | a missing or non-bearer header answers 401 and a wrong token 403 (a bare `"Bearer "` among them, as the secret is non-empty), both with nothing sent. A non-string side answers 500 with nothing sent. Otherwise the formatted payload is sent exactly once, and the answer is "sent" on delivery, 500 on failure |

## Left out

- The FastAPI app, the `/` and `/health` routes and the unauthenticated `GET /manual-signal` (main.py:24-33, 79-82). They are routing with no decisions.
- Environment loading (main.py:7-19). It appears only as the constructor's requirement that the secret is non-empty. The bot token and chat id are not modelled.
- The HTTP call inside `send_to_telegram`: the URL, the form fields, `parse_mode`, the 15-second timeout and `raise_for_status`. Its outcome is the `delivered` input, and a failure becomes a 500 answer.
- JSON parsing of the webhook body (main.py:103). The payload arrives already parsed as a JSON object. A malformed or non-object body, which the source answers with an error, is not modelled.
- FastAPI's validation that the `POST /manual-signal` body is an object.
- How headers are looked up. The `Authorization` header's value, or its absence, is an input. Case-insensitive header names and repeated headers are not modelled.
- `Values.Render`: Python's `str()` of floats, lists and objects is not computed. Each such value carries its printed text (`Other`).
- `Text.Upper`: does not model Unicode case mapping beyond ASCII, because the characters outside a-z are kept as they are, whereas Python also upper-cases non-ASCII letters and can lengthen a string (`"ß"` becomes `"SS"`).
- JSON strings holding lone surrogates (`"\ud800"`), which Python's `json.loads` accepts: a Dafny `char` is a Unicode scalar value and cannot hold one, so such payloads are outside the model.
- The async scheduling of requests and any concurrency between them.
