# PyBot AI website: lead relay, form script and preview server

A Dafny model of the decision logic behind the PyBot AI marketing site:

- **Lead relay** (`telegram_bot_server.py`, module `LeadRelay`): `POST /api/submit`
  strips the `name` and `phone` of a JSON body, rejects blanks with 400, builds a
  fixed HTML notification stamped `DD.MM.YYYY HH:MM:SS`, relays it once to the
  Telegram Bot API, and answers 200 and success whether or not the relay
  delivered; any exception gives 500 with one generic text. `GET /health`
  reports whether the token and chat id are both set. The request body, the
  configuration, the outcome of the outbound call and the local date-time are
  inputs; the handler is a total function from them to the response and the
  list of outbound calls.
- **Form script** (`script.js`, module `SiteScript`): the modal dialog as a
  two-state machine driven by `openModal`, `closeModal`, the Escape key and
  clicks on the backdrop, and `handleSubmit`, which trims and checks the two
  fields, checks the phone against `^[\d\s\-\+\(\)]+$`, sends them once, and
  resets the form and restores the submit button on both the success and the
  error path. The page is a class `Page` whose fields the handlers assign;
  each method is proved equal to a pure transition on `PageState`, about which
  the lemmas are stated.
- **Preview server** (`server.py`, module `StaticServer`): the port argument
  (default 8000, otherwise a Python `int` within 1..65535, else exit 1), the
  exit decisions of `start_server` (missing `index.html`, address in use,
  other OS errors, Ctrl+C), and `CustomHandler.end_headers`, which appends
  `Cache-Control: no-cache, no-store, must-revalidate` (section 5.2.2 of
  RFC 9111), `Pragma: no-cache` (section 5.4) and `Expires: 0` (section 5.3,
  an invalid date read as already expired) before the base method flushes.

Support modules: `Text` (whitespace, `strip`/`trim`, substring search),
`Numerals` (digit strings, fixed-width and shortest decimal forms), `PyInt`
(Python's `int()` on a string), `Timestamp` (the `strftime` stamp and its
parser) and `Wrappers` (`Option`).

The code starts without a token or chat id and only reports it through the
health check; the model follows the code and has no start-up refusal. The
code also enables cross-origin requests from every origin and has no `GET /`
route; neither is modelled.

## Model

| member | source | states |
|---|---|---|
| `Text.Trim` | telegram_bot_server.py:28-29 | `strip()`/`trim()`: the result is the slice of the input after its leading whitespace, neither end of it is whitespace, everything cut off is whitespace, and it is empty exactly when the input is all whitespace |
| `Text.TrimUnique` | telegram_bot_server.py:28-29 | whitespace around a trimmed string is exactly what trimming removes, so the trimmed value is unique |
| `Text.TrimIdempotent` | script.js:39-40 | trimming an already trimmed value changes nothing |
| `Text.Contains` | server.py:69 | Python's `sub in s`: true exactly when `sub` occurs at some index of `s` |
| `Numerals.Fixed` | telegram_bot_server.py:43 | a zero-padded field of the given width, all digits, reading back as the number it was made from |
| `Numerals.Decimal` | server.py:72 | `str(n)`: a non-empty digit string without a leading zero that reads back as `n` |
| `Numerals.DecimalLength` | server.py:72 | a number below 10^k is written with at most k digits |
| `Numerals.FixedOfValue` | telegram_bot_server.py:43 | a fixed-width digit field is determined by its value |
| `PyInt.ParseSigned` | server.py:90 | a stripped numeral is accepted exactly when it is one optional sign followed by digit groups (digits, each underscore between two digits) holding at most 4300 digits |
| `PyInt.ParseInt` | server.py:90 | `int(s)`: a blank string is refused; a string is accepted exactly when, once stripped, it is an optional sign followed by digit groups of at most 4300 digits, so a doubled, leading or trailing underscore and an overlong numeral are refused |
| `PyInt.ParseSignedGroups` | server.py:90 | a sign or none followed by digit groups reads as the groups' value, negated under a minus, and is refused beyond 4300 digits |
| `PyInt.ParseNumeral` | server.py:90 | whitespace, an optional sign and underscore-grouped digits parse to the digits' value, negated under a minus, and are refused beyond 4300 digits |
| `PyInt.RefusesDoubledUnderscore` | server.py:90-97 | `int("80__80")` raises, so that argument exits with code 1 |
| `PyInt.RefusesTrailingUnderscore` | server.py:90-97 | `int("1_")` raises, so that argument exits with code 1 |
| `PyInt.AcceptsPaddedGroupedPort` | server.py:90 | `int(" +8_080\n")` is 8080 |
| `PyInt.ParseDigits` | server.py:90 | a run of ASCII digits, leading zeros included, parses to its value when it has at most 4300 digits and is refused otherwise |
| `PyInt.ParseDecimal` | server.py:90 | `int(str(n)) == n` whenever `str(n)` has at most 4300 digits |
| `Timestamp.Format` | telegram_bot_server.py:43 | the stamp is 19 characters, `.` `.` ` ` `:` `:` at positions 2, 5, 10, 13, 16, and each field is a zero-padded digit run holding the day, month, four-digit year, hour, minute and second |
| `Timestamp.Parse` | telegram_bot_server.py:43 | reads a stamp back; whatever it accepts is a valid date-time |
| `Timestamp.ParseFormat` | telegram_bot_server.py:43 | every stamp reads back as the date-time it was made from |
| `Timestamp.FormatParse` | telegram_bot_server.py:43 | every string that reads as a stamp is exactly the stamp of what it reads as |
| `LeadRelay.SendMessageUrl` | telegram_bot_server.py:21 | the endpoint is the Bot API prefix, then the configured token, then `/sendMessage` |
| `LeadRelay.OkOf` | telegram_bot_server.py:51 | `.get('ok')` on the relay result: false for a caught failure, the truth value of `ok` for a decoded JSON object, and it raises only for a reply that is not a JSON object |
| `LeadRelay.SendToTelegram` | telegram_bot_server.py:71-84 | one call to the configured endpoint with payload exactly `{chat_id, text: message, parse_mode: "HTML"}`; a raised transport error becomes a failure value with `ok` false and the error text, never an exception |
| `LeadRelay.Notification` | telegram_bot_server.py:39-46 | the fixed head, the name verbatim, the phone label, the phone verbatim, the time label, a stamp that reads back as the given time, then the fixed tail; no HTML escaping |
| `LeadRelay.StrippedField` | telegram_bot_server.py:28-29 | `data.get(key, '').strip()`: a missing key gives the empty string, a string is stripped, any other JSON value raises |
| `LeadRelay.InternalError` | telegram_bot_server.py:64-69 | every exception gives 500 and `success: false` with the one fixed generic error text, never the exception's details, keeping the calls already made |
| `LeadRelay.RelayLead` | telegram_bot_server.py:39-62 | a validated lead makes exactly one call carrying the notification to the configured chat; the answer is 200 and success whatever "ok" was or whether the transport raised, the message telling a truthy "ok" apart; only a reply that is not a JSON object gives 500 |
| `LeadRelay.SubmitForm` | telegram_bot_server.py:23-69 | status is 200, 400 or 500; success exactly with 200; 400 only for blank fields, with no call; 500 always with the generic text; an unparsable or non-object body or a non-string field gives 500 with no call; a lead whose stripped name and phone are non-empty is relayed with those stripped values, and nothing else makes a call |
| `LeadRelay.BlankFieldRejected` | telegram_bot_server.py:32-36 | a missing or whitespace-only name or phone gives 400 with the fixed error and no outbound call |
| `LeadRelay.ValidLeadRelayedOnce` | telegram_bot_server.py:39-49 | a valid lead makes exactly one call, to the configured chat, with the notification built from the stripped values |
| `LeadRelay.ValidLeadAlwaysSucceeds` | telegram_bot_server.py:51-62 | for a valid lead the caller gets 200 and success whether "ok" is truthy, falsy or the transport raised; only the message differs |
| `LeadRelay.ValidLeadNonObjectReply` | telegram_bot_server.py:51-69 | the one way a valid lead ends in 500: a reply that is JSON but not an object, after the call was made |
| `LeadRelay.HealthCheck` | telegram_bot_server.py:86-92 | always 200 and `"ok"`; `bot_configured` exactly when both token and chat id are non-empty |
| `SiteScript.PhonePatternTest` | script.js:49-50 | the regex test holds exactly for a non-empty string every character of which is a digit, whitespace, `-`, `+`, `(` or `)` |
| `SiteScript.CheckForm` | script.js:39-53 | blank name or phone is reported first; otherwise a phone with any character outside the class is refused; an accepted form carries the trimmed values |
| `SiteScript.Opened` | script.js:2-6 | the modal is shown (`display: block`, `overflow: hidden`) and nothing else changes |
| `SiteScript.Closed` | script.js:8-12 | the modal is hidden (`display: none`, `overflow: auto`) and nothing else changes |
| `SiteScript.AfterKeyDown` | script.js:23-27 | Escape closes the modal, any other key changes nothing |
| `SiteScript.AfterWindowClick` | script.js:15-20 | a click closes the modal only when its target is the modal element itself |
| `SiteScript.Reset` | script.js:89 | `form.reset()` puts both inputs back to their defaults and touches nothing else |
| `SiteScript.AfterSubmit` | script.js:35-119 | `handleSubmit` never touches the modal's display or the page's overflow |
| `SiteScript.CloseIdempotent` | script.js:8-12 | closing twice is closing once |
| `SiteScript.CloseAfterOpen` | script.js:2-12 | opening then closing is the same as closing |
| `SiteScript.EscapeAndClicks` | script.js:15-27 | Escape closes the modal from any state; a click on the modal closes it; a click elsewhere changes nothing |
| `SiteScript.BlankBeforeBadPhone` | script.js:43-53 | a blank field only adds the fill-in alert, even when the phone also has a bad character |
| `SiteScript.RejectedLeavesPage` | script.js:43-53 | a rejected form sends no request and leaves the button, the inputs and the panel as they were; a blank field adds exactly the fill-in alert and a bad phone exactly the bad-number alert |
| `SiteScript.AcceptedRestoresPage` | script.js:55-118 | an accepted form is sent once with exactly the trimmed values; afterwards the button is enabled with its original label and the form is reset, on the success and the error path; the thanks panel only for a truthy `success` |
| `SiteScript.FalsySuccessLikeError` | script.js:73-113 | a reply whose `success` is falsy ends exactly like a network error |
| `SiteScript.Page.OpenModal` | script.js:2-6 | the page's new state is `Opened` of the old one |
| `SiteScript.Page.CloseModal` | script.js:8-12 | the page's new state is `Closed` of the old one |
| `SiteScript.Page.OnKeyDown` | script.js:23-27 | the page's new state is `AfterKeyDown` of the old one |
| `SiteScript.Page.OnWindowClick` | script.js:15-20 | the page's new state is `AfterWindowClick` of the old one |
| `SiteScript.Page.ResetForm` | script.js:89 | the page's new state is `Reset` of the old one |
| `SiteScript.Page.HandleSubmit` | script.js:35-53 | the page's new state is `AfterSubmit` of the old one |
| `SiteScript.Page.SendLead` | script.js:55-118 | after validation: one request with the given values is logged, the panel shows the outcome, the form is reset and the button is enabled with its original label |
| `SiteScript.Page.BeginSend` | script.js:56-69 | while the request is in flight the button is disabled and labelled 'Отправка...', the request with the trimmed values is logged, and nothing else changes |
| `SiteScript.Page.FinishSend` | script.js:71-118 | after the awaits the panel shows the outcome, the form is reset, and the button is enabled again with the label it had before the send |
| `StaticServer.ChoosePort` | server.py:86-99 | no argument gives 8000; an argument that is not an int, or an int outside 1..65535, gives exit code 1; an accepted int is passed on unchanged |
| `StaticServer.AcceptsEveryPort` | server.py:88-99 | every port 1..65535 written in decimal is accepted as itself |
| `StaticServer.RefusesOutOfRange` | server.py:91-97 | 0 and every number above 65535 exit with code 1 |
| `StaticServer.RefusesBlank` | server.py:89-97 | an empty or blank argument exits with code 1 |
| `StaticServer.AddressInUse` | server.py:69 | an OS error means the port is taken exactly when its text contains "Address already in use" at some position or its errno is 98 |
| `StaticServer.StartServer` | server.py:17-81 | missing `index.html` exits 1 before any socket; an address in use (by message or errno 98) exits 1 suggesting port + 1; other OS errors exit 1; Ctrl+C exits 0, and is the only exit with 0 |
| `StaticServer.Launch` | server.py:83-99 | a refused argument exits 1 with no server built; for an accepted port the exit is `start_server`'s for that port: 1 without a bind for a missing `index.html`, 1 suggesting the port plus one when the address is in use, 1 on another OS error, 0 on Ctrl+C |
| `StaticServer.HeaderValues` | server.py:33-35 | every listed value comes from a line with that name, and every such line's value is listed |
| `StaticServer.HeaderValuesAppend` | server.py:33-36 | the values of a header in two concatenated blocks are those of the first then those of the second |
| `StaticServer.NoCacheBlock` | server.py:31-36 | a block ended by `end_headers` whose earlier lines set none of the three carries exactly one no-cache value for each |
| `StaticServer.CustomHandler.SendHeader` | server.py:33-35 | one header line is buffered and nothing is flushed |
| `StaticServer.CustomHandler.BaseEndHeaders` | server.py:36 | the buffered block is flushed and the buffer emptied |
| `StaticServer.CustomHandler.EndHeaders` | server.py:31-36 | the flushed block is the earlier buffered headers followed by the three no-cache headers |

## Left out

- Flask routing, CORS, `request.get_json()` internals, `requests.post` with its 10-second timeout and `app.run` with the `PORT` default of 5000: the parsed body and the transport outcome are inputs.
- The fallback bot token hard-coded as a default: the token and chat id are parameters, and no default is modelled.
- `print` logging in every file, `alert` and `console` messages (alerts are logged by kind only), and the `innerHTML` markup (only which panel is shown).
- `datetime.now()`: the date-time is an input.
- Text.Trim: whitespace is the six ASCII characters (space, tab, line feed, vertical tab, form feed, carriage return) on which Python's `strip` and JavaScript's `trim` and `\s` agree; the separators U+001C to U+001F, which Python also strips, and the non-ASCII spaces are not modelled.
- PyInt.ParseInt: non-ASCII decimal digits and non-ASCII whitespace, which Python's `int()` also accepts, are not modelled.
- PyInt.ParseSigned: the 4300-digit limit is the default of Python 3.11 and of the 3.7.14, 3.8.14, 3.9.14 and 3.10.7 releases; a different limit set through `PYTHONINTMAXSTRDIGITS`, `-X int_max_str_digits` or `sys.set_int_max_str_digits`, and older interpreters without a limit, are not modelled.
- Timestamp.Format: the year is zero-padded to four digits; on platforms whose `strftime` does not pad `%Y`, years before 1000 would print shorter.
- SiteScript.Page.HandleSubmit: runs to completion atomically; events that the browser may handle during the two `await`s (a second click, an edit, closing the modal) are not interleaved. `event.preventDefault()` and a page without a submit button are not modelled.
- `index.html` is not part of this model: that the form sits inside `.modal-content`, so that the markup written by either submit path replaces it, and that the inputs' default values are whatever the page declares, are taken as given.
- Smooth scrolling and the scroll animation (`IntersectionObserver`) in `script.js`: presentation only.
- The banners, `webbrowser.open`, `TCPServer` and `serve_forever` in `server.py`: only the exit decisions are kept; `send_header`'s HTTP/0.9 case and case-insensitive header names are not modelled.
- `deploy_netlify.py` (a driver for the Netlify command-line tool) and `test_telegram.py` (a one-off live API call): no decision logic beyond external calls.
