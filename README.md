# ESP32 RGB LED client — a Dafny model

This project models the device client of a small web front end for an ESP32
RGB light (`ESP32LEDClient` in `core/esp32_led.py`) and the destination
update done by the web route `set_target` in `app/web.py`.

- **Wrappers** (`wrappers.dfy`): the `Option` type shared by the other modules.
- **Text** (`text.dfy`): the Python string operations the code relies on —
  `strip()` (with Python's full `isspace()` set), `rstrip("/")`, `lower()` and
  `startswith`.
- **Palette** (`palette.dfy`): RGB triples, an insertion-ordered palette with
  unique keys (a Python dict, the type `ColorTable`), `dict.get` and `dict.keys()`, the default table
  `DEFAULT_COLORS`, and the canonical form of a caller's colour name
  (lower-cased, then stripped).
- **Http** (`http.dfy`): what the client uses of the `requests` library. A
  request has a verb, a URL, an optional JSON body and the client's timeout.
  `raise_for_status` raises on 4xx and 5xx. The network is a `Transport`
  object that hands out a script of replies in order, one per request. Once
  the script is used up it answers nothing. It keeps a ghost log of every
  request it was sent, so the contracts can say which requests a call made,
  in which order, and how many.
- **Esp32Led** (`esp32_led.dfy`): the client class. It has one mutable field,
  `base_url`. `timeout`, `colors` and the transport are `const`, so no method
  can change the palette. The colour payload and the bare-RGB payload are
  functions. `encender_led` builds its payload in place and is proved to post
  exactly the payload the function describes. Every command follows the
  command-then-acknowledge protocol (`CommandThenAck`):
  - the command request is sent first;
  - if its reply raises, that error is returned and nothing more is sent;
  - otherwise exactly one `GET {base_url}/ack` follows, and its text (or its
    error) is the result.
- **Web** (`web.dfy`): the `set_target` normalisation. Whitespace is trimmed,
  then every trailing slash is removed, then `http://` is prepended unless an
  `http://` or `https://` prefix is present. The result goes to
  `set_destino`, which strips trailing slashes once more.

Behaviour of the code worth noting:

- No destination is rejected. Empty or blank text becomes `"http://"` in the
  route, and the client stores `"http:"`.
- Every trailing slash is removed, however many there are.
- A palette hit sends both `"color"` and `"rgb"`, although the class
  docstring (core/esp32_led.py:26) says "color or rgb".

## Model

| member | source | states |
|---|---|---|
| Text.RStripSlash | core/esp32_led.py:80 | `rstrip("/")` keeps a prefix of the input, removes only slashes, and leaves no trailing slash |
| Text.Strip | app/web.py:80 | `strip()` gives the slice of the input between its leading and trailing whitespace runs; the result neither starts nor ends with whitespace |
| Text.Lower | core/esp32_led.py:43 | ASCII `lower()`: keeps the length, maps each character through the ASCII case map, and leaves no ASCII capital letter |
| Text.RStripByIdempotent | core/esp32_led.py:80 | stripping trailing characters a second time changes nothing |
| Text.StripIdempotent | app/web.py:80 | stripping whitespace a second time changes nothing |
| Palette.Keys | core/esp32_led.py:82-83 | `dict.keys()` lists every entry's name, in insertion order, and has one name per entry |
| Palette.Lookup | core/esp32_led.py:44 | `dict.get` finds a triple exactly when the name is a key, and the triple found is the one stored under that name |
| Palette.CanonicalName | core/esp32_led.py:43 | the looked-up name (lower-cased, then stripped) has no ASCII capital letter and no surrounding whitespace |
| Palette.CanonicalNameIdempotent | core/esp32_led.py:43 | canonicalising a canonical name changes nothing |
| Palette.CanonicalKeyReachable | core/esp32_led.py:43-44 | a key without capitals or surrounding whitespace is its own canonical form, so some caller input reaches it |
| Palette.DefaultColorsNames | core/esp32_led.py:10-19 | the default table has the eight names rojo, naranja, amarillo, verde, cian, azul, violeta and blanco, in that order |
| Palette.DefaultColorsCanonical | core/esp32_led.py:10-19 | every default name is its own canonical form |
| Palette.CanonicalIgnoresCaseAndSpacing | core/esp32_led.py:43 | for any colour and any whitespace-only `pre` and `post`, `pre + color + post` is looked up under the same name as `color` in small letters, and that is the name `color` itself is looked up under |
| Palette.DefaultColorsFoundAnyCaseAndSpacing | core/esp32_led.py:43-44 | a default colour written in any ASCII case, with any whitespace around it, is found, and it finds the triple stored under its small-letter name |
| Palette.DefaultColorsInByteRange | core/esp32_led.py:10-19 | every default triple has components in 0..255 |
| Palette.LookupRojoExample | core/esp32_led.py:43-44 | `" ROJO "` is canonicalised to `"rojo"` and finds (255, 0, 0) |
| Palette.LookupMissExample | core/esp32_led.py:43-44 | `"NotAColor"` is canonicalised to `"notacolor"` and finds nothing; a miss is not an error |
| Http.RaiseForStatus | core/esp32_led.py:49 | a reply passes exactly when it arrived with a status outside 400..599; a raised HTTP error carries the reply's status; a reply that never came raises the transport error |
| Http.Transport.Send | core/esp32_led.py:48 | one exchange logs exactly the request sent and consumes exactly one scripted reply |
| Esp32Led.RgbJson | core/esp32_led.py:47 | `list(rgb)`: a triple goes on the wire as the three-element JSON list [r, g, b] |
| Esp32Led.ColorPayload | core/esp32_led.py:43-47 | the posted body always has "color" = canonical name, first. It has "rgb" exactly when that name is a palette key, and then the value is that key's triple. It has no other key and each key once: two entries on a hit, one on a miss |
| Esp32Led.RgbPayload | core/esp32_led.py:54-55 | the `set_rgb` body has exactly one key, "rgb" = [r, g, b], and no "color" |
| Esp32Led.AckText | core/esp32_led.py:67-69 | the ack text is returned exactly when the reply passes raise_for_status, and otherwise the raised error |
| Esp32Led.StatusJson | core/esp32_led.py:73-75 | the status is the decoded body exactly when the reply passes and decodes. A failing status raises its error. An undecodable body raises a decode error |
| Esp32Led.CommandThenAck | core/esp32_led.py:48-50 | the command-then-acknowledge protocol shared by lines 48-50, 56-57 and 61-63: the command is sent first; a rejected command returns its error and sends nothing more; an accepted one is followed by exactly one ack GET whose outcome is the result. Whenever it holds, the log grew by one or two requests and kept its old prefix |
| Esp32Led.CommandThenAckOutcome | core/esp32_led.py:48-50 | success needs both replies to pass, makes exactly [command, ack], and returns the second reply's text. A rejected command sends nothing more and returns an error |
| Esp32Led.Esp32LedClient.constructor | core/esp32_led.py:31-38 | the stored destination is the argument without its trailing slashes; the timeout is kept; a missing palette becomes `DEFAULT_COLORS` |
| Esp32Led.Esp32LedClient.SetDestino | core/esp32_led.py:78-80 | the new destination is the argument without its trailing slashes, independent of the old one (last write wins); only `base_url` changes |
| Esp32Led.Esp32LedClient.ListaColores | core/esp32_led.py:82-83 | the palette's names in insertion order, each once; a name is listed exactly when a lookup of it succeeds |
| Esp32Led.Esp32LedClient.Ack | core/esp32_led.py:65-69 | exactly one GET `{base_url}/ack` with the client's timeout; returns its text or the raised error |
| Esp32Led.Esp32LedClient.Estado | core/esp32_led.py:71-75 | exactly one GET `{base_url}/status` with the client's timeout; returns the decoded status or the raised error |
| Esp32Led.Esp32LedClient.EncenderLed | core/esp32_led.py:41-50 | POSTs `ColorPayload` to `{base_url}/set_color`, then follows the command-then-acknowledge protocol |
| Esp32Led.Esp32LedClient.SetRgb | core/esp32_led.py:52-57 | POSTs `RgbPayload(r, g, b)` to `{base_url}/set_color`, then follows the command-then-acknowledge protocol |
| Esp32Led.Esp32LedClient.Apagar | core/esp32_led.py:59-63 | POSTs to `{base_url}/off` with no body, then follows the command-then-acknowledge protocol |
| Web.Trimmed | app/web.py:80 | after trimming and slash stripping the text is empty, or it starts with a non-space and does not end in a slash |
| Text.StartsWith | app/web.py:81 | `startswith`: the text is at least as long as the prefix and its first characters are the prefix |
| Web.HasScheme | app/web.py:81 | the two case-sensitive `startswith` tests of the route: the text begins with `http://` or with `https://` |
| Web.TargetUrl | app/web.py:80-82 | the URL handed to the client always starts with `http://` or `https://`; it equals the trimmed text itself or that text behind `http://` |
| Web.FormField | app/web.py:80 | a missing form field reads as the empty string |
| Web.SetTarget | app/web.py:79-84 | the client's new destination is `TargetUrl` of the form field, without trailing slashes |
| Web.TargetUrlPrefix | app/web.py:81-82 | text that already starts with `http://` or `https://` is not prefixed again; any other text gets exactly `http://` |
| Web.TargetUrlFixedPoint | app/web.py:80-82 | a URL with a scheme, no surrounding whitespace and no trailing slash passes through unchanged |
| Web.TrimBeforeSlashExample | app/web.py:80 | trimming happens before slash stripping, so `"x /"` becomes `"http://x "` |
| Web.HostPortExample | app/web.py:80-82 | `"192.168.10.2:80"` becomes `"http://192.168.10.2:80"` |
| Web.TrailingSlashExample | app/web.py:80-82 | `" http://x/ "` becomes `"http://x"` |
| Web.TargetUrlBare | app/web.py:80-82 | the handed-over URL ends in a slash exactly when it is the bare `"http://"`, which happens exactly when the trimmed text is empty |
| Web.StoredDestination | app/web.py:80-84 | after `set_target` the client stores the handed-over URL unchanged, except that the bare `"http://"` is stored as `"http:"` |
| Web.BlankTargetAccepted | app/web.py:80-84 | empty or whitespace-only text is accepted: the client is handed `"http://"` and stores `"http:"` |

## Left out

- The Flask application, the HTML template, and the `index`, `set_color`, `turn_off` and `check_status` handlers. They only call the client and format its results or `"Error: ..."` messages.
- `run.py`: reading `ESP32_URL` from the environment and starting the server.
- The `requests` library itself is not modelled: sockets, connection errors, redirects and the timeout. A transport failure is one `NoAnswer` reply. The reply status is the final status after any redirects. The timeout is carried on each request as an opaque `real` and never interpreted.
- JSON parsing in `estado`. The transport supplies the parsed value, or none when the body does not parse. JSON numbers are integers here.
- Text.Lower: models `lower()` for ASCII letters only. Python's other Unicode case mappings (`"Ñ"` to `"ñ"`, and those that change the length, such as `"İ"`) are not modelled, so for such input the posted `"color"` differs. Palette.CanonicalName and Esp32Led.Esp32LedClient.EncenderLed inherit this gap.
- Esp32Led.Esp32LedClient.EncenderLed: `if rgb:` is read as "the lookup found a triple". Palette values are three-element tuples, which are always truthy.
- Calls are modelled as sequential. The Flask development server started by `run.py` handles requests on threads, so a `set_target` can run between a command's POST and its `/ack` GET, and the two requests then go to different destinations. `CommandThenAck` sends both to one `base_url`, which holds only when no `set_destino` interleaves with a command; that interleaving is not modelled.
- Esp32Led.Esp32LedClient.constructor: the palette is taken as a value. The Python client shares the caller's dict, or the module-level `DEFAULT_COLORS`, by reference. Mutation of that dict from outside the client is not modelled.
- Exception types and messages are reduced to three error kinds: transport, HTTP status and decode.
