# QR code generator: payloads, file names and batches

This project is a Dafny model of the logic a small QR code generator owns itself. The generator has two front-ends: a desktop form (`qr_generator_gui.py`) and a command-line tool (`qr_generator_cli.py`). Both hand the actual barcode work to the `qrcode` library. The model covers what happens around that call:

- **Payload builders** (module `Payloads`). These are the form's tabs. Each one turns the stripped text of its fields into the string that gets encoded, or refuses it:
  - a URL, passed through;
  - `mailto:<to>?cc=..&subject=..&body=..`;
  - `tel:<number>`;
  - `sms:<number>?body=..`;
  - the `WIFI:T:<E>;S:<ssid>;P:<password>;;` string;
  - `geo:<lat>,<lng>`.

  Each builder has a decoder beside it (`ParseMailto`, `ParseTel`, `ParseSms`, `ParseWifi`, `ParseGeo`). A round-trip lemma proves that decoding gets the fields back, under the one condition the unescaped format needs: no field contains that format's separator.
- **The form's state** (module `Gui`). Class `QrCodeGeneratorGui` has the two fields the form updates, `currentUrl` (`current_url`) and `currentQrPath` (`current_qr_path`). Its methods are the three generate buttons and the shared `_generate_qr_from_string`. Their contracts give the new state in terms of the old, and `Valid()` is preserved: an image path is recorded only after a payload was, and it always ends in `.png`.
- **File names** (module `Filenames`). This covers the `.png` suffix rule, which both front-ends share, and `os.path.join`.
- **The command line** (module `Cli`):
  - the default name `qrcode_<timestamp>.png`;
  - reading a batch file into its stripped, non-blank lines;
  - naming batch item *i* `qrcode_<i>.png`, counting from 1;
  - the batch loop, which collects the paths of the items that succeed and skips the ones that fail;
  - the manual-entry loop, which stops at the first blank line;
  - the dispatch in `main`.
- **Python builtins the above depend on** (modules `Strings` and `Numerals`):
  - `str.strip()`, using Python's exact `isspace` character set;
  - `str.startswith` and `str.endswith`;
  - `sep.join`;
  - `str(int)`, for the batch counter;
  - `int(str)`, for the size setting.

Some things are not part of this model and are passed in as parameters instead:
- `urllib.parse.quote`, as `quote: string -> string`;
- Python's `float()` test in the location tab, as `isNumber: string -> bool`;
- the library's encoding together with the directory creation and the image writing, as `backend: (data, options, path) -> bool`, meaning "all of it succeeded";
- the file-system queries, as `isFile` and `readFile`;
- the clock's timestamp text.

Standard input and `sys.argv` are sequences of strings.

Observations the model makes precise:
- The WiFi string escapes nothing. `WifiUnescapedAmbiguity` proves that moving text that follows a `;P:` from the end of the SSID to the front of the password does not change the payload.
- Leaving the form's file name blank writes `qr_codes/.png` (`GuiBlankFilename`).
- If generation fails after a new payload was accepted, `current_url` holds the new payload while `current_qr_path` still names the previous image.
- `batch_generate` given a string that is not an existing file iterates over the string's characters (`BatchItems`). `main` never calls it that way.
- `Run`'s option 1 does not check for an empty URL.

## Model

| member | source | states |
|---|---|---|
| `Strings.Strip` | qr_generator_gui.py:374 | The result of `strip()` starts and ends with a non-white-space character (or is empty) and is no longer than the input |
| `Strings.StripUnique` | qr_generator_cli.py:82 | For any stripped core `m` between white-space-only margins, `strip()` gives back exactly `m` |
| `Strings.StripEmptyIff` | qr_generator_gui.py:375 | `not x.strip()` holds exactly when every character of `x` is white space |
| `Strings.StripIdempotent` | qr_generator_cli.py:82 | Stripping twice is the same as stripping once; a stripped string is left unchanged |
| `Strings.Join` | qr_generator_gui.py:402 | `sep.join` of no parts is empty; otherwise the result starts with the first part, ends with the last, and the first part is followed by the separator when there are two or more |
| `Strings.SplitJoin` | qr_generator_gui.py:402 | Splitting a joined string at the separator gives back exactly the parts, as long as no part contains a splitting character |
| `Numerals.NatToStringValue` | qr_generator_cli.py:87 | Reading the decimal rendering of `i` gives back `i` |
| `Numerals.NatToString` | qr_generator_cli.py:87 | `str(i)` of a counter is a non-empty string of digits without a leading zero |
| `Numerals.NatToStringInjective` | qr_generator_cli.py:87 | Different counters render as different strings |
| `Numerals.ParseInt` | qr_generator_gui.py:488 | `int()` succeeds exactly on a non-empty digit string, and gives a non-negative value |
| `Filenames.EnsurePng` | qr_generator_gui.py:515-517 | The name ends with `.png` and begins with the original name: it is unchanged if it already ended with `.png`, otherwise exactly `.png` is appended |
| `Filenames.EnsurePngIdempotent` | qr_generator_cli.py:39-40 | Applying the suffix rule twice equals applying it once |
| `Filenames.EnsurePngUnchangedIff` | qr_generator_cli.py:39-40 | The name is unchanged exactly when it already ends with `.png`, and it grows by at most four characters |
| `Filenames.PathJoin` | qr_generator_cli.py:43 | The joined path always ends with the file name |
| `Filenames.PathJoinRelative` | qr_generator_gui.py:519 | A relative name joined to a plain directory is `dir + "/" + name` |
| `Filenames.PathJoinInjective` | qr_generator_cli.py:43 | Different relative names in one directory give different paths |
| `Payloads.UrlPayload` | qr_generator_gui.py:373-378 | The URL tab refuses an all-space entry; otherwise the payload is the stripped entry, non-empty and stripped |
| `Payloads.MailtoUri` | qr_generator_gui.py:380-404 | An all-space recipient is refused; otherwise the payload starts with `"mailto:" + to` |
| `Payloads.MailtoParams` | qr_generator_gui.py:392-399 | One parameter per non-empty field; `cc=quote(cc)` comes first when present, `subject=quote(subject)` next, and `body=quote(body)` last |
| `Payloads.Query` | qr_generator_gui.py:401-402 | The query is empty exactly when there are no parameters, and otherwise starts with `?` |
| `Payloads.ParseMailtoOf` | qr_generator_gui.py:391-402 | Decoding `mailto:<to>` followed by the query of a parameter list gives back the recipient and the list, when the recipient has no `?` and no parameter has an `&` |
| `Payloads.BuildMailto` | qr_generator_gui.py:380-404 | The step-by-step builder refuses an all-space recipient and otherwise returns `mailto:<to>` followed by the query built below, which is the payload `MailtoUri` describes |
| `Payloads.BuildMailtoQuery` | qr_generator_gui.py:392-402 | Appending `key=quote(value)` for each non-empty field and joining with `&` after a `?` yields the query of the non-empty fields cc, subject, body, in that order, and the empty string when all three are empty |
| `Payloads.MailtoQueryIff` | qr_generator_gui.py:401-402 | A query (starting with `?`) is present if and only if at least one of cc, subject, body is non-empty |
| `Payloads.MailtoRoundTrip` | qr_generator_gui.py:391-402 | Decoding the payload gives back the recipient and exactly the list of parameters `key=quote(value)`, provided the recipient has no `?` and no quoted value has an `&` |
| `Payloads.TelUri` | qr_generator_gui.py:406-411 | An all-space number is refused; otherwise the payload decodes as `tel:` plus the stripped, non-empty number |
| `Payloads.SmsUri` | qr_generator_gui.py:413-424 | An all-space number is refused; otherwise the payload starts with `sms:<number>`, and it is exactly that when the body is empty |
| `Payloads.SmsRoundTrip` | qr_generator_gui.py:419-424 | Decoding gives back the number, and a body, namely `quote(body)`, exactly when the body is non-empty; this holds when the number has no `?` |
| `Payloads.TabPayload` | qr_generator_gui.py:369-428 | A payload exists only for tabs 0 to 3, and it is never empty |
| `Payloads.BuildUrlFromTab` | qr_generator_gui.py:369-428 | The tab dispatch returns the URL, mailto, tel or SMS payload of the selected tab, and nothing for tab 4 or above |
| `Payloads.EncryptionCode` | qr_generator_gui.py:439-445 | The encryption map is defined exactly on the three combobox values and maps "WPA/WPA2" to WPA, "WEP" to WEP and "无" to nopass, each code coming from that value only |
| `Payloads.WifiFormatFrame` | qr_generator_gui.py:447-451 | Both forms of the WiFi string start with `WIFI:T:` and end with `;;` |
| `Payloads.ParseWifiOf` | qr_generator_gui.py:447-451 | Decoding the WiFi string of a code, SSID and password gives back the code and the SSID, and the password exactly when the code is not nopass, for fields without `;` |
| `Payloads.WifiString` | qr_generator_gui.py:430-451 | A payload exists exactly when the SSID is not all space and the encryption value is in the map; it starts with `WIFI:T:` and ends with `;;` |
| `Payloads.WifiRoundTrip` | qr_generator_gui.py:447-451 | Decoding gives back the encryption code, the SSID, and the password unless the network is open (nopass ignores the password); this holds when neither field contains `;` |
| `Payloads.WifiUnescapedAmbiguity` | qr_generator_gui.py:451 | Two different SSID/password pairs can produce the same WiFi payload, because `;` is not escaped |
| `Payloads.GeoUri` | qr_generator_gui.py:456-472 | A payload exists exactly when both stripped fields are non-empty and both pass the number test; it starts with `geo:<lat>,` |
| `Payloads.GeoRoundTrip` | qr_generator_gui.py:472 | Decoding gives back both stripped coordinates, provided the latitude contains no `,` |
| `Gui.ErrorCorrectionLevel` | qr_generator_gui.py:489-495 | The level map is defined exactly on the four combobox values and maps "L (7%)" to L, "M (15%)" to M, "Q (25%)" to Q and "H (30%)" to H, each level coming from that value only |
| `Gui.GuiOptions` | qr_generator_gui.py:488-503 | Options exist exactly when the size parses and the level is in the map; they use version 1, border 4, the parsed size and the mapped level |
| `Gui.GuiFilePath` | qr_generator_gui.py:511-519 | The path ends with `.png` and with the normalised name; for a relative name it is `qr_codes/<name>` |
| `Gui.GuiBlankFilename` | qr_generator_gui.py:515-517 | A blank file name entry writes `qr_codes/.png` |
| `Gui.QrCodeGeneratorGui.constructor` | qr_generator_gui.py:35-36 | The form starts with no payload and no image path |
| `Gui.QrCodeGeneratorGui.GenerateFromString` | qr_generator_gui.py:484-522 | The payload is left as it is; the image path becomes the written path only if options, encoding and saving all succeed, and is otherwise unchanged |
| `Gui.QrCodeGeneratorGui.GenerateQrCode` | qr_generator_gui.py:476-482 | `current_url` is set exactly when the tab yields a payload; `current_qr_path` becomes the written path only when the payload exists and is saved |
| `Gui.QrCodeGeneratorGui.GenerateWifiQr` | qr_generator_gui.py:430-454 | A refused WiFi entry changes nothing; otherwise the WiFi string is recorded, and the image path is set on success |
| `Gui.QrCodeGeneratorGui.GenerateGeoQr` | qr_generator_gui.py:456-474 | A missing or non-numeric coordinate changes nothing; otherwise the geo URI is recorded, and the image path is set on success |
| `Cli.OutputName` | qr_generator_cli.py:34-40 | The name always ends with `.png`; with no name given it is `qrcode_<timestamp>.png`; a given name goes through the suffix rule |
| `Cli.GenerateQrCode` | qr_generator_cli.py:17-63 | A path is returned exactly when the backend succeeds on `join(save_dir, name)`, and it is that path; it ends with `.png` and with the chosen name |
| `Cli.ItemName` | qr_generator_cli.py:87 | A batch name starts with `qrcode_`, ends with `.png` and is relative |
| `Cli.ItemNameCounter` | qr_generator_cli.py:87 | The text between `qrcode_` and `.png` in the name of item `i` is the decimal numeral of `i`, without a leading zero |
| `Cli.ItemNamesDistinct` | qr_generator_cli.py:85-87 | Different counters give different batch names |
| `Cli.ItemPathsDistinct` | qr_generator_cli.py:87-88 | Different counters give different paths in the same save directory |
| `Cli.ItemResult` | qr_generator_cli.py:87-88 | Generating item `k` under its batch name writes `join(save_dir, "qrcode_<k+1>.png")`, or fails |
| `Cli.BatchPathsStep` | qr_generator_cli.py:85-93 | Handling one more item extends the batch result by that item's path if its generation succeeds, and by nothing otherwise |
| `Cli.Successes` | qr_generator_cli.py:85-93 | The successful positions are increasing, all succeed, and include every position that succeeds |
| `Cli.CollectIsSuccesses` | qr_generator_cli.py:85-94 | What the loop collects is, in order, the path of each successful position and nothing else |
| `Cli.BatchPathsAreSuccesses` | qr_generator_cli.py:77-94 | The batch result lists, in input order, the paths of exactly the items whose generation succeeded; a failure does not stop later items, and the result is at most as long as the input |
| `Cli.CollectDistinct` | qr_generator_cli.py:85-89 | If distinct positions have distinct paths, the collected list has no repeats |
| `Cli.BatchPathsDistinct` | qr_generator_cli.py:85-89 | No batch path appears twice, so no item overwrites another |
| `Cli.NonBlankStripped` | qr_generator_cli.py:82 | The kept lines are non-empty and stripped, and there are no more of them than input lines |
| `Cli.NonBlankStrippedIsCollect` | qr_generator_cli.py:82 | The comprehension is the loop over the lines that keeps the stripped line at each position where it is not blank |
| `Cli.NonBlankStrippedLines` | qr_generator_cli.py:82 | The kept lines are, in order, the stripped forms of exactly the lines that are not blank |
| `Cli.NonBlankStrippedIdempotent` | qr_generator_cli.py:82 | Filtering an already filtered list changes nothing |
| `Cli.FileUrls` | qr_generator_cli.py:80-82 | The URLs of a file are non-empty and stripped, and there are no more of them than the file has lines |
| `Cli.FileUrlsOfLines` | qr_generator_cli.py:80-82 | For a file made of lines separated by newlines, the URLs are exactly its stripped non-blank lines, in file order |
| `Cli.BatchItems` | qr_generator_cli.py:79-85 | A list is used as given; a string that names a file yields the URLs of that file; a string that names no file yields its characters, item `k` being the one-character string at position `k` |
| `Cli.BatchGenerate` | qr_generator_cli.py:66-94 | The returned list equals the batch result over the items (list, file lines or characters) |
| `Cli.TryGenerateItem` | qr_generator_cli.py:86-92 | One pass of the loop body turns the paths collected for the first `i` items into the paths collected for the first `i + 1` items; a failure appends nothing and does not raise |
| `Cli.ArgvRequest` | qr_generator_cli.py:106-109 | Argument mode applies exactly when there is an argument: the URL is `argv[1]`, and the file name is `argv[2]` if present, else None |
| `Cli.PromptedFilename` | qr_generator_cli.py:130-131 | A blank prompted name becomes None; any other name becomes its stripped, non-empty text |
| `Cli.UrlsBeforeBlankOf` | qr_generator_cli.py:151-156 | A list that matches the stripped lines one by one up to a blank line is the list of stripped lines before the first blank one |
| `Cli.ReadManualUrls` | qr_generator_cli.py:151-156 | The loop ends normally exactly when some line is blank; then it has collected the stripped lines before the first blank line, all non-empty, and the rest of the input begins after that blank line |
| `Cli.Run` | qr_generator_cli.py:106-165 | Argument mode returns the generated path, or failure with exit status 1. Standard input that runs out at any prompt ends the run. Each menu choice does its work as above. Manual entry ends the input, refuses an empty list without generating anything, or returns the batch result of the entered URLs. An unknown choice is reported |

## Left out

- The `qrcode` library (symbol construction under ISO/IEC 18004: version fitting, Reed–Solomon error correction, module placement, `make_image`) is foreign code. It is folded into the `backend` parameter together with `os.makedirs` and `img.save`. The model therefore treats encoding as deterministic by construction and does not prove it.
- PIL image I/O: `show_preview` (thumbnail, LANCZOS resampling), and `Image.open` and `save` in `save_as`.
- Tkinter widget construction, styles, the scroll canvas, mouse-wheel handling, message boxes, file dialogs, the `set_url` and `set_phone` helpers, and `open_folder` (`os.startfile`). These are UI and OS calls. The widgets' text becomes `Form` and `Settings` values.
- The clock: the timestamp is a string parameter, including the text the form's file name entry starts with.
- `urllib.parse.quote` is uninterpreted. No percent-encoding facts are proved, and the round-trip lemmas assume the quoted text has no `&`.
- Python `float()` is the uninterpreted predicate `isNumber`. No floating-point values are modelled.
- `Gui.QrCodeGeneratorGui.GenerateWifiQr`: an encryption value outside the map raises `KeyError` out of the button callback. The model treats that the same as a refused entry: neither field changes.
- Console I/O: `print` output is dropped, and `input` is read from a given sequence of lines. The final "press Enter to exit" prompt and the traceback on end of input at that prompt are not modelled. `sys.exit(1)` is the outcome `Failed(1)`.
- `Filenames.PathJoin`: models POSIX `os.path.join`. Windows path rules (drive letters, `\` separators) are not modelled.
- `Numerals.ParseInt`: accepts plain ASCII digit strings only. Python's `int()` also accepts a sign, surrounding white space and underscores. The size combobox is read-only, and its four values are plain digits.
- `Cli.FileUrls`: splits the file text at `\n` and `\r`, which is how Python's universal-newline reading splits it. Encodings and file-decoding errors are not modelled.
- `Cli.Run`: assumes `isFile` gives the same answer to `main` and to `batch_generate`. Between the two checks, the file system is taken not to change.
