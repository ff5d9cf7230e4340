# SendGrid Web API v2 payload and status model

This project models the SendGrid backend of django-anymail (`anymail/backends/sendgrid.py`)
in Dafny and proves properties of it.

- **`SendGridPayload`** turns a generic email message into the form fields of one
  `mail.send.json` request. The model is a class with the same mutable state:
  - `data`: the form-field table. Its `headers` entry is a case-insensitive dict until serialisation.
  - `files`: the multipart file parts.
  - `smtpapi`: the `x-smtpapi` option blob.
  - `allRecipients`: every recipient added, in order.
  - `messageId`: the Message-ID, resolved at serialisation.
  - `unsupported`: the unsupported-feature messages raised so far.

  Each setter is a method that changes exactly the fields the Python method changes.
  `SerializeData` is proved equal to a pure function, `PayloadFields.Serialize`. That function is
  built from three steps:
  - merge and encode the option blob;
  - find or make the `Message-ID` header;
  - encode the headers into one field.
- **`SendGridBackend.parse_recipient_status`** is the pure function `SendGrid.ParseRecipientStatus`.
  SendGrid's reply is all-or-nothing. A reply that is not a dict with a `message` entry is malformed.
  Any `message` other than the string `"success"` fails the whole send with SendGrid's errors.
  A `"success"` gives every recipient the status `queued` with the payload's Message-ID.

Modules:
- `Wrappers`: Option, Result, Outcome.
- `Text`: the Python string operations used: `lower`, `join`, `split`, `in`, `str(int)`.
- `JsonData`: the values the payload holds.
- `CaseInsensitive`: the `requests` case-insensitive dict.
- `PayloadFields`: the data model and the pure rules.
- `SendGrid`: the payload class and the status parser.

Some collaborators cannot be seen from this file, so they are parameters:
- `serialize_json` is the parameter `encode: Json -> string`.
- `django.core.mail.make_msgid` is `makeMsgid: Option<string> -> string`. It gets the sender's domain, or `None`.

A Python exception from using a non-dict where the code needs a dict becomes the `Fault` value
`NotAMapping(field)`. There are five places:
- `serialize_data` when `esp_extra` put a non-dict at `headers`. The `Message-ID` lookup subscripts
  it and raises a TypeError (`sendgrid.py:79`). Only KeyError is caught, so the store at line 81 is
  never reached.
- `serialize_data` when `esp_extra` put a non-dict at `x-smtpapi` and builder options exist. Then
  `self.smtpapi.update(...)` raises (`sendgrid.py:71`). A non-empty string gives a ValueError, and
  most other values give a TypeError. The empty string is the exception: see "## Left out".
- `set_reply_to` when `headers` is not a dict. The item assignment raises a TypeError
  (`sendgrid.py:131`).
- `set_extra_headers` when `headers` is not a dict. The `.update` call raises an AttributeError
  (`sendgrid.py:137`).
- `add_filter` when it meets a non-dict on its path. When `filters` or `filters[name]` is not a
  dict, the next `setdefault` raises an AttributeError. When `settings` is not a dict, the item
  assignment `[setting] = val` raises a TypeError (`sendgrid.py:181-183`). That fault is always reported as
  `NotAMapping("filters")`, whichever of `filters`, `filters[name]` or `settings` was not a dict.

The model keeps only the field involved, not the exception class.
`unsupported_feature` records its message and lets the setter carry on. By default the base class
raises instead, unless unsupported features are set to be ignored.

Behaviour worth knowing, all following the code:
- `set_extra_headers` turns a `bool` into `"True"` or `"False"`. Python counts `bool` as an `int`
  (`sendgrid.py:138`).
- When `esp_extra` replaced `headers` with a plain dict, the `Message-ID` lookup matches case exactly.
- A `message` entry of any type other than the string `"success"` is a send failure, not a format
  error. Only a missing entry, or a reply that is not a dict, is a format error (`sendgrid.py:35-43`).
- Errors given as a string are joined character by character, as `"; ".join` does.

## Model

| member | source | states |
|---|---|---|
| `Text.JoinContainsPart` | anymail/backends/sendgrid.py:42 | every string handed to `"; ".join` occurs in the joined text |
| `Text.SplitCount` | anymail/backends/sendgrid.py:92 | `split("@")` yields one more part than there are `@` characters |
| `Text.SplitPartsFree` | anymail/backends/sendgrid.py:92 | no part of a split contains the separator |
| `Text.JoinSplit` | anymail/backends/sendgrid.py:92 | joining the parts of a split with the separator gives back the text |
| `Text.SplitOnce` | anymail/backends/sendgrid.py:92 | a text with exactly one `@` unpacks into the part before it and the part after it |
| `Text.SplitFree` | anymail/backends/sendgrid.py:92 | a text with no `@` splits into itself alone |
| `Text.SplitAround` | anymail/backends/sendgrid.py:92 | `(a + "@" + b).split("@")` is `[a, b]` when neither half holds `@` |
| `Text.NatDigits` | anymail/backends/sendgrid.py:138 | `str()` of a non-negative `int` is a non-empty run of decimal digits, with no leading zero unless the number is 0 |
| `Text.StrOfIntRoundTrip` | anymail/backends/sendgrid.py:138 | `int(str(n)) == n`: the string an `int` header value becomes loses nothing |
| `JsonData.StrList` | anymail/backends/sendgrid.py:114-116 | a Python list of strings holds the strings in order |
| `JsonData.AsStringsOfStrList` | anymail/backends/sendgrid.py:114-116 | a list of strings reads back as the strings it was built from |
| `CaseInsensitive.Get` | anymail/backends/sendgrid.py:104 | a lookup finds an entry exactly when some stored key folds to the same key |
| `CaseInsensitive.Put` | anymail/backends/sendgrid.py:104 | storing makes the key find the value, leaves keys of other case-folding alone, and `items()` reports the key as last written |
| `CaseInsensitive.Items` | anymail/backends/sendgrid.py:82 | `dict(headers.items())` is keyed by the keys as last written, each mapping to its entry's value |
| `CaseInsensitive.GetIgnoresCase` | anymail/backends/sendgrid.py:104 | keys that differ only in case find the same header |
| `CaseInsensitive.ItemsCoverEntries` | anymail/backends/sendgrid.py:82 | every header shows up in the encoded dict |
| `PayloadFields.LookupSameKey` | anymail/backends/sendgrid.py:79 | the `Message-ID` lookup ignores case in the header dict |
| `PayloadFields.Store` | anymail/backends/sendgrid.py:81 | `headers[key] = v` makes `key` find `v`, keeps every other key, and puts `key` in `items()` |
| `PayloadFields.Contents` | anymail/backends/sendgrid.py:82 | every entry of `dict(headers.items())` is what a lookup of its key finds |
| `PayloadFields.CoercedHeaderValue` | anymail/backends/sendgrid.py:137-140 | an `int` becomes a string that reads back as the same number, a `bool` becomes `"True"`/`"False"`, anything else passes through |
| `PayloadFields.UpdateHeaders` | anymail/backends/sendgrid.py:137-140 | the header update keeps the header field a dict of the same kind |
| `PayloadFields.UpdateHeadersLastWins` | anymail/backends/sendgrid.py:137-140 | after the update a header holds the coerced value of the last item naming it, case ignored |
| `PayloadFields.UpdateHeadersKeepsOthers` | anymail/backends/sendgrid.py:137-140 | headers that no item names are unchanged |
| `PayloadFields.RecipientFieldsDistinct` | anymail/backends/sendgrid.py:112-116 | `to`, `cc`, `bcc` and their `…name` fields are six distinct fields, so one kind's setter never overwrites another's |
| `PayloadFields.RecipientFieldsAvoid` | anymail/backends/sendgrid.py:114-116 | the recipient setters never write `headers`, `x-smtpapi` or `from` |
| `PayloadFields.RecipientsWrittenKept` | anymail/backends/sendgrid.py:112-116 | writing another kind's two fields keeps one kind's address and name lists as they were |
| `PayloadFields.NoSenderNoOptionsKept` | anymail/backends/sendgrid.py:112-116 | the recipient setters keep a table with an empty header dict, no sender and no option blob in that state |
| `PayloadFields.Addresses` | anymail/backends/sendgrid.py:114 | the address list has one entry per recipient, in order |
| `PayloadFields.DisplayNames` | anymail/backends/sendgrid.py:115-116 | the name list runs parallel to the address list, holds the name when there is one and `" "` otherwise, and never holds `""` |
| `PayloadFields.ReplyToNamesEveryone` | anymail/backends/sendgrid.py:129-131 | every full reply-to address, display name included, appears in the single Reply-To header |
| `PayloadFields.AttachmentFilename` | anymail/backends/sendgrid.py:152-154 | the filename is the attachment's name, else the content-id when inline, else `""` |
| `PayloadFields.ContentKey` | anymail/backends/sendgrid.py:155-156 | the inline content field never overwrites the header field |
| `PayloadFields.FilesKeyRoundTrip` | anymail/backends/sendgrid.py:158 | the filename can be read back out of `files[<filename>]` |
| `PayloadFields.FilesKeyInjective` | anymail/backends/sendgrid.py:158-159 | two attachments collide in `files` exactly when their filenames are equal |
| `PayloadFields.DuplicateAttachmentMessage` | anymail/backends/sendgrid.py:163-165 | the duplicate message names the filename when it is non-empty, and is "multiple unnamed attachments" otherwise |
| `PayloadFields.Truncate` | anymail/backends/sendgrid.py:175 | `int()` of the timestamp truncates toward zero: less than one second off, never across zero |
| `PayloadFields.FlagValue` | anymail/backends/sendgrid.py:186 | a tracking flag is stored as `1` when set and `0` when not |
| `PayloadFields.SubObject` | anymail/backends/sendgrid.py:181-183 | `setdefault(key, {})` yields the dict found or a fresh one, and fails on a value that is not a dict |
| `PayloadFields.SetFilter` | anymail/backends/sendgrid.py:180-183 | the nested `setdefault` chain sets `filters[name].settings[setting]`; `filters` gains only `name`, every other filter stays whole, filter `name` gains only `settings` and keeps its other keys, every other setting and every other option is unchanged; it cannot fail on well-formed filters and keeps them well formed |
| `PayloadFields.ShallowMerge` | anymail/backends/sendgrid.py:71 | `update` is shallow: the union of keys, the override's value wherever both have a key |
| `PayloadFields.EncodeOptions` | anymail/backends/sendgrid.py:66-74 | with builder options and an `esp_extra` `x-smtpapi`, the merge with the override winning is encoded; with only the override, it is encoded as-is; with neither, no `x-smtpapi` field appears; it fails only on a non-dict override; no other field changes |
| `PayloadFields.MessageIdDomain` | anymail/backends/sendgrid.py:86-95 | the domain is present exactly when `from` is a string with exactly one `@`, and is then the `@`-free text after it |
| `PayloadFields.SenderDomain` | anymail/backends/sendgrid.py:91-95 | a sender `local@domain` gives exactly `domain` (`alice@example.com` gives `example.com`) |
| `PayloadFields.ResolveMessageId` | anymail/backends/sendgrid.py:77-81 | the id is the supplied `Message-ID`, headers untouched, or else the generated one, stored under `Message-ID`; either way the headers' `Message-ID` is the id; fails only when the header field is not a dict |
| `PayloadFields.Serialize` | anymail/backends/sendgrid.py:63-84 | on success the body returned is the field table left behind; the option blob left behind is the merged `x-smtpapi` of the first step; every field except `headers` is the one that step produced |
| `PayloadFields.SerializeMessageId` | anymail/backends/sendgrid.py:76-82 | after serialisation the message id is the supplied `Message-ID`, found without regard to case, or one made from the sender's domain and written into the encoded headers |
| `PayloadFields.SerializeFails` | anymail/backends/sendgrid.py:67-79 | serialisation fails exactly when a non-dict `x-smtpapi` must be merged or the header field is not a dict |
| `PayloadFields.SerializeBare` | anymail/backends/sendgrid.py:66-95 | with no options, no sender and no headers, serialisation succeeds and the id is made with no domain |
| `SendGrid.SendGridPayload.constructor` | anymail/backends/sendgrid.py:51-54 | a new payload has no recipients, no message id, no options, no files and only an empty header dict |
| `SendGrid.SendGridPayload.InitPayload` | anymail/backends/sendgrid.py:101-104 | the field table is reset to an empty case-insensitive header dict and the files to empty |
| `SendGrid.SendGridPayload.UnsupportedFeature` | anymail/backends/sendgrid.py:148 | the message is recorded after those already raised |
| `SendGrid.SendGridPayload.SetFromEmail` | anymail/backends/sendgrid.py:106-109 | `from` is always set; `fromname` only for a non-empty name, and is otherwise left as it was |
| `SendGrid.SendGridPayload.SetRecipients` | anymail/backends/sendgrid.py:111-117 | a non-empty list writes the parallel address and name lists and appends exactly those recipients, in order; every other field is left as it was; an empty list changes nothing; on a table without this kind's fields, the fields are then present exactly when the list is non-empty |
| `SendGrid.SendGridPayload.SetSubject` | anymail/backends/sendgrid.py:119-120 | the subject field is set and nothing else changes |
| `SendGrid.SendGridPayload.SetReplyTo` | anymail/backends/sendgrid.py:122-131 | a non-empty list stores one comma-joined Reply-To header; an empty list changes nothing |
| `SendGrid.SendGridPayload.SetExtraHeaders` | anymail/backends/sendgrid.py:133-140 | the header field becomes the in-order update by the coerced items; the loop keeps that equality at every step |
| `SendGrid.SendGridPayload.SetTextBody` | anymail/backends/sendgrid.py:142-143 | the text field is set and nothing else changes |
| `SendGrid.SendGridPayload.SetHtmlBody` | anymail/backends/sendgrid.py:145-149 | a second HTML body flags "multiple html parts", a first flags nothing, and the new body is stored either way |
| `SendGrid.SendGridPayload.AddAttachment` | anymail/backends/sendgrid.py:151-167 | the part goes under `files[<filename>]`, an inline part also sets `content[<filename>]` to its cid, and a key already taken flags the duplicate message |
| `SendGrid.SendGridPayload.SetMetadata` | anymail/backends/sendgrid.py:169-170 | the metadata becomes the `unique_args` option |
| `SendGrid.SendGridPayload.SetSendAt` | anymail/backends/sendgrid.py:172-175 | the truncated timestamp becomes the `send_at` option |
| `SendGrid.SendGridPayload.SetTags` | anymail/backends/sendgrid.py:177-178 | the tags become the `category` option |
| `SendGrid.SendGridPayload.AddFilter` | anymail/backends/sendgrid.py:180-183 | the options become `SetFilter` of the old options, or stay as they were when a step is not a dict |
| `SendGrid.SendGridPayload.SetTrackClicks` | anymail/backends/sendgrid.py:185-186 | on well-formed filters, `clicktrack.settings.enable` becomes 1 or 0 |
| `SendGrid.SendGridPayload.SetTrackOpens` | anymail/backends/sendgrid.py:188-192 | on well-formed filters, `opentrack.settings.enable` becomes 1 or 0 |
| `SendGrid.SendGridPayload.SetEspExtra` | anymail/backends/sendgrid.py:194-195 | the caller's fields are merged over the table, and the caller wins |
| `SendGrid.SendGridPayload.SerializeData` | anymail/backends/sendgrid.py:63-84 | the returned body and the state left behind are those of `Serialize`, including the partial state after a fault |
| `SendGrid.ParseRecipientStatus` | anymail/backends/sendgrid.py:33-46 | a format error exactly when the reply is not a dict with `message`; success exactly when `message` is `"success"`; then the keys are exactly the recipients' emails, each mapped to `queued` with the message id |
| `SendGrid.FailureNamesErrors` | anymail/backends/sendgrid.py:40-43 | a failure reply with a list of error strings fails with a text naming every one of them |
| `SendGrid.FailureWithoutErrors` | anymail/backends/sendgrid.py:41-42 | a failure reply with no `errors` entry fails with empty error text |
| `SendGrid.BuildRecipientPayload` | anymail/backends/sendgrid.py:111-117 | after the three recipient setters `allRecipients` is `to + cc + bcc`; each kind's address and name lists are present exactly when that kind's list is non-empty and survive the later setters; the headers, options and sender are untouched |
| `SendGrid.QueuedForEveryRecipient` | anymail/backends/sendgrid.py:44-46 | after a successful send, the statuses cover exactly the to, cc and bcc recipients, each `queued` with the resolved message id |
| `SendGrid.SecondHtmlBodyFlagged` | anymail/backends/sendgrid.py:145-149 | two HTML bodies flag exactly one unsupported feature, and the second body is sent |
| `SendGrid.SecondAttachmentFlagged` | anymail/backends/sendgrid.py:158-167 | two attachments are flagged exactly when their filenames are equal, and the later part is kept |

## Left out

- The HTTP transport, `get_api_endpoint` and the `Authorization: Bearer` header (`sendgrid.py:56-61`). These are plumbing in the base class.
- Settings loading through `get_anymail_setting`, the API URL's trailing slash, and the import-time `requests` check (`sendgrid.py:9-13`, `21-28`). These are configuration concerns.
- `serialize_json` is the parameter `encode`, and nothing is assumed about it.
- Response deserialisation is left out: `ParseRecipientStatus` takes the already-parsed reply, so the "invalid JSON" error of the base class is not modelled.
- `make_msgid` is the parameter `makeMsgid`, a function of the domain. Its format, its uniqueness and the local fallback domain are not modelled.
- The `timestamp()` conversion of a datetime is left out. `SetSendAt` takes the timestamp as an exact real, so float rounding is not modelled.
- Floating-point values are left out of `Json`, so `str()` of a float header value is not modelled.
- Case folding covers ASCII letters only. Python's `str.lower()` folds all of Unicode.
- JSON objects are maps, so key order in encoded output is not kept.
- `ParseRecipientStatus`: when `errors` is a dict, Python joins its keys in insertion order. The model keeps only the set of keys (`SendFailedWithKeys`) and not the text.
- `ParseRecipientStatus`: when `errors` cannot be joined, Python raises a TypeError whose text is not modelled (`ErrorsNotText`).
- `EncodeOptions`: Python's `dict.update` also accepts a list of key/value pairs, and the empty string, which it treats as an empty sequence and so adds nothing. The model treats every non-dict `x-smtpapi` override as a fault, these two included.
- `SetEspExtra`: `self.data.update(extra)` stores the caller's own `headers` dict in the payload, so the generated `Message-ID` written at `sendgrid.py:81` also lands in the caller's dict. The model works on values, so this aliasing is not captured: the caller's dict is unchanged in the model.
- The `assert recipient_type in ["to", "cc", "bcc"]` at `sendgrid.py:112` is not modelled. `RecipientType` has only those three values, so the AssertionError for any other string cannot arise.
- A Python `None` display name or attachment name is modelled as `""`. Python treats both as false.
- The `defaults` argument and the base class's order of setter calls are not modelled. `BuildRecipientPayload` drives only the recipient setters.
- The merge of `filters` stays shallow, as in the code (`sendgrid.py:71`). An `esp_extra` `filters` entry replaces the builder's whole `filters` dict.
