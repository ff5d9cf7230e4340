/**
 * The shapes a SendGrid Web API v2 payload is built from, and the pure rules
 * the payload's setters and its finalisation follow: which field a recipient
 * list or an attachment lands in, how the nested `filters` option is updated,
 * how the `x-smtpapi` option blob is merged and encoded, and how the
 * `Message-ID` header is found or made.
 */
module PayloadFields {
  import opened Wrappers
  import opened Text
  import opened JsonData
  import CI = CaseInsensitive

  type Bytes = seq<bv8>

  /** An address as the generic message gives it: display name (`""` when absent), bare address, and the formatted `Name <addr>` form. */
  datatype EmailAddress = EmailAddress(name: string, email: string, address: string)

  /** An attachment: name (`""` when absent), content, MIME type, and for inline parts the content-id. */
  datatype Attachment = Attachment(name: string, content: Bytes, mimetype: string, inline: bool, cid: string)

  /** One multipart file part: `(filename, content, mimetype)`. */
  datatype FilePart = FilePart(filename: string, content: Bytes, mimetype: string)

  /** The three recipient kinds `set_recipients` accepts; the type rules out any other. */
  datatype RecipientType = To | Cc | Bcc

  /** A value in the payload's field table: a plain value, or the case-insensitive header dict. */
  datatype Field = Plain(value: Json) | HeaderTable(table: CI.Table<Json>)

  /** A Python TypeError, AttributeError or ValueError: the named field was used as a dict but is not one. */
  datatype Fault = NotAMapping(field: string)

  const HeadersKey := "headers"
  const SmtpApiKey := "x-smtpapi"
  const MessageIdHeader := "Message-ID"

  // ---------------------------------------------------------------------
  // Fields that act as dicts (the header table, or a dict put there by esp_extra)
  // ---------------------------------------------------------------------

  predicate IsMapping(f: Field)
  {
    f.HeaderTable? || f.value.JObject?
  }

  /** Whether `f` takes keys `a` and `b` for the same key: ignoring case in the header table, exactly in a plain dict. */
  predicate SameKey(f: Field, a: string, b: string)
  {
    if f.HeaderTable? then Lower(a) == Lower(b) else a == b
  }

  /** `f[key]`, `None` standing for KeyError. */
  function Lookup(f: Field, key: string): Option<Json>
    requires IsMapping(f)
  {
    if f.HeaderTable? then CI.Get(f.table, key)
    else if key in f.value.fields then Some(f.value.fields[key]) else None
  }

  /** Keys the field takes for the same key find the same value. */
  lemma LookupSameKey(f: Field, a: string, b: string)
    requires IsMapping(f) && SameKey(f, a, b)
    ensures Lookup(f, a) == Lookup(f, b)
  {
  }

  /** `dict(f.items())`. */
  function Contents(f: Field): (d: map<string, Json>)
    requires IsMapping(f)
    ensures forall k :: k in d ==> Lookup(f, k) == Some(d[k])
  {
    if f.HeaderTable? then CI.Items(f.table) else f.value.fields
  }

  /** `f[key] = v`. */
  function Store(f: Field, key: string, v: Json): (r: Field)
    requires IsMapping(f)
    ensures IsMapping(r) && r.HeaderTable? == f.HeaderTable?
    ensures Lookup(r, key) == Some(v)
    ensures forall k :: !SameKey(f, k, key) ==> Lookup(r, k) == Lookup(f, k)
    ensures key in Contents(r) && Contents(r)[key] == v
  {
    if f.HeaderTable? then HeaderTable(CI.Put(f.table, key, v))
    else Plain(JObject(f.value.fields[key := v]))
  }

  /** The value a field holds, as handed to the JSON encoder. */
  function AsJson(f: Field): Json
  {
    if f.HeaderTable? then JObject(CI.Items(f.table)) else f.value
  }

  // ---------------------------------------------------------------------
  // Extra headers
  // ---------------------------------------------------------------------

  /** `str(v) if isinstance(v, (int, float)) else v`; Python counts a `bool` as an `int`. */
  function CoercedHeaderValue(v: Json): (r: Json)
    ensures v.JInt? ==> r.JStr? && IntOfStr(r.s) == v.i
    ensures v.JBool? ==> r == JStr(if v.b then "True" else "False")
    ensures !v.JInt? && !v.JBool? ==> r == v
  {
    match v
    case JInt(i) => StrOfIntRoundTrip(i); JStr(StrOfInt(i))
    case JBool(b) => JStr(if b then "True" else "False")
    case _ => v
  }

  /** The items of a Python dict: no key twice. */
  predicate DistinctKeys(items: seq<(string, Json)>)
  {
    forall i, j :: 0 <= i < j < |items| ==> items[i].0 != items[j].0
  }

  /** `f.update({k: coerced(v) for k, v in items})`, one item after another. */
  function UpdateHeaders(f: Field, items: seq<(string, Json)>): (r: Field)
    requires IsMapping(f)
    ensures IsMapping(r) && r.HeaderTable? == f.HeaderTable?
    decreases |items|
  {
    if items == [] then f
    else
      var last := items[|items| - 1];
      Store(UpdateHeaders(f, items[..|items| - 1]), last.0, CoercedHeaderValue(last.1))
  }

  /** After the update, a key the items name holds the (coerced) value of the last item that names it. */
  lemma {:induction false} UpdateHeadersLastWins(f: Field, items: seq<(string, Json)>, key: string, j: int)
    requires IsMapping(f)
    requires 0 <= j < |items| && SameKey(f, items[j].0, key)
    requires forall j' :: j < j' < |items| ==> !SameKey(f, items[j'].0, key)
    ensures Lookup(UpdateHeaders(f, items), key) == Some(CoercedHeaderValue(items[j].1))
    decreases |items|
  {
    var n := |items|;
    var prefix := items[..n - 1];
    if j < n - 1 {
      assert forall j' :: j < j' < |prefix| ==> !SameKey(f, prefix[j'].0, key) by {
        forall j' | j < j' < |prefix| ensures !SameKey(f, prefix[j'].0, key) {
          assert prefix[j'] == items[j'];
        }
      }
      assert prefix[j] == items[j];
      UpdateHeadersLastWins(f, prefix, key, j);
      UpdateHeadersLastOther(f, items, key);
    } else {
      UpdateHeadersLastSame(f, items, key);
    }
  }

  /** A key the last item does not name is whatever the earlier items left it. */
  lemma UpdateHeadersLastOther(f: Field, items: seq<(string, Json)>, key: string)
    requires IsMapping(f) && items != [] && !SameKey(f, items[|items| - 1].0, key)
    ensures Lookup(UpdateHeaders(f, items), key) == Lookup(UpdateHeaders(f, items[..|items| - 1]), key)
  {
    var last := items[|items| - 1];
    var before := UpdateHeaders(f, items[..|items| - 1]);
    assert !SameKey(before, key, last.0);
  }

  /** A key the last item names holds that item's coerced value. */
  lemma UpdateHeadersLastSame(f: Field, items: seq<(string, Json)>, key: string)
    requires IsMapping(f) && items != [] && SameKey(f, items[|items| - 1].0, key)
    ensures Lookup(UpdateHeaders(f, items), key) == Some(CoercedHeaderValue(items[|items| - 1].1))
  {
    var last := items[|items| - 1];
    var before := UpdateHeaders(f, items[..|items| - 1]);
    LookupSameKey(Store(before, last.0, CoercedHeaderValue(last.1)), last.0, key);
  }

  /** After the update, a key no item names is as it was. */
  lemma {:induction false} UpdateHeadersKeepsOthers(f: Field, items: seq<(string, Json)>, key: string)
    requires IsMapping(f)
    requires forall j :: 0 <= j < |items| ==> !SameKey(f, items[j].0, key)
    ensures Lookup(UpdateHeaders(f, items), key) == Lookup(f, key)
    decreases |items|
  {
    if items != [] {
      var n := |items|;
      var prefix := items[..n - 1];
      assert forall j :: 0 <= j < |prefix| ==> prefix[j] == items[j];
      UpdateHeadersKeepsOthers(f, prefix, key);
      UpdateHeadersLastOther(f, items, key);
    }
  }

  // ---------------------------------------------------------------------
  // Sender and recipients
  // ---------------------------------------------------------------------

  /** The field a recipient list is written to. */
  function RecipientField(kind: RecipientType): string
  {
    match kind
    case To => "to"
    case Cc => "cc"
    case Bcc => "bcc"
  }

  /** The field the parallel display-name list is written to: `<type>name`. */
  function RecipientNameField(kind: RecipientType): string
  {
    RecipientField(kind) + "name"
  }

  /** The six names the recipient setters write are all distinct. */
  lemma RecipientFieldsDistinct(a: RecipientType, b: RecipientType)
    ensures RecipientField(a) != RecipientNameField(b)
    ensures RecipientField(a) == RecipientField(b) <==> a == b
    ensures RecipientNameField(a) == RecipientNameField(b) <==> a == b
  {
    assert RecipientNameField(a)[..|RecipientField(a)|] == RecipientField(a);
    assert RecipientNameField(b)[..|RecipientField(b)|] == RecipientField(b);
  }

  /**
   * What `set_recipients` leaves in the table for one kind: the parallel address and
   * name lists for a non-empty list, neither field for an empty one.
   */
  predicate RecipientsWritten(data: map<string, Field>, kind: RecipientType, emails: seq<EmailAddress>)
  {
    if emails == [] then RecipientField(kind) !in data && RecipientNameField(kind) !in data
    else
      && RecipientField(kind) in data && data[RecipientField(kind)] == Plain(StrList(Addresses(emails)))
      && RecipientNameField(kind) in data && data[RecipientNameField(kind)] == Plain(StrList(DisplayNames(emails)))
  }

  /** Writing the fields of another kind keeps what one kind's setter wrote. */
  lemma RecipientsWrittenKept(d: map<string, Field>, d': map<string, Field>, kind: RecipientType,
                              emails: seq<EmailAddress>, other: RecipientType)
    requires kind != other && RecipientsWritten(d, kind, emails)
    requires forall k :: k != RecipientField(other) && k != RecipientNameField(other) ==>
               (k in d' <==> k in d) && (k in d' ==> d'[k] == d[k])
    ensures RecipientsWritten(d', kind, emails)
  {
    RecipientFieldsDistinct(kind, other);
    RecipientFieldsDistinct(other, kind);
  }

  /** A table with an empty header dict and neither a sender nor an option blob. */
  predicate NoSenderNoOptions(d: map<string, Field>)
  {
    HeadersKey in d && d[HeadersKey] == HeaderTable(CI.Empty()) && "from" !in d && SmtpApiKey !in d
  }

  /** The recipient setters keep a table free of sender and options. */
  lemma NoSenderNoOptionsKept(d: map<string, Field>, d': map<string, Field>, kind: RecipientType)
    requires NoSenderNoOptions(d)
    requires forall k :: k != RecipientField(kind) && k != RecipientNameField(kind) ==>
               (k in d' <==> k in d) && (k in d' ==> d'[k] == d[k])
    ensures NoSenderNoOptions(d')
  {
    RecipientFieldsAvoid(kind);
  }

  /** The recipient setters never write the header, sender or option fields. */
  lemma RecipientFieldsAvoid(kind: RecipientType)
    ensures RecipientField(kind) != HeadersKey && RecipientNameField(kind) != HeadersKey
    ensures RecipientField(kind) != SmtpApiKey && RecipientNameField(kind) != SmtpApiKey
    ensures RecipientField(kind) != "from" && RecipientNameField(kind) != "from"
  {
    assert RecipientNameField(kind)[0] == RecipientField(kind)[0];
    assert HeadersKey[0] == 'h' && SmtpApiKey[0] == 'x' && "from"[0] == 'f';
  }

  /** `[email.email for email in emails]`. */
  function Addresses(emails: seq<EmailAddress>): (r: seq<string>)
    ensures |r| == |emails|
    ensures forall i :: 0 <= i < |emails| ==> r[i] == emails[i].email
  {
    seq(|emails|, i requires 0 <= i < |emails| => emails[i].email)
  }

  /** `[email.name or " " for email in emails]`: SendGrid refuses empty name fields. */
  function DisplayNames(emails: seq<EmailAddress>): (r: seq<string>)
    ensures |r| == |emails|
    ensures forall i :: 0 <= i < |emails| ==> r[i] != ""
    ensures forall i :: 0 <= i < |emails| ==> emails[i].name != "" ==> r[i] == emails[i].name
    ensures forall i :: 0 <= i < |emails| ==> emails[i].name == "" ==> r[i] == " "
  {
    seq(|emails|, i requires 0 <= i < |emails| => if emails[i].name != "" then emails[i].name else " ")
  }

  /** The full addresses, comma-separated, for the Reply-To header. */
  function ReplyTo(emails: seq<EmailAddress>): string
  {
    Join(seq(|emails|, i requires 0 <= i < |emails| => emails[i].address), ", ")
  }

  /** Every reply-to address, name included, appears in the header value. */
  lemma ReplyToNamesEveryone(emails: seq<EmailAddress>, i: int)
    requires 0 <= i < |emails|
    ensures Contains(ReplyTo(emails), emails[i].address)
  {
    var parts := seq(|emails|, i requires 0 <= i < |emails| => emails[i].address);
    JoinContainsPart(parts, ", ", i);
  }

  // ---------------------------------------------------------------------
  // Attachments
  // ---------------------------------------------------------------------

  /** The name an attachment goes by: its own name, else (inline only) its content-id, else `""`. */
  function AttachmentFilename(a: Attachment): (fn: string)
    ensures a.name != "" ==> fn == a.name
    ensures a.name == "" && a.inline ==> fn == a.cid
    ensures a.name == "" && !a.inline ==> fn == ""
  {
    if a.name == "" && a.inline then a.cid else a.name
  }

  /** `"files[%s]" % filename`. */
  function FilesKey(filename: string): string
  {
    "files[" + filename + "]"
  }

  /** `"content[%s]" % filename`. */
  function ContentKey(filename: string): (k: string)
    ensures k != HeadersKey
  {
    assert ("content[" + filename + "]")[0] == 'c';
    "content[" + filename + "]"
  }

  /** The filename inside a files key. */
  function FilenameOfFilesKey(key: string): string
    requires |key| >= 7
  {
    key[6..|key| - 1]
  }

  /** Reading the filename back out of its files key gives the filename. */
  lemma FilesKeyRoundTrip(filename: string)
    ensures |FilesKey(filename)| >= 7 && FilenameOfFilesKey(FilesKey(filename)) == filename
  {
    var k := FilesKey(filename);
    assert k[6..|k| - 1] == filename;
  }

  /** Two attachments collide in the files table exactly when their filenames are equal. */
  lemma FilesKeyInjective(a: string, b: string)
    ensures FilesKey(a) == FilesKey(b) <==> a == b
  {
    FilesKeyRoundTrip(a);
    FilesKeyRoundTrip(b);
  }

  /** The unsupported-feature message for a files key already taken. */
  function DuplicateAttachmentMessage(filename: string): (msg: string)
    ensures filename != "" ==> Contains(msg, filename)
    ensures filename == "" ==> msg == "multiple unnamed attachments"
  {
    if filename != "" then
      var prefix := "multiple attachments with the same filename ('";
      var msg := prefix + filename + "')";
      assert filename <= msg[|prefix|..];
      msg
    else "multiple unnamed attachments"
  }

  // ---------------------------------------------------------------------
  // The x-smtpapi options
  // ---------------------------------------------------------------------

  /** `int(x)` for a Python float: truncation toward zero. */
  function Truncate(x: real): (n: int)
    ensures 0.0 <= x ==> 0 <= n && n as real <= x < n as real + 1.0
    ensures x < 0.0 ==> n <= 0 && n as real - 1.0 < x <= n as real
  {
    if x >= 0.0 then x.Floor else -((-x).Floor)
  }

  /** `0` or `1` for a tracking flag, as `int(flag)` gives. */
  function FlagValue(flag: bool): (j: Json)
    ensures j.JInt? && (j.i == 1 <==> flag) && (j.i == 0 <==> !flag)
  {
    JInt(if flag then 1 else 0)
  }

  /** `d.setdefault(key, {})` when what it yields is a dict; `None` when the value found is not one, where Python's next `setdefault` raises. */
  function SubObject(d: map<string, Json>, key: string): (r: Option<map<string, Json>>)
    ensures key !in d ==> r == Some(map[])
    ensures key in d ==> (r.Some? <==> d[key].JObject?)
    ensures key in d && r.Some? ==> r.value == d[key].fields
  {
    if key !in d then Some(map[])
    else if d[key].JObject? then Some(d[key].fields)
    else None
  }

  /** `d[key]` when it is present and a dict. */
  function Child(d: map<string, Json>, key: string): Option<map<string, Json>>
  {
    if key in d && d[key].JObject? then Some(d[key].fields) else None
  }

  /** `options["filters"][name]["settings"][setting]`, when every step exists and is a dict. */
  function FilterSetting(options: map<string, Json>, name: string, setting: string): Option<Json>
  {
    match Child(options, "filters")
    case None => None
    case Some(filters) =>
      match Child(filters, name)
      case None => None
      case Some(filter) =>
        match Child(filter, "settings")
        case None => None
        case Some(settings) => if setting in settings then Some(settings[setting]) else None
  }

  /** The `filters` dict of the options, empty when there is none (or it is not a dict). */
  function FiltersOf(options: map<string, Json>): map<string, Json>
  {
    if "filters" in options && options["filters"].JObject? then options["filters"].fields else map[]
  }

  /** The dict of filter `name`, empty when there is none (or it is not a dict). */
  function FilterOf(options: map<string, Json>, name: string): map<string, Json>
  {
    var filters := FiltersOf(options);
    if name in filters && filters[name].JObject? then filters[name].fields else map[]
  }

  /** Every step of every `filters` path that exists is a dict. */
  predicate FiltersWellFormed(options: map<string, Json>)
  {
    "filters" in options ==>
      && options["filters"].JObject?
      && forall name :: name in options["filters"].fields ==>
           && options["filters"].fields[name].JObject?
           && ("settings" in options["filters"].fields[name].fields ==>
                 options["filters"].fields[name].fields["settings"].JObject?)
  }

  /**
   * `options.setdefault('filters', {}).setdefault(name, {}).setdefault('settings', {})[setting] = val`.
   * `None` when a step finds a value that is not a dict (Python raises before changing anything).
   */
  function SetFilter(options: map<string, Json>, name: string, setting: string, val: Json): (r: Option<map<string, Json>>)
    ensures FiltersWellFormed(options) ==> r.Some? && FiltersWellFormed(r.value)
    ensures r.Some? ==> FilterSetting(r.value, name, setting) == Some(val)
    ensures r.Some? ==> forall n, s :: n != name || s != setting ==>
              FilterSetting(r.value, n, s) == FilterSetting(options, n, s)
    ensures r.Some? ==> r.value.Keys == options.Keys + {"filters"}
    ensures r.Some? ==> forall k :: k in options && k != "filters" ==> r.value[k] == options[k]
    ensures r.Some? ==> r.value["filters"] == JObject(FiltersOf(r.value))
    ensures r.Some? ==> FiltersOf(r.value).Keys == FiltersOf(options).Keys + {name}
    ensures r.Some? ==> forall n :: n in FiltersOf(options) && n != name ==>
              FiltersOf(r.value)[n] == FiltersOf(options)[n]
    ensures r.Some? ==> FiltersOf(r.value)[name] == JObject(FilterOf(r.value, name))
    ensures r.Some? ==> FilterOf(r.value, name).Keys == FilterOf(options, name).Keys + {"settings"}
    ensures r.Some? ==> forall k :: k in FilterOf(options, name) && k != "settings" ==>
              FilterOf(r.value, name)[k] == FilterOf(options, name)[k]
  {
    match SubObject(options, "filters")
    case None => None
    case Some(filters) =>
      match SubObject(filters, name)
      case None => None
      case Some(filter) =>
        match SubObject(filter, "settings")
        case None => None
        case Some(settings) =>
          Some(options["filters" := JObject(filters[name := JObject(filter["settings" := JObject(settings[setting := val])])])])
  }

  /** `base.update(override)`: a shallow merge in which the override wins; nested dicts are replaced, not merged. */
  function ShallowMerge(base: map<string, Json>, override: map<string, Json>): (r: map<string, Json>)
    ensures r.Keys == base.Keys + override.Keys
    ensures forall k :: k in override ==> r[k] == override[k]
    ensures forall k :: k in base && k !in override ==> r[k] == base[k]
  {
    base + override
  }

  /**
   * Step one of `serialize_data`: encode the option blob into the `x-smtpapi` field,
   * after merging any `x-smtpapi` value `esp_extra` put there. Yields the new
   * option dict and the new field table.
   */
  function EncodeOptions(options: map<string, Json>, data: map<string, Field>, encode: Json -> string)
    : (r: Result<(map<string, Json>, map<string, Field>), Fault>)
    ensures r.Err? <==> |options| > 0 && SmtpApiKey in data && !IsMapping(data[SmtpApiKey])
    ensures r.Ok? ==> r.value.1.Keys == data.Keys + (if |options| > 0 then {SmtpApiKey} else {})
    ensures r.Ok? ==> forall k :: k in data && k != SmtpApiKey ==> r.value.1[k] == data[k]
    ensures r.Ok? && |options| > 0 ==>
              && r.value.0 == (if SmtpApiKey in data then ShallowMerge(options, Contents(data[SmtpApiKey])) else options)
              && r.value.1[SmtpApiKey] == Plain(JStr(encode(JObject(r.value.0))))
    ensures r.Ok? && |options| == 0 ==>
              && r.value.0 == options
              && (SmtpApiKey in data ==> r.value.1[SmtpApiKey] == Plain(JStr(encode(AsJson(data[SmtpApiKey])))))
  {
    if |options| > 0 then
      if SmtpApiKey in data then
        var extra := data[SmtpApiKey];
        if IsMapping(extra) then
          var merged := ShallowMerge(options, Contents(extra));
          Ok((merged, data[SmtpApiKey := Plain(JStr(encode(JObject(merged))))]))
        else Err(NotAMapping(SmtpApiKey))
      else Ok((options, data[SmtpApiKey := Plain(JStr(encode(JObject(options))))]))
    else if SmtpApiKey in data then
      Ok((options, data[SmtpApiKey := Plain(JStr(encode(AsJson(data[SmtpApiKey]))))]))
    else Ok((options, data))
  }

  // ---------------------------------------------------------------------
  // Message-ID
  // ---------------------------------------------------------------------

  /**
   * The domain `make_message_id` hands to the id generator: the text after the `@`
   * when `from` is a string with exactly one `@`; otherwise `None` (the KeyError,
   * AttributeError or ValueError of the split is swallowed).
   */
  function MessageIdDomain(data: map<string, Field>): (d: Option<string>)
    ensures d.Some? <==>
              "from" in data && data["from"].Plain? && data["from"].value.JStr? && CountOf(data["from"].value.s, '@') == 1
    ensures d.Some? ==>
              && '@' !in d.value
              && exists local :: '@' !in local && data["from"].value.s == local + "@" + d.value
  {
    if "from" in data && data["from"].Plain? && data["from"].value.JStr? then
      var s := data["from"].value.s;
      var parts := Split(s, '@');
      SplitCount(s, '@');
      if |parts| == 2 then
        SplitOnce(s, '@');
        Some(parts[1])
      else None
    else None
  }

  /** A sender `local@domain`, with no other `@`, gives exactly `domain` (so `alice@example.com` gives `example.com`). */
  lemma SenderDomain(data: map<string, Field>, local: string, domain: string)
    requires '@' !in local && '@' !in domain
    requires "from" in data && data["from"] == Plain(JStr(local + "@" + domain))
    ensures MessageIdDomain(data) == Some(domain)
  {
    SplitAround(local, '@', domain);
    SplitCount(local + "@" + domain, '@');
  }

  /**
   * Step two of `serialize_data`: the `Message-ID` header if one is present, else
   * `generated`, which is then stored in the headers. Yields the id and the headers.
   */
  function ResolveMessageId(headers: Field, generated: Json): (r: Result<(Json, Field), Fault>)
    ensures r.Err? <==> !IsMapping(headers)
    ensures r.Ok? ==> IsMapping(r.value.1) && Lookup(r.value.1, MessageIdHeader) == Some(r.value.0)
    ensures r.Ok? && Lookup(headers, MessageIdHeader).Some? ==>
              r.value == (Lookup(headers, MessageIdHeader).value, headers)
    ensures r.Ok? && Lookup(headers, MessageIdHeader).None? ==>
              && r.value.0 == generated
              && r.value.1 == Store(headers, MessageIdHeader, generated)
              && Contents(r.value.1)[MessageIdHeader] == generated
  {
    if !IsMapping(headers) then Err(NotAMapping(HeadersKey))
    else
      match Lookup(headers, MessageIdHeader)
      case Some(id) => Ok((id, headers))
      case None => Ok((generated, Store(headers, MessageIdHeader, generated)))
  }

  /** What `serialize_data` reads and writes. */
  datatype Snapshot = Snapshot(data: map<string, Field>, smtpapi: map<string, Json>, messageId: Json)

  /**
   * `serialize_data`: encode the options, resolve the Message-ID, encode the headers.
   * Yields the request body (or the fault raised) and the state left behind; a fault
   * in the headers step leaves the options step done, as in Python.
   */
  function Serialize(s: Snapshot, encode: Json -> string, makeMsgid: Option<string> -> string)
    : (out: (Result<map<string, Field>, Fault>, Snapshot))
    requires HeadersKey in s.data
    ensures out.0.Ok? ==> out.0.value == out.1.data && HeadersKey in out.1.data
    ensures out.0.Ok? ==>
              && EncodeOptions(s.smtpapi, s.data, encode).Ok?
              && out.1.smtpapi == EncodeOptions(s.smtpapi, s.data, encode).value.0
              && out.1.data.Keys == EncodeOptions(s.smtpapi, s.data, encode).value.1.Keys
              && forall k :: k in out.1.data && k != HeadersKey ==>
                   out.1.data[k] == EncodeOptions(s.smtpapi, s.data, encode).value.1[k]
  {
    match EncodeOptions(s.smtpapi, s.data, encode)
    case Err(f) => (Err(f), s)
    case Ok((options, data1)) =>
      var s1 := Snapshot(data1, options, s.messageId);
      var generated := JStr(makeMsgid(MessageIdDomain(data1)));
      match ResolveMessageId(data1[HeadersKey], generated)
      case Err(f) => (Err(f), s1)
      case Ok((id, headers)) =>
        var data2 := data1[HeadersKey := Plain(JStr(encode(JObject(Contents(headers)))))];
        (Ok(data2), Snapshot(data2, options, id))
  }

  /**
   * After a successful `serialize_data` the payload's message id is the headers'
   * `Message-ID`: the one supplied (looked up without regard to case in the header
   * table) kept as it is, or else one made from the sender's domain and written into
   * the encoded headers.
   */
  lemma SerializeMessageId(s: Snapshot, encode: Json -> string, makeMsgid: Option<string> -> string)
    requires HeadersKey in s.data
    ensures var (r, t) := Serialize(s, encode, makeMsgid);
      var h := s.data[HeadersKey];
      r.Ok? ==>
        && IsMapping(h)
        && (Lookup(h, MessageIdHeader).Some? ==>
              && t.messageId == Lookup(h, MessageIdHeader).value
              && t.data[HeadersKey] == Plain(JStr(encode(JObject(Contents(h))))))
        && (Lookup(h, MessageIdHeader).None? ==>
              && t.messageId == JStr(makeMsgid(MessageIdDomain(s.data)))
              && t.data[HeadersKey] == Plain(JStr(encode(JObject(Contents(Store(h, MessageIdHeader, t.messageId)))))))
  {
    match EncodeOptions(s.smtpapi, s.data, encode)
    case Err(_) =>
    case Ok((options, data1)) =>
      assert data1[HeadersKey] == s.data[HeadersKey];
      assert MessageIdDomain(data1) == MessageIdDomain(s.data) by {
        assert ("from" in data1) == ("from" in s.data);
        if "from" in s.data {
          assert data1["from"] == s.data["from"];
        }
      }
  }

  /** `serialize_data` fails exactly when a value it must treat as a dict is not one. */
  lemma SerializeFails(s: Snapshot, encode: Json -> string, makeMsgid: Option<string> -> string)
    requires HeadersKey in s.data
    ensures Serialize(s, encode, makeMsgid).0.Err? <==>
              || (|s.smtpapi| > 0 && SmtpApiKey in s.data && !IsMapping(s.data[SmtpApiKey]))
              || !IsMapping(s.data[HeadersKey])
  {
    match EncodeOptions(s.smtpapi, s.data, encode)
    case Err(_) =>
    case Ok((options, data1)) =>
      assert data1[HeadersKey] == s.data[HeadersKey];
  }

  /**
   * A payload with no options, no `x-smtpapi`, no sender and no headers serialises
   * without fault, and its Message-ID is made with no domain.
   */
  lemma SerializeBare(s: Snapshot, encode: Json -> string, makeMsgid: Option<string> -> string)
    requires s.smtpapi == map[] && NoSenderNoOptions(s.data)
    ensures Serialize(s, encode, makeMsgid).0.Ok?
    ensures Serialize(s, encode, makeMsgid).1.messageId == JStr(makeMsgid(None))
  {
    SerializeFails(s, encode, makeMsgid);
    SerializeMessageId(s, encode, makeMsgid);
  }
}
