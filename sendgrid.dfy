/**
 * The SendGrid Web API v2 backend: `SendGridPayload`, which accumulates a
 * message's facets into the request's field table, file parts and `x-smtpapi`
 * option blob and then serialises them, and `ParseRecipientStatus`, which
 * turns SendGrid's all-or-nothing reply into one status per recipient.
 */
module SendGrid {
  import opened Wrappers
  import opened Text
  import opened JsonData
  import opened PayloadFields
  import CI = CaseInsensitive

  class SendGridPayload {
    /** The request's form fields; `"headers"` holds the case-insensitive header dict until serialisation. */
    var data: map<string, Field>
    /** Multipart file parts, keyed `files[<filename>]`. */
    var files: map<string, FilePart>
    /** The `x-smtpapi` option blob, encoded into `data` by `SerializeData`. */
    var smtpapi: map<string, Json>
    /** Every recipient added, in order, for the status map. */
    var allRecipients: seq<EmailAddress>
    /** The Message-ID, `JNull` until `SerializeData` resolves it. */
    var messageId: Json
    /** The unsupported-feature messages raised so far, in order. */
    var unsupported: seq<string>

    /** `init_payload` always sets the header field and nothing removes it. */
    ghost predicate Valid()
      reads this
    {
      HeadersKey in data
    }

    /** The state `SerializeData` reads and writes. */
    function Snap(): Snapshot
      reads this
    {
      Snapshot(data, smtpapi, messageId)
    }

    /** A payload as `__init__` leaves it: nothing set, an empty header dict. */
    constructor ()
      ensures Valid()
      ensures data == map[HeadersKey := HeaderTable(CI.Empty())] && files == map[]
      ensures smtpapi == map[] && allRecipients == [] && messageId == JNull && unsupported == []
    {
      allRecipients := [];
      messageId := JNull;
      smtpapi := map[];
      unsupported := [];
      data := map[];
      files := map[];
      new;
      InitPayload();
    }

    /** `init_payload`: an empty field table holding only an empty header dict, and no files. */
    method InitPayload()
      modifies this
      ensures Valid()
      ensures data == map[HeadersKey := HeaderTable(CI.Empty())] && files == map[]
      ensures smtpapi == old(smtpapi) && allRecipients == old(allRecipients)
      ensures messageId == old(messageId) && unsupported == old(unsupported)
    {
      data := map[HeadersKey := HeaderTable(CI.Empty())];
      files := map[];
    }

    /** `unsupported_feature`: records the message and lets the caller carry on. */
    method UnsupportedFeature(feature: string)
      modifies this`unsupported
      ensures unsupported == old(unsupported) + [feature]
    {
      unsupported := unsupported + [feature];
    }

    /** `set_from_email`: `from` always; `fromname` only for a non-empty name. */
    method SetFromEmail(email: EmailAddress)
      requires Valid()
      modifies this`data
      ensures Valid()
      ensures "from" in data && data["from"] == Plain(JStr(email.email))
      ensures email.name != "" ==> data == old(data)["from" := Plain(JStr(email.email))]["fromname" := Plain(JStr(email.name))]
      ensures email.name == "" ==> data == old(data)["from" := Plain(JStr(email.email))]
    {
      data := data["from" := Plain(JStr(email.email))];
      if email.name != "" {
        data := data["fromname" := Plain(JStr(email.name))];
      }
    }

    /**
     * `set_recipients`: for a non-empty list, the addresses and the display names
     * as two parallel lists, and the recipients appended to `allRecipients`;
     * an empty list changes nothing.
     */
    method SetRecipients(kind: RecipientType, emails: seq<EmailAddress>)
      requires Valid()
      modifies this`data, this`allRecipients
      ensures Valid()
      ensures allRecipients == old(allRecipients) + emails
      ensures emails == [] ==> data == old(data)
      ensures emails != [] ==>
                data == old(data)[RecipientField(kind) := Plain(StrList(Addresses(emails)))]
                                 [RecipientNameField(kind) := Plain(StrList(DisplayNames(emails)))]
      ensures forall k :: k != RecipientField(kind) && k != RecipientNameField(kind) ==>
                (k in data <==> k in old(data)) && (k in data ==> data[k] == old(data)[k])
      ensures RecipientsWritten(old(data), kind, []) ==> RecipientsWritten(data, kind, emails)
    {
      if emails != [] {
        RecipientFieldsAvoid(kind);
        data := data[RecipientField(kind) := Plain(StrList(Addresses(emails)))];
        data := data[RecipientNameField(kind) := Plain(StrList(DisplayNames(emails)))];
        allRecipients := allRecipients + emails;
      }
    }

    /** `set_subject`. */
    method SetSubject(subject: string)
      requires Valid()
      modifies this`data
      ensures Valid() && data == old(data)["subject" := Plain(JStr(subject))]
    {
      data := data["subject" := Plain(JStr(subject))];
    }

    /**
     * `set_reply_to`: for a non-empty list, one `Reply-To` header holding every full
     * address. Fails, changing nothing, when `esp_extra` has put a non-dict at `headers`.
     */
    method SetReplyTo(emails: seq<EmailAddress>) returns (r: Outcome<Fault>)
      requires Valid()
      modifies this`data
      ensures Valid()
      ensures emails == [] ==> r == Pass && data == old(data)
      ensures emails != [] && !IsMapping(old(data)[HeadersKey]) ==>
                r == Fail(NotAMapping(HeadersKey)) && data == old(data)
      ensures emails != [] && IsMapping(old(data)[HeadersKey]) ==>
                && r == Pass
                && data == old(data)[HeadersKey := Store(old(data)[HeadersKey], "Reply-To", JStr(ReplyTo(emails)))]
    {
      r := Pass;
      if emails != [] {
        var headers := data[HeadersKey];
        if !IsMapping(headers) {
          return Fail(NotAMapping(HeadersKey));
        }
        data := data[HeadersKey := Store(headers, "Reply-To", JStr(ReplyTo(emails)))];
      }
    }

    /**
     * `set_extra_headers`: each item, its value coerced to a string when numeric, is
     * stored into the header dict in turn. Fails, changing nothing, when `esp_extra`
     * has put a non-dict at `headers`.
     */
    method SetExtraHeaders(items: seq<(string, Json)>) returns (r: Outcome<Fault>)
      requires Valid() && DistinctKeys(items)
      modifies this`data
      ensures Valid()
      ensures !IsMapping(old(data)[HeadersKey]) ==> r == Fail(NotAMapping(HeadersKey)) && data == old(data)
      ensures IsMapping(old(data)[HeadersKey]) ==>
                r == Pass && data == old(data)[HeadersKey := UpdateHeaders(old(data)[HeadersKey], items)]
    {
      var headers := data[HeadersKey];
      if !IsMapping(headers) {
        return Fail(NotAMapping(HeadersKey));
      }
      var i := 0;
      while i < |items|
        invariant 0 <= i <= |items|
        invariant IsMapping(headers)
        invariant headers == UpdateHeaders(data[HeadersKey], items[..i])
      {
        headers := Store(headers, items[i].0, CoercedHeaderValue(items[i].1));
        i := i + 1;
        assert items[..i][..i - 1] == items[..i - 1];
      }
      assert items[..|items|] == items;
      data := data[HeadersKey := headers];
      r := Pass;
    }

    /** `set_text_body`. */
    method SetTextBody(body: string)
      requires Valid()
      modifies this`data
      ensures Valid() && data == old(data)["text" := Plain(JStr(body))]
    {
      data := data["text" := Plain(JStr(body))];
    }

    /** `set_html_body`: a body already present is an unsupported feature; the new body is stored either way. */
    method SetHtmlBody(body: string)
      requires Valid()
      modifies this`data, this`unsupported
      ensures Valid() && data == old(data)["html" := Plain(JStr(body))]
      ensures unsupported == old(unsupported) + (if "html" in old(data) then ["multiple html parts"] else [])
    {
      if "html" in data {
        UnsupportedFeature("multiple html parts");
      }
      data := data["html" := Plain(JStr(body))];
    }

    /**
     * `add_attachment`: the file part under `files[<filename>]`, an inline part's
     * content-id under `content[<filename>]`; a files key already taken is an
     * unsupported feature, and the new part replaces the old one.
     */
    method AddAttachment(attachment: Attachment)
      requires Valid()
      modifies this`data, this`files, this`unsupported
      ensures Valid()
      ensures var filename := AttachmentFilename(attachment);
        && data == (if attachment.inline then old(data)[ContentKey(filename) := Plain(JStr(attachment.cid))] else old(data))
        && files == old(files)[FilesKey(filename) := FilePart(filename, attachment.content, attachment.mimetype)]
        && unsupported == old(unsupported) +
             (if FilesKey(filename) in old(files) then [DuplicateAttachmentMessage(filename)] else [])
    {
      var filename := AttachmentFilename(attachment);
      if attachment.inline {
        data := data[ContentKey(filename) := Plain(JStr(attachment.cid))];
      }
      var filesField := FilesKey(filename);
      if filesField in files {
        UnsupportedFeature(DuplicateAttachmentMessage(filename));
      }
      files := files[filesField := FilePart(filename, attachment.content, attachment.mimetype)];
    }

    /** `set_metadata`: the metadata dict as the `unique_args` option. */
    method SetMetadata(metadata: map<string, Json>)
      modifies this`smtpapi
      ensures smtpapi == old(smtpapi)["unique_args" := JObject(metadata)]
    {
      smtpapi := smtpapi["unique_args" := JObject(metadata)];
    }

    /** `set_send_at`, given the send time as seconds since the epoch: the `send_at` option, truncated to whole seconds. */
    method SetSendAt(seconds: real)
      modifies this`smtpapi
      ensures smtpapi == old(smtpapi)["send_at" := JInt(Truncate(seconds))]
    {
      smtpapi := smtpapi["send_at" := JInt(Truncate(seconds))];
    }

    /** `set_tags`: the tags as the `category` option. */
    method SetTags(tags: seq<string>)
      modifies this`smtpapi
      ensures smtpapi == old(smtpapi)["category" := StrList(tags)]
    {
      smtpapi := smtpapi["category" := StrList(tags)];
    }

    /**
     * `add_filter`: sets `filters[name].settings[setting]`, creating the dicts on the
     * way and keeping every other filter and setting. Fails, changing nothing, when a
     * dict on the path is some other value.
     */
    method AddFilter(name: string, setting: string, val: Json) returns (r: Outcome<Fault>)
      modifies this`smtpapi
      ensures SetFilter(old(smtpapi), name, setting, val).Some? ==>
                r == Pass && smtpapi == SetFilter(old(smtpapi), name, setting, val).value
      ensures SetFilter(old(smtpapi), name, setting, val).None? ==>
                r == Fail(NotAMapping("filters")) && smtpapi == old(smtpapi)
    {
      match SetFilter(smtpapi, name, setting, val)
      case Some(options) =>
        smtpapi := options;
        r := Pass;
      case None =>
        r := Fail(NotAMapping("filters"));
    }

    /** `set_track_clicks`: the `clicktrack` filter's `enable` setting as `1` or `0`. */
    method SetTrackClicks(trackClicks: bool) returns (r: Outcome<Fault>)
      modifies this`smtpapi
      ensures FiltersWellFormed(old(smtpapi)) ==>
                && r == Pass && FiltersWellFormed(smtpapi)
                && FilterSetting(smtpapi, "clicktrack", "enable") == Some(FlagValue(trackClicks))
      ensures SetFilter(old(smtpapi), "clicktrack", "enable", FlagValue(trackClicks)).Some? ==>
                r == Pass && smtpapi == SetFilter(old(smtpapi), "clicktrack", "enable", FlagValue(trackClicks)).value
      ensures SetFilter(old(smtpapi), "clicktrack", "enable", FlagValue(trackClicks)).None? ==>
                r.Fail? && smtpapi == old(smtpapi)
    {
      r := AddFilter("clicktrack", "enable", FlagValue(trackClicks));
    }

    /** `set_track_opens`: the `opentrack` filter's `enable` setting as `1` or `0`. */
    method SetTrackOpens(trackOpens: bool) returns (r: Outcome<Fault>)
      modifies this`smtpapi
      ensures FiltersWellFormed(old(smtpapi)) ==>
                && r == Pass && FiltersWellFormed(smtpapi)
                && FilterSetting(smtpapi, "opentrack", "enable") == Some(FlagValue(trackOpens))
      ensures SetFilter(old(smtpapi), "opentrack", "enable", FlagValue(trackOpens)).Some? ==>
                r == Pass && smtpapi == SetFilter(old(smtpapi), "opentrack", "enable", FlagValue(trackOpens)).value
      ensures SetFilter(old(smtpapi), "opentrack", "enable", FlagValue(trackOpens)).None? ==>
                r.Fail? && smtpapi == old(smtpapi)
    {
      r := AddFilter("opentrack", "enable", FlagValue(trackOpens));
    }

    /** `set_esp_extra`: the caller's fields merged over the field table; theirs win. */
    method SetEspExtra(extra: map<string, Json>)
      requires Valid()
      modifies this`data
      ensures Valid()
      ensures data.Keys == old(data).Keys + extra.Keys
      ensures forall k :: k in extra ==> data[k] == Plain(extra[k])
      ensures forall k :: k in old(data) && k !in extra ==> data[k] == old(data)[k]
    {
      data := data + map k | k in extra :: Plain(extra[k]);
    }

    /**
     * `serialize_data`: encodes the option blob into `x-smtpapi` (merging the one
     * `esp_extra` set), resolves the Message-ID and encodes the headers; returns the
     * field table, or the fault Python would raise.
     */
    method SerializeData(encode: Json -> string, makeMsgid: Option<string> -> string)
      returns (r: Result<map<string, Field>, Fault>)
      requires Valid()
      modifies this`data, this`smtpapi, this`messageId
      ensures Valid()
      ensures (r, Snap()) == Serialize(old(Snap()), encode, makeMsgid)
    {
      if |smtpapi| > 0 {
        if SmtpApiKey in data {
          var extra := data[SmtpApiKey];
          if !IsMapping(extra) {
            return Err(NotAMapping(SmtpApiKey));
          }
          smtpapi := ShallowMerge(smtpapi, Contents(extra));
        }
        data := data[SmtpApiKey := Plain(JStr(encode(JObject(smtpapi))))];
      } else if SmtpApiKey in data {
        data := data[SmtpApiKey := Plain(JStr(encode(AsJson(data[SmtpApiKey]))))];
      }
      var headers := data[HeadersKey];
      if !IsMapping(headers) {
        return Err(NotAMapping(HeadersKey));
      }
      match Lookup(headers, MessageIdHeader) {
        case Some(id) =>
          messageId := id;
        case None =>
          messageId := JStr(makeMsgid(MessageIdDomain(data)));
          headers := Store(headers, MessageIdHeader, messageId);
      }
      data := data[HeadersKey := Plain(JStr(encode(JObject(Contents(headers)))))];
      r := Ok(data);
    }
  }

  // -----------------------------------------------------------------------
  // SendGridBackend.parse_recipient_status
  // -----------------------------------------------------------------------

  /** anymail's per-recipient status: the message id and a coarse status word. */
  datatype RecipientStatus = RecipientStatus(messageId: Json, status: string)

  /** Why a reply is refused. */
  datatype ApiError =
    | InvalidResponseFormat
      /** SendGrid reported failure; the text names its errors. */
    | SendFailed(text: string)
      /** SendGrid reported failure with its errors as a dict; Python joins the keys in an order this model does not keep. */
    | SendFailedWithKeys(keys: set<string>)
      /** `"; ".join(errors)` raises TypeError: the errors are neither text nor a list of text. */
    | ErrorsNotText

  /** The message the raised AnymailRequestsAPIError carries, for the two errors whose text the model keeps. */
  function ErrorMessage(e: ApiError): string
    requires e.InvalidResponseFormat? || e.SendFailed?
  {
    match e
    case InvalidResponseFormat => "Invalid SendGrid API response format"
    case SendFailed(text) => text
  }

  /** The strings `"; ".join(errors)` joins: a list's items, or a string's characters. */
  function ErrorParts(errors: Json): Option<seq<string>>
  {
    match errors
    case JStr(s) => Some(seq(|s|, i requires 0 <= i < |s| => [s[i]]))
    case JList(_) => AsStrings(errors)
    case _ => None
  }

  /** `"SendGrid send failed: '%s'" % "; ".join(parts)`. */
  function FailureText(parts: seq<string>): string
  {
    "SendGrid send failed: '" + Join(parts, "; ") + "'"
  }

  /** The emails of `recipients`, as a set. */
  function RecipientEmails(recipients: seq<EmailAddress>): set<string>
  {
    set i | 0 <= i < |recipients| :: recipients[i].email
  }

  /**
   * `parse_recipient_status` on the deserialised reply: a reply that is not a dict
   * with a `message` is malformed; any `message` but `"success"` fails the whole
   * send with SendGrid's errors; `"success"` gives every recipient the status
   * `queued` with the payload's message id.
   */
  function ParseRecipientStatus(parsed: Json, messageId: Json, recipients: seq<EmailAddress>)
    : (r: Result<map<string, RecipientStatus>, ApiError>)
    ensures r == Err(InvalidResponseFormat) <==> !(parsed.JObject? && "message" in parsed.fields)
    ensures r.Ok? <==> parsed.JObject? && "message" in parsed.fields && parsed.fields["message"] == JStr("success")
    ensures r.Ok? ==> r.value.Keys == RecipientEmails(recipients)
    ensures r.Ok? ==> forall i :: 0 <= i < |recipients| ==> recipients[i].email in r.value
    ensures r.Ok? ==> forall e :: e in r.value ==> exists i :: 0 <= i < |recipients| && recipients[i].email == e
    ensures r.Ok? ==> forall e :: e in r.value ==> r.value[e] == RecipientStatus(messageId, "queued")
  {
    if !(parsed.JObject? && "message" in parsed.fields) then Err(InvalidResponseFormat)
    else if parsed.fields["message"] != JStr("success") then
      var errors := if "errors" in parsed.fields then parsed.fields["errors"] else JList([]);
      if errors.JObject? then Err(SendFailedWithKeys(errors.fields.Keys))
      else
        match ErrorParts(errors)
        case Some(parts) => Err(SendFailed(FailureText(parts)))
        case None => Err(ErrorsNotText)
    else
      var status := RecipientStatus(messageId, "queued");
      Ok(map e | e in RecipientEmails(recipients) :: status)
  }

  /** A failure reply with a list of error strings yields a failure whose text names every one of them. */
  lemma FailureNamesErrors(parsed: Json, messageId: Json, recipients: seq<EmailAddress>, errors: seq<string>)
    requires parsed.JObject? && "message" in parsed.fields && parsed.fields["message"] != JStr("success")
    requires "errors" in parsed.fields && parsed.fields["errors"] == StrList(errors)
    ensures ParseRecipientStatus(parsed, messageId, recipients) == Err(SendFailed(FailureText(errors)))
    ensures forall i :: 0 <= i < |errors| ==> Contains(ErrorMessage(SendFailed(FailureText(errors))), errors[i])
  {
    AsStringsOfStrList(errors);
    var prefix := "SendGrid send failed: '";
    var joined := Join(errors, "; ");
    var text := FailureText(errors);
    forall i | 0 <= i < |errors|
      ensures Contains(text, errors[i])
    {
      JoinContainsPart(errors, "; ", i);
      var k :| 0 <= k <= |joined| && errors[i] <= joined[k..];
      assert text[|prefix| + k..] == joined[k..] + "'";
    }
  }

  /** A failure reply without an `errors` entry yields a failure with empty error text. */
  lemma FailureWithoutErrors(parsed: Json, messageId: Json, recipients: seq<EmailAddress>)
    requires parsed.JObject? && "message" in parsed.fields && parsed.fields["message"] != JStr("success")
    requires "errors" !in parsed.fields
    ensures ParseRecipientStatus(parsed, messageId, recipients) == Err(SendFailed("SendGrid send failed: ''"))
  {
    var parts := AsStrings(JList([]));
    assert parts.Some? && |parts.value| == 0;
    assert FailureText([]) == "SendGrid send failed: ''";
  }

  /**
   * `build_message_payload` for a message that has only recipients: a fresh payload
   * through the three recipient setters.
   */
  method BuildRecipientPayload(to: seq<EmailAddress>, cc: seq<EmailAddress>, bcc: seq<EmailAddress>)
    returns (payload: SendGridPayload)
    ensures fresh(payload) && payload.Valid()
    ensures payload.allRecipients == to + cc + bcc
    ensures payload.smtpapi == map[] && NoSenderNoOptions(payload.data)
    ensures RecipientsWritten(payload.data, To, to)
    ensures RecipientsWritten(payload.data, Cc, cc)
    ensures RecipientsWritten(payload.data, Bcc, bcc)
  {
    payload := new SendGridPayload();
    ghost var fresh0 := payload.data;
    RecipientFieldsAvoid(Cc);
    RecipientFieldsAvoid(Bcc);
    assert NoSenderNoOptions(fresh0);
    assert RecipientsWritten(fresh0, Cc, []) && RecipientsWritten(fresh0, Bcc, []);
    payload.SetRecipients(To, to);
    ghost var d1 := payload.data;
    assert payload.allRecipients == to;
    NoSenderNoOptionsKept(fresh0, d1, To);
    RecipientsWrittenKept(fresh0, d1, Cc, [], To);
    RecipientsWrittenKept(fresh0, d1, Bcc, [], To);
    payload.SetRecipients(Cc, cc);
    ghost var d2 := payload.data;
    assert payload.allRecipients == to + cc;
    NoSenderNoOptionsKept(d1, d2, Cc);
    RecipientsWrittenKept(d1, d2, To, to, Cc);
    RecipientsWrittenKept(d1, d2, Bcc, [], Cc);
    payload.SetRecipients(Bcc, bcc);
    RecipientsWrittenKept(d2, payload.data, To, to, Bcc);
    RecipientsWrittenKept(d2, payload.data, Cc, cc, Bcc);
    NoSenderNoOptionsKept(d2, payload.data, Bcc);
  }

  /**
   * A whole send as the backend drives it: the recipient setters, `serialize_data`,
   * then a successful reply. Every recipient of every kind, and nobody else, gets
   * the status `queued` with the Message-ID the payload resolved.
   */
  method QueuedForEveryRecipient(to: seq<EmailAddress>, cc: seq<EmailAddress>, bcc: seq<EmailAddress>,
                                 encode: Json -> string, makeMsgid: Option<string> -> string)
    returns (statuses: Result<map<string, RecipientStatus>, ApiError>, messageId: Json)
    ensures statuses.Ok?
    ensures statuses.value.Keys == RecipientEmails(to + cc + bcc)
    ensures forall e :: e in statuses.value ==> statuses.value[e] == RecipientStatus(messageId, "queued")
    ensures messageId == JStr(makeMsgid(None))
  {
    var payload := BuildRecipientPayload(to, cc, bcc);
    ghost var before := payload.Snap();
    SerializeBare(before, encode, makeMsgid);
    var body := payload.SerializeData(encode, makeMsgid);
    messageId := payload.messageId;
    var reply := JObject(map["message" := JStr("success")]);
    statuses := ParseRecipientStatus(reply, messageId, payload.allRecipients);
  }

  /** Two HTML bodies: the first is accepted, the second is flagged, and the second is what is sent. */
  method SecondHtmlBodyFlagged(first: string, second: string) returns (payload: SendGridPayload)
    ensures fresh(payload)
    ensures payload.unsupported == ["multiple html parts"]
    ensures "html" in payload.data && payload.data["html"] == Plain(JStr(second))
  {
    payload := new SendGridPayload();
    payload.SetHtmlBody(first);
    assert payload.unsupported == [];
    payload.SetHtmlBody(second);
  }

  /** Two attachments are flagged exactly when they go by the same filename; the later part is kept. */
  method SecondAttachmentFlagged(a: Attachment, b: Attachment) returns (payload: SendGridPayload)
    ensures fresh(payload)
    ensures AttachmentFilename(a) == AttachmentFilename(b) ==>
              payload.unsupported == [DuplicateAttachmentMessage(AttachmentFilename(b))]
    ensures AttachmentFilename(a) != AttachmentFilename(b) ==> payload.unsupported == []
    ensures FilesKey(AttachmentFilename(b)) in payload.files &&
            payload.files[FilesKey(AttachmentFilename(b))] == FilePart(AttachmentFilename(b), b.content, b.mimetype)
  {
    payload := new SendGridPayload();
    payload.AddAttachment(a);
    assert payload.unsupported == [];
    FilesKeyInjective(AttachmentFilename(a), AttachmentFilename(b));
    payload.AddAttachment(b);
  }
}
