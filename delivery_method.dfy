/**
 * `SendGridActionMailer::DeliveryMethod`: copies a parsed mail message into a
 * SendGrid email and hands it to the client.
 */
module Delivery {
  import opened Wrappers
  import opened Json
  import opened Message
  import opened SendGridMail
  import opened Smtpapi

  /** The X-SMTPAPI keys `deliver!` forwards, each to its own setter. */
  const SmtpapiKeys: set<string> :=
    {"filters", "category", "send_at", "send_each_at", "section", "sub", "asm_group_id", "unique_args", "ip_pool"}

  /** `if data[key] then email.smtpapi.set_…(data[key])` on settings `m`, for a value that can be indexed. */
  function SetIfTruthy(m: map<string, Json>, d: Json, key: string): map<string, Json>
    requires d.JObj? || d.JStr?
  {
    var v := Index(d, key).value;
    if Truthy(v) then m[key := v.value] else m
  }

  /** The nine conditional setter calls of `deliver!`, in source order, applied to settings `m`. */
  function Forward(m: map<string, Json>, d: Json): map<string, Json>
    requires d.JObj? || d.JStr?
  {
    var m := SetIfTruthy(m, d, "filters");
    var m := SetIfTruthy(m, d, "category");
    var m := SetIfTruthy(m, d, "send_at");
    var m := SetIfTruthy(m, d, "send_each_at");
    var m := SetIfTruthy(m, d, "section");
    var m := SetIfTruthy(m, d, "sub");
    var m := SetIfTruthy(m, d, "asm_group_id");
    var m := SetIfTruthy(m, d, "unique_args");
    SetIfTruthy(m, d, "ip_pool")
  }

  /** One conditional setter call changes its own key, and only when the value is truthy. */
  lemma SetIfTruthyAt(m: map<string, Json>, d: Json, key: string, k: string)
    requires d.JObj? || d.JStr?
    ensures k in SetIfTruthy(m, d, key) <==> k in m || (k == key && Truthy(Index(d, k).value))
    ensures k in SetIfTruthy(m, d, key) ==>
      SetIfTruthy(m, d, key)[k] == if k == key && Truthy(Index(d, k).value) then Index(d, k).value.value else m[k]
  {
  }

  /**
   * Each of the nine keys reaches its own setter exactly when its value is
   * truthy, with that value; every other setting keeps its value.
   */
  lemma {:induction false} ForwardAt(m: map<string, Json>, d: Json, k: string)
    requires d.JObj? || d.JStr?
    ensures k in Forward(m, d) <==> k in m || (k in SmtpapiKeys && Truthy(Index(d, k).value))
    ensures k in SmtpapiKeys && Truthy(Index(d, k).value) ==> Forward(m, d)[k] == Index(d, k).value.value
    ensures !(k in SmtpapiKeys && Truthy(Index(d, k).value)) && k in m ==> Forward(m, d)[k] == m[k]
  {
    var m1 := SetIfTruthy(m, d, "filters");
    var m2 := SetIfTruthy(m1, d, "category");
    var m3 := SetIfTruthy(m2, d, "send_at");
    var m4 := SetIfTruthy(m3, d, "send_each_at");
    var m5 := SetIfTruthy(m4, d, "section");
    var m6 := SetIfTruthy(m5, d, "sub");
    var m7 := SetIfTruthy(m6, d, "asm_group_id");
    var m8 := SetIfTruthy(m7, d, "unique_args");
    SetIfTruthyAt(m, d, "filters", k);
    SetIfTruthyAt(m1, d, "category", k);
    SetIfTruthyAt(m2, d, "send_at", k);
    SetIfTruthyAt(m3, d, "send_each_at", k);
    SetIfTruthyAt(m4, d, "section", k);
    SetIfTruthyAt(m5, d, "sub", k);
    SetIfTruthyAt(m6, d, "asm_group_id", k);
    SetIfTruthyAt(m7, d, "unique_args", k);
    SetIfTruthyAt(m8, d, "ip_pool", k);
  }

  /** An attachment becomes inline content exactly when the message is multipart/related and it has a Content-ID. */
  predicate GoesInline(related: bool, a: Attachment) {
    related && a.contentId.Some?
  }

  /** What `add_content` receives for an inline attachment. */
  function InlineFor(a: Attachment): InlineContent
    requires a.contentId.Some?
  {
    InlineContent(a.filename, a.bytes, a.contentId.value)
  }

  /** What `add_attachment` receives: the attachment's own file name and its bytes. */
  function FileFor(a: Attachment): FileAttachment {
    FileAttachment(a.filename, a.bytes)
  }

  /** What one attachment adds to the inline content: its content when it goes inline, nothing otherwise. */
  function InlineOne(related: bool, a: Attachment): seq<InlineContent> {
    if GoesInline(related, a) then [InlineFor(a)] else []
  }

  /** What one attachment adds to the ordinary attachments: itself when it does not go inline. */
  function FileOne(related: bool, a: Attachment): seq<FileAttachment> {
    if GoesInline(related, a) then [] else [FileFor(a)]
  }

  /** The inline content the attachment loop adds for `atts`. */
  function InlineOf(related: bool, atts: seq<Attachment>): seq<InlineContent> {
    if |atts| == 0 then [] else InlineOf(related, atts[..|atts| - 1]) + InlineOne(related, atts[|atts| - 1])
  }

  /** The ordinary attachments the attachment loop adds for `atts`. */
  function FilesOf(related: bool, atts: seq<Attachment>): seq<FileAttachment> {
    if |atts| == 0 then [] else FilesOf(related, atts[..|atts| - 1]) + FileOne(related, atts[|atts| - 1])
  }

  lemma AppendAssoc<T>(a: seq<T>, b: seq<T>, c: seq<T>)
    ensures a + b + c == a + (b + c)
  {
  }

  /** Routing keeps order: the attachments of a longer list follow those of its prefix. */
  lemma {:induction false} RoutingAppend(related: bool, xs: seq<Attachment>, ys: seq<Attachment>)
    ensures InlineOf(related, xs + ys) == InlineOf(related, xs) + InlineOf(related, ys)
    ensures FilesOf(related, xs + ys) == FilesOf(related, xs) + FilesOf(related, ys)
  {
    if |ys| == 0 {
      assert xs + ys == xs;
    } else {
      var n := |ys| - 1;
      var zs, init, last := xs + ys, ys[..n], ys[n];
      RoutingAppend(related, xs, init);
      assert zs[..|zs| - 1] == xs + init;
      assert zs[|zs| - 1] == last;
      assert InlineOf(related, zs) == InlineOf(related, xs) + InlineOf(related, ys) by {
        assert InlineOf(related, zs) == InlineOf(related, xs + init) + InlineOne(related, last);
        AppendAssoc(InlineOf(related, xs), InlineOf(related, init), InlineOne(related, last));
      }
      assert FilesOf(related, zs) == FilesOf(related, xs) + FilesOf(related, ys) by {
        assert FilesOf(related, zs) == FilesOf(related, xs + init) + FileOne(related, last);
        AppendAssoc(FilesOf(related, xs), FilesOf(related, init), FileOne(related, last));
      }
    }
  }

  /**
   * Each attachment is forwarded exactly once and in place: routing `xs` is
   * routing the attachments before position `i`, then the single output of
   * `xs[i]` in the list its Content-ID and the message type choose, then
   * routing the attachments after it.
   */
  lemma RoutingSplit(related: bool, xs: seq<Attachment>, i: nat)
    requires i < |xs|
    ensures InlineOf(related, xs) == InlineOf(related, xs[..i]) + InlineOne(related, xs[i]) + InlineOf(related, xs[i + 1..])
    ensures FilesOf(related, xs) == FilesOf(related, xs[..i]) + FileOne(related, xs[i]) + FilesOf(related, xs[i + 1..])
  {
    var init, a, rest := xs[..i], xs[i], xs[i + 1..];
    assert xs == init + ([a] + rest);
    assert [a][..0] == [];
    assert InlineOf(related, xs) == InlineOf(related, init) + InlineOne(related, a) + InlineOf(related, rest) by {
      RoutingAppend(related, init, [a] + rest);
      RoutingAppend(related, [a], rest);
      assert InlineOf(related, [a]) == InlineOne(related, a);
      AppendAssoc(InlineOf(related, init), InlineOne(related, a), InlineOf(related, rest));
    }
    assert FilesOf(related, xs) == FilesOf(related, init) + FileOne(related, a) + FilesOf(related, rest) by {
      RoutingAppend(related, init, [a] + rest);
      RoutingAppend(related, [a], rest);
      assert FilesOf(related, [a]) == FileOne(related, a);
      AppendAssoc(FilesOf(related, init), FileOne(related, a), FilesOf(related, rest));
    }
  }

  /** The two outputs together are exactly as long as the input. */
  lemma {:induction false} RoutingCount(related: bool, xs: seq<Attachment>)
    ensures |InlineOf(related, xs)| + |FilesOf(related, xs)| == |xs|
  {
    if |xs| > 0 {
      RoutingCount(related, xs[..|xs| - 1]);
    }
  }

  /** Every inline content comes from an attachment routed inline. */
  lemma {:induction false} InlineSource(related: bool, xs: seq<Attachment>, c: InlineContent)
    requires c in InlineOf(related, xs)
    ensures exists i :: 0 <= i < |xs| && GoesInline(related, xs[i]) && c == InlineFor(xs[i])
  {
    var n := |xs| - 1;
    var init := xs[..n];
    if c in InlineOf(related, init) {
      InlineSource(related, init, c);
      var i :| 0 <= i < |init| && GoesInline(related, init[i]) && c == InlineFor(init[i]);
      assert xs[i] == init[i];
    } else {
      assert GoesInline(related, xs[n]) && c == InlineFor(xs[n]);
    }
  }

  /** Every ordinary attachment comes from an attachment not routed inline. */
  lemma {:induction false} FileSource(related: bool, xs: seq<Attachment>, f: FileAttachment)
    requires f in FilesOf(related, xs)
    ensures exists i :: 0 <= i < |xs| && !GoesInline(related, xs[i]) && f == FileFor(xs[i])
  {
    var n := |xs| - 1;
    var init := xs[..n];
    if f in FilesOf(related, init) {
      FileSource(related, init, f);
      var i :| 0 <= i < |init| && !GoesInline(related, init[i]) && f == FileFor(init[i]);
      assert xs[i] == init[i];
    } else {
      assert !GoesInline(related, xs[n]) && f == FileFor(xs[n]);
    }
  }

  /**
   * Routing forwards every attachment: the two outputs together are as long
   * as the input, each attachment appears in the output its Content-ID and
   * the message type choose, and every output comes from an attachment
   * routed there. Outside multipart/related nothing is inline.
   * `RoutingSplit` says where each attachment's single output lands.
   */
  lemma RoutingPartition(related: bool, xs: seq<Attachment>)
    ensures |InlineOf(related, xs)| + |FilesOf(related, xs)| == |xs|
    ensures !related ==> InlineOf(related, xs) == []
    ensures forall i :: 0 <= i < |xs| && GoesInline(related, xs[i]) ==> InlineFor(xs[i]) in InlineOf(related, xs)
    ensures forall i :: 0 <= i < |xs| && !GoesInline(related, xs[i]) ==> FileFor(xs[i]) in FilesOf(related, xs)
    ensures forall c :: c in InlineOf(related, xs) ==>
      exists i :: 0 <= i < |xs| && GoesInline(related, xs[i]) && c == InlineFor(xs[i])
    ensures forall f :: f in FilesOf(related, xs) ==>
      exists i :: 0 <= i < |xs| && !GoesInline(related, xs[i]) && f == FileFor(xs[i])
  {
    RoutingCount(related, xs);
    forall i | 0 <= i < |xs|
      ensures GoesInline(related, xs[i]) ==> InlineFor(xs[i]) in InlineOf(related, xs)
      ensures !GoesInline(related, xs[i]) ==> FileFor(xs[i]) in FilesOf(related, xs)
    {
      RoutingSplit(related, xs, i);
    }
    forall c | c in InlineOf(related, xs)
      ensures exists i :: 0 <= i < |xs| && GoesInline(related, xs[i]) && c == InlineFor(xs[i])
    {
      InlineSource(related, xs, c);
    }
    forall f | f in FilesOf(related, xs)
      ensures exists i :: 0 <= i < |xs| && !GoesInline(related, xs[i]) && f == FileFor(xs[i])
    {
      FileSource(related, xs, f);
    }
    if !related && |InlineOf(related, xs)| > 0 {
      InlineSource(related, xs, InlineOf(related, xs)[0]);
    }
  }

  /** The three multipart types `deliver!` handles. */
  predicate IsMultipart(mimeType: Option<string>) {
    mimeType == Some("multipart/alternative") || mimeType == Some("multipart/mixed") ||
    mimeType == Some("multipart/related")
  }

  /** The message has the From and To headers `deliver!` dereferences, and a sender address. */
  predicate Addressed(mail: Mail) {
    mail.from.Some? && mail.from.value != [] && mail.to.Some?
  }

  /**
   * The exception `deliver!` raises, if any, in the order `deliver!` meets
   * them: no From header (`nil.addrs`), no To header (`nil.addresses`), a From
   * header without an address (`nil.address`), an X-SMTPAPI value that is
   * not JSON, and a parsed value that cannot be indexed by a String.
   */
  function DeliverError(mail: Mail, parse: string -> Option<Json>): (r: Option<Error>)
    ensures !Addressed(mail) ==> r.Some? && r.value.NoMethodError?
    ensures Addressed(mail) && SelectFirst(mail.smtpapi).None? ==> r.None?
    ensures (r.Some? && r.value.ArgumentError?) <==>
      Addressed(mail) && SelectFirst(mail.smtpapi).Some? && parse(SelectFirst(mail.smtpapi).value).None?
    ensures r.Some? && r.value.ArgumentError? ==>
      r.value.message == NotJsonPrefix + SelectFirst(mail.smtpapi).value
    ensures Addressed(mail) && SelectFirst(mail.smtpapi).Some? && parse(SelectFirst(mail.smtpapi).value).Some? ==>
      (r.None? <==> parse(SelectFirst(mail.smtpapi).value).value.JObj? || parse(SelectFirst(mail.smtpapi).value).value.JStr?)
  {
    if mail.from.None? then Some(NoMethodError("addrs"))
    else if mail.to.None? then Some(NoMethodError("addresses"))
    else if mail.from.value == [] then Some(NoMethodError("address"))
    else match SelectFirst(mail.smtpapi)
      case None => None
      case Some(raw) =>
        match parse(raw)
        case None => Some(ArgumentError(NotJsonPrefix + raw))
        case Some(d) =>
          match Index(d, "filters")
          case Failure(e) => Some(e)
          case Success(_) => None
  }

  /** The smtpapi settings `deliver!` makes for a message it does not reject. */
  function ExpectedSettings(mail: Mail, parse: string -> Option<Json>): map<string, Json>
    requires DeliverError(mail, parse).None?
  {
    match SelectFirst(mail.smtpapi)
    case None => map[]
    case Some(raw) => Forward(map[], parse(raw).value)
  }

  /** Lines 22-32: the addresses, sender, date and subject of the email. */
  ghost predicate EnvelopeMatches(mail: Mail, e: Email)
    requires Addressed(mail)
    reads e
  {
    && e.to == mail.to
    && e.cc == mail.cc
    && e.bcc == mail.bcc
    && e.from == Some(mail.from.value[0].address)
    && e.fromName == mail.from.value[0].displayName
    && e.replyTo == (if mail.replyTo.Some? && mail.replyTo.value != [] then Some(mail.replyTo.value[0]) else None)
    && e.date == mail.date
    && e.subject == mail.subject
  }

  /** Lines 93-125: the body and the attachments, chosen by the MIME type. */
  ghost predicate BodyMatches(mail: Mail, e: Email)
    reads e
  {
    && (mail.mimeType == Some("text/plain") ==> e.text == Some(mail.body) && e.html.None?)
    && (mail.mimeType == Some("text/html") ==> e.html == Some(mail.body) && e.text.None?)
    && (IsMultipart(mail.mimeType) ==>
          && e.html == mail.htmlPart
          && e.text == mail.textPart
          && e.contents == InlineOf(mail.mimeType == Some("multipart/related"), mail.attachments)
          && e.attachments == FilesOf(mail.mimeType == Some("multipart/related"), mail.attachments))
    && (!IsMultipart(mail.mimeType) ==> e.contents == [] && e.attachments == [])
    && (!IsMultipart(mail.mimeType) && mail.mimeType != Some("text/plain") && mail.mimeType != Some("text/html") ==>
          e.text.None? && e.html.None?)
  }

  /**
   * How the email `deliver!` sends relates to the message: every address
   * and subject field, the X-SMTPAPI settings (only the set_* setters, for
   * the truthy keys of the first field), and the body and attachments.
   */
  ghost predicate Translates(mail: Mail, parse: string -> Option<Json>, e: Email)
    reads e, e.smtpapi
  {
    && DeliverError(mail, parse).None?
    && EnvelopeMatches(mail, e)
    && e.smtpapi.settings == ExpectedSettings(mail, parse)
    && e.smtpapi.categories == []
    && e.smtpapi.uniqueArgs == map[]
    && BodyMatches(mail, e)
  }

  /** Lines 24-33: the fields assigned in the `SendGrid::Mail.new` block, on a fresh email. */
  method SetEnvelope(email: Email, mail: Mail)
    requires Addressed(mail)
    requires email.cc.None? && email.bcc.None? && email.replyTo.None? && email.date.None?
    modifies email`to, email`cc, email`bcc, email`from, email`fromName, email`replyTo, email`date, email`subject
    ensures EnvelopeMatches(mail, email)
  {
    var from := mail.from.value[0];
    email.to := mail.to;
    if mail.cc.Some? {
      email.cc := mail.cc;
    }
    if mail.bcc.Some? {
      email.bcc := mail.bcc;
    }
    email.from := Some(from.address);
    email.fromName := from.displayName;
    if mail.replyTo.Some? {
      email.replyTo := if mail.replyTo.value != [] then Some(mail.replyTo.value[0]) else None;
    }
    if mail.date.Some? {
      email.date := mail.date;
    }
    email.subject := mail.subject;
  }

  /**
   * Lines 35-88: reads the first X-SMTPAPI value, parses it and forwards its
   * truthy keys, on a fresh header. The result is the exception raised, if any.
   */
  method SetSmtpapi(h: SmtpapiHeader, mail: Mail, parse: string -> Option<Json>) returns (r: Option<Error>)
    requires Addressed(mail)
    requires h.settings == map[]
    modifies h`settings
    ensures r == DeliverError(mail, parse)
    ensures r.None? ==> h.settings == ExpectedSettings(mail, parse)
  {
    var smtpapi := SelectFirst(mail.smtpapi);
    if smtpapi.Some? {
      var data := parse(smtpapi.value);
      if data.None? {
        return Some(ArgumentError(NotJsonPrefix + smtpapi.value));
      }
      var applied := ApplySmtpapi(h, data.value);
      if applied.Fail? {
        return Some(applied.error);
      }
    }
    return None;
  }

  /** Lines 93-125: the `case mail.mime_type` statement, on a fresh email. */
  method SetBody(email: Email, mail: Mail)
    requires email.text.None? && email.html.None? && email.contents == [] && email.attachments == []
    modifies email`text, email`html, email`contents, email`attachments
    ensures BodyMatches(mail, email)
  {
    if mail.mimeType == Some("text/plain") {
      email.text := Some(mail.body);
    } else if mail.mimeType == Some("text/html") {
      email.html := Some(mail.body);
    } else if IsMultipart(mail.mimeType) {
      if mail.htmlPart.Some? {
        email.html := mail.htmlPart;
      }
      if mail.textPart.Some? {
        email.text := mail.textPart;
      }
      AddAttachments(email, mail.attachments, mail.mimeType == Some("multipart/related"));
    }
  }

  /** One statement of lines 52-86: `if data[key]`, the key's setter receives `data[key]`. */
  method ForwardKey(h: SmtpapiHeader, d: Json, key: string)
    requires d.JObj? || d.JStr?
    modifies h`settings
    ensures h.settings == SetIfTruthy(old(h.settings), d, key)
  {
    var value := Index(d, key).value;
    if Truthy(value) {
      h.settings := h.settings[key := value.value];
    }
  }

  /**
   * Lines 52-86 of `deliver!`. The first lookup raises for a parsed value
   * that cannot be indexed by a String, and then no setter runs; otherwise
   * every lookup succeeds and the nine conditional setter calls run.
   */
  method ApplySmtpapi(h: SmtpapiHeader, d: Json) returns (r: Outcome<Error>)
    modifies h`settings
    ensures r.Fail? <==> Index(d, "filters").Failure?
    ensures r.Fail? ==> r.error == Index(d, "filters").error && h.settings == old(h.settings)
    ensures r.Pass? ==> (d.JObj? || d.JStr?) && h.settings == Forward(old(h.settings), d)
  {
    var filters := Index(d, "filters");
    if filters.Failure? {
      return Fail(filters.error);
    }
    ForwardKey(h, d, "filters");
    ForwardKey(h, d, "category");
    ForwardKey(h, d, "send_at");
    ForwardKey(h, d, "send_each_at");
    ForwardKey(h, d, "section");
    ForwardKey(h, d, "sub");
    ForwardKey(h, d, "asm_group_id");
    ForwardKey(h, d, "unique_args");
    ForwardKey(h, d, "ip_pool");
    return Pass;
  }

  /** Lines 104-124 of `deliver!`: each attachment, in order, to `add_content` or to `add_attachment`. */
  method AddAttachments(email: Email, atts: seq<Attachment>, related: bool)
    modifies email`contents, email`attachments
    ensures email.contents == old(email.contents) + InlineOf(related, atts)
    ensures email.attachments == old(email.attachments) + FilesOf(related, atts)
  {
    for i := 0 to |atts|
      invariant email.contents == old(email.contents) + InlineOf(related, atts[..i])
      invariant email.attachments == old(email.attachments) + FilesOf(related, atts[..i])
    {
      var a := atts[i];
      assert atts[..i + 1][..i] == atts[..i];
      if related && a.contentId.Some? {
        email.contents := email.contents + [InlineContent(a.filename, a.bytes, a.contentId.value)];
      } else {
        email.attachments := email.attachments + [FileAttachment(a.filename, a.bytes)];
      }
    }
    assert atts[..|atts|] == atts;
  }

  /** The delivery method, with the client's credentials and what the client has been asked to send. */
  class DeliveryMethod {
    const apiUser: Option<string>
    const apiKey: Option<string>
    /** The emails handed to `client.send`, oldest first. */
    var sent: seq<Email>

    /** `initialize`: the client is configured with the API user and key it is given. */
    constructor (apiUser: Option<string>, apiKey: Option<string>)
      ensures this.apiUser == apiUser && this.apiKey == apiKey
      ensures sent == []
    {
      this.apiUser := apiUser;
      this.apiKey := apiKey;
      sent := [];
    }

    /**
     * `deliver!`: builds a fresh email from `mail` and sends it, or raises
     * and sends nothing. `parse` is JSON.parse.
     */
    method Deliver(mail: Mail, parse: string -> Option<Json>) returns (r: Outcome<Error>)
      modifies this`sent
      ensures r.Fail? <==> DeliverError(mail, parse).Some?
      ensures r.Fail? ==> r.error == DeliverError(mail, parse).value && sent == old(sent)
      ensures r.Pass? ==>
        && |sent| == |old(sent)| + 1
        && sent[..|old(sent)|] == old(sent)
        && fresh(sent[|old(sent)|])
        && fresh(sent[|old(sent)|].smtpapi)
        && Translates(mail, parse, sent[|old(sent)|])
    {
      if mail.from.None? {
        return Fail(NoMethodError("addrs"));
      }
      var from := if mail.from.value != [] then Some(mail.from.value[0]) else None;

      var email := new Email();
      if mail.to.None? {
        return Fail(NoMethodError("addresses"));
      }
      if from.None? {
        return Fail(NoMethodError("address"));
      }
      SetEnvelope(email, mail);

      var raised := SetSmtpapi(email.smtpapi, mail, parse);
      if raised.Some? {
        return Fail(raised.value);
      }

      SetBody(email, mail);
      sent := sent + [email];
      return Pass;
    }
  }
}
