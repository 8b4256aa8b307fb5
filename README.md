# sendgrid-actionmailer: the mail-to-SendGrid translation in Dafny

This project models how the `SendGridActionMailer` delivery method turns a
parsed mail message into an outgoing SendGrid email, and proves what that
translation promises.

- `DeliveryMethod#deliver!` copies the addresses, sender, reply-to, date and
  subject. It reads the first `X-SMTPAPI` header and forwards its truthy keys to
  the header's setters. It then picks the body by MIME type and routes each
  attachment either to inline content or to an ordinary attachment. It raises
  `ArgumentError` when the header value is not JSON.
- `SmtpapiSetter#set!` is the refactored header handler. It normalises
  `category` with `Array()`, adds every `unique_args` pair, and sets `ip_pool`
  whenever the key is present. It parses the header value at most once per
  call, and never again once a truthy value is memoised.

Modules, one per file:

- `Wrappers` (wrappers.dfy): `Option`, `Result`, `Outcome` and `byte`.
- `Json` (json.dfy): the value `JSON.parse` returns, seen as a Ruby object, plus
  the Ruby operations the adapter applies to it. These are truthiness, `[]`
  with a String key, `key?`, `Kernel#Array`, `each` with a two-parameter block,
  and the exceptions they raise.
- `Message` (message.dfy): the parsed mail message. The Mail library's work
  (address parsing, body decoding, finding the text and html parts, and
  extracting Content-IDs) arrives already done.
- `SendGridMail` (sendgrid_mail.dfy): the `Email` and `SmtpapiHeader` classes
  that the adapter fills in.
- `Smtpapi` (smtpapi_setter.dfy): how the header is selected, and the
  `SmtpapiSetter` class.
- `Delivery` (delivery_method.dfy): the `DeliveryMethod` class, `Deliver`,
  the nine-key forwarding and the attachment routing.

`JSON.parse` is the parameter `parse: string -> Option<Json>`, where `None`
stands for `JSON::ParserError`. Exceptions are values of `Json.Error`.

## Model

| member | source | states |
|---|---|---|
| `Delivery.DeliveryMethod.constructor` | lib/sendgrid_actionmailer.rb:13-18 | the delivery method keeps the API user and key it is given, and nothing has been sent yet |
| `Delivery.DeliveryMethod.Deliver` | lib/sendgrid_actionmailer.rb:20-134 | the call raises exactly the exception `DeliverError` names and then sends nothing; otherwise exactly one fresh email is sent, and it satisfies `Translates`: envelope, X-SMTPAPI settings, body and attachments as below |
| `Delivery.DeliverError` | lib/sendgrid_actionmailer.rb:22-88 | a message without From or To headers, or without a From address, raises NoMethodError; a first X-SMTPAPI value that is not JSON raises ArgumentError exactly when parsing fails, with message `X-SMTPAPI is not JSON: ` followed by the raw value; with no header value nothing is raised; a parsed value raises exactly when it is neither a Hash nor a String |
| `Delivery.SetEnvelope` | lib/sendgrid_actionmailer.rb:22-33 | `to` is the whole To list; `cc` and `bcc` are set only when their headers exist; `from` and `from_name` come from the first From address only; `reply_to` is the first Reply-To address and stays unset without the header; date and subject are copied |
| `Delivery.ApplySmtpapi` | lib/sendgrid_actionmailer.rb:52-86 | the first lookup raises for a value that cannot be indexed by a String, and then no setter runs; otherwise the settings become the nine conditional setter calls applied to the old settings, and nothing else in the header changes |
| `Delivery.SetSmtpapi` | lib/sendgrid_actionmailer.rb:35-88 | on a fresh header, the exception raised is exactly the X-SMTPAPI part of `DeliverError` (not JSON, or a value that cannot be indexed); when nothing is raised the settings are those the nine forwarding calls make from the first field's parsed value, or none without the header |
| `Delivery.ForwardKey` | lib/sendgrid_actionmailer.rb:52-54 | one key's setter receives the key's value exactly when that value is truthy |
| `Delivery.ForwardAt` | lib/sendgrid_actionmailer.rb:52-86 | each of the nine keys reaches its own setter, with its value unchanged, if and only if that value is truthy; every other setting keeps its value |
| `Smtpapi.SelectFirst` | lib/sendgrid_actionmailer.rb:35-48 | when X-SMTPAPI occurs several times only the first occurrence is consulted; a missing header or a first occurrence without a value gives nothing to parse |
| `Delivery.SetBody` | lib/sendgrid_actionmailer.rb:93-125 | text/plain sets only `text` and text/html only `html`, both to the decoded body and with no attachments; the three multipart types take html and text from the parts that exist and route the attachments; any other type sets no body and adds nothing |
| `Delivery.AddAttachments` | lib/sendgrid_actionmailer.rb:104-124 | after the loop, the inline content and the attachments are the old ones followed by the routing of every attachment in order |
| `Delivery.RoutingPartition` | lib/sendgrid_actionmailer.rb:119-123 | every attachment is forwarded: inline content with its Content-ID if and only if the message is multipart/related and the attachment has a Content-ID, otherwise an ordinary attachment under its own file name with its bytes unchanged; the two outputs together are as long as the input and each output comes from a routed attachment |
| `Delivery.RoutingSplit` | lib/sendgrid_actionmailer.rb:104-124 | every attachment is forwarded exactly once and in place: at each position the outputs are what the attachments before it give, then that attachment's single output in the list its Content-ID and the message type choose, then what the attachments after it give |
| `Delivery.RoutingAppend` | lib/sendgrid_actionmailer.rb:104-124 | routing keeps order: routing a list equals routing its prefix followed by routing the rest |
| `SendGridMail.Email.constructor` | lib/sendgrid_actionmailer.rb:24 | a new SendGrid email has no field assigned, no attachments and an empty smtpapi header |
| `Smtpapi.SmtpapiSetter.constructor` | lib/sendgrid_actionmailer/smtpapi_setter.rb:3-6 | the setter keeps the email and every X-SMTPAPI field of the message, and nothing has been parsed yet |
| `Smtpapi.SmtpapiSetter.Set` | lib/sendgrid_actionmailer/smtpapi_setter.rb:8-15 | nothing changes when the field is absent or has no value; a value that is not JSON raises ArgumentError with `X-SMTPAPI is not JSON: ` and the raw value, leaving the header untouched; otherwise categories, then unique arguments, then the IP pool are applied, stopping at the first exception; only those three change and the email outside `smtpapi` never does; the value is parsed at most once per call, and not again once it has been memoised |
| `Smtpapi.SmtpapiSetter.Data` | lib/sendgrid_actionmailer/smtpapi_setter.rb:21-23 | the result is always the parse of the field's value; a memoised value is returned without parsing, otherwise parsing runs once and a truthy result is memoised |
| `Smtpapi.SmtpapiSetter.SetCategories` | lib/sendgrid_actionmailer/smtpapi_setter.rb:25-29 | every element of `Array(data['category'])` is appended in order, and nothing is appended when the lookup raises |
| `Smtpapi.SmtpapiSetter.SetUniqueArgs` | lib/sendgrid_actionmailer/smtpapi_setter.rb:31-35 | every pair that `each` yields for `data['unique_args']`, or for an empty Hash when it is nil or false, is added in turn |
| `Smtpapi.SmtpapiSetter.SetIpPool` | lib/sendgrid_actionmailer/smtpapi_setter.rb:37-39 | `ip_pool` is set exactly as `IpPoolStep` says, and nothing else changes |
| `Json.ArrayOf` | lib/sendgrid_actionmailer/smtpapi_setter.rb:26 | a missing or null category adds nothing; a single string adds exactly that one; an array adds every element in order; a Hash adds its pairs |
| `Json.EachPair` | lib/sendgrid_actionmailer/smtpapi_setter.rb:32 | missing, null or false `unique_args` yields no pair; a Hash yields each key with its value unchanged, in order; a String, number or true raises NoMethodError |
| `Smtpapi.IpPoolStep` | lib/sendgrid_actionmailer/smtpapi_setter.rb:37-39 | for a Hash, the setter runs if and only if the `ip_pool` key is present, even when its value is null, and receives that key's value; for anything else `key?` raises |
| `Smtpapi.UniqueArgsOfHash` | lib/sendgrid_actionmailer/smtpapi_setter.rb:31-35 | for a Hash of unique arguments, each key ends up holding its own value unchanged, keys it does not mention keep their values, and no other key appears |
| `Json.LookupLast` | lib/sendgrid_actionmailer/smtpapi_setter.rb:26 | `data['category']` and the other lookups on a parsed object give the value of the last field with that key, as the parser keeps the later of two equal keys |
| `SendGridMail.InsertAllFacts` | lib/sendgrid_actionmailer/smtpapi_setter.rb:32-34 | after adding pairs one at a time, a key is present if and only if it was before or some pair carries it; the last pair with that key decides its value, and untouched keys keep theirs |
| `Smtpapi.FieldValueAgrees` | lib/sendgrid_actionmailer/smtpapi_setter.rb:9 | the setter's reading of the field succeeds if and only if the header occurs at most once, and then agrees with `SelectFirst` |
| `Smtpapi.RepeatedHeaderRaises` | lib/sendgrid_actionmailer/smtpapi_setter.rb:5-9 | with two X-SMTPAPI fields, the setter raises NoMethodError `value` where the delivery method reads the first field |

## Left out

- Temporary files: the temp directories and file writes for attachments, and the `ensure` cleanup (lib/sendgrid_actionmailer.rb:21, 112-117, 128-133). An attachment is an in-memory name and bytes.
- The file name `add_content` takes from the temporary path: it is taken as the attachment's own file name. Taking the basename of a name that contains `/` is not modelled.
- The SendGrid client: how it is built, and the network call `client.send` (lib/sendgrid_actionmailer.rb:14-17, 127). `DeliveryMethod.sent` records each email handed to it; the client's reply is not modelled.
- The SendGrid library's objects are not part of this model. Each `set_*` setter the adapter calls stores its argument in `SmtpapiHeader.settings` under the JSON key. `add_category` appends to `categories` and `add_unique_arg` stores into `uniqueArgs`. `set_categories` and `add_category` therefore write different fields here, although the library may keep both in one.
- `JSON.parse` is a parameter. The model does not fix which strings are JSON. A parsed object is its fields in text order, and a lookup takes the last field with the key, as the parser does. `each` and `Array()` over an object whose text repeats a key see each occurrence, where the Ruby Hash holds the key once with its last value; adding those pairs in turn leaves the same unique arguments either way. JSON numbers are integers here; floating point is not modelled.
- UniqueArgsOfHash: is stated for a `unique_args` object whose keys are distinct; `InsertAllFacts` covers repeated keys, where the last pair decides.
- The Mail library: address parsing, `display_name`, body decoding, finding `html_part`/`text_part`, extracting `content_id`, and `mail[:date].to_s` formatting. Their results are fields of `Message.Mail`.
- Other exceptions the Mail library could raise, such as a nil attachment file name in `File.join`. `Attachment.filename` is always a string.
- The ArgumentError raised by `rescue` keeps only its class and message. The backtrace and the original exception are not modelled.
- Rails registration (lib/sendgrid_actionmailer/railtie.rb, lib/sendgrid-rails/railtie.rb) and the pass-through delivery methods (lib/sendgrid-actionmailer.rb, lib/sendgrid-rails.rb) are not part of this model. They contain no translation logic.

## Findings

| source | as written | input that shows it | evidently intended | confidence | as-written member | corrected member |
|---|---|---|---|---|---|---|
| lib/sendgrid_actionmailer/smtpapi_setter.rb:5-9 | the setter keeps `mail['X-SMTPAPI']` as it comes. For a repeated header that is an Array, and asking it for `value` raises NoMethodError | a message carrying X-SMTPAPI twice, for example once from class-level defaults and once per message | use the first field, as `deliver!` does at lib/sendgrid_actionmailer.rb:44-46 | not executed; medium | `Smtpapi.RepeatedHeaderRaises` | `Smtpapi.SelectFirst` |

`Smtpapi.FieldValue` models the setter's reading as written, and the
`SmtpapiSetter` class keeps that behaviour because it models that file.
`Smtpapi.SelectFirst` is the corrected reading, and `Delivery.DeliveryMethod.Deliver`
uses it. `Smtpapi.FieldValueAgrees` proves that the two readings agree
whenever the header occurs at most once.
