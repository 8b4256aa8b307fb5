/**
 * The parsed mail message the delivery method reads, with everything the Mail
 * library computes (address parsing, body decoding, locating the text and
 * html parts, extracting Content-IDs) already done.
 */
module Message {
  import opened Wrappers

  /** One parsed address: `addr.address` and `addr.display_name`. */
  datatype Address = Address(address: string, displayName: Option<string>)

  /** One entry of `mail.attachments`: its file name, `read` bytes and bare Content-ID, if it has one. */
  datatype Attachment = Attachment(filename: string, bytes: seq<byte>, contentId: Option<string>)

  /**
   * A header that is absent is None; a present address header holds the
   * addresses it lists (possibly none). `smtpapi` holds the value of each
   * X-SMTPAPI field in header order (None for a field without a value), so
   * it is empty when the header is absent. `mimeType` is `mail.mime_type`,
   * `body` the decoded body, `htmlPart` and `textPart` the decoded
   * `html_part` and `text_part` when the message has them.
   */
  datatype Mail = Mail(
    from: Option<seq<Address>>,
    to: Option<seq<string>>,
    cc: Option<seq<string>>,
    bcc: Option<seq<string>>,
    replyTo: Option<seq<string>>,
    date: Option<string>,
    subject: Option<string>,
    smtpapi: seq<Option<string>>,
    mimeType: Option<string>,
    body: string,
    htmlPart: Option<string>,
    textPart: Option<string>,
    attachments: seq<Attachment>)
}
