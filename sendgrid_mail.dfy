/**
 * The outgoing SendGrid email record the delivery method fills in, and the
 * X-SMTPAPI header object it carries. Only the parts the adapter writes are
 * modelled: each setter the adapter calls stores its argument, `add_category`
 * appends to a list and `add_unique_arg` stores one key/value pair.
 */
module SendGridMail {
  import opened Wrappers
  import opened Json

  /** An ordinary attachment, added by `add_attachment(path, name)`. */
  datatype FileAttachment = FileAttachment(name: string, bytes: seq<byte>)

  /** Inline content referenced from the html body, added by `add_content(path, cid)`. */
  datatype InlineContent = InlineContent(name: string, bytes: seq<byte>, cid: string)

  /** The `smtpapi` header object of an email. */
  class SmtpapiHeader {
    /** The values passed to `set_filters`, `set_categories`, … `set_ip_pool`, under their JSON key. */
    var settings: map<string, Json>
    /** The values passed to `add_category`, in order. */
    var categories: seq<Json>
    /** The pairs passed to `add_unique_arg`. */
    var uniqueArgs: map<Json, Json>

    constructor ()
      ensures settings == map[] && categories == [] && uniqueArgs == map[]
    {
      settings, categories, uniqueArgs := map[], [], map[];
    }
  }

  /** A `SendGrid::Mail`; None is a field nobody assigned. */
  class Email {
    var to: Option<seq<string>>
    var cc: Option<seq<string>>
    var bcc: Option<seq<string>>
    var from: Option<string>
    var fromName: Option<string>
    var replyTo: Option<string>
    var date: Option<string>
    var subject: Option<string>
    var text: Option<string>
    var html: Option<string>
    var attachments: seq<FileAttachment>
    var contents: seq<InlineContent>
    const smtpapi: SmtpapiHeader

    constructor ()
      ensures to.None? && cc.None? && bcc.None? && from.None? && fromName.None?
      ensures replyTo.None? && date.None? && subject.None? && text.None? && html.None?
      ensures attachments == [] && contents == []
      ensures fresh(smtpapi)
      ensures smtpapi.settings == map[] && smtpapi.categories == [] && smtpapi.uniqueArgs == map[]
    {
      to, cc, bcc, from, fromName := None, None, None, None, None;
      replyTo, date, subject, text, html := None, None, None, None, None;
      attachments, contents := [], [];
      smtpapi := new SmtpapiHeader();
    }
  }

  /** The unique arguments after `add_unique_arg(k, v)` for each pair of `pairs` in turn. */
  function InsertAll(m: map<Json, Json>, pairs: seq<(Json, Json)>): map<Json, Json> {
    if pairs == [] then m
    else InsertAll(m, pairs[..|pairs| - 1])[pairs[|pairs| - 1].0 := pairs[|pairs| - 1].1]
  }

  /**
   * After inserting `pairs`, a key is present exactly when it was before or
   * some pair carries it; the last pair carrying it decides its value, and a
   * key no pair carries keeps its old value.
   */
  lemma {:induction false} InsertAllFacts(m: map<Json, Json>, pairs: seq<(Json, Json)>, k: Json)
    ensures k in InsertAll(m, pairs) <==> k in m || exists i :: 0 <= i < |pairs| && pairs[i].0 == k
    ensures (forall i :: 0 <= i < |pairs| ==> pairs[i].0 != k) && k in m ==> InsertAll(m, pairs)[k] == m[k]
    ensures forall i :: 0 <= i < |pairs| && pairs[i].0 == k && (forall j :: i < j < |pairs| ==> pairs[j].0 != k) ==>
      k in InsertAll(m, pairs) && InsertAll(m, pairs)[k] == pairs[i].1
  {
    if pairs != [] {
      var n := |pairs| - 1;
      var init := pairs[..n];
      InsertAllFacts(m, init, k);
      assert forall i :: 0 <= i < n ==> init[i] == pairs[i];
    }
  }
}
