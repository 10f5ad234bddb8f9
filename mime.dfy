/**
  The part of Python's `email.mime` that the mailer builds with: multipart
  containers whose headers are assigned and whose children are attached one
  at a time, and text leaves. A finished message is a `MimePart` value.
 */
module Mime {
  import opened Wrappers

  datatype Header = Header(name: string, value: string)

  datatype MimePart =
    /** `MIMEMultipart(subtype)`: Content-Type `multipart/<subtype>`. */
    | Multipart(subtype: string, headers: seq<Header>, parts: seq<MimePart>)
    /** `MIMEText(body, subtype, charset)`: Content-Type `text/<subtype>`. */
    | Text(subtype: string, charset: string, body: string)

  /** `msg[name]`: the value of the first header with that name, if any. */
  function GetHeader(headers: seq<Header>, name: string): (r: Option<string>)
    ensures r.None? <==> forall i :: 0 <= i < |headers| ==> headers[i].name != name
  {
    if headers == [] then None
    else if headers[0].name == name then Some(headers[0].value)
    else GetHeader(headers[1..], name)
  }

  /** Headers with other names in front do not change a lookup. */
  lemma {:induction false} GetHeaderSkip(front: seq<Header>, rest: seq<Header>, name: string)
    requires forall i :: 0 <= i < |front| ==> front[i].name != name
    ensures GetHeader(front + rest, name) == GetHeader(rest, name)
  {
    if front == [] {
      assert front + rest == rest;
    } else {
      assert (front + rest)[1..] == front[1..] + rest;
      GetHeaderSkip(front[1..], rest, name);
    }
  }

  /** The body of the first text child of the given subtype (what
      `get_body` finds among the parts of a `multipart/alternative`). */
  function TextBody(parts: seq<MimePart>, subtype: string): (r: Option<string>)
    ensures r.None? <==> forall i :: 0 <= i < |parts| ==> !(parts[i].Text? && parts[i].subtype == subtype)
  {
    if parts == [] then None
    else if parts[0].Text? && parts[0].subtype == subtype then Some(parts[0].body)
    else TextBody(parts[1..], subtype)
  }

  /** The headers `MIMEMultipart(subtype)` starts with. */
  function MultipartHeaders(subtype: string): (hs: seq<Header>)
    ensures |hs| == 2 && hs[0].name == "Content-Type" && hs[1].name == "MIME-Version"
    ensures GetHeader(hs, "Content-Type") == Some("multipart/" + subtype)
  {
    [Header("Content-Type", "multipart/" + subtype), Header("MIME-Version", "1.0")]
  }

  /** A multipart container under construction. */
  class MimeMultipart {
    const subtype: string
    var headers: seq<Header>
    var parts: seq<MimePart>

    /** `MIMEMultipart(subtype)` sets Content-Type and MIME-Version and has no children. */
    constructor (subtype: string)
      ensures this.subtype == subtype
      ensures headers == MultipartHeaders(subtype)
      ensures parts == []
    {
      this.subtype := subtype;
      headers := MultipartHeaders(subtype);
      parts := [];
    }

    /** `msg[name] = value` adds a header; it never replaces an earlier one. */
    method SetHeader(name: string, value: string)
      modifies this
      ensures headers == old(headers) + [Header(name, value)]
      ensures parts == old(parts)
    {
      headers := headers + [Header(name, value)];
    }

    /** `msg.attach(part)` appends a child. */
    method Attach(part: MimePart)
      modifies this
      ensures parts == old(parts) + [part]
      ensures headers == old(headers)
    {
      parts := parts + [part];
    }

    /** The container as a value. */
    function Value(): (m: MimePart)
      reads this
      ensures m.Multipart? && m.subtype == subtype && m.parts == parts
    {
      MimePart.Multipart(subtype, headers, parts)
    }
  }
}
