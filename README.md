# Harvest-report mailer, modelled in Dafny

This project models `main.py` of the Green-Eye email-reports function. An S3 event delivers a stored
email. The handler parses it and compares its subject with the `AVANCE_COSECHA` sentinel.

- **Harvest report.** If the subject is exactly the sentinel, the handler scans the attachments. It stores
  the first one named `AVANCE_COSECHA + ".png"` in `PNG_BUCKET`, under a key made from the current time.
  It then mails a fixed report to the `AVANCE_COSECHA_RECIPIENTS`: a plain line with the report link, and
  an HTML page with the image URL, the viewer credentials and the report link.
- **Forward to admins.** For any other subject, it forwards the email's HTML body to `ADMINS_EMAIL`
  under the same subject.
- **Sending.** One SES `send_raw_email` call goes to the whole recipient list. Its answer becomes the line
  the handler prints.

Modules, one file each:

- `Wrappers` (`wrappers.dfy`): `Option` and `Result`.
- `PyStr` (`pystr.dfy`): Python's `str.split(c)`, `str.strip()` and `sep.join(...)`, with their
  round-trip and uniqueness lemmas.
- `Timestamps` (`timestamps.dfy`): the object key `strftime("%Y%d%m%H%M%S.png")`. It is proved a
  bijection between clock readings and well-formed keys.
- `Mime` (`mime.dfy`): the `MIMEMultipart` container as a class whose headers and children are
  appended in place, and finished messages as `MimePart` values.
- `Aws` (`aws.dfy`): the S3 and SES clients as a class that records every call in a ghost `trace`.
  The SES answer (`Sent(id)` or `Rejected(message)`) is an input.
- `Mailer` (`mailer.dfy`): `main.py` itself. This covers the configuration record, recipient parsing,
  routing, `build_email`, `avance_de_cosecha` (a loop with an early exit and a store call),
  `forward_to_admin`, `send_email` and `lambda_handler`. The handler is proved to append exactly
  `HandlerEffects(...)` to the trace.
- `MailerProperties` (`mailer_props.dfy`): what one invocation does, stated over `HandlerEffects`. It
  stores at most one object, sends exactly once, uses the right source and destinations, and takes the
  right subject and bodies.

The day comes before the month in the key (`%Y%d%m`). Even so, two different times (to the second)
never get the same key: `StorageKeyRoundTrip` shows that the key determines the time.

## Model

| member | source | states |
|---|---|---|
| PyStr.Split | main.py:52 | `split(',')` gives one field more than there are commas, keeps empty fields, and no field contains the separator; text without a separator is one field |
| PyStr.JoinSplit | main.py:52 | joining the fields of `split(c)` with `c` rebuilds the original text (nothing is lost or reordered) |
| PyStr.Join | main.py:32 | `sep.join(parts)`; what it means is stated by its partners `JoinSplit` and `SplitJoin` |
| PyStr.SplitJoin | main.py:32 | splitting a join of separator-free parts gives exactly the parts back |
| PyStr.Strip | main.py:95 | `strip()` leaves a result with no white space at either end; it is empty iff the input is all white space; otherwise it is the input's infix right after the leading white space, with only white space after it |
| PyStr.StripUnique | main.py:52 | white space + a stripped core + white space strips to exactly that core, so `strip()` is fully determined |
| Timestamps.Pad | main.py:56 | a zero-padded field has exactly the requested width, only digits, and denotes the number it was made from |
| Timestamps.StorageKey | main.py:56 | the key is 18 characters and ends in `.png` |
| Timestamps.StorageKeyFields | main.py:56 | the first 14 characters of the key are digits whose groups read back as year, day, month, hour, minute, second, in that order (day before month) |
| Timestamps.StorageKeyRoundTrip | main.py:56 | reading a key back gives the time it was made from, so distinct times give distinct keys |
| Timestamps.ParseStorageKeyRoundTrip | main.py:56 | every string that reads back as a valid time is exactly that time's key |
| Mime.MultipartHeaders | main.py:30 | a new multipart container has two headers, Content-Type then MIME-Version, and Content-Type is `multipart/<subtype>` |
| Mime.MimeMultipart.constructor | main.py:30 | `MIMEMultipart(subtype)` starts with Content-Type and MIME-Version headers and no children |
| Mime.MimeMultipart.SetHeader | main.py:31-33 | a header assignment appends one header and leaves the children alone |
| Mime.MimeMultipart.Attach | main.py:39 | `attach` appends one child and leaves the headers alone |
| Aws.Clients.PutObject | main.py:61 | a store call appends exactly one `Put(bucket, key, body, "image/png")` to the trace |
| Aws.Clients.SendRawEmail | main.py:109-115 | a send call appends exactly one `Send(source, destinations, message)` and yields the provider's answer |
| Mailer.ParseRecipients | main.py:52 | a recipient setting gives one entry per comma-separated field (commas + 1, empty fields kept), in order, each the field with its surrounding white space stripped |
| Mailer.JoinAddresses | main.py:32 | the To header value `", ".join(recipients)`; `RecipientsRoundTrip` shows parsing it gives the list back |
| Mailer.RecipientsRoundTrip | main.py:95 | parsing the To header built from trimmed, comma-free addresses gives the same list back |
| Mailer.SingleRecipient | main.py:32 | a setting without a comma yields one recipient, and the To header is that address alone |
| Mailer.RouteSubject | main.py:133-136 | the harvest route is taken iff the subject equals the sentinel exactly; otherwise the forward route carries the subject unchanged |
| Mailer.EmailHeadersLookup | main.py:30-33 | the outer headers give From = sender, To = recipients joined with `", "`, Subject = the subject |
| Mailer.AlternativePartsBodies | main.py:35-43 | the alternative part has a plain child iff a text body is given and an HTML child iff an HTML body is given, with those bodies; plain comes first; with neither it is empty |
| Mailer.ComposedEmailContents | main.py:28-47 | the built message is `multipart/mixed` with the From/To/Subject headers and exactly one `multipart/alternative` child holding the optional plain and HTML bodies, plain first |
| Mailer.BuildEmail | main.py:28-47 | building the two containers step by step (header assignments, conditional attaches) yields exactly `ComposedEmail` |
| Mailer.FillOffsets | main.py:66-84 | filling a four-hole template puts each value right after the template text before it, at offsets fixed by the lengths of the earlier text and values |
| Mailer.HarvestHtml | main.py:66-84 | the template `.format(url_img, VIEWER_EMAIL, VIEWER_PASS, AVANCE_COSECHA_URL)`, with the template text copied character for character; `HarvestHtmlFilled` states where the four values land |
| Mailer.HarvestHtmlFilled | main.py:66-84 | the HTML template holds the image URL, the viewer user, the viewer password and the report URL at increasing positions, in that order |
| Mailer.ImageUrl | main.py:64 | the image URL is `https://`, then the bucket, then `.s3.amazonaws.com/`, then the object key, with nothing else in between |
| Mailer.ImageUrlInjective | main.py:64 | for keys of one length, two equal image URLs name the same bucket and the same key, so the URL in the report points at exactly the stored object |
| Mailer.FirstMatch | main.py:58-60 | the index found names an attachment with exactly the wanted filename, and no earlier attachment has it; none is found only when no attachment has it |
| Mailer.StoreHarvestImage | main.py:58-62 | the attachment scan stores only the first attachment named `AVANCE_COSECHA + ".png"`, under the given key, and stops; with no such attachment it stores nothing |
| Mailer.AvanceDeCosecha | main.py:50-90 | the harvest composer stores as `StoreHarvestImage` does, under the time-based key, and returns the harvest recipients and the harvest report |
| Mailer.HtmlBody | main.py:97-98 | the forwarded HTML is the body part's decoded text; a missing HTML part (`NoHtmlBody`), a part without a charset (`NoHtmlCharset`) and a payload the declared charset cannot decode (`Undecodable`) are faults, checked in that order |
| Mailer.ForwardToAdmin | main.py:93-102 | forwarding faults exactly when `HtmlBody` does (no HTML part, no charset, or a payload that does not decode), with the same fault; otherwise it returns the admin recipients and a message with the same subject, no plain body, and the original HTML |
| Mailer.SendReport | main.py:117-120 | success gives `"Email sent! Message ID: "` followed by the id; a provider error gives its message verbatim |
| Mailer.SendEmail | main.py:105-120 | one send call from SENDER to the given recipients is recorded, and the reported line maps the provider's answer |
| Mailer.Plan | main.py:128-136 | the handler gets to a send iff the subject is present and either equals the sentinel or the HTML body is present, has a charset and decodes with it; the harvest route is taken iff the subject equals the sentinel |
| Mailer.HandlerEffects | main.py:122-138 | the reference list of every S3 and SES call one invocation makes, in order; `LambdaHandler` appends exactly it, and the `MailerProperties` lemmas state its meaning |
| Mailer.LambdaHandler | main.py:122-138 | the calls the handler makes are exactly `HandlerEffects`; it returns the send report iff it gets past parsing, and otherwise the fault raised first |
| MailerProperties.AtMostOneStore | main.py:58-62 | an invocation stores at most one object, and one exactly when it takes the harvest route and some attachment has the image name |
| MailerProperties.ExactlyOneSend | main.py:138 | an invocation that gets past parsing sends exactly once, as its last call, from SENDER to the full recipient list of its route; a fault sends nothing |
| MailerProperties.StoredImageIsFirstMatch | main.py:58-62 | the stored bytes are those of the first attachment named `AVANCE_COSECHA + ".png"`, and later ones are ignored; the store precedes the send |
| MailerProperties.HarvestMessageContents | main.py:54-88 | the harvest message has subject `"Avance de cosecha"`, plain body `"Ingresar al reporte: " + AVANCE_COSECHA_URL` and the filled template as HTML; the HTML embeds the image URL, which names `PNG_BUCKET` and ends with the key the image is stored under, whether or not an image was stored |
| MailerProperties.ForwardPreservesSubject | main.py:133-136 | a non-sentinel subject is forwarded once to the admins under the same subject, with no plain body and the original HTML |
| MailerProperties.RoutingIsCaseSensitive | main.py:133 | with sentinel `"Avance de cosecha"`, the subject `"avance de cosecha"` is forwarded, not treated as the harvest report |

## Left out

- Fetching the stored email (`s3.get_object`, main.py:124) and parsing it (`BytesParser`, main.py:126)
  are not modelled. The parsed email is an input: its decoded subject (absent if there is no Subject
  header), the part `get_body("html")` finds (with its declared charset and decoded text), and the
  attachments in `iter_attachments()` order (filename, if any, and decoded payload). Only the first S3
  record is ever read; event parsing is not modelled.
- `decode_header` (main.py:128-130) is not modelled. Under `policy.default` the parser already returns
  the decoded subject, so `decode_header` hands it back whole. A missing subject is the `MissingSubject`
  fault (`decode_header(None)` raises). A decoded subject that itself looks like an RFC 2047 encoded
  word, which would be decoded a second time, is not modelled.
- Charset decoding of the HTML payload (main.py:98) is an input: the decoded text, or `None` when
  `decode` raises `LookupError` (an unknown charset name) or `UnicodeDecodeError` (bytes invalid in the
  charset). Both give the `Undecodable` fault. Which bytes fail to decode in which charset is not
  modelled. Content-transfer decoding of attachments is outside the model; its result is an input.
- MIME serialisation (`as_string()`, main.py:113) is not modelled. That covers boundaries,
  Content-Transfer-Encoding and the charset parameter text. The trace records the message as a
  `MimePart` value.
- Mime.MimeMultipart.Attach: `attach` stores a reference in Python, but the model stores a snapshot
  value. The inner container is never changed after it is attached (main.py:45), so the result is the
  same.
- Header lookup (`GetHeader`) compares names exactly, while Python compares them case-insensitively.
  The names used here are fixed strings.
- `os.getenv` at import (main.py:17-25) is a `Config` record of strings. An unset variable (`None` in
  Python) is not modelled.
- `datetime.now()` (main.py:56) is a `Timestamp` parameter. Timestamps.Valid excludes years before
  1000, because their `%Y` rendering depends on the platform. Microseconds are not part of the key.
- SES and S3 are not modelled beyond the calls recorded in the trace. The SES answer is a parameter.
  Exceptions other than `ClientError` (which would propagate out of `send_email`) are not modelled.
- Aws.Clients.PutObject always succeeds. In the source, `s3.put_object` (main.py:61) has no `try`, so a
  provider error there ends the harvest route after the store call and before any send. The model does
  not capture this path.
- MailerProperties.ExactlyOneSend: the one send it promises on the harvest route presumes that the
  `put_object` call before it succeeded, since a failing store is not modelled.
- `print` (main.py:131, main.py:138) is I/O. The handler returns the line it would print.
