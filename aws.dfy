/**
  The two cloud calls the mailer makes, S3 `put_object` and SES
  `send_raw_email`, seen only through the record of calls they leave.
 */
module Aws {
  import opened Mime

  /** What SES answers: a message id, or a `ClientError` carrying a message. */
  datatype SendOutcome = Sent(messageId: string) | Rejected(message: string)

  datatype Effect =
    | Put(bucket: string, key: string, body: seq<byte>, contentType: string)
    | Send(source: string, destinations: seq<string>, message: MimePart)

  newtype byte = x: int | 0 <= x < 256

  function CountPuts(trace: seq<Effect>): nat {
    if trace == [] then 0 else (if trace[0].Put? then 1 else 0) + CountPuts(trace[1..])
  }

  function CountSends(trace: seq<Effect>): nat {
    if trace == [] then 0 else (if trace[0].Send? then 1 else 0) + CountSends(trace[1..])
  }

  /** Counting calls distributes over the concatenation of two traces. */
  lemma {:induction false} CountAppend(a: seq<Effect>, b: seq<Effect>)
    ensures CountPuts(a + b) == CountPuts(a) + CountPuts(b)
    ensures CountSends(a + b) == CountSends(a) + CountSends(b)
  {
    if a == [] {
      assert a + b == b;
    } else {
      assert (a + b)[1..] == a[1..] + b;
      CountAppend(a[1..], b);
    }
  }

  /** The S3 and SES clients: every call appends to `trace`. */
  class Clients {
    ghost var trace: seq<Effect>

    constructor ()
      ensures trace == []
    {
      trace := [];
    }

    method PutObject(bucket: string, key: string, body: seq<byte>, contentType: string)
      modifies this
      ensures trace == old(trace) + [Put(bucket, key, body, contentType)]
    {
      trace := trace + [Put(bucket, key, body, contentType)];
    }

    /** The provider's answer is not ours to compute: it is passed in as `answer`. */
    method SendRawEmail(source: string, destinations: seq<string>, message: MimePart, answer: SendOutcome)
      returns (outcome: SendOutcome)
      modifies this
      ensures trace == old(trace) + [Send(source, destinations, message)]
      ensures outcome == answer
    {
      trace := trace + [Send(source, destinations, message)];
      outcome := answer;
    }
  }
}
