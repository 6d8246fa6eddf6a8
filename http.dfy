/** The shape of one outbound HTTP call, as far as the core decides it:
    the method sent, the URL, the headers and the optional JSON body.
    Sending it is outside the model. */
module Http {
  import opened Yarn

  datatype Outbound<B> = Outbound(verb: string, url: string, headers: ReqHash, body: Option<B>)

  /** The method name put on the wire: POST for a POST request, GET for
      anything else. */
  function MethodBytes(m: ConfigMethod): (v: string)
    ensures v == "POST" <==> m == POST
    ensures v == "GET" <==> m != POST
  {
    if m == POST then "POST" else "GET"
  }

  /** With only two configured methods, the method sent is the method's
      own rendering. */
  lemma VerbIsRendering(m: ConfigMethod)
    ensures MethodBytes(m) == ToString(m)
  {
  }
}
