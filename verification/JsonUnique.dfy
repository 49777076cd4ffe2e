/** What a client reads from the event stream: each payload as it was sent. */
module JsonUnique {
  import opened Wrappers
  import opened Sse
  import opened JsonReader

  /** Where a dumped value ends is clear from the text, and so is the value. */
  lemma DumpsUnique(a: Json, b: Json, x: string, y: string)
    requires Dumps(a) + x == Dumps(b) + y && Stops(x) && Stops(y)
    ensures a == b && x == y
  {
    ReadsBack(a, x);
    ReadsBack(b, y);
    hide Read;
  }

  /** A client's reading of one event: the closing marker, or a JSON text and nothing after it. */
  function Understood(body: string): Option<Payload> {
    if body == "[DONE]" then Some(Done)
    else
      match Read(body)
      case None => None
      case Some((j, rest)) => if Skip(rest) == "" then Some(Data(j)) else None
  }

  lemma BodyUnderstood(p: Payload)
    ensures Understood(Body(p)) == Some(p)
  {
    DoneIsUnique(p);
    if p.Data? {
      assert Dumps(p.json) + "" == Dumps(p.json);
      ReadsBack(p.json, "");
    }
    hide Read, Dumps;
  }

  /** A decoder of event streams that reads each event as JSON text gives back the payloads: all of them, in order. */
  lemma StreamUnderstood(ps: seq<Payload>)
    ensures var events := Decode(Stream(ps));
            |events| == |ps| && forall i | 0 <= i < |ps| :: Understood(events[i]) == Some(ps[i])
  {
    FramingRoundTrip(ps);
    forall i | 0 <= i < |ps| ensures Understood(Bodies(ps)[i]) == Some(ps[i]) { BodyUnderstood(ps[i]); }
  }

  /** Whatever sequence decodes to the same events is the same sequence. */
  lemma PayloadsRecovered(ps: seq<Payload>, qs: seq<Payload>)
    requires Decode(Stream(ps)) == Bodies(qs)
    ensures ps == qs
  {
    StreamUnderstood(ps);
    forall i | 0 <= i < |ps| ensures ps[i] == qs[i] { BodyUnderstood(qs[i]); }
  }
}
