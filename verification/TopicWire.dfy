/** What the topic bus publishes, in the wire format: which of its own messages it can read back. */
module TopicWire {
  import opened TopicBus
  import opened WireCodec
  import opened WireMessages
  import Protocol = WireProtocol

  // An envelope to publish, the keys of its metadata in the order written, and a number for it.
  datatype Posting = Posting(envelope: Envelope, keys: seq<string>, number: nat)

  /** Its payload has the type it says, and its doubles have texts that read back. */
  ghost predicate Postable(k: Doubles, p: Posting) {
    PayloadMatches(p.envelope) && Protocol.Writable(k, p.envelope.payload, p.keys)
  }

  function Text(k: Doubles, p: Posting): string {
    Protocol.Encode(k, p.envelope, p.keys).ValueOr("")
  }

  /** The bus's own decoder accepts the text, or refuses it. */
  function PublicationOf(k: Doubles, p: Posting): Publication {
    Publication(p.number, Protocol.Decode(k, Text(k, p)).Some?)
  }

  /** It decodes exactly when its amounts fit, and then to the same envelope, origin included. */
  lemma PublicationDecodes(k: Doubles, p: Posting)
    requires Postable(k, p)
    ensures PublicationOf(k, p).decodable <==> Protocol.AmountsFit(p.envelope.payload)
    ensures PublicationOf(k, p).decodable ==> Protocol.Decode(k, Text(k, p)).value == p.envelope
  {
    hide Protocol.Decode, Protocol.Encode, PayloadMatches, Protocol.Writable, Protocol.AmountsFit;
    Protocol.DecodeUndoesEncode(k, p.envelope, p.keys);
  }

  /**
   * depth() counts the own messages still in the log or in hand, in every run in which the bus publishes
   * `postings`, if and only if none of these holds an amount of INT64_MIN millionths.
   */
  lemma DepthIsOutstandingForAmounts(k: Doubles, postings: iset<Posting>, foreign: iset<Message>)
    requires forall p :: p in postings ==> Postable(k, p)
    requires NoneCounts(foreign)
    ensures var own := iset p | p in postings :: PublicationOf(k, p);
            (forall steps, b ::
               Run(NEW, steps, b) && Writes(steps, foreign) && Publishes(steps, own) ==> DepthIsOutstanding(b))
            <==> forall p :: p in postings ==> Protocol.AmountsFit(p.envelope.payload)
  {
    hide Run, Writes, NoneCounts, DepthIsOutstanding, PublicationOf, Postable, Protocol.AmountsFit;
    var own := iset p | p in postings :: PublicationOf(k, p);
    DepthIsOutstandingExactly(own, foreign);
    forall p | p in postings
      ensures PublicationOf(k, p).decodable <==> Protocol.AmountsFit(p.envelope.payload)
    {
      PublicationDecodes(k, p);
    }
    assert AllDecode(own) <==> forall p :: p in postings ==> Protocol.AmountsFit(p.envelope.payload);
  }
}
