/** The connection-establishment guards. The peer connection and its data
    channel are browser objects; all the application consults of them is
    whether they exist, the connection's `signalingState` and the channel's
    `readyState`, so that is all that is kept here. */
module Signaling {
  import opened Base

  /** `signalingState` as it can be observed between two events: every
      negotiation step the application starts runs to its end within one
      event, so the transient "have-remote-offer" never remains. */
  datatype SigState = Stable | HaveLocalOffer

  /** The data channel's `readyState`. */
  datatype ChannelState = Connecting | Open | Closing | Closed

  /** The `type` field of a decoded session description. */
  datatype DescKind = Offer | Answer | OtherKind

  /** A decoded session description; its body is opaque to the application. */
  datatype Descriptor = Descriptor(kind: DescKind, body: string)

  /** Why a pasted descriptor was refused (each ends in the same "Invalid
      SDP" alert): it could not be fetched, inflated or parsed; it is an
      answer while no offer of ours is pending; no connection exists to
      apply it to; or its type is neither offer nor answer. */
  datatype Rejection = Undecodable | AnswerBeforeOffer | NoLink | UnsupportedType

  datatype RemoteOutcome = Ignored | AnswerSent | RemoteSet | Rejected(reason: Rejection)

  /** `handleRemoteSDP` once the descriptor is decoded: the outcome and the
      connection's state afterwards, given the connection before (None when
      there is none) and whether camera and microphone were granted should
      an answerer have to be created. */
  function RemoteStep(link: Option<SigState>, kind: DescKind, mediaOk: bool)
    : (r: (RemoteOutcome, Option<SigState>))
    ensures r.0 == RemoteSet <==> kind == Answer && link == Some(HaveLocalOffer)
    ensures kind == Answer && link != Some(HaveLocalOffer) ==> r == (Rejected(AnswerBeforeOffer), link)
    ensures r.0 == AnswerSent <==> kind == Offer && (link.Some? || mediaOk)
    ensures kind == Offer && link.None? && mediaOk ==> r.1 == Some(Stable)
    ensures r.0.Rejected? ==> r.1 == link
    ensures !r.0.Rejected? ==> r.1 == Some(Stable)
  {
    if kind == Answer && link != Some(HaveLocalOffer) then (Rejected(AnswerBeforeOffer), link)
    else
      var l := if link.None? && kind == Offer && mediaOk then Some(Stable) else link;
      if l.None? then (Rejected(NoLink), l)
      else
        match kind
        case Offer => (AnswerSent, Some(Stable))
        case Answer => (RemoteSet, Some(Stable))
        case OtherKind => (Rejected(UnsupportedType), l)
  }

  /** Offer/answer round: the caller's pending offer, answered by the other
      side, leaves the caller stable; a second answer is then refused. */
  lemma AnswerOnlyOnce(mediaOk: bool)
    ensures RemoteStep(Some(HaveLocalOffer), Answer, mediaOk) == (RemoteSet, Some(Stable))
    ensures RemoteStep(Some(Stable), Answer, mediaOk) == (Rejected(AnswerBeforeOffer), Some(Stable))
    ensures RemoteStep(None, Answer, mediaOk) == (Rejected(AnswerBeforeOffer), None)
  {
  }
}
