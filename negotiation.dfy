/** The pad-added handler `main` connects to the RTSP source: it links the
    first RTP video pad the source announces to the depayloader's sink pad. */
module Negotiation {
  import opened Gst

  /** The handler's caps filter: the structure is named exactly
      "application/x-rtp" and its `media` field is the string "video". A
      missing `media` field, or one that is not a string, is not video. */
  function IsRtpVideo(caps: Caps): (video: bool)
    ensures video ==> caps.name == "application/x-rtp"
    ensures video ==> "media" in caps.fields && caps.fields["media"].Text? && caps.fields["media"].s == "video"
  {
    caps.name == "application/x-rtp" && "media" in caps.fields && caps.fields["media"] == Text("video")
  }

  lemma MissingMediaIsNotVideo(caps: Caps)
    requires "media" !in caps.fields || caps.fields["media"].NonText?
    ensures !IsRtpVideo(caps)
  {
  }

  lemma OtherMediaOrCapsAreIgnored(caps: Caps, media: string)
    requires caps.name != "application/x-rtp" || ("media" in caps.fields && caps.fields["media"] == Text(media) && media != "video")
    ensures !IsRtpVideo(caps)
  {
  }

  /** What one invocation of the handler did. Every invocation first logs
      "Received new pad" (info); then each outcome adds one line, "Already
      linked; ignoring" (info), nothing, "Link succeeded" (info) or "Failed to
      link" (error). */
  datatype PadOutcome = AlreadyLinked | Ignored | Linked | LinkRefused

  /** The link the handler asks for: the new pad to the depayloader's "sink". */
  function PadLink(src: Element, pad: Pad, depay: Element): Link {
    Link(src.name, pad.name, depay.name, "sink")
  }

  /** The links after the handler has seen `pad`, given the bin's elements
      and links before: the new pad's link is appended exactly when the
      depayloader's sink pad is free, the caps are RTP video and the runtime
      accepts the link. */
  function HandledPad(env: Env, elements: set<string>, links: seq<Link>, src: Element, pad: Pad, depay: Element): (after: seq<Link>)
    ensures after == links || after == links + [PadLink(src, pad, depay)]
    ensures after != links <==>
              !LinkedInto(links, depay.name, "sink") && IsRtpVideo(pad.caps) &&
              Linkable(env, elements, links, PadLink(src, pad, depay))
  {
    if !LinkedInto(links, depay.name, "sink") && IsRtpVideo(pad.caps) &&
       Linkable(env, elements, links, PadLink(src, pad, depay))
    then links + [PadLink(src, pad, depay)]
    else links
  }

  /** The pad-added closure: do nothing once the depayloader's sink pad is
      linked; otherwise link the new pad to it when its caps are RTP video.
      A refused link is only reported, and changes nothing. */
  method OnPadAdded(p: Pipeline, src: Element, depay: Element, pad: Pad) returns (o: PadOutcome)
    requires p.Valid()
    modifies p
    ensures p.Valid()
    ensures old(p.SinkLinked(depay.name, "sink")) ==> o == AlreadyLinked
    ensures !old(p.SinkLinked(depay.name, "sink")) && !IsRtpVideo(pad.caps) ==> o == Ignored
    ensures !old(p.SinkLinked(depay.name, "sink")) && IsRtpVideo(pad.caps) ==>
              o == if old(p.CanLink(PadLink(src, pad, depay))) then Linked else LinkRefused
    ensures p.links == if o == Linked then old(p.links) + [PadLink(src, pad, depay)] else old(p.links)
    ensures p.links == HandledPad(p.env, old(p.elements), old(p.links), src, pad, depay)
    ensures p.props == old(p.props) && p.elements == old(p.elements)
    ensures p.state == old(p.state) && p.requests == old(p.requests)
  {
    if p.SinkLinked(depay.name, "sink") {
      return AlreadyLinked;
    }
    if pad.caps.name == "application/x-rtp" && "media" in pad.caps.fields && pad.caps.fields["media"] == Text("video") {
      var ok := p.LinkPads(PadLink(src, pad, depay));
      o := if ok then Linked else LinkRefused;
    } else {
      o := Ignored;
    }
  }
}
