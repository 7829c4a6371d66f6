/** The program's `main`: build the pipeline for the chosen sink, hand the
    source's pads to the pad-added handler, play, consume the bus until an
    Error or EOS, and set the pipeline to Null. */
module RtspToKvs {
  import opened Outcomes
  import opened Gst
  import opened Config
  import opened Assembly
  import opened Negotiation
  import opened Bus

  const Source: Element := Element("rtspsrc", "source")
  const Depay: Element := Element("rtph264depay", "rtph264depay")

  /** The elements the chosen setup adds to the bin. */
  function SinkElements(cmd: Command, src: Element, depay: Element): seq<Element> {
    match cmd
    case PlayBack(_) => PlaybackElements(src, depay)
    case Kvs(_, _) => KvsElements(src, depay)
  }

  /** The chain the chosen setup links, from the depayloader on. */
  function SinkChain(cmd: Command, depay: Element): seq<Element> {
    match cmd
    case PlayBack(_) => PlaybackChain(depay)
    case Kvs(_, _) => KvsChain(depay)
  }

  /** The elements in the bin once the chosen setup has added its batch. */
  function BinElements(cmd: Command): set<string> {
    NameSet(SinkElements(cmd, Source, Depay))
  }

  /** The links the chosen setup makes. */
  function StaticLinks(cmd: Command): seq<Link> {
    ChainLinks(Names(SinkChain(cmd, Depay)))
  }

  /** Every element of either setup has its own name. */
  lemma SinkElementsDistinct(cmd: Command, src: Element, depay: Element)
    requires src.name == "source" && depay.name == "rtph264depay"
    ensures Distinct(Names(SinkElements(cmd, src, depay)))
    ensures SinkElements(cmd, src, depay)[1..] == SinkChain(cmd, depay)
  {
    var ns := Names(SinkElements(cmd, src, depay));
    match cmd
    case PlayBack(_) =>
      assert ns == ["source", "rtph264depay", "h264parse", "avdec_h264", "videoconvert", "videosink"];
    case Kvs(_, _) =>
      assert ns == ["source", "rtph264depay", "h264parse", "kvssink"];
  }

  /** An empty bin takes either setup's elements unless it refuses additions. */
  lemma EmptyBinTakes(p: Pipeline, cmd: Command, src: Element, depay: Element)
    requires p.elements == {} && src.name == "source" && depay.name == "rtph264depay"
    ensures p.CanAdd(SinkElements(cmd, src, depay)) <==> !p.env.addRefused
  {
    SinkElementsDistinct(cmd, src, depay);
  }

  /** The source is added to the bin but no static link touches it; the
      depayloader's sink pad is left free for the pad-added handler. */
  lemma {:induction false} SourceNotStaticallyLinked(cmd: Command)
    ensures Source.name in BinElements(cmd) && Depay.name in BinElements(cmd)
    ensures forall l :: l in StaticLinks(cmd) ==> l.src != Source.name && l.sink != Source.name
    ensures forall l :: l in StaticLinks(cmd) ==> !Into(l, Depay.name, "sink")
  {
    SinkElementsDistinct(cmd, Source, Depay);
    var all := SinkElements(cmd, Source, Depay);
    assert all[0] == Source && all[1] == Depay;
    assert Names(all)[0] == Source.name && Names(all)[1] == Depay.name;
    forall l | l in StaticLinks(cmd)
      ensures l.src != Source.name && l.sink != Source.name && !Into(l, Depay.name, "sink")
    {
      var k :| 0 <= k < |StaticLinks(cmd)| && StaticLinks(cmd)[k] == l;
      assert SinkChain(cmd, Depay)[k] == all[k + 1] && SinkChain(cmd, Depay)[k + 1] == all[k + 2];
      assert l.src == Names(all)[k + 1] && l.sink == Names(all)[k + 2];
    }
  }

  /** The graph `setup_playback` builds, written out. */
  lemma PlaybackGraph(c: RtspConfig)
    ensures BinElements(PlayBack(c)) ==
              {"source", "rtph264depay", "h264parse", "avdec_h264", "videoconvert", "videosink"}
    ensures StaticLinks(PlayBack(c)) ==
              [Link("rtph264depay", "src", "h264parse", "sink"),
               Link("h264parse", "src", "avdec_h264", "sink"),
               Link("avdec_h264", "src", "videoconvert", "sink"),
               Link("videoconvert", "src", "videosink", "sink")]
  {
    var chain := ["rtph264depay", "h264parse", "avdec_h264", "videoconvert", "videosink"];
    assert StaticLinks(PlayBack(c)) == ChainLinks(chain) by {
      assert Names(SinkChain(PlayBack(c), Depay)) == chain;
    }
    assert ChainLinks(chain) ==
             [Link("rtph264depay", "src", "h264parse", "sink"),
              Link("h264parse", "src", "avdec_h264", "sink"),
              Link("avdec_h264", "src", "videoconvert", "sink"),
              Link("videoconvert", "src", "videosink", "sink")] by {
      assert |ChainLinks(chain)| == 4;
    }
    PlaybackBin(c);
  }

  /** The elements `setup_playback` adds, with the source and depayloader. */
  lemma PlaybackBin(c: RtspConfig)
    ensures BinElements(PlayBack(c)) ==
              {"source", "rtph264depay", "h264parse", "avdec_h264", "videoconvert", "videosink"}
  {
    var parse, dec := Element("h264parse", "h264parse"), Element("avdec_h264", "avdec_h264");
    var conv, sink := Element("videoconvert", "videoconvert"), Element("autovideosink", "videosink");
    assert SinkElements(PlayBack(c), Source, Depay) == [Source, Depay, parse, dec, conv, sink];
    NameSetOfSix(Source, Depay, parse, dec, conv, sink);
  }

  /** The names of a batch of six elements, as a set. */
  lemma NameSetOfSix(a: Element, b: Element, c: Element, d: Element, e: Element, f: Element)
    ensures NameSet([a, b, c, d, e, f]) == {a.name, b.name, c.name, d.name, e.name, f.name}
  {
    var es := [a, b, c, d, e, f];
    forall n | n in NameSet(es) ensures n in {a.name, b.name, c.name, d.name, e.name, f.name} {
      var x :| x in es && x.name == n;
    }
  }

  /** The graph `setup_kvssink` builds, written out. */
  lemma KvsGraph(k: KvsConfig, c: RtspConfig)
    ensures BinElements(Kvs(k, c)) == {"source", "rtph264depay", "h264parse", "kvssink"}
    ensures StaticLinks(Kvs(k, c)) ==
              [Link("rtph264depay", "src", "h264parse", "sink"),
               Link("h264parse", "src", "kvssink", "sink")]
  {
    var chain := ["rtph264depay", "h264parse", "kvssink"];
    assert StaticLinks(Kvs(k, c)) == ChainLinks(chain) by {
      assert Names(SinkChain(Kvs(k, c), Depay)) == chain;
    }
    assert ChainLinks(chain) ==
             [Link("rtph264depay", "src", "h264parse", "sink"),
              Link("h264parse", "src", "kvssink", "sink")] by {
      assert |ChainLinks(chain)| == 2;
    }
    var all := SinkElements(Kvs(k, c), Source, Depay);
    assert Names(all) == ["source"] + chain by {
      assert all == [Source, Depay, Element("h264parse", "h264parse"), Element("kvssink", "kvssink")];
    }
    SameNames(all, ["source"] + chain);
  }

  /** The set of names of a batch is the set of its sequence of names. */
  lemma SameNames(all: seq<Element>, ns: seq<string>)
    requires Names(all) == ns
    ensures forall n :: n in NameSet(all) <==> n in ns
  {
    forall n | n in ns ensures n in NameSet(all) {
      var i :| 0 <= i < |ns| && ns[i] == n;
      assert all[i] in all;
    }
  }

  /** Whether the chosen setup succeeds on an empty bin: its factories are
      known, the Kinesis sink takes its properties, the bin takes the elements
      and no link of the chain is refused. */
  predicate SinkOk(env: Env, cmd: Command, depay: Element) {
    && !env.addRefused
    && ChainFree(env, SinkChain(cmd, depay))
    && match cmd
       case PlayBack(_) => AllAvailable(env, PlaybackFactories)
       case Kvs(kvs, _) => AllAvailable(env, KvsFactories) && Accepted(env, "kvssink", KvsSinkProperties(kvs))
  }

  /** Whether the build before playing succeeds: the source takes its
      properties, the depayloader can be made and the chosen setup succeeds. */
  predicate BuildOk(env: Env, cmd: Command) {
    && "rtspsrc" in env.factories
    && Accepted(env, "rtspsrc", SourceProperties(RtspConfigOf(cmd)))
    && "rtph264depay" in env.factories
    && SinkOk(env, cmd, Depay)
  }

  /** The error the chosen setup returns on an empty bin when it fails: the
      first missing factory, then for the Kinesis sink its first refused
      property, then the refused addition, and otherwise a refused link. */
  function SinkError(env: Env, cmd: Command, depay: Element): (e: Error)
    requires !SinkOk(env, cmd, depay)
    ensures e.CreateFailed? <==>
              !AllAvailable(env, if cmd.PlayBack? then PlaybackFactories else KvsFactories)
    ensures e.PropertyRejected? ==> cmd.Kvs? && e.element == "kvssink" && ("kvssink", e.key) in env.rejected
    ensures e == AddFailed ==> env.addRefused
    ensures e == LinkFailed ==> !env.addRefused && !ChainFree(env, SinkChain(cmd, depay))
  {
    match cmd
    case PlayBack(_) =>
      if !AllAvailable(env, PlaybackFactories) then CreateFailed(PlaybackFactories[FirstMissing(env, PlaybackFactories)])
      else if env.addRefused then AddFailed
      else LinkFailed
    case Kvs(kvs, _) =>
      var plan := KvsSinkProperties(kvs);
      if !AllAvailable(env, KvsFactories) then CreateFailed(KvsFactories[FirstMissing(env, KvsFactories)])
      else if !Accepted(env, "kvssink", plan) then
        AppliedAllIffAccepted(env, "kvssink", plan);
        PropertyRejected("kvssink", plan[|Applied(env, "kvssink", plan)|].key)
      else if env.addRefused then AddFailed
      else LinkFailed
  }

  /** The `match` on the subcommand in `main`: run the chosen setup on the
      bin, which is still empty. */
  method SetupSink(p: Pipeline, cmd: Command, src: Element, depay: Element) returns (r: Result<(), Error>)
    requires p.Valid() && p.elements == {} && p.links == []
    requires src.name == "source" && depay.name == "rtph264depay"
    modifies p
    ensures p.Valid()
    ensures r.Ok? <==> SinkOk(p.env, cmd, depay)
    ensures r.Ok? ==> p.elements == NameSet(SinkElements(cmd, src, depay))
    ensures r.Ok? ==> p.links == ChainLinks(Names(SinkChain(cmd, depay)))
    ensures r.Err? && r.error != LinkFailed ==> p.elements == {} && p.links == []
    ensures r == Err(LinkFailed) ==> p.elements == NameSet(SinkElements(cmd, src, depay))
    ensures r == Err(LinkFailed) ==> p.links < ChainLinks(Names(SinkChain(cmd, depay)))
    ensures r.Err? ==> r.error == SinkError(p.env, cmd, depay)
    ensures cmd.PlayBack? ==> p.props == old(p.props)
    ensures cmd.Kvs? ==>
              p.props == if AllAvailable(p.env, KvsFactories)
                         then Appended(old(p.props), "kvssink", Applied(p.env, "kvssink", KvsSinkProperties(cmd.kvs)))
                         else old(p.props)
    ensures p.state == old(p.state) && p.requests == old(p.requests)
  {
    EmptyBinTakes(p, cmd, src, depay);
    match cmd {
      case PlayBack(_) =>
        r := SetupPlayback(p, src, depay);
      case Kvs(kvs, _) =>
        r := SetupKvsSink(p, src, depay, kvs);
    }
  }

  /** The properties the build leaves set, whatever its outcome: the
      source's plan up to its first refusal once the source exists; then,
      when the Kinesis sink was chosen and both of its elements exist, that
      sink's plan up to its first refusal. */
  function BuildProps(env: Env, cmd: Command): (props: map<string, seq<Property>>)
    ensures props.Keys <= {"source", "kvssink"}
    ensures "source" in props ==> props["source"] <= SourceProperties(RtspConfigOf(cmd))
    ensures "kvssink" in props ==> cmd.Kvs? && props["kvssink"] <= KvsSinkProperties(cmd.kvs)
    ensures "kvssink" in props ==> "source" in props && props["source"] == SourceProperties(RtspConfigOf(cmd))
  {
    if "rtspsrc" !in env.factories then map[]
    else
      var plan := SourceProperties(RtspConfigOf(cmd));
      var source := Appended(map[], "source", Applied(env, "rtspsrc", plan));
      if !Accepted(env, "rtspsrc", plan) || "rtph264depay" !in env.factories then source
      else
        AppliedAllIffAccepted(env, "rtspsrc", plan);
        match cmd
        case PlayBack(_) => source
        case Kvs(kvs, _) =>
          if AllAvailable(env, KvsFactories)
          then Appended(source, "kvssink", Applied(env, "kvssink", KvsSinkProperties(kvs)))
          else source
  }

  /** After a successful build the source holds its whole plan and, for the
      Kinesis subcommand, so does the sink; nothing else holds properties. */
  lemma BuildOkProps(env: Env, cmd: Command)
    requires BuildOk(env, cmd)
    ensures BuildProps(env, cmd) ==
              if cmd.Kvs?
              then map["source" := SourceProperties(RtspConfigOf(cmd)), "kvssink" := KvsSinkProperties(cmd.kvs)]
              else map["source" := SourceProperties(RtspConfigOf(cmd))]
  {
    var plan := SourceProperties(RtspConfigOf(cmd));
    AppliedAllIffAccepted(env, "rtspsrc", plan);
    var source := Appended(map[], "source", plan);
    assert source == map["source" := plan] by {
      assert plan != [] && [] + plan == plan;
    }
    if cmd.Kvs? {
      var sink := KvsSinkProperties(cmd.kvs);
      AppliedAllIffAccepted(env, "kvssink", sink);
      assert "kvssink" !in source;
      assert Appended(source, "kvssink", sink) == source["kvssink" := sink] by {
        assert sink != [] && [] + sink == sink;
      }
    }
  }

  /** The error the build returns when it fails: the source's creation, its
      first refused property, the depayloader's creation, then the setup's
      own error, in the order `main` runs them. */
  function BuildError(env: Env, cmd: Command): (e: Error)
    requires !BuildOk(env, cmd)
    ensures e == CreateFailed("rtspsrc") <==> "rtspsrc" !in env.factories
    ensures e.PropertyRejected? && e.element == "source" ==> ("rtspsrc", e.key) in env.rejected
    ensures e == CreateFailed("rtph264depay") ==> "rtph264depay" !in env.factories
    ensures e.AddFailed? || e.LinkFailed? ==>
              "rtspsrc" in env.factories && "rtph264depay" in env.factories &&
              Accepted(env, "rtspsrc", SourceProperties(RtspConfigOf(cmd)))
  {
    var plan := SourceProperties(RtspConfigOf(cmd));
    if "rtspsrc" !in env.factories then CreateFailed("rtspsrc")
    else if !Accepted(env, "rtspsrc", plan) then
      AppliedAllIffAccepted(env, "rtspsrc", plan);
      PropertyRejected("source", plan[|Applied(env, "rtspsrc", plan)|].key)
    else if "rtph264depay" !in env.factories then CreateFailed("rtph264depay")
    else SinkError(env, cmd, Depay)
  }

  /** `main` up to the handler: the source, the depayloader, then the chosen
      setup. Nothing is added to the bin unless every element was made and
      every property taken; nothing is linked unless everything was added. */
  method Build(p: Pipeline, cmd: Command) returns (r: Result<(Element, Element), Error>)
    requires p.Valid() && p.elements == {} && p.links == [] && p.props == map[]
    modifies p
    ensures p.Valid()
    ensures r.Ok? <==> BuildOk(p.env, cmd)
    ensures r.Ok? ==> r.value == (Source, Depay)
    ensures r.Ok? ==> p.elements == BinElements(cmd) && p.links == StaticLinks(cmd)
    ensures r.Err? && r.error != LinkFailed ==> p.elements == {} && p.links == []
    ensures r == Err(LinkFailed) ==> p.elements == BinElements(cmd) && p.links < StaticLinks(cmd)
    ensures p.props == BuildProps(p.env, cmd)
    ensures r.Err? ==> r.error == BuildError(p.env, cmd)
    ensures p.state == old(p.state) && p.requests == old(p.requests)
  {
    var src :- RtspSrc(p, RtspConfigOf(cmd));
    var depay :- CreateElement(p.env, "rtph264depay", "rtph264depay");
    var _ :- SetupSink(p, cmd, src, depay);
    r := Ok((src, depay));
  }

  /** What may happen to the links while the pipeline plays, starting from
      `start`: at most one more link, from the source into the depayloader's
      sink pad, and none unless an RTP video pad was announced. */
  ghost predicate PlayingLinks(links: seq<Link>, start: seq<Link>, seen: seq<Event>) {
    && start <= links
    && |links| <= |start| + 1
    && (forall l :: l in links[|start|..] ==> l.src == Source.name && Into(l, Depay.name, "sink"))
    && ((forall j :: 0 <= j < |seen| && seen[j].PadAdded? ==> !IsRtpVideo(seen[j].pad.caps)) ==>
          links == start)
  }

  /** A link beyond the starting ones ends on the depayloader's sink pad. */
  lemma ExtraLinkIntoDepay(links: seq<Link>, start: seq<Link>, seen: seq<Event>)
    requires PlayingLinks(links, start, seen)
    ensures |links| > |start| ==> links[|start|] in links && Into(links[|start|], Depay.name, "sink")
  {
    if |links| > |start| {
      assert links[|start|] in links[|start|..];
    }
  }

  /** An announced pad adds a link only when it carries RTP video and the
      depayloader's sink pad is still free, which it is only while no link
      has been added. */
  lemma PadAddedKeeps(links: seq<Link>, start: seq<Link>, seen: seq<Event>, pad: Pad, linked: bool)
    requires PlayingLinks(links, start, seen)
    requires linked ==> IsRtpVideo(pad.caps) && forall l :: l in links ==> !Into(l, Depay.name, "sink")
    ensures PlayingLinks(if linked then links + [PadLink(Source, pad, Depay)] else links, start, seen + [PadAdded(pad)])
  {
    var seen' := seen + [PadAdded(pad)];
    if linked {
      ExtraLinkIntoDepay(links, start, seen);
      assert seen'[|seen|] == PadAdded(pad);
      assert (links + [PadLink(Source, pad, Depay)])[|start|..] == [PadLink(Source, pad, Depay)];
    } else if forall j :: 0 <= j < |seen'| && seen'[j].PadAdded? ==> !IsRtpVideo(seen'[j].pad.caps) {
      forall j | 0 <= j < |seen| && seen[j].PadAdded? ensures !IsRtpVideo(seen[j].pad.caps) {
        assert seen'[j] == seen[j];
      }
    }
  }

  /** The links after one event while the pipeline plays: an announced pad
      goes through the pad-added handler; a bus message changes nothing. */
  function Step(env: Env, elements: set<string>, links: seq<Link>, event: Event): (after: seq<Link>)
    ensures event.Posted? ==> after == links
    ensures event.PadAdded? ==> after == links || after == links + [PadLink(Source, event.pad, Depay)]
    ensures after != links ==>
              event.PadAdded? && IsRtpVideo(event.pad.caps) && !LinkedInto(links, Depay.name, "sink")
  {
    match event
    case PadAdded(pad) => HandledPad(env, elements, links, Source, pad, Depay)
    case Posted(_) => links
  }

  /** The links after a run of events, starting from `start`. */
  function AfterEvents(env: Env, elements: set<string>, start: seq<Link>, events: seq<Event>): (after: seq<Link>)
    ensures start <= after && |after| <= |start| + |events|
    ensures forall l :: l in after[|start|..] ==> l == Link(Source.name, l.srcPad, Depay.name, "sink")
    decreases |events|
  {
    if events == [] then start
    else Step(env, elements, AfterEvents(env, elements, start, events[..|events| - 1]), events[|events| - 1])
  }

  /** One event keeps the bound on what the handler may add. */
  lemma StepKeeps(env: Env, elements: set<string>, links: seq<Link>, start: seq<Link>, seen: seq<Event>, event: Event)
    requires PlayingLinks(links, start, seen)
    ensures PlayingLinks(Step(env, elements, links, event), start, seen + [event])
  {
    var seen' := seen + [event];
    match event {
      case PadAdded(pad) =>
        PadAddedKeeps(links, start, seen, pad, Step(env, elements, links, event) != links);
      case Posted(_) =>
        if forall j :: 0 <= j < |seen'| && seen'[j].PadAdded? ==> !IsRtpVideo(seen'[j].pad.caps) {
          forall j | 0 <= j < |seen| && seen[j].PadAdded? ensures !IsRtpVideo(seen[j].pad.caps) {
            assert seen'[j] == seen[j];
          }
        }
    }
  }

  /** Whatever the events, the handler adds at most the one link from the
      source into the depayloader's sink pad, and none unless an RTP video pad
      was announced. */
  lemma {:induction false} PlayingLinksBound(env: Env, elements: set<string>, start: seq<Link>, events: seq<Event>)
    ensures PlayingLinks(AfterEvents(env, elements, start, events), start, events)
    decreases |events|
  {
    if events == [] {
      assert start[|start|..] == [];
    } else {
      var n := |events| - 1;
      PlayingLinksBound(env, elements, start, events[..n]);
      StepKeeps(env, elements, AfterEvents(env, elements, start, events[..n]), start, events[..n], events[n]);
      assert events[..n] + [events[n]] == events;
    }
  }

  /** Bus messages and pads without RTP video never change the links. */
  lemma {:induction false} NoVideoPadNoLink(env: Env, elements: set<string>, start: seq<Link>, events: seq<Event>)
    requires forall j :: 0 <= j < |events| && events[j].PadAdded? ==> !IsRtpVideo(events[j].pad.caps)
    ensures AfterEvents(env, elements, start, events) == start
    decreases |events|
  {
    if events != [] {
      var n := |events| - 1;
      forall j | 0 <= j < n && events[..n][j].PadAdded? ensures !IsRtpVideo(events[..n][j].pad.caps) {
        assert events[..n][j] == events[j];
      }
      NoVideoPadNoLink(env, elements, start, events[..n]);
    }
  }

  /** The first RTP video pad announced is linked to the depayloader, when
      its sink pad is free and the runtime accepts the link. */
  lemma FirstVideoPadLinked(env: Env, elements: set<string>, start: seq<Link>, events: seq<Event>, i: nat)
    requires i < |events| && events[i].PadAdded? && IsRtpVideo(events[i].pad.caps)
    requires forall j :: 0 <= j < i && events[j].PadAdded? ==> !IsRtpVideo(events[j].pad.caps)
    requires !LinkedInto(start, Depay.name, "sink")
    requires Linkable(env, elements, start, PadLink(Source, events[i].pad, Depay))
    ensures AfterEvents(env, elements, start, events[..i + 1]) == start + [PadLink(Source, events[i].pad, Depay)]
  {
    var before := events[..i + 1][..i];
    assert before == events[..i];
    forall j | 0 <= j < i && before[j].PadAdded? ensures !IsRtpVideo(before[j].pad.caps) {
      assert before[j] == events[j];
    }
    NoVideoPadNoLink(env, elements, start, before);
  }

  /** One event while the pipeline plays: an announced pad goes to the
      pad-added handler; a bus message ends the loop when it is an Error or
      EOS. */
  method Dispatch(p: Pipeline, src: Element, depay: Element, event: Event) returns (stop: bool)
    requires p.Valid() && src == Source && depay == Depay
    modifies p
    ensures p.Valid()
    ensures stop == EndsRun(event)
    ensures event.Posted? ==> p.links == old(p.links)
    ensures event.PadAdded? ==>
              p.links == old(p.links) +
                if !old(p.SinkLinked(depay.name, "sink")) && IsRtpVideo(event.pad.caps) &&
                   old(p.CanLink(PadLink(src, event.pad, depay)))
                then [PadLink(src, event.pad, depay)] else []
    ensures p.links == Step(p.env, p.elements, old(p.links), event)
    ensures p.props == old(p.props) && p.elements == old(p.elements)
    ensures p.state == old(p.state) && p.requests == old(p.requests)
  {
    match event {
      case PadAdded(pad) =>
        var _ := OnPadAdded(p, src, depay, pad);
        stop := false;
      case Posted(msg) =>
        stop := Ends(msg);
    }
  }

  /** The bus loop of `main`, with the pad-added handler running beside it:
      consume events in order until an Error or EOS message. */
  method ConsumeBus(p: Pipeline, src: Element, depay: Element, events: seq<Event>) returns (consumed: nat)
    requires p.Valid() && src == Source && depay == Depay
    modifies p
    ensures p.Valid()
    ensures consumed == Consumed(events)
    ensures p.links == AfterEvents(p.env, p.elements, old(p.links), events[..consumed])
    ensures p.props == old(p.props) && p.elements == old(p.elements)
    ensures p.state == old(p.state) && p.requests == old(p.requests)
  {
    consumed := 0;
    while consumed < |events|
      invariant consumed <= |events|
      invariant p.Valid()
      invariant forall i :: 0 <= i < consumed ==> !EndsRun(events[i])
      invariant p.links == AfterEvents(p.env, p.elements, old(p.links), events[..consumed])
      invariant p.props == old(p.props) && p.elements == old(p.elements)
      invariant p.state == old(p.state) && p.requests == old(p.requests)
    {
      assert events[..consumed + 1][..consumed] == events[..consumed];
      var stop := Dispatch(p, src, depay, events[consumed]);
      consumed := consumed + 1;
      if stop {
        ConsumedIsFirstEnd(events, consumed);
        return;
      }
    }
    ConsumedIsFirstEnd(events, consumed);
  }

  /** `main` from `Pipeline::new` on. Returns what `main` returns, with the
      pipeline and the number of events consumed, so that callers can see
      them. */
  method Run(env: Env, cmd: Command, events: seq<Event>) returns (r: Result<(), Error>, p: Pipeline, consumed: nat)
    ensures fresh(p) && p.Valid() && p.env == env
    ensures r.Ok? <==> BuildOk(env, cmd) && Playing !in env.refusedStates && Null !in env.refusedStates
    ensures p.requests == if !BuildOk(env, cmd) then []
                          else if Playing in env.refusedStates then [Playing]
                          else [Playing, Null]
    ensures p.state == if BuildOk(env, cmd) && Playing !in env.refusedStates && Null in env.refusedStates
                       then Playing else Null
    ensures consumed == if BuildOk(env, cmd) && Playing !in env.refusedStates then Consumed(events) else 0
    ensures BuildOk(env, cmd) ==> p.elements == BinElements(cmd)
    ensures BuildOk(env, cmd) ==> p.links == AfterEvents(env, BinElements(cmd), StaticLinks(cmd), events[..consumed])
    ensures BuildOk(env, cmd) ==> PlayingLinks(p.links, StaticLinks(cmd), events[..consumed])
    ensures p.props == BuildProps(env, cmd)
    ensures BuildOk(env, cmd) ==>
              p.props == if cmd.Kvs?
                         then map["source" := SourceProperties(RtspConfigOf(cmd)), "kvssink" := KvsSinkProperties(cmd.kvs)]
                         else map["source" := SourceProperties(RtspConfigOf(cmd))]
    ensures !BuildOk(env, cmd) ==> r == Err(BuildError(env, cmd))
    ensures BuildOk(env, cmd) && Playing in env.refusedStates ==> r == Err(StateChangeFailed(Playing))
    ensures BuildOk(env, cmd) && Playing !in env.refusedStates && Null in env.refusedStates ==>
              r == Err(StateChangeFailed(Null))
    ensures !BuildOk(env, cmd) && r.error != LinkFailed ==> p.elements == {} && p.links == []
    ensures !BuildOk(env, cmd) && r.error == LinkFailed ==> p.elements == BinElements(cmd) && p.links < StaticLinks(cmd)
  {
    p := new Pipeline(env);
    consumed := 0;
    var built :- Build(p, cmd);
    BuildOkProps(env, cmd);
    var (src, depay) := built;
    :- p.SetState(Playing);
    consumed := ConsumeBus(p, src, depay, events);
    PlayingLinksBound(env, p.elements, StaticLinks(cmd), events[..consumed]);
    :- p.SetState(Null);
    r := Ok(());
  }
}
