/** Building the pipeline before it plays: the RTSP source element, the
    depayloader, and one of two sink chains (local playback, or Kinesis Video
    Streams). Every runtime call is followed by `?`, written `:-` here: the
    first failure ends the build and no later call is made. */
module Assembly {
  import opened Outcomes
  import opened Gst
  import opened Config

  /** `create_element`: make an element, naming the factory on failure. */
  function CreateElement(env: Env, factory: string, name: string): (r: Result<Element, Error>)
    ensures r.Ok? <==> factory in env.factories
    ensures r.Ok? ==> r.value == Element(factory, name)
    ensures r.Err? ==> r.error == CreateFailed(factory)
  {
    if factory in env.factories then Ok(Element(factory, name)) else Err(CreateFailed(factory))
  }

  predicate AllAvailable(env: Env, factories: seq<string>) {
    forall f :: f in factories ==> f in env.factories
  }

  /** The position of the first factory the runtime does not know, or the
      length when it knows them all. */
  function FirstMissing(env: Env, factories: seq<string>): (i: nat)
    ensures i <= |factories|
    ensures forall j :: 0 <= j < i ==> factories[j] in env.factories
    ensures i < |factories| ==> factories[i] !in env.factories
    ensures i == |factories| <==> AllAvailable(env, factories)
  {
    if factories == [] then 0
    else if factories[0] !in env.factories then 0
    else 1 + FirstMissing(env, factories[1..])
  }

  /** The first unknown factory is the one before which all are known. */
  lemma {:induction false} FirstMissingAt(env: Env, factories: seq<string>, i: nat)
    requires i < |factories| && factories[i] !in env.factories
    requires forall j :: 0 <= j < i ==> factories[j] in env.factories
    ensures FirstMissing(env, factories) == i
  {
    if 0 < i {
      assert factories[0] in env.factories;
      FirstMissingAt(env, factories[1..], i - 1);
    }
  }

  /** The properties `rtspsrc` sets on the source, in order. */
  function SourceProperties(cfg: RtspConfig): (ps: seq<Property>)
    ensures |ps| == 1 + (if cfg.userId.Some? then 1 else 0) + (if cfg.password.Some? then 1 else 0)
    ensures ps[0] == Property("location", cfg.url)
    ensures forall i :: 0 < i < |ps| ==> ps[i].key != "location"
    ensures forall v :: Property("user-id", v) in ps <==> cfg.userId == Some(v)
    ensures forall v :: Property("user-pw", v) in ps <==> cfg.password == Some(v)
    ensures forall i, j :: 0 <= i < |ps| && 0 <= j < |ps| && ps[i].key == "user-id" && ps[j].key == "user-pw" ==> i < j
    ensures forall q :: q in ps ==> q.key == "location" || q.key == "user-id" || q.key == "user-pw"
  {
    [Property("location", cfg.url)]
    + (if cfg.userId.Some? then [Property("user-id", cfg.userId.value)] else [])
    + (if cfg.password.Some? then [Property("user-pw", cfg.password.value)] else [])
  }

  /** The properties `setup_kvssink` sets on the Kinesis sink, in order. */
  function KvsSinkProperties(kvs: KvsConfig): (ps: seq<Property>)
    ensures |ps| == if kvs.region.Some? then 4 else 3
    ensures ps[..3] == [Property("access-key", kvs.accessKeyId),
                        Property("secret-key", kvs.secretKey),
                        Property("stream-name", kvs.streamName)]
    ensures forall v :: Property("aws-region", v) in ps <==> kvs.region == Some(v)
  {
    [Property("access-key", kvs.accessKeyId),
     Property("secret-key", kvs.secretKey),
     Property("stream-name", kvs.streamName)]
    + (if kvs.region.Some? then [Property("aws-region", kvs.region.value)] else [])
  }

  /** The element made by `factory` takes every property of `ps`. */
  predicate Accepted(env: Env, factory: string, ps: seq<Property>) {
    forall q :: q in ps ==> (factory, q.key) !in env.rejected
  }

  /** The properties that are set when `ps` are set one after another and the
      first refusal stops the sequence. */
  function Applied(env: Env, factory: string, ps: seq<Property>): (done: seq<Property>)
    ensures done <= ps
    ensures Accepted(env, factory, done)
    ensures |done| < |ps| ==> (factory, ps[|done|].key) in env.rejected
  {
    if ps == [] || (factory, ps[0].key) in env.rejected then []
    else [ps[0]] + Applied(env, factory, ps[1..])
  }

  /** The prefix of `ps` up to the first refused property is what gets set. */
  lemma {:induction false} AppliedIsPrefixToFirstRefusal(env: Env, factory: string, ps: seq<Property>, i: nat)
    requires i <= |ps| && Accepted(env, factory, ps[..i])
    requires i < |ps| ==> (factory, ps[i].key) in env.rejected
    ensures Applied(env, factory, ps) == ps[..i]
  {
    if 0 < i {
      assert ps[0] in ps[..i];
      assert ps[1..][..i - 1] == ps[..i][1..];
      assert forall q :: q in ps[..i][1..] ==> q in ps[..i];
      AppliedIsPrefixToFirstRefusal(env, factory, ps[1..], i - 1);
      assert ps[..i] == [ps[0]] + ps[1..][..i - 1];
    }
  }

  /** All properties are set exactly when every one of them is accepted. */
  lemma {:induction false} AppliedAllIffAccepted(env: Env, factory: string, ps: seq<Property>)
    ensures Applied(env, factory, ps) == ps <==> Accepted(env, factory, ps)
  {
    if Accepted(env, factory, ps) {
      assert ps[..|ps|] == ps;
      AppliedIsPrefixToFirstRefusal(env, factory, ps, |ps|);
    }
  }

  /** No link of the chain is refused by the runtime's caps checks. */
  predicate ChainFree(env: Env, chain: seq<Element>) {
    forall l :: l in ChainLinks(Names(chain)) ==> l !in env.refusedLinks
  }

  /** The links before the k-th link of a chain of elements new to the bin
      leave that link's sink pad free. */
  lemma ChainSinkFree(ns: seq<string>, before: seq<Link>, elements: set<string>, k: nat)
    requires Distinct(ns) && k < |ChainLinks(ns)|
    requires forall l :: l in before ==> l.sink in elements
    requires forall i :: 1 <= i < |ns| ==> ns[i] !in elements
    ensures forall l :: l in before + ChainLinks(ns)[..k] ==> !Into(l, ns[k + 1], "sink")
  {
    forall l | l in before + ChainLinks(ns)[..k] ensures !Into(l, ns[k + 1], "sink") {
      if l !in before {
        var j :| 0 <= j < k && ChainLinks(ns)[j] == l;
        assert l.sink == ns[j + 1];
      }
    }
  }

  /** `rtspsrc`: make the source, set `location`, then `user-id` and
      `user-pw` when given; the first refusal ends it. */
  method RtspSrc(p: Pipeline, cfg: RtspConfig) returns (r: Result<Element, Error>)
    requires p.Valid()
    modifies p
    ensures p.Valid()
    ensures r.Ok? <==> "rtspsrc" in p.env.factories && Accepted(p.env, "rtspsrc", SourceProperties(cfg))
    ensures r.Ok? ==> r.value == Element("rtspsrc", "source")
    ensures r.Err? ==> r.error.CreateFailed? || r.error.PropertyRejected?
    ensures "rtspsrc" !in p.env.factories ==> r == Err(CreateFailed("rtspsrc")) && p.props == old(p.props)
    ensures "rtspsrc" in p.env.factories ==>
              p.props == Appended(old(p.props), "source", Applied(p.env, "rtspsrc", SourceProperties(cfg)))
    ensures "rtspsrc" in p.env.factories && r.Err? ==>
              |Applied(p.env, "rtspsrc", SourceProperties(cfg))| < |SourceProperties(cfg)| &&
              r.error == PropertyRejected("source", SourceProperties(cfg)[|Applied(p.env, "rtspsrc", SourceProperties(cfg))|].key)
    ensures p.elements == old(p.elements) && p.links == old(p.links)
    ensures p.state == old(p.state) && p.requests == old(p.requests)
  {
    ghost var plan := SourceProperties(cfg);
    ghost var env := p.env;
    var src :- CreateElement(p.env, "rtspsrc", "source");
    ghost var i := 0;
    if ("rtspsrc", "location") in env.rejected {
      AppliedIsPrefixToFirstRefusal(env, "rtspsrc", plan, 0);
    }
    :- p.TrySetProperty(src, "location", cfg.url);
    assert plan[..1] == [Property("location", cfg.url)];
    i := 1;
    if cfg.userId.Some? {
      assert plan[i] == Property("user-id", cfg.userId.value);
      if ("rtspsrc", "user-id") in env.rejected {
        AppliedIsPrefixToFirstRefusal(env, "rtspsrc", plan, i);
      }
      :- p.TrySetProperty(src, "user-id", cfg.userId.value);
      AppendedTwice(old(p.props), "source", plan[..i], [plan[i]]);
      assert plan[..i] + [plan[i]] == plan[..i + 1];
      i := i + 1;
    }
    if cfg.password.Some? {
      assert plan[i] == Property("user-pw", cfg.password.value);
      if ("rtspsrc", "user-pw") in env.rejected {
        AppliedIsPrefixToFirstRefusal(env, "rtspsrc", plan, i);
      }
      :- p.TrySetProperty(src, "user-pw", cfg.password.value);
      AppendedTwice(old(p.props), "source", plan[..i], [plan[i]]);
      assert plan[..i] + [plan[i]] == plan[..i + 1];
      i := i + 1;
    }
    assert plan[..i] == plan;
    AppliedIsPrefixToFirstRefusal(env, "rtspsrc", plan, i);
    return Ok(src);
  }

  /** The elements `setup_playback` makes, in order, as (factory, name). */
  const PlaybackFactories: seq<string> := ["h264parse", "avdec_h264", "videoconvert", "autovideosink"]

  function PlaybackStages(): seq<Element> {
    [Element("h264parse", "h264parse"), Element("avdec_h264", "avdec_h264"),
     Element("videoconvert", "videoconvert"), Element("autovideosink", "videosink")]
  }

  /** What `setup_playback` adds to the bin, and the chain it links. */
  function PlaybackElements(src: Element, depay: Element): seq<Element> {
    [src, depay] + PlaybackStages()
  }

  function PlaybackChain(depay: Element): seq<Element> {
    [depay] + PlaybackStages()
  }

  /** The elements `setup_kvssink` makes, in order. */
  const KvsFactories: seq<string> := ["h264parse", "kvssink"]

  function KvsStages(): seq<Element> {
    [Element("h264parse", "h264parse"), Element("kvssink", "kvssink")]
  }

  function KvsElements(src: Element, depay: Element): seq<Element> {
    [src, depay] + KvsStages()
  }

  function KvsChain(depay: Element): seq<Element> {
    [depay] + KvsStages()
  }

  /** The tail of a batch of distinct elements new to the bin is made of
      distinct names new to the bin. */
  lemma FreshTail(all: seq<Element>, earlier: set<string>)
    requires |all| >= 1 && Distinct(Names(all)) && forall e :: e in all ==> e.name !in earlier
    ensures Distinct(Names(all[1..]))
    ensures forall n :: n in Names(all[1..]) ==> n !in earlier && n in NameSet(all)
  {
    var ns := Names(all[1..]);
    forall i, j | 0 <= i < j < |ns| ensures ns[i] != ns[j] {
      assert ns[i] == Names(all)[i + 1] && ns[j] == Names(all)[j + 1];
    }
    forall n | n in ns ensures n !in earlier && n in NameSet(all) {
      var i :| 0 <= i < |ns| && ns[i] == n;
      assert all[1..][i] in all;
    }
  }

  /** When `add_many` has just put `all` into a bin that held `earlier`,
      and `link_many` then fails on `all` without its head, the runtime
      refused one of the chain's links: every pad involved was free. */
  lemma FreshChainFailureIsRefusal(p: Pipeline, all: seq<Element>, before: seq<Link>, earlier: set<string>)
    requires |all| >= 1 && Distinct(Names(all)) && forall e :: e in all ==> e.name !in earlier
    requires forall l :: l in before ==> l.sink in earlier
    requires p.elements == earlier + NameSet(all)
    requires exists k :: 0 <= k < |ChainLinks(Names(all[1..]))| &&
                         p.links == before + ChainLinks(Names(all[1..]))[..k] &&
                         !p.CanLink(ChainLinks(Names(all[1..]))[k])
    ensures !ChainFree(p.env, all[1..])
  {
    var ns := Names(all[1..]);
    var k :| 0 <= k < |ChainLinks(ns)| && p.links == before + ChainLinks(ns)[..k] &&
             !p.CanLink(ChainLinks(ns)[k]);
    FreshTail(all, earlier);
    var l := ChainLinks(ns)[k];
    ChainSinkFree(ns, before, earlier, k);
    assert ns[k] in ns && ns[k + 1] in ns;
    assert !p.SinkLinked(l.sink, l.sinkPad);
  }

  /** The common tail of both setups: `add_many` on the whole batch, then
      `link_many` on the batch without its head (the source, which the
      pad-added handler links later). */
  method AddAndLink(p: Pipeline, all: seq<Element>) returns (r: Result<(), Error>)
    requires p.Valid() && |all| >= 1
    modifies p
    ensures p.Valid()
    ensures r.Ok? <==> old(p.CanAdd(all)) && ChainFree(p.env, all[1..])
    ensures !old(p.CanAdd(all)) ==> r == Err(AddFailed)
    ensures r.Err? ==> r.error == if old(p.CanAdd(all)) then LinkFailed else AddFailed
    ensures old(p.CanAdd(all)) ==> p.elements == old(p.elements) + NameSet(all)
    ensures r.Ok? || r == Err(LinkFailed) ==> p.elements == old(p.elements) + NameSet(all)
    ensures r.Ok? ==> p.links == old(p.links) + ChainLinks(Names(all[1..]))
    ensures r == Err(LinkFailed) ==> old(p.links) <= p.links < old(p.links) + ChainLinks(Names(all[1..]))
    ensures r.Err? && r.error != LinkFailed ==> p.elements == old(p.elements) && p.links == old(p.links)
    ensures p.props == old(p.props) && p.state == old(p.state) && p.requests == old(p.requests)
  {
    ghost var before, earlier := p.links, p.elements;
    :- p.AddMany(all);
    var linked := p.LinkMany(all[1..]);
    if linked.Fail? {
      FreshChainFailureIsRefusal(p, all, before, earlier);
      return Err(LinkFailed);
    }
    r := Ok(());
  }

  /** Which of the playback factories is the first one missing. */
  lemma PlaybackFirstMissing(env: Env)
    ensures "h264parse" !in env.factories ==> FirstMissing(env, PlaybackFactories) == 0
    ensures "h264parse" in env.factories && "avdec_h264" !in env.factories ==>
              FirstMissing(env, PlaybackFactories) == 1
    ensures "h264parse" in env.factories && "avdec_h264" in env.factories &&
            "videoconvert" !in env.factories ==>
              FirstMissing(env, PlaybackFactories) == 2
    ensures "h264parse" in env.factories && "avdec_h264" in env.factories &&
            "videoconvert" in env.factories && "autovideosink" !in env.factories ==>
              FirstMissing(env, PlaybackFactories) == 3
  {
    if "h264parse" !in env.factories {
      FirstMissingAt(env, PlaybackFactories, 0);
    } else if "avdec_h264" !in env.factories {
      FirstMissingAt(env, PlaybackFactories, 1);
    } else if "videoconvert" !in env.factories {
      FirstMissingAt(env, PlaybackFactories, 2);
    } else if "autovideosink" !in env.factories {
      FirstMissingAt(env, PlaybackFactories, 3);
    }
  }

  /** `setup_playback`: make h264parse, avdec_h264, videoconvert and
      autovideosink; add them with the source and the depayloader; link the
      depayloader through to the video sink. The source is left unlinked for
      the pad-added handler. */
  method SetupPlayback(p: Pipeline, src: Element, depay: Element) returns (r: Result<(), Error>)
    requires p.Valid()
    modifies p
    ensures p.Valid()
    ensures r.Ok? <==> AllAvailable(p.env, PlaybackFactories) &&
                       old(p.CanAdd(PlaybackElements(src, depay))) && ChainFree(p.env, PlaybackChain(depay))
    ensures !AllAvailable(p.env, PlaybackFactories) ==>
              r == Err(CreateFailed(PlaybackFactories[FirstMissing(p.env, PlaybackFactories)])) &&
              p.elements == old(p.elements) && p.links == old(p.links)
    ensures AllAvailable(p.env, PlaybackFactories) && r.Err? ==>
              r.error == if old(p.CanAdd(PlaybackElements(src, depay))) then LinkFailed else AddFailed
    ensures AllAvailable(p.env, PlaybackFactories) && !old(p.CanAdd(PlaybackElements(src, depay))) ==>
              r == Err(AddFailed) && p.elements == old(p.elements) && p.links == old(p.links)
    ensures AllAvailable(p.env, PlaybackFactories) && old(p.CanAdd(PlaybackElements(src, depay))) ==>
              p.elements == old(p.elements) + NameSet(PlaybackElements(src, depay))
    ensures r.Ok? || r == Err(LinkFailed) ==> p.elements == old(p.elements) + NameSet(PlaybackElements(src, depay))
    ensures r.Ok? ==> p.links == old(p.links) + ChainLinks(Names(PlaybackChain(depay)))
    ensures r == Err(LinkFailed) ==> old(p.links) <= p.links < old(p.links) + ChainLinks(Names(PlaybackChain(depay)))
    ensures r.Err? && r.error != LinkFailed ==> p.elements == old(p.elements) && p.links == old(p.links)
    ensures p.props == old(p.props) && p.state == old(p.state) && p.requests == old(p.requests)
  {
    ghost var env := p.env;
    PlaybackFirstMissing(env);
    var parse :- CreateElement(p.env, "h264parse", "h264parse");
    var avdec :- CreateElement(p.env, "avdec_h264", "avdec_h264");
    var convert :- CreateElement(p.env, "videoconvert", "videoconvert");
    var sink :- CreateElement(p.env, "autovideosink", "videosink");
    assert [src, depay, parse, avdec, convert, sink] == PlaybackElements(src, depay);
    assert PlaybackElements(src, depay)[1..] == PlaybackChain(depay);
    r := AddAndLink(p, [src, depay, parse, avdec, convert, sink]);
  }

  /** Which of the Kinesis factories is the first one missing. */
  lemma KvsFirstMissing(env: Env)
    ensures "h264parse" !in env.factories ==> FirstMissing(env, KvsFactories) == 0
    ensures "h264parse" in env.factories && "kvssink" !in env.factories ==>
              FirstMissing(env, KvsFactories) == 1
  {
    if "h264parse" !in env.factories {
      FirstMissingAt(env, KvsFactories, 0);
    } else if "kvssink" !in env.factories {
      FirstMissingAt(env, KvsFactories, 1);
    }
  }

  /** How far `setup_kvssink` gets through the sink's properties. */
  lemma KvsApplied(env: Env, kvs: KvsConfig)
    ensures var plan := KvsSinkProperties(kvs);
            var rejected := k => ("kvssink", k) in env.rejected;
            && (rejected("access-key") ==> Applied(env, "kvssink", plan) == [])
            && (!rejected("access-key") && rejected("secret-key") ==> Applied(env, "kvssink", plan) == plan[..1])
            && (!rejected("access-key") && !rejected("secret-key") && rejected("stream-name") ==>
                  Applied(env, "kvssink", plan) == plan[..2])
            && (!rejected("access-key") && !rejected("secret-key") && !rejected("stream-name") ==>
                  Applied(env, "kvssink", plan) == if kvs.region.Some? && rejected("aws-region") then plan[..3] else plan)
  {
    var plan := KvsSinkProperties(kvs);
    assert plan[0].key == "access-key" && plan[1].key == "secret-key" && plan[2].key == "stream-name";
    if ("kvssink", "access-key") in env.rejected {
      AppliedIsPrefixToFirstRefusal(env, "kvssink", plan, 0);
    } else if ("kvssink", "secret-key") in env.rejected {
      AppliedIsPrefixToFirstRefusal(env, "kvssink", plan, 1);
    } else if ("kvssink", "stream-name") in env.rejected {
      AppliedIsPrefixToFirstRefusal(env, "kvssink", plan, 2);
    } else if kvs.region.Some? && ("kvssink", "aws-region") in env.rejected {
      assert plan[3].key == "aws-region";
      AppliedIsPrefixToFirstRefusal(env, "kvssink", plan, 3);
    } else {
      assert plan[..|plan|] == plan;
      AppliedIsPrefixToFirstRefusal(env, "kvssink", plan, |plan|);
    }
  }

  /** The property phase of `setup_kvssink`: the access key, the secret key
      and the stream name, then the region when given; the first refusal
      ends it. */
  method SetKvsProperties(p: Pipeline, sink: Element, kvs: KvsConfig) returns (r: Result<(), Error>)
    requires p.Valid() && sink == Element("kvssink", "kvssink")
    modifies p
    ensures p.Valid()
    ensures r.Ok? <==> Accepted(p.env, "kvssink", KvsSinkProperties(kvs))
    ensures p.props == Appended(old(p.props), "kvssink", Applied(p.env, "kvssink", KvsSinkProperties(kvs)))
    ensures r.Err? ==>
              |Applied(p.env, "kvssink", KvsSinkProperties(kvs))| < |KvsSinkProperties(kvs)| &&
              r.error == PropertyRejected("kvssink", KvsSinkProperties(kvs)[|Applied(p.env, "kvssink", KvsSinkProperties(kvs))|].key)
    ensures p.elements == old(p.elements) && p.links == old(p.links)
    ensures p.state == old(p.state) && p.requests == old(p.requests)
  {
    ghost var plan := KvsSinkProperties(kvs);
    KvsApplied(p.env, kvs);
    AppliedAllIffAccepted(p.env, "kvssink", plan);
    :- p.TrySetProperty(sink, "access-key", kvs.accessKeyId);
    assert plan[..1] == [plan[0]];
    :- p.TrySetProperty(sink, "secret-key", kvs.secretKey);
    AppendedTwice(old(p.props), "kvssink", plan[..1], [plan[1]]);
    assert plan[..1] + [plan[1]] == plan[..2];
    :- p.TrySetProperty(sink, "stream-name", kvs.streamName);
    AppendedTwice(old(p.props), "kvssink", plan[..2], [plan[2]]);
    assert plan[..2] + [plan[2]] == plan[..3];
    if kvs.region.Some? {
      :- p.TrySetProperty(sink, "aws-region", kvs.region.value);
      AppendedTwice(old(p.props), "kvssink", plan[..3], [plan[3]]);
      assert plan[..3] + [plan[3]] == plan;
    } else {
      assert plan[..3] == plan;
    }
    r := Ok(());
  }

  /** `setup_kvssink`: make h264parse and kvssink; set the sink's access key,
      secret key and stream name, and its region when given; add them with the
      source and the depayloader; link the depayloader through to the sink.
      Every property is set before anything is added. */
  method SetupKvsSink(p: Pipeline, src: Element, depay: Element, kvs: KvsConfig) returns (r: Result<(), Error>)
    requires p.Valid()
    modifies p
    ensures p.Valid()
    ensures r.Ok? <==> AllAvailable(p.env, KvsFactories) &&
                       Accepted(p.env, "kvssink", KvsSinkProperties(kvs)) &&
                       old(p.CanAdd(KvsElements(src, depay))) && ChainFree(p.env, KvsChain(depay))
    ensures !AllAvailable(p.env, KvsFactories) ==>
              r == Err(CreateFailed(KvsFactories[FirstMissing(p.env, KvsFactories)])) &&
              p.props == old(p.props) && p.elements == old(p.elements) && p.links == old(p.links)
    ensures AllAvailable(p.env, KvsFactories) ==>
              p.props == Appended(old(p.props), "kvssink", Applied(p.env, "kvssink", KvsSinkProperties(kvs)))
    ensures AllAvailable(p.env, KvsFactories) && !Accepted(p.env, "kvssink", KvsSinkProperties(kvs)) ==>
              |Applied(p.env, "kvssink", KvsSinkProperties(kvs))| < |KvsSinkProperties(kvs)| &&
              r == Err(PropertyRejected("kvssink", KvsSinkProperties(kvs)[|Applied(p.env, "kvssink", KvsSinkProperties(kvs))|].key)) &&
              p.elements == old(p.elements) && p.links == old(p.links)
    ensures AllAvailable(p.env, KvsFactories) && Accepted(p.env, "kvssink", KvsSinkProperties(kvs)) && r.Err? ==>
              r.error == if old(p.CanAdd(KvsElements(src, depay))) then LinkFailed else AddFailed
    ensures AllAvailable(p.env, KvsFactories) && Accepted(p.env, "kvssink", KvsSinkProperties(kvs)) &&
            !old(p.CanAdd(KvsElements(src, depay))) ==>
              r == Err(AddFailed) && p.elements == old(p.elements) && p.links == old(p.links)
    ensures AllAvailable(p.env, KvsFactories) && Accepted(p.env, "kvssink", KvsSinkProperties(kvs)) &&
            old(p.CanAdd(KvsElements(src, depay))) ==>
              p.elements == old(p.elements) + NameSet(KvsElements(src, depay))
    ensures r.Ok? || r == Err(LinkFailed) ==> p.elements == old(p.elements) + NameSet(KvsElements(src, depay))
    ensures r.Ok? ==> p.links == old(p.links) + ChainLinks(Names(KvsChain(depay)))
    ensures r == Err(LinkFailed) ==> old(p.links) <= p.links < old(p.links) + ChainLinks(Names(KvsChain(depay)))
    ensures r.Err? && r.error != LinkFailed ==> p.elements == old(p.elements) && p.links == old(p.links)
    ensures p.state == old(p.state) && p.requests == old(p.requests)
  {
    KvsFirstMissing(p.env);
    var parse :- CreateElement(p.env, "h264parse", "h264parse");
    var sink :- CreateElement(p.env, "kvssink", "kvssink");
    r := InstallKvsSink(p, src, depay, parse, sink, kvs);
  }

  /** The part of `setup_kvssink` after both elements exist: the sink's
      properties, then `add_many` and `link_many`. */
  method InstallKvsSink(p: Pipeline, src: Element, depay: Element, parse: Element, sink: Element, kvs: KvsConfig)
    returns (r: Result<(), Error>)
    requires p.Valid()
    requires parse == Element("h264parse", "h264parse") && sink == Element("kvssink", "kvssink")
    modifies p
    ensures p.Valid()
    ensures r.Ok? <==> Accepted(p.env, "kvssink", KvsSinkProperties(kvs)) &&
                       old(p.CanAdd(KvsElements(src, depay))) && ChainFree(p.env, KvsChain(depay))
    ensures p.props == Appended(old(p.props), "kvssink", Applied(p.env, "kvssink", KvsSinkProperties(kvs)))
    ensures !Accepted(p.env, "kvssink", KvsSinkProperties(kvs)) ==>
              |Applied(p.env, "kvssink", KvsSinkProperties(kvs))| < |KvsSinkProperties(kvs)| &&
              r == Err(PropertyRejected("kvssink", KvsSinkProperties(kvs)[|Applied(p.env, "kvssink", KvsSinkProperties(kvs))|].key)) &&
              p.elements == old(p.elements) && p.links == old(p.links)
    ensures Accepted(p.env, "kvssink", KvsSinkProperties(kvs)) && r.Err? ==>
              r.error == if old(p.CanAdd(KvsElements(src, depay))) then LinkFailed else AddFailed
    ensures Accepted(p.env, "kvssink", KvsSinkProperties(kvs)) && !old(p.CanAdd(KvsElements(src, depay))) ==>
              r == Err(AddFailed) && p.elements == old(p.elements) && p.links == old(p.links)
    ensures Accepted(p.env, "kvssink", KvsSinkProperties(kvs)) && old(p.CanAdd(KvsElements(src, depay))) ==>
              p.elements == old(p.elements) + NameSet(KvsElements(src, depay))
    ensures r.Ok? || r == Err(LinkFailed) ==> p.elements == old(p.elements) + NameSet(KvsElements(src, depay))
    ensures r.Ok? ==> p.links == old(p.links) + ChainLinks(Names(KvsChain(depay)))
    ensures r == Err(LinkFailed) ==> old(p.links) <= p.links < old(p.links) + ChainLinks(Names(KvsChain(depay)))
    ensures r.Err? && r.error != LinkFailed ==> p.elements == old(p.elements) && p.links == old(p.links)
    ensures p.state == old(p.state) && p.requests == old(p.requests)
  {
    assert [src, depay, parse, sink] == KvsElements(src, depay);
    assert KvsElements(src, depay)[1..] == KvsChain(depay);
    var _ :- SetKvsProperties(p, sink, kvs);
    r := AddAndLink(p, [src, depay, parse, sink]);
  }
}
