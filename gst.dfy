/** The GStreamer runtime as this program sees it: elements made from
    factories, a pipeline (a bin of elements, the links between their pads
    and a lifecycle state) and an environment that decides, out of sight,
    which calls succeed. */
module Gst {
  import opened Outcomes

  datatype State = Null | Ready | Paused | Playing

  /** One successful `set_property`: a property name and its string value. */
  datatype Property = Property(key: string, value: string)

  /** A created element: the factory it came from and its instance name. */
  datatype Element = Element(factory: string, name: string)

  /** A link from a source pad to a sink pad, each named by element and pad. */
  datatype Link = Link(src: string, srcPad: string, sink: string, sinkPad: string)

  /** A caps structure field as read with `get::<String>`: a string, or a
      value of another type (which that read refuses). */
  datatype FieldValue = Text(s: string) | NonText

  /** The first structure of a pad's current caps: its name and its fields. */
  datatype Caps = Caps(name: string, fields: map<string, FieldValue>)

  /** A pad announced by the source, with its negotiated caps. */
  datatype Pad = Pad(name: string, caps: Caps)

  /** The runtime's decisions, which the program cannot see: which factories
      are registered, which (factory, property) pairs are refused, whether the
      bin refuses additions, which links fail caps checks and which state
      changes fail synchronously. */
  datatype Env = Env(
    factories: set<string>,
    rejected: set<(string, string)>,
    addRefused: bool,
    refusedLinks: set<Link>,
    refusedStates: set<State>)

  /** Every failure the program reports with `?`. */
  datatype Error =
    | CreateFailed(factory: string)
    | PropertyRejected(element: string, key: string)
    | AddFailed
    | LinkFailed
    | StateChangeFailed(target: State)

  function Names(es: seq<Element>): (ns: seq<string>)
    ensures |ns| == |es|
    ensures forall i :: 0 <= i < |es| ==> ns[i] == es[i].name
  {
    seq(|es|, i requires 0 <= i < |es| => es[i].name)
  }

  function NameSet(es: seq<Element>): (ns: set<string>)
    ensures forall e :: e in es ==> e.name in ns
    ensures forall n :: n in ns ==> exists e :: e in es && e.name == n
  {
    set e | e in es :: e.name
  }

  predicate Distinct(ns: seq<string>) {
    forall i, j :: 0 <= i < j < |ns| ==> ns[i] != ns[j]
  }

  /** No sink pad is the target of two links. */
  predicate UniqueSinks(links: seq<Link>) {
    forall i, j :: 0 <= i < j < |links| ==>
      !(links[i].sink == links[j].sink && links[i].sinkPad == links[j].sinkPad)
  }

  predicate Into(l: Link, element: string, pad: string) {
    l.sink == element && l.sinkPad == pad
  }

  /** Some link ends on the given sink pad. */
  predicate LinkedInto(links: seq<Link>, element: string, pad: string) {
    exists l :: l in links && Into(l, element, pad)
  }

  /** Whether a pad link succeeds, given the bin's elements and links: both
      elements are in the bin, the sink pad is free, and the runtime accepts
      the pair's caps. */
  predicate Linkable(env: Env, elements: set<string>, links: seq<Link>, l: Link) {
    l.src in elements && l.sink in elements && !LinkedInto(links, l.sink, l.sinkPad) &&
    l !in env.refusedLinks
  }

  /** The number of links that end on the given sink pad. */
  function CountInto(links: seq<Link>, element: string, pad: string): nat {
    if links == [] then 0
    else (if Into(links[0], element, pad) then 1 else 0) + CountInto(links[1..], element, pad)
  }

  lemma {:induction false} CountIntoAbsent(links: seq<Link>, element: string, pad: string)
    requires forall l :: l in links ==> !Into(l, element, pad)
    ensures CountInto(links, element, pad) == 0
  {
    if links != [] {
      assert links[0] in links;
      CountIntoAbsent(links[1..], element, pad);
    }
  }

  /** A pipeline whose sink pads are each linked at most once has at most one
      link ending on any given sink pad. */
  lemma {:induction false} AtMostOneLinkInto(links: seq<Link>, element: string, pad: string)
    requires UniqueSinks(links)
    ensures CountInto(links, element, pad) <= 1
  {
    if links != [] {
      assert UniqueSinks(links[1..]) by {
        forall i, j | 0 <= i < j < |links[1..]|
          ensures !(links[1..][i].sink == links[1..][j].sink && links[1..][i].sinkPad == links[1..][j].sinkPad)
        {
          assert links[1..][i] == links[i + 1] && links[1..][j] == links[j + 1];
        }
      }
      if Into(links[0], element, pad) {
        forall l | l in links[1..] ensures !Into(l, element, pad) {
          var j :| 0 <= j < |links[1..]| && links[1..][j] == l;
          assert links[j + 1] == l;
        }
        CountIntoAbsent(links[1..], element, pad);
      } else {
        AtMostOneLinkInto(links[1..], element, pad);
      }
    }
  }

  /** The links `link_many` makes along a chain: each element's "src" pad to
      the next element's "sink" pad. */
  function ChainLinks(ns: seq<string>): (ls: seq<Link>)
    ensures |ls| == if ns == [] then 0 else |ns| - 1
    ensures forall k :: 0 <= k < |ls| ==> ls[k] == Link(ns[k], "src", ns[k + 1], "sink")
  {
    if |ns| < 2 then [] else [Link(ns[0], "src", ns[1], "sink")] + ChainLinks(ns[1..])
  }

  /** The map of properties set so far, after `ps` are set on `name` in order. */
  function Appended(props: map<string, seq<Property>>, name: string, ps: seq<Property>): map<string, seq<Property>> {
    if ps == [] then props
    else props[name := (if name in props then props[name] else []) + ps]
  }

  lemma AppendedTwice(props: map<string, seq<Property>>, name: string, a: seq<Property>, b: seq<Property>)
    ensures Appended(Appended(props, name, a), name, b) == Appended(props, name, a + b)
  {
    if a == [] {
      assert a + b == b;
    } else if b == [] {
      assert a + b == a;
    } else {
      var before := if name in props then props[name] else [];
      assert (before + a) + b == before + (a + b);
    }
  }

  class Pipeline {
    /** The runtime's decisions for this run. */
    const env: Env
    /** Properties set on each element so far, in the order they were set. */
    var props: map<string, seq<Property>>
    /** Names of the elements in the bin. */
    var elements: set<string>
    /** Links made so far, in order. */
    var links: seq<Link>
    /** The last state the pipeline was set to. */
    var state: State
    /** Every `set_state` requested, in order, whether or not it succeeded. */
    var requests: seq<State>

    /** Every link joins two elements of the bin, and no sink pad is linked twice. */
    ghost predicate Valid()
      reads this
    {
      (forall l :: l in links ==> l.src in elements && l.sink in elements) &&
      UniqueSinks(links)
    }

    constructor (env: Env)
      ensures Valid() && this.env == env
      ensures props == map[] && elements == {} && links == []
      ensures state == Null && requests == []
    {
      this.env := env;
      props, elements, links := map[], {}, [];
      state, requests := Null, [];
    }

    /** `try_set_property`: refused when the element's factory does not take the key. */
    method TrySetProperty(e: Element, key: string, value: string) returns (o: Outcome<Error>)
      requires Valid()
      modifies this
      ensures Valid()
      ensures o.Pass? <==> (e.factory, key) !in env.rejected
      ensures o.Fail? ==> o.error == PropertyRejected(e.name, key)
      ensures props == if o.Pass? then Appended(old(props), e.name, [Property(key, value)]) else old(props)
      ensures elements == old(elements) && links == old(links)
      ensures state == old(state) && requests == old(requests)
    {
      if (e.factory, key) in env.rejected {
        return Fail(PropertyRejected(e.name, key));
      }
      props := Appended(props, e.name, [Property(key, value)]);
      o := Pass;
    }

    /** Whether `add_many` takes the batch: the bin accepts additions and no
        name repeats, within the batch or against the bin. */
    predicate CanAdd(es: seq<Element>)
      reads this`elements
    {
      !env.addRefused && Distinct(Names(es)) && forall e :: e in es ==> e.name !in elements
    }

    method AddMany(es: seq<Element>) returns (o: Outcome<Error>)
      requires Valid()
      modifies this
      ensures Valid()
      ensures o.Pass? <==> old(CanAdd(es))
      ensures o.Fail? ==> o.error == AddFailed
      ensures elements == if o.Pass? then old(elements) + NameSet(es) else old(elements)
      ensures props == old(props) && links == old(links)
      ensures state == old(state) && requests == old(requests)
    {
      if !CanAdd(es) {
        return Fail(AddFailed);
      }
      elements := elements + NameSet(es);
      o := Pass;
    }

    /** `is_linked` on a sink pad. */
    predicate SinkLinked(element: string, pad: string)
      reads this`links
    {
      LinkedInto(links, element, pad)
    }

    /** Whether a pad link succeeds in this pipeline. */
    predicate CanLink(l: Link)
      reads this`elements, this`links
    {
      Linkable(env, elements, links, l)
    }

    /** `Pad::link`. */
    method LinkPads(l: Link) returns (ok: bool)
      requires Valid()
      modifies this
      ensures Valid()
      ensures ok == old(CanLink(l))
      ensures links == if ok then old(links) + [l] else old(links)
      ensures props == old(props) && elements == old(elements)
      ensures state == old(state) && requests == old(requests)
    {
      ok := CanLink(l);
      if ok {
        forall i | 0 <= i < |links| ensures !(links[i].sink == l.sink && links[i].sinkPad == l.sinkPad) {
          assert links[i] in links;
        }
        links := links + [l];
      }
    }

    /** Links `ls` one by one, stopping at the first that does not link and
        keeping the links made before it. */
    method LinkAll(ls: seq<Link>) returns (ok: bool)
      requires Valid()
      modifies this
      ensures Valid()
      ensures ok ==> links == old(links) + ls
      ensures ok ==> forall j :: 0 <= j < |ls| ==> ls[j] !in env.refusedLinks
      ensures !ok ==>
                exists k :: 0 <= k < |ls| && links == old(links) + ls[..k] && !CanLink(ls[k])
      ensures props == old(props) && elements == old(elements)
      ensures state == old(state) && requests == old(requests)
    {
      ghost var start := links;
      var k := 0;
      while k < |ls|
        invariant 0 <= k <= |ls|
        invariant Valid()
        invariant links == start + ls[..k]
        invariant forall j :: 0 <= j < k ==> ls[j] !in env.refusedLinks
        invariant props == old(props) && elements == old(elements)
        invariant state == old(state) && requests == old(requests)
      {
        ok := LinkPads(ls[k]);
        if !ok {
          assert links == start + ls[..k] && !CanLink(ls[k]);
          return;
        }
        assert ls[..k + 1] == ls[..k] + [ls[k]];
        k := k + 1;
      }
      assert ls[..k] == ls;
      ok := true;
    }

    /** `Element::link_many`: links consecutive elements in order and stops at
        the first pair that does not link, keeping the links made before it. */
    method LinkMany(chain: seq<Element>) returns (o: Outcome<Error>)
      requires Valid()
      modifies this
      ensures Valid()
      ensures o.Pass? ==> links == old(links) + ChainLinks(Names(chain))
      ensures o.Pass? ==> forall l :: l in ChainLinks(Names(chain)) ==> l !in env.refusedLinks
      ensures o.Fail? ==> o.error == LinkFailed
      ensures o.Fail? ==> old(links) <= links < old(links) + ChainLinks(Names(chain))
      ensures o.Fail? ==>
                exists k :: 0 <= k < |ChainLinks(Names(chain))| &&
                            links == old(links) + ChainLinks(Names(chain))[..k] &&
                            !CanLink(ChainLinks(Names(chain))[k])
      ensures props == old(props) && elements == old(elements)
      ensures state == old(state) && requests == old(requests)
    {
      var ls := ChainLinks(Names(chain));
      ghost var start := links;
      var ok := LinkAll(ls);
      if !ok {
        ghost var k :| 0 <= k < |ls| && links == start + ls[..k] && !CanLink(ls[k]);
        assert start + ls == links + ls[k..];
        return Fail(LinkFailed);
      }
      forall l | l in ls ensures l !in env.refusedLinks {
        var j :| 0 <= j < |ls| && ls[j] == l;
      }
      o := Pass;
    }

    /** `set_state`: the request is always made; the state changes when the
        runtime does not refuse it. */
    method SetState(target: State) returns (o: Outcome<Error>)
      requires Valid()
      modifies this
      ensures Valid()
      ensures o.Pass? <==> target !in env.refusedStates
      ensures o.Fail? ==> o.error == StateChangeFailed(target)
      ensures requests == old(requests) + [target]
      ensures state == if o.Pass? then target else old(state)
      ensures props == old(props) && elements == old(elements) && links == old(links)
    {
      requests := requests + [target];
      if target in env.refusedStates {
        return Fail(StateChangeFailed(target));
      }
      state := target;
      o := Pass;
    }
  }
}
