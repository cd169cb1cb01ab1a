/**
 * The event vocabulary of a streaming XML writer (xml-rs's `XmlEvent`), the
 * nesting discipline such a stream must follow, and the writer itself as an
 * object whose event sequence grows. Indentation and the byte encoding are
 * the emitter's business and are not represented.
 */
module XmlEvents {
  import opened Wrappers

  datatype Attribute = Attribute(name: string, value: string)
  datatype Namespace = Namespace(prefix: string, uri: string)

  datatype XmlEvent =
    | StartElement(name: string, attributes: seq<Attribute>, namespaces: seq<Namespace>)
    | Characters(text: string)
    | EndElement

  /** `XmlEvent::start_element(name)` with nothing attached. */
  function Start(name: string): XmlEvent {
    StartElement(name, [], [])
  }

  /** The events `write_simple_element` emits: open, text, close. */
  function SimpleElement(name: string, value: string): seq<XmlEvent> {
    [Start(name), Characters(value), EndElement]
  }

  /**
   * The nesting depth after `events`, starting at depth `d`, or None when an
   * end event would close an element that is not open.
   */
  function Scan(events: seq<XmlEvent>, d: nat): Option<nat>
    decreases |events|
  {
    if events == [] then Some(d)
    else match events[0]
      case StartElement(_, _, _) => Scan(events[1..], d + 1)
      case Characters(_) => Scan(events[1..], d)
      case EndElement => if d == 0 then None else Scan(events[1..], d - 1)
  }

  /** Every end closes an open element and every element opened is closed. */
  predicate WellNested(events: seq<XmlEvent>) {
    Scan(events, 0) == Some(0)
  }

  /**
   * The names of the elements that `events` opens at depth 0, starting at
   * depth `d`: the top-level elements of a stream, in order.
   */
  function TopLevelNames(events: seq<XmlEvent>, d: nat): seq<string>
    decreases |events|
  {
    if events == [] then []
    else match events[0]
      case StartElement(n, _, _) => (if d == 0 then [n] else []) + TopLevelNames(events[1..], d + 1)
      case Characters(_) => TopLevelNames(events[1..], d)
      case EndElement => if d == 0 then [] else TopLevelNames(events[1..], d - 1)
  }

  /** A stream that forms one element: an opening, well-nested content, a closing. */
  predicate IsElement(events: seq<XmlEvent>) {
    && |events| >= 2
    && events[0].StartElement?
    && events[|events| - 1].EndElement?
    && WellNested(events[1..|events| - 1])
  }

  /** The names of the direct children of an element, in document order. */
  function ChildNames(events: seq<XmlEvent>): seq<string> {
    if |events| < 2 then [] else TopLevelNames(events[1..|events| - 1], 0)
  }

  /** A well-nested stream whose top-level elements are named `names`, in order. */
  predicate Forest(events: seq<XmlEvent>, names: seq<string>) {
    WellNested(events) && TopLevelNames(events, 0) == names
  }

  lemma {:induction false} ScanAppend(a: seq<XmlEvent>, b: seq<XmlEvent>, d: nat)
    ensures Scan(a + b, d) == (match Scan(a, d) case None => None case Some(d') => Scan(b, d'))
    decreases |a|
  {
    if a != [] {
      assert (a + b)[1..] == a[1..] + b;
      match a[0]
      case StartElement(_, _, _) => ScanAppend(a[1..], b, d + 1);
      case Characters(_) => ScanAppend(a[1..], b, d);
      case EndElement => if d > 0 { ScanAppend(a[1..], b, d - 1); }
    } else {
      assert a + b == b;
    }
  }

  lemma {:induction false} TopLevelNamesAppend(a: seq<XmlEvent>, b: seq<XmlEvent>, d: nat)
    requires Scan(a, d).Some?
    ensures TopLevelNames(a + b, d) == TopLevelNames(a, d) + TopLevelNames(b, Scan(a, d).value)
    decreases |a|
  {
    if a != [] {
      assert (a + b)[1..] == a[1..] + b;
      match a[0]
      case StartElement(_, _, _) => TopLevelNamesAppend(a[1..], b, d + 1);
      case Characters(_) => TopLevelNamesAppend(a[1..], b, d);
      case EndElement => TopLevelNamesAppend(a[1..], b, d - 1);
    } else {
      assert a + b == b;
    }
  }

  /** Starting one level deeper only shifts the final depth. */
  lemma {:induction false} ScanShift(e: seq<XmlEvent>, d: nat)
    requires Scan(e, d).Some?
    ensures Scan(e, d + 1) == Some(Scan(e, d).value + 1)
    decreases |e|
  {
    if e != [] {
      match e[0]
      case StartElement(_, _, _) => ScanShift(e[1..], d + 1);
      case Characters(_) => ScanShift(e[1..], d);
      case EndElement => ScanShift(e[1..], d - 1);
    }
  }

  /** Content that never closes more than it opens opens nothing at depth 0 when started inside an element. */
  lemma {:induction false} NestedContentHasNoTopLevel(e: seq<XmlEvent>, d: nat)
    requires Scan(e, d).Some?
    ensures TopLevelNames(e, d + 1) == []
    decreases |e|
  {
    if e != [] {
      match e[0]
      case StartElement(_, _, _) => NestedContentHasNoTopLevel(e[1..], d + 1);
      case Characters(_) => NestedContentHasNoTopLevel(e[1..], d);
      case EndElement => NestedContentHasNoTopLevel(e[1..], d - 1);
    }
  }

  /** Wrapping well-nested content in a start and an end gives one element, whose children are the content's top-level elements. */
  lemma Wrap(start: XmlEvent, content: seq<XmlEvent>)
    requires start.StartElement? && WellNested(content)
    ensures IsElement([start] + content + [EndElement])
    ensures ChildNames([start] + content + [EndElement]) == TopLevelNames(content, 0)
    ensures Forest([start] + content + [EndElement], [start.name])
  {
    var e := [start] + content + [EndElement];
    assert |e| >= 2 && e[0] == start && e[|e| - 1] == EndElement;
    assert e[1..|e| - 1] == content;
    assert ChildNames(e) == TopLevelNames(content, 0);
    assert e[1..] == content + [EndElement];
    ScanShift(content, 0);
    ScanAppend(content, [EndElement], 1);
    assert Scan(e[1..], 1) == Some(0);
    TopLevelNamesAppend(content, [EndElement], 1);
    NestedContentHasNoTopLevel(content, 0);
    assert TopLevelNames(e[1..], 1) == [];
  }

  lemma ForestAppend(a: seq<XmlEvent>, na: seq<string>, b: seq<XmlEvent>, nb: seq<string>)
    requires Forest(a, na) && Forest(b, nb)
    ensures Forest(a + b, na + nb)
  {
    ScanAppend(a, b, 0);
    TopLevelNamesAppend(a, b, 0);
  }

  lemma SimpleElementForest(name: string, value: string)
    ensures Forest(SimpleElement(name, value), [name])
    ensures IsElement(SimpleElement(name, value))
  {
    assert SimpleElement(name, value) == [Start(name)] + [Characters(value)] + [EndElement];
    Wrap(Start(name), [Characters(value)]);
  }

  /** Extends a forest by one simple element; a proof step for records written field by field. */
  lemma Extend(e: seq<XmlEvent>, names: seq<string>, name: string, value: string)
    returns (e': seq<XmlEvent>, names': seq<string>)
    requires Forest(e, names)
    ensures e' == e + SimpleElement(name, value) && names' == names + [name]
    ensures Forest(e', names')
  {
    SimpleElementForest(name, value);
    ForestAppend(e, names, SimpleElement(name, value), [name]);
    e', names' := e + SimpleElement(name, value), names + [name];
  }

  /** The writer: the event sequence emitted so far. */
  class EventWriter {
    var events: seq<XmlEvent>

    constructor ()
      ensures events == []
    {
      events := [];
    }

    method Write(e: XmlEvent)
      modifies this
      ensures events == old(events) + [e]
    {
      events := events + [e];
    }
  }

  /** `write_simple_element`: a start, the text, an end. */
  method WriteSimpleElement(w: EventWriter, name: string, value: string)
    modifies w
    ensures w.events == old(w.events) + SimpleElement(name, value)
  {
    w.Write(Start(name));
    w.Write(Characters(value));
    w.Write(EndElement);
  }
}
