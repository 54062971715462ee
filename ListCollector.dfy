/**
 * The list collector: appends tags to a list-shaped tag, keeping a compact
 * byte, int or long array for as long as every appended tag has that width,
 * and widening once and for all to a heterogeneous list on the first tag that
 * does not.
 *
 * The first half is the state machine as pure functions (`Start`, `Step`,
 * `StepAll`, `Finish`) with its properties; the second half is the four
 * collector classes, each owning a growable buffer that `Accept` appends to
 * in place, proved against those functions.
 */
module ListCollector {
  import opened Tags

  // ---------------------------------------------------------------------------
  // The state machine
  // ---------------------------------------------------------------------------

  /** Which of the four collectors is active, and the contents of its buffer. */
  datatype CollectorState =
    | Bytes(bytes: seq<Int8>)
    | Ints(ints: seq<Int32>)
    | Longs(longs: seq<Int64>)
    | Generic(tags: seq<Tag>)

  /** The collected elements, with compact buffers boxed to scalar tags. */
  function Elements(s: CollectorState): seq<Tag> {
    match s
    case Bytes(bytes) => BoxBytes(bytes)
    case Ints(ints) => BoxInts(ints)
    case Longs(longs) => BoxLongs(longs)
    case Generic(tags) => tags
  }

  /** `input` has the width of the collector's buffer (a generic collector takes anything). */
  predicate Fits(s: CollectorState, input: Tag) {
    match s
    case Bytes(_) => input.ByteTag?
    case Ints(_) => input.IntTag?
    case Longs(_) => input.LongTag?
    case Generic(_) => true
  }

  predicate SameKind(s: CollectorState, s': CollectorState) {
    (s.Bytes? && s'.Bytes?) || (s.Ints? && s'.Ints?) || (s.Longs? && s'.Longs?) || (s.Generic? && s'.Generic?)
  }

  /**
   * `listCollector`: the state a merge into `input` starts from. An end tag
   * starts a generic collector, never a compact one.
   */
  function Start(input: Tag): (r: Option<CollectorState>)
    ensures r.Some? <==> IsListShaped(input)
    ensures input.EndTag? ==> r == Some(Generic([]))
  {
    match input
    case EndTag => Some(Generic([]))
    case ListTag(elements) => Some(Generic(elements))
    case ByteArrayTag(bytes) => Some(Bytes(bytes))
    case IntArrayTag(ints) => Some(Ints(ints))
    case LongArrayTag(longs) => Some(Longs(longs))
    case _ => None
  }

  /**
   * `accept`: a compact collector appends a tag of its own width; any other
   * tag makes a generic collector of its boxed buffer, which then takes the
   * tag. A generic collector appends the tag as it is.
   */
  function Step(s: CollectorState, input: Tag): (r: CollectorState)
    ensures Fits(s, input) ==> SameKind(r, s)
    ensures !Fits(s, input) ==> r == Generic(Elements(s) + [input])
  {
    match s
    case Bytes(bytes) =>
      if input.ByteTag? then Bytes(bytes + [input.byteValue]) else Generic(BoxBytes(bytes) + [input])
    case Ints(ints) =>
      if input.IntTag? then Ints(ints + [input.intValue]) else Generic(BoxInts(ints) + [input])
    case Longs(longs) =>
      if input.LongTag? then Longs(longs + [input.longValue]) else Generic(BoxLongs(longs) + [input])
    case Generic(tags) => Generic(tags + [input])
  }

  /** `acceptAll`: `accept` folded over `inputs` from left to right. */
  function StepAll(s: CollectorState, inputs: seq<Tag>): (r: CollectorState)
    ensures SameKind(r, s) || r.Generic?
    ensures s.Generic? ==> r.Generic?
  {
    if inputs == [] then s
    else Step(StepAll(s, inputs[..|inputs| - 1]), inputs[|inputs| - 1])
  }

  /** `result`: a compact collector yields its array, a generic one a list. */
  function Finish(s: CollectorState): (r: Tag)
    ensures Start(r) == Some(s)
    ensures s.Generic? <==> r.ListTag?
  {
    match s
    case Bytes(bytes) => ByteArrayTag(bytes)
    case Ints(ints) => IntArrayTag(ints)
    case Longs(longs) => LongArrayTag(longs)
    case Generic(tags) => ListTag(tags)
  }

  // ---------------------------------------------------------------------------
  // Properties of the state machine
  // ---------------------------------------------------------------------------

  /** One `accept` adds exactly the accepted tag after the elements already held. */
  lemma StepAppends(s: CollectorState, input: Tag)
    ensures Elements(Step(s, input)) == Elements(s) + [input]
    ensures Fits(s, input) ==> SameKind(Step(s, input), s)
    ensures !Fits(s, input) ==> Step(s, input) == Generic(Elements(s) + [input])
  {
    match s
    case Bytes(bytes) =>
      if input.ByteTag? { assert BoxBytes(bytes + [input.byteValue]) == BoxBytes(bytes) + [input]; }
    case Ints(ints) =>
      if input.IntTag? { assert BoxInts(ints + [input.intValue]) == BoxInts(ints) + [input]; }
    case Longs(longs) =>
      if input.LongTag? { assert BoxLongs(longs + [input.longValue]) == BoxLongs(longs) + [input]; }
    case Generic(tags) =>
      assert Step(s, input) == Generic(tags + [input]);
  }

  /**
   * Whatever states are visited, the collected elements are the start's
   * elements followed by the accepted tags, in order.
   */
  lemma {:induction false} StepAllKeepsOrder(s: CollectorState, inputs: seq<Tag>)
    ensures Elements(StepAll(s, inputs)) == Elements(s) + inputs
  {
    if inputs != [] {
      var n := |inputs| - 1;
      StepAllKeepsOrder(s, inputs[..n]);
      StepAppends(StepAll(s, inputs[..n]), inputs[n]);
      assert inputs[..n] + [inputs[n]] == inputs;
    }
  }

  /** A generic collector stays generic and appends every tag as it is. */
  lemma {:induction false} GenericIsTerminal(tags: seq<Tag>, inputs: seq<Tag>)
    ensures StepAll(Generic(tags), inputs) == Generic(tags + inputs)
  {
    if inputs != [] {
      var n := |inputs| - 1;
      GenericIsTerminal(tags, inputs[..n]);
      assert tags + inputs[..n] + [inputs[n]] == tags + inputs;
    }
  }

  /**
   * The state only ever moves one way: it keeps its kind while every tag
   * fits, and otherwise ends generic.
   */
  lemma {:induction false} StepAllIsOneWay(s: CollectorState, inputs: seq<Tag>)
    ensures SameKind(StepAll(s, inputs), s) || StepAll(s, inputs).Generic?
    ensures (forall i | 0 <= i < |inputs| :: Fits(s, inputs[i])) ==> SameKind(StepAll(s, inputs), s)
  {
    if inputs != [] {
      var n := |inputs| - 1;
      StepAllIsOneWay(s, inputs[..n]);
      StepAppends(StepAll(s, inputs[..n]), inputs[n]);
    }
  }

  /**
   * A compact collector that receives a tag of another width, anywhere in the
   * input, ends as a list of its boxed buffer followed by all the accepted tags.
   */
  lemma {:induction false} MismatchWidens(s: CollectorState, inputs: seq<Tag>)
    requires !s.Generic?
    requires exists i | 0 <= i < |inputs| :: !Fits(s, inputs[i])
    ensures StepAll(s, inputs) == Generic(Elements(s) + inputs)
  {
    var n := |inputs| - 1;
    var init := inputs[..n];
    assert inputs == init + [inputs[n]];
    var before := StepAll(s, init);
    assert StepAll(s, inputs) == Step(before, inputs[n]);
    if exists i | 0 <= i < |init| :: !Fits(s, init[i]) {
      MismatchWidens(s, init);
      assert before == Generic(Elements(s) + init);
      assert Step(before, inputs[n]) == Generic(Elements(s) + init + [inputs[n]]);
    } else {
      StepAllIsOneWay(s, init);
      StepAllKeepsOrder(s, init);
      assert !Fits(s, inputs[n]);
      assert !Fits(before, inputs[n]);
      assert Step(before, inputs[n]) == Generic(Elements(before) + [inputs[n]]);
    }
  }

  function ByteValues(tags: seq<Tag>): seq<Int8>
    requires forall i | 0 <= i < |tags| :: tags[i].ByteTag?
  {
    seq(|tags|, i requires 0 <= i < |tags| => tags[i].byteValue)
  }

  function IntValues(tags: seq<Tag>): seq<Int32>
    requires forall i | 0 <= i < |tags| :: tags[i].IntTag?
  {
    seq(|tags|, i requires 0 <= i < |tags| => tags[i].intValue)
  }

  function LongValues(tags: seq<Tag>): seq<Int64>
    requires forall i | 0 <= i < |tags| :: tags[i].LongTag?
  {
    seq(|tags|, i requires 0 <= i < |tags| => tags[i].longValue)
  }

  /** A byte collector fed only byte tags stays one, holding the old bytes then the new. */
  lemma {:induction false} BytesStayCompact(bytes: seq<Int8>, inputs: seq<Tag>)
    requires forall i | 0 <= i < |inputs| :: inputs[i].ByteTag?
    ensures StepAll(Bytes(bytes), inputs) == Bytes(bytes + ByteValues(inputs))
  {
    if inputs == [] {
      assert bytes + ByteValues(inputs) == bytes;
    } else {
      var n := |inputs| - 1;
      BytesStayCompact(bytes, inputs[..n]);
      assert bytes + ByteValues(inputs[..n]) + [inputs[n].byteValue] == bytes + ByteValues(inputs);
    }
  }

  /** An int collector fed only int tags stays one, holding the old ints then the new. */
  lemma {:induction false} IntsStayCompact(ints: seq<Int32>, inputs: seq<Tag>)
    requires forall i | 0 <= i < |inputs| :: inputs[i].IntTag?
    ensures StepAll(Ints(ints), inputs) == Ints(ints + IntValues(inputs))
  {
    if inputs == [] {
      assert ints + IntValues(inputs) == ints;
    } else {
      var n := |inputs| - 1;
      IntsStayCompact(ints, inputs[..n]);
      assert ints + IntValues(inputs[..n]) + [inputs[n].intValue] == ints + IntValues(inputs);
    }
  }

  /** A long collector fed only long tags stays one, holding the old longs then the new. */
  lemma {:induction false} LongsStayCompact(longs: seq<Int64>, inputs: seq<Tag>)
    requires forall i | 0 <= i < |inputs| :: inputs[i].LongTag?
    ensures StepAll(Longs(longs), inputs) == Longs(longs + LongValues(inputs))
  {
    if inputs == [] {
      assert longs + LongValues(inputs) == longs;
    } else {
      var n := |inputs| - 1;
      LongsStayCompact(longs, inputs[..n]);
      assert longs + LongValues(inputs[..n]) + [inputs[n].longValue] == longs + LongValues(inputs);
    }
  }

  /** Accepting nothing leaves a collector's result equal to the tag it started from. */
  lemma FinishOfNothingIsStart(input: Tag)
    requires IsListShaped(input)
    ensures Finish(StepAll(Start(input).value, [])) == if input.EndTag? then ListTag([]) else input
  {
  }

  // ---------------------------------------------------------------------------
  // The collector objects
  // ---------------------------------------------------------------------------

  /** A reference to one of the four collector classes. */
  datatype Collector =
    | ByteCollector(byteCollector: ByteListCollector)
    | IntCollector(intCollector: IntListCollector)
    | LongCollector(longCollector: LongListCollector)
    | GenericCollector(genericCollector: GenericListCollector)
  {
    function Obj(): object {
      match this
      case ByteCollector(c) => c
      case IntCollector(c) => c
      case LongCollector(c) => c
      case GenericCollector(c) => c
    }

    function State(): CollectorState
      reads Obj()
    {
      match this
      case ByteCollector(c) => Bytes(c.values)
      case IntCollector(c) => Ints(c.values)
      case LongCollector(c) => Longs(c.values)
      case GenericCollector(c) => Generic(c.result)
    }
  }

  class ByteListCollector {
    var values: seq<Int8>

    constructor (values: seq<Int8>)
      ensures this.values == values
    {
      this.values := values;
    }

    method Accept(input: Tag) returns (next: Collector)
      modifies this
      ensures next.State() == Step(Bytes(old(values)), input)
      ensures input.ByteTag? ==> next == ByteCollector(this)
      ensures !input.ByteTag? ==> fresh(next.Obj()) && values == old(values)
    {
      if input.ByteTag? {
        values := values + [input.byteValue];
        return ByteCollector(this);
      }
      var generic := new GenericListCollector.FromBytes(values);
      next := generic.Accept(input);
    }

    method Result() returns (r: Tag)
      ensures r == Finish(Bytes(values))
    {
      r := ByteArrayTag(values);
    }
  }

  class IntListCollector {
    var values: seq<Int32>

    constructor (values: seq<Int32>)
      ensures this.values == values
    {
      this.values := values;
    }

    method Accept(input: Tag) returns (next: Collector)
      modifies this
      ensures next.State() == Step(Ints(old(values)), input)
      ensures input.IntTag? ==> next == IntCollector(this)
      ensures !input.IntTag? ==> fresh(next.Obj()) && values == old(values)
    {
      if input.IntTag? {
        values := values + [input.intValue];
        return IntCollector(this);
      }
      var generic := new GenericListCollector.FromInts(values);
      next := generic.Accept(input);
    }

    method Result() returns (r: Tag)
      ensures r == Finish(Ints(values))
    {
      r := IntArrayTag(values);
    }
  }

  class LongListCollector {
    var values: seq<Int64>

    constructor (values: seq<Int64>)
      ensures this.values == values
    {
      this.values := values;
    }

    method Accept(input: Tag) returns (next: Collector)
      modifies this
      ensures next.State() == Step(Longs(old(values)), input)
      ensures input.LongTag? ==> next == LongCollector(this)
      ensures !input.LongTag? ==> fresh(next.Obj()) && values == old(values)
    {
      if input.LongTag? {
        values := values + [input.longValue];
        return LongCollector(this);
      }
      var generic := new GenericListCollector.FromLongs(values);
      next := generic.Accept(input);
    }

    method Result() returns (r: Tag)
      ensures r == Finish(Longs(values))
    {
      r := LongArrayTag(values);
    }
  }

  class GenericListCollector {
    var result: seq<Tag>

    constructor ()
      ensures result == []
    {
      result := [];
    }

    constructor FromTags(tags: seq<Tag>)
      ensures result == tags
    {
      result := tags;
    }

    /** Boxes each buffered byte, in order. */
    constructor FromBytes(data: seq<Int8>)
      ensures result == BoxBytes(data)
    {
      var tags := [];
      for i := 0 to |data|
        invariant tags == BoxBytes(data[..i])
      {
        tags := tags + [ByteTag(data[i])];
      }
      assert data[..|data|] == data;
      result := tags;
    }

    /** Boxes each buffered int, in order. */
    constructor FromInts(data: seq<Int32>)
      ensures result == BoxInts(data)
    {
      var tags := [];
      for i := 0 to |data|
        invariant tags == BoxInts(data[..i])
      {
        tags := tags + [IntTag(data[i])];
      }
      assert data[..|data|] == data;
      result := tags;
    }

    /** Boxes each buffered long, in order. */
    constructor FromLongs(data: seq<Int64>)
      ensures result == BoxLongs(data)
    {
      var tags := [];
      for i := 0 to |data|
        invariant tags == BoxLongs(data[..i])
      {
        tags := tags + [LongTag(data[i])];
      }
      assert data[..|data|] == data;
      result := tags;
    }

    method Accept(input: Tag) returns (next: Collector)
      modifies this
      ensures result == old(result) + [input]
      ensures next == GenericCollector(this)
    {
      result := result + [input];
      next := GenericCollector(this);
    }

    method Result() returns (r: Tag)
      ensures r == Finish(Generic(result))
    {
      r := ListTag(result);
    }
  }

  /** `listCollector`: a fresh collector for a list-shaped `input`, or none. */
  method NewCollector(input: Tag) returns (c: Option<Collector>)
    ensures c.Some? <==> IsListShaped(input)
    ensures c.Some? ==> fresh(c.value.Obj()) && Start(input) == Some(c.value.State())
  {
    if input.EndTag? {
      var generic := new GenericListCollector();
      c := Some(GenericCollector(generic));
    } else if input.ListTag? {
      var generic := new GenericListCollector.FromTags(input.elements);
      c := Some(GenericCollector(generic));
    } else if input.ByteArrayTag? {
      var collector := new ByteListCollector(input.bytes);
      c := Some(ByteCollector(collector));
    } else if input.IntArrayTag? {
      var collector := new IntListCollector(input.ints);
      c := Some(IntCollector(collector));
    } else if input.LongArrayTag? {
      var collector := new LongListCollector(input.longs);
      c := Some(LongCollector(collector));
    } else {
      c := None;
    }
  }

  /** `accept`, dispatched to whichever collector `c` is. */
  method Accept(c: Collector, input: Tag) returns (next: Collector)
    modifies c.Obj()
    ensures next.State() == Step(old(c.State()), input)
    ensures next.Obj() == c.Obj() || fresh(next.Obj())
  {
    match c
    case ByteCollector(collector) => next := collector.Accept(input);
    case IntCollector(collector) => next := collector.Accept(input);
    case LongCollector(collector) => next := collector.Accept(input);
    case GenericCollector(collector) => next := collector.Accept(input);
  }

  /** `acceptAll`: accepts each input in turn, carrying on with whichever collector comes back. */
  method AcceptAll(c: Collector, inputs: seq<Tag>) returns (next: Collector)
    modifies c.Obj()
    ensures next.State() == StepAll(old(c.State()), inputs)
    ensures next.Obj() == c.Obj() || fresh(next.Obj())
  {
    next := c;
    for i := 0 to |inputs|
      invariant next.State() == StepAll(old(c.State()), inputs[..i])
      invariant next.Obj() == c.Obj() || fresh(next.Obj())
    {
      assert inputs[..i + 1][..i] == inputs[..i];
      next := Accept(next, inputs[i]);
    }
    assert inputs[..|inputs|] == inputs;
  }

  /** `result`, dispatched to whichever collector `c` is. */
  method Result(c: Collector) returns (r: Tag)
    ensures r == Finish(c.State())
  {
    match c
    case ByteCollector(collector) => r := collector.Result();
    case IntCollector(collector) => r := collector.Result();
    case LongCollector(collector) => r := collector.Result();
    case GenericCollector(collector) => r := collector.Result();
  }
}
