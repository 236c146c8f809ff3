/**
 * The staged builder of parameter metadata: setters that overwrite one field
 * each, a descriptor bag that accumulates caller descriptors, and `build`,
 * which writes the derived `openType` and `originalType` fields into that bag
 * after every caller field and then constructs the record.
 *
 * The builder's state is given twice: as the fields of the `Builder` class,
 * which its methods update in place, and as a pure state machine (`Step`,
 * `Replay`) over the history of calls made on it, which the class keeps in a
 * ghost field and which the lemmas of module BuilderProperties reason about.
 */
module ParameterInfoBuilder {
  import opened Descriptors
  import opened ParameterInfos

  /** One call made on a builder. */
  datatype Call =
    | ClassTypeCall(t: Option<JClass>)
    | NameCall(n: Option<string>)
    | DescriptionCall(d: Option<string>)
    | DescriptorCall(desc: Descriptor)
    | BuildCall

  /** The builder's fields; `bag` is the contents of its descriptor bag builder. */
  datatype BuilderState =
    BuilderState(typ: Option<JClass>, name: Option<string>,
                 description: Option<string>, bag: Descriptor)

  /** A fresh builder: nothing set, empty descriptor bag. */
  const Initial: BuilderState := BuilderState(None, None, None, map[])

  /**
   * The fields `build` derives from the builder's class: the mapped open type
   * and the class name. Empty when there is no class or the mapper rejects it,
   * since `build` then fails before writing anything.
   */
  function DerivedFields(mapper: OpenTypeMapper, typ: Option<JClass>): (r: Descriptor)
    ensures r == map[] <==> typ.None? || mapper(typ.value).None?
    ensures r != map[] ==> r.Keys == {OpenTypeKey, OriginalTypeKey}
    ensures r != map[] ==> r[OpenTypeKey] == OpenTypeValue(mapper(typ.value).value)
    ensures r != map[] ==> r[OriginalTypeKey] == StringValue(typ.value.name)
  {
    match typ
    case None => map[]
    case Some(t) =>
      match mapper(t)
      case None => map[]
      case Some(o) =>
        var fields := map[OpenTypeKey := OpenTypeValue(o), OriginalTypeKey := StringValue(t.name)];
        assert OpenTypeKey in fields;
        fields
  }

  /**
   * What `build` returns from a builder in state `s`: a missing class fails,
   * a class the mapper rejects fails, and otherwise the record carries the
   * builder's class, name and description and a descriptor holding every
   * caller field except that the two derived fields override callers' fields
   * of the same name.
   */
  function BuildResult(mapper: OpenTypeMapper, s: BuilderState): (r: Result<ParameterInfo>)
    ensures r.Ok? <==> s.typ.Some? && mapper(s.typ.value).Some?
    ensures s.typ.None? ==> r == Err(NullPointer)
    ensures s.typ.Some? && mapper(s.typ.value).None? ==> r == Err(UnsupportedType(s.typ.value))
    ensures r.Ok? ==> r.value.typ == s.typ.value && r.value.name == s.name &&
                      r.value.description == s.description && r.value.descriptor.Some?
    ensures r.Ok? ==> var d := r.value.descriptor.value;
                      OpenTypeKey in d && d[OpenTypeKey] == OpenTypeValue(mapper(s.typ.value).value) &&
                      OriginalTypeKey in d && d[OriginalTypeKey] == StringValue(s.typ.value.name)
    ensures r.Ok? ==> var d := r.value.descriptor.value;
                      forall k :: k != OpenTypeKey && k != OriginalTypeKey ==>
                        (k in d <==> k in s.bag) && (k in s.bag ==> d[k] == s.bag[k])
  {
    match s.typ
    case None => Err(NullPointer)
    case Some(t) =>
      match mapper(t)
      case None => Err(UnsupportedType(t))
      case Some(o) =>
        var descriptor := WithField(WithField(s.bag, OpenTypeKey, OpenTypeValue(o)),
                                    OriginalTypeKey, StringValue(t.name));
        NewParameterInfo(Some(t), s.name, s.description, Some(descriptor))
  }

  /** The fields call `c` writes into the descriptor bag of a builder in state `s`. */
  function Writes(mapper: OpenTypeMapper, s: BuilderState, c: Call): (r: Descriptor)
  {
    match c
    case DescriptorCall(d) => d
    case BuildCall => DerivedFields(mapper, s.typ)
    case _ => map[]
  }

  /**
   * The effect of one call: a setter replaces its own field only, a descriptor
   * is merged into the bag, and `build` writes the derived fields into the bag.
   */
  function Step(mapper: OpenTypeMapper, s: BuilderState, c: Call): (r: BuilderState)
    ensures c.ClassTypeCall? ==> r == s.(typ := c.t)
    ensures c.NameCall? ==> r == s.(name := c.n)
    ensures c.DescriptionCall? ==> r == s.(description := c.d)
    ensures !c.ClassTypeCall? ==> r.typ == s.typ
    ensures !c.NameCall? ==> r.name == s.name
    ensures !c.DescriptionCall? ==> r.description == s.description
    ensures r.bag == WithDescriptor(s.bag, Writes(mapper, s, c))
    ensures c.BuildCall? && BuildResult(mapper, s).Ok? ==>
              r.bag == BuildResult(mapper, s).value.descriptor.value
  {
    match c
    case ClassTypeCall(t) => s.(typ := t)
    case NameCall(n) => s.(name := n)
    case DescriptionCall(d) => s.(description := d)
    case DescriptorCall(d) => s.(bag := WithDescriptor(s.bag, d))
    case BuildCall =>
      match BuildResult(mapper, s)
      case Ok(p) => s.(bag := p.descriptor.value)
      case Err(_) => s
  }

  /** The state of a fresh builder after the calls `calls`, in order. */
  function Replay(mapper: OpenTypeMapper, calls: seq<Call>): (s: BuilderState)
  {
    if calls == [] then Initial
    else Step(mapper, Replay(mapper, calls[..|calls| - 1]), calls[|calls| - 1])
  }

  /** Replaying one more call applies that call's step to the replayed state. */
  lemma ReplayAppend(mapper: OpenTypeMapper, calls: seq<Call>, c: Call)
    ensures Replay(mapper, calls + [c]) == Step(mapper, Replay(mapper, calls), c)
  {
  }

  /**
   * A parameter-info builder. `Build` checks only that a class is set: a
   * missing name does not make it fail (see module NameRequirement).
   */
  class Builder {
    /** The open-type mapper the builder was created with. */
    const mapper: OpenTypeMapper
    var typ: Option<JClass>
    var name: Option<string>
    var description: Option<string>
    /** Contents of the builder's descriptor bag builder. */
    var bag: Descriptor
    /** Every call made on this builder so far. */
    ghost var history: seq<Call>

    function State(): BuilderState
      reads this
    {
      BuilderState(typ, name, description, bag)
    }

    /** The fields are those a fresh builder reaches through `history`. */
    ghost predicate Valid()
      reads this
    {
      State() == Replay(mapper, history)
    }

    constructor (mapper: OpenTypeMapper)
      ensures Valid() && history == []
      ensures this.mapper == mapper && State() == Initial
    {
      this.mapper := mapper;
      typ, name, description, bag := None, None, None, map[];
      history := [];
    }

    method WithClassType(t: Option<JClass>) returns (self: Builder)
      requires Valid()
      modifies this
      ensures Valid() && self == this
      ensures history == old(history) + [ClassTypeCall(t)]
      ensures typ == t
      ensures name == old(name) && description == old(description) && bag == old(bag)
    {
      ReplayAppend(mapper, history, ClassTypeCall(t));
      typ := t;
      history := history + [ClassTypeCall(t)];
      self := this;
    }

    method WithName(n: Option<string>) returns (self: Builder)
      requires Valid()
      modifies this
      ensures Valid() && self == this
      ensures history == old(history) + [NameCall(n)]
      ensures name == n
      ensures typ == old(typ) && description == old(description) && bag == old(bag)
    {
      ReplayAppend(mapper, history, NameCall(n));
      name := n;
      history := history + [NameCall(n)];
      self := this;
    }

    method WithDescription(d: Option<string>) returns (self: Builder)
      requires Valid()
      modifies this
      ensures Valid() && self == this
      ensures history == old(history) + [DescriptionCall(d)]
      ensures description == d
      ensures typ == old(typ) && name == old(name) && bag == old(bag)
    {
      ReplayAppend(mapper, history, DescriptionCall(d));
      description := d;
      history := history + [DescriptionCall(d)];
      self := this;
    }

    /** Merges every field of `d` into the bag, keeping earlier fields `d` does not name. */
    method WithDescriptor(d: Descriptor) returns (self: Builder)
      requires Valid()
      modifies this
      ensures Valid() && self == this
      ensures history == old(history) + [DescriptorCall(d)]
      ensures bag == Descriptors.WithDescriptor(old(bag), d)
      ensures typ == old(typ) && name == old(name) && description == old(description)
    {
      ReplayAppend(mapper, history, DescriptorCall(d));
      bag := Descriptors.WithDescriptor(bag, d);
      history := history + [DescriptorCall(d)];
      self := this;
    }

    /**
     * Builds the record. On success the derived fields have also been written
     * into this builder's own bag, which then equals the record's descriptor;
     * on failure nothing changes.
     */
    method Build() returns (r: Result<ParameterInfo>)
      requires Valid()
      modifies this
      ensures Valid()
      ensures history == old(history) + [BuildCall]
      ensures r == BuildResult(mapper, old(State()))
      ensures typ == old(typ) && name == old(name) && description == old(description)
      ensures r.Ok? ==> bag == r.value.descriptor.value
      ensures r.Err? ==> bag == old(bag)
    {
      ReplayAppend(mapper, history, BuildCall);
      match typ {
        case None =>
          r := Err(NullPointer);
        case Some(t) =>
          match mapper(t) {
            case None =>
              r := Err(UnsupportedType(t));
            case Some(o) =>
              bag := WithField(bag, OpenTypeKey, OpenTypeValue(o));
              bag := WithField(bag, OriginalTypeKey, StringValue(t.name));
              r := NewParameterInfo(typ, name, description, Some(bag));
          }
      }
      history := history + [BuildCall];
    }
  }
}
