/**
 * Properties of the parameter-info builder over any sequence of calls made on
 * a fresh builder: setters are last-call-wins, descriptor fields accumulate
 * with the last writer of each field winning, `build` is repeatable, and the
 * built record reflects the last class, name, description and caller fields.
 */
module BuilderProperties {
  import opened Descriptors
  import opened ParameterInfos
  import opened ParameterInfoBuilder

  // ---------------------------------------------------------------------------
  // Setters: the last call wins, and a field never set stays absent

  lemma {:induction false} TypeIsLastClassTypeCall(mapper: OpenTypeMapper, calls: seq<Call>, i: nat)
    requires i < |calls| && calls[i].ClassTypeCall?
    requires forall j :: i < j < |calls| ==> !calls[j].ClassTypeCall?
    ensures Replay(mapper, calls).typ == calls[i].t
  {
    if i < |calls| - 1 {
      TypeIsLastClassTypeCall(mapper, calls[..|calls| - 1], i);
    }
  }

  lemma {:induction false} TypeAbsentWithoutClassTypeCall(mapper: OpenTypeMapper, calls: seq<Call>)
    requires forall j :: 0 <= j < |calls| ==> !calls[j].ClassTypeCall?
    ensures Replay(mapper, calls).typ == None
  {
    if calls != [] {
      TypeAbsentWithoutClassTypeCall(mapper, calls[..|calls| - 1]);
    }
  }

  lemma {:induction false} NameIsLastNameCall(mapper: OpenTypeMapper, calls: seq<Call>, i: nat)
    requires i < |calls| && calls[i].NameCall?
    requires forall j :: i < j < |calls| ==> !calls[j].NameCall?
    ensures Replay(mapper, calls).name == calls[i].n
  {
    if i < |calls| - 1 {
      NameIsLastNameCall(mapper, calls[..|calls| - 1], i);
    }
  }

  lemma {:induction false} NameAbsentWithoutNameCall(mapper: OpenTypeMapper, calls: seq<Call>)
    requires forall j :: 0 <= j < |calls| ==> !calls[j].NameCall?
    ensures Replay(mapper, calls).name == None
  {
    if calls != [] {
      NameAbsentWithoutNameCall(mapper, calls[..|calls| - 1]);
    }
  }

  lemma {:induction false} DescriptionIsLastDescriptionCall(mapper: OpenTypeMapper, calls: seq<Call>, i: nat)
    requires i < |calls| && calls[i].DescriptionCall?
    requires forall j :: i < j < |calls| ==> !calls[j].DescriptionCall?
    ensures Replay(mapper, calls).description == calls[i].d
  {
    if i < |calls| - 1 {
      DescriptionIsLastDescriptionCall(mapper, calls[..|calls| - 1], i);
    }
  }

  lemma {:induction false} DescriptionAbsentWithoutDescriptionCall(mapper: OpenTypeMapper, calls: seq<Call>)
    requires forall j :: 0 <= j < |calls| ==> !calls[j].DescriptionCall?
    ensures Replay(mapper, calls).description == None
  {
    if calls != [] {
      DescriptionAbsentWithoutDescriptionCall(mapper, calls[..|calls| - 1]);
    }
  }

  // ---------------------------------------------------------------------------
  // The descriptor bag: last writer of each field wins, nothing else appears

  /** The fields the `i`-th call writes into the bag, given the calls before it. */
  function Written(mapper: OpenTypeMapper, calls: seq<Call>, i: nat): (r: Descriptor)
    requires i < |calls|
  {
    Writes(mapper, Replay(mapper, calls[..i]), calls[i])
  }

  /** The `i`-th call is the last one that writes field `k`. */
  ghost predicate LastWriter(mapper: OpenTypeMapper, calls: seq<Call>, i: nat, k: string)
  {
    i < |calls| && k in Written(mapper, calls, i) &&
    forall j :: i < j < |calls| ==> k !in Written(mapper, calls, j)
  }

  /** What a call writes depends only on the calls before it. */
  lemma WrittenInPrefix(mapper: OpenTypeMapper, calls: seq<Call>, m: nat, i: nat)
    requires i < m <= |calls|
    ensures Written(mapper, calls[..m], i) == Written(mapper, calls, i)
  {
    assert calls[..m][..i] == calls[..i];
  }

  /** A field's value in the bag is the one its last writer gave it. */
  lemma {:induction false} BagHoldsLastWrite(mapper: OpenTypeMapper, calls: seq<Call>, i: nat, k: string)
    requires LastWriter(mapper, calls, i, k)
    ensures k in Replay(mapper, calls).bag
    ensures Replay(mapper, calls).bag[k] == Written(mapper, calls, i)[k]
  {
    var n := |calls|;
    var p := calls[..n - 1];
    assert calls[..n - 1] == p;
    if i < n - 1 {
      WrittenInPrefix(mapper, calls, n - 1, i);
      forall j | i < j < n - 1
        ensures k !in Written(mapper, p, j)
      {
        WrittenInPrefix(mapper, calls, n - 1, j);
      }
      BagHoldsLastWrite(mapper, p, i, k);
      assert k !in Written(mapper, calls, n - 1);
    }
  }

  /** A field no call writes is not in the bag. */
  lemma {:induction false} BagHoldsOnlyWrittenFields(mapper: OpenTypeMapper, calls: seq<Call>, k: string)
    requires forall j :: 0 <= j < |calls| ==> k !in Written(mapper, calls, j)
    ensures k !in Replay(mapper, calls).bag
  {
    var n := |calls|;
    if n > 0 {
      var p := calls[..n - 1];
      forall j | 0 <= j < n - 1
        ensures k !in Written(mapper, p, j)
      {
        WrittenInPrefix(mapper, calls, n - 1, j);
      }
      BagHoldsOnlyWrittenFields(mapper, p, k);
      assert k !in Written(mapper, calls, n - 1);
    }
  }

  // ---------------------------------------------------------------------------
  // build

  /**
   * Building again without further calls yields the same result and leaves the
   * builder as the first build left it: the derived fields it rewrites already
   * hold the same values.
   */
  lemma BuildIsRepeatable(mapper: OpenTypeMapper, s: BuilderState)
    ensures BuildResult(mapper, Step(mapper, s, BuildCall)) == BuildResult(mapper, s)
    ensures Step(mapper, Step(mapper, s, BuildCall), BuildCall) == Step(mapper, s, BuildCall)
  {
    var s1 := Step(mapper, s, BuildCall);
    if BuildResult(mapper, s).Ok? {
      var d := BuildResult(mapper, s).value.descriptor.value;
      var d1 := BuildResult(mapper, s1).value.descriptor.value;
      assert d1 == d;
    }
  }

  /**
   * A built record's class is the last class set, its derived fields are
   * computed from that class, and its protocol view shows that class's type
   * name together with the last name and description set.
   */
  lemma {:induction false} BuiltRecordFollowsLastCalls(mapper: OpenTypeMapper, calls: seq<Call>,
                                                     i: nat, t: JClass, o: OpenType)
    requires i < |calls| && calls[i] == ClassTypeCall(Some(t))
    requires forall j :: i < j < |calls| ==> !calls[j].ClassTypeCall?
    requires mapper(t) == Some(o)
    ensures BuildResult(mapper, Replay(mapper, calls)).Ok?
    ensures var p := BuildResult(mapper, Replay(mapper, calls)).value;
            p.typ == t && p.descriptor.Some? &&
            p.descriptor.value[OpenTypeKey] == OpenTypeValue(o) &&
            p.descriptor.value[OriginalTypeKey] == StringValue(t.name) &&
            p.ToMBeanParameterInfo().typeName == t.typeName &&
            p.ToMBeanParameterInfo().name == Replay(mapper, calls).name &&
            p.ToMBeanParameterInfo().description == Replay(mapper, calls).description
  {
    TypeIsLastClassTypeCall(mapper, calls, i);
  }

  /**
   * A caller field other than the two derived ones reaches the built record
   * with the value of the last descriptor that supplied it.
   */
  lemma CallerFieldReachesRecord(mapper: OpenTypeMapper, calls: seq<Call>, i: nat, k: string)
    requires k != OpenTypeKey && k != OriginalTypeKey
    requires LastWriter(mapper, calls, i, k)
    requires BuildResult(mapper, Replay(mapper, calls)).Ok?
    ensures calls[i].DescriptorCall? && k in calls[i].desc
    ensures var p := BuildResult(mapper, Replay(mapper, calls)).value;
            p.descriptor.Some? && k in p.descriptor.value &&
            p.descriptor.value[k] == calls[i].desc[k]
  {
    BagHoldsLastWrite(mapper, calls, i, k);
  }

  /** A caller field that no descriptor supplied is absent from the built record. */
  lemma CallerFieldAbsentUnlessSupplied(mapper: OpenTypeMapper, calls: seq<Call>, k: string)
    requires k != OpenTypeKey && k != OriginalTypeKey
    requires forall j :: 0 <= j < |calls| && calls[j].DescriptorCall? ==> k !in calls[j].desc
    requires BuildResult(mapper, Replay(mapper, calls)).Ok?
    ensures var p := BuildResult(mapper, Replay(mapper, calls)).value;
            p.descriptor.Some? && k !in p.descriptor.value
  {
    forall j | 0 <= j < |calls|
      ensures k !in Written(mapper, calls, j)
    {
    }
    BagHoldsOnlyWrittenFields(mapper, calls, k);
  }

  // ---------------------------------------------------------------------------
  // Applying the history lemmas to a builder object

  /**
   * A builder whose last `withClassType` call set a class the mapper accepts
   * builds a record of that class, whose descriptor names the class and holds
   * its open type.
   */
  method BuildAfterClassType(b: Builder, i: nat, t: JClass, o: OpenType)
    returns (r: Result<ParameterInfo>)
    requires b.Valid()
    requires i < |b.history| && b.history[i] == ClassTypeCall(Some(t))
    requires forall j :: i < j < |b.history| ==> !b.history[j].ClassTypeCall?
    requires b.mapper(t) == Some(o)
    modifies b
    ensures b.Valid()
    ensures r.Ok? && r.value.typ == t && r.value.descriptor.Some?
    ensures var d := r.value.descriptor.value;
            OpenTypeKey in d && d[OpenTypeKey] == OpenTypeValue(o) &&
            OriginalTypeKey in d && d[OriginalTypeKey] == StringValue(t.name)
  {
    TypeIsLastClassTypeCall(b.mapper, b.history, i);
    r := b.Build();
  }
}
