/**
 * Precedence between caller descriptor fields and the two fields `build`
 * derives (`openType`, `originalType`). As written, `build` writes the
 * derived fields after every caller field, so a caller's value for either
 * name never reaches the record. The caller-wins build below lets a caller's
 * value stand and uses the derived value only where the caller gave none.
 */
module DerivedPrecedence {
  import opened Descriptors
  import opened ParameterInfos
  import opened ParameterInfoBuilder

  /**
   * As written: a caller value for a derived field name is replaced by the
   * derived value, whatever the caller put there.
   */
  lemma CallerDerivedFieldReplaced(mapper: OpenTypeMapper, s: BuilderState, k: string)
    requires k == OpenTypeKey || k == OriginalTypeKey
    requires BuildResult(mapper, s).Ok?
    ensures var d := BuildResult(mapper, s).value.descriptor.value;
            k in d && d[k] == DerivedFields(mapper, s.typ)[k]
    ensures k in s.bag && s.bag[k].ObjectValue? ==>
              BuildResult(mapper, s).value.descriptor.value[k] != s.bag[k]
  {
  }

  /**
   * As written, on a call sequence: a caller descriptor supplies `openType`,
   * the class is set afterwards, and the built record carries the mapped open
   * type instead of the caller's value.
   */
  lemma CallerOpenTypeLostOnBuild(mapper: OpenTypeMapper, t: JClass, o: OpenType, v: Value)
    requires mapper(t) == Some(o) && v != OpenTypeValue(o)
    ensures var calls := [DescriptorCall(map[OpenTypeKey := v]), ClassTypeCall(Some(t))];
            var r := BuildResult(mapper, Replay(mapper, calls));
            r.Ok? && OpenTypeKey in r.value.descriptor.value &&
            r.value.descriptor.value[OpenTypeKey] == OpenTypeValue(o) &&
            r.value.descriptor.value[OpenTypeKey] != v
  {
  }

  /**
   * Build with caller fields winning: it fails exactly as `build` does, and on
   * success the record carries the builder's class, name and description and
   * a descriptor whose fields are the caller's fields together with the
   * derived fields. A caller's value wins; a derived value is used only for a
   * derived name the caller did not supply.
   */
  function BuildCallerWins(mapper: OpenTypeMapper, s: BuilderState): (r: Result<ParameterInfo>)
    ensures r.Ok? <==> BuildResult(mapper, s).Ok?
    ensures r.Err? ==> r == BuildResult(mapper, s)
    ensures r.Ok? ==> r.value.typ == s.typ.value && r.value.name == s.name &&
                      r.value.description == s.description && r.value.descriptor.Some?
    ensures r.Ok? ==> var d := r.value.descriptor.value;
                      var derived := DerivedFields(mapper, s.typ);
                      (forall k :: k in d <==> k in s.bag || k in derived) &&
                      (forall k :: k in s.bag ==> d[k] == s.bag[k]) &&
                      (forall k :: k in derived && k !in s.bag ==> d[k] == derived[k])
  {
    match s.typ
    case None => Err(NullPointer)
    case Some(t) =>
      match mapper(t)
      case None => Err(UnsupportedType(t))
      case Some(o) =>
        var descriptor := WithDescriptor(DerivedFields(mapper, s.typ), s.bag);
        NewParameterInfo(Some(t), s.name, s.description, Some(descriptor))
  }

  /**
   * The two builds differ only in precedence: when the caller supplied
   * neither derived field name, they give the same result.
   */
  lemma CallerWinsAgreesWithoutClash(mapper: OpenTypeMapper, s: BuilderState)
    requires OpenTypeKey !in s.bag && OriginalTypeKey !in s.bag
    ensures BuildCallerWins(mapper, s) == BuildResult(mapper, s)
  {
    if BuildResult(mapper, s).Ok? {
      var d := BuildCallerWins(mapper, s).value.descriptor.value;
      var d' := BuildResult(mapper, s).value.descriptor.value;
      assert d == d';
    }
  }

  /**
   * With caller fields winning, a caller value for a derived field name
   * reaches the record unchanged.
   */
  lemma CallerDerivedFieldKept(mapper: OpenTypeMapper, s: BuilderState, k: string)
    requires k == OpenTypeKey || k == OriginalTypeKey
    requires k in s.bag
    requires BuildCallerWins(mapper, s).Ok?
    ensures var d := BuildCallerWins(mapper, s).value.descriptor.value;
            k in d && d[k] == s.bag[k]
  {
  }
}
