/**
 * The builder's stated requirement that both the class and the name be set,
 * against what `build` checks: only the class. As written, a builder on which
 * `withName` was never called builds a record without a name. The
 * name-checking build below is the one the requirement describes.
 */
module NameRequirement {
  import opened Descriptors
  import opened ParameterInfos
  import opened ParameterInfoBuilder
  import opened BuilderProperties

  /**
   * As written: with an accepted class set and no `withName` call, build
   * succeeds and the record's name is absent.
   */
  lemma BuildSucceedsWithoutName(mapper: OpenTypeMapper, calls: seq<Call>, i: nat, t: JClass)
    requires i < |calls| && calls[i] == ClassTypeCall(Some(t))
    requires forall j :: i < j < |calls| ==> !calls[j].ClassTypeCall?
    requires mapper(t).Some?
    requires forall j :: 0 <= j < |calls| ==> !calls[j].NameCall?
    ensures BuildResult(mapper, Replay(mapper, calls)).Ok?
    ensures BuildResult(mapper, Replay(mapper, calls)).value.name == None
  {
    TypeIsLastClassTypeCall(mapper, calls, i);
    NameAbsentWithoutNameCall(mapper, calls);
  }

  /**
   * Build with both required fields checked: a missing class fails as before,
   * a missing name fails with `MissingName`, and otherwise the result is the
   * one `build` gives, which then always carries a name.
   */
  function BuildRequiringName(mapper: OpenTypeMapper, s: BuilderState): (r: Result<ParameterInfo>)
    ensures r.Ok? <==> s.typ.Some? && s.name.Some? && mapper(s.typ.value).Some?
    ensures s.typ.None? ==> r == Err(NullPointer)
    ensures s.typ.Some? && s.name.None? ==> r == Err(MissingName)
    ensures r.Ok? ==> r.value.name.Some? && r.value.name == s.name
    ensures s.name.Some? ==> r == BuildResult(mapper, s)
  {
    if s.typ.None? then Err(NullPointer)
    else if s.name.None? then Err(MissingName)
    else BuildResult(mapper, s)
  }

  /** With the name checked, a builder never given a name fails to build. */
  lemma RequiredNameMissingWithoutNameCall(mapper: OpenTypeMapper, calls: seq<Call>)
    requires forall j :: 0 <= j < |calls| ==> !calls[j].NameCall?
    ensures BuildRequiringName(mapper, Replay(mapper, calls)).Err?
  {
    NameAbsentWithoutNameCall(mapper, calls);
  }

  /**
   * With the name checked, a successful build carries the argument of the
   * last `withName` call, and that argument was not null.
   */
  lemma RequiredNameIsLastNameCall(mapper: OpenTypeMapper, calls: seq<Call>, i: nat)
    requires i < |calls| && calls[i].NameCall?
    requires forall j :: i < j < |calls| ==> !calls[j].NameCall?
    requires BuildRequiringName(mapper, Replay(mapper, calls)).Ok?
    ensures calls[i].n.Some?
    ensures BuildRequiringName(mapper, Replay(mapper, calls)).value.name == calls[i].n
  {
    NameIsLastNameCall(mapper, calls, i);
  }
}
