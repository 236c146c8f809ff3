# ParameterInfo and its builder, modelled in Dafny

This project models the parameter metadata of the mxj_01 management-interface
library: the immutable `ParameterInfo` record that describes one argument of a
management operation, its projection to the protocol-level parameter view
(`MBeanParameterInfo`), and the staged `ParameterInfo.Builder`.

The record holds a required class plus an optional name, an optional
description and an optional descriptor (a key/value metadata bag). The builder
works like this:

- Each setter overwrites one field.
- `withDescriptor` merges caller descriptors into one growing bag.
- `build` writes two derived fields into that same bag, after every caller
  field: `openType`, the open type the mapper gives the class, and
  `originalType`, the class's `getName`. It then constructs the record.

Files:

- `descriptors.dfy` (module `Descriptors`): descriptors as `map<string, Value>`.
  It also holds the bag builder's last-writer-wins `WithField` and
  `WithDescriptor`, and the two derived field names.
- `parameter_info.dfy` (module `ParameterInfos`): Java classes as `JClass`, which
  carries `getName` and `getTypeName` as separate strings. It also holds the
  open-type mapper as a function value, the record, its constructor and its
  getters, and the protocol view.
- `builder.dfy` (module `ParameterInfoBuilder`): the builder as a class whose
  methods update its fields in place. It also holds a pure state machine for the
  same builder: `Step` is the effect of one call, `Replay` is the effect of a
  sequence of calls, and `BuildResult` is what `build` returns. The class keeps
  the calls made on it in a ghost `history` field. Its invariant `Valid()` says
  that its fields equal `Replay` of that history.
- `builder_properties.dfy` (module `BuilderProperties`): lemmas over any
  sequence of calls on a fresh builder, and a client of the builder object
  that uses them.
- `name_requirement.dfy` (module `NameRequirement`): the required-name
  discrepancy described under "Findings", with a build that checks the name.
- `derived_precedence.dfy` (module `DerivedPrecedence`): the precedence of
  derived over caller descriptor fields, described under "Findings", with a
  build in which caller fields win.

Java `null` is `None` of an `Option`. Exceptions become the `Err` side of a
`Result`:

- `NullPointer` for a missing class.
- `UnsupportedType` for a class the open-type mapper rejects.
- `MissingName`, used only by the name-checking build under "Findings".

The mapper is `OpenTypeMapper.getInstance()` in the source. Here it is a
parameter of the builder's constructor, kept in a `const` field.

## Model

| member | source | states |
|---|---|---|
| Descriptors.WithField | src/main/java/com/teragrep/mxj_01/ParameterInfo.java:103-105 | setting a field makes it hold the new value; every other field keeps its presence and value |
| Descriptors.WithDescriptor | src/main/java/com/teragrep/mxj_01/ParameterInfo.java:96-99 | merging a descriptor into the bag: the result's fields are the union of both; a merged field wins; a bag field the descriptor does not name is kept |
| ParameterInfos.NewParameterInfo | src/main/java/com/teragrep/mxj_01/ParameterInfo.java:37-58 | construction fails exactly when the class is null. Otherwise the getters return the class, the name, the description and the descriptor exactly as supplied. The optional getters are present exactly when a value was supplied |
| ParameterInfos.ParameterInfo.ToMBeanParameterInfo | src/main/java/com/teragrep/mxj_01/ParameterInfo.java:64-68 | the view carries the name, the class's `getTypeName`, the description and the descriptor unchanged; an absent value stays absent |
| ParameterInfos.SameViewIffSameVisibleFields | src/main/java/com/teragrep/mxj_01/ParameterInfo.java:64-68 | two records have equal views if and only if they agree on name, description, descriptor and the class's type name |
| ParameterInfoBuilder.DerivedFields | src/main/java/com/teragrep/mxj_01/ParameterInfo.java:102-105 | the derived fields are empty exactly when there is no class or the mapper rejects it. Otherwise they are exactly `openType`, the mapped type, and `originalType`, the class's `getName` |
| ParameterInfoBuilder.BuildResult | src/main/java/com/teragrep/mxj_01/ParameterInfo.java:101-108 | build succeeds if and only if a class is set and the mapper accepts it. A missing class gives `NullPointer`; a rejected class gives `UnsupportedType`. On success the record carries the builder's class, name and description. Its descriptor has both derived fields with their derived values, and exactly the bag's other fields with their values |
| ParameterInfoBuilder.Step | src/main/java/com/teragrep/mxj_01/ParameterInfo.java:81-106 | each setter replaces only its own field. Every other call leaves the three setter fields alone. The bag becomes the old bag merged with what the call writes. After a successful build the bag equals the record's descriptor |
| ParameterInfoBuilder.Builder.constructor | src/main/java/com/teragrep/mxj_01/ParameterInfo.java:72-79 | a new builder has no class, name or description, an empty bag and an empty history |
| ParameterInfoBuilder.Builder.WithClassType | src/main/java/com/teragrep/mxj_01/ParameterInfo.java:81-84 | the class becomes the argument, which may be null. Name, description and bag are unchanged. The call is recorded and `Valid()` is kept. The method returns the builder itself |
| ParameterInfoBuilder.Builder.WithName | src/main/java/com/teragrep/mxj_01/ParameterInfo.java:86-89 | the name becomes the argument. Class, description and bag are unchanged. The call is recorded and `Valid()` is kept |
| ParameterInfoBuilder.Builder.WithDescription | src/main/java/com/teragrep/mxj_01/ParameterInfo.java:91-94 | the description becomes the argument. Class, name and bag are unchanged. The call is recorded and `Valid()` is kept |
| ParameterInfoBuilder.Builder.WithDescriptor | src/main/java/com/teragrep/mxj_01/ParameterInfo.java:96-99 | the bag becomes the old bag merged with the argument. Class, name and description are unchanged. The call is recorded and `Valid()` is kept |
| ParameterInfoBuilder.Builder.Build | src/main/java/com/teragrep/mxj_01/ParameterInfo.java:101-109 | it returns `BuildResult` of the state before the call. On success the builder's own bag now equals the record's descriptor; on failure the bag is unchanged. Class, name and description are unchanged |
| BuilderProperties.TypeIsLastClassTypeCall | src/main/java/com/teragrep/mxj_01/ParameterInfo.java:81-84 | after any sequence of calls, the class is the argument of the last `withClassType` call |
| BuilderProperties.TypeAbsentWithoutClassTypeCall | src/main/java/com/teragrep/mxj_01/ParameterInfo.java:75 | with no `withClassType` call the class stays absent |
| BuilderProperties.NameIsLastNameCall | src/main/java/com/teragrep/mxj_01/ParameterInfo.java:86-89 | after any sequence of calls, the name is the argument of the last `withName` call |
| BuilderProperties.NameAbsentWithoutNameCall | src/main/java/com/teragrep/mxj_01/ParameterInfo.java:76 | with no `withName` call the name stays absent |
| BuilderProperties.DescriptionIsLastDescriptionCall | src/main/java/com/teragrep/mxj_01/ParameterInfo.java:91-94 | after any sequence of calls, the description is the argument of the last `withDescription` call |
| BuilderProperties.DescriptionAbsentWithoutDescriptionCall | src/main/java/com/teragrep/mxj_01/ParameterInfo.java:77 | with no `withDescription` call the description stays absent |
| BuilderProperties.BagHoldsLastWrite | src/main/java/com/teragrep/mxj_01/ParameterInfo.java:96-106 | descriptors accumulate: a field is in the bag with the value that the last call writing it gave it. That call is a `withDescriptor` or an earlier successful `build` |
| BuilderProperties.BagHoldsOnlyWrittenFields | src/main/java/com/teragrep/mxj_01/ParameterInfo.java:96-106 | a field that no call wrote is not in the bag |
| BuilderProperties.BuildIsRepeatable | src/main/java/com/teragrep/mxj_01/ParameterInfo.java:101-106 | building a second time with no calls in between returns the same result and leaves the same state |
| BuilderProperties.BuiltRecordFollowsLastCalls | src/main/java/com/teragrep/mxj_01/ParameterInfo.java:101-108 | when the last class set is one the mapper accepts, build succeeds. The record's class is that class, and its derived fields are computed from it. Its view shows that class's type name and the builder's current name and description |
| BuilderProperties.CallerFieldReachesRecord | src/main/java/com/teragrep/mxj_01/ParameterInfo.java:96-108 | a caller field other than `openType` and `originalType` reaches the built descriptor. Its value is the one from the last `withDescriptor` that supplied it |
| BuilderProperties.CallerFieldAbsentUnlessSupplied | src/main/java/com/teragrep/mxj_01/ParameterInfo.java:96-108 | a non-derived field that no caller descriptor supplied is absent from the built descriptor |
| BuilderProperties.BuildAfterClassType | src/main/java/com/teragrep/mxj_01/ParameterInfo.java:101-108 | on a valid builder object whose last `withClassType` set a class the mapper accepts, `Build` returns a record of that class. Its descriptor holds that class's open type and `getName` |
| NameRequirement.BuildSucceedsWithoutName | src/main/java/com/teragrep/mxj_01/ParameterInfo.java:70 | as written: with an accepted class and no `withName` call, build succeeds and the record's name is absent |
| NameRequirement.BuildRequiringName | src/main/java/com/teragrep/mxj_01/ParameterInfo.java:70 | the build the comment describes succeeds if and only if a class and a name are set and the mapper accepts the class. A missing class gives `NullPointer`; a missing name gives `MissingName`. With a name set it agrees with `build` |
| NameRequirement.RequiredNameMissingWithoutNameCall | src/main/java/com/teragrep/mxj_01/ParameterInfo.java:70 | with the name checked, a builder never given a name fails to build |
| NameRequirement.RequiredNameIsLastNameCall | src/main/java/com/teragrep/mxj_01/ParameterInfo.java:70 | with the name checked, a successful build carries the last `withName` argument, which was not null |
| DerivedPrecedence.CallerDerivedFieldReplaced | src/main/java/com/teragrep/mxj_01/ParameterInfo.java:103-105 | as written: in a built record, a field named `openType` or `originalType` holds the derived value, so a caller's other value for it is replaced |
| DerivedPrecedence.CallerOpenTypeLostOnBuild | src/main/java/com/teragrep/mxj_01/ParameterInfo.java:96-105 | as written: with `withDescriptor` supplying `openType`, then `withClassType` for a class the mapper accepts, the built record carries the mapped open type and not the caller's value |
| DerivedPrecedence.BuildCallerWins | src/main/java/com/teragrep/mxj_01/ParameterInfo.java:103-105 | the caller-wins build fails exactly when `build` does. On success its descriptor's fields are the caller's fields plus the derived ones. A caller's value wins, and a derived value appears only where the caller supplied none |
| DerivedPrecedence.CallerWinsAgreesWithoutClash | src/main/java/com/teragrep/mxj_01/ParameterInfo.java:103-105 | when the caller supplied neither derived field name, the caller-wins build and `build` give the same result |
| DerivedPrecedence.CallerDerivedFieldKept | src/main/java/com/teragrep/mxj_01/ParameterInfo.java:103-105 | with caller fields winning, a caller value for `openType` or `originalType` reaches the record unchanged |

## Left out

- The open-type mapper's rules are not part of this model. It is any function from a class to an open type, or to a rejection.
- The descriptor bag builder's internals are not part of this model beyond last-writer-wins insertion. Its value checks are not modelled. Field values other than the open type and the class name are opaque objects (`ObjectValue`).
- The model assumes the bag builder's `withField` and `withDescriptor` change the bag in place. Line 97 discards the builder they return, so the accumulation lemmas (`BuilderProperties.BagHoldsLastWrite` and those built on it) hold only under this assumption.
- The model assumes the bag builder's `build()` returns a snapshot. The record's descriptor is a value, so a later `withDescriptor` on the builder never changes a record already built.
- The model assumes descriptor field names are case-sensitive. A descriptor class that matches field names regardless of case would let `build` overwrite a caller field such as `"OPENTYPE"`. `BuilderProperties.CallerFieldReachesRecord` and `BuilderProperties.CallerFieldAbsentUnlessSupplied` instead keep that field as the caller supplied it.
- `withDescriptor(null)` is not modelled: the argument is always a descriptor, because how the bag builder treats null is not part of this model.
- ParameterInfoBuilder.BuildResult: with a null class, the model fails with `NullPointer` and writes nothing into the bag. In the source, `fromClass(null)` runs first. If the mapper returns rather than throws, `openType` is written into the bag before `type.getName()` throws. That outcome depends on the mapper, which is not part of this model.
- The library parameter view is a plain four-field record. Any normalisation the library applies, such as an empty descriptor in place of null, is not modelled.
- The static `builder()` factory is the `Builder` constructor with the mapper passed in. The mapper singleton lookup is not modelled.
- The raw-type cast at the end of `build` has no behaviour and is not modelled. The record is not generic over the class.
- Thread safety of the mutable builder is not modelled. The builder is used from one thread.
- `CompositeDataTests.java` exercises the attribute, composite and tabular writers and the dynamic bean. These are not part of this model.

## Findings

| source | as written | input that shows it | evidently intended | confidence | as-written member | corrected member |
|---|---|---|---|---|---|---|
| src/main/java/com/teragrep/mxj_01/ParameterInfo.java:70 | the comment says the builder requires the class and the name, but `build` checks only the class | `withClassType(String.class)` then `build()` with no `withName` call: build succeeds and the record has no name | `build` fails when no name was set | medium, not executed: whether callers rely on unnamed parameters is not known | NameRequirement.BuildSucceedsWithoutName | NameRequirement.BuildRequiringName |
| src/main/java/com/teragrep/mxj_01/ParameterInfo.java:103-105 | `build` writes `openType` and `originalType` after every caller field, so a caller's value for either name is always replaced | `withDescriptor` with `openType` set to a caller object, then `withClassType(String.class)`, then `build()`: the record's `openType` is the mapped open type | caller descriptor fields win over the derived fields on a name clash, as the library's design describes | low, not executed: the design also says callers "may still override" the derived fields afterward, which no call on this builder can do, because the record's descriptor is a snapshot | DerivedPrecedence.CallerDerivedFieldReplaced | DerivedPrecedence.BuildCallerWins |

`ParameterInfoBuilder.Builder.Build` keeps the behaviour as written. `NameRequirement.BuildRequiringName` and `DerivedPrecedence.BuildCallerWins` are the intended results, each stated beside it with the lemmas that relate it to `build`.
