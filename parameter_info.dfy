/**
 * The immutable parameter-metadata record of a management-interface
 * operation, and its projection to the protocol-level parameter view.
 */
module ParameterInfos {
  import opened Descriptors

  /** An absent (null) or present reference. */
  datatype Option<+T> = None | Some(value: T)

  /**
   * A runtime class, seen through its two names: `name` is `Class.getName`
   * (written into descriptors), `typeName` is `Class.getTypeName` (shown in the
   * parameter view). They differ for array classes.
   */
  datatype JClass = JClass(name: string, typeName: string)

  /** The open-type mapper: `None` when it cannot map the class and throws. */
  type OpenTypeMapper = JClass -> Option<OpenType>

  datatype Error =
    | NullPointer                     // a required reference was null
    | UnsupportedType(cls: JClass)    // the open-type mapper rejected the class
    | MissingName                     // no name was set (only the name-checking build)

  datatype Result<+T> = Ok(value: T) | Err(error: Error)

  /** The protocol-level parameter view: name, type name, description, descriptor. */
  datatype MBeanParameterInfo =
    MBeanParameterInfo(name: Option<string>, typeName: string,
                       description: Option<string>, descriptor: Option<Descriptor>)

  /**
   * Parameter metadata. Only the class is required; the name, the description
   * and the descriptor may each be absent.
   */
  datatype ParameterInfo =
    ParameterInfo(typ: JClass, name: Option<string>,
                  description: Option<string>, descriptor: Option<Descriptor>)
  {
    function GetType(): JClass { typ }

    function GetName(): Option<string> { name }

    /** Present exactly when a descriptor was stored. */
    function GetDescriptor(): Option<Descriptor> { descriptor }

    /** Present exactly when a description was stored. */
    function GetDescription(): Option<string> { description }

    /**
     * The protocol-level view: every stored value is passed through unchanged,
     * the class contributing only its type name; an absent description or
     * descriptor stays absent.
     */
    function ToMBeanParameterInfo(): (m: MBeanParameterInfo)
      ensures m.name == GetName()
      ensures m.typeName == GetType().typeName
      ensures m.description == GetDescription()
      ensures m.descriptor == GetDescriptor()
    {
      MBeanParameterInfo(GetName(), GetType().typeName, GetDescription(), GetDescriptor())
    }
  }

  /**
   * The record's constructor: a null class is rejected, every other argument
   * is stored as given and read back unchanged by the getters.
   */
  function NewParameterInfo(typ: Option<JClass>, name: Option<string>,
                            description: Option<string>, descriptor: Option<Descriptor>)
    : (r: Result<ParameterInfo>)
    ensures r.Ok? <==> typ.Some?
    ensures typ.None? ==> r == Err(NullPointer)
    ensures r.Ok? ==> r.value.GetType() == typ.value && r.value.GetName() == name
    ensures r.Ok? ==> r.value.GetDescription() == description
    ensures r.Ok? ==> r.value.GetDescriptor() == descriptor
  {
    match typ
    case None => Err(NullPointer)
    case Some(t) => Ok(ParameterInfo(t, name, description, descriptor))
  }

  /**
   * Two records have the same protocol view exactly when they agree on name,
   * description, descriptor and the class's type name: the view forgets only
   * which class (by `getName`) carried that type name.
   */
  lemma SameViewIffSameVisibleFields(p: ParameterInfo, q: ParameterInfo)
    ensures p.ToMBeanParameterInfo() == q.ToMBeanParameterInfo() <==>
            p.name == q.name && p.description == q.description &&
            p.descriptor == q.descriptor && p.typ.typeName == q.typ.typeName
  {
  }
}
