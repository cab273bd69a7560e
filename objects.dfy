/** The declaration records the parser emits (VhdlObject and its subclasses,
    VhdlParameter), as a closed family of values. */
module Objects {

  /** Python's `None` or a value. */
  datatype Option<+T> = None | Some(value: T)

  /** A subprogram, generic or port parameter. `mode` is absent for a subprogram
      parameter written without one; `dataType` is absent until a type back-fills it. */
  datatype VhdlParameter = VhdlParameter(
    name: string,
    mode: Option<string>,
    dataType: Option<string>,
    defaultValue: Option<string>,
    desc: Option<string>)

  /** The classification a `type NAME is` declaration receives from the token that
      follows it: the rule-table tags array_type, file_type, access_type,
      record_type, range_type, enum_type and incomplete_type. */
  datatype TypeClass = ArrayType | FileType | AccessType | RecordType | RangeType | EnumType | IncompleteType

  /** A declaration. `name` is Python's `str or None`: the interpreter's pending
      name may still be unset when a record is built. `desc` is the list of buffered
      metacomments the record was given, or None for a package. */
  datatype VhdlObject =
    | VhdlPackage(name: Option<string>, desc: Option<seq<string>>)
    | VhdlType(name: Option<string>, typeOf: TypeClass, desc: Option<seq<string>>)
    | VhdlSubtype(name: Option<string>, baseType: string, desc: Option<seq<string>>)
    | VhdlConstant(name: Option<string>, baseType: string, desc: Option<seq<string>>)
    | VhdlFunction(name: Option<string>, parameters: seq<VhdlParameter>, returnType: Option<string>,
                   desc: Option<seq<string>>)
    | VhdlProcedure(name: Option<string>, parameters: seq<VhdlParameter>, desc: Option<seq<string>>)
    | VhdlComponent(name: Option<string>, generics: seq<VhdlParameter>, ports: seq<VhdlParameter>,
                    sections: map<nat, string>, desc: Option<seq<string>>)

  /** `[o for o in objects if isinstance(o, VhdlComponent)]`. */
  function Components(objects: seq<VhdlObject>): (r: seq<VhdlObject>)
    ensures forall o :: o in r <==> o in objects && o.VhdlComponent?
    ensures |r| <= |objects|
  {
    if objects == [] then []
    else (if objects[0].VhdlComponent? then [objects[0]] else []) + Components(objects[1..])
  }

  /** The filter keeps a single record exactly when it is a component. */
  lemma ComponentsOfOne(o: VhdlObject)
    ensures Components([o]) == if o.VhdlComponent? then [o] else []
  {
    assert [o][1..] == [];
  }

  /** The filter distributes over concatenation: the components keep their order and their
      repetitions. */
  lemma {:induction false} ComponentsAppend(a: seq<VhdlObject>, b: seq<VhdlObject>)
    ensures Components(a + b) == Components(a) + Components(b)
    decreases |a|
  {
    if a == [] {
      assert a + b == b;
    } else {
      assert (a + b)[0] == a[0] && (a + b)[1..] == a[1..] + b;
      ComponentsAppend(a[1..], b);
    }
  }
}
