/** The token events the lexer hands to the interpreter: one constructor per action
    tag of the rule table in vhdl_parser.py, except that the seven `*_type` tags share
    `TypeBody`, told apart by its `TypeClass`; each carries its rule's capture groups
    (a group that may not participate in the match is an Option). */
module Events {
  import opened Objects

  datatype Action =
    | Package(name: string)                              // package NAME is
    | Function(name: string)                             // function NAME ( / function NAME
    | Procedure(name: string)                            // procedure NAME (
    | Component(name: string)                            // component NAME is
    | Subtype(name: string, base: string)                // subtype NAME is BASE
    | Constant(name: string, base: string)               // constant NAME : BASE
    | TypeDecl(name: string)                             // type NAME is
    | TypeBody(typeOf: TypeClass)                        // the seven *_type tags
    | Metacomment(text: string)                          // --# text
    | Param(storage: Option<string>, name: string)       // [variable|signal|constant|file] NAME
    | ParamType(modeGroup: Option<string>, ptype: string)// [MODE ] TYPE, mode keeps its trailing blanks
    | ParamDefault(value: string)                        // := VALUE
    | EndSubprogram(returnType: Option<string>)          // ) [return TYPE] ;
    | GenericParam(name: string)
    | GenericParamType(ptype: string)
    | GenericParamDefault(value: string)
    | EndGeneric
    | PortParam(name: string)
    | PortParamType(mode: string, ptype: string)
    | PortArrayParamType(mode: string, ptype: string)   // MODE TYPE (  -- opens an array range
    | PortParamDefault(value: string)
    | EndPort
    | SectionMeta(title: string)                         // --# {{title}}
    | OpenParen
    | CloseParen
    | ArrayRangeEnd                                      // the ) closing an array range
    | EndComponent

  /** One event: `first` and `last` are the offsets of the first and the last
      character of the matched text (the lexer's `pos` pair). */
  datatype Event = Event(first: nat, last: nat, action: Action)
}
