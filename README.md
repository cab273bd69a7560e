# symbolator's VHDL declaration extractor, modelled in Dafny

This project models the core of symbolator's `vhdl_parser.py`, the part that turns VHDL
source text into declaration records:

- **The interpreter `parse_vhdl`.** It makes one pass over the events of the regular-expression
  lexer. Along the way it keeps transient builder state: the pending name and kind, the buffered
  metacomments (`--#` comments), the parameter items, the generic and port lists, the section
  markers and the metacomment target `last_item`. It appends a record
  (`VhdlPackage`, `VhdlType`, `VhdlSubtype`, `VhdlConstant`, `VhdlFunction`, `VhdlProcedure`,
  `VhdlComponent`) at each terminating event.
- **The array-type registry of `VhdlExtractor`.** `is_array`, `add_array_types`,
  `register_array_types` (which follows chains of subtypes down to their base), and
  `extract_components`.
- **The renderers.** `VhdlParameter.__str__`, `subprogram_prototype` and `subprogram_signature`.

Files:

- `objects.dfy` (module `Objects`): the records, as a closed family of values.
- `events.dfy` (module `Events`): the token events, one constructor per action tag of the
  rule table, except that the seven `*_type` tags share one constructor, `TypeBody`, told
  apart by its `TypeClass`; each carries the rule's capture groups.
- `interpreter.dfy` (module `Interpreter`):
  - `Step`, the meaning of one event, over a `Builder` record holding the interpreter's locals.
  - `RunFrom` and `Parse`, the fold over an event sequence.
  - `ParseVhdl`, the loop itself, with helper methods for the inner `for` loops, each proved
    against `Step`.
- `interpreter_facts.dfy` (module `InterpreterFacts`): what the interpreter guarantees:
  - the records a subprogram or component declaration produces, from its event sequence;
  - where metacomments go;
  - the port count and section markers;
  - that records are emitted once and never removed.
- `extractor.dfy` (module `Extractor`): the registry as a class with a mutable set, specified
  by the function `Registered`.
- `render.dfy` (module `Render`): the text forms, with decoding lemmas that recover the
  parts from the rendered strings.
- `strings.dfy` (module `Strings`): `str.strip`, `str.lower`, `str.join` and `str.split`, on
  `seq<char>`.

Python aliasing is modelled explicitly. `end_component` hands its `generics` and `ports` lists
to the emitted component without copying them, so until the next `component` event, later
declarations and metacomments also change that component. `Builder.shared` records those
components, and `Mirror` keeps them in step. `last_item` is a `Target`: an index into the
current lists, or into lists that only emitted components still hold.

Where the code and its documented intent differ, the model follows the code:

- In a subprogram declaration `a, b : T`, every `param` event commits the items pending so far
  before it starts a new one. So `a` is committed without a mode, type or default, and only `b`
  receives them (`InterpreterFacts.Declared`, proved in `ParamListCollectsInOrder`).
- Generic and port default values are recognised by the lexer but not recorded. The model
  ignores those tags (`InterpreterFacts.RunIgnored`).
- A section marker is keyed by the number of port names seen since `component`
  (`port_param_index`), not by a port position.
- `is_array` lower-cases only the query, never the registered names. A subtype `C` of a
  subtype `B` of `std_logic_vector` is registered, yet `is_array("C")` is false
  (`Extractor.UpperCaseSubtypeNeverMatches`).
- `subprogram_signature` cannot render `function f(a, b : T)`. Only `b` receives the type, so
  `a`'s type is None and `','.join` raises TypeError
  (`InterpreterFacts.SharedTypeLeavesEarlierNamesUntyped`; `Render.Signature` requires every
  parameter to have a type).

## Model

| member | source | states |
|---|---|---|
| Objects.Components | vhdl_parser.py:431 | the components are exactly the component records of the input, none added |
| Objects.ComponentsOfOne | vhdl_parser.py:431 | a single record is kept iff it is a component |
| Objects.ComponentsAppend | vhdl_parser.py:431 | filtering distributes over concatenation, so the components keep their order and their repetitions |
| Strings.TrimLeft | vhdl_parser.py:256 | the result is a suffix of the input, everything dropped is whitespace, and it does not start with whitespace |
| Strings.TrimRight | vhdl_parser.py:256 | the result is a prefix of the input, everything dropped is whitespace, and it does not end with whitespace |
| Strings.Strip | vhdl_parser.py:256 | `strip()` is no longer than its input, and neither starts nor ends with whitespace |
| Strings.StripIsTrimmedInfix | vhdl_parser.py:256 | `strip()` yields an infix that neither starts nor ends with whitespace, with only whitespace around it |
| Strings.StripIdempotent | vhdl_parser.py:256 | stripping twice is stripping once |
| Strings.StripModeGroup | vhdl_parser.py:255-256 | a mode group (keyword then blanks) strips to the keyword |
| Strings.Lower | vhdl_parser.py:437 | same length; each character is mapped by the ASCII lower-case mapping |
| Strings.Join | vhdl_parser.py:367 | `sep.join(xs)` is empty for no items and starts with the first item otherwise |
| Strings.Split | vhdl_parser.py:388 | the decoding inverse of the `','.join` at line 388: `s.split(c)` gives at least one field, and no field contains `c` |
| Strings.SplitJoin | vhdl_parser.py:388 | joining with a one-character separator that occurs in no field is undone by splitting |
| Strings.JoinSplit | vhdl_parser.py:388 | splitting at a character and joining with it gives back the string |
| Strings.SplitJoinTail | vhdl_parser.py:388-389 | a joined list with a comma-free tail after its last item splits back into the items, the tail staying on the last |
| Interpreter.Init | vhdl_parser.py:203-218 | the initial locals form a well-formed builder |
| Interpreter.Committed | vhdl_parser.py:243-244 | the pending parameters, in order, unchanged |
| Interpreter.WithType | vhdl_parser.py:255-261 | every pending parameter gets the mode and the type, and nothing else about it changes |
| Interpreter.WithDefault | vhdl_parser.py:265-266 | every pending parameter gets the default, and nothing else about it changes |
| Interpreter.Declare | vhdl_parser.py:298-299 | one new parameter per buffered name, in order, with the given mode and type and no default |
| Interpreter.SectionMap | vhdl_parser.py:329 | `dict(sections)`: the keys are exactly the recorded port counts, and each value is the title of the last marker at that key |
| Interpreter.Attach | vhdl_parser.py:223-227 | a metacomment keeps the builder well-formed: the target still indexes an existing parameter |
| Interpreter.FinishSubprogram | vhdl_parser.py:268-284 | emitting a subprogram keeps the builder well-formed |
| Interpreter.Emit | vhdl_parser.py:334-358 | emitting a package, type, subtype or constant keeps the builder well-formed |
| Interpreter.StartComponent | vhdl_parser.py:285-292 | a `component` event keeps the builder well-formed; the old lists stay reachable only through emitted components |
| Interpreter.DeclareGenerics | vhdl_parser.py:295-301 | declaring generics keeps the builder well-formed; the last generic (index `[-1]`) exists |
| Interpreter.DeclarePorts | vhdl_parser.py:306-313 | declaring ports keeps the builder well-formed; the last port (index `[-1]`) exists |
| Interpreter.CloseArrayRange | vhdl_parser.py:319-326 | closing an array range keeps the builder well-formed; the last port exists |
| Interpreter.FinishComponent | vhdl_parser.py:328-332 | emitting a component keeps the builder well-formed, the component now sharing the current lists |
| Interpreter.Step | vhdl_parser.py:222-358 | every event the source can handle keeps the builder well-formed |
| Interpreter.RunFrom | vhdl_parser.py:222-361 | a run of events keeps the builder well-formed |
| Interpreter.CanStep | vhdl_parser.py:222-326 | what an event needs of the locals for its branch not to raise (see "## Left out") |
| Interpreter.Parse | vhdl_parser.py:200-361 | the records `parse_vhdl` returns: the fold of `Step` from the initial locals (what it contains is stated by the lemmas of `InterpreterFacts`) |
| Interpreter.CommitItems | vhdl_parser.py:243-244 | the loop appends the pending parameters in order |
| Interpreter.BackfillType | vhdl_parser.py:258-261 | the in-place loop gives every pending parameter the mode and the type |
| Interpreter.BackfillDefault | vhdl_parser.py:265-266 | the in-place loop gives every pending parameter the default |
| Interpreter.DeclareItems | vhdl_parser.py:298-299 | the loop appends one parameter per buffered name, in order |
| Interpreter.HandleDeclaration | vhdl_parser.py:334-358 | the package, type, subtype, constant, metacomment and section branches do what `Step` says |
| Interpreter.HandleSubprogram | vhdl_parser.py:231-284 | the function and procedure branches do what `Step` says |
| Interpreter.HandleGenericType | vhdl_parser.py:295-301 | the `generic_param_type` branch does what `Step` says |
| Interpreter.HandlePortType | vhdl_parser.py:306-313 | the `port_param_type` branch does what `Step` says |
| Interpreter.HandleArrayRangeEnd | vhdl_parser.py:319-326 | the `array_range_end` branch does what `Step` says |
| Interpreter.HandleComponent | vhdl_parser.py:285-332 | the component branches and the ignored tags do what `Step` says |
| Interpreter.ParseVhdl | vhdl_parser.py:200-361 | the loop returns `Parse(text, events)`, the fold of `Step` from the initial locals |
| InterpreterFacts.RunAppend | vhdl_parser.py:222-361 | handling `a + b` is handling `b` from the state `a` leaves, and either can be handled iff both can |
| InterpreterFacts.RunSnoc | vhdl_parser.py:222-361 | handling one more event is one more `Step` |
| InterpreterFacts.PrefixRuns | vhdl_parser.py:222-361 | a stream the source can handle can be handled up to any prefix |
| InterpreterFacts.OffsetsOtherwiseIgnored | vhdl_parser.py:315-320 | the only positions read are the opening parenthesis of `port_array_param_type` and the closing one of `array_range_end` |
| InterpreterFacts.StepEmits | vhdl_parser.py:268-358 | one event appends one record if it is a terminating tag, and none otherwise |
| InterpreterFacts.OneRecordPerTerminatingEvent | vhdl_parser.py:268-358 | the record count grows by exactly the number of terminating events |
| InterpreterFacts.StepPortIndex | vhdl_parser.py:285-305 | `component` resets the port count, `port_param` adds one, and nothing else changes it |
| InterpreterFacts.PortIndexCountsPortNames | vhdl_parser.py:285-305 | `port_param_index` is the number of port names since the last `component` |
| InterpreterFacts.SectionsSinceComponent | vhdl_parser.py:228-229 | the `section_meta` markers since the last `component`, each keyed by the port names counted before it |
| InterpreterFacts.StepSections | vhdl_parser.py:228-229 | `component` clears the markers, `section_meta` appends one keyed by the current port count, nothing else touches them |
| InterpreterFacts.SectionsCountSectionEvents | vhdl_parser.py:228-229 | the `sections` local is exactly the markers since the last `component`, in order, with their keys |
| InterpreterFacts.FinishedSections | vhdl_parser.py:328-329 | `end_component` gives the component `dict(sections)`, whose keys are at most the port count |
| InterpreterFacts.SectionKeysWithinPortsSeen | vhdl_parser.py:228-229 | an emitted component's sections are `dict` of the markers since its `component` event: keys at most the port names seen, each value the title of the last marker at that key |
| InterpreterFacts.NamesRun | vhdl_parser.py:241-248 | a run of `param` events commits every name but the last untyped and leaves the last pending |
| InterpreterFacts.RunParamType | vhdl_parser.py:249-261 | `param_type` gives the pending parameters the stripped mode and the type, and binds the locals |
| InterpreterFacts.RunParamDefault | vhdl_parser.py:263-266 | `param_default` gives the pending parameters the default |
| InterpreterFacts.ParamHeadRuns | vhdl_parser.py:241-261 | the names and the type of a declaration: the earlier names are committed, the last is pending and typed |
| InterpreterFacts.ParamDeclRuns | vhdl_parser.py:241-266 | one declaration adds exactly its declared parameters to what is collected |
| InterpreterFacts.ParamListCollectsInOrder | vhdl_parser.py:241-266 | a parameter list collects every declared parameter in declaration order; only the last name of each declaration is typed |
| InterpreterFacts.SubprogramOpenRuns | vhdl_parser.py:231-266 | a subprogram's opening and parameters set its kind and name and collect its parameters, emitting nothing |
| InterpreterFacts.RunFinishSubprogram | vhdl_parser.py:268-284 | `end_subprogram` appends a function or procedure with the committed then pending parameters, the return type and the buffered metacomments, and resets the buffer, the parameter lists, the kind and the name, changing nothing else |
| InterpreterFacts.SharedTypeLeavesEarlierNamesUntyped | vhdl_parser.py:241-284 | `function f(a, b : T)` is emitted with `a` untyped and only `b` typed `T` |
| InterpreterFacts.SubprogramDeclaration | vhdl_parser.py:231-284 | a function or procedure declaration emits exactly one record with its parameters in order, its return type and the buffered metacomments, and clears the buffer, the parameters and the name |
| InterpreterFacts.DeclareNamed | vhdl_parser.py:298-299 | declaring buffered names gives each name the same mode and type |
| InterpreterFacts.GenericNamesRun | vhdl_parser.py:293-294 | `generic_param` events only buffer the names |
| InterpreterFacts.PortNamesRun | vhdl_parser.py:303-305 | `port_param` events buffer the names and count them |
| InterpreterFacts.ParensIgnored | vhdl_parser.py:228-358 | nested parenthesis events inside an array range change nothing |
| InterpreterFacts.RunIgnored | vhdl_parser.py:228-358 | the tags with no branch (defaults, list ends, parentheses) change nothing |
| InterpreterFacts.GenericDeclRuns | vhdl_parser.py:293-301 | one generic declaration appends its names with mode `in` and the type, and targets the last one |
| InterpreterFacts.GenericListRuns | vhdl_parser.py:293-301 | a generic list appends every declared generic in order and targets the last one; nothing else changes |
| InterpreterFacts.RunPortType | vhdl_parser.py:306-313 | `port_param_type` declares every buffered name as a port with the unstripped mode and the type |
| InterpreterFacts.ScalarPortRuns | vhdl_parser.py:303-313 | a scalar port declaration appends its ports, counts its names and targets the last port |
| InterpreterFacts.ArrayRangeStep | vhdl_parser.py:319-326 | `array_range_end` declares every buffered name with the saved type followed by the range text, parentheses included |
| InterpreterFacts.ArrayHeadRuns | vhdl_parser.py:303-317 | the names, `port_array_param_type` and nested parentheses only buffer, count and bind the locals |
| InterpreterFacts.ArrayPortRuns | vhdl_parser.py:303-326 | an array port declaration appends its ports with the range in the type, counts its names and targets the last port |
| InterpreterFacts.PortDeclRuns | vhdl_parser.py:303-326 | one port declaration of either kind appends exactly its ports |
| InterpreterFacts.PortListRuns | vhdl_parser.py:303-326 | a port list appends every declared port in order, counts every name and targets the last port |
| InterpreterFacts.RunStart | vhdl_parser.py:285-292 | `component` sets the kind and name, fresh empty lists and a zero port count; a target in the old lists is now held only by the components that shared them; buffer and records are kept |
| InterpreterFacts.RunFinish | vhdl_parser.py:328-332 | `end_component` appends the component with the current lists, `dict(sections)` and the buffered metacomments, clears the target and the buffer, records that it shares the lists, and changes nothing else |
| InterpreterFacts.GenericClauseRuns | vhdl_parser.py:78 | the `end_generic` that closes a generic clause changes nothing: the clause builds what its list builds |
| InterpreterFacts.PortClauseRuns | vhdl_parser.py:95 | the `end_port` that closes a port clause changes nothing: the clause builds what its list builds |
| InterpreterFacts.ComponentBodyRuns | vhdl_parser.py:293-326 | a generic clause then a port clause, each closed by its `end_generic` / `end_port`, builds exactly the declared generics and ports |
| InterpreterFacts.ComponentOpenRuns | vhdl_parser.py:285-326 | everything before `end_component`, the clauses' closing events included, builds the lists and sets the name, emitting nothing |
| InterpreterFacts.ComponentDeclaration | vhdl_parser.py:285-332 | a component declaration (its generic and port clauses closed by `end_generic` and `end_port`) emits one component with its generics and ports in order, no sections and the buffered metacomments; it clears the buffer and the target and shares its lists |
| InterpreterFacts.MetacommentGoesToBufferOrTarget | vhdl_parser.py:223-227 | with no target a metacomment is buffered; otherwise it becomes the description of the target parameter wherever that parameter is held, and the buffer, the target, the other list, the other entries and every record not holding the list stay unchanged |
| InterpreterFacts.OnlyEndComponentClearsTarget | vhdl_parser.py:328-331 | once set, the target is cleared by `end_component` and by no other event |
| InterpreterFacts.EmittedDescription | vhdl_parser.py:334-358 | a package gets no description and keeps the buffer; every other record gets the buffered metacomments and empties the buffer |
| InterpreterFacts.StepKeepsRecords | vhdl_parser.py:222-358 | one event never removes or rewrites an emitted record, except a shared component's lists |
| InterpreterFacts.RecordsStable | vhdl_parser.py:222-358 | emitted records other than components never change; components keep their name, sections and description |
| InterpreterFacts.MetacommentBeforeFunction | vhdl_parser.py:223-284 | from any state with no target, a metacomment just before a function declaration ends up, after the buffered ones, in that function's description; the buffer is then empty |
| Extractor.ArrayTypeNames | vhdl_parser.py:467-469 | a name is collected iff some record declares it as an array type |
| Extractor.SubtypeMap | vhdl_parser.py:471 | every named subtype is a key |
| Extractor.SubtypeMapLastWins | vhdl_parser.py:471 | every key comes from a subtype, and its base is that of the last subtype of that name |
| Extractor.Follow | vhdl_parser.py:475-476 | a chain that ends, ends at a name that is not a subtype |
| Extractor.ChainEnd | vhdl_parser.py:474-476 | the chain from a subtype's base ends at a name that is not a subtype |
| Extractor.FollowMoreFuel | vhdl_parser.py:475-476 | following a chain longer reaches the same end |
| Extractor.SubtypeOfSubtype | vhdl_parser.py:475-476 | a subtype whose base is a subtype ends where its base ends |
| Extractor.ChainedTo | vhdl_parser.py:474-478 | a subtype is selected iff its chain ends at a registered name |
| Extractor.ChainedToStep | vhdl_parser.py:474-478 | examining one more subtype adds it iff its chain ends at a registered name |
| Extractor.Registered | vhdl_parser.py:464-478 | the registry after registration: the known names, the array types, and the subtypes whose chain ends at one of them (characterised by `RegisteredContents`) |
| Extractor.RegisteredContents | vhdl_parser.py:464-478 | registration keeps every known name, adds every array type, adds a subtype iff its chain ends at a known name or an array type, and adds nothing else |
| Extractor.RegisterIdempotent | vhdl_parser.py:464-478 | registering the same declarations twice adds nothing |
| Extractor.IsArrayIn | vhdl_parser.py:435-437 | `is_array` over a given registry: the lower-cased query is registered |
| Extractor.IsArrayCaseFolded | vhdl_parser.py:435-437 | the test ignores the case of the query, and a registered name with an upper-case letter never matches |
| Extractor.UpperCaseSubtypeNeverMatches | vhdl_parser.py:435-478 | a subtype `C` of `B` of `std_logic_vector` is registered, yet `is_array("C")` is false |
| Extractor.VhdlExtractor.IsArray | vhdl_parser.py:435-437 | `is_array` on the extractor's registry, i.e. `IsArrayIn(arrayTypes, _)` |
| Extractor.FollowChain | vhdl_parser.py:475-476 | the inner loop ends at the end of the subtype's chain |
| Extractor.VhdlExtractor.constructor | vhdl_parser.py:401-405 | the registry starts as the five standard array types plus the given ones |
| Extractor.VhdlExtractor.AddArrayTypes | vhdl_parser.py:440-443 | the list under `arrays`, if present, is merged in, and nothing else changes |
| Extractor.VhdlExtractor.AddDeclaredArrays | vhdl_parser.py:467-469 | the first loop adds exactly the declared array types |
| Extractor.VhdlExtractor.AddIfArraySubtype | vhdl_parser.py:474-478 | one iteration adds the subtype iff its chain ends at a registered name |
| Extractor.VhdlExtractor.RegisterArrayTypes | vhdl_parser.py:464-478 | the registry becomes `Registered(old registry, objects)`, whatever order the subtypes are visited in |
| Extractor.VhdlExtractor.ExtractComponents | vhdl_parser.py:428-432 | returns the parsed components and registers the parsed declarations |
| Render.ParamString | vhdl_parser.py:126-133 | `str(p)`: `name : [mode ]type[ := default]` (decoded by `ParamStringSplits`) |
| Render.ParamStrings | vhdl_parser.py:367 | one text per parameter, in order |
| Render.ParamList | vhdl_parser.py:367 | `'; '.join(str(p) ...)`: empty for no parameters, otherwise opening with the first parameter's text (emptiness in both directions is `ParamListEmpty`, the decoding `PrototypeParameters`) |
| Render.DataTypes | vhdl_parser.py:388-391 | the parameters' types, in order |
| Render.ParamListEmpty | vhdl_parser.py:367 | the rendered list is empty iff there are no parameters |
| Render.ParamStringSplits | vhdl_parser.py:126-133 | splitting a parameter's text at its colons recovers the name, the mode and type, and the default; there is a third field iff there is a default |
| Render.SplitJoinSpaced | vhdl_parser.py:367 | splitting a `'; '`-joined list at the semicolons recovers the items |
| Render.Prototype | vhdl_parser.py:364-379 | `subprogram_prototype(vo)` (decoded by `PrototypeParameters`) |
| Render.PrototypeParameters | vhdl_parser.py:364-379 | a prototype has parentheses iff it is a procedure or has parameters, and they enclose the `'; '`-joined parameter texts |
| Render.Signature | vhdl_parser.py:381-394 | `subprogram_signature(vo, fullname)` (decoded by `SignatureDecodes`) |
| Render.SignatureName | vhdl_parser.py:384-385 | `fullname`, when given, replaces the record's name |
| Render.SignatureDecodes | vhdl_parser.py:381-394 | a signature is the name (`fullname` when given) up to the first `[`, then the parameters' types split at the commas, a function's return clause on the last, then `]` |
| Render.PrototypeAndSignatureAgree | vhdl_parser.py:364-394 | the prototype's parameter list and the signature's type list give back the same parameters, in order, field by field |

## Left out

- The lexer (the rule table `vhdl_tokens` and `VhdlLexer`, vhdl_parser.py:11-109) is not
  modelled, and `minilexer.py` is not part of this model. The interpreter takes its event
  sequence as input.
- Interpreter.Step: each event requires what the code needs of it (`CanStep`):
  - the lists indexed with `[-1]` are non-empty;
  - the items in `param_items` are of the kind the event reads (parameter objects for
    subprogram events, bare names for generics and ports), where the code would crash or mix
    the two;
  - the `mode`/`ptype` locals read by `array_range_end` are assigned, where the code raises
    NameError;
  - the array range's offsets are those of its parentheses and lie within the text, where
    Python's slice would clamp.
- Interpreter.ParseVhdl: the `kind` strings and `__repr__` of the records are not modelled.
  The local `kind` is an enumeration.
- File access is not modelled, because it is I/O: `parse_vhdl_file`, `extract_file_objects`,
  `extract_file_components`, `object_cache`, `load_array_types`, `save_array_types` and
  `register_files_array_types`.
- Extractor.VhdlExtractor.RegisterArrayTypes:
  - It requires the subtype chains to be acyclic. On a cycle the source loops forever.
  - An array type whose name is None (no preceding `type` event) is not added. The source
    adds None to the set, where no string query can match it.
- Extractor.VhdlExtractor.AddArrayTypes: `type_defs` is a map from strings to lists of
  strings. Other shapes of a literal-evaluated file are not modelled.
- Strings.Lower and Strings.Strip: ASCII only (Python 2 byte strings). Other characters are
  left unchanged.
- Render.Signature: it requires every parameter to have a type. The source's `','.join` raises
  TypeError on None.
- Render.Prototype: it requires a function or a procedure. Other records have no `parameters`.
- Render.PrototypeParameters: it is stated for a name with no `(` and a return type with no
  parentheses, where the first `(` and the last `)` are the list's own.
- Render.SignatureDecodes: it is stated for a name with no `[` and types and a return type
  with no comma, where the separators can be told apart from the fields.
- Render.PrototypeAndSignatureAgree: it is stated for fields free of the separators, and for at
  least one parameter. An empty list and a list of one empty type render alike.
