/** The action interpreter `parse_vhdl`: a single pass over the lexer's events that
    keeps transient builder state and appends finished declarations to `objects`.

    `Step` is the meaning of one event; `ParseVhdl` is the loop itself, over the
    same local variables as the source, proved to compute `Parse`. */
module Interpreter {
  import opened Objects
  import opened Events
  import opened Strings

  /** The value of the local `kind` when it is not None. */
  datatype DeclKind = FunctionKind | ProcedureKind | ComponentKind

  /** An entry of `param_items`: a VhdlParameter awaiting its type (subprograms) or a
      bare name awaiting its type (generics and ports). */
  datatype Item = Pending(param: VhdlParameter) | Named(name: string)

  datatype ListKind = Generics | Ports

  /** `last_item`, the parameter a metacomment is attached to. It is the element at
      `index` of the current generics or ports list, or of a list that a `component`
      event has since replaced, in which case `owners` are the emitted components
      still holding that list (none: the parameter is unreachable). */
  datatype Target =
    | NoTarget
    | Current(list: ListKind, index: nat)
    | Detached(owners: set<nat>, list: ListKind, index: nat)

  /** A Python local that may not have been assigned yet. */
  datatype Local<T> = Unbound | Bound(value: T)

  /** The locals of `parse_vhdl`. `shared` holds the indices of the emitted components
      whose generics and ports lists are still the interpreter's current lists
      (`end_component` hands over the lists without copying them). */
  datatype Builder = Builder(
    name: Option<string>,
    kind: Option<DeclKind>,
    savedType: Option<string>,
    metacomments: seq<string>,
    parameters: seq<VhdlParameter>,
    paramItems: seq<Item>,
    generics: seq<VhdlParameter>,
    ports: seq<VhdlParameter>,
    sections: seq<(nat, string)>,
    portParamIndex: nat,
    lastItem: Target,
    arrayStart: nat,
    mode: Local<Option<string>>,
    ptype: Local<string>,
    shared: set<nat>,
    objects: seq<VhdlObject>)

  /** The locals as `parse_vhdl` initialises them: nothing pending, nothing targeted,
      nothing emitted. */
  function Init(): (r: Builder)
    ensures Valid(r)
  {
    Builder(None, None, None, [], [], [], [], [], [], 0, NoTarget, 0, Unbound, Unbound, {}, [])
  }

  predicate AllPending(items: seq<Item>) {
    forall j :: 0 <= j < |items| ==> items[j].Pending?
  }

  predicate AllNamed(items: seq<Item>) {
    forall j :: 0 <= j < |items| ==> items[j].Named?
  }

  function ListOf(o: VhdlObject, l: ListKind): seq<VhdlParameter>
    requires o.VhdlComponent?
  {
    if l == Generics then o.generics else o.ports
  }

  function CurrentList(s: Builder, l: ListKind): seq<VhdlParameter> {
    if l == Generics then s.generics else s.ports
  }

  /** Well-formedness of the builder: the aliases it records point at existing
      parameters, and every section marker's port index is at most the running count. */
  ghost predicate Valid(s: Builder) {
    && (forall k :: k in s.shared ==>
          k < |s.objects| && s.objects[k].VhdlComponent?
          && s.objects[k].generics == s.generics && s.objects[k].ports == s.ports)
    && (s.lastItem.Current? ==> s.lastItem.index < |CurrentList(s, s.lastItem.list)|)
    && (s.lastItem.Detached? ==>
          && s.lastItem.owners !! s.shared
          && forall k :: k in s.lastItem.owners ==>
               k < |s.objects| && s.objects[k].VhdlComponent?
               && s.lastItem.index < |ListOf(s.objects[k], s.lastItem.list)|)
    && (forall j :: 0 <= j < |s.sections| ==> s.sections[j].0 <= s.portParamIndex)
  }

  /** The pending subprogram parameters, in order (`for i in param_items: parameters.append(i)`). */
  function Committed(items: seq<Item>): (r: seq<VhdlParameter>)
    requires AllPending(items)
    ensures |r| == |items|
    ensures forall j :: 0 <= j < |items| ==> r[j] == items[j].param
  {
    if items == [] then [] else [items[0].param] + Committed(items[1..])
  }

  /** Every pending parameter with `mode` and `data_type` set, nothing else changed. */
  function WithType(items: seq<Item>, mode: Option<string>, t: string): (r: seq<Item>)
    requires AllPending(items)
    ensures |r| == |items| && AllPending(r)
    ensures forall j :: 0 <= j < |items| ==>
      r[j].param == items[j].param.(mode := mode, dataType := Some(t))
  {
    if items == [] then []
    else [Pending(items[0].param.(mode := mode, dataType := Some(t)))] + WithType(items[1..], mode, t)
  }

  /** Every pending parameter with `default_value` set, nothing else changed. */
  function WithDefault(items: seq<Item>, v: string): (r: seq<Item>)
    requires AllPending(items)
    ensures |r| == |items| && AllPending(r)
    ensures forall j :: 0 <= j < |items| ==> r[j].param == items[j].param.(defaultValue := Some(v))
  {
    if items == [] then []
    else [Pending(items[0].param.(defaultValue := Some(v)))] + WithDefault(items[1..], v)
  }

  /** One new parameter per buffered name, in order, all with the same mode and type. */
  function Declare(items: seq<Item>, mode: Option<string>, t: string): (r: seq<VhdlParameter>)
    requires AllNamed(items)
    ensures |r| == |items|
    ensures forall j :: 0 <= j < |items| ==> r[j] == VhdlParameter(items[j].name, mode, Some(t), None, None)
  {
    if items == [] then [] else [VhdlParameter(items[0].name, mode, Some(t), None, None)] + Declare(items[1..], mode, t)
  }

  /** `dict(sections)`: a later marker at the same port index replaces an earlier one. */
  function SectionMap(ps: seq<(nat, string)>): (r: map<nat, string>)
    ensures forall k :: k in r <==> exists j :: 0 <= j < |ps| && ps[j].0 == k
    ensures forall k :: k in r ==>
      exists j :: 0 <= j < |ps| && ps[j] == (k, r[k]) && forall j' :: j < j' < |ps| ==> ps[j'].0 != k
  {
    if ps == [] then map[]
    else
      var r := SectionMap(ps[..|ps| - 1]);
      assert forall j :: 0 <= j < |ps| - 1 ==> ps[..|ps| - 1][j] == ps[j];
      r[ps[|ps| - 1].0 := ps[|ps| - 1].1]
  }

  /** The emitted components that share the current lists see their new contents. */
  function Mirror(objects: seq<VhdlObject>, owners: set<nat>, generics: seq<VhdlParameter>,
                  ports: seq<VhdlParameter>): (r: seq<VhdlObject>)
    ensures |r| == |objects|
    ensures forall k :: 0 <= k < |objects| ==>
      r[k] == if k in owners && objects[k].VhdlComponent? then objects[k].(generics := generics, ports := ports)
              else objects[k]
  {
    seq(|objects|, k requires 0 <= k < |objects| =>
      if k in owners && objects[k].VhdlComponent? then objects[k].(generics := generics, ports := ports)
      else objects[k])
  }

  function Mirrored(s: Builder): Builder {
    s.(objects := Mirror(s.objects, s.shared, s.generics, s.ports))
  }

  function SetDesc(ps: seq<VhdlParameter>, i: nat, c: string): (r: seq<VhdlParameter>)
    requires i < |ps|
  {
    ps[i := ps[i].(desc := Some(c))]
  }

  /** `last_item.desc = c` for a parameter held only by emitted components. */
  function DescInObjects(objects: seq<VhdlObject>, owners: set<nat>, l: ListKind, i: nat, c: string)
    : (r: seq<VhdlObject>)
    requires forall k :: k in owners ==> k < |objects| && objects[k].VhdlComponent? && i < |ListOf(objects[k], l)|
    ensures |r| == |objects|
  {
    seq(|objects|, k requires 0 <= k < |objects| =>
      if k in owners then SetDescIn(objects[k], l, i, c) else objects[k])
  }

  function SetDescIn(o: VhdlObject, l: ListKind, i: nat, c: string): (r: VhdlObject)
    requires o.VhdlComponent? && i < |ListOf(o, l)|
    ensures r.VhdlComponent? && |ListOf(r, l)| == |ListOf(o, l)|
  {
    if l == Generics then o.(generics := SetDesc(o.generics, i, c)) else o.(ports := SetDesc(o.ports, i, c))
  }

  /** A `component` event replaces the lists `last_item` may point into. */
  function Detach(t: Target, shared: set<nat>): Target {
    if t.Current? then Detached(shared, t.list, t.index) else t
  }

  /** What the source needs of the state for the event to be handled: the lists
      indexed with [-1] are non-empty, the buffered items are of the kind the event
      reads, the locals it reads are assigned, and the positions of an array range
      are those of its opening and closing parentheses. */
  predicate CanStep(text: string, s: Builder, e: Event) {
    match e.action
    case Param(_, _) => AllPending(s.paramItems)
    case ParamType(_, _) => AllPending(s.paramItems)
    case ParamDefault(_) => AllPending(s.paramItems)
    case EndSubprogram(_) => AllPending(s.paramItems)
    case GenericParamType(_) => AllNamed(s.paramItems) && |s.generics| + |s.paramItems| > 0
    case PortParamType(_, _) => AllNamed(s.paramItems) && |s.ports| + |s.paramItems| > 0
    case PortArrayParamType(_, _) => e.last < |text| && text[e.last] == '('
    case ArrayRangeEnd =>
      && AllNamed(s.paramItems) && |s.ports| + |s.paramItems| > 0
      && (s.paramItems != [] ==> s.mode.Bound? && s.ptype.Bound?)
      && s.arrayStart < e.first < |text| && text[s.arrayStart] == '(' && text[e.first] == ')'
    case _ => true
  }

  /** A metacomment: buffered when there is no target, else the target's description. */
  function Attach(s: Builder, c: string): (r: Builder)
    requires Valid(s)
    ensures Valid(r)
  {
    match s.lastItem
    case NoTarget => s.(metacomments := s.metacomments + [c])
    case Current(l, i) =>
      if l == Generics then Mirrored(s.(generics := SetDesc(s.generics, i, c)))
      else Mirrored(s.(ports := SetDesc(s.ports, i, c)))
    case Detached(owners, l, i) => s.(objects := DescInObjects(s.objects, owners, l, i, c))
  }

  /** `end_subprogram`: emit the function or procedure with every collected parameter and
      the buffered metacomments. */
  function FinishSubprogram(s: Builder, rt: Option<string>): (r: Builder)
    requires Valid(s) && AllPending(s.paramItems)
    ensures Valid(r)
  {
    var params := s.parameters + Committed(s.paramItems);
    var obj := if s.kind == Some(FunctionKind) then VhdlFunction(s.name, params, rt, Some(s.metacomments))
               else VhdlProcedure(s.name, params, Some(s.metacomments));
    s.(objects := s.objects + [obj], metacomments := [], parameters := [], paramItems := [],
       kind := None, name := None)
  }

  /** A declaration emitted at once (package, type, subtype, constant), with `kind` and
      `name` reset and the metacomment buffer left as `metacomments`. */
  function Emit(s: Builder, obj: VhdlObject, metacomments: seq<string>): (r: Builder)
    requires Valid(s)
    ensures Valid(r)
  {
    s.(objects := s.objects + [obj], kind := None, name := None, metacomments := metacomments)
  }

  /** `component`: fresh generics, ports and sections lists; the emitted components
      keep the old ones, and with them the metacomment target. */
  function StartComponent(s: Builder, n: string): (r: Builder)
    requires Valid(s)
    ensures Valid(r)
  {
    s.(kind := Some(ComponentKind), name := Some(n), generics := [], ports := [], paramItems := [],
       sections := [], portParamIndex := 0, lastItem := Detach(s.lastItem, s.shared), shared := {})
  }

  /** `generic_param_type`: every buffered name becomes a generic of mode `in`, and the
      last generic becomes the metacomment target. */
  function DeclareGenerics(s: Builder, t: string): (r: Builder)
    requires Valid(s) && AllNamed(s.paramItems) && |s.generics| + |s.paramItems| > 0
    ensures Valid(r)
  {
    var generics := s.generics + Declare(s.paramItems, Some("in"), t);
    Mirrored(s.(ptype := Bound(t), generics := generics, paramItems := [],
                lastItem := Current(Generics, |generics| - 1)))
  }

  /** `port_param_type`: every buffered name becomes a port with the mode and the type,
      and the last port becomes the metacomment target. */
  function DeclarePorts(s: Builder, m: string, t: string): (r: Builder)
    requires Valid(s) && AllNamed(s.paramItems) && |s.ports| + |s.paramItems| > 0
    ensures Valid(r)
  {
    var ports := s.ports + Declare(s.paramItems, Some(m), t);
    Mirrored(s.(mode := Bound(Some(m)), ptype := Bound(t), ports := ports, paramItems := [],
                lastItem := Current(Ports, |ports| - 1)))
  }

  /** `array_range_end` at offset `close`: every buffered name becomes a port whose type
      is the saved type followed by the range text, parentheses included. */
  function CloseArrayRange(text: string, s: Builder, close: nat): (r: Builder)
    requires Valid(s) && AllNamed(s.paramItems) && |s.ports| + |s.paramItems| > 0
    requires s.paramItems != [] ==> s.mode.Bound? && s.ptype.Bound?
    requires s.arrayStart < close < |text|
    ensures Valid(r)
  {
    var arange := text[s.arrayStart..close + 1];
    var ports := if s.paramItems == [] then s.ports
                 else s.ports + Declare(s.paramItems, s.mode.value, s.ptype.value + arange);
    Mirrored(s.(ports := ports, paramItems := [], lastItem := Current(Ports, |ports| - 1)))
  }

  /** `end_component`: emit the component with the current lists (which it now shares)
      and the buffered metacomments. */
  function FinishComponent(s: Builder): (r: Builder)
    requires Valid(s)
    ensures Valid(r)
  {
    var obj := VhdlComponent(s.name, s.generics, s.ports, SectionMap(s.sections), Some(s.metacomments));
    s.(objects := s.objects + [obj], lastItem := NoTarget, metacomments := [], shared := s.shared + {|s.objects|})
  }

  /** The effect of one event on the builder (one iteration of the loop in `parse_vhdl`). */
  function Step(text: string, s: Builder, e: Event): (r: Builder)
    requires Valid(s) && CanStep(text, s, e)
    ensures Valid(r)
  {
    match e.action
    case Metacomment(c) => Attach(s, c)
    case SectionMeta(title) => s.(sections := s.sections + [(s.portParamIndex, title)])
    case Function(n) => s.(kind := Some(FunctionKind), name := Some(n), paramItems := [], parameters := [])
    case Procedure(n) => s.(kind := Some(ProcedureKind), name := Some(n), paramItems := [], parameters := [])
    case Param(_, n) =>
      s.(parameters := s.parameters + Committed(s.paramItems),
         paramItems := [Pending(VhdlParameter(n, None, None, None, None))])
    case ParamType(m, t) =>
      var mode := if m.Some? then Some(Strip(m.value)) else None;
      s.(mode := Bound(mode), ptype := Bound(t), paramItems := WithType(s.paramItems, mode, t))
    case ParamDefault(v) => s.(paramItems := WithDefault(s.paramItems, v))
    case EndSubprogram(rt) => FinishSubprogram(s, rt)
    case Component(n) => StartComponent(s, n)
    case GenericParam(n) => s.(paramItems := s.paramItems + [Named(n)])
    case GenericParamType(t) => DeclareGenerics(s, t)
    case PortParam(n) => s.(paramItems := s.paramItems + [Named(n)], portParamIndex := s.portParamIndex + 1)
    case PortParamType(m, t) => DeclarePorts(s, m, t)
    case PortArrayParamType(m, t) => s.(mode := Bound(Some(m)), ptype := Bound(t), arrayStart := e.last)
    case ArrayRangeEnd => CloseArrayRange(text, s, e.first)
    case EndComponent => FinishComponent(s)
    case Package(n) => Emit(s, VhdlPackage(Some(n), None), s.metacomments)
    case TypeDecl(n) => s.(savedType := Some(n))
    case TypeBody(c) => Emit(s, VhdlType(s.savedType, c, Some(s.metacomments)), [])
    case Subtype(n, b) => Emit(s, VhdlSubtype(Some(n), b, Some(s.metacomments)), [])
    case Constant(n, b) => Emit(s, VhdlConstant(Some(n), b, Some(s.metacomments)), [])
    case GenericParamDefault(_) => s
    case PortParamDefault(_) => s
    case EndGeneric => s
    case EndPort => s
    case OpenParen => s
    case CloseParen => s
  }

  /** Every event of `evs`, in turn, meets what the source needs of it. */
  ghost predicate CanRun(text: string, s: Builder, evs: seq<Event>)
    requires Valid(s)
    decreases |evs|
  {
    |evs| == 0 || (CanStep(text, s, evs[0]) && CanRun(text, Step(text, s, evs[0]), evs[1..]))
  }

  function RunFrom(text: string, s: Builder, evs: seq<Event>): (r: Builder)
    requires Valid(s) && CanRun(text, s, evs)
    ensures Valid(r)
    decreases |evs|
  {
    if |evs| == 0 then s else RunFrom(text, Step(text, s, evs[0]), evs[1..])
  }

  ghost predicate Parses(text: string, evs: seq<Event>) {
    Valid(Init()) && CanRun(text, Init(), evs)
  }

  /** The declarations `parse_vhdl` returns for the events the lexer produced from `text`. */
  function Parse(text: string, evs: seq<Event>): seq<VhdlObject>
    requires Parses(text, evs)
  {
    RunFrom(text, Init(), evs).objects
  }

  /** `for i in param_items: parameters.append(i)`. */
  method CommitItems(parameters: seq<VhdlParameter>, items: seq<Item>) returns (r: seq<VhdlParameter>)
    requires AllPending(items)
    ensures r == parameters + Committed(items)
  {
    r := parameters;
    for j := 0 to |items|
      invariant |r| == |parameters| + j && r[..|parameters|] == parameters
      invariant forall k :: 0 <= k < j ==> r[|parameters| + k] == items[k].param
    {
      r := r + [items[j].param];
    }
  }

  /** `for i in param_items: i.mode = mode; i.data_type = ptype`, each item updated in place. */
  method BackfillType(items: seq<Item>, mode: Option<string>, t: string) returns (r: seq<Item>)
    requires AllPending(items)
    ensures r == WithType(items, mode, t)
  {
    r := items;
    for j := 0 to |r|
      invariant |r| == |items|
      invariant forall k :: 0 <= k < j ==> r[k] == Pending(items[k].param.(mode := mode, dataType := Some(t)))
      invariant forall k :: j <= k < |r| ==> r[k] == items[k]
    {
      r := r[j := Pending(r[j].param.(mode := mode, dataType := Some(t)))];
    }
  }

  /** `for i in param_items: i.default_value = v`, each item updated in place. */
  method BackfillDefault(items: seq<Item>, v: string) returns (r: seq<Item>)
    requires AllPending(items)
    ensures r == WithDefault(items, v)
  {
    r := items;
    for j := 0 to |r|
      invariant |r| == |items|
      invariant forall k :: 0 <= k < j ==> r[k] == Pending(items[k].param.(defaultValue := Some(v)))
      invariant forall k :: j <= k < |r| ==> r[k] == items[k]
    {
      r := r[j := Pending(r[j].param.(defaultValue := Some(v)))];
    }
  }

  /** `for i in param_items: lst.append(VhdlParameter(i, mode, ptype))`. */
  method DeclareItems(lst: seq<VhdlParameter>, items: seq<Item>, mode: Option<string>, t: string)
    returns (r: seq<VhdlParameter>)
    requires AllNamed(items)
    ensures r == lst + Declare(items, mode, t)
  {
    r := lst;
    for j := 0 to |items|
      invariant |r| == |lst| + j && r[..|lst|] == lst
      invariant forall k :: 0 <= k < j ==> r[|lst| + k] == VhdlParameter(items[k].name, mode, Some(t), None, None)
    {
      r := r + [VhdlParameter(items[j].name, mode, Some(t), None, None)];
    }
  }

  predicate IsDeclarationEvent(a: Action) {
    a.Package? || a.TypeDecl? || a.TypeBody? || a.Subtype? || a.Constant? || a.Metacomment? || a.SectionMeta?
  }

  predicate IsSubprogramEvent(a: Action) {
    a.Function? || a.Procedure? || a.Param? || a.ParamType? || a.ParamDefault? || a.EndSubprogram?
  }

  /** Top-level declarations and comments: the branches that emit a record at once
      or only touch the metacomment buffer and the section list. */
  method HandleDeclaration(text: string, st: Builder, e: Event) returns (r: Builder)
    requires Valid(st) && CanStep(text, st, e) && IsDeclarationEvent(e.action)
    ensures r == Step(text, st, e)
  {
    match e.action {
      case Metacomment(c) =>
        match st.lastItem {
          case NoTarget => r := st.(metacomments := st.metacomments + [c]);
          case Current(l, j) =>
            if l == Generics {
              r := st.(generics := SetDesc(st.generics, j, c));
            } else {
              r := st.(ports := SetDesc(st.ports, j, c));
            }
            r := r.(objects := Mirror(r.objects, r.shared, r.generics, r.ports));
          case Detached(owners, l, j) => r := st.(objects := DescInObjects(st.objects, owners, l, j, c));
        }
      case SectionMeta(title) =>
        r := st.(sections := st.sections + [(st.portParamIndex, title)]);
      case Package(n) =>
        r := st.(objects := st.objects + [VhdlPackage(Some(n), None)], kind := None, name := None);
      case TypeDecl(n) =>
        r := st.(savedType := Some(n));
      case TypeBody(c) =>
        var vobj := VhdlType(st.savedType, c, Some(st.metacomments));
        r := st.(objects := st.objects + [vobj], kind := None, name := None, metacomments := []);
      case Subtype(n, b) =>
        var vobj := VhdlSubtype(Some(n), b, Some(st.metacomments));
        r := st.(objects := st.objects + [vobj], kind := None, name := None, metacomments := []);
      case Constant(n, b) =>
        var vobj := VhdlConstant(Some(n), b, Some(st.metacomments));
        r := st.(objects := st.objects + [vobj], kind := None, name := None, metacomments := []);
    }
  }

  /** The branches that build a function or procedure. */
  method HandleSubprogram(text: string, st: Builder, e: Event) returns (r: Builder)
    requires Valid(st) && CanStep(text, st, e) && IsSubprogramEvent(e.action)
    ensures r == Step(text, st, e)
  {
    match e.action {
      case Function(n) =>
        r := st.(kind := Some(FunctionKind), name := Some(n), paramItems := [], parameters := []);
      case Procedure(n) =>
        r := st.(kind := Some(ProcedureKind), name := Some(n), paramItems := [], parameters := []);
      case Param(_, n) =>
        var parameters := CommitItems(st.parameters, st.paramItems);
        r := st.(parameters := parameters, paramItems := [Pending(VhdlParameter(n, None, None, None, None))]);
      case ParamType(m, t) =>
        var mode := if m.Some? then Some(Strip(m.value)) else None;
        var items := BackfillType(st.paramItems, mode, t);
        r := st.(mode := Bound(mode), ptype := Bound(t), paramItems := items);
      case ParamDefault(v) =>
        var items := BackfillDefault(st.paramItems, v);
        r := st.(paramItems := items);
      case EndSubprogram(rt) =>
        var parameters := CommitItems(st.parameters, st.paramItems);
        var vobj;
        if st.kind == Some(FunctionKind) {
          vobj := VhdlFunction(st.name, parameters, rt, Some(st.metacomments));
        } else {
          vobj := VhdlProcedure(st.name, parameters, Some(st.metacomments));
        }
        r := st.(objects := st.objects + [vobj], metacomments := [], parameters := [], paramItems := [],
                 kind := None, name := None);
    }
  }

  method HandleGenericType(st: Builder, t: string) returns (r: Builder)
    requires Valid(st) && AllNamed(st.paramItems) && |st.generics| + |st.paramItems| > 0
    ensures r == DeclareGenerics(st, t)
  {
    var generics := DeclareItems(st.generics, st.paramItems, Some("in"), t);
    r := st.(ptype := Bound(t), generics := generics, paramItems := [],
             lastItem := Current(Generics, |generics| - 1));
    r := r.(objects := Mirror(r.objects, r.shared, r.generics, r.ports));
  }

  method HandlePortType(st: Builder, m: string, t: string) returns (r: Builder)
    requires Valid(st) && AllNamed(st.paramItems) && |st.ports| + |st.paramItems| > 0
    ensures r == DeclarePorts(st, m, t)
  {
    var ports := DeclareItems(st.ports, st.paramItems, Some(m), t);
    r := st.(mode := Bound(Some(m)), ptype := Bound(t), ports := ports, paramItems := [],
             lastItem := Current(Ports, |ports| - 1));
    r := r.(objects := Mirror(r.objects, r.shared, r.generics, r.ports));
  }

  method HandleArrayRangeEnd(text: string, st: Builder, close: nat) returns (r: Builder)
    requires Valid(st) && AllNamed(st.paramItems) && |st.ports| + |st.paramItems| > 0
    requires st.paramItems != [] ==> st.mode.Bound? && st.ptype.Bound?
    requires st.arrayStart < close < |text|
    ensures r == CloseArrayRange(text, st, close)
  {
    var arange := text[st.arrayStart..close + 1];
    var ports := st.ports;
    if st.paramItems != [] {
      ports := DeclareItems(ports, st.paramItems, st.mode.value, st.ptype.value + arange);
    }
    r := st.(ports := ports, paramItems := [], lastItem := Current(Ports, |ports| - 1));
    r := r.(objects := Mirror(r.objects, r.shared, r.generics, r.ports));
  }

  /** The branches that build a component, and the tags the interpreter ignores. */
  method HandleComponent(text: string, st: Builder, e: Event) returns (r: Builder)
    requires Valid(st) && CanStep(text, st, e)
    requires !IsDeclarationEvent(e.action) && !IsSubprogramEvent(e.action)
    ensures r == Step(text, st, e)
  {
    match e.action {
      case Component(n) =>
        r := st.(kind := Some(ComponentKind), name := Some(n), generics := [], ports := [], paramItems := [],
                 sections := [], portParamIndex := 0, lastItem := Detach(st.lastItem, st.shared), shared := {});
      case GenericParam(n) =>
        r := st.(paramItems := st.paramItems + [Named(n)]);
      case GenericParamType(t) => r := HandleGenericType(st, t);
      case PortParam(n) =>
        r := st.(paramItems := st.paramItems + [Named(n)], portParamIndex := st.portParamIndex + 1);
      case PortParamType(m, t) => r := HandlePortType(st, m, t);
      case PortArrayParamType(m, t) =>
        r := st.(mode := Bound(Some(m)), ptype := Bound(t), arrayStart := e.last);
      case ArrayRangeEnd => r := HandleArrayRangeEnd(text, st, e.first);
      case EndComponent =>
        var vobj := VhdlComponent(st.name, st.generics, st.ports, SectionMap(st.sections), Some(st.metacomments));
        r := st.(objects := st.objects + [vobj], lastItem := NoTarget, metacomments := [],
                 shared := st.shared + {|st.objects|});
      case GenericParamDefault(_) => r := st;
      case PortParamDefault(_) => r := st;
      case EndGeneric => r := st;
      case EndPort => r := st;
      case OpenParen => r := st;
      case CloseParen => r := st;
    }
  }

  /** `parse_vhdl(text)`, given the events the lexer produces from `text`. The
      record `st` holds the source's local variables. */
  method ParseVhdl(text: string, events: seq<Event>) returns (objects: seq<VhdlObject>)
    requires Parses(text, events)
    ensures objects == Parse(text, events)
  {
    var st := Init();
    for i := 0 to |events|
      invariant Valid(st) && CanRun(text, st, events[i..])
      invariant RunFrom(text, st, events[i..]) == RunFrom(text, Init(), events)
    {
      var e := events[i];
      assert events[i..][0] == e && events[i..][1..] == events[i + 1..];
      if IsDeclarationEvent(e.action) {
        st := HandleDeclaration(text, st, e);
      } else if IsSubprogramEvent(e.action) {
        st := HandleSubprogram(text, st, e);
      } else {
        st := HandleComponent(text, st, e);
      }
    }
    objects := st.objects;
  }
}
