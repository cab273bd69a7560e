/** What `parse_vhdl` guarantees, proved about `Step` and `RunFrom`. */
module InterpreterFacts {
  import opened Objects
  import opened Events
  import opened Strings
  import opened Interpreter

  /** Running two event sequences one after the other is running their concatenation. */
  lemma {:induction false} RunAppend(text: string, s: Builder, a: seq<Event>, b: seq<Event>)
    requires Valid(s) && CanRun(text, s, a)
    ensures CanRun(text, s, a + b) <==> CanRun(text, RunFrom(text, s, a), b)
    ensures CanRun(text, s, a + b) ==> RunFrom(text, s, a + b) == RunFrom(text, RunFrom(text, s, a), b)
    decreases |a|
  {
    if |a| == 0 {
      assert a + b == b;
    } else {
      assert (a + b)[0] == a[0] && (a + b)[1..] == a[1..] + b;
      RunAppend(text, Step(text, s, a[0]), a[1..], b);
    }
  }

  /** Regrouping a concatenation; stated once so that the list proofs need not prove it
      in their own, larger contexts. */
  lemma AppendAssoc<T>(a: seq<T>, b: seq<T>, c: seq<T>)
    ensures (a + b) + c == a + (b + c)
  {
  }

  /** Running one more event. */
  lemma RunSnoc(text: string, s: Builder, a: seq<Event>, e: Event)
    requires Valid(s) && CanRun(text, s, a)
    ensures CanRun(text, s, a + [e]) <==> CanStep(text, RunFrom(text, s, a), e)
    ensures CanRun(text, s, a + [e]) ==> RunFrom(text, s, a + [e]) == Step(text, RunFrom(text, s, a), e)
  {
    RunAppend(text, s, a, [e]);
    var m := RunFrom(text, s, a);
    assert [e][1..] == [];
    assert CanRun(text, m, [e]) <==> CanStep(text, m, e);
  }

  /** The only offsets the interpreter reads: that of the opening parenthesis of an
      array range and that of its closing parenthesis. */
  function Offset(e: Event): nat {
    match e.action
    case PortArrayParamType(_, _) => e.last
    case ArrayRangeEnd => e.first
    case _ => 0
  }

  predicate SameUpToOffsets(a: seq<Event>, b: seq<Event>) {
    |a| == |b| && forall j :: 0 <= j < |a| ==> a[j].action == b[j].action && Offset(a[j]) == Offset(b[j])
  }

  /** Two event streams with the same tags and groups and the same parenthesis offsets
      produce the same result: no other offset is read. */
  lemma {:induction false} OffsetsOtherwiseIgnored(text: string, s: Builder, a: seq<Event>, b: seq<Event>)
    requires Valid(s) && SameUpToOffsets(a, b)
    ensures CanRun(text, s, a) <==> CanRun(text, s, b)
    ensures CanRun(text, s, a) ==> RunFrom(text, s, a) == RunFrom(text, s, b)
    decreases |a|
  {
    if |a| > 0 {
      assert a[0].action == b[0].action && Offset(a[0]) == Offset(b[0]);
      assert CanStep(text, s, a[0]) <==> CanStep(text, s, b[0]);
      if CanStep(text, s, a[0]) {
        assert Step(text, s, a[0]) == Step(text, s, b[0]);
        assert SameUpToOffsets(a[1..], b[1..]) by {
          forall j | 0 <= j < |a| - 1 ensures a[1..][j] == a[j + 1] && b[1..][j] == b[j + 1] { }
        }
        OffsetsOtherwiseIgnored(text, Step(text, s, a[0]), a[1..], b[1..]);
      }
    }
  }

  /** The tags on which a record is appended to `objects`. */
  predicate Emits(a: Action) {
    a.EndSubprogram? || a.EndComponent? || a.Package? || a.TypeBody? || a.Subtype? || a.Constant?
  }

  function CountEmits(evs: seq<Event>): nat {
    if evs == [] then 0 else (if Emits(evs[0].action) then 1 else 0) + CountEmits(evs[1..])
  }

  /** One event appends one record when it is a terminating event, and none otherwise. */
  lemma StepEmits(text: string, s: Builder, e: Event)
    requires Valid(s) && CanStep(text, s, e)
    ensures |Step(text, s, e).objects| == |s.objects| + (if Emits(e.action) then 1 else 0)
  {
  }

  /** One event resets the port count (`component`), counts a port name (`port_param`), or
      leaves it alone. */
  lemma StepPortIndex(text: string, s: Builder, e: Event)
    requires Valid(s) && CanStep(text, s, e)
    ensures Step(text, s, e).portParamIndex
            == if e.action.Component? then 0 else s.portParamIndex + (if e.action.PortParam? then 1 else 0)
  {
  }

  /** Records are created only at their terminating event, one per such event, and
      never removed. */
  lemma {:induction false} OneRecordPerTerminatingEvent(text: string, s: Builder, evs: seq<Event>)
    requires Valid(s) && CanRun(text, s, evs)
    ensures |RunFrom(text, s, evs).objects| == |s.objects| + CountEmits(evs)
    decreases |evs|
  {
    if |evs| > 0 {
      StepEmits(text, s, evs[0]);
      OneRecordPerTerminatingEvent(text, Step(text, s, evs[0]), evs[1..]);
    }
  }

  /** The number of `port_param` events since the last `component` event. */
  function PortNamesSinceComponent(evs: seq<Event>): nat {
    if evs == [] then 0
    else
      var last := evs[|evs| - 1].action;
      if last.Component? then 0
      else PortNamesSinceComponent(evs[..|evs| - 1]) + (if last.PortParam? then 1 else 0)
  }

  /** `port_param_index` counts the port names seen since the last `component` event. */
  lemma {:induction false} PortIndexCountsPortNames(text: string, evs: seq<Event>)
    requires Parses(text, evs)
    ensures RunFrom(text, Init(), evs).portParamIndex == PortNamesSinceComponent(evs)
    decreases |evs|
  {
    if |evs| > 0 {
      var pre := evs[..|evs| - 1];
      var e := evs[|evs| - 1];
      assert evs == pre + [e];
      PrefixRuns(text, Init(), pre, [e]);
      PortIndexCountsPortNames(text, pre);
      RunSnoc(text, Init(), pre, e);
      StepPortIndex(text, RunFrom(text, Init(), pre), e);
    }
  }

  /** The section markers since the last `component` event, each with the number of port
      names seen before it. */
  function SectionsSinceComponent(evs: seq<Event>): seq<(nat, string)> {
    if evs == [] then []
    else
      var pre, last := evs[..|evs| - 1], evs[|evs| - 1].action;
      if last.Component? then []
      else if last.SectionMeta? then SectionsSinceComponent(pre) + [(PortNamesSinceComponent(pre), last.title)]
      else SectionsSinceComponent(pre)
  }

  /** One event clears the section list (`component`), appends a marker keyed by the
      current port count (`section_meta`), or leaves it alone. */
  lemma StepSections(text: string, s: Builder, e: Event)
    requires Valid(s) && CanStep(text, s, e)
    ensures Step(text, s, e).sections
            == if e.action.Component? then []
               else if e.action.SectionMeta? then s.sections + [(s.portParamIndex, e.action.title)]
               else s.sections
  {
  }

  /** `sections` holds exactly the markers since the last `component` event, in order,
      each keyed by the port names counted before it. */
  lemma {:induction false} SectionsCountSectionEvents(text: string, evs: seq<Event>)
    requires Parses(text, evs)
    ensures RunFrom(text, Init(), evs).sections == SectionsSinceComponent(evs)
    decreases |evs|
  {
    if |evs| > 0 {
      var pre := evs[..|evs| - 1];
      var e := evs[|evs| - 1];
      assert evs == pre + [e];
      PrefixRuns(text, Init(), pre, [e]);
      SectionsCountSectionEvents(text, pre);
      PortIndexCountsPortNames(text, pre);
      RunSnoc(text, Init(), pre, e);
      StepSections(text, RunFrom(text, Init(), pre), e);
    }
  }

  /** A stream that can run can run up to any of its prefixes. */
  lemma {:induction false} PrefixRuns(text: string, s: Builder, a: seq<Event>, b: seq<Event>)
    requires Valid(s) && CanRun(text, s, a + b)
    ensures CanRun(text, s, a)
    decreases |a|
  {
    if |a| > 0 {
      assert (a + b)[0] == a[0] && (a + b)[1..] == a[1..] + b;
      PrefixRuns(text, Step(text, s, a[0]), a[1..], b);
    }
  }

  /** The sections of an emitted component are the `section_meta` markers since its
      `component` event, as a dictionary: every key is a port position between 0 and the
      number of port names seen, and holds the title of the last marker seen there. */
  lemma SectionKeysWithinPortsSeen(text: string, evs: seq<Event>, e: Event)
    requires Parses(text, evs + [e]) && e.action.EndComponent?
    ensures Parses(text, evs)
    ensures |Parse(text, evs + [e])| == |Parse(text, evs)| + 1
    ensures var c, ps := Parse(text, evs + [e])[|Parse(text, evs)|], SectionsSinceComponent(evs);
      && c.VhdlComponent?
      && c.sections == SectionMap(ps)
      && (forall k :: k in c.sections ==> k <= PortNamesSinceComponent(evs))
      && (forall k :: k in c.sections ==>
            exists j :: 0 <= j < |ps| && ps[j] == (k, c.sections[k]) && forall j' :: j < j' < |ps| ==> ps[j'].0 != k)
  {
    PrefixRuns(text, Init(), evs, [e]);
    RunSnoc(text, Init(), evs, e);
    var s0 := RunFrom(text, Init(), evs);
    StepEndComponent(text, s0, e);
    assert Parse(text, evs + [e]) == FinishComponent(s0).objects;
    PortIndexCountsPortNames(text, evs);
    SectionsCountSectionEvents(text, evs);
    FinishedSections(s0, SectionsSinceComponent(evs), PortNamesSinceComponent(evs));
  }

  lemma StepEndComponent(text: string, s: Builder, e: Event)
    requires Valid(s) && e.action.EndComponent?
    ensures CanStep(text, s, e) && Step(text, s, e) == FinishComponent(s)
  {
  }

  /** The sections `end_component` gives the component it emits, from a builder whose
      marker list is `ps` and whose port count is `n`. */
  lemma FinishedSections(s: Builder, ps: seq<(nat, string)>, n: nat)
    requires Valid(s) && s.sections == ps && s.portParamIndex == n
    ensures var c := FinishComponent(s).objects[|s.objects|];
      && c.VhdlComponent? && c.sections == SectionMap(ps)
      && (forall k :: k in c.sections ==> k <= n)
      && (forall k :: k in c.sections ==>
            exists j :: 0 <= j < |ps| && ps[j] == (k, c.sections[k]) && forall j' :: j < j' < |ps| ==> ps[j'].0 != k)
  {
    var m := SectionMap(ps);
    assert FinishComponent(s).objects[|s.objects|] == VhdlComponent(s.name, s.generics, s.ports, m, Some(s.metacomments));
    forall k | k in m ensures k <= n {
      var j :| 0 <= j < |ps| && ps[j].0 == k;
    }
  }

  /** An event whose offsets are not read. */
  function At(a: Action): Event {
    Event(0, 0, a)
  }

  lemma RunOne(text: string, s: Builder, e: Event)
    requires Valid(s) && CanStep(text, s, e)
    ensures CanRun(text, s, [e]) && RunFrom(text, s, [e]) == Step(text, s, e)
  {
    assert [e][1..] == [];
  }

  // ---------------------------------------------------------------------------
  // Subprograms

  /** One parameter declaration `[storage] A, B, ... : [MODE ] TYPE [:= DEFAULT]` of a
      subprogram, as the rule table tokenises it: one `param` event per name, then the
      type and the optional default. */
  datatype ParamDecl = ParamDecl(storage: Option<string>, names: seq<string>, modeGroup: Option<string>,
                                 ptype: string, default: Option<string>)

  predicate WellFormedDecl(d: ParamDecl) {
    |d.names| > 0
  }

  function NameEvents(storage: Option<string>, names: seq<string>): seq<Event> {
    if names == [] then [] else [At(Param(storage, names[0]))] + NameEvents(storage, names[1..])
  }

  function ParamDeclEvents(d: ParamDecl): seq<Event> {
    NameEvents(d.storage, d.names) + [At(ParamType(d.modeGroup, d.ptype))]
    + (if d.default.Some? then [At(ParamDefault(d.default.value))] else [])
  }

  function ParamListEvents(ds: seq<ParamDecl>): seq<Event> {
    if ds == [] then [] else ParamDeclEvents(ds[0]) + ParamListEvents(ds[1..])
  }

  function Untyped(names: seq<string>): seq<VhdlParameter> {
    if names == [] then [] else [VhdlParameter(names[0], None, None, None, None)] + Untyped(names[1..])
  }

  /** The parameters a declaration produces: the last name gets the mode (stripped, or
      absent), the type and the default; every earlier name has already been committed
      with none of them. */
  function Declared(d: ParamDecl): seq<VhdlParameter>
    requires WellFormedDecl(d)
  {
    Untyped(d.names[..|d.names| - 1])
    + [VhdlParameter(d.names[|d.names| - 1], if d.modeGroup.Some? then Some(Strip(d.modeGroup.value)) else None,
                     Some(d.ptype), d.default, None)]
  }

  function DeclaredAll(ds: seq<ParamDecl>): seq<VhdlParameter>
    requires forall j :: 0 <= j < |ds| ==> WellFormedDecl(ds[j])
  {
    if ds == [] then [] else Declared(ds[0]) + DeclaredAll(ds[1..])
  }

  /** The parameters already committed followed by those still pending. */
  function Collected(s: Builder): seq<VhdlParameter>
    requires AllPending(s.paramItems)
  {
    s.parameters + Committed(s.paramItems)
  }

  /** A run of `param` events leaves the last name pending and commits the others untyped. */
  lemma {:induction false} NamesRun(text: string, s: Builder, storage: Option<string>, names: seq<string>)
    requires Valid(s) && AllPending(s.paramItems) && |names| > 0
    ensures CanRun(text, s, NameEvents(storage, names))
    ensures var r := RunFrom(text, s, NameEvents(storage, names));
      && r.parameters == Collected(s) + Untyped(names[..|names| - 1])
      && r.paramItems == [Pending(VhdlParameter(names[|names| - 1], None, None, None, None))]
      && r.(parameters := s.parameters, paramItems := s.paramItems) == s
    decreases |names|
  {
    var e := At(Param(storage, names[0]));
    var s1 := Step(text, s, e);
    RunOne(text, s, e);
    assert NameEvents(storage, names) == [e] + NameEvents(storage, names[1..]);
    if |names| == 1 {
      assert NameEvents(storage, names[1..]) == [];
      assert [e] + [] == [e];
      assert Untyped(names[..0]) == [];
    } else {
      NamesRun(text, s1, storage, names[1..]);
      RunAppend(text, s, [e], NameEvents(storage, names[1..]));
      assert Committed(s1.paramItems) == [VhdlParameter(names[0], None, None, None, None)];
      assert names[..|names| - 1] == [names[0]] + names[1..][..|names[1..]| - 1];
    }
  }

  /** `param_type` gives every pending parameter the stripped mode and the type. */
  lemma RunParamType(text: string, s: Builder, m: Option<string>, t: string)
    requires Valid(s) && AllPending(s.paramItems)
    ensures CanRun(text, s, [At(ParamType(m, t))])
    ensures var mode := if m.Some? then Some(Strip(m.value)) else None;
      RunFrom(text, s, [At(ParamType(m, t))])
      == s.(mode := Bound(mode), ptype := Bound(t), paramItems := WithType(s.paramItems, mode, t))
  {
    RunOne(text, s, At(ParamType(m, t)));
  }

  /** `param_default` gives every pending parameter the default. */
  lemma RunParamDefault(text: string, s: Builder, v: string)
    requires Valid(s) && AllPending(s.paramItems)
    ensures CanRun(text, s, [At(ParamDefault(v))])
    ensures RunFrom(text, s, [At(ParamDefault(v))]) == s.(paramItems := WithDefault(s.paramItems, v))
  {
    RunOne(text, s, At(ParamDefault(v)));
  }

  /** The names and the type of a declaration: the earlier names are committed untyped,
      the last one is pending with the mode and the type. */
  lemma ParamHeadRuns(text: string, s: Builder, d: ParamDecl)
    requires Valid(s) && AllPending(s.paramItems) && WellFormedDecl(d)
    ensures var head := NameEvents(d.storage, d.names) + [At(ParamType(d.modeGroup, d.ptype))];
      && CanRun(text, s, head)
      && var r := RunFrom(text, s, head);
      && r.parameters == Collected(s) + Untyped(d.names[..|d.names| - 1])
      && r.paramItems == [Pending(Declared(d)[|Declared(d)| - 1].(defaultValue := None))]
      && r.(parameters := s.parameters, paramItems := s.paramItems, mode := s.mode, ptype := s.ptype) == s
  {
    var names := NameEvents(d.storage, d.names);
    NamesRun(text, s, d.storage, d.names);
    var s1 := RunFrom(text, s, names);
    RunParamType(text, s1, d.modeGroup, d.ptype);
    RunAppend(text, s, names, [At(ParamType(d.modeGroup, d.ptype))]);
  }

  lemma ParamDeclRuns(text: string, s: Builder, d: ParamDecl)
    requires Valid(s) && AllPending(s.paramItems) && WellFormedDecl(d)
    ensures CanRun(text, s, ParamDeclEvents(d))
    ensures var r := RunFrom(text, s, ParamDeclEvents(d));
      && AllPending(r.paramItems)
      && Collected(r) == Collected(s) + Declared(d)
      && r.(parameters := s.parameters, paramItems := s.paramItems, mode := s.mode, ptype := s.ptype) == s
  {
    var head := NameEvents(d.storage, d.names) + [At(ParamType(d.modeGroup, d.ptype))];
    ParamHeadRuns(text, s, d);
    var s2 := RunFrom(text, s, head);
    var last := Declared(d)[|Declared(d)| - 1];
    assert Declared(d) == Untyped(d.names[..|d.names| - 1]) + [last];
    if d.default.Some? {
      var e3 := At(ParamDefault(d.default.value));
      RunParamDefault(text, s2, d.default.value);
      RunAppend(text, s, head, [e3]);
      assert ParamDeclEvents(d) == head + [e3];
      assert RunFrom(text, s2, [e3]).paramItems == [Pending(last)];
    } else {
      assert ParamDeclEvents(d) == head;
    }
  }

  /** `param` commits the earlier parameters before starting the next one, so a list of
      declarations ends with every declared parameter collected, in declaration order. */
  lemma {:induction false} ParamListCollectsInOrder(text: string, s: Builder, ds: seq<ParamDecl>)
    requires Valid(s) && AllPending(s.paramItems)
    requires forall j :: 0 <= j < |ds| ==> WellFormedDecl(ds[j])
    ensures CanRun(text, s, ParamListEvents(ds))
    ensures var r := RunFrom(text, s, ParamListEvents(ds));
      && AllPending(r.paramItems)
      && Collected(r) == Collected(s) + DeclaredAll(ds)
      && r.(parameters := s.parameters, paramItems := s.paramItems, mode := s.mode, ptype := s.ptype) == s
    decreases |ds|
  {
    if ds == [] {
      assert Collected(s) + [] == Collected(s);
    } else {
      var a, b := ParamDeclEvents(ds[0]), ParamListEvents(ds[1..]);
      assert ParamListEvents(ds) == a + b;
      ParamDeclRuns(text, s, ds[0]);
      var s1 := RunFrom(text, s, a);
      ParamListCollectsInOrder(text, s1, ds[1..]);
      RunAppend(text, s, a, b);
      assert DeclaredAll(ds) == Declared(ds[0]) + DeclaredAll(ds[1..]);
      AppendAssoc(Collected(s), Declared(ds[0]), DeclaredAll(ds[1..]));
    }
  }

  function SubprogramEvents(isFunction: bool, n: string, ds: seq<ParamDecl>, rt: Option<string>): seq<Event> {
    [At(if isFunction then Function(n) else Procedure(n))] + ParamListEvents(ds) + [At(EndSubprogram(rt))]
  }

  /** Everything of a subprogram declaration but its `end_subprogram` event. */
  lemma SubprogramOpenRuns(text: string, s: Builder, isFunction: bool, n: string, ds: seq<ParamDecl>)
    requires Valid(s)
    requires forall j :: 0 <= j < |ds| ==> WellFormedDecl(ds[j])
    ensures var open := [At(if isFunction then Function(n) else Procedure(n))] + ParamListEvents(ds);
      && CanRun(text, s, open)
      && var r := RunFrom(text, s, open);
      && AllPending(r.paramItems) && Collected(r) == DeclaredAll(ds)
      && r.kind == Some(if isFunction then FunctionKind else ProcedureKind) && r.name == Some(n)
      && r.metacomments == s.metacomments && r.objects == s.objects
      && r.lastItem == s.lastItem && r.generics == s.generics && r.ports == s.ports && r.sections == s.sections
  {
    var e0 := At(if isFunction then Function(n) else Procedure(n));
    RunOne(text, s, e0);
    var s1 := Step(text, s, e0);
    assert s1 == s.(kind := Some(if isFunction then FunctionKind else ProcedureKind), name := Some(n),
                    paramItems := [], parameters := []);
    assert Collected(s1) == [];
    ParamListCollectsInOrder(text, s1, ds);
    RunAppend(text, s, [e0], ParamListEvents(ds));
  }

  /** `end_subprogram` appends a function (when `kind` says so) or else a procedure
      carrying every collected parameter, committed ones first, the return type and the
      buffered metacomments; it empties the buffer and the parameter lists and resets
      `kind` and `name`, and changes nothing else. */
  lemma RunFinishSubprogram(text: string, s: Builder, rt: Option<string>)
    requires Valid(s) && AllPending(s.paramItems)
    ensures CanRun(text, s, [At(EndSubprogram(rt))])
    ensures RunFrom(text, s, [At(EndSubprogram(rt))]) == FinishSubprogram(s, rt)
    ensures var r, ps := RunFrom(text, s, [At(EndSubprogram(rt))]), s.parameters + Committed(s.paramItems);
      && |r.objects| == |s.objects| + 1 && r.objects[..|s.objects|] == s.objects
      && r.objects[|s.objects|] == (if s.kind == Some(FunctionKind) then VhdlFunction(s.name, ps, rt, Some(s.metacomments))
                                    else VhdlProcedure(s.name, ps, Some(s.metacomments)))
      && r.metacomments == [] && r.parameters == [] && r.paramItems == [] && r.kind == None && r.name == None
      && r.(objects := s.objects, metacomments := s.metacomments, parameters := s.parameters,
            paramItems := s.paramItems, kind := s.kind, name := s.name) == s
  {
    assert Step(text, s, At(EndSubprogram(rt))) == FinishSubprogram(s, rt);
    RunOne(text, s, At(EndSubprogram(rt)));
  }

  /** A function or procedure declaration emits exactly one record, carrying its declared
      parameters in order and the buffered metacomments, and clears the builder. */
  lemma SubprogramDeclaration(text: string, s: Builder, isFunction: bool, n: string, ds: seq<ParamDecl>,
                              rt: Option<string>)
    requires Valid(s)
    requires forall j :: 0 <= j < |ds| ==> WellFormedDecl(ds[j])
    ensures CanRun(text, s, SubprogramEvents(isFunction, n, ds, rt))
    ensures var r := RunFrom(text, s, SubprogramEvents(isFunction, n, ds, rt));
      && r.objects == s.objects + [if isFunction then VhdlFunction(Some(n), DeclaredAll(ds), rt, Some(s.metacomments))
                                   else VhdlProcedure(Some(n), DeclaredAll(ds), Some(s.metacomments))]
      && r.metacomments == [] && r.parameters == [] && r.paramItems == [] && r.kind == None && r.name == None
      && r.lastItem == s.lastItem && r.generics == s.generics && r.ports == s.ports && r.sections == s.sections
  {
    var open := [At(if isFunction then Function(n) else Procedure(n))] + ParamListEvents(ds);
    SubprogramOpenRuns(text, s, isFunction, n, ds);
    var s2 := RunFrom(text, s, open);
    RunFinishSubprogram(text, s2, rt);
    RunAppend(text, s, open, [At(EndSubprogram(rt))]);
    assert RunFrom(text, s, SubprogramEvents(isFunction, n, ds, rt)) == FinishSubprogram(s2, rt);
  }

  /** In `function f(a, b : T)` only the last name sharing a type receives it: the
      function is emitted with `a` untyped, which `subprogram_signature` cannot render. */
  lemma SharedTypeLeavesEarlierNamesUntyped(text: string)
    ensures var evs := SubprogramEvents(true, "f", [ParamDecl(None, ["a", "b"], None, "T", None)], Some("R"));
      && Parses(text, evs)
      && var o := Parse(text, evs);
      && |o| == 1 && o[0].VhdlFunction? && |o[0].parameters| == 2
      && o[0].parameters[0] == VhdlParameter("a", None, None, None, None)
      && o[0].parameters[1] == VhdlParameter("b", None, Some("T"), None, None)
  {
    var d := ParamDecl(None, ["a", "b"], None, "T", None);
    var evs := SubprogramEvents(true, "f", [d], Some("R"));
    SubprogramDeclaration(text, Init(), true, "f", [d], Some("R"));
    SharedTypeDeclared(d);
    var r := RunFrom(text, Init(), evs);
    assert r.objects == [VhdlFunction(Some("f"), DeclaredAll([d]), Some("R"), Some([]))];
  }

  lemma SharedTypeDeclared(d: ParamDecl)
    requires d == ParamDecl(None, ["a", "b"], None, "T", None)
    ensures DeclaredAll([d]) == [VhdlParameter("a", None, None, None, None), VhdlParameter("b", None, Some("T"), None, None)]
  {
    assert d.names[..1] == ["a"];
    assert Untyped(["a"]) == [VhdlParameter("a", None, None, None, None)];
    assert DeclaredAll([d]) == Declared(d) + DeclaredAll([]);
  }

  // ---------------------------------------------------------------------------
  // Components

  /** `A, B, ... : TYPE [:= DEFAULT]` in a generic list. */
  datatype GenericDecl = GenericDecl(names: seq<string>, ptype: string, default: Option<string>)

  /** A port declaration: scalar `A, B, ... : MODE TYPE [:= DEFAULT]`, or an array port
      `A, B, ... : MODE TYPE(...)` whose range opens at offset `open` and closes at
      offset `close` of the text, `parens` being the nested parenthesis events between
      them (true for an opening one). */
  datatype PortDecl =
    | ScalarPort(names: seq<string>, mode: string, ptype: string, default: Option<string>)
    | ArrayPort(names: seq<string>, mode: string, ptype: string, open: nat, close: nat, parens: seq<bool>)

  predicate WellFormedGeneric(g: GenericDecl) {
    |g.names| > 0
  }

  /** The port has a name, and an array range's offsets are those of its parentheses. */
  predicate WellFormedPort(text: string, p: PortDecl) {
    && |p.names| > 0
    && (p.ArrayPort? ==> p.open < p.close < |text| && text[p.open] == '(' && text[p.close] == ')')
  }

  function GenericNameEvents(names: seq<string>): seq<Event> {
    if names == [] then [] else [At(GenericParam(names[0]))] + GenericNameEvents(names[1..])
  }

  function PortNameEvents(names: seq<string>): seq<Event> {
    if names == [] then [] else [At(PortParam(names[0]))] + PortNameEvents(names[1..])
  }

  function ParenEvents(parens: seq<bool>): seq<Event> {
    if parens == [] then [] else [At(if parens[0] then OpenParen else CloseParen)] + ParenEvents(parens[1..])
  }

  function GenericDeclEvents(g: GenericDecl): seq<Event> {
    GenericNameEvents(g.names) + [At(GenericParamType(g.ptype))]
    + (if g.default.Some? then [At(GenericParamDefault(g.default.value))] else [])
  }

  function GenericListEvents(gs: seq<GenericDecl>): seq<Event> {
    if gs == [] then [] else GenericDeclEvents(gs[0]) + GenericListEvents(gs[1..])
  }

  function PortDeclEvents(p: PortDecl): seq<Event> {
    match p
    case ScalarPort(names, mode, ptype, default) =>
      PortNameEvents(names) + [At(PortParamType(mode, ptype))]
      + (if default.Some? then [At(PortParamDefault(default.value))] else [])
    case ArrayPort(names, mode, ptype, open, close, parens) =>
      PortNameEvents(names) + [Event(0, open, PortArrayParamType(mode, ptype))] + ParenEvents(parens)
      + [Event(close, close, ArrayRangeEnd)]
  }

  function PortListEvents(ps: seq<PortDecl>): seq<Event> {
    if ps == [] then [] else PortDeclEvents(ps[0]) + PortListEvents(ps[1..])
  }

  function NamedItems(names: seq<string>): seq<Item> {
    if names == [] then [] else [Named(names[0])] + NamedItems(names[1..])
  }

  /** Every name with the same mode and type, in order. */
  function SameType(names: seq<string>, mode: string, t: string): (r: seq<VhdlParameter>)
    ensures |r| == |names|
    ensures forall i :: 0 <= i < |names| ==> r[i] == VhdlParameter(names[i], Some(mode), Some(t), None, None)
  {
    if names == [] then [] else [VhdlParameter(names[0], Some(mode), Some(t), None, None)] + SameType(names[1..], mode, t)
  }

  /** The generics a declaration produces: mode `in`, its type, and no default (the
      default's event is ignored). */
  function GenericParams(g: GenericDecl): seq<VhdlParameter> {
    SameType(g.names, "in", g.ptype)
  }

  function AllGenericParams(gs: seq<GenericDecl>): seq<VhdlParameter> {
    if gs == [] then [] else GenericParams(gs[0]) + AllGenericParams(gs[1..])
  }

  /** The ports a declaration produces: every name gets the mode and the type, an array
      port's type being followed by the literal range text, both parentheses included. */
  function PortParams(text: string, p: PortDecl): seq<VhdlParameter>
    requires WellFormedPort(text, p)
  {
    match p
    case ScalarPort(names, mode, ptype, _) => SameType(names, mode, ptype)
    case ArrayPort(names, mode, ptype, open, close, _) => SameType(names, mode, ptype + text[open..close + 1])
  }

  function AllPortParams(text: string, ps: seq<PortDecl>): seq<VhdlParameter>
    requires forall j :: 0 <= j < |ps| ==> WellFormedPort(text, ps[j])
  {
    if ps == [] then [] else PortParams(text, ps[0]) + AllPortParams(text, ps[1..])
  }

  function CountNames(ps: seq<PortDecl>): nat {
    if ps == [] then 0 else |ps[0].names| + CountNames(ps[1..])
  }

  lemma {:induction false} DeclareNamed(names: seq<string>, mode: string, t: string)
    ensures AllNamed(NamedItems(names)) && |NamedItems(names)| == |names|
    ensures Declare(NamedItems(names), Some(mode), t) == SameType(names, mode, t)
    decreases |names|
  {
    if names != [] {
      DeclareNamed(names[1..], mode, t);
    }
  }

  lemma MirrorNoOwners(objects: seq<VhdlObject>, generics: seq<VhdlParameter>, ports: seq<VhdlParameter>)
    ensures Mirror(objects, {}, generics, ports) == objects
  {
  }

  lemma {:induction false} GenericNamesRun(text: string, s: Builder, names: seq<string>)
    requires Valid(s)
    ensures CanRun(text, s, GenericNameEvents(names))
    ensures RunFrom(text, s, GenericNameEvents(names)) == s.(paramItems := s.paramItems + NamedItems(names))
    decreases |names|
  {
    if names == [] {
      assert s.paramItems + [] == s.paramItems;
    } else {
      var e := At(GenericParam(names[0]));
      RunOne(text, s, e);
      GenericNamesRun(text, Step(text, s, e), names[1..]);
      RunAppend(text, s, [e], GenericNameEvents(names[1..]));
      assert s.paramItems + NamedItems(names) == s.paramItems + [Named(names[0])] + NamedItems(names[1..]);
    }
  }

  lemma {:induction false} PortNamesRun(text: string, s: Builder, names: seq<string>)
    requires Valid(s)
    ensures CanRun(text, s, PortNameEvents(names))
    ensures RunFrom(text, s, PortNameEvents(names))
            == s.(paramItems := s.paramItems + NamedItems(names), portParamIndex := s.portParamIndex + |names|)
    decreases |names|
  {
    if names == [] {
      assert s.paramItems + [] == s.paramItems;
    } else {
      var e := At(PortParam(names[0]));
      RunOne(text, s, e);
      PortNamesRun(text, Step(text, s, e), names[1..]);
      RunAppend(text, s, [e], PortNameEvents(names[1..]));
      assert s.paramItems + NamedItems(names) == s.paramItems + [Named(names[0])] + NamedItems(names[1..]);
    }
  }

  /** Parenthesis events inside an array range have no effect. */
  lemma {:induction false} ParensIgnored(text: string, s: Builder, parens: seq<bool>)
    requires Valid(s)
    ensures CanRun(text, s, ParenEvents(parens)) && RunFrom(text, s, ParenEvents(parens)) == s
    decreases |parens|
  {
    if parens != [] {
      var e := At(if parens[0] then OpenParen else CloseParen);
      RunOne(text, s, e);
      ParensIgnored(text, s, parens[1..]);
      RunAppend(text, s, [e], ParenEvents(parens[1..]));
    }
  }

  lemma GenericDeclRuns(text: string, s: Builder, g: GenericDecl)
    requires Valid(s) && s.paramItems == [] && s.shared == {} && WellFormedGeneric(g)
    ensures CanRun(text, s, GenericDeclEvents(g))
    ensures RunFrom(text, s, GenericDeclEvents(g))
            == s.(generics := s.generics + GenericParams(g), ptype := Bound(g.ptype),
                  lastItem := Current(Generics, |s.generics| + |g.names| - 1))
  {
    var names := GenericNameEvents(g.names);
    GenericNamesRun(text, s, g.names);
    var s1 := RunFrom(text, s, names);
    DeclareNamed(g.names, "in", g.ptype);
    assert s1.paramItems == NamedItems(g.names);
    var e2 := At(GenericParamType(g.ptype));
    RunOne(text, s1, e2);
    RunAppend(text, s, names, [e2]);
    var s2 := Step(text, s1, e2);
    MirrorNoOwners(s.objects, s2.generics, s2.ports);
    if g.default.Some? {
      var e3 := At(GenericParamDefault(g.default.value));
      RunOne(text, s2, e3);
      RunAppend(text, s, names + [e2], [e3]);
      assert GenericDeclEvents(g) == names + [e2] + [e3];
    } else {
      assert GenericDeclEvents(g) == names + [e2];
    }
  }

  /** A generic list declares its generics in order, every one with mode `in`, and leaves
      the last one as the metacomment target. */
  lemma {:induction false} GenericListRuns(text: string, s: Builder, gs: seq<GenericDecl>)
    requires Valid(s) && s.paramItems == [] && s.shared == {}
    requires forall j :: 0 <= j < |gs| ==> WellFormedGeneric(gs[j])
    ensures CanRun(text, s, GenericListEvents(gs))
    ensures var r := RunFrom(text, s, GenericListEvents(gs));
      && r.generics == s.generics + AllGenericParams(gs)
      && (gs != [] ==> r.lastItem == Current(Generics, |r.generics| - 1))
      && r.(generics := s.generics, ptype := s.ptype, lastItem := s.lastItem) == s
    decreases |gs|
  {
    if gs == [] {
      assert s.generics + [] == s.generics;
    } else {
      var a, b := GenericDeclEvents(gs[0]), GenericListEvents(gs[1..]);
      assert GenericListEvents(gs) == a + b;
      GenericDeclRuns(text, s, gs[0]);
      var s1 := RunFrom(text, s, a);
      GenericListRuns(text, s1, gs[1..]);
      RunAppend(text, s, a, b);
      var r := RunFrom(text, s1, b);
      assert r.generics == s1.generics + AllGenericParams(gs[1..]);
      assert s1.generics == s.generics + GenericParams(gs[0]);
      assert AllGenericParams(gs) == GenericParams(gs[0]) + AllGenericParams(gs[1..]);
      AppendAssoc(s.generics, GenericParams(gs[0]), AllGenericParams(gs[1..]));
      if |gs| == 1 {
        assert b == [];
      }
    }
  }

  /** The frame a port declaration keeps: everything but the ports, the port-name
      count, the target and the locals it binds. */
  predicate PortFrame(r: Builder, s: Builder) {
    r.(ports := s.ports, portParamIndex := s.portParamIndex, lastItem := s.lastItem, mode := s.mode,
       ptype := s.ptype, arrayStart := s.arrayStart) == s
  }

  lemma PortFrameTrans(a: Builder, b: Builder, c: Builder)
    requires PortFrame(a, b) && PortFrame(b, c)
    ensures PortFrame(a, c)
  {
  }

  lemma PortFrameKeeps(r: Builder, s: Builder)
    requires PortFrame(r, s)
    ensures r.generics == s.generics && r.name == s.name && r.metacomments == s.metacomments
    ensures r.sections == s.sections && r.objects == s.objects && r.paramItems == s.paramItems
  {
  }

  /** `port_param_type` declares every buffered name as a port with the mode and the type. */
  lemma RunPortType(text: string, s: Builder, names: seq<string>, m: string, t: string)
    requires Valid(s) && s.shared == {} && |names| > 0 && s.paramItems == NamedItems(names)
    ensures CanRun(text, s, [At(PortParamType(m, t))])
    ensures var ports := s.ports + SameType(names, m, t);
      RunFrom(text, s, [At(PortParamType(m, t))])
      == s.(mode := Bound(Some(m)), ptype := Bound(t), ports := ports, paramItems := [],
            lastItem := Current(Ports, |ports| - 1))
  {
    DeclareNamed(names, m, t);
    MirrorNoOwners(s.objects, s.generics, s.ports + SameType(names, m, t));
    assert Step(text, s, At(PortParamType(m, t))) == DeclarePorts(s, m, t);
    RunOne(text, s, At(PortParamType(m, t)));
  }

  /** A tag the interpreter ignores changes nothing. */
  lemma RunIgnored(text: string, s: Builder, e: Event)
    requires Valid(s)
    requires e.action.GenericParamDefault? || e.action.PortParamDefault? || e.action.EndGeneric?
             || e.action.EndPort? || e.action.OpenParen? || e.action.CloseParen?
    ensures CanRun(text, s, [e]) && RunFrom(text, s, [e]) == s
  {
    RunOne(text, s, e);
  }

  lemma ScalarPortRuns(text: string, s: Builder, p: PortDecl)
    requires Valid(s) && s.paramItems == [] && s.shared == {} && WellFormedPort(text, p) && p.ScalarPort?
    ensures CanRun(text, s, PortDeclEvents(p))
    ensures var r := RunFrom(text, s, PortDeclEvents(p));
      && r.ports == s.ports + PortParams(text, p)
      && r.portParamIndex == s.portParamIndex + |p.names|
      && r.lastItem == Current(Ports, |r.ports| - 1)
      && PortFrame(r, s)
  {
    var names := PortNameEvents(p.names);
    PortNamesRun(text, s, p.names);
    var s1 := RunFrom(text, s, names);
    assert s.paramItems + NamedItems(p.names) == NamedItems(p.names);
    var e2 := At(PortParamType(p.mode, p.ptype));
    RunPortType(text, s1, p.names, p.mode, p.ptype);
    RunAppend(text, s, names, [e2]);
    var s2 := RunFrom(text, s1, [e2]);
    assert PortParams(text, p) == SameType(p.names, p.mode, p.ptype);
    if p.default.Some? {
      var e3 := At(PortParamDefault(p.default.value));
      RunIgnored(text, s2, e3);
      RunAppend(text, s, names + [e2], [e3]);
      assert PortDeclEvents(p) == names + [e2] + [e3];
    } else {
      assert PortDeclEvents(p) == names + [e2];
    }
  }

  /** The closing parenthesis of an array range declares every buffered name with the
      type followed by the range text. */
  lemma ArrayRangeStep(text: string, s: Builder, names: seq<string>, mode: string, t: string, close: nat)
    requires Valid(s) && s.shared == {} && |names| > 0 && s.paramItems == NamedItems(names)
    requires s.mode == Bound(Some(mode)) && s.ptype == Bound(t)
    requires s.arrayStart < close < |text| && text[s.arrayStart] == '(' && text[close] == ')'
    ensures CanRun(text, s, [Event(close, close, ArrayRangeEnd)])
    ensures var ports := s.ports + SameType(names, mode, t + text[s.arrayStart..close + 1]);
      RunFrom(text, s, [Event(close, close, ArrayRangeEnd)])
      == s.(ports := ports, paramItems := [], lastItem := Current(Ports, |ports| - 1))
  {
    var e := Event(close, close, ArrayRangeEnd);
    DeclareNamed(names, mode, t + text[s.arrayStart..close + 1]);
    var ports := s.ports + SameType(names, mode, t + text[s.arrayStart..close + 1]);
    MirrorNoOwners(s.objects, s.generics, ports);
    assert Step(text, s, e) == CloseArrayRange(text, s, close);
    RunOne(text, s, e);
  }

  /** The names, the type up to the opening parenthesis and the nested parentheses of an
      array port only buffer the names and bind the locals. */
  lemma ArrayHeadRuns(text: string, s: Builder, p: PortDecl)
    requires Valid(s) && s.paramItems == [] && s.shared == {} && WellFormedPort(text, p) && p.ArrayPort?
    ensures var head := PortNameEvents(p.names) + [Event(0, p.open, PortArrayParamType(p.mode, p.ptype))]
                        + ParenEvents(p.parens);
      && CanRun(text, s, head)
      && RunFrom(text, s, head)
         == s.(paramItems := NamedItems(p.names), portParamIndex := s.portParamIndex + |p.names|,
               mode := Bound(Some(p.mode)), ptype := Bound(p.ptype), arrayStart := p.open)
  {
    var names := PortNameEvents(p.names);
    PortNamesRun(text, s, p.names);
    var s1 := RunFrom(text, s, names);
    assert s.paramItems + NamedItems(p.names) == NamedItems(p.names);
    var e2 := Event(0, p.open, PortArrayParamType(p.mode, p.ptype));
    RunOne(text, s1, e2);
    RunAppend(text, s, names, [e2]);
    var s2 := s1.(mode := Bound(Some(p.mode)), ptype := Bound(p.ptype), arrayStart := p.open);
    assert Step(text, s1, e2) == s2;
    ParensIgnored(text, s2, p.parens);
    RunAppend(text, s, names + [e2], ParenEvents(p.parens));
  }

  lemma ArrayPortRuns(text: string, s: Builder, p: PortDecl)
    requires Valid(s) && s.paramItems == [] && s.shared == {} && WellFormedPort(text, p) && p.ArrayPort?
    ensures CanRun(text, s, PortDeclEvents(p))
    ensures var r := RunFrom(text, s, PortDeclEvents(p));
      && r.ports == s.ports + PortParams(text, p)
      && r.portParamIndex == s.portParamIndex + |p.names|
      && r.lastItem == Current(Ports, |r.ports| - 1)
      && PortFrame(r, s)
  {
    var head := PortNameEvents(p.names) + [Event(0, p.open, PortArrayParamType(p.mode, p.ptype))]
                + ParenEvents(p.parens);
    ArrayHeadRuns(text, s, p);
    var s2 := RunFrom(text, s, head);
    var e3 := Event(p.close, p.close, ArrayRangeEnd);
    ArrayRangeStep(text, s2, p.names, p.mode, p.ptype, p.close);
    RunAppend(text, s, head, [e3]);
    assert PortDeclEvents(p) == head + [e3];
    var ports := s.ports + PortParams(text, p);
    assert RunFrom(text, s, PortDeclEvents(p))
           == s2.(ports := ports, paramItems := [], lastItem := Current(Ports, |ports| - 1));
  }

  lemma PortDeclRuns(text: string, s: Builder, p: PortDecl)
    requires Valid(s) && s.paramItems == [] && s.shared == {} && WellFormedPort(text, p)
    ensures CanRun(text, s, PortDeclEvents(p))
    ensures var r := RunFrom(text, s, PortDeclEvents(p));
      && r.ports == s.ports + PortParams(text, p)
      && r.portParamIndex == s.portParamIndex + |p.names|
      && r.lastItem == Current(Ports, |r.ports| - 1)
      && PortFrame(r, s)
  {
    if p.ScalarPort? {
      ScalarPortRuns(text, s, p);
    } else {
      ArrayPortRuns(text, s, p);
    }
  }

  /** A port list declares its ports in order, counts their names, and leaves the last
      port as the metacomment target. */
  lemma {:induction false} PortListRuns(text: string, s: Builder, ps: seq<PortDecl>)
    requires Valid(s) && s.paramItems == [] && s.shared == {}
    requires forall j :: 0 <= j < |ps| ==> WellFormedPort(text, ps[j])
    ensures CanRun(text, s, PortListEvents(ps))
    ensures var r := RunFrom(text, s, PortListEvents(ps));
      && r.ports == s.ports + AllPortParams(text, ps)
      && r.portParamIndex == s.portParamIndex + CountNames(ps)
      && (ps != [] ==> r.lastItem == Current(Ports, |r.ports| - 1))
      && PortFrame(r, s)
    decreases |ps|
  {
    if ps == [] {
      assert s.ports + [] == s.ports;
    } else {
      var a, b := PortDeclEvents(ps[0]), PortListEvents(ps[1..]);
      assert PortListEvents(ps) == a + b;
      PortDeclRuns(text, s, ps[0]);
      var s1 := RunFrom(text, s, a);
      PortListRuns(text, s1, ps[1..]);
      RunAppend(text, s, a, b);
      PortFrameTrans(RunFrom(text, s1, b), s1, s);
      assert AllPortParams(text, ps) == PortParams(text, ps[0]) + AllPortParams(text, ps[1..]);
      AppendAssoc(s.ports, PortParams(text, ps[0]), AllPortParams(text, ps[1..]));
      if |ps| == 1 {
        assert b == [];
      }
    }
  }

  /** A generic clause: its declarations, then the `end_generic` its closing `);` yields.
      That tag is only reachable after a declaration, so a component without generics has
      no clause at all. */
  function GenericClauseEvents(gs: seq<GenericDecl>): seq<Event> {
    if gs == [] then [] else GenericListEvents(gs) + [At(EndGeneric)]
  }

  /** A port clause: its declarations, then the `end_port` of its closing `);`. */
  function PortClauseEvents(ps: seq<PortDecl>): seq<Event> {
    if ps == [] then [] else PortListEvents(ps) + [At(EndPort)]
  }

  function ComponentEvents(n: string, gs: seq<GenericDecl>, ps: seq<PortDecl>): seq<Event> {
    [At(Component(n))] + (GenericClauseEvents(gs) + PortClauseEvents(ps)) + [At(EndComponent)]
  }

  /** The closing `end_generic` changes nothing: a generic clause builds what its list builds. */
  lemma GenericClauseRuns(text: string, s: Builder, gs: seq<GenericDecl>)
    requires Valid(s) && s.paramItems == [] && s.shared == {}
    requires forall j :: 0 <= j < |gs| ==> WellFormedGeneric(gs[j])
    ensures CanRun(text, s, GenericListEvents(gs)) && CanRun(text, s, GenericClauseEvents(gs))
    ensures RunFrom(text, s, GenericClauseEvents(gs)) == RunFrom(text, s, GenericListEvents(gs))
  {
    GenericListRuns(text, s, gs);
    if gs != [] {
      RunIgnored(text, RunFrom(text, s, GenericListEvents(gs)), At(EndGeneric));
      RunAppend(text, s, GenericListEvents(gs), [At(EndGeneric)]);
    }
  }

  /** The closing `end_port` changes nothing: a port clause builds what its list builds. */
  lemma PortClauseRuns(text: string, s: Builder, ps: seq<PortDecl>)
    requires Valid(s) && s.paramItems == [] && s.shared == {}
    requires forall j :: 0 <= j < |ps| ==> WellFormedPort(text, ps[j])
    ensures CanRun(text, s, PortListEvents(ps)) && CanRun(text, s, PortClauseEvents(ps))
    ensures RunFrom(text, s, PortClauseEvents(ps)) == RunFrom(text, s, PortListEvents(ps))
  {
    PortListRuns(text, s, ps);
    if ps != [] {
      RunIgnored(text, RunFrom(text, s, PortListEvents(ps)), At(EndPort));
      RunAppend(text, s, PortListEvents(ps), [At(EndPort)]);
    }
  }

  /** `component` names a component and gives it empty generics, ports and sections
      lists and a zero port count; a target in the old lists is now held only by the
      components that shared them. The buffer and the records are kept. */
  lemma RunStart(text: string, s: Builder, n: string)
    requires Valid(s)
    ensures CanRun(text, s, [At(Component(n))]) && RunFrom(text, s, [At(Component(n))]) == StartComponent(s, n)
    ensures var r := RunFrom(text, s, [At(Component(n))]);
      && r.kind == Some(ComponentKind) && r.name == Some(n)
      && r.generics == [] && r.ports == [] && r.paramItems == [] && r.sections == [] && r.portParamIndex == 0
      && r.shared == {}
      && r.lastItem == (if s.lastItem.Current? then Detached(s.shared, s.lastItem.list, s.lastItem.index) else s.lastItem)
      && r.metacomments == s.metacomments && r.objects == s.objects && r.parameters == s.parameters
  {
    assert Step(text, s, At(Component(n))) == StartComponent(s, n);
    RunOne(text, s, At(Component(n)));
  }

  /** `end_component` appends the component with the current lists, the sections as a
      dictionary and the buffered metacomments; it clears the target, empties the buffer
      and records that the new component shares the current lists. */
  lemma RunFinish(text: string, s: Builder)
    requires Valid(s)
    ensures CanRun(text, s, [At(EndComponent)]) && RunFrom(text, s, [At(EndComponent)]) == FinishComponent(s)
    ensures var r := RunFrom(text, s, [At(EndComponent)]);
      && r.objects == s.objects + [VhdlComponent(s.name, s.generics, s.ports, SectionMap(s.sections), Some(s.metacomments))]
      && r.lastItem == NoTarget && r.metacomments == [] && r.shared == s.shared + {|s.objects|}
      && r.(objects := s.objects, lastItem := s.lastItem, metacomments := s.metacomments, shared := s.shared) == s
  {
    assert Step(text, s, At(EndComponent)) == FinishComponent(s);
    RunOne(text, s, At(EndComponent));
  }

  /** The generic and port clauses of a component, from the state its `component` event
      leaves. */
  lemma ComponentBodyRuns(text: string, s: Builder, gs: seq<GenericDecl>, ps: seq<PortDecl>)
    requires Valid(s) && s.generics == [] && s.ports == [] && s.paramItems == [] && s.shared == {}
    requires s.portParamIndex == 0
    requires forall j :: 0 <= j < |gs| ==> WellFormedGeneric(gs[j])
    requires forall j :: 0 <= j < |ps| ==> WellFormedPort(text, ps[j])
    ensures CanRun(text, s, GenericClauseEvents(gs) + PortClauseEvents(ps))
    ensures var r := RunFrom(text, s, GenericClauseEvents(gs) + PortClauseEvents(ps));
      && r.generics == AllGenericParams(gs) && r.ports == AllPortParams(text, ps)
      && r.portParamIndex == CountNames(ps)
      && r.name == s.name && r.metacomments == s.metacomments && r.sections == s.sections
      && r.objects == s.objects && r.shared == {}
  {
    var gEvents := GenericClauseEvents(gs);
    GenericListRuns(text, s, gs);
    GenericClauseRuns(text, s, gs);
    var s2 := RunFrom(text, s, gEvents);
    assert s2.generics == AllGenericParams(gs);
    assert s2.ports == [] && s2.paramItems == [] && s2.shared == {} && s2.portParamIndex == 0;
    var pEvents := PortClauseEvents(ps);
    PortListRuns(text, s2, ps);
    PortClauseRuns(text, s2, ps);
    var s3 := RunFrom(text, s2, pEvents);
    RunAppend(text, s, gEvents, pEvents);
    PortFrameKeeps(s3, s2);
  }

  /** Everything of a component declaration but its `end_component` event. */
  lemma ComponentOpenRuns(text: string, s: Builder, n: string, gs: seq<GenericDecl>, ps: seq<PortDecl>)
    requires Valid(s)
    requires forall j :: 0 <= j < |gs| ==> WellFormedGeneric(gs[j])
    requires forall j :: 0 <= j < |ps| ==> WellFormedPort(text, ps[j])
    ensures CanRun(text, s, [At(Component(n))] + (GenericClauseEvents(gs) + PortClauseEvents(ps)))
    ensures var r := RunFrom(text, s, [At(Component(n))] + (GenericClauseEvents(gs) + PortClauseEvents(ps)));
      && r.generics == AllGenericParams(gs) && r.ports == AllPortParams(text, ps)
      && r.portParamIndex == CountNames(ps)
      && r.name == Some(n) && r.metacomments == s.metacomments && r.sections == []
      && r.objects == s.objects && r.shared == {}
  {
    var e0 := At(Component(n));
    RunStart(text, s, n);
    var s1 := StartComponent(s, n);
    var body := GenericClauseEvents(gs) + PortClauseEvents(ps);
    ComponentBodyRuns(text, s1, gs, ps);
    RunAppend(text, s, [e0], body);
  }

  /** A component declaration emits exactly one component record with its generics and
      its ports in declaration order and the buffered metacomments, and clears the
      metacomment target. */
  lemma ComponentDeclaration(text: string, s: Builder, n: string, gs: seq<GenericDecl>, ps: seq<PortDecl>)
    requires Valid(s)
    requires forall j :: 0 <= j < |gs| ==> WellFormedGeneric(gs[j])
    requires forall j :: 0 <= j < |ps| ==> WellFormedPort(text, ps[j])
    ensures CanRun(text, s, ComponentEvents(n, gs, ps))
    ensures var r := RunFrom(text, s, ComponentEvents(n, gs, ps));
      && r.objects == s.objects + [VhdlComponent(Some(n), AllGenericParams(gs), AllPortParams(text, ps), map[],
                                                 Some(s.metacomments))]
      && r.portParamIndex == CountNames(ps)
      && r.lastItem == NoTarget && r.metacomments == [] && r.shared == {|s.objects|}
  {
    var open := [At(Component(n))] + (GenericClauseEvents(gs) + PortClauseEvents(ps));
    ComponentOpenRuns(text, s, n, gs, ps);
    var s3 := RunFrom(text, s, open);
    RunFinish(text, s3);
    RunAppend(text, s, open, [At(EndComponent)]);
    assert ComponentEvents(n, gs, ps) == open + [At(EndComponent)];
    assert SectionMap([]) == map[];
  }

  // ---------------------------------------------------------------------------
  // Metacomments and emitted records

  /** The list a target does not point into. */
  function Other(l: ListKind): ListKind {
    if l == Generics then Ports else Generics
  }

  /** A metacomment with no target is buffered; otherwise it becomes the description of
      the target parameter, wherever that parameter is held, and nothing else changes:
      not the buffer, not the target, not the other list, not the other entries of the
      target's list, and not any record that does not hold that list. */
  lemma MetacommentGoesToBufferOrTarget(text: string, s: Builder, c: string)
    requires Valid(s)
    ensures var r := Step(text, s, At(Metacomment(c)));
      && (s.lastItem.NoTarget? ==> r == s.(metacomments := s.metacomments + [c]))
      && (!s.lastItem.NoTarget? ==>
            && |r.objects| == |s.objects|
            && r.(objects := s.objects, generics := s.generics, ports := s.ports) == s)
      && (s.lastItem.Current? ==>
            var l, i := s.lastItem.list, s.lastItem.index;
            && CurrentList(r, l) == CurrentList(s, l)[i := CurrentList(s, l)[i].(desc := Some(c))]
            && CurrentList(r, Other(l)) == CurrentList(s, Other(l))
            && (forall k :: k in r.shared ==> ListOf(r.objects[k], l) == CurrentList(r, l))
            && (forall k :: 0 <= k < |s.objects| && k !in s.shared ==> r.objects[k] == s.objects[k]))
      && (s.lastItem.Detached? ==>
            var owners, l, i := s.lastItem.owners, s.lastItem.list, s.lastItem.index;
            && r.generics == s.generics && r.ports == s.ports
            && (forall k :: k in owners ==>
                  var o := s.objects[k];
                  && r.objects[k].VhdlComponent?
                  && ListOf(r.objects[k], l) == ListOf(o, l)[i := ListOf(o, l)[i].(desc := Some(c))]
                  && ListOf(r.objects[k], Other(l)) == ListOf(o, Other(l))
                  && r.objects[k].(generics := o.generics, ports := o.ports) == o)
            && (forall k :: 0 <= k < |s.objects| && k !in owners ==> r.objects[k] == s.objects[k]))
  {
  }

  /** Once set, the metacomment target is cleared by `end_component` and by nothing else. */
  lemma OnlyEndComponentClearsTarget(text: string, s: Builder, e: Event)
    requires Valid(s) && CanStep(text, s, e) && !s.lastItem.NoTarget?
    ensures Step(text, s, e).lastItem.NoTarget? <==> e.action.EndComponent?
  {
  }

  /** The description of an emitted record: none for a package, which leaves the buffer
      alone; the buffered metacomments for every other declaration, which empties it. */
  lemma EmittedDescription(text: string, s: Builder, e: Event)
    requires Valid(s) && CanStep(text, s, e) && Emits(e.action)
    ensures var r := Step(text, s, e);
      && |r.objects| == |s.objects| + 1
      && (e.action.Package? ==> r.objects[|s.objects|].desc.None? && r.metacomments == s.metacomments)
      && (!e.action.Package? ==> r.objects[|s.objects|].desc == Some(s.metacomments) && r.metacomments == [])
  {
  }

  /** What a later event may do to an emitted record: nothing, except to a component's
      generics and ports, which it may still share with the interpreter. */
  predicate Stable(a: VhdlObject, b: VhdlObject) {
    if a.VhdlComponent? then b.VhdlComponent? && b.name == a.name && b.sections == a.sections && b.desc == a.desc
    else b == a
  }

  lemma StepKeepsRecords(text: string, s: Builder, e: Event)
    requires Valid(s) && CanStep(text, s, e)
    ensures var r := Step(text, s, e);
      |r.objects| >= |s.objects| && forall k :: 0 <= k < |s.objects| ==> Stable(s.objects[k], r.objects[k])
  {
  }

  /** Emitted packages, types, subtypes, constants, functions and procedures never change
      afterwards; an emitted component keeps its name, sections and description. */
  lemma {:induction false} RecordsStable(text: string, s: Builder, evs: seq<Event>)
    requires Valid(s) && CanRun(text, s, evs)
    ensures var r := RunFrom(text, s, evs);
      |r.objects| >= |s.objects| && forall k :: 0 <= k < |s.objects| ==> Stable(s.objects[k], r.objects[k])
    decreases |evs|
  {
    if |evs| > 0 {
      var s1 := Step(text, s, evs[0]);
      StepKeepsRecords(text, s, evs[0]);
      RecordsStable(text, s1, evs[1..]);
    }
  }

  /** A metacomment read while nothing is its target, just before a function declaration,
      joins the buffered ones in that function's description, after them. */
  lemma MetacommentBeforeFunction(text: string, s: Builder, c: string, n: string, ds: seq<ParamDecl>,
                                  rt: Option<string>)
    requires Valid(s) && s.lastItem.NoTarget?
    requires forall j :: 0 <= j < |ds| ==> WellFormedDecl(ds[j])
    ensures CanRun(text, s, [At(Metacomment(c))] + SubprogramEvents(true, n, ds, rt))
    ensures var r := RunFrom(text, s, [At(Metacomment(c))] + SubprogramEvents(true, n, ds, rt));
      && r.objects == s.objects + [VhdlFunction(Some(n), DeclaredAll(ds), rt, Some(s.metacomments + [c]))]
      && r.metacomments == [] && r.lastItem == NoTarget
  {
    var e := At(Metacomment(c));
    var s1 := s.(metacomments := s.metacomments + [c]);
    var evs := SubprogramEvents(true, n, ds, rt);
    RunOne(text, s, e);
    assert Step(text, s, e) == Attach(s, c) == s1;
    SubprogramDeclaration(text, s1, true, n, ds, rt);
    RunAppend(text, s, [e], evs);
    assert RunFrom(text, s, [e] + evs) == RunFrom(text, s1, evs);
  }
}
