/** `VhdlExtractor`: the registry of array type names that the symbol generator consults
    to tell vector ports from scalar ones, and `extract_components`. */
module Extractor {
  import opened Objects
  import opened Events
  import opened Strings
  import opened Interpreter

  /** The array types every extractor starts with. */
  const StandardArrayTypes: set<string> :=
    {"std_ulogic_vector", "std_logic_vector", "signed", "unsigned", "bit_vector"}

  /** The names of the declared types whose definition is an array. */
  function ArrayTypeNames(objects: seq<VhdlObject>): (r: set<string>)
    ensures forall n :: n in r <==>
      exists j :: 0 <= j < |objects| && objects[j] == VhdlType(Some(n), ArrayType, objects[j].desc)
  {
    if objects == [] then {}
    else
      var o := objects[|objects| - 1];
      var rest := ArrayTypeNames(objects[..|objects| - 1]);
      assert forall j :: 0 <= j < |objects| - 1 ==> objects[..|objects| - 1][j] == objects[j];
      if o.VhdlType? && o.typeOf == ArrayType && o.name.Some? then rest + {o.name.value} else rest
  }

  /** `{o.name: o.base_type for o in objects if isinstance(o, VhdlSubtype)}`: a later
      subtype of the same name replaces an earlier one (see `SubtypeMapLastWins`). */
  function SubtypeMap(objects: seq<VhdlObject>): (r: map<string, string>)
    ensures forall j :: 0 <= j < |objects| && objects[j].VhdlSubtype? && objects[j].name.Some? ==>
      objects[j].name.value in r
  {
    if objects == [] then map[]
    else
      var o := objects[|objects| - 1];
      var rest := SubtypeMap(objects[..|objects| - 1]);
      assert forall j :: 0 <= j < |objects| - 1 ==> objects[..|objects| - 1][j] == objects[j];
      if o.VhdlSubtype? && o.name.Some? then rest[o.name.value := o.baseType] else rest
  }

  /** Every key of the map comes from a subtype, and its base is that of the last subtype
      of that name. */
  lemma {:induction false} SubtypeMapLastWins(objects: seq<VhdlObject>, n: string) returns (j: nat)
    requires n in SubtypeMap(objects)
    ensures j < |objects| && objects[j].VhdlSubtype? && objects[j].name == Some(n)
    ensures objects[j].baseType == SubtypeMap(objects)[n]
    ensures forall j' :: j < j' < |objects| ==> !(objects[j'].VhdlSubtype? && objects[j'].name == Some(n))
    decreases |objects|
  {
    var init := objects[..|objects| - 1];
    var o := objects[|objects| - 1];
    if o.VhdlSubtype? && o.name == Some(n) {
      j := |objects| - 1;
    } else {
      j := SubtypeMapLastWins(init, n);
      assert objects[j] == init[j];
      assert forall j' :: j < j' < |objects| - 1 ==> objects[j'] == init[j'];
    }
  }

  /** The end of the chain of bases from `v` (`while v in subtypes: v = subtypes[v]`),
      when it ends within `fuel` steps. */
  function Follow(m: map<string, string>, v: string, fuel: nat): (r: Option<string>)
    ensures r.Some? ==> r.value !in m
    decreases fuel
  {
    if v !in m then Some(v) else if fuel == 0 then None else Follow(m, m[v], fuel - 1)
  }

  /** Every subtype's chain of bases ends; a chain that visits no key twice has at most
      `|m|` steps. */
  predicate Acyclic(m: map<string, string>) {
    forall k :: k in m ==> Follow(m, m[k], |m|).Some?
  }

  /** The non-subtype name the chain from `k`'s base ends at. */
  function ChainEnd(m: map<string, string>, k: string): (r: string)
    requires Acyclic(m) && k in m
    ensures r !in m
  {
    Follow(m, m[k], |m|).value
  }

  /** The subtypes among `keys` whose chain of bases ends in `base`. */
  function ChainedTo(m: map<string, string>, base: set<string>, keys: set<string>): (r: set<string>)
    requires Acyclic(m) && keys <= m.Keys
    ensures r <= keys
    ensures forall k :: k in keys ==> (k in r <==> ChainEnd(m, k) in base)
  {
    set k | k in keys && ChainEnd(m, k) in base
  }

  /** The registry after `register_array_types(objects)`. */
  function Registered(known: set<string>, objects: seq<VhdlObject>): set<string>
    requires Acyclic(SubtypeMap(objects))
  {
    var m := SubtypeMap(objects);
    var base := known + ArrayTypeNames(objects);
    base + ChainedTo(m, base, m.Keys)
  }

  /** More fuel reaches the same end. */
  lemma {:induction false} FollowMoreFuel(m: map<string, string>, v: string, fuel: nat, more: nat)
    requires Follow(m, v, fuel).Some? && fuel <= more
    ensures Follow(m, v, more) == Follow(m, v, fuel)
    decreases fuel
  {
    if v in m {
      FollowMoreFuel(m, m[v], fuel - 1, more - 1);
    }
  }

  /** A subtype of a subtype ends where its base ends. */
  lemma SubtypeOfSubtype(m: map<string, string>, k: string)
    requires Acyclic(m) && k in m && m[k] in m
    ensures ChainEnd(m, k) == ChainEnd(m, m[k])
  {
    FollowMoreFuel(m, m[m[k]], |m| - 1, |m|);
  }

  /** `register_array_types` never removes a name, adds every array type, and adds a
      subtype exactly when its chain of bases ends at a name already known or an array
      type; a name that is neither is added only if it is a subtype. */
  lemma RegisteredContents(known: set<string>, objects: seq<VhdlObject>)
    requires Acyclic(SubtypeMap(objects))
    ensures known <= Registered(known, objects)
    ensures ArrayTypeNames(objects) <= Registered(known, objects)
    ensures var m := SubtypeMap(objects);
      forall k :: k in m ==>
        (k in Registered(known, objects) <==>
           k in known || k in ArrayTypeNames(objects) || ChainEnd(m, k) in known + ArrayTypeNames(objects))
    ensures forall n :: n in Registered(known, objects) ==>
      n in known || n in ArrayTypeNames(objects) || n in SubtypeMap(objects)
  {
  }

  /** Registering the same declarations twice adds nothing: a chain ends at a name that
      is not a subtype, and only subtypes are added by the chain rule. */
  lemma RegisterIdempotent(known: set<string>, objects: seq<VhdlObject>)
    requires Acyclic(SubtypeMap(objects))
    ensures Registered(Registered(known, objects), objects) == Registered(known, objects)
  {
    var m := SubtypeMap(objects);
    var base := known + ArrayTypeNames(objects);
    var once := Registered(known, objects);
    assert forall k :: k in m ==> (ChainEnd(m, k) in once + ArrayTypeNames(objects) <==> ChainEnd(m, k) in base);
  }

  /** `is_array` with an explicit registry: only the query is lower-cased. */
  predicate IsArrayIn(types: set<string>, dataType: string) {
    Lower(dataType) in types
  }

  lemma {:induction false} LowerIdempotent(s: string)
    ensures Lower(Lower(s)) == Lower(s)
  {
    assert forall i :: 0 <= i < |s| ==> Lower(Lower(s))[i] == Lower(s)[i];
  }

  /** The test ignores the case of the query, and a registered name with an upper-case
      letter never matches anything. */
  lemma IsArrayCaseFolded(types: set<string>, dataType: string)
    ensures IsArrayIn(types, dataType) <==> IsArrayIn(types, Lower(dataType))
    ensures IsArrayIn(types, dataType) <==> Lower(dataType) in (set n | n in types && !HasUpper(n))
  {
    LowerIdempotent(dataType);
    assert !HasUpper(Lower(dataType));
  }

  /** A subtype whose name has an upper-case letter is registered through its chain of
      bases, yet `is_array` never finds it: only the query is lower-cased. */
  lemma UpperCaseSubtypeNeverMatches(objects: seq<VhdlObject>)
    requires objects == [VhdlSubtype(Some("B"), "std_logic_vector", None), VhdlSubtype(Some("C"), "B", None)]
    ensures Acyclic(SubtypeMap(objects))
    ensures "C" in Registered(StandardArrayTypes, objects)
    ensures !IsArrayIn(Registered(StandardArrayTypes, objects), "C")
  {
    TwoSubtypes(objects);
    var m := SubtypeMap(objects);
    TwoSubtypesChain(m);
    var q := Lower("C");
    assert |q| == 1 && q[0] == 'c';
    ChainedOnlyFromKeys(StandardArrayTypes, objects, "C", q);
  }

  /** A subtype whose chain ends at a known name is registered; a name that is neither
      known nor a subtype is not. */
  lemma ChainedOnlyFromKeys(known: set<string>, objects: seq<VhdlObject>, k: string, q: string)
    requires Acyclic(SubtypeMap(objects)) && ArrayTypeNames(objects) == {}
    requires k in SubtypeMap(objects) && ChainEnd(SubtypeMap(objects), k) in known
    requires q !in known && q !in SubtypeMap(objects)
    ensures k in Registered(known, objects) && q !in Registered(known, objects)
  {
  }

  lemma TwoSubtypes(objects: seq<VhdlObject>)
    requires objects == [VhdlSubtype(Some("B"), "std_logic_vector", None), VhdlSubtype(Some("C"), "B", None)]
    ensures SubtypeMap(objects) == map["B" := "std_logic_vector", "C" := "B"]
    ensures ArrayTypeNames(objects) == {}
  {
    assert objects[..1] == [objects[0]];
    assert objects[..1][..0] == [];
    assert SubtypeMap(objects[..1]) == map["B" := "std_logic_vector"];
  }

  lemma TwoSubtypesChain(m: map<string, string>)
    requires m == map["B" := "std_logic_vector", "C" := "B"]
    ensures Acyclic(m) && ChainEnd(m, "C") == "std_logic_vector"
  {
    assert "std_logic_vector" !in m;
    assert m.Keys == {"B", "C"};
    assert Follow(m, "B", 1) == Some("std_logic_vector");
    assert Follow(m, "B", 2) == Some("std_logic_vector");
    assert Follow(m, "std_logic_vector", 2) == Some("std_logic_vector");
  }

  /** The inner loop of `register_array_types`: follows the bases from `k` until a
      name that is not a subtype. */
  method FollowChain(subtypes: map<string, string>, k: string) returns (v: string)
    requires Acyclic(subtypes) && k in subtypes
    ensures v == ChainEnd(subtypes, k) && v !in subtypes
  {
    v := subtypes[k];
    ghost var fuel: nat := |subtypes|;
    while v in subtypes
      invariant Follow(subtypes, v, fuel) == Follow(subtypes, subtypes[k], |subtypes|)
      decreases fuel
    {
      v := subtypes[v];
      fuel := fuel - 1;
    }
  }

  /** Adding one more key to the ones examined adds it exactly when its chain ends in `base`. */
  lemma ChainedToStep(m: map<string, string>, base: set<string>, done: set<string>, k: string)
    requires Acyclic(m) && done <= m.Keys && k in m
    ensures ChainedTo(m, base, done + {k})
            == ChainedTo(m, base, done) + (if ChainEnd(m, k) in base then {k} else {})
  {
  }

  class VhdlExtractor {
    /** `self.array_types`. */
    var arrayTypes: set<string>

    /** `VhdlExtractor(array_types)`. */
    constructor (initial: set<string>)
      ensures arrayTypes == StandardArrayTypes + initial
    {
      arrayTypes := StandardArrayTypes + initial;
    }

    /** `is_array(data_type)`. */
    predicate IsArray(dataType: string)
      reads this
    {
      IsArrayIn(arrayTypes, dataType)
    }

    /** `add_array_types(type_defs)`: the list under `arrays`, when there is one, is merged in. */
    method AddArrayTypes(typeDefs: map<string, seq<string>>)
      modifies this
      ensures arrayTypes == old(arrayTypes) + (if "arrays" in typeDefs then set n | n in typeDefs["arrays"] else {})
    {
      if "arrays" in typeDefs {
        arrayTypes := arrayTypes + set n | n in typeDefs["arrays"];
      }
    }

    /** `register_array_types(objects)`: the array types first, then every subtype, in
        any order, whose chain of bases ends at a registered name. */
    method RegisterArrayTypes(objects: seq<VhdlObject>)
      requires Acyclic(SubtypeMap(objects))
      modifies this
      ensures arrayTypes == Registered(old(arrayTypes), objects)
    {
      AddDeclaredArrays(objects);
      var subtypes := SubtypeMap(objects);
      ghost var base := arrayTypes;
      var remaining := subtypes.Keys;
      while remaining != {}
        invariant remaining <= subtypes.Keys
        invariant arrayTypes == base + ChainedTo(subtypes, base, subtypes.Keys - remaining)
        decreases remaining
      {
        var k :| k in remaining;
        ghost var done := subtypes.Keys - remaining;
        AddIfArraySubtype(subtypes, k, base, done);
        remaining := remaining - {k};
        assert subtypes.Keys - remaining == done + {k};
      }
      assert subtypes.Keys - remaining == subtypes.Keys;
    }

    /** One iteration of the second loop of `register_array_types`: the subtype `k` is
        added when its chain of bases ends at a registered name. */
    method AddIfArraySubtype(subtypes: map<string, string>, k: string, ghost base: set<string>,
                             ghost done: set<string>)
      requires Acyclic(subtypes) && done <= subtypes.Keys && k in subtypes
      requires arrayTypes == base + ChainedTo(subtypes, base, done)
      modifies this
      ensures arrayTypes == base + ChainedTo(subtypes, base, done + {k})
    {
      var v := FollowChain(subtypes, k);
      ChainedToStep(subtypes, base, done, k);
      // v is not a subtype, so the subtypes added so far do not affect this test.
      assert v in arrayTypes <==> v in base;
      if v in arrayTypes {
        arrayTypes := arrayTypes + {k};
      }
    }

    /** The first loop of `register_array_types`: every declared array type. */
    method AddDeclaredArrays(objects: seq<VhdlObject>)
      modifies this
      ensures arrayTypes == old(arrayTypes) + ArrayTypeNames(objects)
    {
      for i := 0 to |objects|
        invariant arrayTypes == old(arrayTypes) + ArrayTypeNames(objects[..i])
      {
        var o := objects[i];
        ghost var pre := objects[..i + 1];
        assert pre[..|pre| - 1] == objects[..i] && pre[|pre| - 1] == o;
        assert ArrayTypeNames(pre) == ArrayTypeNames(objects[..i])
          + (if o.VhdlType? && o.typeOf == ArrayType && o.name.Some? then {o.name.value} else {});
        if o.VhdlType? && o.typeOf == ArrayType && o.name.Some? {
          arrayTypes := arrayTypes + {o.name.value};
        }
      }
      assert objects[..|objects|] == objects;
    }

    /** `extract_components(text)`, given the events the lexer produces from `text`. */
    method ExtractComponents(text: string, events: seq<Event>) returns (comps: seq<VhdlObject>)
      requires Parses(text, events) && Acyclic(SubtypeMap(Parse(text, events)))
      modifies this
      ensures comps == Components(Parse(text, events))
      ensures arrayTypes == Registered(old(arrayTypes), Parse(text, events))
    {
      var objects := ParseVhdl(text, events);
      RegisterArrayTypes(objects);
      comps := Components(objects);
    }
  }
}
