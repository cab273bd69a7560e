/** The text forms of parameters and subprograms: `VhdlParameter.__str__`,
    `subprogram_prototype` and `subprogram_signature`. */
module Render {
  import opened Objects
  import opened Strings

  /** Python's `'{}'.format(x)` for a value that may be None. */
  function Show(x: Option<string>): string {
    if x.Some? then x.value else "None"
  }

  /** What `__str__` writes after the colon: the mode, when there is one, then the type. */
  function TypeText(p: VhdlParameter): string {
    (if p.mode.Some? then p.mode.value + " " else "") + Show(p.dataType)
  }

  /** `str(p)`: `name : mode type`, or `name : type` without a mode, followed by
      ` := default` when there is a default. */
  function ParamString(p: VhdlParameter): string {
    p.name + " : " + TypeText(p) + (if p.defaultValue.Some? then " := " + p.defaultValue.value else "")
  }

  /** `[str(p) for p in ps]`. */
  function ParamStrings(ps: seq<VhdlParameter>): (r: seq<string>)
    ensures |r| == |ps|
    ensures forall i :: 0 <= i < |ps| ==> r[i] == ParamString(ps[i])
  {
    if ps == [] then [] else [ParamString(ps[0])] + ParamStrings(ps[1..])
  }

  /** `'; '.join(str(p) for p in ps)`. */
  function ParamList(ps: seq<VhdlParameter>): (r: string)
    ensures ps == [] ==> r == ""
    ensures ps != [] ==> ParamString(ps[0]) <= r
  {
    Join("; ", ParamStrings(ps))
  }

  /** `[p.data_type for p in ps]`, for parameters that all have a type. */
  function DataTypes(ps: seq<VhdlParameter>): (r: seq<string>)
    requires forall i :: 0 <= i < |ps| ==> ps[i].dataType.Some?
    ensures |r| == |ps|
    ensures forall i :: 0 <= i < |ps| ==> r[i] == ps[i].dataType.value
  {
    if ps == [] then [] else [ps[0].dataType.value] + DataTypes(ps[1..])
  }

  /** `subprogram_prototype(vo)`: a function without parameters has no parentheses;
      a procedure always has them. */
  function Prototype(vo: VhdlObject): string
    requires vo.VhdlFunction? || vo.VhdlProcedure?
  {
    var plist := ParamList(vo.parameters);
    if vo.VhdlFunction? then
      if |vo.parameters| > 0 then
        "function " + Show(vo.name) + "(" + plist + ") return " + Show(vo.returnType) + ";"
      else
        "function " + Show(vo.name) + " return " + Show(vo.returnType) + ";"
    else
      "procedure " + Show(vo.name) + "(" + plist + ");"
  }

  /** The name a signature starts with: `fullname` when given, else the record's name. */
  function SignatureName(vo: VhdlObject, fullname: Option<string>): string {
    if fullname.Some? then fullname.value else Show(vo.name)
  }

  /** `subprogram_signature(vo, fullname)`: `name[t1,t2 return rt]` or `name[t1,t2]`.
      Joining fails on a parameter without a type, hence the precondition. */
  function Signature(vo: VhdlObject, fullname: Option<string>): string
    requires vo.VhdlFunction? || vo.VhdlProcedure?
    requires forall i :: 0 <= i < |vo.parameters| ==> vo.parameters[i].dataType.Some?
  {
    var name := SignatureName(vo, fullname);
    var plist := Join(",", DataTypes(vo.parameters));
    if vo.VhdlFunction? then name + "[" + plist + " return " + Show(vo.returnType) + "]"
    else name + "[" + plist + "]"
  }

  /** The rendered parameter list is empty exactly when there are no parameters. */
  lemma {:induction false} ParamListEmpty(ps: seq<VhdlParameter>)
    ensures ParamList(ps) == "" <==> ps == []
  {
    if ps != [] {
      var xs := ParamStrings(ps);
      assert |xs[0]| >= 3;
      if |xs| > 1 {
        assert Join("; ", xs) == xs[0] + "; " + Join("; ", xs[1..]);
      }
    }
  }

  /** A parameter's text splits at its colons into the name, the mode and type, and the
      default: it has a third field exactly when the parameter has a default. */
  lemma ParamStringSplits(p: VhdlParameter)
    requires ':' !in p.name && ':' !in TypeText(p)
    requires p.defaultValue.Some? ==> ':' !in p.defaultValue.value
    ensures Split(':', ParamString(p)) ==
      if p.defaultValue.Some? then [p.name + " ", " " + TypeText(p) + " ", "= " + p.defaultValue.value]
      else [p.name + " ", " " + TypeText(p)]
  {
    var t := TypeText(p);
    var tail := if p.defaultValue.Some? then " := " + p.defaultValue.value else "";
    var rest := " " + t + tail;
    assert ParamString(p) == (p.name + " ") + [':'] + rest;
    SplitAfterField(':', p.name + " ", rest);
    if p.defaultValue.Some? {
      var d := p.defaultValue.value;
      assert rest == (" " + t + " ") + [':'] + ("= " + d);
      SplitAfterField(':', " " + t + " ", "= " + d);
      SplitLastField(':', "= " + d);
    } else {
      assert rest == " " + t;
      SplitLastField(':', " " + t);
    }
  }

  /** Splitting a `'; '`-joined list at the semicolons gives back the items, every one
      after the first with the space of the separator in front. */
  lemma {:induction false} SplitJoinSpaced(xs: seq<string>)
    requires |xs| >= 1
    requires forall i :: 0 <= i < |xs| ==> ';' !in xs[i]
    ensures |Split(';', Join("; ", xs))| == |xs|
    ensures forall i :: 0 <= i < |xs| ==> Split(';', Join("; ", xs))[i] == (if i == 0 then "" else " ") + xs[i]
    decreases |xs|
  {
    if |xs| == 1 {
      SplitLastField(';', xs[0]);
    } else {
      var j := Join("; ", xs[1..]);
      assert Join("; ", xs) == xs[0] + [';'] + (" " + j);
      SplitAfterField(';', xs[0], " " + j);
      SplitJoinSpaced(xs[1..]);
      assert (" " + j)[1..] == j;
      var rest := Split(';', j);
      assert Split(';', " " + j) == [" " + rest[0]] + rest[1..];
    }
  }

  /** The prototype and the signature list the same parameters in the same order: the
      `i`-th field of the prototype's parameter list is the text of the `i`-th parameter and
      the `i`-th field of the signature's type list is its type, when no parameter text
      holds a semicolon and no type a comma. */
  lemma PrototypeAndSignatureAgree(ps: seq<VhdlParameter>)
    requires |ps| >= 1
    requires forall i :: 0 <= i < |ps| ==> ps[i].dataType.Some? && ',' !in ps[i].dataType.value
    requires forall i :: 0 <= i < |ps| ==> ';' !in ParamString(ps[i])
    ensures |Split(';', ParamList(ps))| == |Split(',', Join(",", DataTypes(ps)))| == |ps|
    ensures forall i :: 0 <= i < |ps| ==>
      Split(';', ParamList(ps))[i] == (if i == 0 then "" else " ") + ParamString(ps[i]) &&
      Split(',', Join(",", DataTypes(ps)))[i] == ps[i].dataType.value
  {
    SplitJoinSpaced(ParamStrings(ps));
    SplitJoin(',', DataTypes(ps));
  }

  /** The offset of the first `c` in `s`, or `|s|` when there is none. */
  function FirstIndex(c: char, s: string): (i: nat)
    ensures i <= |s| && c !in s[..i] && (i < |s| ==> s[i] == c)
  {
    if s == [] || s[0] == c then 0
    else
      var j := FirstIndex(c, s[1..]);
      assert s[..j + 1] == [s[0]] + s[1..][..j];
      j + 1
  }

  /** The offset of the last `c` in `s`, or -1 when there is none. */
  function LastIndex(c: char, s: string): (i: int)
    ensures -1 <= i < |s| && (i >= 0 ==> s[i] == c)
    ensures forall k :: i < k < |s| ==> s[k] != c
  {
    if s == [] then -1
    else if s[|s| - 1] == c then |s| - 1
    else LastIndex(c, s[..|s| - 1])
  }

  /** The text between the first opening and the last closing parenthesis. */
  function Parenthesised(s: string): string {
    var i, j := FirstIndex('(', s), LastIndex(')', s);
    if i < j then s[i + 1..j] else ""
  }

  lemma {:induction false} FirstIndexAfter(c: char, a: string, b: string)
    requires c !in a
    ensures FirstIndex(c, a + [c] + b) == |a|
    decreases |a|
  {
    var s := a + [c] + b;
    if a != [] {
      assert s[0] == a[0];
      assert s[1..] == a[1..] + [c] + b;
      FirstIndexAfter(c, a[1..], b);
    }
  }

  lemma {:induction false} LastIndexBefore(c: char, a: string, b: string)
    requires c !in b
    ensures LastIndex(c, a + [c] + b) == |a|
    decreases |b|
  {
    var s := a + [c] + b;
    if b != [] {
      var b' := b[..|b| - 1];
      assert s[|s| - 1] == b[|b| - 1];
      assert s[..|s| - 1] == a + [c] + b';
      LastIndexBefore(c, a, b');
    }
  }

  /** Text wrapped in a pair of parentheses, with none opening before and none closing
      after, is recovered by `Parenthesised`. */
  lemma ParenthesisedAround(head: string, mid: string, tail: string)
    requires '(' !in head && ')' !in tail
    ensures '(' in head + "(" + mid + ")" + tail
    ensures Parenthesised(head + "(" + mid + ")" + tail) == mid
  {
    var p := head + "(" + mid + ")" + tail;
    assert p == head + ['('] + (mid + [')'] + tail);
    assert p == (head + ['('] + mid) + [')'] + tail;
    FirstIndexAfter('(', head, mid + [')'] + tail);
    LastIndexBefore(')', head + ['('] + mid, tail);
    assert p[|head| + 1..|head| + 1 + |mid|] == mid;
  }

  /** A procedure prototype: parentheses around the list, always. */
  lemma ProcedureParentheses(name: string, plist: string)
    requires '(' !in name
    ensures var p := "procedure " + name + "(" + plist + ");";
      '(' in p && Parenthesised(p) == plist
  {
    var head := "procedure " + name;
    assert '(' !in "procedure ";
    assert "procedure " + name + "(" + plist + ");" == head + "(" + plist + ")" + ";";
    ParenthesisedAround(head, plist, ";");
  }

  /** A function prototype with parameters: parentheses around the list, then the return type. */
  lemma FunctionParentheses(name: string, plist: string, rt: string)
    requires '(' !in name && ')' !in rt
    ensures var p := "function " + name + "(" + plist + ") return " + rt + ";";
      '(' in p && Parenthesised(p) == plist
  {
    var head, tail := "function " + name, " return " + rt + ";";
    assert '(' !in "function ";
    assert ')' !in " return " && ')' !in ";";
    assert "function " + name + "(" + plist + ") return " + rt + ";" == head + "(" + plist + ")" + tail;
    ParenthesisedAround(head, plist, tail);
  }

  /** A function prototype without parameters has no parentheses at all. */
  lemma BareFunctionNoParentheses(name: string, rt: string)
    requires '(' !in name && '(' !in rt
    ensures '(' !in "function " + name + " return " + rt + ";"
  {
    assert '(' !in "function " && '(' !in " return " && '(' !in ";";
  }

  /** A prototype has parentheses exactly when it is a procedure or has parameters (a
      parameterless function is written without them), and what they enclose is the
      `'; '`-joined parameter list. */
  lemma PrototypeParameters(vo: VhdlObject)
    requires vo.VhdlFunction? || vo.VhdlProcedure?
    requires '(' !in Show(vo.name)
    requires vo.VhdlFunction? ==> '(' !in Show(vo.returnType) && ')' !in Show(vo.returnType)
    ensures '(' in Prototype(vo) <==> vo.VhdlProcedure? || vo.parameters != []
    ensures vo.VhdlProcedure? || vo.parameters != [] ==> Parenthesised(Prototype(vo)) == ParamList(vo.parameters)
  {
    if vo.VhdlProcedure? {
      ProcedureParentheses(Show(vo.name), ParamList(vo.parameters));
    } else if vo.parameters != [] {
      FunctionParentheses(Show(vo.name), ParamList(vo.parameters), Show(vo.returnType));
    } else {
      BareFunctionNoParentheses(Show(vo.name), Show(vo.returnType));
    }
  }

  /** A name followed by a bracketed list, the name holding no `[`. */
  lemma BracketedAfter(n: string, inner: string)
    requires '[' !in n
    ensures var sig := n + "[" + inner + "]";
      && |sig| == |n| + |inner| + 2 && FirstIndex('[', sig) == |n| && sig[..|n|] == n
      && sig[|sig| - 1] == ']' && sig[|n| + 1..|sig| - 1] == inner
  {
    var sig := n + "[" + inner + "]";
    assert sig == n + ['['] + (inner + "]");
    FirstIndexAfter('[', n, inner + "]");
    assert sig[|n| + 1..|sig| - 1] == inner;
  }

  /** `sig` reads as the name `n`, then `[`, then a comma-separated list of the types
      `ts` with `rt` after the last one, then `]`: the name ends at the first `[`, and
      what the brackets enclose splits at the commas into the types, `rt` staying on
      the last one (with no types, the brackets hold `rt` alone). */
  predicate ReadsAsSignature(sig: string, n: string, ts: seq<string>, rt: string) {
    && |sig| >= |n| + 2 && FirstIndex('[', sig) == |n| && sig[..|n|] == n && sig[|sig| - 1] == ']'
    && var inner := sig[|n| + 1..|sig| - 1];
    && (ts == [] ==> inner == rt)
    && (ts != [] ==> Split(',', inner) == ts[..|ts| - 1] + [ts[|ts| - 1] + rt])
  }

  /** A name without `[`, then the comma-joined types with `rt` after them, in brackets,
      reads back as those parts when no type and not `rt` holds a comma. */
  lemma BracketedTypes(n: string, ts: seq<string>, rt: string)
    requires '[' !in n && ',' !in rt
    requires forall i :: 0 <= i < |ts| ==> ',' !in ts[i]
    ensures ReadsAsSignature(n + "[" + (Join(",", ts) + rt) + "]", n, ts, rt)
  {
    BracketedAfter(n, Join(",", ts) + rt);
    if ts != [] {
      SplitJoinTail(',', ts, rt);
    }
  }

  /** A signature starts with its name (`fullname` when given), then `[`; between the
      brackets, split at the commas, are the parameters' types, the return clause of a
      function staying on the last one. */
  lemma SignatureDecodes(vo: VhdlObject, fullname: Option<string>)
    requires vo.VhdlFunction? || vo.VhdlProcedure?
    requires forall i :: 0 <= i < |vo.parameters| ==>
      vo.parameters[i].dataType.Some? && ',' !in vo.parameters[i].dataType.value
    requires '[' !in SignatureName(vo, fullname)
    requires vo.VhdlFunction? ==> ',' !in Show(vo.returnType)
    ensures ReadsAsSignature(Signature(vo, fullname), SignatureName(vo, fullname), DataTypes(vo.parameters),
                             if vo.VhdlFunction? then " return " + Show(vo.returnType) else "")
  {
    var n := SignatureName(vo, fullname);
    var ts := DataTypes(vo.parameters);
    var rt := if vo.VhdlFunction? then " return " + Show(vo.returnType) else "";
    if vo.VhdlFunction? {
      var plist := Join(",", ts);
      assert n + "[" + plist + " return " + Show(vo.returnType) + "]"
          == n + "[" + (plist + (" return " + Show(vo.returnType))) + "]";
      assert ',' !in " return ";
    } else {
      assert Join(",", ts) + rt == Join(",", ts);
    }
    assert Signature(vo, fullname) == n + "[" + (Join(",", ts) + rt) + "]";
    BracketedTypes(n, ts, rt);
  }
}
