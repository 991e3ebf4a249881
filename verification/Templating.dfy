/**
 Command arguments: the ${name} templates (pkg/dut/templating.go), the argument
 list of each module (pkg/dut/dut.go) and what loading a command has already
 checked (pkg/dut/config.go).
 */
module Templating {
  import opened Base

  datatype Module = Module(name: string, passthrough: bool, args: seq<string>)

  /** argNames are the declared arguments, in declaration order; a name may be declared twice. */
  datatype Command = Command(argNames: seq<string>, modules: seq<Module>)

  // ---------------------------------------------------------------- references

  predicate IsNameChar(c: char)
  {
    'a' <= c <= 'z' || 'A' <= c <= 'Z' || '0' <= c <= '9' || c == '_' || c == '-'
  }

  predicate IsName(n: string) { n != [] && forall i :: 0 <= i < |n| ==> IsNameChar(n[i]) }

  function RefText(name: string): (r: string) { "${" + name + "}" }

  /** w is one whole reference. */
  predicate IsRef(w: string)
  {
    |w| >= 4 && w[0] == '$' && w[1] == '{' && w[|w| - 1] == '}' && IsName(w[2..|w| - 1])
  }

  function NameEnd(s: string, k: nat): (p: nat)
    requires k <= |s|
    ensures k <= p <= |s| && (p < |s| ==> !IsNameChar(s[p]))
    ensures forall i :: k <= i < p ==> IsNameChar(s[i])
    decreases |s| - k
  {
    if k < |s| && IsNameChar(s[k]) then NameEnd(s, k + 1) else k
  }

  /** The length of the reference at the front of s, 0 if there is none. */
  function RefLen(s: string): (n: nat)
    ensures n <= |s| && (n > 0 ==> IsRef(s[..n]))
  {
    if |s| < 4 || s[0] != '$' || s[1] != '{' then 0
    else
      var p := NameEnd(s, 2);
      if 2 < p < |s| && s[p] == '}' then
        assert s[..p + 1][2..p] == s[2..p];
        p + 1
      else 0
  }

  lemma RefLenUnique(s: string, n: nat)
    requires n <= |s| && IsRef(s[..n])
    ensures RefLen(s) == n
  {
    var w := s[..n];
    var name := w[2..n - 1];
    assert forall i :: 2 <= i < n - 1 ==> s[i] == name[i - 2];
    NameEndAt(s, 2, n - 1);
  }

  lemma {:induction false} NameEndAt(s: string, k: nat, p: nat)
    requires k <= p <= |s| && (p < |s| ==> !IsNameChar(s[p]))
    requires forall i :: k <= i < p ==> IsNameChar(s[i])
    ensures NameEnd(s, k) == p
    decreases p - k
  {
    if k < p { NameEndAt(s, k + 1, p); }
  }

  datatype Segment = Lit(c: char) | Ref(name: string)

  /** segs reads s left to right: a reference wherever one starts, a literal character everywhere else. */
  ghost predicate Segmented(s: string, segs: seq<Segment>)
    decreases |segs|
  {
    if segs == [] then s == []
    else match segs[0]
      case Lit(c) =>
        s != [] && s[0] == c && (forall n :: 0 <= n <= |s| ==> !IsRef(s[..n])) && Segmented(s[1..], segs[1..])
      case Ref(name) =>
        var w := RefText(name);
        IsName(name) && |w| <= |s| && s[..|w|] == w && Segmented(s[|w|..], segs[1..])
  }

  function Segments(s: string): (r: seq<Segment>)
    decreases |s|
  {
    if s == [] then []
    else if RefLen(s) == 0 then [Lit(s[0])] + Segments(s[1..])
    else [Ref(s[2..RefLen(s) - 1])] + Segments(s[RefLen(s)..])
  }

  lemma RefParts(w: string)
    requires IsRef(w)
    ensures w == RefText(w[2..|w| - 1])
  {
  }

  lemma RefTextIsRef(name: string)
    requires IsName(name)
    ensures IsRef(RefText(name)) && RefText(name)[2..|name| + 2] == name
  {
    assert RefText(name)[2..|RefText(name)| - 1] == name;
  }

  lemma {:induction false} SegmentsRead(s: string)
    ensures Segmented(s, Segments(s))
    decreases |s|
  {
    if s != [] {
      var segs, n := Segments(s), RefLen(s);
      if n == 0 {
        SegmentsRead(s[1..]);
        assert segs[1..] == Segments(s[1..]);
        forall k | 0 <= k <= |s| ensures !IsRef(s[..k]) {
          if IsRef(s[..k]) { RefLenUnique(s, k); }
        }
      } else {
        SegmentsRead(s[n..]);
        assert segs[1..] == Segments(s[n..]);
        RefParts(s[..n]);
        assert s[..n][2..n - 1] == s[2..n - 1];
      }
    }
  }

  /** There is one reading of a text. */
  lemma {:induction false} SegmentationUnique(s: string, segs: seq<Segment>)
    requires Segmented(s, segs)
    ensures segs == Segments(s)
    decreases |segs|
  {
    if segs != [] {
      var n := if segs[0].Lit? then 1 else |RefText(segs[0].name)|;
      if segs[0].Lit? { FirstLit(s); } else { FirstRef(s, segs[0].name); }
      SegmentationUnique(s[n..], segs[1..]);
      assert segs == [segs[0]] + segs[1..];
    }
  }

  lemma FirstLit(s: string)
    requires s != [] && forall n :: 0 <= n <= |s| ==> !IsRef(s[..n])
    ensures Segments(s) == [Lit(s[0])] + Segments(s[1..])
  {
    assert RefLen(s) == 0;
  }

  lemma FirstRef(s: string, name: string)
    requires IsName(name) && |RefText(name)| <= |s| && s[..|RefText(name)|] == RefText(name)
    ensures Segments(s) == [Ref(name)] + Segments(s[|RefText(name)|..])
  {
    var n := |RefText(name)|;
    RefTextIsRef(name);
    RefLenUnique(s, n);
    assert s[..n][2..n - 1] == s[2..n - 1];
  }

  /** The referenced names of a text, in order (extractTemplateReferences). */
  function References(s: string): (r: seq<string>) { Names(Segments(s)) }

  function Names(segs: seq<Segment>): (r: seq<string>)
  {
    if segs == [] then []
    else (match segs[0] case Lit(_) => [] case Ref(n) => [n]) + Names(segs[1..])
  }

  lemma {:induction false} NamesConcat(a: seq<Segment>, b: seq<Segment>)
    ensures Names(a + b) == Names(a) + Names(b)
  {
    if a == [] {
      assert a + b == b;
    } else {
      NamesConcat(a[1..], b);
      assert (a + b)[0] == a[0] && (a + b)[1..] == a[1..] + b;
      Regroup(match a[0] case Lit(_) => [] case Ref(n) => [n], Names(a[1..]), Names(b));
    }
  }

  /** Each reference gives its name, in its place among the others, and nothing else gives any. */
  lemma ReferencesInPlace(s: string, i: nat)
    requires i < |Segments(s)|
    ensures var (before, after) := (Names(Segments(s)[..i]), Names(Segments(s)[i + 1..]));
      References(s) == (before + (match Segments(s)[i] case Lit(_) => [] case Ref(n) => [n])) + after
  {
    var segs := Segments(s);
    var one := [segs[i]];
    assert segs == (segs[..i] + one) + segs[i + 1..];
    NamesConcat(segs[..i] + one, segs[i + 1..]);
    NamesConcat(segs[..i], one);
    assert one[1..] == [] && Names([]) == [];
  }

  // -------------------------------------------------------------- substitution

  /** The value of the last declaration of a name. */
  function LastValue(names: seq<string>, values: seq<string>, name: string): (v: string)
    requires |names| == |values| && name in names
  {
    var last := |names| - 1;
    if names[last] == name then values[last] else LastValue(names[..last], values[..last], name)
  }

  /** v stands at the last place where the name is declared. */
  ghost predicate ByPosition(names: seq<string>, values: seq<string>, name: string, v: string)
    requires |names| == |values|
  {
    exists k :: 0 <= k < |names| && names[k] == name && values[k] == v && name !in names[k + 1..]
  }

  lemma {:induction false} LastValueByPosition(names: seq<string>, values: seq<string>, name: string)
    requires |names| == |values| && name in names
    ensures ByPosition(names, values, name, LastValue(names, values, name))
  {
    var last := |names| - 1;
    if names[last] == name {
      assert names[last + 1..] == [];
    } else {
      var front := names[..last];
      LastValueByPosition(front, values[..last], name);
      var k :| 0 <= k < |front| && front[k] == name && values[..last][k] == LastValue(names, values, name)
               && name !in front[k + 1..];
      assert names[k + 1..] == front[k + 1..] + [names[last]];
    }
  }

  /**
   The meaning of a template: each declared reference replaced by its value, everything else as it
   stands, in one pass.
   */
  function Expand(segs: seq<Segment>, names: seq<string>, values: seq<string>): (r: string)
    requires |names| == |values|
  {
    if segs == [] then []
    else
      (match segs[0]
       case Lit(c) => [c]
       case Ref(n) => if n in names then LastValue(names, values, n) else RefText(n))
      + Expand(segs[1..], names, values)
  }

  /** What the substitution callback does with the table: unknown references stay as they are. */
  function Replace(segs: seq<Segment>, table: map<string, string>): (r: string)
  {
    if segs == [] then []
    else
      (match segs[0] case Lit(c) => [c] case Ref(n) => if n in table then table[n] else RefText(n))
      + Replace(segs[1..], table)
  }

  ghost predicate IsTable(table: map<string, string>, names: seq<string>, values: seq<string>)
    requires |names| == |values|
  {
    && (forall n :: n in table <==> n in names)
    && (forall n :: n in names ==> table[n] == LastValue(names, values, n))
  }

  lemma {:induction false} ReplaceExpands(segs: seq<Segment>, table: map<string, string>, names: seq<string>,
                                         values: seq<string>)
    requires |names| == |values| && IsTable(table, names, values)
    ensures Replace(segs, table) == Expand(segs, names, values)
  {
    if segs != [] { ReplaceExpands(segs[1..], table, names, values); }
  }

  lemma {:induction false} NamesOfRefs(segs: seq<Segment>, i: nat)
    requires i < |segs| && segs[i].Ref?
    ensures segs[i].name in Names(segs)
  {
    if i > 0 { NamesOfRefs(segs[1..], i - 1); }
  }

  /** A text without references means itself. */
  lemma {:induction false} NoReferencesExpand(s: string, names: seq<string>, values: seq<string>)
    requires |names| == |values| && References(s) == []
    ensures forall i :: 0 <= i < |Segments(s)| ==> Segments(s)[i].Lit?
    ensures Expand(Segments(s), names, values) == s
    decreases |s|
  {
    if s != [] {
      var segs := Segments(s);
      assert segs[0].Lit?;
      assert segs[1..] == Segments(s[1..]);
      NoReferencesExpand(s[1..], names, values);
      assert s == [s[0]] + s[1..];
      assert Names(segs) == [] + Names(segs[1..]);
    }
  }

  // ------------------------------------------------------------------ load checks

  function CountPassthrough(modules: seq<Module>): (n: nat)
  {
    if modules == [] then 0
    else CountPassthrough(modules[..|modules| - 1]) + (if modules[|modules| - 1].passthrough then 1 else 0)
  }

  predicate HasPassthrough(c: Command) { CountPassthrough(c.modules) > 0 }

  lemma {:induction false} CountedPassthrough(modules: seq<Module>)
    ensures CountPassthrough(modules) > 0 <==> exists i :: 0 <= i < |modules| && modules[i].passthrough
  {
    if modules != [] {
      var front := modules[..|modules| - 1];
      CountedPassthrough(front);
      assert forall i :: 0 <= i < |front| ==> front[i] == modules[i];
    }
  }

  /** And more than one exactly when two places have one. */
  lemma {:induction false} CountedTwice(modules: seq<Module>)
    ensures CountPassthrough(modules) > 1
       <==> exists i, j :: 0 <= i < j < |modules| && modules[i].passthrough && modules[j].passthrough
  {
    if modules != [] {
      var front, last := modules[..|modules| - 1], |modules| - 1;
      CountedTwice(front);
      CountedPassthrough(front);
      assert forall i :: 0 <= i < |front| ==> front[i] == modules[i];
      if modules[last].passthrough && CountPassthrough(front) > 0 {
        var i :| 0 <= i < |front| && front[i].passthrough;
        assert modules[i].passthrough && modules[last].passthrough;
      }
    }
  }

  datatype LoadError =
    | NoModules
    | MultiplePassthrough
    | PassthroughWithCommandArgs
    | PassthroughModuleWithArgs
    | UndefinedReference(name: string)

  predicate Declared(refs: seq<string>, names: seq<string>) { forall i :: 0 <= i < |refs| ==> refs[i] in names }

  /** Every reference in a static argument names a declared argument. */
  predicate ReferencesDeclared(c: Command)
  {
    forall i :: 0 <= i < |c.modules| && !c.modules[i].passthrough ==> ModuleDeclared(c.modules[i], c.argNames)
  }

  predicate ModuleDeclared(m: Module, names: seq<string>)
  {
    forall j :: 0 <= j < |m.args| ==> Declared(References(m.args[j]), names)
  }

  /** The references of arguments, and of all modules that have static ones, in the order they stand. */
  function ArgReferences(args: seq<string>): (r: seq<string>)
  {
    if args == [] then [] else ArgReferences(args[..|args| - 1]) + References(args[|args| - 1])
  }

  function ModuleReferences(m: Module): (r: seq<string>) { if m.passthrough then [] else ArgReferences(m.args) }

  function AllReferences(modules: seq<Module>): (r: seq<string>)
  {
    if modules == [] then [] else AllReferences(modules[..|modules| - 1]) + ModuleReferences(modules[|modules| - 1])
  }

  /** name is the first of the references that is not declared. */
  ghost predicate FirstUndeclared(refs: seq<string>, names: seq<string>, name: string)
  {
    name !in names && exists n :: 0 <= n < |refs| && refs[n] == name && Declared(refs[..n], names)
  }

  lemma ArgReferencesSnoc(args: seq<string>, j: nat)
    requires j < |args|
    ensures ArgReferences(args[..j + 1]) == ArgReferences(args[..j]) + References(args[j])
  {
    assert args[..j + 1][..j] == args[..j];
  }

  lemma AllReferencesSnoc(modules: seq<Module>, i: nat)
    requires i < |modules|
    ensures AllReferences(modules[..i + 1]) == AllReferences(modules[..i]) + ModuleReferences(modules[i])
  {
    assert modules[..i + 1][..i] == modules[..i];
  }

  lemma {:induction false} ArgReferencesPrefix(args: seq<string>, j: nat)
    requires j <= |args|
    ensures ArgReferences(args[..j]) <= ArgReferences(args)
    decreases |args| - j
  {
    if j == |args| {
      assert args[..j] == args;
    } else {
      ArgReferencesSnoc(args, j);
      ArgReferencesPrefix(args, j + 1);
    }
  }

  lemma {:induction false} AllReferencesPrefix(modules: seq<Module>, i: nat)
    requires i <= |modules|
    ensures AllReferences(modules[..i]) <= AllReferences(modules)
    decreases |modules| - i
  {
    if i == |modules| {
      assert modules[..i] == modules;
    } else {
      AllReferencesSnoc(modules, i);
      AllReferencesPrefix(modules, i + 1);
    }
  }

  lemma DeclaredBoth(a: seq<string>, b: seq<string>, names: seq<string>)
    ensures Declared(a + b, names) <==> Declared(a, names) && Declared(b, names)
  {
    assert forall i :: 0 <= i < |a| ==> (a + b)[i] == a[i];
    assert forall i :: 0 <= i < |b| ==> (a + b)[|a| + i] == b[i];
  }

  lemma {:induction false} DeclaredArgs(args: seq<string>, names: seq<string>)
    ensures Declared(ArgReferences(args), names)
       <==> forall j :: 0 <= j < |args| ==> Declared(References(args[j]), names)
  {
    if args != [] {
      var front := args[..|args| - 1];
      DeclaredArgs(front, names);
      DeclaredBoth(ArgReferences(front), References(args[|args| - 1]), names);
      assert forall j :: 0 <= j < |front| ==> front[j] == args[j];
    }
  }

  lemma {:induction false} DeclaredModules(modules: seq<Module>, names: seq<string>)
    ensures Declared(AllReferences(modules), names)
       <==> forall i :: 0 <= i < |modules| && !modules[i].passthrough ==> ModuleDeclared(modules[i], names)
  {
    if modules != [] {
      var front, last := modules[..|modules| - 1], modules[|modules| - 1];
      DeclaredModules(front, names);
      DeclaredBoth(AllReferences(front), ModuleReferences(last), names);
      DeclaredArgs(last.args, names);
      assert forall i :: 0 <= i < |front| ==> front[i] == modules[i];
    }
  }

  /** What follows the first undeclared name, or comes declared before it, does not matter. */
  lemma FirstAmong(before: seq<string>, refs: seq<string>, all: seq<string>, k: nat, names: seq<string>)
    requires before + refs <= all && k < |refs|
    requires Declared(before, names) && Declared(refs[..k], names) && refs[k] !in names
    ensures FirstUndeclared(all, names, refs[k])
  {
    DeclaredBoth(before, refs[..k], names);
    assert all[..|before| + k] == before + refs[..k];
    assert all[|before| + k] == refs[k];
  }

  lemma FirstInOrder(modules: seq<Module>, i: nat, j: nat, k: nat, names: seq<string>)
    requires i < |modules| && !modules[i].passthrough && j < |modules[i].args| && k < |References(modules[i].args[j])|
    requires Declared(AllReferences(modules[..i]), names) && Declared(ArgReferences(modules[i].args[..j]), names)
    requires Declared(References(modules[i].args[j])[..k], names) && References(modules[i].args[j])[k] !in names
    ensures FirstUndeclared(AllReferences(modules), names, References(modules[i].args[j])[k])
  {
    var a, b := AllReferences(modules[..i]), ArgReferences(modules[i].args[..j]);
    DeclaredBoth(a, b, names);
    ReferencesPrefix(modules, i, j);
    FirstAmong(a + b, References(modules[i].args[j]), AllReferences(modules), k, names);
  }

  lemma ReferencesPrefix(modules: seq<Module>, i: nat, j: nat)
    requires i < |modules| && !modules[i].passthrough && j < |modules[i].args|
    ensures (AllReferences(modules[..i]) + ArgReferences(modules[i].args[..j])) + References(modules[i].args[j])
         <= AllReferences(modules)
  {
    var a, b := AllReferences(modules[..i]), ArgReferences(modules[i].args[..j]);
    ArgReferencesSnoc(modules[i].args, j);
    ArgReferencesPrefix(modules[i].args, j + 1);
    AllReferencesSnoc(modules, i);
    AllReferencesPrefix(modules, i + 1);
    Regroup(a, b, References(modules[i].args[j]));
  }

  /** Passthrough modules take no arguments of their own. */
  predicate PassthroughBare(c: Command)
  {
    forall i :: 0 <= i < |c.modules| && c.modules[i].passthrough ==> c.modules[i].args == []
  }

  /** A command that loading has accepted. */
  predicate Loaded(c: Command)
  {
    && c.modules != []
    && CountPassthrough(c.modules) <= 1
    && !(HasPassthrough(c) && c.argNames != [])
    && PassthroughBare(c)
    && ReferencesDeclared(c)
  }

  method CountPassthroughModules(modules: seq<Module>) returns (count: nat)
    ensures count == CountPassthrough(modules)
  {
    count := 0;
    for i := 0 to |modules|
      invariant count == CountPassthrough(modules[..i])
    {
      assert modules[..i + 1][..i] == modules[..i];
      if modules[i].passthrough {
        count := count + 1;
      }
    }
    assert modules[..|modules|] == modules;
  }

  /**
   The references of everything before argument j of module i, and of those, the first k of that
   argument, are declared.
   */
  ghost predicate DeclaredUpTo(c: Command, i: nat, j: nat, k: nat)
    requires i < |c.modules| && j < |c.modules[i].args| && k <= |References(c.modules[i].args[j])|
  {
    && Declared(AllReferences(c.modules[..i]), c.argNames)
    && Declared(ArgReferences(c.modules[i].args[..j]), c.argNames)
    && Declared(References(c.modules[i].args[j])[..k], c.argNames)
  }

  lemma UndeclaredFound(c: Command, i: nat, j: nat, k: nat)
    requires i < |c.modules| && !c.modules[i].passthrough && j < |c.modules[i].args|
    requires k < |References(c.modules[i].args[j])| && References(c.modules[i].args[j])[k] !in c.argNames
    requires DeclaredUpTo(c, i, j, k)
    ensures FirstUndeclared(AllReferences(c.modules), c.argNames, References(c.modules[i].args[j])[k])
    ensures !ReferencesDeclared(c)
  {
    FirstInOrder(c.modules, i, j, k, c.argNames);
    DeclaredModules(c.modules, c.argNames);
  }

  lemma ArgumentDone(c: Command, i: nat, j: nat)
    requires i < |c.modules| && j < |c.modules[i].args|
    requires DeclaredUpTo(c, i, j, |References(c.modules[i].args[j])|)
    ensures Declared(ArgReferences(c.modules[i].args[..j + 1]), c.argNames)
  {
    var refs := References(c.modules[i].args[j]);
    assert refs[..|refs|] == refs;
    ArgReferencesSnoc(c.modules[i].args, j);
    DeclaredBoth(ArgReferences(c.modules[i].args[..j]), refs, c.argNames);
  }

  lemma ModuleDone(c: Command, i: nat)
    requires i < |c.modules| && Declared(AllReferences(c.modules[..i]), c.argNames)
    requires c.modules[i].passthrough || Declared(ArgReferences(c.modules[i].args), c.argNames)
    ensures Declared(AllReferences(c.modules[..i + 1]), c.argNames)
  {
    AllReferencesSnoc(c.modules, i);
    DeclaredBoth(AllReferences(c.modules[..i]), ModuleReferences(c.modules[i]), c.argNames);
  }

  method ValidateTemplateReferences(c: Command) returns (undefined: Option<string>)
    ensures undefined.None? <==> ReferencesDeclared(c)
    ensures undefined.Some? ==> FirstUndeclared(AllReferences(c.modules), c.argNames, undefined.value)
  {
    for i := 0 to |c.modules|
      invariant Declared(AllReferences(c.modules[..i]), c.argNames)
    {
      var m := c.modules[i];
      if m.passthrough {
        ModuleDone(c, i);
        continue;
      }
      for j := 0 to |m.args|
        invariant Declared(ArgReferences(m.args[..j]), c.argNames)
      {
        var refs := References(m.args[j]);
        for k := 0 to |refs|
          invariant DeclaredUpTo(c, i, j, k)
        {
          if refs[k] !in c.argNames {
            UndeclaredFound(c, i, j, k);
            return Some(refs[k]);
          }
          assert refs[..k + 1] == refs[..k] + [refs[k]];
        }
        ArgumentDone(c, i, j);
      }
      assert m.args[..|m.args|] == m.args;
      ModuleDone(c, i);
    }
    assert c.modules[..|c.modules|] == c.modules;
    DeclaredModules(c.modules, c.argNames);
    return None;
  }

  /** The checks made on a decoded command; the first that fails is reported. */
  method CheckCommand(c: Command) returns (error: Option<LoadError>)
    ensures error.None? <==> Loaded(c)
    ensures error == Some(NoModules) <==> c.modules == []
    ensures error == Some(MultiplePassthrough) <==> CountPassthrough(c.modules) > 1
    ensures error == Some(PassthroughWithCommandArgs) <==> CountPassthrough(c.modules) == 1 && c.argNames != []
    ensures error == Some(PassthroughModuleWithArgs) <==>
      CountPassthrough(c.modules) <= 1 && !(HasPassthrough(c) && c.argNames != []) && !PassthroughBare(c)
    ensures error.Some? && error.value.UndefinedReference? ==>
      FirstUndeclared(AllReferences(c.modules), c.argNames, error.value.name)
  {
    if |c.modules| == 0 {
      return Some(NoModules);
    }
    var count := CountPassthroughModules(c.modules);
    if count > 1 {
      return Some(MultiplePassthrough);
    }
    if count > 0 && |c.argNames| > 0 {
      return Some(PassthroughWithCommandArgs);
    }
    for i := 0 to |c.modules|
      invariant forall k :: 0 <= k < i && c.modules[k].passthrough ==> c.modules[k].args == []
    {
      if c.modules[i].passthrough && |c.modules[i].args| > 0 {
        return Some(PassthroughModuleWithArgs);
      }
    }
    var undefined := ValidateTemplateReferences(c);
    return if undefined.Some? then Some(UndefinedReference(undefined.value)) else None;
  }

  // ------------------------------------------------------------ argument lists

  datatype ArgsError = NoReceiver | CountMismatch

  datatype Result<T> = Args(value: T) | Failed(error: ArgsError)

  /** The static arguments of one module, given the runtime arguments. */
  ghost predicate Substituted(c: Command, args: seq<string>, runtime: seq<string>, out: seq<string>)
    requires |c.argNames| == |runtime|
  {
    && |out| == |args|
    && (forall j :: 0 <= j < |args| ==> ExpandsTo(args[j], c.argNames, runtime, out[j]))
  }

  /** Every reference of the template is declared, and out is the one-pass expansion. */
  ghost predicate ExpandsTo(s: string, names: seq<string>, values: seq<string>, out: string)
    requires |names| == |values|
  {
    && (forall i :: 0 <= i < |Segments(s)| && Segments(s)[i].Ref? ==> Segments(s)[i].name in names)
    && out == Expand(Segments(s), names, values)
  }

  /**
   What one piece of an expanded template is: a character, a value by position, or an undeclared
   reference as written.
   */
  ghost predicate PieceOf(seg: Segment, names: seq<string>, values: seq<string>, piece: string)
    requires |names| == |values|
  {
    match seg
    case Lit(c) => piece == [c]
    case Ref(n) => if n in names then ByPosition(names, values, n, piece) else piece == "${" + n + "}"
  }

  ghost predicate Pieces(segs: seq<Segment>, names: seq<string>, values: seq<string>, pieces: seq<string>)
    requires |names| == |values|
  {
    |pieces| == |segs| && forall i :: 0 <= i < |segs| ==> PieceOf(segs[i], names, values, pieces[i])
  }

  /** out is the pieces of the template's one reading, one after another. */
  ghost predicate MadeOf(s: string, names: seq<string>, values: seq<string>, out: string)
    requires |names| == |values|
  {
    exists pieces :: Pieces(Segments(s), names, values, pieces) && Flatten(pieces) == out
  }

  lemma {:induction false} ExpandPieces(segs: seq<Segment>, names: seq<string>, values: seq<string>)
    returns (pieces: seq<string>)
    requires |names| == |values|
    ensures Pieces(segs, names, values, pieces) && Flatten(pieces) == Expand(segs, names, values)
  {
    if segs == [] {
      pieces := [];
    } else {
      var rest := ExpandPieces(segs[1..], names, values);
      var piece :=
        match segs[0]
        case Lit(c) => [c]
        case Ref(n) => if n in names then LastValue(names, values, n) else RefText(n);
      if segs[0].Ref? && segs[0].name in names { LastValueByPosition(names, values, segs[0].name); }
      pieces := [piece] + rest;
      FlattenCons(piece, rest);
    }
  }

  lemma ExpandMadeOf(s: string, names: seq<string>, values: seq<string>)
    requires |names| == |values|
    ensures MadeOf(s, names, values, Expand(Segments(s), names, values))
  {
    var pieces := ExpandPieces(Segments(s), names, values);
  }

  /** By position there is one value for a name, so one text a template is made into. */
  lemma MadeOfUnique(s: string, names: seq<string>, values: seq<string>, out: string)
    requires |names| == |values| && MadeOf(s, names, values, out)
    ensures out == Expand(Segments(s), names, values)
  {
    var pieces :| Pieces(Segments(s), names, values, pieces) && Flatten(pieces) == out;
    var others := ExpandPieces(Segments(s), names, values);
    forall i | 0 <= i < |pieces| ensures pieces[i] == others[i] {
      assert PieceOf(Segments(s)[i], names, values, pieces[i]) && PieceOf(Segments(s)[i], names, values, others[i]);
      OneValue(Segments(s)[i], names, values, pieces[i], others[i]);
    }
    assert pieces == others;
  }

  lemma OneValue(seg: Segment, names: seq<string>, values: seq<string>, a: string, b: string)
    requires |names| == |values| && PieceOf(seg, names, values, a) && PieceOf(seg, names, values, b)
    ensures a == b
  {
    if seg.Ref? && seg.name in names {
      var j :| 0 <= j < |names| && names[j] == seg.name && values[j] == a && seg.name !in names[j + 1..];
      var k :| 0 <= k < |names| && names[k] == seg.name && values[k] == b && seg.name !in names[k + 1..];
      NoneLater(names, seg.name, j, k);
      NoneLater(names, seg.name, k, j);
    }
  }

  lemma NoneLater(names: seq<string>, name: string, k: nat, j: nat)
    requires k < |names| && j < |names| && name !in names[k + 1..] && names[j] == name
    ensures j <= k
  {
    assert forall i :: k < i < |names| ==> names[k + 1..][i - k - 1] == names[i];
  }

  method BuildTable(names: seq<string>, values: seq<string>) returns (table: map<string, string>)
    requires |names| == |values|
    ensures IsTable(table, names, values)
    ensures forall n :: n in names ==> n in table && ByPosition(names, values, n, table[n])
  {
    table := map[];
    for i := 0 to |names|
      invariant IsTable(table, names[..i], values[..i])
    {
      table := table[names[i] := values[i]];
      assert names[..i + 1][..i] == names[..i] && values[..i + 1][..i] == values[..i];
      assert names[..i + 1] == names[..i] + [names[i]];
    }
    assert names[..|names|] == names && values[..|values|] == values;
    forall n | n in names ensures ByPosition(names, values, n, table[n]) {
      LastValueByPosition(names, values, n);
    }
  }

  method SubstituteArgs(c: Command, args: seq<string>, runtime: seq<string>) returns (r: Result<seq<string>>)
    ensures |c.argNames| == 0 ==> r == Args(args)
    ensures |c.argNames| > 0 ==> (r.Args? <==> |runtime| == |c.argNames|)
    ensures r.Failed? ==> r.error == CountMismatch
    ensures |c.argNames| > 0 && r.Args? ==> ExpandedArgs(args, c.argNames, runtime, r.value)
    ensures |c.argNames| > 0 && r.Args? ==>
      forall j :: 0 <= j < |args| ==> MadeOf(args[j], c.argNames, runtime, r.value[j])
  {
    if |c.argNames| == 0 {
      return Args(args);
    }
    if |runtime| != |c.argNames| {
      return Failed(CountMismatch);
    }
    var table := BuildTable(c.argNames, runtime);
    var result: seq<string> := [];
    for i := 0 to |args|
      invariant ExpandedArgs(args[..i], c.argNames, runtime, result)
    {
      ReplaceExpands(Segments(args[i]), table, c.argNames, runtime);
      assert args[..i + 1] == args[..i] + [args[i]];
      result := result + [Replace(Segments(args[i]), table)];
    }
    assert args[..|args|] == args;
    forall j | 0 <= j < |args| ensures MadeOf(args[j], c.argNames, runtime, result[j]) {
      ExpandMadeOf(args[j], c.argNames, runtime);
    }
    return Args(result);
  }

  /** The static arguments, each expanded in one pass. */
  ghost predicate ExpandedArgs(args: seq<string>, names: seq<string>, values: seq<string>, out: seq<string>)
    requires |names| == |values|
  {
    && |out| == |args|
    && (forall j :: 0 <= j < |args| ==> out[j] == Expand(Segments(args[j]), names, values))
  }

  /** With every reference declared, none is left. */
  lemma DeclaredSubstituted(c: Command, args: seq<string>, runtime: seq<string>, out: seq<string>)
    requires |c.argNames| == |runtime| && ExpandedArgs(args, c.argNames, runtime, out)
    requires forall j :: 0 <= j < |args| ==> Declared(References(args[j]), c.argNames)
    ensures Substituted(c, args, runtime, out)
  {
    forall j | 0 <= j < |args| ensures ExpandsTo(args[j], c.argNames, runtime, out[j]) {
      RefsDeclared(args[j], c.argNames);
    }
  }

  lemma RefsDeclared(s: string, names: seq<string>)
    requires Declared(References(s), names)
    ensures forall i :: 0 <= i < |Segments(s)| && Segments(s)[i].Ref? ==> Segments(s)[i].name in names
  {
    var segs := Segments(s);
    forall i | 0 <= i < |segs| && segs[i].Ref? ensures segs[i].name in names {
      NamesOfRefs(segs, i);
    }
  }

  /** What each module of a command is to be given. */
  ghost predicate ArgumentLists(c: Command, runtime: seq<string>, lists: seq<seq<string>>)
  {
    && |lists| == |c.modules|
    && (forall i :: 0 <= i < |lists| ==> ArgumentList(c, c.modules[i], runtime, lists[i]))
  }

  ghost predicate ArgumentList(c: Command, m: Module, runtime: seq<string>, list: seq<string>)
  {
    if m.passthrough then list == runtime
    else if |c.argNames| == |runtime| then Substituted(c, m.args, runtime, list)
    else list == m.args && forall j :: 0 <= j < |m.args| ==> References(m.args[j]) == []
  }

  /** By position: what each static argument of each module has become. */
  ghost predicate PlacedLists(c: Command, runtime: seq<string>, lists: seq<seq<string>>)
    requires |c.argNames| == |runtime|
  {
    && |lists| == |c.modules|
    && (forall i :: 0 <= i < |lists| && !c.modules[i].passthrough ==> PlacedList(c, c.modules[i], runtime, lists[i]))
  }

  ghost predicate PlacedList(c: Command, m: Module, runtime: seq<string>, list: seq<string>)
    requires |c.argNames| == |runtime|
  {
    |list| == |m.args| && forall j :: 0 <= j < |m.args| ==> MadeOf(m.args[j], c.argNames, runtime, list[j])
  }

  lemma ListsPlaced(c: Command, runtime: seq<string>, lists: seq<seq<string>>)
    requires |c.argNames| == |runtime| && ArgumentLists(c, runtime, lists)
    ensures PlacedLists(c, runtime, lists)
  {
    forall i | 0 <= i < |lists| && !c.modules[i].passthrough
      ensures PlacedList(c, c.modules[i], runtime, lists[i])
    {
      assert ArgumentList(c, c.modules[i], runtime, lists[i]);
      forall j | 0 <= j < |c.modules[i].args| ensures MadeOf(c.modules[i].args[j], c.argNames, runtime, lists[i][j]) {
        ExpandMadeOf(c.modules[i].args[j], c.argNames, runtime);
      }
    }
  }

  lemma FirstDeclared(refs: seq<string>, names: seq<string>)
    requires Declared(refs, names)
    ensures refs == [] || refs[0] in names
  {
  }

  lemma StaticSubstituted(c: Command, args: seq<string>, runtime: seq<string>)
    requires c.argNames == [] && forall j :: 0 <= j < |args| ==> Declared(References(args[j]), c.argNames)
    ensures forall j :: 0 <= j < |args| ==> References(args[j]) == []
    ensures runtime == [] ==> Substituted(c, args, runtime, args)
  {
    forall j | 0 <= j < |args|
      ensures References(args[j]) == []
      ensures runtime == [] ==> ExpandsTo(args[j], c.argNames, runtime, args[j])
    {
      FirstDeclared(References(args[j]), c.argNames);
      if runtime == [] { NoReferencesExpand(args[j], c.argNames, runtime); }
    }
  }

  /**
   For a loaded command: success exactly when a passthrough module takes the
   runtime arguments or their number is the declared one, and then every static
   argument is its template expanded once, with no reference left.
   */
  method ModuleArgs(c: Command, runtime: seq<string>) returns (r: Result<seq<seq<string>>>)
    requires Loaded(c)
    ensures r.Args? <==> HasPassthrough(c) || |runtime| == |c.argNames|
    ensures r.Args? ==> ArgumentLists(c, runtime, r.value)
    ensures r.Args? && |c.argNames| == |runtime| ==> PlacedLists(c, runtime, r.value)
    ensures r == Failed(NoReceiver) <==> |runtime| > 0 && !HasPassthrough(c) && |c.argNames| == 0
  {
    CountedPassthrough(c.modules);
    var count := CountPassthroughModules(c.modules);
    if |runtime| > 0 && count == 0 && |c.argNames| == 0 {
      return Failed(NoReceiver);
    }
    var lists: seq<seq<string>> := [];
    for i := 0 to |c.modules|
      invariant |lists| == i
      invariant forall k :: 0 <= k < i ==> ArgumentList(c, c.modules[k], runtime, lists[k])
      invariant i > 0 && !HasPassthrough(c) ==> |runtime| == |c.argNames|
    {
      var m := c.modules[i];
      if m.passthrough {
        lists := lists + [runtime];
      } else {
        assert ModuleDeclared(m, c.argNames);
        var substituted := SubstituteArgs(c, m.args, runtime);
        if substituted.Failed? {
          return Failed(substituted.error);
        }
        if c.argNames == [] { StaticSubstituted(c, m.args, runtime); }
        else { DeclaredSubstituted(c, m.args, runtime, substituted.value); }
        lists := lists + [substituted.value];
      }
    }
    if |c.argNames| == |runtime| { ListsPlaced(c, runtime, lists); }
    return Args(lists);
  }
}
