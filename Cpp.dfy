/** The native header emitter (Cidl/Cpp.cs): named references are resolved
    against the library, interfaces are used through pointers and structs
    by value. */
module Cpp {
  import opened Wrappers
  import opened TextRender
  import opened Cidl

  /** The fixed table from scalar kinds to native names. */
  function CppBasic(k: BasicType): (r: string)
    ensures r != "void" && |r| >= 4
  {
    match k
    case I8 => "int8_t"
    case U8 => "uint8_t"
    case I16 => "int16_t"
    case U16 => "uint16_t"
    case I32 => "int32_t"
    case U32 => "uint32_t"
    case I64 => "int64_t"
    case U64 => "uint64_t"
    case Bool => "BOOL"
  }

  /** The library map's indexer: the definition registered under `key`. */
  function Lookup(defs: seq<(string, TypeDef)>, key: string): (r: Option<TypeDef>)
    ensures r.None? <==> forall i :: 0 <= i < |defs| ==> defs[i].0 != key
    ensures r.Some? ==> (key, r.value) in defs
  {
    if defs == [] then None
    else if defs[0].0 == key then Some(defs[0].1)
    else Lookup(defs[1..], key)
  }

  /** The indexer finds the first definition registered under a name. */
  lemma {:induction false} LookupFirst(defs: seq<(string, TypeDef)>, i: nat)
    requires i < |defs| && forall j :: 0 <= j < i ==> defs[j].0 != defs[i].0
    ensures Lookup(defs, defs[i].0) == Some(defs[i].1)
  {
    if i > 0 {
      LookupFirst(defs[1..], i - 1);
    }
  }

  /** With dictionary semantics every definition is the one its name finds. */
  lemma LookupDistinct(defs: seq<(string, TypeDef)>, i: nat)
    requires DistinctKeys(defs) && i < |defs|
    ensures Lookup(defs, defs[i].0) == Some(defs[i].1)
  {
    LookupFirst(defs, i);
  }

  /** A `void*` parameter or field becomes a pointer to the named type
      "System.Void": the listing shows it as `System.Void*`, and the header
      cannot resolve it unless the library defines that name. */
  lemma VoidPointer(lib: Library)
    requires Lookup(lib.defs, "System.Void").None?
    ensures ToCidlType(PointerTo(Scalar(Void))) == Pointer(Named("System.Void"))
    ensures TypeString(ToCidlType(PointerTo(Scalar(Void)))) == "System.Void*"
    ensures CppType(ToCidlType(PointerTo(Scalar(Void))), lib) == Err(KeyNotFound("System.Void"))
  {
    assert ToClidBasicType(Scalar(Void)).None?;
    assert ToCidlType(Scalar(Void)) == Named("System.Void");
  }

  // ---------------------------------------------------------------------
  // Which names fail to resolve

  /** The name under the pointers of `t` when the library has no definition
      for it. */
  function Dangling(t: TypeRef, lib: Library): Option<string> {
    match Base(t)
    case Named(n) => if Lookup(lib.defs, n).None? then Some(n) else None
    case _ => None
  }

  /** The first name among `ts` that fails to resolve, in order. */
  function FirstDangling(ts: seq<TypeRef>, lib: Library): (r: Option<string>)
    ensures r.None? <==> forall t :: t in ts ==> Dangling(t, lib).None?
  {
    if ts == [] then None
    else
      assert ts == [ts[0]] + ts[1..];
      if Dangling(ts[0], lib).Some? then Dangling(ts[0], lib) else FirstDangling(ts[1..], lib)
  }

  /** `r` fails exactly when a reference among `ts` dangles, and then it
      names the first such reference. */
  predicate Reports<T>(r: Result<T, Error>, ts: seq<TypeRef>, lib: Library) {
    match FirstDangling(ts, lib)
    case None => r.Ok?
    case Some(n) => r == Err(KeyNotFound(n))
  }

  lemma FirstDanglingCons(t: TypeRef, ts: seq<TypeRef>, lib: Library)
    ensures FirstDangling([t] + ts, lib) == if Dangling(t, lib).Some? then Dangling(t, lib) else FirstDangling(ts, lib)
  {
    assert ([t] + ts)[1..] == ts;
  }

  lemma {:induction false} FirstDanglingAppend(a: seq<TypeRef>, b: seq<TypeRef>, lib: Library)
    ensures FirstDangling(a + b, lib) == if FirstDangling(a, lib).Some? then FirstDangling(a, lib) else FirstDangling(b, lib)
  {
    if a == [] {
      assert a + b == b;
    } else {
      assert a + b == [a[0]] + (a[1..] + b);
      FirstDanglingCons(a[0], a[1..] + b, lib);
      FirstDanglingCons(a[0], a[1..], lib);
      assert a == [a[0]] + a[1..];
      FirstDanglingAppend(a[1..], b, lib);
    }
  }

  /** The references a header resolves, in the order it resolves them. */
  function ParamTypes(ps: seq<Param>): (r: seq<TypeRef>)
    ensures |r| == |ps|
  {
    if ps == [] then [] else [ps[0].ty] + ParamTypes(ps[1..])
  }

  function ReturnTypes(t: Option<TypeRef>): seq<TypeRef> {
    match t
    case None => []
    case Some(x) => [x]
  }

  function MethodTypes(m: Method): seq<TypeRef> {
    ReturnTypes(m.returnType) + ParamTypes(m.params)
  }

  function MethodsTypes(ms: seq<Method>): seq<TypeRef> {
    if ms == [] then [] else MethodTypes(ms[0]) + MethodsTypes(ms[1..])
  }

  function DefTypes(def: TypeDef): seq<TypeRef> {
    match def
    case StructDef(s) => ParamTypes(s.fields)
    case InterfaceDef(i) => MethodsTypes(i.methods)
  }

  function DefsTypes(defs: seq<(string, TypeDef)>): seq<TypeRef> {
    if defs == [] then [] else DefTypes(defs[0].1) + DefsTypes(defs[1..])
  }

  /** The number of body lines of a definition: one per field or method. */
  function Members(def: TypeDef): nat {
    match def
    case StructDef(s) => |s.fields|
    case InterfaceDef(i) => |i.methods|
  }

  /** The number of lines all bodies take: header, two braces and members. */
  function BodyLines(defs: seq<(string, TypeDef)>): nat {
    if defs == [] then 0 else 3 + Members(defs[0].1) + BodyLines(defs[1..])
  }

  // ---------------------------------------------------------------------
  // Rendering

  /** `Cpp(TypeRef, Library)` on a present reference. */
  function CppType(t: TypeRef, lib: Library): (r: Result<string, Error>)
    ensures r.Err? <==> Dangling(t, lib).Some?
    ensures r.Err? ==> r.error == KeyNotFound(Dangling(t, lib).value)
  {
    match t
    case Basic(k) => Ok(CppBasic(k))
    case Pointer(e) =>
      var s :- CppType(e, lib);
      Ok(s + "*")
    case Named(n) =>
      match Lookup(lib.defs, n)
      case None => Err(KeyNotFound(n))
      case Some(InterfaceDef(_)) => Ok(n + "*")
      case Some(StructDef(_)) => Ok(n)
  }

  /** `Cpp(TypeRef?, Library)`: the absent type is "void". */
  function CppReturn(t: Option<TypeRef>, lib: Library): (r: Result<string, Error>)
    ensures Reports(r, ReturnTypes(t), lib)
    ensures t.None? ==> r == Ok("void")
    ensures t.Some? ==> r == CppType(t.value, lib)
  {
    match t
    case None => Ok("void")
    case Some(x) =>
      FirstDanglingCons(x, [], lib);
      CppType(x, lib)
  }

  /** The resolved `"<type> <name>"` texts of a parameter list, in order. */
  function CppParamTexts(ps: seq<Param>, lib: Library): (r: Result<seq<string>, Error>)
    ensures Reports(r, ParamTypes(ps), lib)
    ensures r.Ok? ==> |r.value| == |ps| && forall i :: 0 <= i < |ps| ==>
      CppType(ps[i].ty, lib).Ok? && r.value[i] == CppType(ps[i].ty, lib).value + " " + ps[i].name
  {
    if ps == [] then Ok([])
    else
      FirstDanglingCons(ps[0].ty, ParamTypes(ps[1..]), lib);
      var t :- CppType(ps[0].ty, lib);
      var rest :- CppParamTexts(ps[1..], lib);
      Ok([t + " " + ps[0].name] + rest)
  }

  /** `Cpp(IEnumerable<Param>, Library)`: the resolved parameters joined by ", ". */
  function CppParams(ps: seq<Param>, lib: Library): (r: Result<string, Error>)
    ensures Reports(r, ParamTypes(ps), lib)
    ensures ps == [] ==> r == Ok("")
  {
    var texts :- CppParamTexts(ps, lib);
    Ok(Join(", ", texts))
  }

  /** `Cpp(Method, Library)`: a pure-virtual `__stdcall` declaration. */
  function CppMethod(m: Method, lib: Library): (r: Result<Item, Error>)
    ensures Reports(r, MethodTypes(m), lib)
    ensures r.Ok? ==> r.value.Line?
  {
    FirstDanglingAppend(ReturnTypes(m.returnType), ParamTypes(m.params), lib);
    var ret :- CppReturn(m.returnType, lib);
    var ps :- CppParams(m.params, lib);
    Ok(Line("virtual " + ret + " __stdcall " + m.name + "(" + ps + ") = 0;"))
  }

  /** The member lines of a struct body, one per field, in order. */
  function CppFieldLines(fields: seq<Param>, lib: Library): (r: Result<seq<Item>, Error>)
    ensures Reports(r, ParamTypes(fields), lib)
    ensures r.Ok? ==> |r.value| == |fields| && forall i :: 0 <= i < |fields| ==>
      CppType(fields[i].ty, lib).Ok? && r.value[i] == Line(CppType(fields[i].ty, lib).value + " " + fields[i].name + ";")
  {
    if fields == [] then Ok([])
    else
      FirstDanglingCons(fields[0].ty, ParamTypes(fields[1..]), lib);
      var t :- CppType(fields[0].ty, lib);
      var rest :- CppFieldLines(fields[1..], lib);
      Ok([Line(t + " " + fields[0].name + ";")] + rest)
  }

  /** The member lines of an interface body, one per method, in order. */
  function CppMethodLines(ms: seq<Method>, lib: Library): (r: Result<seq<Item>, Error>)
    ensures Reports(r, MethodsTypes(ms), lib)
    ensures r.Ok? ==> |r.value| == |ms| && forall i :: 0 <= i < |ms| ==>
      CppMethod(ms[i], lib).Ok? && r.value[i] == CppMethod(ms[i], lib).value
  {
    if ms == [] then Ok([])
    else
      FirstDanglingAppend(MethodTypes(ms[0]), MethodsTypes(ms[1..]), lib);
      var l :- CppMethod(ms[0], lib);
      var rest :- CppMethodLines(ms[1..], lib);
      Ok([l] + rest)
  }

  /** `Cpp(Struct, Library, name)`. */
  function CppStruct(s: Struct, lib: Library, name: string): (r: Result<seq<Item>, Error>)
    ensures Reports(r, ParamTypes(s.fields), lib)
    ensures r.Ok? ==> |r.value| == 4 && r.value[0] == Line("struct " + name)
    ensures r.Ok? ==> ListLines(r.value) == 3 + |s.fields|
  {
    var lines :- CppFieldLines(s.fields, lib);
    FlatLines(lines);
    Ok(Curly(Block(lines), "struct " + name))
  }

  /** `Cpp(Interface, Library, name)`: derived from the dispatch root. */
  function CppInterface(i: Interface, lib: Library, name: string): (r: Result<seq<Item>, Error>)
    ensures Reports(r, MethodsTypes(i.methods), lib)
    ensures r.Ok? ==> |r.value| == 4 && r.value[0] == Line("struct " + name + ": IUnknown")
    ensures r.Ok? ==> ListLines(r.value) == 3 + |i.methods|
  {
    var lines :- CppMethodLines(i.methods, lib);
    FlatLines(lines);
    Ok(Curly(Block(lines), "struct " + name + ": IUnknown"))
  }

  /** `Cpp(KeyValuePair<string, TypeDef>, Library)`: dispatch on the kind. */
  function CppDef(name: string, def: TypeDef, lib: Library): (r: Result<seq<Item>, Error>)
    ensures Reports(r, DefTypes(def), lib)
    ensures r.Ok? ==> ListLines(r.value) == 3 + Members(def)
    ensures def.StructDef? ==> r == CppStruct(def.s, lib, name)
    ensures def.InterfaceDef? ==> r == CppInterface(def.i, lib, name)
  {
    match def
    case StructDef(s) => CppStruct(s, lib, name)
    case InterfaceDef(i) => CppInterface(i, lib, name)
  }

  /** One forward declaration per definition, in map order. */
  function ForwardDecls(defs: seq<(string, TypeDef)>): (r: seq<Item>)
    ensures |r| == |defs|
    ensures forall i :: 0 <= i < |defs| ==> r[i] == Line("struct " + defs[i].0 + ";")
  {
    if defs == [] then [] else [Line("struct " + defs[0].0 + ";")] + ForwardDecls(defs[1..])
  }

  /** Every definition's body, in map order. */
  function CppBodies(defs: seq<(string, TypeDef)>, lib: Library): (r: Result<seq<Item>, Error>)
    ensures Reports(r, DefsTypes(defs), lib)
    ensures r.Ok? ==> ListLines(r.value) == BodyLines(defs)
  {
    if defs == [] then Ok([])
    else
      FirstDanglingAppend(DefTypes(defs[0].1), DefsTypes(defs[1..]), lib);
      var body :- CppDef(defs[0].0, defs[0].1, lib);
      var rest :- CppBodies(defs[1..], lib);
      ListLinesAppend(body, rest);
      Ok(body + rest)
  }

  /** The bodies of a run of definitions succeed exactly when the bodies of
      both of its parts do. */
  lemma {:induction false} CppBodiesAppendOk(a: seq<(string, TypeDef)>, b: seq<(string, TypeDef)>, lib: Library)
    ensures CppBodies(a + b, lib).Ok? <==> CppBodies(a, lib).Ok? && CppBodies(b, lib).Ok?
  {
    if a == [] {
      assert a + b == b;
    } else {
      DefsTail(a, b);
      CppBodiesAppendOk(a[1..], b, lib);
      CppBodiesCons(a, lib);
      CppBodiesCons(a + b, lib);
    }
  }

  /** The bodies of two runs of definitions, rendered together, are the
      bodies of the first run followed by those of the second. */
  lemma {:induction false} CppBodiesAppend(a: seq<(string, TypeDef)>, b: seq<(string, TypeDef)>, lib: Library)
    requires CppBodies(a + b, lib).Ok?
    ensures CppBodies(a, lib).Ok? && CppBodies(b, lib).Ok?
    ensures CppBodies(a + b, lib).value == CppBodies(a, lib).value + CppBodies(b, lib).value
  {
    CppBodiesAppendOk(a, b, lib);
    if a == [] {
      assert a + b == b;
    } else {
      DefsTail(a, b);
      CppBodiesCons(a + b, lib);
      CppBodiesAppend(a[1..], b, lib);
      CppBodiesCons(a, lib);
      var d := CppDef(a[0].0, a[0].1, lib).value;
      var tail := CppBodies(a[1..], lib).value;
      assert CppBodies(a + b, lib).value == d + (tail + CppBodies(b, lib).value);
      assert CppBodies(a, lib).value == d + tail;
      ItemsAssoc(d, tail, CppBodies(b, lib).value);
    }
  }

  /** The bodies of a non-empty run: the first definition's, then the rest's. */
  lemma CppBodiesCons(defs: seq<(string, TypeDef)>, lib: Library)
    requires defs != []
    ensures CppBodies(defs, lib).Ok? <==> CppDef(defs[0].0, defs[0].1, lib).Ok? && CppBodies(defs[1..], lib).Ok?
    ensures CppBodies(defs, lib).Ok? ==>
      CppBodies(defs, lib).value == CppDef(defs[0].0, defs[0].1, lib).value + CppBodies(defs[1..], lib).value
  {
  }

  /** The bodies of a single definition are that definition's rendering. */
  lemma CppBodiesSingle(d: (string, TypeDef), lib: Library)
    ensures CppBodies([d], lib) == CppDef(d.0, d.1, lib)
  {
    assert [d][1..] == [];
    if CppDef(d.0, d.1, lib).Ok? {
      assert CppDef(d.0, d.1, lib).value + [] == CppDef(d.0, d.1, lib).value;
    }
  }

  /** `Cpp(Dictionary<string, TypeDef>, Library)`: all forward declarations,
      then all bodies. */
  function CppMap(defs: seq<(string, TypeDef)>, lib: Library): (r: Result<seq<Item>, Error>)
    ensures Reports(r, DefsTypes(defs), lib)
    ensures r.Ok? ==> |defs| <= |r.value| && r.value[..|defs|] == ForwardDecls(defs)
    ensures r.Ok? ==> CppBodies(defs, lib).Ok? && r.value == ForwardDecls(defs) + CppBodies(defs, lib).value
    ensures r.Ok? ==> ListLines(r.value) == |defs| + BodyLines(defs)
  {
    var bodies :- CppBodies(defs, lib);
    var decls := ForwardDecls(defs);
    FlatLines(decls);
    ListLinesAppend(decls, bodies);
    assert (decls + bodies)[..|defs|] == decls;
    Ok(decls + bodies)
  }

  /** `Cpp(Library)`: the include guard, then everything inside the
      library's namespace. */
  function CppLibrary(lib: Library): (r: Result<seq<Item>, Error>)
    ensures Reports(r, DefsTypes(lib.defs), lib)
    ensures r.Ok? ==> |r.value| == 5 && r.value[0] == Line("#pragma once")
  {
    var body :- CppMap(lib.defs, lib);
    Ok([Line("#pragma once")] + Curly(Block(body), "namespace " + lib.name))
  }

  lemma {:induction false} FlatLines(items: seq<Item>)
    requires forall i :: 0 <= i < |items| ==> items[i].Line?
    ensures ListLines(items) == |items|
  {
    if items != [] {
      FlatLines(items[1..]);
    }
  }

  // ---------------------------------------------------------------------
  // Properties

  /** The resolved text of a reference: a scalar's table name or the bare
      name, then one `*` per pointer, plus one more when the name denotes an
      interface; a name the library lacks is a failure naming it. */
  lemma {:induction false} CppTypeShape(t: TypeRef, lib: Library)
    ensures Base(t).Basic? ==> CppType(t, lib) == Ok(CppBasic(Base(t).kind) + Stars(Depth(t)))
    ensures Base(t).Named? && Lookup(lib.defs, Base(t).name).None? ==>
      CppType(t, lib) == Err(KeyNotFound(Base(t).name))
    ensures Base(t).Named? && Lookup(lib.defs, Base(t).name).Some? && Lookup(lib.defs, Base(t).name).value.InterfaceDef? ==>
      CppType(t, lib) == Ok(Base(t).name + Stars(Depth(t) + 1))
    ensures Base(t).Named? && Lookup(lib.defs, Base(t).name).Some? && Lookup(lib.defs, Base(t).name).value.StructDef? ==>
      CppType(t, lib) == Ok(Base(t).name + Stars(Depth(t)))
  {
    match t
    case Basic(k) =>
      assert CppBasic(k) + "" == CppBasic(k);
    case Named(n) =>
      assert n + "" == n;
      assert Stars(1) == "*";
    case Pointer(e) =>
      CppTypeShape(e, lib);
      assert Base(t) == Base(e) && Depth(t) == Depth(e) + 1;
      if CppType(e, lib).Ok? {
        var s := CppType(e, lib).value;
        assert CppType(t, lib) == Ok(s + "*");
        match Base(e) {
          case Basic(k) =>
            assert s + "*" == CppBasic(k) + Stars(Depth(t));
          case Named(n) =>
            if Lookup(lib.defs, n).value.InterfaceDef? {
              assert s + "*" == n + Stars(Depth(t) + 1);
            } else {
              assert s + "*" == n + Stars(Depth(t));
            }
        }
      }
  }

  /** The library's items render as the include guard, the namespace
      header, the brace, the map's items one indent deeper, the brace. */
  lemma CppLibraryFrame(lib: Library, indent: string)
    requires CppLibrary(lib).Ok?
    ensures CppMap(lib.defs, lib).Ok?
    ensures Text(CppLibrary(lib).value, indent) ==
      ["#pragma once", "namespace " + lib.name, "{"] + Prefixed(indent, Text(CppMap(lib.defs, lib).value, indent)) + ["}"]
  {
    var body := CppMap(lib.defs, lib).value;
    var c := Curly(Block(body), "namespace " + lib.name);
    assert CppLibrary(lib).value == [Line("#pragma once")] + c;
    ListTextCons(Line("#pragma once"), c, indent, "");
    assert "" + "#pragma once" == "#pragma once";
    assert Text(CppLibrary(lib).value, indent) == ["#pragma once"] + Text(c, indent);
    CurlyText(Block(body), "namespace " + lib.name, indent);
    Reassociate("#pragma once", "namespace " + lib.name, Prefixed(indent, Text(body, indent)));
  }

  /** The map's items start with one forward declaration per definition. */
  lemma CppMapDecls(defs: seq<(string, TypeDef)>, lib: Library, indent: string)
    requires CppMap(defs, lib).Ok?
    ensures |defs| <= |Text(CppMap(defs, lib).value, indent)|
    ensures forall i :: 0 <= i < |defs| ==> Text(CppMap(defs, lib).value, indent)[i] == "struct " + defs[i].0 + ";"
  {
    var body := CppMap(defs, lib).value;
    var decls := ForwardDecls(defs);
    var bodies := body[|decls|..];
    assert body == decls + bodies;
    TextAppend(decls, bodies, indent);
    FlatText(decls, indent, "");
    forall i | 0 <= i < |defs|
      ensures Text(body, indent)[i] == "struct " + defs[i].0 + ";"
    {
      assert Text(body, indent)[i] == Text(decls, indent)[i] == "" + decls[i].value;
    }
  }

  /** A rendered library: the include guard, the namespace header and brace,
      one indented forward declaration per definition in map order, the
      bodies, and the closing brace; one line per member plus three per
      definition besides. */
  lemma CppLibraryText(lib: Library, indent: string)
    requires CppLibrary(lib).Ok?
    ensures var t := Text(CppLibrary(lib).value, indent);
      && |t| == 4 + |lib.defs| + BodyLines(lib.defs)
      && t[..3] == ["#pragma once", "namespace " + lib.name, "{"]
      && t[|t| - 1] == "}"
      && forall i :: 0 <= i < |lib.defs| ==> t[3 + i] == indent + "struct " + lib.defs[i].0 + ";"
    ensures CppBodies(lib.defs, lib).Ok?
    ensures var t := Text(CppLibrary(lib).value, indent);
      t[3 + |lib.defs|..|t| - 1] == Prefixed(indent, Text(CppBodies(lib.defs, lib).value, indent))
  {
    CppLibraryFrame(lib, indent);
    CppMapDecls(lib.defs, lib, indent);
    var inner := Text(CppMap(lib.defs, lib).value, indent);
    var decls := seq(|lib.defs|, i requires 0 <= i < |lib.defs| => "struct " + lib.defs[i].0 + ";");
    var t := Text(CppLibrary(lib).value, indent);
    var head := ["#pragma once", "namespace " + lib.name, "{"];
    FramedLines(t, head, inner, indent, decls);
    forall i | 0 <= i < |lib.defs| ensures t[3 + i] == indent + "struct " + lib.defs[i].0 + ";" {
      assert t[3 + i] == indent + decls[i];
      Prepend(indent, "struct ", lib.defs[i].0, ";");
    }
    MapBodiesText(lib.defs, lib, indent);
    FramedTail(t, head, inner, indent, |lib.defs|);
  }

  /** Past the forward declarations, the map's text is the bodies' text. */
  lemma MapBodiesText(defs: seq<(string, TypeDef)>, lib: Library, indent: string)
    requires CppMap(defs, lib).Ok?
    ensures CppBodies(defs, lib).Ok?
    ensures |defs| <= |Text(CppMap(defs, lib).value, indent)|
    ensures Text(CppMap(defs, lib).value, indent)[|defs|..] == Text(CppBodies(defs, lib).value, indent)
  {
    var decls := ForwardDecls(defs);
    TextAppend(decls, CppBodies(defs, lib).value, indent);
    FlatText(decls, indent, "");
  }

  /** A library without definitions renders as the include guard and an
      empty namespace, not as an error. */
  lemma CppEmptyLibrary(name: string, indent: string)
    ensures CppLibrary(Library(name, [])).Ok?
    ensures Text(CppLibrary(Library(name, [])).value, indent) == ["#pragma once", "namespace " + name, "{", "}"]
  {
    var lib := Library(name, []);
    assert CppMap([], lib) == Ok([]);
    CppLibraryText(lib, indent);
  }

  /** A rendered struct: its header, the brace, one indented
      `"<resolved type> <name>;"` per field in field order, the brace. */
  lemma CppStructText(s: Struct, lib: Library, name: string, indent: string)
    requires CppStruct(s, lib, name).Ok?
    ensures forall i :: 0 <= i < |s.fields| ==> CppType(s.fields[i].ty, lib).Ok?
    ensures Text(CppStruct(s, lib, name).value, indent) ==
      ["struct " + name, "{"]
      + seq(|s.fields|, i requires 0 <= i < |s.fields| && CppType(s.fields[i].ty, lib).Ok? =>
              indent + CppType(s.fields[i].ty, lib).value + " " + s.fields[i].name + ";")
      + ["}"]
  {
    var lines := CppFieldLines(s.fields, lib).value;
    FlatCurlyText(lines, "struct " + name, indent);
    var got := seq(|lines|, i requires 0 <= i < |lines| => indent + lines[i].value);
    var want := seq(|s.fields|, i requires 0 <= i < |s.fields| && CppType(s.fields[i].ty, lib).Ok? =>
              indent + CppType(s.fields[i].ty, lib).value + " " + s.fields[i].name + ";");
    forall i | 0 <= i < |lines| ensures got[i] == want[i] {
    }
    assert got == want;
  }

  /** A rendered interface: its header naming the dispatch root, the brace,
      one indented pure-virtual declaration per method in declared order,
      the brace. */
  lemma CppInterfaceText(i: Interface, lib: Library, name: string, indent: string)
    requires CppInterface(i, lib, name).Ok?
    ensures forall j :: 0 <= j < |i.methods| ==> CppMethod(i.methods[j], lib).Ok?
    ensures Text(CppInterface(i, lib, name).value, indent) ==
      ["struct " + name + ": IUnknown", "{"]
      + seq(|i.methods|, j requires 0 <= j < |i.methods| && CppMethod(i.methods[j], lib).Ok? =>
              indent + CppMethod(i.methods[j], lib).value.value)
      + ["}"]
  {
    var lines := CppMethodLines(i.methods, lib).value;
    FlatCurlyText(lines, "struct " + name + ": IUnknown", indent);
    var got := seq(|lines|, j requires 0 <= j < |lines| => indent + lines[j].value);
    var want := seq(|i.methods|, j requires 0 <= j < |i.methods| && CppMethod(i.methods[j], lib).Ok? =>
              indent + CppMethod(i.methods[j], lib).value.value);
    forall j | 0 <= j < |lines| ensures got[j] == want[j] {
    }
    assert got == want;
  }

  /** A rendered method line: the resolved return type, the name and the
      resolved parameter list inside the pure-virtual template. */
  lemma CppMethodText(m: Method, lib: Library)
    requires CppMethod(m, lib).Ok?
    ensures CppReturn(m.returnType, lib).Ok? && CppParams(m.params, lib).Ok?
    ensures CppMethod(m, lib).value.value ==
      "virtual " + CppReturn(m.returnType, lib).value + " __stdcall " + m.name + "(" + CppParams(m.params, lib).value + ") = 0;"
  {
    FirstDanglingAppend(ReturnTypes(m.returnType), ParamTypes(m.params), lib);
  }

  /** A method without parameters renders whenever its return type does, with
      empty parentheses. */
  lemma CppMethodNoParams(m: Method, lib: Library)
    requires m.params == [] && CppReturn(m.returnType, lib).Ok?
    ensures CppMethod(m, lib) ==
      Ok(Line("virtual " + CppReturn(m.returnType, lib).value + " __stdcall " + m.name + "() = 0;"))
  {
    FirstDanglingAppend(ReturnTypes(m.returnType), ParamTypes(m.params), lib);
    assert ParamTypes(m.params) == [];
    var x := "virtual " + CppReturn(m.returnType, lib).value + " __stdcall " + m.name;
    assert CppMethod(m, lib) == Ok(Line(x + "(" + "" + ") = 0;"));
    assert x + "(" + "" == x + "(";
    assert x + "(" + ") = 0;" == x + ("(" + ") = 0;");
    assert "(" + ") = 0;" == "() = 0;";
  }

  /** One more parameter: alone it is the whole list, otherwise it follows
      the others after ", ". */
  lemma CppParamsSnoc(ps: seq<Param>, p: Param, lib: Library)
    requires CppParams(ps + [p], lib).Ok?
    ensures CppParams(ps, lib).Ok? && CppType(p.ty, lib).Ok?
    ensures ps == [] ==> CppParams(ps + [p], lib).value == CppType(p.ty, lib).value + " " + p.name
    ensures ps != [] ==>
      CppParams(ps + [p], lib).value == CppParams(ps, lib).value + ", " + CppType(p.ty, lib).value + " " + p.name
  {
    CppParamTextsSnoc(ps, p, lib);
    var last := CppType(p.ty, lib).value + " " + p.name;
    if ps == [] {
      assert CppParamTexts(ps + [p], lib).value == [last];
    } else {
      JoinSnoc(", ", CppParamTexts(ps, lib).value, last);
      assert CppParams(ps + [p], lib).value == CppParams(ps, lib).value + ", " + last;
      Regroup("", CppParams(ps, lib).value + ", ", CppType(p.ty, lib).value, " ", p.name);
    }
  }

  /** A method's resolved parameters appear in order, separated by ", ". */
  lemma CppMethodParams(m: Method, p: Param, lib: Library)
    requires CppMethod(Method(m.name, m.returnType, m.params + [p]), lib).Ok?
    ensures CppReturn(m.returnType, lib).Ok? && CppParams(m.params, lib).Ok? && CppType(p.ty, lib).Ok?
    ensures m.params == [] ==>
      CppMethod(Method(m.name, m.returnType, m.params + [p]), lib).value.value ==
        "virtual " + CppReturn(m.returnType, lib).value + " __stdcall " + m.name + "("
        + CppType(p.ty, lib).value + " " + p.name + ") = 0;"
    ensures m.params != [] ==>
      CppMethod(Method(m.name, m.returnType, m.params + [p]), lib).value.value ==
        "virtual " + CppReturn(m.returnType, lib).value + " __stdcall " + m.name + "("
        + CppParams(m.params, lib).value + ", " + CppType(p.ty, lib).value + " " + p.name + ") = 0;"
  {
    var n := Method(m.name, m.returnType, m.params + [p]);
    CppMethodText(n, lib);
    CppParamsSnoc(m.params, p, lib);
    var pre := "virtual " + CppReturn(m.returnType, lib).value + " __stdcall " + m.name + "(";
    var t := CppType(p.ty, lib).value;
    if m.params == [] {
      Regroup(pre, t, " ", p.name, ") = 0;");
    } else {
      var j := CppParams(m.params, lib).value;
      Regroup(pre, j, ", ", t + " " + p.name, ") = 0;");
      Regroup(pre + j + ", ", t, " ", p.name, ") = 0;");
    }
  }

  /** One more parameter adds its resolved text at the end. */
  lemma CppParamTextsSnoc(ps: seq<Param>, p: Param, lib: Library)
    requires CppParamTexts(ps + [p], lib).Ok?
    ensures CppParamTexts(ps, lib).Ok? && CppType(p.ty, lib).Ok?
    ensures CppParamTexts(ps + [p], lib).value == CppParamTexts(ps, lib).value + [CppType(p.ty, lib).value + " " + p.name]
  {
    var qs := ps + [p];
    var n := |ps|;
    assert qs[..n] == ps && qs[n] == p;
    ParamTypesPrefix(qs, n, lib);
    var all := CppParamTexts(qs, lib).value;
    var front := CppParamTexts(ps, lib).value;
    var last := CppType(p.ty, lib).value + " " + p.name;
    forall i | 0 <= i < |all| ensures all[i] == (front + [last])[i] {
      if i < n {
        assert qs[i] == ps[i];
      }
    }
  }

  /** Every reference of a prefix of a parameter list resolves when the whole
      list does. */
  lemma ParamTypesPrefix(ps: seq<Param>, k: nat, lib: Library)
    requires k <= |ps|
    requires FirstDangling(ParamTypes(ps), lib).None?
    ensures FirstDangling(ParamTypes(ps[..k]), lib).None?
  {
    ParamTypesMembers(ps);
    ParamTypesMembers(ps[..k]);
  }

  lemma {:induction false} ParamTypesMembers(ps: seq<Param>)
    ensures forall i :: 0 <= i < |ps| ==> ParamTypes(ps)[i] == ps[i].ty
  {
    if ps != [] {
      ParamTypesMembers(ps[1..]);
    }
  }

  /** The header fails exactly when some named reference in the library's
      definitions dangles, and the failure names the first one in emission
      order. */
  lemma CppLibraryFails(lib: Library)
    ensures CppLibrary(lib).Err? <==> exists t :: t in DefsTypes(lib.defs) && Dangling(t, lib).Some?
    ensures CppLibrary(lib).Err? ==> CppLibrary(lib).error == KeyNotFound(FirstDangling(DefsTypes(lib.defs), lib).value)
  {
  }

  // ---------------------------------------------------------------------
  // Regrouping and literal steps
  //
  // Each of these lemmas states one concatenation step. They stand apart so
  // that the proofs above, which call them, stay within the solver's
  // resource budget.

  /** The head and tail of a run of definitions followed by another. */
  lemma DefsTail(a: seq<(string, TypeDef)>, b: seq<(string, TypeDef)>)
    requires a != []
    ensures (a + b)[0] == a[0] && (a + b)[1..] == a[1..] + b
  {
  }

  /** Regrouping three runs of items. */
  lemma ItemsAssoc(x: seq<Item>, y: seq<Item>, z: seq<Item>)
    ensures x + (y + z) == x + y + z
  {
  }

  /** Lines of a braced frame of three header lines, past the first `k` inner lines. */
  lemma FramedTail(t: seq<string>, head: seq<string>, inner: seq<string>, indent: string, k: nat)
    requires |head| == 3 && t == head + Prefixed(indent, inner) + ["}"] && k <= |inner|
    ensures t[3 + k..|t| - 1] == Prefixed(indent, inner[k..])
  {
    assert t[3 + k..|t| - 1] == Prefixed(indent, inner)[k..];
  }

  /** Prefixing a three-part line regroups. */
  lemma Prepend(a: string, b: string, c: string, d: string)
    ensures a + (b + c + d) == a + b + c + d
  {
  }

  /** Line positions in a braced frame of three header lines. */
  lemma FramedLines(t: seq<string>, head: seq<string>, inner: seq<string>, indent: string, decls: seq<string>)
    requires |head| == 3 && t == head + Prefixed(indent, inner) + ["}"]
    requires |decls| <= |inner| && forall i :: 0 <= i < |decls| ==> inner[i] == decls[i]
    ensures |t| == 4 + |inner| && t[..3] == head && t[|t| - 1] == "}"
    ensures forall i :: 0 <= i < |decls| ==> t[3 + i] == indent + decls[i]
  {
    var pre := Prefixed(indent, inner);
    assert t == head + (pre + ["}"]);
    forall i | 0 <= i < |decls| ensures t[3 + i] == indent + decls[i] {
      assert t[3 + i] == (pre + ["}"])[i] == pre[i];
    }
  }
}
