/** The sample input of CidlExample/Com.cs as concrete vectors: struct S
    with two int fields, interface IMy with `void A()` and
    `int B(byte x, ushort* p)`. */
module CidlExample {
  import opened Wrappers
  import opened TextRender
  import opened Cidl
  import opened Cpp

  const S: Struct := Struct([Param(Basic(I32), "A"), Param(Basic(I32), "B")])

  /** The fields of S as the metadata provider describes them. */
  const SDescs: seq<FieldDesc> := [
    FieldDesc("A", Scalar(Int32), NamedDesc("CidlExample.S")),
    FieldDesc("B", Scalar(Int32), NamedDesc("CidlExample.S"))
  ]

  /** The methods of IMy as the metadata provider describes them. */
  const IMyDescs: seq<MethodDesc> := [
    MethodDesc("A", true, Scalar(Void), []),
    MethodDesc("B", true, Scalar(Int32), [ParamDesc("x", Scalar(Byte)), ParamDesc("p", PointerTo(Scalar(UInt16)))])
  ]

  const IMyMethods: seq<Method> := [
    Method("A", None, []),
    Method("B", Some(Basic(I32)), [Param(Basic(U8), "x"), Param(Pointer(Basic(U16)), "p")])
  ]

  function Example(guid: string): Library {
    Library("CidlExample", [
      ("CidlExample.S", StructDef(S)),
      ("CidlExample.IMy", InterfaceDef(Interface(guid, IMyMethods)))
    ])
  }

  /** IMy's descriptors convert to its model, in declared order. */
  lemma ExampleConversion(guid: string)
    ensures ToInterface(guid, IMyDescs) == Ok(Interface(guid, IMyMethods))
  {
    var r := ToInterface(guid, IMyDescs);
    assert r.Ok?;
    assert ToMethod(IMyDescs[0]) == Ok(IMyMethods[0]);
    assert ToParams(IMyDescs[1].params) == IMyMethods[1].params;
    assert ToMethod(IMyDescs[1]) == Ok(IMyMethods[1]);
    assert r.value.methods == IMyMethods;
  }

  /** S's field descriptors convert to S; the conversion as written turns
      both `int` fields into references to S itself, so the listing would
      read `CidlExample.S A;` instead of `I32 A;`. */
  lemma ExampleFieldTypes()
    ensures ToStruct(SDescs) == S
    ensures ToStructAsWritten(SDescs) == Struct([Param(Named("CidlExample.S"), "A"), Param(Named("CidlExample.S"), "B")])
    ensures TypeString(ToStructAsWritten(SDescs).fields[0].ty) == "CidlExample.S"
    ensures ToStructAsWritten(SDescs) != S
  {
    var w := ToStructAsWritten(SDescs);
    assert ToCidlType(NamedDesc("CidlExample.S")) == Named("CidlExample.S");
    assert w.fields[0] == Param(Named("CidlExample.S"), "A");
    assert w.fields[1] == Param(Named("CidlExample.S"), "B");
    var c := ToStruct(SDescs);
    assert c.fields[0] == S.fields[0] && c.fields[1] == S.fields[1];
    assert w.fields[0] != S.fields[0];
  }

  /** Dropping the marker from one method fails the whole interface. */
  lemma ExampleMissingMarker(guid: string)
    ensures ToInterface(guid, [IMyDescs[0], IMyDescs[1].(preserveSig := false)]) == Err(PreserveSigRequired)
  {
    var mds := [IMyDescs[0], IMyDescs[1].(preserveSig := false)];
    assert !mds[1].preserveSig;
  }

  /** The library's map finds both definitions by full name. */
  lemma ExampleLookup(guid: string)
    ensures Lookup(Example(guid).defs, "CidlExample.S") == Some(StructDef(S))
    ensures Lookup(Example(guid).defs, "CidlExample.IMy") == Some(InterfaceDef(Interface(guid, IMyMethods)))
    ensures Lookup(Example(guid).defs, "IMy") == None
  {
    var defs := Example(guid).defs;
    assert defs[1..] == [("CidlExample.IMy", InterfaceDef(Interface(guid, IMyMethods)))];
    assert |"CidlExample.S"| != |"CidlExample.IMy"|;
    assert |"CidlExample.S"| != |"IMy"| && |"CidlExample.IMy"| != |"IMy"|;
  }

  /** The listing of S at a two-space indent. */
  lemma ExampleStructListing()
    ensures Text(StructList("CidlExample.S", S), "  ") ==
      ["struct CidlExample.S", "{", "  I32 A;", "  I32 B;", "}"]
  {
    StructListText("CidlExample.S", S, "  ");
    var fields := seq(|S.fields|, i requires 0 <= i < |S.fields| => "  " + TypeString(S.fields[i].ty) + " " + S.fields[i].name + ";");
    assert "  " + "I32" + " " + "A" + ";" == "  I32 A;";
    assert "  " + "I32" + " " + "B" + ";" == "  I32 B;";
    assert fields == ["  I32 A;", "  I32 B;"];
    assert "struct " + "CidlExample.S" == "struct CidlExample.S";
  }

  /** The listing line of `void A()`. */
  lemma ExampleMethodLineA()
    ensures MethodLine(IMyMethods[0]).value == "void A();"
  {
    assert "void" + " " + "A" + "();" == "void A();";
  }

  /** The listing line of `int B(byte x, ushort* p)`. */
  lemma ExampleMethodLineB()
    ensures MethodLine(IMyMethods[1]).value == "I32 B(U8 x, U16* p);"
  {
    ExampleParamsB();
    assert MethodLine(IMyMethods[1]).value == "I32" + " " + "B" + "(" + "U8 x, U16* p" + ");";
    assert "I32" + " " + "B" + "(" + "U8 x, U16* p" + ");" == "I32 B(U8 x, U16* p);";
  }

  /** The listed parameters of `B`. */
  lemma ExampleParamsB()
    ensures Join(", ", ParamTexts(IMyMethods[1].params)) == "U8 x, U16* p"
  {
    var ps := ParamTexts(IMyMethods[1].params);
    assert TypeString(Pointer(Basic(U16))) == "U16" + "*" == "U16*";
    assert ps[0] == "U8" + " " + "x" == "U8 x";
    assert ps[1] == "U16*" + " " + "p" == "U16* p";
    assert ps == ["U8 x", "U16* p"];
    assert ps[1..] == ["U16* p"];
    assert Join(", ", ps) == "U8 x" + ", " + "U16* p" == "U8 x, U16* p";
  }

  /** The listing of IMy at a two-space indent. */
  lemma ExampleInterfaceListing(guid: string)
    ensures Text(InterfaceList("CidlExample.IMy", Interface(guid, IMyMethods)), "  ") ==
      ["[Guid(" + guid + ")]", "interface CidlExample.IMy", "{", "  void A();", "  I32 B(U8 x, U16* p);", "}"]
  {
    var i := Interface(guid, IMyMethods);
    InterfaceListText("CidlExample.IMy", i, "  ");
    ExampleMethodLineA();
    ExampleMethodLineB();
    var lines := seq(|i.methods|, j requires 0 <= j < |i.methods| => "  " + MethodLine(i.methods[j]).value);
    assert lines == ["  " + "void A();", "  " + "I32 B(U8 x, U16* p);"];
    ListingIndent();
  }

  /** The expected pure-virtual lines of IMy's header body. */
  const CppLineA := "virtual void __stdcall A() = 0;"
  const CppLineB := "virtual int32_t __stdcall B(uint8_t x, uint16_t* p) = 0;"

  /** The header line of `void A()`. */
  lemma ExampleCppMethodA(guid: string)
    ensures CppMethod(IMyMethods[0], Example(guid)) == Ok(Line(CppLineA))
  {
    assert CppReturn(IMyMethods[0].returnType, Example(guid)) == Ok("void");
    CppMethodNoParams(IMyMethods[0], Example(guid));
    CppLineAText();
  }

  /** The header text of the parameter `ushort* p`. */
  lemma ExampleCppParamP(guid: string)
    ensures CppType(Pointer(Basic(U16)), Example(guid)) == Ok("uint16_t*")
  {
    assert CppType(Basic(U16), Example(guid)) == Ok("uint16_t");
    assert CppType(Pointer(Basic(U16)), Example(guid)) == Ok("uint16_t" + "*");
    assert "uint16_t" + "*" == "uint16_t*";
  }

  /** The header parameter list of `B`. */
  lemma ExampleCppParamsB(guid: string)
    ensures CppParams(IMyMethods[1].params, Example(guid)) == Ok("uint8_t x, uint16_t* p")
  {
    var lib := Example(guid);
    var m := IMyMethods[1];
    ExampleCppParamP(guid);
    assert ParamTypes(m.params) == [Basic(U8), Pointer(Basic(U16))];
    var ps := CppParamTexts(m.params, lib).value;
    assert ps[0] == "uint8_t" + " " + "x" == "uint8_t x";
    assert ps[1] == "uint16_t*" + " " + "p" == "uint16_t* p";
    assert ps == ["uint8_t x", "uint16_t* p"];
    assert ps[1..] == ["uint16_t* p"];
    assert Join(", ", ps) == "uint8_t x" + ", " + "uint16_t* p" == "uint8_t x, uint16_t* p";
  }

  /** The header line of `int B(byte x, ushort* p)`. */
  lemma ExampleCppMethodB(guid: string)
    ensures CppMethod(IMyMethods[1], Example(guid)) == Ok(Line(CppLineB))
  {
    var lib := Example(guid);
    var m := IMyMethods[1];
    ExampleCppParamsB(guid);
    CppLineBText();
    assert MethodTypes(m) == [Basic(I32), Basic(U8), Pointer(Basic(U16))];
    assert CppReturn(m.returnType, lib) == Ok("int32_t");
  }

  /** In the header a reference to IMy is a pointer and one to S is not. */
  lemma ExampleResolution(guid: string)
    ensures CppType(Named("CidlExample.IMy"), Example(guid)) == Ok("CidlExample.IMy*")
    ensures CppType(Named("CidlExample.S"), Example(guid)) == Ok("CidlExample.S")
    ensures CppType(Pointer(Named("CidlExample.IMy")), Example(guid)) == Ok("CidlExample.IMy**")
    ensures CppType(Named("IMy"), Example(guid)) == Err(KeyNotFound("IMy"))
  {
    ExampleLookup(guid);
    var lib := Example(guid);
    assert Lookup(lib.defs, "CidlExample.IMy").value.InterfaceDef?;
    assert CppType(Named("CidlExample.IMy"), lib) == Ok("CidlExample.IMy" + "*");
    assert "CidlExample.IMy" + "*" == "CidlExample.IMy*";
    assert "CidlExample.IMy*" + "*" == "CidlExample.IMy**";
  }

  /** The header body of S. */
  lemma ExampleCppStruct(guid: string)
    ensures CppStruct(S, Example(guid), "CidlExample.S").Ok?
    ensures Text(CppStruct(S, Example(guid), "CidlExample.S").value, "  ") ==
      ["struct CidlExample.S", "{", "  int32_t A;", "  int32_t B;", "}"]
  {
    var lib := Example(guid);
    assert ParamTypes(S.fields) == [Basic(I32), Basic(I32)];
    CppStructText(S, lib, "CidlExample.S", "  ");
    var lines := seq(|S.fields|, i requires 0 <= i < |S.fields| && CppType(S.fields[i].ty, lib).Ok? =>
              "  " + CppType(S.fields[i].ty, lib).value + " " + S.fields[i].name + ";");
    CppStructLines();
    assert lines == ["  int32_t A;", "  int32_t B;"];
  }

  /** The method lines of IMy's header body. */
  lemma ExampleCppMethodLines(guid: string)
    ensures CppMethodLines(IMyMethods, Example(guid)) == Ok([Line(CppLineA), Line(CppLineB)])
  {
    var lib := Example(guid);
    ExampleCppMethodA(guid);
    ExampleCppMethodB(guid);
    assert IMyMethods[1..][0] == IMyMethods[1];
    assert IMyMethods[1..][1..] == [];
    assert CppMethodLines(IMyMethods[1..][1..], lib) == Ok([]);
    assert CppMethodLines(IMyMethods[1..], lib) == Ok([Line(CppLineB)] + []);
    assert [Line(CppLineB)] + [] == [Line(CppLineB)];
    assert CppMethodLines(IMyMethods, lib) == Ok([Line(CppLineA)] + [Line(CppLineB)]);
    assert [Line(CppLineA)] + [Line(CppLineB)] == [Line(CppLineA), Line(CppLineB)];
  }

  /** The header body of IMy. */
  lemma ExampleCppInterface(guid: string)
    ensures CppInterface(Interface(guid, IMyMethods), Example(guid), "CidlExample.IMy").Ok?
    ensures Text(CppInterface(Interface(guid, IMyMethods), Example(guid), "CidlExample.IMy").value, "  ") ==
      ["struct CidlExample.IMy: IUnknown", "{", "  " + CppLineA, "  " + CppLineB, "}"]
  {
    var items := [Line(CppLineA), Line(CppLineB)];
    ExampleCppInterfaceItems(guid);
    FlatCurlyText(items, "struct CidlExample.IMy: IUnknown", "  ");
    assert seq(|items|, i requires 0 <= i < |items| => "  " + items[i].value) == ["  " + CppLineA, "  " + CppLineB];
  }

  /** The header items of IMy: its two method lines in braces. */
  lemma ExampleCppInterfaceItems(guid: string)
    ensures CppInterface(Interface(guid, IMyMethods), Example(guid), "CidlExample.IMy") ==
      Ok(Curly(Block([Line(CppLineA), Line(CppLineB)]), "struct CidlExample.IMy: IUnknown"))
  {
    var lib := Example(guid);
    ExampleCppMethodLines(guid);
    var items := [Line(CppLineA), Line(CppLineB)];
    var header := "struct " + "CidlExample.IMy" + ": IUnknown";
    assert CppInterface(Interface(guid, IMyMethods), lib, "CidlExample.IMy") == Ok(Curly(Block(items), header));
    CppInterfaceHeader();
  }

  /** The bodies of S and IMy, in map order. */
  lemma ExampleBodies(guid: string)
    ensures CppStruct(S, Example(guid), "CidlExample.S").Ok?
    ensures CppInterface(Interface(guid, IMyMethods), Example(guid), "CidlExample.IMy").Ok?
    ensures CppBodies(Example(guid).defs, Example(guid)) ==
      Ok(CppStruct(S, Example(guid), "CidlExample.S").value +
         CppInterface(Interface(guid, IMyMethods), Example(guid), "CidlExample.IMy").value)
  {
    var lib := Example(guid);
    ExampleCppStruct(guid);
    ExampleCppInterface(guid);
    var st := CppStruct(S, lib, "CidlExample.S").value;
    var it := CppInterface(Interface(guid, IMyMethods), lib, "CidlExample.IMy").value;
    assert lib.defs[1..][1..] == [];
    assert CppBodies(lib.defs[1..][1..], lib) == Ok([]);
    assert CppBodies(lib.defs[1..], lib) == Ok(it + []);
    assert it + [] == it;
  }

  /** The two forward declarations. */
  lemma ExampleDecls(guid: string)
    ensures Text(ForwardDecls(Example(guid).defs), "  ") == ["struct CidlExample.S;", "struct CidlExample.IMy;"]
  {
    var decls := ForwardDecls(Example(guid).defs);
    FlatText(decls, "  ", "");
    DeclFacts();
  }

  /** The expected content of the sample's namespace: forward
      declarations, then S, then IMy. */
  const NamespaceLines: seq<string> :=
    ["struct CidlExample.S;", "struct CidlExample.IMy;"] +
    ["struct CidlExample.S", "{", "  int32_t A;", "  int32_t B;", "}"] +
    ["struct CidlExample.IMy: IUnknown", "{", "  " + CppLineA, "  " + CppLineB, "}"]

  /** The namespace content of the sample's header. */
  lemma ExampleNamespace(guid: string)
    ensures CppMap(Example(guid).defs, Example(guid)).Ok?
    ensures Text(CppMap(Example(guid).defs, Example(guid)).value, "  ") == NamespaceLines
  {
    var lib := Example(guid);
    ExampleBodies(guid);
    ExampleDecls(guid);
    ExampleCppStruct(guid);
    ExampleCppInterface(guid);
    var st := CppStruct(S, lib, "CidlExample.S").value;
    var it := CppInterface(Interface(guid, IMyMethods), lib, "CidlExample.IMy").value;
    var decls := ForwardDecls(lib.defs);
    assert CppMap(lib.defs, lib) == Ok(decls + (st + it));
    TextAppend(decls, st + it, "  ");
    TextAppend(st, it, "  ");
  }

  /** The whole header of the sample library. */
  lemma ExampleHeader(guid: string)
    ensures CppLibrary(Example(guid)).Ok?
    ensures Text(CppLibrary(Example(guid)).value, "  ") ==
      ["#pragma once", "namespace CidlExample", "{"] + Prefixed("  ", NamespaceLines) + ["}"]
  {
    var lib := Example(guid);
    ExampleNamespace(guid);
    assert CppLibrary(lib).Ok?;
    CppLibraryFrame(lib, "  ");
    assert lib.name == "CidlExample";
    NamespaceHeader();
  }

  /** A field whose type names no definition makes the header fail with
      that name. */
  lemma ExampleDangling()
    ensures CppLibrary(Library("L", [("T", StructDef(Struct([Param(Basic(I8), "a"), Param(Pointer(Named("Missing")), "b")])))])) ==
      Err(KeyNotFound("Missing"))
  {
    var lib := Library("L", [("T", StructDef(Struct([Param(Basic(I8), "a"), Param(Pointer(Named("Missing")), "b")])))]);
    assert FirstDangling(DefsTypes(lib.defs), lib) == Some("Missing");
  }

  // ---------------------------------------------------------------------
  // Regrouping and literal steps
  //
  // Each of these lemmas states one concatenation step. They stand apart so
  // that the proofs above, which call them, stay within the solver's
  // resource budget.

  /** Two-space indentation of the listing's method lines. */
  lemma ListingIndent()
    ensures "  " + "void A();" == "  void A();"
    ensures "  " + "I32 B(U8 x, U16* p);" == "  I32 B(U8 x, U16* p);"
    ensures "interface " + "CidlExample.IMy" == "interface CidlExample.IMy"
  {
  }

  /** The header lines of S. */
  lemma CppStructLines()
    ensures "  " + "int32_t" + " " + "A" + ";" == "  int32_t A;"
    ensures "  " + "int32_t" + " " + "B" + ";" == "  int32_t B;"
    ensures "struct " + "CidlExample.S" == "struct CidlExample.S"
  {
  }

  /** The header line of IMy. */
  lemma CppInterfaceHeader()
    ensures "struct " + "CidlExample.IMy" + ": IUnknown" == "struct CidlExample.IMy: IUnknown"
  {
  }

  /** The concatenation the emitter performs for `A`. */
  lemma CppLineAText()
    ensures "virtual " + "void" + " __stdcall " + "A" + "() = 0;" == CppLineA
  {
  }

  /** The concatenation the emitter performs for `B`, one literal step at a time. */
  lemma CppLineBText()
    ensures "virtual " + "int32_t" + " __stdcall " + "B" + "(" + "uint8_t x, uint16_t* p" + ") = 0;" == CppLineB
  {
    CppLineBPrefix();
    CppLineBParams();
  }

  /** `B`'s line up to the closing parenthesis. */
  lemma CppLineBParams()
    ensures "virtual int32_t __stdcall B(" + "uint8_t x, uint16_t* p" == "virtual int32_t __stdcall B(uint8_t x, uint16_t* p"
  {
  }

  /** The part of `B`'s line before its parameters. */
  lemma CppLineBPrefix()
    ensures "virtual " + "int32_t" + " __stdcall " + "B" + "(" == "virtual int32_t __stdcall B("
  {
    var v := "virtual " + "int32_t" + " __stdcall ";
    assert v == "virtual int32_t __stdcall ";
  }

  lemma DeclFacts()
    ensures "" + ("struct " + "CidlExample.S" + ";") == "struct CidlExample.S;"
    ensures "" + ("struct " + "CidlExample.IMy" + ";") == "struct CidlExample.IMy;"
  {
    assert "struct " + "CidlExample.S" + ";" == "struct CidlExample.S;";
    assert "struct " + "CidlExample.IMy" + ";" == "struct CidlExample.IMy;";
  }

  lemma NamespaceHeader()
    ensures "namespace " + "CidlExample" == "namespace CidlExample"
  {
  }
}
