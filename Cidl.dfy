/** The type model and the declarative listing (Cidl/Cidl.cs), with the
    conversion from metadata descriptors to model types. */
module Cidl {
  import opened Wrappers
  import opened TextRender

  // ---------------------------------------------------------------------
  // Type model

  /** The closed set of scalar kinds. */
  datatype BasicType = I8 | U8 | I16 | U16 | I32 | U32 | I64 | U64 | Bool

  /** A type reference: a scalar, a pointer to another reference, or a weak
      reference by name into the owning library. An absent reference
      (`Option.None`) stands for void. */
  datatype TypeRef = Basic(kind: BasicType) | Pointer(element: TypeRef) | Named(name: string)

  datatype Param = Param(ty: TypeRef, name: string)

  datatype Struct = Struct(fields: seq<Param>)

  datatype Method = Method(name: string, returnType: Option<TypeRef>, params: seq<Param>)

  /** `guid` is the identifier's canonical text, kept opaque. */
  datatype Interface = Interface(guid: string, methods: seq<Method>)

  datatype TypeDef = StructDef(s: Struct) | InterfaceDef(i: Interface)

  /** A library: its name and its definitions in insertion order. */
  datatype Library = Library(name: string, defs: seq<(string, TypeDef)>)

  /** The failures the core raises. */
  datatype Error = PreserveSigRequired | KeyNotFound(key: string)

  /** Dictionary semantics: no two definitions share a name. */
  predicate DistinctKeys(defs: seq<(string, TypeDef)>) {
    forall i, j :: 0 <= i < j < |defs| ==> defs[i].0 != defs[j].0
  }

  // ---------------------------------------------------------------------
  // Pointer chains

  /** The reference under all the pointers of `t`. */
  function Base(t: TypeRef): (r: TypeRef)
    ensures !r.Pointer?
  {
    match t
    case Pointer(e) => Base(e)
    case _ => t
  }

  /** How many pointers wrap the base of `t`. */
  function Depth(t: TypeRef): nat {
    match t
    case Pointer(e) => Depth(e) + 1
    case _ => 0
  }

  /** `t` wrapped in `k` pointers. */
  function Pointers(t: TypeRef, k: nat): TypeRef {
    if k == 0 then t else Pointer(Pointers(t, k - 1))
  }

  /** `k` pointer suffixes. */
  function Stars(k: nat): (r: string)
    ensures |r| == k
    ensures forall i :: 0 <= i < k ==> r[i] == '*'
  {
    if k == 0 then "" else Stars(k - 1) + "*"
  }

  /** Every reference is its base wrapped in its depth of pointers. */
  lemma {:induction false} BaseDepth(t: TypeRef)
    ensures Pointers(Base(t), Depth(t)) == t
  {
    match t
    case Pointer(e) => BaseDepth(e);
    case _ =>
  }

  // ---------------------------------------------------------------------
  // Listing text

  /** `BasicType.ToString()`: the enumerator's own name. */
  function BasicName(k: BasicType): (r: string)
    ensures r != "void" && 2 <= |r| <= 4
  {
    match k
    case I8 => "I8"
    case U8 => "U8"
    case I16 => "I16"
    case U16 => "U16"
    case I32 => "I32"
    case U32 => "U32"
    case I64 => "I64"
    case U64 => "U64"
    case Bool => "Bool"
  }

  /** `ToCidlString` on a present reference; names are never resolved. */
  function TypeString(t: TypeRef): (r: string)
    ensures |r| >= Depth(t)
    ensures t.Pointer? ==> r[|r| - 1] == '*'
  {
    match t
    case Basic(k) => BasicName(k)
    case Pointer(e) => TypeString(e) + "*"
    case Named(n) => n
  }

  /** `ToCidlString` on a possibly absent reference: absent is "void". */
  function CidlString(t: Option<TypeRef>): (r: string)
    ensures r == "void" <==> t.None? || (t.value.Named? && t.value.name == "void")
    ensures t.Some? ==> r == TypeString(t.value)
  {
    match t
    case None => "void"
    case Some(x) => TypeString(x)
  }

  /** The listing text of a reference is its base's text followed by one
      `*` per pointer. */
  lemma {:induction false} TypeStringShape(t: TypeRef)
    ensures TypeString(t) == TypeString(Base(t)) + Stars(Depth(t))
    ensures Base(t).Basic? ==> TypeString(t) == BasicName(Base(t).kind) + Stars(Depth(t))
    ensures Base(t).Named? ==> TypeString(t) == Base(t).name + Stars(Depth(t))
  {
    match t
    case Pointer(e) =>
      TypeStringShape(e);
      assert TypeString(t) == TypeString(Base(e)) + Stars(Depth(e)) + "*";
    case _ =>
      assert TypeString(t) + "" == TypeString(t);
  }

  /** k nested pointers end in exactly k stars. */
  lemma {:induction false} PointersString(t: TypeRef, k: nat)
    ensures TypeString(Pointers(t, k)) == TypeString(t) + Stars(k)
  {
    if k == 0 {
      assert TypeString(t) + "" == TypeString(t);
    } else {
      PointersString(t, k - 1);
    }
  }

  /** `string.Join(sep, parts)`. */
  function Join(sep: string, parts: seq<string>): (r: string)
    ensures |parts| == 0 ==> r == ""
    ensures |parts| == 1 ==> r == parts[0]
    ensures |parts| > 0 ==> |parts[0]| <= |r| && r[..|parts[0]|] == parts[0]
  {
    if |parts| == 0 then ""
    else if |parts| == 1 then parts[0]
    else parts[0] + sep + Join(sep, parts[1..])
  }

  /** Joining one more part appends the separator and that part: the parts
      appear in order, separated exactly once. */
  lemma {:induction false} JoinSnoc(sep: string, parts: seq<string>, last: string)
    requires |parts| > 0
    ensures Join(sep, parts + [last]) == Join(sep, parts) + sep + last
  {
    if |parts| == 1 {
      assert parts + [last] == [parts[0], last];
      assert [parts[0], last][1..] == [last];
    } else {
      assert (parts + [last])[1..] == parts[1..] + [last];
      JoinSnoc(sep, parts[1..], last);
    }
  }

  /** `"<type> <name>"` for one parameter or field. */
  function ParamText(p: Param): (r: string)
    ensures |r| == |TypeString(p.ty)| + 1 + |p.name|
    ensures r[..|TypeString(p.ty)|] == TypeString(p.ty)
    ensures r[|TypeString(p.ty)|] == ' '
    ensures r[|TypeString(p.ty)| + 1..] == p.name
  {
    TypeString(p.ty) + " " + p.name
  }

  /** The texts of a parameter list, in order. */
  function ParamTexts(ps: seq<Param>): (r: seq<string>)
    ensures |r| == |ps|
    ensures forall i :: 0 <= i < |ps| ==> r[i] == ParamText(ps[i])
  {
    if ps == [] then [] else [ParamText(ps[0])] + ParamTexts(ps[1..])
  }

  /** The field lines of a struct body, one per field, in order. */
  function FieldLines(fields: seq<Param>): (r: seq<Item>)
    ensures |r| == |fields|
    ensures forall i :: 0 <= i < |fields| ==> r[i] == Line(ParamText(fields[i]) + ";")
  {
    if fields == [] then [] else [Line(ParamText(fields[0]) + ";")] + FieldLines(fields[1..])
  }

  /** `Struct.Block`: exactly one line per field, in field order. */
  function StructBlock(s: Struct): (r: Item)
    ensures r.Block? && |r.items| == |s.fields|
    ensures forall i :: 0 <= i < |r.items| ==> r.items[i].Line?
  {
    Block(FieldLines(s.fields))
  }

  /** `Method.Line`: `"<ret-or-void> <name>(<params>);"`. */
  function MethodLine(m: Method): (r: Item)
    ensures r.Line?
    ensures m.params == [] ==> r.value == CidlString(m.returnType) + " " + m.name + "();"
  {
    var p := Join(", ", ParamTexts(m.params));
    Line(CidlString(m.returnType) + " " + m.name + "(" + p + ");")
  }

  /** The method lines of an interface body, one per method, in order. */
  function MethodLines(methods: seq<Method>): (r: seq<Item>)
    ensures |r| == |methods|
    ensures forall i :: 0 <= i < |methods| ==> r[i] == MethodLine(methods[i])
  {
    if methods == [] then [] else [MethodLine(methods[0])] + MethodLines(methods[1..])
  }

  /** `Interface.Block`: exactly one line per method, in declared order. */
  function InterfaceBlock(i: Interface): (r: Item)
    ensures r.Block? && |r.items| == |i.methods|
    ensures forall j :: 0 <= j < |r.items| ==> r.items[j].Line?
  {
    Block(MethodLines(i.methods))
  }

  /** `List(KeyValuePair<string, Struct>)`. */
  function StructList(key: string, s: Struct): (r: seq<Item>)
    ensures |r| == 4 && r[2] == StructBlock(s)
  {
    [Line("struct " + key), Line("{"), StructBlock(s), Line("}")]
  }

  /** `List(KeyValuePair<string, Interface>)`. */
  function InterfaceList(key: string, i: Interface): (r: seq<Item>)
    ensures |r| == 5 && r[3] == InterfaceBlock(i)
  {
    [Line("[Guid(" + i.guid + ")]"), Line("interface " + key), Line("{"), InterfaceBlock(i), Line("}")]
  }

  /** A method line lists its parameters in order, separated by ", ". */
  lemma MethodLineParams(m: Method, p: Param)
    ensures m.params == [] ==>
      MethodLine(Method(m.name, m.returnType, m.params + [p])).value ==
        CidlString(m.returnType) + " " + m.name + "(" + ParamText(p) + ");"
    ensures m.params != [] ==>
      MethodLine(Method(m.name, m.returnType, m.params + [p])).value ==
        CidlString(m.returnType) + " " + m.name + "(" + Join(", ", ParamTexts(m.params)) + ", " + ParamText(p) + ");"
  {
    var ps := m.params + [p];
    assert ParamTexts(ps) == ParamTexts(m.params) + [ParamText(p)];
    if m.params == [] {
      assert ParamTexts(ps) == [ParamText(p)];
    } else {
      JoinSnoc(", ", ParamTexts(m.params), ParamText(p));
      Regroup(CidlString(m.returnType) + " " + m.name + "(", Join(", ", ParamTexts(m.params)), ", ", ParamText(p), ");");
    }
  }

  /** The rendered struct listing: header, brace, one indented
      `"<type> <name>;"` per field in order, brace. */
  lemma StructListText(key: string, s: Struct, indent: string)
    ensures Text(StructList(key, s), indent) ==
      ["struct " + key, "{"]
      + seq(|s.fields|, i requires 0 <= i < |s.fields| => indent + TypeString(s.fields[i].ty) + " " + s.fields[i].name + ";")
      + ["}"]
  {
    var items := FieldLines(s.fields);
    assert StructList(key, s) == Curly(Block(items), "struct " + key);
    FlatCurlyText(items, "struct " + key, indent);
    var got := seq(|items|, i requires 0 <= i < |items| => indent + items[i].value);
    var want := seq(|s.fields|, i requires 0 <= i < |s.fields| => indent + TypeString(s.fields[i].ty) + " " + s.fields[i].name + ";");
    forall i | 0 <= i < |items| ensures got[i] == want[i] {
      assert items[i].value == TypeString(s.fields[i].ty) + " " + s.fields[i].name + ";";
    }
    assert got == want;
  }

  /** The rendered interface listing: the Guid annotation, header, brace, one
      indented method line per method in declared order, brace. */
  lemma InterfaceListText(key: string, i: Interface, indent: string)
    ensures Text(InterfaceList(key, i), indent) ==
      ["[Guid(" + i.guid + ")]", "interface " + key, "{"]
      + seq(|i.methods|, j requires 0 <= j < |i.methods| => indent + MethodLine(i.methods[j]).value)
      + ["}"]
  {
    var items := MethodLines(i.methods);
    var guid := Line("[Guid(" + i.guid + ")]");
    var c := Curly(Block(items), "interface " + key);
    assert InterfaceList(key, i) == [guid] + c;
    ListTextCons(guid, c, indent, "");
    assert "" + guid.value == guid.value;
    assert Text(InterfaceList(key, i), indent) == [guid.value] + Text(c, indent);
    FlatCurlyText(items, "interface " + key, indent);
    var body := seq(|items|, j requires 0 <= j < |items| => indent + items[j].value);
    var want := seq(|i.methods|, j requires 0 <= j < |i.methods| => indent + MethodLine(i.methods[j]).value);
    assert body == want;
    Reassociate(guid.value, "interface " + key, body);
  }

  // ---------------------------------------------------------------------
  // Conversion from metadata descriptors

  /** The runtime's built-in types that a descriptor can denote directly. */
  datatype ClrScalar =
    | SByte | Byte | Int16 | UInt16 | Int32 | UInt32 | Int64 | UInt64 | Boolean
    | Char | Single | Double | IntPtr | UIntPtr | Void

  /** A type as the metadata provider describes it: a built-in type, a
      pointer to another type, or any other type by its full name. */
  datatype TypeDesc = Scalar(scalar: ClrScalar) | PointerTo(element: TypeDesc) | NamedDesc(fullName: string)

  datatype ParamDesc = ParamDesc(name: string, ty: TypeDesc)

  /** A method as described by the provider; `preserveSig` says whether it
      carries the PreserveSig marker. */
  datatype MethodDesc = MethodDesc(name: string, preserveSig: bool, returnType: TypeDesc, params: seq<ParamDesc>)

  function ClrFullName(s: ClrScalar): (r: string)
    ensures |r| > 7 && r[..7] == "System."
  {
    match s
    case SByte => "System.SByte"
    case Byte => "System.Byte"
    case Int16 => "System.Int16"
    case UInt16 => "System.UInt16"
    case Int32 => "System.Int32"
    case UInt32 => "System.UInt32"
    case Int64 => "System.Int64"
    case UInt64 => "System.UInt64"
    case Boolean => "System.Boolean"
    case Char => "System.Char"
    case Single => "System.Single"
    case Double => "System.Double"
    case IntPtr => "System.IntPtr"
    case UIntPtr => "System.UIntPtr"
    case Void => "System.Void"
  }

  /** The runtime's full name of a described type. */
  function FullName(d: TypeDesc): string {
    match d
    case Scalar(s) => ClrFullName(s)
    case PointerTo(e) => FullName(e) + "*"
    case NamedDesc(n) => n
  }

  /** The built-in type each scalar kind stands for. */
  function ScalarFor(k: BasicType): (r: ClrScalar)
    ensures r != Void
  {
    match k
    case I8 => SByte
    case U8 => Byte
    case I16 => Int16
    case U16 => UInt16
    case I32 => Int32
    case U32 => UInt32
    case I64 => Int64
    case U64 => UInt64
    case Bool => Boolean
  }

  /** `ToClidBasicType`: the scalar kind of one of the nine recognised
      built-in types, and nothing for any other descriptor. */
  function ToClidBasicType(d: TypeDesc): (r: Option<BasicType>)
    ensures forall k :: r == Some(k) <==> d == Scalar(ScalarFor(k))
  {
    match d
    case Scalar(SByte) => Some(I8)
    case Scalar(Byte) => Some(U8)
    case Scalar(Int16) => Some(I16)
    case Scalar(UInt16) => Some(U16)
    case Scalar(Int32) => Some(I32)
    case Scalar(UInt32) => Some(U32)
    case Scalar(Int64) => Some(I64)
    case Scalar(UInt64) => Some(U64)
    case Scalar(Boolean) => Some(Bool)
    case _ => None
  }

  /** `ToCidlType`: a recognised scalar becomes `Basic`, otherwise a pointer
      becomes `Pointer` of its converted element, and anything else becomes
      `Named` with its full name (unrecognised scalars included). */
  function ToCidlType(d: TypeDesc): (r: TypeRef)
    ensures r.Basic? <==> ToClidBasicType(d).Some?
    ensures r.Basic? ==> ToClidBasicType(d) == Some(r.kind)
    ensures r.Pointer? <==> d.PointerTo?
    ensures r.Pointer? ==> r.element == ToCidlType(d.element)
    ensures r.Named? ==> r.name == FullName(d)
  {
    match ToClidBasicType(d)
    case Some(k) => Basic(k)
    case None => if d.PointerTo? then Pointer(ToCidlType(d.element)) else Named(FullName(d))
  }

  /** `ToCidlReturnType`: void becomes the absent type. */
  function ToCidlReturnType(d: TypeDesc): (r: Option<TypeRef>)
    ensures r.None? <==> d == Scalar(Void)
    ensures r.Some? ==> r.value == ToCidlType(d)
  {
    if d == Scalar(Void) then None else Some(ToCidlType(d))
  }

  /** `Param(ParameterInfo)` over a parameter list, in order. */
  function ToParams(pds: seq<ParamDesc>): (r: seq<Param>)
    ensures |r| == |pds|
    ensures forall i :: 0 <= i < |pds| ==> r[i] == Param(ToCidlType(pds[i].ty), pds[i].name)
  {
    if pds == [] then [] else [Param(ToCidlType(pds[0].ty), pds[0].name)] + ToParams(pds[1..])
  }

  /** `Method(MethodInfo)`: a descriptor without the PreserveSig marker is
      rejected and no method is produced. */
  function ToMethod(d: MethodDesc): (r: Result<Method, Error>)
    ensures r.Err? <==> !d.preserveSig
    ensures r.Err? ==> r.error == PreserveSigRequired
    ensures r.Ok? ==> r.value.name == d.name && r.value.returnType == ToCidlReturnType(d.returnType)
    ensures r.Ok? ==> r.value.params == ToParams(d.params)
  {
    if !d.preserveSig then Err(PreserveSigRequired)
    else Ok(Method(d.name, ToCidlReturnType(d.returnType), ToParams(d.params)))
  }

  /** The methods of an interface, converted in declared order; the first
      method without the marker aborts the whole conversion. */
  function ToMethods(mds: seq<MethodDesc>): (r: Result<seq<Method>, Error>)
    ensures r.Ok? <==> forall i :: 0 <= i < |mds| ==> mds[i].preserveSig
    ensures r.Err? ==> r.error == PreserveSigRequired
    ensures r.Ok? ==> |r.value| == |mds| && forall i :: 0 <= i < |mds| ==> ToMethod(mds[i]) == Ok(r.value[i])
  {
    if mds == [] then Ok([])
    else
      var m :- ToMethod(mds[0]);
      var rest :- ToMethods(mds[1..]);
      Ok([m] + rest)
  }

  /** `Interface(TypeInfo)` over a descriptor: its identifier and its
      converted methods, or the failure of any method. */
  function ToInterface(guid: string, mds: seq<MethodDesc>): (r: Result<Interface, Error>)
    ensures r.Ok? <==> forall i :: 0 <= i < |mds| ==> mds[i].preserveSig
    ensures r.Err? ==> r.error == PreserveSigRequired
    ensures r.Ok? ==> r.value.guid == guid && |r.value.methods| == |mds|
    ensures r.Ok? ==> forall i :: 0 <= i < |mds| ==> ToMethod(mds[i]) == Ok(r.value.methods[i])
  {
    var methods :- ToMethods(mds);
    Ok(Interface(guid, methods))
  }

  /** A struct field as the provider describes it: its name, its own type
      and the type that declares it. */
  datatype FieldDesc = FieldDesc(name: string, ty: TypeDesc, declaringType: TypeDesc)

  /** `Struct(IEnumerable<FieldInfo>)` as written: every field takes the
      type of the struct that declares it, not its own type. */
  function ToStructAsWritten(fds: seq<FieldDesc>): (r: Struct)
    ensures |r.fields| == |fds|
    ensures forall i :: 0 <= i < |fds| ==> r.fields[i].name == fds[i].name
    ensures forall i :: 0 <= i < |fds| ==> r.fields[i].ty == ToCidlType(fds[i].declaringType)
  {
    Struct(seq(|fds|, i requires 0 <= i < |fds| => Param(ToCidlType(fds[i].declaringType), fds[i].name)))
  }

  /** `Struct(IEnumerable<FieldInfo>)` as intended: every field keeps its own
      converted type and its name, in declared order. */
  function ToStruct(fds: seq<FieldDesc>): (r: Struct)
    ensures |r.fields| == |fds|
    ensures forall i :: 0 <= i < |fds| ==> r.fields[i].name == fds[i].name
    ensures forall i :: 0 <= i < |fds| ==> r.fields[i].ty == ToCidlType(fds[i].ty)
  {
    Struct(seq(|fds|, i requires 0 <= i < |fds| => Param(ToCidlType(fds[i].ty), fds[i].name)))
  }

  // Descriptors that denote model types: the reverse direction.

  /** The descriptor of a model type. */
  function Describe(t: TypeRef): TypeDesc {
    match t
    case Basic(k) => Scalar(ScalarFor(k))
    case Pointer(e) => PointerTo(Describe(e))
    case Named(n) => NamedDesc(n)
  }

  function DescribeReturn(t: Option<TypeRef>): TypeDesc {
    match t
    case None => Scalar(Void)
    case Some(x) => Describe(x)
  }

  function DescribeParams(ps: seq<Param>): (r: seq<ParamDesc>)
    ensures |r| == |ps|
    ensures forall i :: 0 <= i < |ps| ==> r[i] == ParamDesc(ps[i].name, Describe(ps[i].ty))
  {
    seq(|ps|, i requires 0 <= i < |ps| => ParamDesc(ps[i].name, Describe(ps[i].ty)))
  }

  function DescribeMethod(m: Method): MethodDesc {
    MethodDesc(m.name, true, DescribeReturn(m.returnType), DescribeParams(m.params))
  }

  /** The field descriptors of a struct declared by the type named `owner`. */
  function DescribeFields(s: Struct, owner: string): (r: seq<FieldDesc>)
    ensures |r| == |s.fields|
    ensures forall i :: 0 <= i < |r| ==> r[i] == FieldDesc(s.fields[i].name, Describe(s.fields[i].ty), NamedDesc(owner))
  {
    seq(|s.fields|, i requires 0 <= i < |s.fields| => FieldDesc(s.fields[i].name, Describe(s.fields[i].ty), NamedDesc(owner)))
  }

  /** A descriptor whose every built-in type is one of the nine scalar kinds. */
  predicate Recognised(d: TypeDesc) {
    match d
    case Scalar(s) => ToClidBasicType(d).Some?
    case PointerTo(e) => Recognised(e)
    case NamedDesc(_) => true
  }

  /** Every model type is what its own descriptor converts to. */
  lemma {:induction false} ToCidlTypeDescribe(t: TypeRef)
    ensures ToCidlType(Describe(t)) == t
  {
    match t
    case Basic(k) =>
    case Pointer(e) => ToCidlTypeDescribe(e);
    case Named(n) =>
  }

  /** Conversion loses nothing on descriptors whose built-in types are all
      recognised. */
  lemma {:induction false} DescribeToCidlType(d: TypeDesc)
    requires Recognised(d)
    ensures Describe(ToCidlType(d)) == d
  {
    match d
    case Scalar(s) =>
    case PointerTo(e) => DescribeToCidlType(e);
    case NamedDesc(n) =>
  }

  /** A method's own descriptor, which carries the marker, converts back to
      that method. */
  lemma MethodRoundTrip(m: Method)
    ensures ToMethod(DescribeMethod(m)) == Ok(m)
  {
    match m.returnType {
      case None =>
      case Some(t) => ToCidlTypeDescribe(t);
    }
    var ps := ToParams(DescribeParams(m.params));
    forall i | 0 <= i < |m.params| ensures ps[i] == m.params[i] {
      ToCidlTypeDescribe(m.params[i].ty);
    }
    assert ps == m.params;
    assert ToCidlReturnType(DescribeReturn(m.returnType)) == m.returnType;
  }

  /** Every struct's own field descriptors convert back to that struct. */
  lemma StructRoundTrip(s: Struct, owner: string)
    ensures ToStruct(DescribeFields(s, owner)) == s
  {
    var r := ToStruct(DescribeFields(s, owner));
    forall i | 0 <= i < |s.fields| ensures r.fields[i] == s.fields[i] {
      ToCidlTypeDescribe(s.fields[i].ty);
    }
    assert r.fields == s.fields;
  }

  /** The conversion as written types every field with its owner's name, so
      it loses the struct whenever some field has any other type. */
  lemma StructAsWrittenLosesTypes(s: Struct, owner: string)
    ensures forall i :: 0 <= i < |s.fields| ==> ToStructAsWritten(DescribeFields(s, owner)).fields[i].ty == Named(owner)
    ensures (exists i :: 0 <= i < |s.fields| && s.fields[i].ty != Named(owner)) ==>
      ToStructAsWritten(DescribeFields(s, owner)) != s
  {
    var r := ToStructAsWritten(DescribeFields(s, owner));
    forall i | 0 <= i < |s.fields| ensures r.fields[i].ty == Named(owner) {
      assert ToCidlType(NamedDesc(owner)) == Named(owner);
    }
  }

  // ---------------------------------------------------------------------
  // Regrouping and literal steps
  //
  // Each of these lemmas states one concatenation step. They stand apart so
  // that the proofs above, which call them, stay within the solver's
  // resource budget.

  /** Splicing a three-part string between a prefix and a suffix regroups. */
  lemma Regroup(pre: string, a: string, b: string, c: string, post: string)
    ensures pre + (a + b + c) + post == pre + a + b + c + post
  {
  }

  /** Regrouping a line in front of a braced frame. */
  lemma Reassociate(first: string, header: string, inner: seq<string>)
    ensures [first] + ([header, "{"] + inner + ["}"]) == [first, header, "{"] + inner + ["}"]
  {
    assert [first, header, "{"] == [first] + [header, "{"];
  }
}
