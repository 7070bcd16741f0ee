# Cidl: a verified model of the interface-description pipeline

Cidl reads a library of struct and interface definitions and renders it as
indented text. It has two outputs:

- a declarative listing, with `struct K { ... }` and `[Guid(g)] interface K { ... }`;
- a native C++ header, with forward declarations, value structs and
  pure-virtual `__stdcall` interfaces derived from `IUnknown`.

Both outputs are built as a tree of items. A tree is a line or a block of
items. A block indents its children one level deeper and adds no line of
its own. The renderer flattens the tree into lines.

The model has five modules:

- `Wrappers`: `Option` and `Result` (with `:-` propagation).
- `TextRender` (`Text.dfy`): the item tree and its renderer.
  - Structural reference layout: every line leaf with the number of blocks above it.
  - `Write` is an imperative loop feeding a `LineSink` object.
- `Cidl` (`Cidl.dfy`): the type model, the listing builders and the conversion from metadata descriptors.
  - A descriptor is a built-in scalar, a pointer, or a type by full name.
  - A method descriptor also says whether the PreserveSig marker is present.
  - The conversion is paired with a `Describe` direction and round-trip lemmas.
- `Cpp` (`Cpp.dfy`): the header emitter.
  - A named reference resolves through the library map. An interface becomes a pointer; a struct stays a value.
  - A name missing from the map is an error, `KeyNotFound(name)`.
  - `Reports` ties every rendering function's result to `FirstDangling`. `FirstDangling` is the first unresolvable reference in the order the emitter evaluates them: the function fails exactly when such a reference exists, and then names that one.
- `CidlExample` (`Example.dfy`): the sample library `CidlExample` as concrete vectors.
  - `struct S { int A; int B; }`.
  - `interface IMy { [PreserveSig] void A(); [PreserveSig] int B(byte x, ushort* p); }`.
  - Its conversion, listing and header are stated line by line.

The C++ emitter reads `library.Map` and `library.Name`
(`Cidl/Cpp.cs:27`, `:57`, `:61`). The `Library` class in `Cidl/Cidl.cs:6-19`
does not have them; it has separate `StructMap` and `InterfaceMap`. The
model therefore uses one `Library(name, defs)`:

- `defs` is a sequence of `(name, TypeDef)` pairs in dictionary insertion order.
- `TypeDef` is a struct or an interface.
- The indexer is `Lookup`: the first pair with that key.

Every operation is a pure function, except `Write`. Partial output is not
modelled, so each rendering either succeeds with all its items or fails with
the error the C# code would throw first.

## Model

| member | source | states |
|---|---|---|
| TextRender.Text | Cidl/Text.cs:38-39 | Rendering a top-level list yields exactly one line per `Line` leaf of the tree. |
| TextRender.ItemText | Cidl/Text.cs:17-33 | Every line an item renders starts with the offset it was given: a block passes its offset plus one indent down to its children. |
| TextRender.ListText | Cidl/Text.cs:32-33 | Every line of the children of a block starts with their common offset. |
| TextRender.ItemTextLength | Cidl/Text.cs:17-33 | A `Line` contributes one line and a `Block` contributes the lines of its children, so the output length is the leaf count. |
| TextRender.ListTextLength | Cidl/Text.cs:32-33 | The children of a block, rendered in turn, give as many lines as they have leaves. |
| TextRender.ListTextAppend | Cidl/Text.cs:32-33 | Rendering a concatenation of items at one offset is the concatenation of their renderings, in order. |
| TextRender.TextAppend | Cidl/Text.cs:38-39 | `Text(a ++ b) == Text(a) ++ Text(b)`: each top-level item starts at the empty offset. |
| TextRender.ListLinesAppend | Cidl/Text.cs:32-33 | Leaf counts add up over concatenated item lists. |
| TextRender.ItemTextLayout | Cidl/Text.cs:17-33 | An item renders to its leaves in order. Each leaf is printed as the offset, then one indent per enclosing block, then its value. |
| TextRender.ListTextLayout | Cidl/Text.cs:32-33 | The same layout holds for a list of items started at a common offset. |
| TextRender.TextLayout | Cidl/Text.cs:33-39 | In a top-level list, a line nested under d blocks comes out as d copies of the indent followed by its value. |
| TextRender.ListTextShift | Cidl/Text.cs:32-33 | Starting a list at an offset prefixes every line it would render at the empty offset with that offset. |
| TextRender.PlacedDeepen | Cidl/Text.cs:33 | One more block level is the same as one more indent in the offset. |
| TextRender.FlatText | Cidl/Text.cs:17-20 | A list of plain lines renders to their values, each prefixed by the offset. |
| TextRender.Curly | Cidl/Text.cs:49-58 | The wrapper has exactly four items, the block third. It adds exactly three lines to the block's lines. |
| TextRender.CurlyText | Cidl/Text.cs:49-58 | A wrapped block renders as the header, `{`, the block's lines one indent deeper, and `}`. The braces sit at the header's depth. |
| TextRender.FlatCurlyText | Cidl/Text.cs:49-58 | A wrapped block of plain lines renders as the header, `{`, each value after one indent, and `}`. |
| TextRender.LineSink.Put | Cidl/Text.cs:41-45 | The sink callback appends the one line it is given to what the sink has received. |
| TextRender.Write | Cidl/Text.cs:41-47 | The sink receives exactly the rendered lines of the list, in order, each once, after what it already held. |
| Cidl.BaseDepth | Cidl/Cidl.cs:117-149 | Every type reference is its non-pointer base wrapped in its depth of pointers. |
| Cidl.BasicName | Cidl/Cidl.cs:104-115 | A scalar kind prints as its enumerator name (2 to 4 characters), never as `void`. |
| Cidl.TypeString | Cidl/Cidl.cs:185-190 | A present reference prints with at least one character per pointer, and a pointer prints ending in `*`. |
| Cidl.CidlString | Cidl/Cidl.cs:185-192 | A present type prints as its listing text (`TypeString`). The text is `void` exactly when the type is absent or is a name spelled `void`. |
| Cidl.TypeStringShape | Cidl/Cidl.cs:185-192 | A reference prints as its base (enumerator name, or the name verbatim and unresolved) followed by one `*` per pointer. |
| Cidl.PointersString | Cidl/Cidl.cs:189 | Wrapping a reference in k pointers appends exactly k stars. |
| Cidl.Join | Cidl/Cidl.cs:99 | Joining nothing is empty, joining one part is that part, and the first part always begins the result. |
| Cidl.JoinSnoc | Cidl/Cidl.cs:99 | Joining one more part appends the separator and that part, so parts appear in order separated exactly once. |
| Cidl.ParamText | Cidl/Cidl.cs:99 | A parameter prints as its type text, one space, its name: the length and each of the three parts at its position are stated. |
| Cidl.ParamTexts | Cidl/Cidl.cs:99 | The parameter texts are one per parameter, in order. |
| Cidl.FieldLines | Cidl/Cidl.cs:39-40 | One `"<type> <name>;"` line per field, in field order. |
| Cidl.StructBlock | Cidl/Cidl.cs:39-40 | A struct's block holds one line per field and nothing else. |
| Cidl.MethodLine | Cidl/Cidl.cs:97-101 | A method is one line. Without parameters it reads `"<ret-or-void> <name>();"`. |
| Cidl.MethodLineParams | Cidl/Cidl.cs:97-101 | A first parameter is the whole text inside the parentheses. Each further parameter appends `", <type> <name>"` after the others, so parameters appear in order joined by `", "`. |
| Cidl.MethodLines | Cidl/Cidl.cs:57-58 | One line per method, each the method's own line, in declared order. |
| Cidl.InterfaceBlock | Cidl/Cidl.cs:57-58 | An interface's block holds exactly one plain line per method. |
| Cidl.StructList | Cidl/Cidl.cs:194-200 | A struct listing has four items, with the struct's block third. |
| Cidl.InterfaceList | Cidl/Cidl.cs:202-209 | An interface listing has five items, with the interface's block fourth. |
| Cidl.StructListText | Cidl/Cidl.cs:194-200 | A struct listing renders as `struct K`, `{`, one indented `"<type> <name>;"` per field in order, `}`. |
| Cidl.InterfaceListText | Cidl/Cidl.cs:202-209 | An interface listing renders as `[Guid(g)]`, `interface K`, `{`, one indented method line per method in order, `}`. |
| Cidl.ScalarFor | Cidl/Cidl.cs:170-183 | Each scalar kind stands for a built-in type other than void. |
| Cidl.ToClidBasicType | Cidl/Cidl.cs:170-183 | A descriptor yields kind k exactly when it is the built-in type that k stands for. Every other descriptor yields nothing. |
| Cidl.ToCidlType | Cidl/Cidl.cs:159-168 | Conversion tries scalars first: the result is `Basic` iff the scalar is recognised. Otherwise it is `Pointer` iff the descriptor is a pointer, and its element is the converted element. Any other type becomes `Named` with its full name. |
| Cidl.ToCidlReturnType | Cidl/Cidl.cs:153-157 | The return type is absent exactly when the descriptor is void, and is the converted type otherwise. |
| Cidl.ToParams | Cidl/Cidl.cs:65-69 | Parameters convert one for one, in order, keeping their names. |
| Cidl.ToMethod | Cidl/Cidl.cs:84-95 | A method converts iff it carries the PreserveSig marker. Otherwise the failure is `PreserveSigRequired` and no method is produced. A converted method keeps its name and converted signature. |
| Cidl.ToMethods | Cidl/Cidl.cs:51-54 | An interface's methods convert iff every one carries the marker, one for one and in declared order. |
| Cidl.ToInterface | Cidl/Cidl.cs:48-55 | An interface converts iff all its methods do, keeping its identifier and method order. |
| Cidl.ToStructAsWritten | Cidl/Cidl.cs:34-37 | The field constructor as written gives each field the converted declaring type, with the field's name. |
| Cidl.ToStruct | Cidl/Cidl.cs:34-37 | The corrected field conversion keeps each field's own converted type and name, in order. |
| Cidl.StructRoundTrip | Cidl/Cidl.cs:34-37 | A struct's own field descriptors convert back to exactly that struct (corrected conversion). |
| Cidl.StructAsWrittenLosesTypes | Cidl/Cidl.cs:71-75 | As written, every field gets the owner's name as its type, so any struct with a field of another type is not reproduced. |
| Cidl.DescribeFields | Cidl/Cidl.cs:34-37 | A struct's field descriptors are one per field, in order, each declared by the owner. |
| Cidl.DescribeParams | Cidl/Cidl.cs:65-69 | A parameter list's descriptors are one per parameter, in order. |
| Cidl.ToCidlTypeDescribe | Cidl/Cidl.cs:159-168 | Every model type is what its own descriptor converts to. |
| Cidl.DescribeToCidlType | Cidl/Cidl.cs:159-183 | A descriptor whose built-in types are all recognised is recovered exactly from its conversion. |
| Cidl.MethodRoundTrip | Cidl/Cidl.cs:84-95 | A method's own marked descriptor converts back to that method. |
| Cpp.CppBasic | Cidl/Cpp.cs:7-20 | The nine scalar kinds map to their fixed native names, never `void`. |
| Cpp.Lookup | Cidl/Cpp.cs:27 | The map has no entry exactly when no pair has that key. A found definition is registered under that key. |
| Cpp.LookupFirst | Cidl/Cpp.cs:27 | The indexer finds the first definition registered under a name. |
| Cpp.LookupDistinct | Cidl/Cidl.cs:12-18 | With the dictionary's unique keys, every registered definition is the one its key finds. |
| Cpp.VoidPointer | Cidl/Cidl.cs:159-168 | A `void*` converts to a pointer to the named type `System.Void`. It lists as `System.Void*`, and the header fails on `System.Void` unless the library defines that name. |
| Cpp.FirstDangling | Cidl/Cpp.cs:27 | There is no dangling reference exactly when every reference's base name resolves. |
| Cpp.FirstDanglingAppend | Cidl/Cpp.cs:39 | Over two reference sequences, the first failure comes from the first sequence if it has one, else from the second. |
| Cpp.CppType | Cidl/Cpp.cs:22-33 | Rendering a reference fails exactly when its base name is missing from the map, and the failure names it. |
| Cpp.CppTypeShape | Cidl/Cpp.cs:22-33 | A scalar base gives its table name and one `*` per pointer. An interface name gets one more `*` than it has pointers and a struct name gets none extra. A missing name fails. |
| Cpp.CppReturn | Cidl/Cpp.cs:22-33 | An absent type renders as `void`. A present one renders, or fails, exactly as the reference itself does (`CppType`). |
| Cpp.CppParamTexts | Cidl/Cpp.cs:35-36 | One `"<resolved type> <name>"` per parameter, in order. Fails at the first dangling parameter type. |
| Cpp.CppParams | Cidl/Cpp.cs:35-36 | The parameter list is empty for no parameters. It fails exactly when a parameter type dangles. |
| Cpp.CppMethod | Cidl/Cpp.cs:38-40 | A method renders as one line, failing on the first dangling type: the return type first, then the parameters. |
| Cpp.CppMethodText | Cidl/Cpp.cs:38-40 | A rendered method line is `virtual <resolved return> __stdcall <name>(<resolved parameters>) = 0;`, and both parts resolved. |
| Cpp.CppMethodNoParams | Cidl/Cpp.cs:38-40 | A method without parameters renders whenever its return type resolves, as `virtual <ret> __stdcall <name>() = 0;`. |
| Cpp.CppParamsSnoc | Cidl/Cpp.cs:35-36 | A first parameter is the whole list as `<resolved type> <name>`. A further one follows the others after `", "`. |
| Cpp.CppMethodParams | Cidl/Cpp.cs:35-40 | Within `virtual <ret> __stdcall <name>(...) = 0;`, a single parameter stands alone and each further one follows the others after `", "`, so the resolved parameters appear in order. |
| Cpp.CppFieldLines | Cidl/Cpp.cs:50-51 | One `"<resolved type> <name>;"` line per field, in order. |
| Cpp.CppMethodLines | Cidl/Cpp.cs:53-54 | One rendered method line per method, in declared order. |
| Cpp.CppStruct | Cidl/Cpp.cs:50-51 | A struct body is four items headed `struct N`, one line per field plus three. |
| Cpp.CppInterface | Cidl/Cpp.cs:53-54 | An interface body is four items headed `struct N: IUnknown`, one line per method plus three. |
| Cpp.CppStructText | Cidl/Cpp.cs:50-51 | A struct body renders as `struct N`, `{`, one indented resolved field line per field in order, `}`. |
| Cpp.CppInterfaceText | Cidl/Cpp.cs:53-54 | An interface body renders as `struct N: IUnknown`, `{`, one indented pure-virtual line per method in order, `}`. |
| Cpp.CppDef | Cidl/Cpp.cs:42-48 | A struct definition renders as the struct body under its key, and an interface definition as the interface body. There is one line per member plus three, and rendering fails on the first dangling reference. |
| Cpp.ForwardDecls | Cidl/Cpp.cs:57 | One `struct k;` line per definition, in map order. |
| Cpp.CppBodies | Cidl/Cpp.cs:57 | All bodies in map order. Their line count is the sum of the bodies', and they fail on the first dangling reference across them. |
| Cpp.CppBodiesCons | Cidl/Cpp.cs:57 | A non-empty run of bodies succeeds exactly when the first definition and the rest do. It is the first definition's items followed by the rest's. |
| Cpp.CppBodiesAppendOk | Cidl/Cpp.cs:57 | The bodies of `a ++ b` succeed exactly when those of `a` and of `b` both do. |
| Cpp.CppBodiesAppend | Cidl/Cpp.cs:57 | The bodies of `a ++ b` are the bodies of `a` followed by the bodies of `b`. |
| Cpp.CppBodiesSingle | Cidl/Cpp.cs:57 | The bodies of one definition are exactly that definition's rendering, error included. |
| Cpp.CppMap | Cidl/Cpp.cs:56-57 | The map's items are exactly the forward declarations, one per definition, followed by the bodies of all definitions. |
| Cpp.MapBodiesText | Cidl/Cpp.cs:56-57 | Past the forward declarations, the map's rendered lines are the rendered bodies. |
| Cpp.CppMapDecls | Cidl/Cpp.cs:56-57 | The first rendered lines of the map are its `struct k;` declarations, in map order. |
| Cpp.CppLibrary | Cidl/Cpp.cs:59-61 | A header is `#pragma once` followed by the namespace wrapper. It fails exactly when a reference in the definitions dangles, naming the first. |
| Cpp.CppLibraryFrame | Cidl/Cpp.cs:59-61 | A header renders as `#pragma once`, `namespace <Name>`, `{`, the map's lines one indent deeper, `}`. |
| Cpp.CppLibraryText | Cidl/Cpp.cs:56-61 | A header's line count is 4 plus one per definition plus its bodies. It starts with the three frame lines and the indented forward declarations in map order. The lines between those and the closing `}` are the bodies' lines, one indent deeper. |
| Cpp.CppEmptyLibrary | Cidl/Cpp.cs:59-61 | An empty library renders exactly `#pragma once`, `namespace N`, `{`, `}`. |
| Cpp.CppLibraryFails | Cidl/Cpp.cs:27 | A header fails iff some reference in the library's definitions names no definition. The error names the first such reference in emission order. |
| CidlExample.ExampleConversion | CidlExample/Com.cs:11-17 | IMy's two marked method descriptors convert to `void A()` and `I32 B(U8 x, U16* p)`. |
| CidlExample.ExampleFieldTypes | CidlExample/Com.cs:5-9 | S's descriptors convert to `{I32 A; I32 B}`. As written, both fields become references to `CidlExample.S`. |
| CidlExample.ExampleMissingMarker | Cidl/Cidl.cs:86-91 | Dropping the marker from `B` fails the whole interface with `PreserveSigRequired`. |
| CidlExample.ExampleLookup | Cidl/Cpp.cs:27 | The sample map finds S and IMy by full name, and finds nothing for the short name `IMy`. |
| CidlExample.ExampleStructListing | Cidl/Cidl.cs:194-200 | The intended S (fields converted from their own types) lists as `struct CidlExample.S`, `{`, `  I32 A;`, `  I32 B;`, `}`. |
| CidlExample.ExampleParamsB | Cidl/Cidl.cs:99 | `B`'s parameters list as `U8 x, U16* p`. |
| CidlExample.ExampleMethodLineB | Cidl/Cidl.cs:97-101 | `B` lists as `I32 B(U8 x, U16* p);`. |
| CidlExample.ExampleInterfaceListing | Cidl/Cidl.cs:202-209 | IMy lists as its Guid line, `interface CidlExample.IMy`, `{`, its two method lines indented, `}`. |
| CidlExample.ExampleResolution | Cidl/Cpp.cs:27-31 | In the header, IMy is `CidlExample.IMy*`, S is `CidlExample.S`, a pointer to IMy is `CidlExample.IMy**`, and `IMy` is missing. |
| CidlExample.ExampleCppParamsB | Cidl/Cpp.cs:35-36 | `B`'s parameters render as `uint8_t x, uint16_t* p`. |
| CidlExample.ExampleCppMethodB | Cidl/Cpp.cs:38-40 | `B` renders as `virtual int32_t __stdcall B(uint8_t x, uint16_t* p) = 0;`. |
| CidlExample.ExampleCppStruct | Cidl/Cpp.cs:50-51 | The intended S (fields converted from their own types) renders as `struct CidlExample.S`, `{`, `  int32_t A;`, `  int32_t B;`, `}`. |
| CidlExample.ExampleCppInterfaceItems | Cidl/Cpp.cs:53-54 | IMy's body is its two pure-virtual lines in a block under `struct CidlExample.IMy: IUnknown`. |
| CidlExample.ExampleCppInterface | Cidl/Cpp.cs:53-54 | IMy's body renders as `struct CidlExample.IMy: IUnknown`, `{`, its two pure-virtual lines indented, `}`. |
| CidlExample.ExampleNamespace | Cidl/Cpp.cs:56-57 | The sample map renders as both forward declarations, then S's body, then IMy's body. |
| CidlExample.ExampleHeader | Cidl/Cpp.cs:59-61 | The sample header is `#pragma once`, `namespace CidlExample`, `{`, the namespace lines indented, `}`. |
| CidlExample.ExampleDangling | Cidl/Cpp.cs:27 | A field typed as a pointer to an unknown name makes the whole header fail, naming it. |

## Left out

- `Library(IEnumerable<TypeInfo>)` (Cidl/Cidl.cs:10-19) is not modelled. It filters .NET reflection metadata, and `ToDictionary` throws on duplicate full names. The model takes the library map as input (`Library(name, defs)`).
- Duplicate keys are accepted by the model, where `ToDictionary` would throw. `Lookup` then finds the first definition with the key (`Cpp.LookupFirst`), and the header repeats the forward declaration and body for each duplicate. `DistinctKeys` names the dictionary's uniqueness, and `Cpp.LookupDistinct` shows that under it every definition is found by its own key. No operation requires it.
- Reflection itself is out of the model. `TypeInfo`, `MethodInfo`, `ParameterInfo` and `FieldInfo` are replaced by the descriptor datatypes `TypeDesc`, `MethodDesc`, `ParamDesc` and `FieldDesc`. Each one keeps only what the conversion reads.
- `Guid.ToString` formatting is not modelled. An interface identifier is kept as opaque text.
- Lazy enumeration is not modelled. The C# enumerables can emit some lines before the dictionary indexer throws. The model returns either all items or the first error, with nothing partial.
- Cidl/Program.cs (loading an assembly file and writing to the console) is not part of this model. It lists all interfaces before all structs.
- EnumerableFunc/IEnumerableFunc.cs, GenericCast/EnumerableCast.cs and the Test files are not part of this model. They are a runtime dynamic-dispatch utility unrelated to the pipeline.
- The `_ => "void"` fallback of the basic table (Cidl/Cpp.cs:19) and the `_ => Enumerable.Empty` dispatch fallback (Cidl/Cpp.cs:47) are absent. The model's closed datatypes make them unreachable.
- Cidl.ToMethod: the failure carries no method name. The thrown message in Cidl/Cidl.cs:90 names none either.
- Cidl.ToCidlType: built-in types outside the nine scalar kinds (`char`, `float`, `double`, `IntPtr`, ...) become `Named` with their runtime full name, as the code does. They are not rejected.

## Findings

| source | as written | input that shows it | evidently intended | confidence | as-written member | corrected member |
|---|---|---|---|---|---|---|
| Cidl/Cidl.cs:73 | `Param(FieldInfo)` converts `info.DeclaringType`, so every field takes the type of the struct that declares it | `struct S { int A; int B; }` (CidlExample/Com.cs:5-9) lists as `CidlExample.S A;` instead of `I32 A;` | convert the field's own type (`info.FieldType`) | high; not executed | Cidl.ToStructAsWritten, Cidl.StructAsWrittenLosesTypes, CidlExample.ExampleFieldTypes | Cidl.ToStruct, Cidl.StructRoundTrip |
