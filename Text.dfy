/** The indentation-aware text renderer (Cidl/Text.cs): a tree of lines and
    blocks flattened into indented lines. */
module TextRender {

  /** A renderable unit: one literal line, or a block whose children are
      indented one level deeper than the block itself. */
  datatype Item = Line(value: string) | Block(items: seq<Item>)

  /** `Item.Text(indent, offset)`: the lines of `it` when it starts at `offset`. */
  function ItemText(it: Item, indent: string, offset: string): (r: seq<string>)
    ensures forall line :: line in r ==> offset <= line
    decreases it
  {
    match it
    case Line(v) => [offset + v]
    case Block(items) =>
      var r := ListText(items, indent, offset + indent);
      forall line | line in r ensures offset <= line {
        PrefixOfPrefix(offset, indent, line);
      }
      r
  }

  /** The lines of every item of `items`, all started at `offset`, in order
      (the `SelectMany` of `Block.Text`). */
  function ListText(items: seq<Item>, indent: string, offset: string): (r: seq<string>)
    ensures forall line :: line in r ==> offset <= line
    decreases items
  {
    if items == [] then []
    else ItemText(items[0], indent, offset) + ListText(items[1..], indent, offset)
  }

  /** `TextEx.Text`: a top-level list, every item started at the empty offset. */
  function Text(list: seq<Item>, indent: string): (r: seq<string>)
    ensures |r| == ListLines(list)
  {
    ListTextLength(list, indent, "");
    ListText(list, indent, "")
  }

  /** `TextEx.Curly`: a header line, the opening brace, the block and the
      closing brace. */
  function Curly(block: Item, header: string): (r: seq<Item>)
    requires block.Block?
    ensures |r| == 4 && r[2] == block
    ensures ListLines(r) == 3 + ListLines(block.items)
  {
    var r := [Line(header), Line("{"), block, Line("}")];
    ListLinesCons(r[0], r[1..]);
    ListLinesCons(r[1], r[2..]);
    ListLinesCons(r[2], r[3..]);
    ListLinesCons(r[3], []);
    r
  }

  /** A sink that receives lines one at a time (the `Action<string>` that
      `Write` is given); `written` is everything it has received so far. */
  class LineSink {
    var written: seq<string>

    constructor ()
      ensures written == []
    {
      written := [];
    }

    method Put(line: string)
      modifies this
      ensures written == old(written) + [line]
    {
      written := written + [line];
    }
  }

  /** `TextEx.Write`: every line of the rendered list goes to the sink once,
      in order. */
  method Write(list: seq<Item>, indent: string, sink: LineSink)
    modifies sink
    ensures sink.written == old(sink.written) + Text(list, indent)
  {
    var lines := Text(list, indent);
    for i := 0 to |lines|
      invariant sink.written == old(sink.written) + lines[..i]
    {
      sink.Put(lines[i]);
    }
    assert lines[..|lines|] == lines;
  }

  // ---------------------------------------------------------------------
  // Reference layout: every Line leaf with the number of Blocks above it.

  /** A Line leaf of a tree together with its nesting depth. */
  datatype Leaf = Leaf(depth: nat, value: string)

  /** `n` copies of `s`. */
  function Repeat(s: string, n: nat): (r: string)
    ensures |r| == n * |s|
  {
    if n == 0 then "" else s + Repeat(s, n - 1)
  }

  /** The leaves of `leaves`, each one level deeper. */
  function Deepen(leaves: seq<Leaf>): (r: seq<Leaf>)
    ensures |r| == |leaves|
    ensures forall i :: 0 <= i < |r| ==> r[i].depth == leaves[i].depth + 1 && r[i].value == leaves[i].value
  {
    seq(|leaves|, i requires 0 <= i < |leaves| => Leaf(leaves[i].depth + 1, leaves[i].value))
  }

  /** The Line leaves of `it`, in order, with their depth below `it`. */
  function ItemLeaves(it: Item): seq<Leaf>
    decreases it
  {
    match it
    case Line(v) => [Leaf(0, v)]
    case Block(items) => Deepen(ListLeaves(items))
  }

  function ListLeaves(items: seq<Item>): seq<Leaf>
    decreases items
  {
    if items == [] then [] else ItemLeaves(items[0]) + ListLeaves(items[1..])
  }

  /** The number of Line leaves of a tree. */
  function ItemLines(it: Item): nat
    decreases it
  {
    match it
    case Line(_) => 1
    case Block(items) => ListLines(items)
  }

  function ListLines(items: seq<Item>): nat
    decreases items
  {
    if items == [] then 0 else ItemLines(items[0]) + ListLines(items[1..])
  }

  /** Every leaf printed at `offset` followed by one `indent` per level. */
  function Placed(offset: string, indent: string, leaves: seq<Leaf>): (r: seq<string>)
    ensures |r| == |leaves|
  {
    seq(|leaves|, i requires 0 <= i < |leaves| => offset + Repeat(indent, leaves[i].depth) + leaves[i].value)
  }

  /** Every line of `lines` preceded by `prefix`. */
  function Prefixed(prefix: string, lines: seq<string>): (r: seq<string>)
    ensures |r| == |lines|
    ensures forall i :: 0 <= i < |r| ==> r[i] == prefix + lines[i]
  {
    seq(|lines|, i requires 0 <= i < |lines| => prefix + lines[i])
  }

  // ---------------------------------------------------------------------
  // Lemmas

  /** A line that starts with `offset + indent` starts with `offset`. */
  lemma PrefixOfPrefix(offset: string, indent: string, line: string)
    requires offset + indent <= line
    ensures offset <= line
  {
    assert line[..|offset|] == (offset + indent)[..|offset|];
  }

  lemma ListLinesCons(x: Item, rest: seq<Item>)
    ensures ListLines([x] + rest) == ItemLines(x) + ListLines(rest)
  {
    assert ([x] + rest)[1..] == rest;
  }

  lemma ListTextCons(x: Item, rest: seq<Item>, indent: string, offset: string)
    ensures ListText([x] + rest, indent, offset) == ItemText(x, indent, offset) + ListText(rest, indent, offset)
  {
    assert ([x] + rest)[1..] == rest;
  }

  /** The number of rendered lines is the number of Line leaves: a Block adds
      no line of its own. */
  lemma {:induction false} ItemTextLength(it: Item, indent: string, offset: string)
    ensures |ItemText(it, indent, offset)| == ItemLines(it)
    decreases it
  {
    match it
    case Line(_) =>
    case Block(items) => ListTextLength(items, indent, offset + indent);
  }

  lemma {:induction false} ListTextLength(items: seq<Item>, indent: string, offset: string)
    ensures |ListText(items, indent, offset)| == ListLines(items)
    decreases items
  {
    if items != [] {
      ItemTextLength(items[0], indent, offset);
      ListTextLength(items[1..], indent, offset);
    }
  }

  /** Rendering a concatenated list renders each part in turn. */
  lemma {:induction false} ListTextAppend(a: seq<Item>, b: seq<Item>, indent: string, offset: string)
    ensures ListText(a + b, indent, offset) == ListText(a, indent, offset) + ListText(b, indent, offset)
  {
    if a == [] {
      assert a + b == b;
    } else {
      assert (a + b)[0] == a[0];
      assert (a + b)[1..] == a[1..] + b;
      ListTextAppend(a[1..], b, indent, offset);
    }
  }

  /** `Text(a ++ b) == Text(a) ++ Text(b)`. */
  lemma TextAppend(a: seq<Item>, b: seq<Item>, indent: string)
    ensures Text(a + b, indent) == Text(a, indent) + Text(b, indent)
  {
    ListTextAppend(a, b, indent, "");
  }

  lemma {:induction false} ListLinesAppend(a: seq<Item>, b: seq<Item>)
    ensures ListLines(a + b) == ListLines(a) + ListLines(b)
  {
    if a == [] {
      assert a + b == b;
    } else {
      assert (a + b)[0] == a[0];
      assert (a + b)[1..] == a[1..] + b;
      ListLinesAppend(a[1..], b);
    }
  }

  lemma PlacedAppend(offset: string, indent: string, a: seq<Leaf>, b: seq<Leaf>)
    ensures Placed(offset, indent, a + b) == Placed(offset, indent, a) + Placed(offset, indent, b)
  {
    var l, r := Placed(offset, indent, a + b), Placed(offset, indent, a) + Placed(offset, indent, b);
    forall i | 0 <= i < |l| ensures l[i] == r[i] {
      if i < |a| {
        assert (a + b)[i] == a[i];
      } else {
        assert (a + b)[i] == b[i - |a|];
      }
    }
  }

  lemma PlacedDeepen(offset: string, indent: string, leaves: seq<Leaf>)
    ensures Placed(offset, indent, Deepen(leaves)) == Placed(offset + indent, indent, leaves)
  {
    var l, r := Placed(offset, indent, Deepen(leaves)), Placed(offset + indent, indent, leaves);
    forall i | 0 <= i < |l| ensures l[i] == r[i] {
      var d, v := leaves[i].depth, leaves[i].value;
      assert Repeat(indent, d + 1) == indent + Repeat(indent, d);
      assert offset + (indent + Repeat(indent, d)) + v == (offset + indent) + Repeat(indent, d) + v;
    }
  }

  /** A tree renders to its leaves in order, each at the offset plus one
      indent per enclosing Block. */
  lemma {:induction false} ItemTextLayout(it: Item, indent: string, offset: string)
    ensures ItemText(it, indent, offset) == Placed(offset, indent, ItemLeaves(it))
    decreases it
  {
    match it
    case Line(v) =>
      assert offset + Repeat(indent, 0) + v == offset + v;
    case Block(items) =>
      ListTextLayout(items, indent, offset + indent);
      PlacedDeepen(offset, indent, ListLeaves(items));
  }

  lemma {:induction false} ListTextLayout(items: seq<Item>, indent: string, offset: string)
    ensures ListText(items, indent, offset) == Placed(offset, indent, ListLeaves(items))
    decreases items
  {
    if items != [] {
      ItemTextLayout(items[0], indent, offset);
      ListTextLayout(items[1..], indent, offset);
      PlacedAppend(offset, indent, ItemLeaves(items[0]), ListLeaves(items[1..]));
    }
  }

  /** Top-level rendering: a Line nested under d Blocks comes out as d copies
      of `indent` followed by its value, and the lines come in tree order. */
  lemma TextLayout(list: seq<Item>, indent: string)
    ensures Text(list, indent) == Placed("", indent, ListLeaves(list))
    ensures forall i :: 0 <= i < |Text(list, indent)| ==>
      Text(list, indent)[i] == Repeat(indent, ListLeaves(list)[i].depth) + ListLeaves(list)[i].value
  {
    ListTextLayout(list, indent, "");
    var leaves := ListLeaves(list);
    forall i | 0 <= i < |leaves|
      ensures Placed("", indent, leaves)[i] == Repeat(indent, leaves[i].depth) + leaves[i].value
    {
      assert "" + Repeat(indent, leaves[i].depth) == Repeat(indent, leaves[i].depth);
    }
  }

  /** Starting a list at `offset` prefixes every line it renders at the empty
      offset with `offset`. */
  lemma ListTextShift(items: seq<Item>, indent: string, offset: string)
    ensures ListText(items, indent, offset) == Prefixed(offset, ListText(items, indent, ""))
  {
    ListTextLayout(items, indent, offset);
    ListTextLayout(items, indent, "");
    var leaves := ListLeaves(items);
    forall i | 0 <= i < |leaves|
      ensures Placed(offset, indent, leaves)[i] == offset + Placed("", indent, leaves)[i]
    {
      assert "" + Repeat(indent, leaves[i].depth) == Repeat(indent, leaves[i].depth);
    }
  }

  /** A list of plain lines renders to their values at the offset. */
  lemma {:induction false} FlatText(items: seq<Item>, indent: string, offset: string)
    requires forall i :: 0 <= i < |items| ==> items[i].Line?
    ensures ListText(items, indent, offset) == seq(|items|, i requires 0 <= i < |items| => offset + items[i].value)
  {
    if items != [] {
      FlatText(items[1..], indent, offset);
    }
  }

  /** `Curly(Block(items), h)` renders as the header, the opening brace, the
      children one indent deeper, and the closing brace. */
  lemma CurlyText(block: Item, header: string, indent: string)
    requires block.Block?
    ensures Text(Curly(block, header), indent) == [header, "{"] + Prefixed(indent, Text(block.items, indent)) + ["}"]
  {
    var c := Curly(block, header);
    assert c == [Line(header)] + ([Line("{")] + ([block] + ([Line("}")] + [])));
    ListTextCons(Line(header), [Line("{"), block, Line("}")], indent, "");
    ListTextCons(Line("{"), [block, Line("}")], indent, "");
    ListTextCons(block, [Line("}")], indent, "");
    ListTextCons(Line("}"), [], indent, "");
    assert "" + indent == indent;
    assert "" + header == header;
    assert "" + "{" == "{";
    assert "" + "}" == "}";
    ListTextShift(block.items, indent, indent);
  }

  /** A braced block of plain lines renders as the header, the opening
      brace, each line one indent deeper, and the closing brace. */
  lemma FlatCurlyText(items: seq<Item>, header: string, indent: string)
    requires forall i :: 0 <= i < |items| ==> items[i].Line?
    ensures Text(Curly(Block(items), header), indent) ==
      [header, "{"] + seq(|items|, i requires 0 <= i < |items| => indent + items[i].value) + ["}"]
  {
    CurlyText(Block(items), header, indent);
    FlatText(items, indent, "");
    var flat := ListText(items, indent, "");
    forall i | 0 <= i < |items|
      ensures Prefixed(indent, flat)[i] == indent + items[i].value
    {
      assert flat[i] == "" + items[i].value;
    }
  }
}
