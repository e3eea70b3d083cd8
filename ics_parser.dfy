/** `ICSParser` (ics_to_todotxt.py): a line parser for the subset of
    iCalendar (RFC 5545) that task exports use. Physical lines are unfolded
    into logical lines, and each logical line either opens a component
    (`BEGIN:`), closes one (`END:`) or sets a property of the component
    that is open.

    The source keeps a current dictionary and a stack of its ancestors;
    a new child dictionary is appended to its parent's list at `BEGIN` and
    then filled in place, the parent seeing it through aliasing. Here each
    open component is a frame holding its value so far and the key under
    which it hangs in its parent. `BEGIN` appends an empty placeholder to
    the parent's list and `END` puts the finished child in its place. A
    component is filled only while it is the innermost open one, so its
    value at `END` is the one the parent sees from then on, and the two
    views agree. */
module IcsParser {
  import opened Wrappers
  import opened Strings

  /** A property value, or the list of child components of one type. */
  datatype Value = Scalar(text: string) | Children(nodes: seq<Node>)

  /** A component: its properties and its lists of children, by key. */
  datatype Node = Node(fields: map<string, Value>)

  const Empty := Node(map[])

  /** An open component and the key under which its parent lists it. */
  datatype Frame = Frame(name: string, node: Node)

  /** The exceptions the parser raises. */
  datatype ParseError =
    | EmptyLine                   // `line[0]` on an empty physical line
    | UnbalancedEnd               // `pop` on an empty stack
    | BeginOnScalar(name: string) // `append` on a property value
    | MissingColon(line: string)  // unpacking `split(':', 1)` of one piece
    | NoCalendar                  // `get_root` finds no VCALENDAR list
    | NoTasks                     // no VTODO list under the calendar

  /** The parser's state: the open ancestors, outermost first, and the
      component lines are added to (`__stack` and `__node`). */
  datatype Cursor = Cursor(stack: seq<Frame>, current: Frame)

  const Initial := Cursor([], Frame([], Empty))

  /** Every open frame is listed, as the last of a non-empty list of
      children, under the key `name` in the frame below it, and so on
      down to the outermost frame. */
  predicate Linked(stack: seq<Frame>, name: string)
    decreases |stack|
  {
    stack == [] ||
    var parent := stack[|stack| - 1];
    && name in parent.node.fields
    && parent.node.fields[name].Children?
    && parent.node.fields[name].nodes != []
    && Linked(stack[..|stack| - 1], parent.name)
  }

  /** The cursor is consistent: the current frame and its ancestors are
      linked. */
  predicate WellFormed(c: Cursor) {
    Linked(c.stack, c.current.name)
  }

  predicate IsBegin(line: string) { StartsWith(line, "BEGIN:") }

  predicate IsEnd(line: string) { !IsBegin(line) && StartsWith(line, "END:") }

  /** A line that sets a property. */
  predicate IsProperty(line: string) { !IsBegin(line) && !IsEnd(line) && ':' in line }

  /** The key of a property line: the text before the first `:`, cut at
      its first `;` so that parameters are dropped. */
  function Key(line: string): (k: string)
    ensures k <= line && ':' !in k && ';' !in k
    ensures |k| < |line| ==> line[|k|] == ':' || line[|k|] == ';'
  {
    Before(Before(line, ':'), ';')
  }

  /** The value of a property line: everything after the first `:`. */
  function ValueOf(line: string): (v: string)
    requires ':' in line
    ensures line == Before(line, ':') + ":" + v
  {
    var n := |Before(line, ':')|;
    assert line == line[..n] + [line[n]] + line[n + 1..];
    line[n + 1..]
  }

  /** The child `child` put in the place of the last element of its list,
      the placeholder `BEGIN` left there. */
  function Attach(parent: Node, child: Frame): (r: Node)
    requires child.name in parent.fields && parent.fields[child.name].Children?
    requires parent.fields[child.name].nodes != []
    ensures r.fields.Keys == parent.fields.Keys
  {
    var list := parent.fields[child.name].nodes;
    Node(parent.fields[child.name := Children(list[..|list| - 1] + [child.node])])
  }

  /** The state after `END`: the innermost frame is closed into its parent,
      which becomes current again. */
  function Close(c: Cursor): (r: Cursor)
    requires WellFormed(c) && c.stack != []
    ensures WellFormed(r) && |r.stack| == |c.stack| - 1
  {
    var n := |c.stack|;
    var parent := c.stack[n - 1];
    Cursor(c.stack[..n - 1], Frame(parent.name, Attach(parent.node, c.current)))
  }

  /** The cursor after `__parse_line`, or the exception it raises. */
  function ParsedLine(c: Cursor, line: string): (r: Result<Cursor, ParseError>)
    requires WellFormed(c)
    ensures r.Ok? ==> WellFormed(r.value)
    ensures r.Ok? ==> |r.value.stack| == |c.stack| + (if IsBegin(line) then 1 else if IsEnd(line) then -1 else 0)
    ensures r.Err? <==> (IsBegin(line) && line[6..] in c.current.node.fields && c.current.node.fields[line[6..]].Scalar?)
                        || (IsEnd(line) && c.stack == [])
                        || (!IsBegin(line) && !IsEnd(line) && ':' !in line)
  {
    var fields := c.current.node.fields;
    if IsBegin(line) then
      var name := line[6..];
      if name in fields && fields[name].Scalar? then Err(BeginOnScalar(name))
      else
        var siblings := if name in fields then fields[name].nodes else [];
        var parent := Frame(c.current.name, Node(fields[name := Children(siblings + [Empty])]));
        assert (c.stack + [parent])[..|c.stack|] == c.stack;
        Ok(Cursor(c.stack + [parent], Frame(name, Empty)))
    else if IsEnd(line) then
      if c.stack == [] then Err(UnbalancedEnd) else Ok(Close(c))
    else if ':' !in line then Err(MissingColon(line))
    else
      var key := Key(line);
      if key in fields then Ok(c)
      else
        Ok(c.(current := c.current.(node := Node(fields[key := Scalar(ValueOf(line))]))))
  }

  /** The logical lines, in order, parsed from cursor `c`. */
  function ParseLogical(c: Cursor, lines: seq<string>): (r: Result<Cursor, ParseError>)
    requires WellFormed(c)
    ensures r.Ok? ==> WellFormed(r.value)
    decreases |lines|
  {
    if lines == [] then Ok(c)
    else match ParsedLine(c, lines[0])
      case Err(e) => Err(e)
      case Ok(next) => ParseLogical(next, lines[1..])
  }

  /** The loop of `__init__` over the remaining physical lines, with the
      logical line `buf` still buffered, followed by the final flush. */
  function Scan(c: Cursor, buf: Option<string>, lines: seq<string>): (r: Result<Cursor, ParseError>)
    requires WellFormed(c)
    ensures r.Ok? ==> WellFormed(r.value)
    decreases |lines|
  {
    if lines == [] then
      if buf.Some? then ParsedLine(c, buf.value) else Ok(c)
    else
      var line := StripEol(lines[0]);
      if buf.None? then Scan(c, Some(line), lines[1..])
      else if line == [] then Err(EmptyLine)
      else if line[0] == ' ' then Scan(c, Some(buf.value + line[1..]), lines[1..])
      else match ParsedLine(c, buf.value)
        case Err(e) => Err(e)
        case Ok(next) => Scan(next, Some(line), lines[1..])
  }

  /** What constructing an `ICSParser` on the physical lines yields. */
  function Parse(lines: seq<string>): Result<Cursor, ParseError> {
    Scan(Initial, None, lines)
  }

  /** Line unfolding alone, with `buf` the logical line being built. */
  function UnfoldFrom(buf: string, lines: seq<string>): Result<seq<string>, ParseError>
    decreases |lines|
  {
    if lines == [] then Ok([buf])
    else
      var line := StripEol(lines[0]);
      if line == [] then Err(EmptyLine)
      else if line[0] == ' ' then UnfoldFrom(buf + line[1..], lines[1..])
      else match UnfoldFrom(line, lines[1..])
        case Err(e) => Err(e)
        case Ok(rest) => Ok([buf] + rest)
  }

  /** The logical lines of the physical lines: line endings stripped, and a
      line starting with a space appended, without the space, to the one
      before it. The first line is never a continuation. */
  function Unfold(lines: seq<string>): Result<seq<string>, ParseError> {
    if lines == [] then Ok([]) else UnfoldFrom(StripEol(lines[0]), lines[1..])
  }

  lemma {:induction false} ScanUnfoldFrom(c: Cursor, buf: string, lines: seq<string>)
    requires WellFormed(c) && UnfoldFrom(buf, lines).Ok?
    ensures Scan(c, Some(buf), lines) == ParseLogical(c, UnfoldFrom(buf, lines).value)
    decreases |lines|
  {
    if lines == [] {
      assert [buf][1..] == [];
    } else {
      var line := StripEol(lines[0]);
      if line[0] == ' ' {
        ScanUnfoldFrom(c, buf + line[1..], lines[1..]);
      } else {
        var rest := UnfoldFrom(line, lines[1..]).value;
        assert ([buf] + rest)[0] == buf && ([buf] + rest)[1..] == rest;
        match ParsedLine(c, buf)
        case Err(e) =>
        case Ok(next) => ScanUnfoldFrom(next, line, lines[1..]);
      }
    }
  }

  /** Parsing is unfolding followed by parsing the logical lines in order,
      whenever unfolding succeeds. */
  lemma ParseIsUnfoldThenParse(lines: seq<string>)
    requires Unfold(lines).Ok?
    ensures Parse(lines) == ParseLogical(Initial, Unfold(lines).value)
  {
    if lines != [] {
      ScanUnfoldFrom(Initial, StripEol(lines[0]), lines[1..]);
    }
  }

  /** Where unfolding fails, on an empty physical line, the loop fails too:
      at that line at the latest, since `line[0]` raises on it. */
  lemma {:induction false} ScanFailsWhenUnfoldFails(c: Cursor, buf: string, lines: seq<string>)
    requires WellFormed(c) && UnfoldFrom(buf, lines).Err?
    ensures Scan(c, Some(buf), lines).Err?
    decreases |lines|
  {
    var line := StripEol(lines[0]);
    if line == [] {
    } else if line[0] == ' ' {
      ScanFailsWhenUnfoldFails(c, buf + line[1..], lines[1..]);
    } else {
      match ParsedLine(c, buf)
      case Err(_) =>
      case Ok(next) => ScanFailsWhenUnfoldFails(next, line, lines[1..]);
    }
  }

  /** A file with an empty line after its first line cannot be parsed. */
  lemma ParseFailsWhenUnfoldFails(lines: seq<string>)
    requires Unfold(lines).Err?
    ensures Parse(lines).Err?
  {
    ScanFailsWhenUnfoldFails(Initial, StripEol(lines[0]), lines[1..]);
  }

  /** The number of `BEGIN` lines less the number of `END` lines. */
  function Depth(lines: seq<string>): int {
    if lines == [] then 0
    else (if IsBegin(lines[0]) then 1 else if IsEnd(lines[0]) then -1 else 0) + Depth(lines[1..])
  }

  /** The stack grows by one per `BEGIN` and shrinks by one per `END`. */
  lemma {:induction false} ParseLogicalDepth(c: Cursor, lines: seq<string>)
    requires WellFormed(c) && ParseLogical(c, lines).Ok?
    ensures |ParseLogical(c, lines).value.stack| == |c.stack| + Depth(lines)
    decreases |lines|
  {
    if lines != [] {
      ParseLogicalDepth(ParsedLine(c, lines[0]).value, lines[1..]);
    }
  }

  /** The value of the first of the lines whose key is `k`. */
  function FirstValue(lines: seq<string>, k: string): Option<string>
    requires forall i {:trigger lines[i]} :: 0 <= i < |lines| ==> IsProperty(lines[i])
  {
    if lines == [] then None
    else if Key(lines[0]) == k then assert IsProperty(lines[0]); Some(ValueOf(lines[0]))
    else FirstValue(lines[1..], k)
  }

  /** Property lines succeed, leave the stack alone, never change a key
      already present, and give every new key the value of its first line. */
  lemma {:induction false} PropertiesFirstWins(c: Cursor, lines: seq<string>)
    requires WellFormed(c)
    requires forall i {:trigger lines[i]} :: 0 <= i < |lines| ==> IsProperty(lines[i])
    ensures ParseLogical(c, lines).Ok?
    ensures var d := ParseLogical(c, lines).value;
      && d.stack == c.stack && d.current.name == c.current.name
      && (forall k :: k in d.current.node.fields <==> k in c.current.node.fields || FirstValue(lines, k).Some?)
      && (forall k :: k in c.current.node.fields ==> d.current.node.fields[k] == c.current.node.fields[k])
      && (forall k :: k !in c.current.node.fields && FirstValue(lines, k).Some? ==>
            d.current.node.fields[k] == Scalar(FirstValue(lines, k).value))
    decreases |lines|
  {
    if lines != [] {
      var line := lines[0];
      assert IsProperty(line);
      var fields := c.current.node.fields;
      var key := Key(line);
      var next := ParsedLine(c, line).value;
      assert next.stack == c.stack && next.current.name == c.current.name;
      assert next.current.node.fields == if key in fields then fields else fields[key := Scalar(ValueOf(line))];
      PropertiesFirstWins(next, lines[1..]);
    }
  }

  /** Property lines only ever change the current frame, the same way
      whatever the stack below it. */
  lemma {:induction false} PropertiesKeepStack(c: Cursor, lines: seq<string>)
    requires WellFormed(c)
    requires forall i {:trigger lines[i]} :: 0 <= i < |lines| ==> IsProperty(lines[i])
    ensures ParseLogical(c, lines).Ok? && ParseLogical(Cursor([], c.current), lines).Ok?
    ensures ParseLogical(c, lines).value
         == Cursor(c.stack, ParseLogical(Cursor([], c.current), lines).value.current)
    ensures ParseLogical(c, lines).value.current.name == c.current.name
    decreases |lines|
  {
    if lines != [] {
      assert IsProperty(lines[0]);
      var next := ParsedLine(c, lines[0]).value;
      assert ParsedLine(Cursor([], c.current), lines[0]).value == Cursor([], next.current);
      PropertiesKeepStack(next, lines[1..]);
    }
  }

  /** Every `END` among the lines closes a component that they opened
      themselves or one of the `open` components already open: parsing
      them never pops below the stack it starts from. */
  predicate ClosesWithin(lines: seq<string>, open: nat)
    decreases |lines|
  {
    lines == [] ||
    if IsBegin(lines[0]) then ClosesWithin(lines[1..], open + 1)
    else if IsEnd(lines[0]) then open > 0 && ClosesWithin(lines[1..], open - 1)
    else ClosesWithin(lines[1..], open)
  }

  /** The frames below an open chain are linked among themselves. */
  lemma {:induction false} LinkedSuffix(s: seq<Frame>, t: seq<Frame>, name: string)
    requires Linked(s + t, name)
    ensures Linked(t, name)
    decreases |t|
  {
    if t != [] {
      var st := s + t;
      assert st[|st| - 1] == t[|t| - 1];
      assert st[..|st| - 1] == s + t[..|t| - 1];
      LinkedSuffix(s, t[..|t| - 1], t[|t| - 1].name);
    }
  }

  /** One line, parsed with more frames `s` below the stack, does what it
      does without them, unless it is an `END` on an empty stack. */
  lemma ParsedLineFrame(s: seq<Frame>, c: Cursor, line: string)
    requires WellFormed(Cursor(s + c.stack, c.current)) && WellFormed(c)
    requires IsEnd(line) ==> c.stack != []
    ensures ParsedLine(Cursor(s + c.stack, c.current), line)
         == match ParsedLine(c, line)
            case Err(e) => Err(e)
            case Ok(next) => Ok(Cursor(s + next.stack, next.current))
  {
    var n := |c.stack|;
    var fields := c.current.node.fields;
    if IsBegin(line) && !(line[6..] in fields && fields[line[6..]].Scalar?) {
      var name := line[6..];
      var siblings := if name in fields then fields[name].nodes else [];
      var parent := Frame(c.current.name, Node(fields[name := Children(siblings + [Empty])]));
      assert (s + c.stack) + [parent] == s + (c.stack + [parent]);
    } else if IsEnd(line) {
      var st := s + c.stack;
      assert st[|st| - 1] == c.stack[n - 1];
      assert st[..|st| - 1] == s + c.stack[..n - 1];
    }
  }

  /** Frames below the stack that lines never close into do not change how
      the lines are parsed: the result is the one without them, with the
      frames `s` put back at the bottom of its stack. */
  lemma {:induction false} ParseLogicalFrame(s: seq<Frame>, c: Cursor, lines: seq<string>)
    requires WellFormed(Cursor(s + c.stack, c.current))
    requires ClosesWithin(lines, |c.stack|)
    ensures WellFormed(c)
    ensures ParseLogical(Cursor(s + c.stack, c.current), lines)
         == match ParseLogical(c, lines)
            case Err(e) => Err(e)
            case Ok(d) => Ok(Cursor(s + d.stack, d.current))
    decreases |lines|
  {
    LinkedSuffix(s, c.stack, c.current.name);
    if lines != [] {
      ParsedLineFrame(s, c, lines[0]);
      match ParsedLine(c, lines[0])
      case Err(e) =>
      case Ok(next) => ParseLogicalFrame(s, next, lines[1..]);
    }
  }

  /** Lines that parse from a cursor never close below its stack. */
  lemma {:induction false} ParsedClosesWithin(c: Cursor, lines: seq<string>)
    requires WellFormed(c) && ParseLogical(c, lines).Ok?
    ensures ClosesWithin(lines, |c.stack|)
    decreases |lines|
  {
    if lines != [] {
      ParsedClosesWithin(ParsedLine(c, lines[0]).value, lines[1..]);
    }
  }

  /** The key of the outermost open frame: the name of the component the
      whole parse hangs under. */
  function BaseName(c: Cursor): string {
    if c.stack == [] then c.current.name else c.stack[0].name
  }

  /** Parsing never changes the outermost frame's key. */
  lemma {:induction false} ParseLogicalBaseName(c: Cursor, lines: seq<string>)
    requires WellFormed(c) && ParseLogical(c, lines).Ok?
    ensures BaseName(ParseLogical(c, lines).value) == BaseName(c)
    decreases |lines|
  {
    if lines != [] {
      var next := ParsedLine(c, lines[0]).value;
      if IsEnd(lines[0]) && |c.stack| > 1 {
        assert c.stack[..|c.stack| - 1][0] == c.stack[0];
      }
      ParseLogicalBaseName(next, lines[1..]);
    }
  }

  /** Once `BEGIN:x` has opened the child, the body fills it and the
      `END` line hands it to its parent. */
  lemma BodyThenEnd(c: Cursor, x: string, body: seq<string>, end: string)
    requires WellFormed(c)
    requires x !in c.current.node.fields || c.current.node.fields[x].Children?
    requires ParseLogical(Cursor([], Frame(x, Empty)), body).Ok?
    requires ParseLogical(Cursor([], Frame(x, Empty)), body).value.stack == []
    requires IsEnd(end)
    ensures var fields := c.current.node.fields;
      var siblings := if x in fields then fields[x].nodes else [];
      var parent := Frame(c.current.name, Node(fields[x := Children(siblings + [Empty])]));
      var child := ParseLogical(Cursor([], Frame(x, Empty)), body).value;
      ParseLogical(Cursor(c.stack + [parent], Frame(x, Empty)), body + [end])
        == Ok(Cursor(c.stack, Frame(c.current.name, Node(fields[x := Children(siblings + [child.current.node])]))))
  {
    var fields := c.current.node.fields;
    var siblings := if x in fields then fields[x].nodes else [];
    var inner := Cursor(c.stack + [Frame(c.current.name, Node(fields[x := Children(siblings + [Empty])]))], Frame(x, Empty));
    var alone := Cursor([], Frame(x, Empty));
    var child := ParseLogical(alone, body).value;
    ParsedClosesWithin(alone, body);
    assert inner.stack + alone.stack == inner.stack;
    ParseLogicalFrame(inner.stack, alone, body);
    ParseLogicalBaseName(alone, body);
    var filled := Cursor(inner.stack, child.current);
    assert inner.stack + child.stack == inner.stack;
    CloseStep(c, x, child.current);
    ParseLogicalOne(filled, end);
    ParseLogicalAppend(inner, body, [end]);
  }

  /** A block `BEGIN:x`, a body, `END:` appends the component the body
      describes, parsed on its own, to the end of list `x` of the current
      component and changes nothing else: children stay in source order
      and the parent sees everything set on the child after it was
      appended. The body may itself hold nested blocks, as long as it
      closes each one it opens. */
  lemma BlockAppendsChild(c: Cursor, x: string, body: seq<string>, end: string)
    requires WellFormed(c)
    requires x !in c.current.node.fields || c.current.node.fields[x].Children?
    requires ParseLogical(Cursor([], Frame(x, Empty)), body).Ok?
    requires ParseLogical(Cursor([], Frame(x, Empty)), body).value.stack == []
    requires IsEnd(end)
    ensures var lines := ["BEGIN:" + x] + body + [end];
      var siblings := if x in c.current.node.fields then c.current.node.fields[x].nodes else [];
      var child := ParseLogical(Cursor([], Frame(x, Empty)), body).value;
      ParseLogical(c, lines)
        == Ok(Cursor(c.stack, Frame(c.current.name,
              Node(c.current.node.fields[x := Children(siblings + [child.current.node])]))))
  {
    var begin := "BEGIN:" + x;
    var inner := OpenStep(c, x);
    BodyThenEnd(c, x, body, end);
    ParseLogicalAppend(c, [begin], body + [end]);
    assert [begin] + (body + [end]) == ["BEGIN:" + x] + body + [end];
  }

  /** For a body of property lines the child always parses, and the block
      appends it. */
  lemma PropertyBlockAppendsChild(c: Cursor, x: string, props: seq<string>, end: string)
    requires WellFormed(c)
    requires x !in c.current.node.fields || c.current.node.fields[x].Children?
    requires forall i {:trigger props[i]} :: 0 <= i < |props| ==> IsProperty(props[i])
    requires IsEnd(end)
    ensures var lines := ["BEGIN:" + x] + props + [end];
      var siblings := if x in c.current.node.fields then c.current.node.fields[x].nodes else [];
      var child := ParseLogical(Cursor([], Frame(x, Empty)), props);
      && child.Ok?
      && ParseLogical(c, lines)
         == Ok(Cursor(c.stack, Frame(c.current.name,
                Node(c.current.node.fields[x := Children(siblings + [child.value.current.node])]))))
  {
    PropertiesKeepStack(Cursor([], Frame(x, Empty)), props);
    BlockAppendsChild(c, x, props, end);
  }

  /** `k:v` sets property `k` to `v` when `k` is a plain name. */
  lemma PropertyLine(k: string, v: string)
    requires k != [] && k[0] != 'B' && k[0] != 'E' && ':' !in k && ';' !in k
    ensures IsProperty(k + ":" + v) && Key(k + ":" + v) == k && ValueOf(k + ":" + v) == v
  {
    var line := k + ":" + v;
    assert line[0] == k[0] && line[|k|] == ':';
    assert Before(line, ':') == k;
    var w := ValueOf(line);
    assert |w| == |v|;
    assert forall i :: 0 <= i < |v| ==> w[i] == line[|k| + 1 + i] == v[i];
  }

  /** The line `k:v` adds property `k`, when new, with value `v`. */
  lemma SetStep(c: Cursor, k: string, v: string)
    requires WellFormed(c)
    requires k != [] && k[0] != 'B' && k[0] != 'E' && ':' !in k && ';' !in k
    requires k !in c.current.node.fields
    ensures ParseLogical(c, [k + ":" + v])
         == Ok(c.(current := c.current.(node := Node(c.current.node.fields[k := Scalar(v)]))))
  {
    PropertyLine(k, v);
    ParseLogicalOne(c, k + ":" + v);
  }

  /** `END:x` closes a component. */
  lemma EndLine(x: string)
    ensures IsEnd("END:" + x)
  {
    assert ("END:" + x)[0] == 'E';
  }

  /** The VALARM block below, written as its three parts. */
  lemma AlarmLines(block: seq<string>)
    requires block == ["BEGIN:VALARM", "ACTION:x", "END:VALARM"]
    ensures block == ["BEGIN:" + "VALARM"] + ["ACTION" + ":" + "x"] + ["END:" + "VALARM"]
    ensures IsEnd("END:" + "VALARM")
  {
    assert "BEGIN:" + "VALARM" == block[0] && "ACTION" + ":" + "x" == block[1] && "END:" + "VALARM" == block[2];
    EndLine("VALARM");
  }

  /** The body of the VALARM below. */
  lemma AlarmBody(alarm: Cursor)
    requires alarm == Cursor([], Frame("VALARM", Empty))
    ensures ParseLogical(alarm, ["ACTION" + ":" + "x"])
         == Ok(Cursor([], Frame("VALARM", Node(map["ACTION" := Scalar("x")]))))
  {
    SetStep(alarm, "ACTION", "x");
  }

  /** A VALARM block in a VTODO that has a SUMMARY. */
  lemma AlarmExample(c: Cursor, block: seq<string>)
    requires c == Cursor([], Frame("VTODO", Node(map["SUMMARY" := Scalar("a")])))
    requires block == ["BEGIN:VALARM", "ACTION:x", "END:VALARM"]
    ensures ParseLogical(c, block) == Ok(Cursor([], Frame("VTODO",
      Node(map["SUMMARY" := Scalar("a"), "VALARM" := Children([Node(map["ACTION" := Scalar("x")])])]))))
  {
    AlarmLines(block);
    AlarmBody(Cursor([], Frame("VALARM", Empty)));
    BlockAppendsChild(c, "VALARM", ["ACTION" + ":" + "x"], "END:" + "VALARM");
    var alarmNode := Node(map["ACTION" := Scalar("x")]);
    var none: seq<Node> := [];
    assert none + [alarmNode] == [alarmNode];
    assert "VALARM" !in c.current.node.fields;
    assert c.current.node.fields["VALARM" := Children([alarmNode])]
        == map["SUMMARY" := Scalar("a"), "VALARM" := Children([alarmNode])];
  }

  /** `STATUS:b` after the alarm adds a third property. */
  lemma StatusAfterAlarm(c: Cursor, status: string)
    requires c == Cursor([], Frame("VTODO",
      Node(map["SUMMARY" := Scalar("a"), "VALARM" := Children([Node(map["ACTION" := Scalar("x")])])])))
    requires status == "STATUS" + ":" + "b"
    ensures ParseLogical(c, [status])
      == Ok(Cursor([], Frame("VTODO",
           Node(map["SUMMARY" := Scalar("a"),
                    "VALARM" := Children([Node(map["ACTION" := Scalar("x")])]),
                    "STATUS" := Scalar("b")]))))
  {
    SetStep(c, "STATUS", "b");
  }

  /** The VTODO below, line by line: a property, a VALARM block, and a
      property set after the alarm was listed. */
  lemma TodoSteps(todo: Cursor, summary: string, block: seq<string>, status: string)
    requires todo == Cursor([], Frame("VTODO", Empty))
    requires summary == "SUMMARY" + ":" + "a" && status == "STATUS" + ":" + "b"
    requires block == ["BEGIN:VALARM", "ACTION:x", "END:VALARM"]
    ensures ParseLogical(todo, [summary] + block + [status])
      == Ok(Cursor([], Frame("VTODO",
           Node(map["SUMMARY" := Scalar("a"),
                    "VALARM" := Children([Node(map["ACTION" := Scalar("x")])]),
                    "STATUS" := Scalar("b")]))))
  {
    SetStep(todo, "SUMMARY", "a");
    var filled := Cursor([], Frame("VTODO", Node(map["SUMMARY" := Scalar("a")])));
    assert ParseLogical(todo, [summary]) == Ok(filled);
    AlarmExample(filled, block);
    var withAlarm := Cursor([], Frame("VTODO",
      Node(map["SUMMARY" := Scalar("a"), "VALARM" := Children([Node(map["ACTION" := Scalar("x")])])])));
    StatusAfterAlarm(withAlarm, status);
    ParseLogicalAppend(todo, [summary], block);
    ParseLogicalAppend(todo, [summary] + block, [status]);
  }

  /** The body of the VTODO below. */
  lemma TodoBodyExample(todo: Cursor, body: seq<string>)
    requires todo == Cursor([], Frame("VTODO", Empty))
    requires body == ["SUMMARY:a", "BEGIN:VALARM", "ACTION:x", "END:VALARM", "STATUS:b"]
    ensures ParseLogical(todo, body)
      == Ok(Cursor([], Frame("VTODO",
           Node(map["SUMMARY" := Scalar("a"),
                    "VALARM" := Children([Node(map["ACTION" := Scalar("x")])]),
                    "STATUS" := Scalar("b")]))))
  {
    assert body == [body[0]] + body[1..4] + [body[4]];
    TodoSteps(todo, body[0], body[1..4], body[4]);
  }

  /** The calendar below, block by block. */
  lemma CalendarSteps(body: seq<string>)
    requires body == ["SUMMARY:a", "BEGIN:VALARM", "ACTION:x", "END:VALARM", "STATUS:b"]
    ensures ParseLogical(Initial,
      ["BEGIN:" + "VCALENDAR"] + (["BEGIN:" + "VTODO"] + body + ["END:" + "VTODO"]) + ["END:" + "VCALENDAR"])
      == Ok(Cursor([], Frame([], Node(map["VCALENDAR" := Children([Node(map["VTODO" := Children([
           Node(map["SUMMARY" := Scalar("a"),
                    "VALARM" := Children([Node(map["ACTION" := Scalar("x")])]),
                    "STATUS" := Scalar("b")])])])])]))))
  {
    var todo := Node(map["SUMMARY" := Scalar("a"),
                         "VALARM" := Children([Node(map["ACTION" := Scalar("x")])]),
                         "STATUS" := Scalar("b")]);
    var calendar := Node(map["VTODO" := Children([todo])]);
    var inCalendar := Cursor([], Frame("VCALENDAR", Empty));
    TodoBodyExample(Cursor([], Frame("VTODO", Empty)), body);
    EndLine("VTODO");
    EndLine("VCALENDAR");
    BlockAppendsChild(inCalendar, "VTODO", body, "END:" + "VTODO");
    var calendarBody := ["BEGIN:" + "VTODO"] + body + ["END:" + "VTODO"];
    var none: seq<Node> := [];
    assert none + [todo] == [todo];
    assert ParseLogical(inCalendar, calendarBody) == Ok(Cursor([], Frame("VCALENDAR", calendar)));
    BlockAppendsChild(Initial, "VCALENDAR", calendarBody, "END:" + "VCALENDAR");
    assert none + [calendar] == [calendar];
  }

  /** A VALARM inside a VTODO inside a VCALENDAR: the VTODO gets its
      `STATUS` after it and its alarm were listed, and the calendar still
      sees it, alarm and status included. */
  lemma NestedExample(lines: seq<string>)
    requires lines == ["BEGIN:VCALENDAR", "BEGIN:VTODO", "SUMMARY:a", "BEGIN:VALARM", "ACTION:x",
                       "END:VALARM", "STATUS:b", "END:VTODO", "END:VCALENDAR"]
    ensures ParseLogical(Initial, lines)
      == Ok(Cursor([], Frame([], Node(map["VCALENDAR" := Children([Node(map["VTODO" := Children([
           Node(map["SUMMARY" := Scalar("a"),
                    "VALARM" := Children([Node(map["ACTION" := Scalar("x")])]),
                    "STATUS" := Scalar("b")])])])])]))))
  {
    assert lines == ["BEGIN:" + "VCALENDAR"] + (["BEGIN:" + "VTODO"] + lines[2..7] + ["END:" + "VTODO"])
                    + ["END:" + "VCALENDAR"] by {
      assert "BEGIN:" + "VCALENDAR" == lines[0] && "BEGIN:" + "VTODO" == lines[1];
      assert "END:" + "VTODO" == lines[7] && "END:" + "VCALENDAR" == lines[8];
    }
    CalendarSteps(lines[2..7]);
  }

  /** The cursor after `BEGIN:x`. */
  lemma OpenStep(c: Cursor, x: string) returns (inner: Cursor)
    requires WellFormed(c)
    requires x !in c.current.node.fields || c.current.node.fields[x].Children?
    ensures var fields := c.current.node.fields;
      var siblings := if x in fields then fields[x].nodes else [];
      inner == Cursor(c.stack + [Frame(c.current.name, Node(fields[x := Children(siblings + [Empty])]))], Frame(x, Empty))
    ensures ParseLogical(c, ["BEGIN:" + x]) == Ok(inner)
  {
    var begin := "BEGIN:" + x;
    assert IsBegin(begin) && begin[6..] == x;
    inner := ParsedLine(c, begin).value;
    ParseLogicalOne(c, begin);
  }

  /** Closing a child that was opened from `c` puts it in the placeholder. */
  lemma CloseStep(c: Cursor, x: string, child: Frame)
    requires WellFormed(c) && child.name == x
    requires x !in c.current.node.fields || c.current.node.fields[x].Children?
    ensures var fields := c.current.node.fields;
      var siblings := if x in fields then fields[x].nodes else [];
      var parent := Frame(c.current.name, Node(fields[x := Children(siblings + [Empty])]));
      var filled := Cursor(c.stack + [parent], child);
      && WellFormed(filled)
      && Close(filled) == Cursor(c.stack, Frame(c.current.name, Node(fields[x := Children(siblings + [child.node])])))
  {
    var fields := c.current.node.fields;
    var siblings := if x in fields then fields[x].nodes else [];
    var list := siblings + [Empty];
    assert list[..|list| - 1] == siblings;
    assert (c.stack + [Frame(c.current.name, Node(fields[x := Children(list)]))])[..|c.stack|] == c.stack;
  }

  lemma ParseLogicalOne(c: Cursor, line: string)
    requires WellFormed(c)
    ensures ParseLogical(c, [line]) == ParsedLine(c, line)
  {
    var one := [line];
    assert one[1..] == [];
  }

  lemma {:induction false} ParseLogicalAppend(c: Cursor, a: seq<string>, b: seq<string>)
    requires WellFormed(c)
    ensures ParseLogical(c, a + b)
         == match ParseLogical(c, a)
            case Err(e) => Err(e)
            case Ok(mid) => ParseLogical(mid, b)
    decreases |a|
  {
    if a == [] {
      assert a + b == b;
    } else {
      assert (a + b)[0] == a[0] && (a + b)[1..] == a[1..] + b;
      match ParsedLine(c, a[0])
      case Err(e) =>
      case Ok(next) => ParseLogicalAppend(next, a[1..], b);
    }
  }

  /** A physical line ending. */
  const Crlf := "\r\n"

  predicate EolFree(s: string) {
    forall i :: 0 <= i < |s| ==> !IsEol(s[i])
  }

  /** The chunks of a logical line, concatenated. */
  function Concat(chunks: seq<string>): string {
    if chunks == [] then [] else chunks[0] + Concat(chunks[1..])
  }

  /** The logical lines, each given by its chunks. */
  function Concats(lines: seq<seq<string>>): seq<string> {
    if lines == [] then [] else [Concat(lines[0])] + Concats(lines[1..])
  }

  /** Continuation lines, as section 3.1 of RFC 5545 writes them: a space,
      the chunk, and a line ending. */
  function Continuations(chunks: seq<string>): seq<string> {
    if chunks == [] then [] else [" " + chunks[0] + Crlf] + Continuations(chunks[1..])
  }

  /** Logical lines, each cut into chunks, folded into physical lines. */
  function Fold(lines: seq<seq<string>>): seq<string>
    requires forall i :: 0 <= i < |lines| ==> lines[i] != []
  {
    if lines == [] then []
    else [lines[0][0] + Crlf] + Continuations(lines[0][1..]) + Fold(lines[1..])
  }

  /** Folding can be undone: no chunk holds a line break, and the first
      chunk of every logical line is non-empty and does not start with a
      space. */
  predicate Foldable(lines: seq<seq<string>>) {
    forall i :: 0 <= i < |lines| ==>
      && lines[i] != [] && lines[i][0] != [] && lines[i][0][0] != ' '
      && forall j :: 0 <= j < |lines[i]| ==> EolFree(lines[i][j])
  }

  lemma StripEolCrlf(x: string)
    requires EolFree(x)
    ensures StripEol(x + Crlf) == x
  {
    var y := x + Crlf;
    assert y[..|y| - 1] == x + "\r";
    assert (x + "\r")[..|x|] == x;
    assert StripEol(x) == x;
    assert StripEol(x + "\r") == x;
  }

  lemma {:induction false} UnfoldContinuations(buf: string, chunks: seq<string>, rest: seq<string>)
    requires forall j :: 0 <= j < |chunks| ==> EolFree(chunks[j])
    ensures UnfoldFrom(buf, Continuations(chunks) + rest) == UnfoldFrom(buf + Concat(chunks), rest)
    decreases |chunks|
  {
    if chunks == [] {
      assert Continuations(chunks) + rest == rest && buf + Concat(chunks) == buf;
    } else {
      var phys := Continuations(chunks) + rest;
      ContinuationsCons(chunks, rest);
      ContinuationLine(chunks[0]);
      UnfoldContinuations(buf + chunks[0], chunks[1..], rest);
      ConcatAfter(buf, chunks);
    }
  }

  lemma ContinuationsCons(chunks: seq<string>, rest: seq<string>)
    requires chunks != []
    ensures (Continuations(chunks) + rest)[0] == " " + chunks[0] + Crlf
    ensures (Continuations(chunks) + rest)[1..] == Continuations(chunks[1..]) + rest
  {
    var tail := Continuations(chunks[1..]) + rest;
    var head := [" " + chunks[0] + Crlf];
    assert Continuations(chunks) + rest == head + tail;
    assert (head + tail)[1..] == tail;
  }

  /** A continuation line, its line ending stripped, is a space and the
      chunk. */
  lemma ContinuationLine(chunk: string)
    requires EolFree(chunk)
    ensures StripEol(" " + chunk + Crlf) == " " + chunk
    ensures (" " + chunk)[0] == ' ' && (" " + chunk)[1..] == chunk
  {
    var line := " " + chunk;
    assert EolFree(line) by {
      assert forall i :: 1 <= i < |line| ==> line[i] == chunk[i - 1];
    }
    StripEolCrlf(line);
  }

  lemma ConcatAfter(buf: string, chunks: seq<string>)
    requires chunks != []
    ensures buf + chunks[0] + Concat(chunks[1..]) == buf + Concat(chunks)
  {
  }

  /** The first logical line folded, then the rest. */
  lemma FoldFirst(lines: seq<seq<string>>)
    requires Foldable(lines) && lines != []
    ensures Foldable(lines[1..])
    ensures Fold(lines)[0] == lines[0][0] + Crlf
    ensures Fold(lines)[1..] == Continuations(lines[0][1..]) + Fold(lines[1..])
  {
    FoldableTail(lines);
    var tail := Continuations(lines[0][1..]) + Fold(lines[1..]);
    var head := [lines[0][0] + Crlf];
    assert Fold(lines) == head + tail;
    assert (head + tail)[1..] == tail;
  }

  lemma FoldableTail(lines: seq<seq<string>>)
    requires Foldable(lines) && lines != []
    ensures Foldable(lines[1..])
  {
    var tail := lines[1..];
    forall i | 0 <= i < |tail|
      ensures tail[i] != [] && tail[i][0] != [] && tail[i][0][0] != ' '
      ensures forall j :: 0 <= j < |tail[i]| ==> EolFree(tail[i][j])
    {
      assert tail[i] == lines[i + 1];
    }
  }

  /** Unfolding the physical lines of one folded logical line and those
      after it. */
  lemma UnfoldFirst(lines: seq<seq<string>>)
    requires Foldable(lines) && lines != []
    ensures Foldable(lines[1..])
    ensures UnfoldFrom(StripEol(Fold(lines)[0]), Fold(lines)[1..]) == UnfoldFrom(Concat(lines[0]), Fold(lines[1..]))
  {
    FoldFirst(lines);
    var first := lines[0][0];
    StripEolCrlf(first);
    UnfoldContinuations(first, lines[0][1..], Fold(lines[1..]));
    assert first + Concat(lines[0][1..]) == Concat(lines[0]);
  }

  lemma {:induction false} UnfoldFromFold(buf: string, lines: seq<seq<string>>)
    requires Foldable(lines)
    ensures UnfoldFrom(buf, Fold(lines)) == Ok([buf] + Concats(lines))
    decreases |lines|
  {
    if lines != [] {
      var phys := Fold(lines);
      UnfoldFirst(lines);
      UnfoldFromFold(Concat(lines[0]), lines[1..]);
      var line := StripEol(phys[0]);
      assert line != [] && line[0] != ' ' by { FoldFirst(lines); StripEolCrlf(lines[0][0]); }
      assert UnfoldFrom(buf, phys) == Ok([buf] + ([Concat(lines[0])] + Concats(lines[1..])));
      assert [buf] + Concats(lines) == [buf] + ([Concat(lines[0])] + Concats(lines[1..]));
    } else {
      assert [buf] + Concats(lines) == [buf];
    }
  }

  /** Unfolding undoes folding. */
  lemma UnfoldFold(lines: seq<seq<string>>)
    requires Foldable(lines)
    ensures Unfold(Fold(lines)) == Ok(Concats(lines))
  {
    if lines != [] {
      UnfoldFirst(lines);
      UnfoldFromFold(Concat(lines[0]), lines[1..]);
    }
  }

  /** Parsing folded lines parses the logical lines they fold. */
  lemma ParseFolded(lines: seq<seq<string>>)
    requires Foldable(lines)
    ensures Parse(Fold(lines)) == ParseLogical(Initial, Concats(lines))
  {
    UnfoldFold(lines);
    ParseIsUnfoldThenParse(Fold(lines));
  }

  /** Only a leading space marks a continuation: a line that starts with
      any other character, a tab included, begins a new logical line. */
  lemma NewLogicalLine(buf: string, line: string, rest: seq<string>)
    requires line != [] && line[0] != ' ' && !IsEol(line[|line| - 1])
    ensures UnfoldFrom(buf, [line] + rest)
         == match UnfoldFrom(line, rest)
            case Err(e) => Err(e)
            case Ok(more) => Ok([buf] + more)
  {
    assert ([line] + rest)[1..] == rest;
  }

  /** `get_root`: the first VCALENDAR component of the current component. */
  function Root(c: Cursor): (r: Result<Node, ParseError>)
    ensures r.Ok? <==> ("VCALENDAR" in c.current.node.fields
                        && c.current.node.fields["VCALENDAR"].Children?
                        && c.current.node.fields["VCALENDAR"].nodes != [])
    ensures r.Ok? ==> r.value == c.current.node.fields["VCALENDAR"].nodes[0]
  {
    var fields := c.current.node.fields;
    if "VCALENDAR" in fields && fields["VCALENDAR"].Children? && fields["VCALENDAR"].nodes != []
    then Ok(fields["VCALENDAR"].nodes[0])
    else Err(NoCalendar)
  }

  /** `get_root()['VTODO']`: the tasks of the calendar. A property VTODO
      with an empty value is iterated as an empty string, yielding no
      tasks; any other property value fails. */
  function Tasks(root: Node): (r: Result<seq<Node>, ParseError>)
    ensures r.Ok? <==> ("VTODO" in root.fields
                        && (root.fields["VTODO"].Children? || root.fields["VTODO"] == Scalar([])))
    ensures r.Ok? ==> r.value == if root.fields["VTODO"].Children? then root.fields["VTODO"].nodes else []
  {
    if "VTODO" !in root.fields then Err(NoTasks)
    else match root.fields["VTODO"]
      case Children(nodes) => Ok(nodes)
      case Scalar(text) => if text == [] then Ok([]) else Err(NoTasks)
  }

  /** `ICSParser`: the parser object, holding the state the lines left. */
  class ICSParser {
    var stack: seq<Frame>
    var current: Frame
    /** The exception the constructor raised, if any. */
    var failure: Option<ParseError>

    function State(): Cursor
      reads this
    {
      Cursor(stack, current)
    }

    /** `__init__`: the physical lines are unfolded and parsed in order. */
    constructor (input: seq<string>)
      ensures WellFormed(State())
      ensures failure.None? <==> Parse(input).Ok?
      ensures failure.None? ==> State() == Parse(input).value
      ensures failure.Some? ==> Parse(input) == Err(failure.value)
    {
      stack := [];
      current := Frame([], Empty);
      failure := None;
      new;
      var linebuf: Option<string> := None;
      var i := 0;
      while i < |input| && failure.None?
        invariant 0 <= i <= |input|
        invariant WellFormed(State())
        invariant failure.None? ==> Scan(State(), linebuf, input[i..]) == Parse(input)
        invariant failure.Some? ==> Parse(input) == Err(failure.value)
        decreases |input| - i
      {
        assert input[i..][1..] == input[i + 1..];
        var line := StripEol(input[i]);
        if linebuf.None? {
          linebuf := Some(line);
        } else if line == [] {
          failure := Some(EmptyLine);
        } else if line[0] == ' ' {
          linebuf := Some(linebuf.value + line[1..]);
        } else {
          var outcome := ParseLine(linebuf.value);
          if outcome.Fail? {
            failure := Some(outcome.error);
          } else {
            linebuf := Some(line);
          }
        }
        i := i + 1;
      }
      if failure.None? && linebuf.Some? {
        assert input[i..] == [];
        var outcome := ParseLine(linebuf.value);
        if outcome.Fail? {
          failure := Some(outcome.error);
        }
      }
    }

    /** `__parse_line`. */
    method ParseLine(line: string) returns (outcome: Outcome<ParseError>)
      requires WellFormed(State())
      modifies this
      ensures failure == old(failure)
      ensures outcome.Pass? <==> ParsedLine(old(State()), line).Ok?
      ensures outcome.Pass? ==> State() == ParsedLine(old(State()), line).value
      ensures outcome.Fail? ==> State() == old(State())
                                && ParsedLine(old(State()), line) == Err(outcome.error)
    {
      if StartsWith(line, "BEGIN:") {
        var name := line[6..];
        if name in current.node.fields && current.node.fields[name].Scalar? {
          return Fail(BeginOnScalar(name));
        }
        var siblings := if name in current.node.fields then current.node.fields[name].nodes else [];
        stack := stack + [Frame(current.name, Node(current.node.fields[name := Children(siblings + [Empty])]))];
        current := Frame(name, Empty);
      } else if StartsWith(line, "END:") {
        if stack == [] {
          return Fail(UnbalancedEnd);
        }
        var parent := stack[|stack| - 1];
        stack := stack[..|stack| - 1];
        current := Frame(parent.name, Attach(parent.node, current));
      } else {
        if ':' !in line {
          return Fail(MissingColon(line));
        }
        var key, value := Key(line), ValueOf(line);
        if key !in current.node.fields {
          current := current.(node := Node(current.node.fields[key := Scalar(value)]));
        }
      }
      outcome := Pass;
    }

    /** `get_root`. */
    function GetRoot(): (r: Result<Node, ParseError>)
      reads this
      ensures r == Root(State())
    {
      Root(State())
    }
  }
}
