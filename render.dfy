/** The body of `main` (ics_to_todotxt.py and rtm_ics_to_todotxt.py): each
    VTODO component rendered as one todo.txt line. */
module Render {
  import opened Wrappers
  import opened Strings
  import opened Escapes
  import opened Dates
  import opened Sorting
  import opened IcsParser
  import opened Description

  /** The exceptions raised while rendering a task. */
  datatype RenderError =
    | BadPriority(priority: string) // `ord` of a string that is not one character,
                                    // or a letter code `chr` and the text cannot take
    | NotText(key: string)          // a list of components where text is used
    | MissingSummary                // `todo['SUMMARY']` on a task without one
    | NonAsciiAppendix(appendix: string) // the byte-string appendix, joined to the
                                         // Unicode line, needs the ASCII codec

  /** The task's fields, in the form the line writes them. */
  datatype Task = Task(
    done: bool,               // STATUS is COMPLETED
    priority: Option<char>,   // the priority letter
    dates: seq<string>,       // the distinct normalized dates, latest first
    summary: string,
    url: Option<string>,
    due: Option<string>,      // normalized
    notes: string)            // what the DESCRIPTION contributes

  /** `((ord(p) - 49) >> 2) + 65`; `>>` floors, as Dafny's `/` by a positive
      divisor does. */
  function PriorityCode(p: char): int {
    (p as int - 49) / 4 + 65
  }

  /** The letter of a PRIORITY value. `ord` needs exactly one character,
      and a code of 128 or more cannot be joined to the text of the line. */
  function PriorityLetter(v: Value): (r: Result<char, RenderError>)
    ensures r.Ok? <==> v.Scalar? && |v.text| == 1 && v.text[0] < '\U{12d}'
    ensures r.Ok? ==> r.value as int == PriorityCode(v.text[0]) && '4' <= r.value <= '\U{7f}'
  {
    match v
    case Children(_) => Err(NotText("PRIORITY"))
    case Scalar(p) =>
      if |p| != 1 || PriorityCode(p[0]) >= 128 then Err(BadPriority(p))
      else Ok(PriorityCode(p[0]) as char)
  }

  /** Text of the property `key`, if present. */
  function Text(todo: Node, key: string): (r: Result<Option<string>, RenderError>)
    ensures r.Err? <==> key in todo.fields && todo.fields[key].Children?
    ensures r.Ok? ==> (r.value.Some? <==> key in todo.fields)
    ensures r.Ok? && r.value.Some? ==> todo.fields[key] == Scalar(r.value.value)
  {
    if key !in todo.fields then Ok(None)
    else match todo.fields[key]
      case Scalar(t) => Ok(Some(t))
      case Children(_) => Err(NotText(key))
  }

  /** The properties whose dates the line lists. */
  const DateKeys := ["DTSTAMP", "DTSTART", "LAST-MODIFIED", "COMPLETED"]

  /** The normalized dates of the keys present, in key order; the first
      key holding a list of components fails. */
  function DateValues(todo: Node, keys: seq<string>): (r: Result<seq<string>, RenderError>)
    ensures r.Ok? ==> |r.value| <= |keys|
  {
    if keys == [] then Ok([])
    else match DateValues(todo, keys[..|keys| - 1])
      case Err(e) => Err(e)
      case Ok(ds) =>
        match Text(todo, keys[|keys| - 1])
        case Err(e) => Err(e)
        case Ok(None) => Ok(ds)
        case Ok(Some(t)) => Ok(ds + [NormalizeDate(t)])
  }

  /** STATUS is COMPLETED. */
  predicate Done(todo: Node) {
    "STATUS" in todo.fields && todo.fields["STATUS"] == Scalar("COMPLETED")
  }

  /** The priority letter, if the task has a priority. */
  function Priority(todo: Node): (r: Result<Option<char>, RenderError>)
    ensures r.Ok? ==> (r.value.Some? <==> "PRIORITY" in todo.fields)
  {
    if "PRIORITY" !in todo.fields then Ok(None)
    else match PriorityLetter(todo.fields["PRIORITY"])
      case Err(e) => Err(e)
      case Ok(c) => Ok(Some(c))
  }

  /** The summary, URL, due date and notes, read in this order. */
  function Body(todo: Node): (r: Result<(string, Option<string>, Option<string>, string), RenderError>)
    ensures "SUMMARY" !in todo.fields ==> r == Err(MissingSummary)
  {
    if "SUMMARY" !in todo.fields then Err(MissingSummary)
    else match Text(todo, "SUMMARY")
      case Err(e) => Err(e)
      case Ok(summary) =>
        match Text(todo, "URL")
        case Err(e) => Err(e)
        case Ok(url) =>
          match Text(todo, "DUE")
          case Err(e) => Err(e)
          case Ok(due) =>
            match Text(todo, "DESCRIPTION")
            case Err(e) => Err(e)
            case Ok(description) =>
              Ok((Unescape(summary.value), url,
                  if due.Some? then Some(NormalizeDate(due.value)) else None,
                  if description.Some? then DescriptionText(description.value) else []))
  }

  /** The task's fields, read in the order the source reads them. */
  function Extract(todo: Node): (r: Result<Task, RenderError>)
    ensures r.Ok? ==> Descending(r.value.dates)
    ensures r.Ok? ==> (r.value.done <==> "STATUS" in todo.fields && todo.fields["STATUS"] == Scalar("COMPLETED"))
    ensures r.Ok? ==> (r.value.priority.Some? <==> "PRIORITY" in todo.fields)
  {
    var done := Done(todo);
    match Priority(todo)
    case Err(e) => Err(e)
    case Ok(priority) =>
      match DateValues(todo, DateKeys)
      case Err(e) => Err(e)
      case Ok(found) =>
        SortDescDescending(found);
        match Body(todo)
        case Err(e) => Err(e)
        case Ok((summary, url, due, notes)) =>
          Ok(Task(done, priority, SortDesc(found), summary, url, due, notes))
  }

  /** The dates, each followed by a space. */
  function DateWords(dates: seq<string>): string {
    ConcatMap(Spaced, dates)
  }

  function Spaced(d: string): string {
    d + " "
  }

  /** The completion mark and the priority. */
  function Lead(done: bool, priority: Option<char>): string {
    (if done then "x " else "")
    + (if priority.Some? then "(" + [priority.value] + ") " else "")
  }

  /** The summary, then the URL, the due date and the notes. */
  function Tail(summary: string, url: Option<string>, due: Option<string>, notes: string): string {
    summary
    + (if url.Some? then " " + url.value else "")
    + (if due.Some? then " due:" + due.value else "")
    + notes
  }

  /** The todo.txt line of a task, before the appendix. */
  function Format(t: Task): string {
    Lead(t.done, t.priority) + DateWords(t.dates) + Tail(t.summary, t.url, t.due, t.notes)
  }

  /** Text the ASCII codec can decode: what a byte string from the command
      line must be to be joined to Unicode text. */
  predicate IsAscii(s: string) {
    forall i :: 0 <= i < |s| ==> s[i] < '\U{80}'
  }

  /** What one iteration of the loop over the tasks writes, or raises. The
      line is Unicode text once the summary is in it, so the appendix is
      decoded last, when the two are joined. */
  function RenderLine(todo: Node, appendix: string): Result<string, RenderError> {
    match Priority(todo)
    case Err(e) => Err(e)
    case Ok(priority) =>
      match DateValues(todo, DateKeys)
      case Err(e) => Err(e)
      case Ok(found) =>
        match Body(todo)
        case Err(e) => Err(e)
        case Ok((summary, url, due, notes)) =>
          if IsAscii(appendix)
          then Ok(Lead(Done(todo), priority) + DateWords(SortDesc(found)) + Tail(summary, url, due, notes) + appendix)
          else Err(NonAsciiAppendix(appendix))
  }

  /** The line is the task's fields formatted, followed by the appendix;
      a failure in the fields comes first, and an appendix that is not
      ASCII fails only after them. */
  lemma RenderLineFormat(todo: Node, appendix: string)
    ensures RenderLine(todo, appendix).Ok? <==> Extract(todo).Ok? && IsAscii(appendix)
    ensures RenderLine(todo, appendix).Ok? ==> RenderLine(todo, appendix).value == Format(Extract(todo).value) + appendix
    ensures Extract(todo).Err? ==> RenderLine(todo, appendix).error == Extract(todo).error
    ensures Extract(todo).Ok? && !IsAscii(appendix) ==> RenderLine(todo, appendix) == Err(NonAsciiAppendix(appendix))
  {
  }

  /** A failure in some key stops the date list at that key. */
  lemma {:induction false} DateValuesPrefixErr(todo: Node, keys: seq<string>, k: nat)
    requires k <= |keys| && DateValues(todo, keys[..k]).Err?
    ensures DateValues(todo, keys) == DateValues(todo, keys[..k])
    decreases |keys| - k
  {
    if k < |keys| {
      assert keys[..k + 1][..k] == keys[..k];
      DateValuesPrefixErr(todo, keys, k + 1);
    } else {
      assert keys[..k] == keys;
    }
  }

  /** The start of the line: the completion mark and the priority. */
  method RenderLead(todo: Node) returns (r: Result<string, RenderError>)
    ensures r == match Priority(todo)
                 case Err(e) => Err(e)
                 case Ok(p) => Ok(Lead(Done(todo), p))
  {
    var line := "";
    if "STATUS" in todo.fields && todo.fields["STATUS"] == Scalar("COMPLETED") {
      line := "x ";
    }
    if "PRIORITY" in todo.fields {
      var letter := PriorityLetter(todo.fields["PRIORITY"]);
      if letter.Err? {
        return Err(letter.error);
      }
      line := line + ("(" + [letter.value] + ") ");
    } else {
      assert line + [] == line;
    }
    r := Ok(line);
  }

  /** The loop over the date properties and the sort of their set. */
  method SortedDates(todo: Node) returns (r: Result<seq<string>, RenderError>)
    ensures r == match DateValues(todo, DateKeys)
                 case Err(e) => Err(e)
                 case Ok(found) => Ok(SortDesc(found))
  {
    var dates: set<string> := {};
    ghost var found: seq<string> := [];
    for k := 0 to |DateKeys|
      invariant DateValues(todo, DateKeys[..k]) == Ok(found)
      invariant dates == Elements(found)
    {
      var key := DateKeys[k];
      assert DateKeys[..k + 1][..k] == DateKeys[..k];
      if key in todo.fields {
        match todo.fields[key]
        case Children(_) =>
          DateValuesPrefixErr(todo, DateKeys, k + 1);
          return Err(NotText(key));
        case Scalar(v) =>
          var date := NormalizeDate(v);
          ElementsAppend(found, [date]);
          assert Elements([date]) == {date};
          dates := dates + {date};
          found := found + [date];
      }
    }
    assert DateKeys[..|DateKeys|] == DateKeys;
    var ordered := SortedDescending(dates);
    SortedSet(ordered, found);
    r := Ok(ordered);
  }

  /** The end of the line, from the summary on. */
  method RenderBody(todo: Node) returns (r: Result<string, RenderError>)
    ensures r == match Body(todo)
                 case Err(e) => Err(e)
                 case Ok((summary, url, due, notes)) => Ok(Tail(summary, url, due, notes))
  {
    if "SUMMARY" !in todo.fields {
      return Err(MissingSummary);
    }
    var line := "";
    var url, due, notes := "", "", "";
    match todo.fields["SUMMARY"]
    case Children(_) => return Err(NotText("SUMMARY"));
    case Scalar(summary) => line := Unescape(summary);
    if "URL" in todo.fields {
      match todo.fields["URL"]
      case Children(_) => return Err(NotText("URL"));
      case Scalar(u) => url := " " + u;
    }
    if "DUE" in todo.fields {
      match todo.fields["DUE"]
      case Children(_) => return Err(NotText("DUE"));
      case Scalar(d) => due := " due:" + NormalizeDate(d);
    }
    if "DESCRIPTION" in todo.fields {
      match todo.fields["DESCRIPTION"]
      case Children(_) => return Err(NotText("DESCRIPTION"));
      case Scalar(description) => notes := ProcessDescription(description);
    }
    var parts := Body(todo).value;
    assert line == parts.0;
    assert url == if parts.1.Some? then " " + parts.1.value else "";
    assert due == if parts.2.Some? then " due:" + parts.2.value else "";
    assert notes == parts.3;
    r := Ok(line + url + due + notes);
  }

  /** The loop writing each date and a space. */
  method AppendDates(prefix: string, ordered: seq<string>) returns (line: string)
    ensures line == prefix + DateWords(ordered)
  {
    line := prefix;
    for i := 0 to |ordered|
      invariant line == prefix + DateWords(ordered[..i])
    {
      ConcatMapSnoc(Spaced, ordered, i);
      line := line + (ordered[i] + " ");
    }
    assert ordered[..|ordered|] == ordered;
  }

  /** One iteration of the loop over the tasks. */
  method RenderTodo(todo: Node, appendix: string) returns (r: Result<string, RenderError>)
    ensures r == RenderLine(todo, appendix)
  {
    var lead := RenderLead(todo);
    if lead.Err? {
      return Err(lead.error);
    }
    var line := lead.value;
    var dates := SortedDates(todo);
    if dates.Err? {
      return Err(dates.error);
    }
    line := AppendDates(line, dates.value);
    var body := RenderBody(todo);
    if body.Err? {
      return Err(body.error);
    }
    if !IsAscii(appendix) {
      return Err(NonAsciiAppendix(appendix));
    }
    r := Ok(line + body.value + appendix);
  }

  /** The lines `render` gives the tasks, in order, up to the first task
      it fails on, and that failure. */
  function Lines(render: Node -> Result<string, RenderError>, todos: seq<Node>): (seq<string>, Option<RenderError>) {
    if todos == [] then ([], None)
    else
      var (lines, failure) := Lines(render, todos[..|todos| - 1]);
      if failure.Some? then (lines, failure)
      else match render(todos[|todos| - 1])
        case Ok(line) => (lines + [line], None)
        case Err(e) => (lines, Some(e))
  }

  /** What the loop over the tasks writes, and what it raises. */
  function Output(todos: seq<Node>, appendix: string): (seq<string>, Option<RenderError>) {
    Lines(todo => RenderLine(todo, appendix), todos)
  }

  /** The loop over the tasks, writing one line per task. */
  method WriteLines(todos: seq<Node>, appendix: string) returns (lines: seq<string>, failure: Option<RenderError>)
    ensures (lines, failure) == Output(todos, appendix)
  {
    lines, failure := [], None;
    for i := 0 to |todos|
      invariant (lines, None) == Output(todos[..i], appendix)
    {
      assert todos[..i + 1][..i] == todos[..i];
      var line := RenderTodo(todos[i], appendix);
      if line.Err? {
        OutputStops(todos, appendix, i + 1);
        return lines, Some(line.error);
      }
      lines := lines + [line.value];
    }
    assert todos[..|todos|] == todos;
  }

  lemma {:induction false} OutputStops(todos: seq<Node>, appendix: string, k: nat)
    requires k <= |todos| && Output(todos[..k], appendix).1.Some?
    ensures Output(todos, appendix) == Output(todos[..k], appendix)
    decreases |todos| - k
  {
    if k < |todos| {
      assert todos[..k + 1][..k] == todos[..k];
      OutputStops(todos, appendix, k + 1);
    } else {
      assert todos[..k] == todos;
    }
  }

  lemma {:induction false} LinesSpec(render: Node -> Result<string, RenderError>, todos: seq<Node>)
    ensures var (lines, failure) := Lines(render, todos);
      && |lines| <= |todos|
      && (forall i :: 0 <= i < |lines| ==> render(todos[i]) == Ok(lines[i]))
      && (failure.None? ==> |lines| == |todos|)
      && (failure.Some? ==> |lines| < |todos| && render(todos[|lines|]) == Err(failure.value))
  {
    if todos != [] {
      var pre := todos[..|todos| - 1];
      LinesSpec(render, pre);
      assert forall i :: 0 <= i < |pre| ==> pre[i] == todos[i];
    }
  }

  /** One line per task, each the task's rendering, up to the first task
      that fails; the failure is that task's. */
  lemma OutputLines(todos: seq<Node>, appendix: string)
    ensures var (lines, failure) := Output(todos, appendix);
      && |lines| <= |todos|
      && (forall i :: 0 <= i < |lines| ==> RenderLine(todos[i], appendix) == Ok(lines[i]))
      && (failure.None? ==> |lines| == |todos|)
      && (failure.Some? ==> |lines| < |todos| && RenderLine(todos[|lines|], appendix) == Err(failure.value))
  {
    LinesSpec(todo => RenderLine(todo, appendix), todos);
  }

  /** What the conversion of a calendar file stops at. */
  /** An appendix that is not ASCII fails on the first task, so no line is
      written; with no tasks, nothing fails. */
  lemma NonAsciiAppendixFails(todos: seq<Node>, appendix: string)
    requires !IsAscii(appendix)
    ensures Output(todos, appendix).0 == []
    ensures Output(todos, appendix).1.Some? <==> todos != []
  {
    OutputLines(todos, appendix);
    var (lines, failure) := Output(todos, appendix);
    if lines != [] {
      RenderLineFormat(todos[0], appendix);
    }
  }

  datatype Failure = ParseFailed(parse: ParseError) | RenderFailed(render: RenderError)

  /** The text appended to each line: a space and the optional third
      argument, or nothing. */
  function Appendix(argument: Option<string>): (r: string)
    ensures argument.None? <==> r == []
    ensures argument.Some? ==> r == " " + argument.value
    ensures IsAscii(r) <==> argument.None? || IsAscii(argument.value)
  {
    if argument.Some? then
      var r := " " + argument.value;
      assert forall i :: 0 <= i < |argument.value| ==> r[i + 1] == argument.value[i];
      r
    else []
  }

  /** The lines a calendar file's conversion writes, and how it fails. */
  function Conversion(input: seq<string>, appendix: string): (seq<string>, Option<Failure>) {
    match Parse(input)
    case Err(e) => ([], Some(ParseFailed(e)))
    case Ok(c) =>
      match Root(c)
      case Err(e) => ([], Some(ParseFailed(e)))
      case Ok(root) =>
        match Tasks(root)
        case Err(e) => ([], Some(ParseFailed(e)))
        case Ok(todos) =>
          var (lines, failure) := Output(todos, appendix);
          (lines, if failure.Some? then Some(RenderFailed(failure.value)) else None)
  }

  /** `main` on the lines of the input file and its optional third
      argument: the appendix, then the `try` block that parses the file,
      takes the calendar's tasks and writes their lines. */
  method ConvertCalendar(input: seq<string>, argument: Option<string>) returns (lines: seq<string>, failure: Option<Failure>)
    ensures (lines, failure) == Conversion(input, Appendix(argument))
  {
    var appendix := Appendix(argument);
    var parser := new ICSParser(input);
    if parser.failure.Some? {
      return [], Some(ParseFailed(parser.failure.value));
    }
    var root := parser.GetRoot();
    if root.Err? {
      return [], Some(ParseFailed(root.error));
    }
    var todos := Tasks(root.value);
    if todos.Err? {
      return [], Some(ParseFailed(todos.error));
    }
    var rendered;
    lines, rendered := WriteLines(todos.value, appendix);
    failure := if rendered.Some? then Some(RenderFailed(rendered.value)) else None;
  }

  /** The priority bands: 1 to 4 give A, 5 to 8 give B, 9 gives C and 0
      gives the character before A. */
  lemma PriorityBands(p: char)
    requires '0' <= p <= '9'
    ensures PriorityLetter(Scalar([p])).Ok?
    ensures var c := PriorityLetter(Scalar([p])).value;
      && (p == '0' ==> c == '@')
      && ('1' <= p <= '4' ==> c == 'A')
      && ('5' <= p <= '8' ==> c == 'B')
      && (p == '9' ==> c == 'C')
  {
  }

  /** A greater character never gives an earlier letter. */
  lemma PriorityMonotone(p: char, q: char)
    requires p <= q
    ensures PriorityCode(p) <= PriorityCode(q)
  {
  }

  /** The dates are those of the date properties present, normalized. */
  lemma {:induction false} DateValuesMembers(todo: Node, keys: seq<string>, d: string)
    requires DateValues(todo, keys).Ok?
    ensures d in DateValues(todo, keys).value
        <==> exists k, t :: k in keys && k in todo.fields && todo.fields[k] == Scalar(t) && d == NormalizeDate(t)
  {
    if keys != [] {
      var pre, key := keys[..|keys| - 1], keys[|keys| - 1];
      DateValuesMembers(todo, pre, d);
      assert keys == pre + [key];
      if d in DateValues(todo, keys).value && d !in DateValues(todo, pre).value {
        var t := todo.fields[key].text;
        assert key in keys && d == NormalizeDate(t);
      }
      if exists k, t :: k in keys && k in todo.fields && todo.fields[k] == Scalar(t) && d == NormalizeDate(t) {
        var k, t :| k in keys && k in todo.fields && todo.fields[k] == Scalar(t) && d == NormalizeDate(t);
        if k != key {
          assert k in pre;
        }
      }
    }
  }

  /** A completed task with priority 2, a summary and a due date. */
  const CompletedTodo := Node(map["STATUS" := Scalar("COMPLETED"), "PRIORITY" := Scalar("2"),
                                  "SUMMARY" := Scalar("Buy milk"), "DUE" := Scalar("20230201")])

  lemma CompletedTaskExample(todo: Node)
    requires todo == CompletedTodo
    ensures RenderLine(todo, []) == Ok("x (A) Buy milk due:2023-02-01")
  {
    CompletedTaskFields(todo);
    PriorityBands('2');
    assert Priority(todo) == Ok(Some('A'));
    NoDates(todo);
    BodyWithDue(todo, "Buy milk", "20230201");
    BuyMilk();
    assert DateWords(SortDesc([])) == [];
    CompletedTaskText();
  }

  lemma CompletedTaskFields(todo: Node)
    requires todo == CompletedTodo
    ensures Done(todo) && "PRIORITY" in todo.fields && todo.fields["PRIORITY"] == Scalar("2")
    ensures forall k :: k in DateKeys ==> k !in todo.fields
    ensures Text(todo, "SUMMARY") == Ok(Some("Buy milk")) && Text(todo, "URL") == Ok(None)
    ensures Text(todo, "DUE") == Ok(Some("20230201")) && Text(todo, "DESCRIPTION") == Ok(None)
  {
  }

  lemma BuyMilk()
    ensures Unescape("Buy milk") == "Buy milk"
    ensures NormalizeDate("20230201") == "2023-02-01"
  {
    assert '\\' !in "Buy milk";
    DateExample("20230201", "2023-02-01");
  }

  /** A task with a summary and a due date and neither URL nor notes. */
  lemma BodyWithDue(todo: Node, summary: string, due: string)
    requires Text(todo, "SUMMARY") == Ok(Some(summary)) && Text(todo, "URL") == Ok(None)
    requires Text(todo, "DUE") == Ok(Some(due)) && Text(todo, "DESCRIPTION") == Ok(None)
    ensures Body(todo) == Ok((Unescape(summary), None, Some(NormalizeDate(due)), []))
  {
  }

  lemma CompletedTaskText()
    ensures Lead(true, Some('A')) + [] + Tail("Buy milk", None, Some("2023-02-01"), []) + []
         == "x (A) Buy milk due:2023-02-01"
  {
  }

  lemma DateKeysSteps(todo: Node)
    ensures DateValues(todo, DateKeys)
         == match DateValues(todo, ["DTSTAMP", "DTSTART", "LAST-MODIFIED"])
            case Err(e) => Err(e)
            case Ok(ds) =>
              match Text(todo, "COMPLETED")
              case Err(e) => Err(e)
              case Ok(None) => Ok(ds)
              case Ok(Some(t)) => Ok(ds + [NormalizeDate(t)])
    ensures DateValues(todo, ["DTSTAMP", "DTSTART", "LAST-MODIFIED"])
         == match DateValues(todo, ["DTSTAMP", "DTSTART"])
            case Err(e) => Err(e)
            case Ok(ds) =>
              match Text(todo, "LAST-MODIFIED")
              case Err(e) => Err(e)
              case Ok(None) => Ok(ds)
              case Ok(Some(t)) => Ok(ds + [NormalizeDate(t)])
    ensures DateValues(todo, ["DTSTAMP", "DTSTART"])
         == match DateValues(todo, ["DTSTAMP"])
            case Err(e) => Err(e)
            case Ok(ds) =>
              match Text(todo, "DTSTART")
              case Err(e) => Err(e)
              case Ok(None) => Ok(ds)
              case Ok(Some(t)) => Ok(ds + [NormalizeDate(t)])
    ensures DateValues(todo, ["DTSTAMP"])
         == match DateValues(todo, [])
            case Err(e) => Err(e)
            case Ok(ds) =>
              match Text(todo, "DTSTAMP")
              case Err(e) => Err(e)
              case Ok(None) => Ok(ds)
              case Ok(Some(t)) => Ok(ds + [NormalizeDate(t)])
  {
    assert DateKeys[..3] == ["DTSTAMP", "DTSTART", "LAST-MODIFIED"];
    assert DateKeys[..3][..2] == ["DTSTAMP", "DTSTART"];
    assert DateKeys[..3][..2][..1] == ["DTSTAMP"];
    assert DateKeys[..3][..2][..1][..0] == [];
  }

  /** A task without date properties lists no dates. */
  lemma NoDates(todo: Node)
    requires forall k :: k in DateKeys ==> k !in todo.fields
    ensures DateValues(todo, DateKeys) == Ok([])
  {
    DateKeysSteps(todo);
  }

  lemma DateExample(d: string, e: string)
    requires |d| == 8 && 'T' !in d && e == d[..4] + "-" + d[4..6] + "-" + d[6..]
    ensures NormalizeDate(d) == e
  {
  }

  /** Three date properties, two of them equal once normalized. */
  const DatedTodo := Node(map["DTSTAMP" := Scalar("20230102"), "DTSTART" := Scalar("20230102T000000Z"),
                              "COMPLETED" := Scalar("20230101"), "SUMMARY" := Scalar("x")])

  /** Equal normalized dates are listed once, latest first. */
  lemma DatesExample(todo: Node)
    requires todo == DatedTodo
    ensures DateValues(todo, DateKeys).Ok?
    ensures DateWords(SortDesc(DateValues(todo, DateKeys).value)) == "2023-01-02 2023-01-01 "
  {
    DatedTaskFields(todo);
    DatedDay();
    DatedStamp();
    DatedCompletion();
    DatedOrder();
    CollapsedDates(todo, "20230102", "20230102T000000Z", "20230101", "2023-01-02", "2023-01-01");
    DatedText();
  }

  lemma DatedText()
    ensures "2023-01-02" + " " + "2023-01-01" + " " == "2023-01-02 2023-01-01 "
  {
  }

  /** Two date properties that normalize alike and a third, earlier one. */
  lemma CollapsedDates(todo: Node, x: string, y: string, z: string, a: string, b: string)
    requires Text(todo, "DTSTAMP") == Ok(Some(x)) && Text(todo, "DTSTART") == Ok(Some(y))
    requires Text(todo, "LAST-MODIFIED") == Ok(None) && Text(todo, "COMPLETED") == Ok(Some(z))
    requires NormalizeDate(x) == a && NormalizeDate(y) == a && NormalizeDate(z) == b && LexLess(b, a)
    ensures DateValues(todo, DateKeys).Ok?
    ensures DateWords(SortDesc(DateValues(todo, DateKeys).value)) == a + " " + b + " "
  {
    ThreeDates(todo, x, y, z);
    SortWithRepeat(a, b);
    DateWordsTwo(a, b);
  }

  lemma DatedTaskFields(todo: Node)
    requires todo == DatedTodo
    ensures Text(todo, "DTSTAMP") == Ok(Some("20230102"))
    ensures Text(todo, "DTSTART") == Ok(Some("20230102T000000Z"))
    ensures Text(todo, "LAST-MODIFIED") == Ok(None)
    ensures Text(todo, "COMPLETED") == Ok(Some("20230101"))
  {
  }

  lemma ThreeDates(todo: Node, x: string, y: string, z: string)
    requires Text(todo, "DTSTAMP") == Ok(Some(x)) && Text(todo, "DTSTART") == Ok(Some(y))
    requires Text(todo, "LAST-MODIFIED") == Ok(None) && Text(todo, "COMPLETED") == Ok(Some(z))
    ensures DateValues(todo, DateKeys) == Ok([NormalizeDate(x), NormalizeDate(y), NormalizeDate(z)])
  {
    DateKeysSteps(todo);
    var nx, ny, nz := NormalizeDate(x), NormalizeDate(y), NormalizeDate(z);
    assert DateValues(todo, []) == Ok([]);
    assert DateValues(todo, ["DTSTAMP"]) == Ok([] + [nx]);
    assert [] + [nx] + [ny] + [nz] == [nx, ny, nz];
  }

  lemma DatedDay()
    ensures NormalizeDate("20230102") == "2023-01-02"
  {
    DateExample("20230102", "2023-01-02");
  }

  lemma DatedCompletion()
    ensures NormalizeDate("20230101") == "2023-01-01"
  {
    DateExample("20230101", "2023-01-01");
  }

  lemma DatedStamp()
    ensures NormalizeDate("20230102T000000Z") == "2023-01-02"
  {
    var stamp := "20230102T000000Z";
    assert stamp[..8] == "20230102" && 'T' !in stamp[..8];
    BeforeAt(stamp, 8);
    NormalizeDateCut(stamp);
    DatedDay();
  }

  lemma DatedOrder()
    ensures LexLess("2023-01-01", "2023-01-02")
  {
    LexLessCommonPrefix("2023-01-0", "1", "2");
    assert "2023-01-01" == "2023-01-0" + "1" && "2023-01-02" == "2023-01-0" + "2";
  }

  lemma SortWithRepeat(a: string, b: string)
    requires LexLess(b, a)
    ensures SortDesc([a, a, b]) == [a, b]
  {
    assert [a, a, b][..2] == [a, a] && [a, a][..1] == [a] && [a][..0] == [];
    assert SortDesc([a]) == [a];
    assert SortDesc([a, a]) == [a];
    LexLessAsymmetric(b, a);
    assert Insert(b, []) == [b];
    assert Insert(b, [a]) == [a] + Insert(b, [a][1..]);
  }

  lemma DateWordsTwo(a: string, b: string)
    ensures DateWords([a, b]) == a + " " + b + " "
  {
    ConcatMapSnoc(Spaced, [a, b], 0);
    ConcatMapSnoc(Spaced, [a, b], 1);
    assert [a, b][..0] == [] && [a, b][..1] == [a] && [a, b][..2] == [a, b];
  }
}
