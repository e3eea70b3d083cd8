# todo.txt converters, modelled in Dafny

The repository holds two converters into Gina Trapani's todo.txt format.

- **iCalendar converter** (`ics_to_todotxt.py`, and its copy `rtm_ics_to_todotxt.py`):
  - An iCalendar export is unfolded into logical lines.
  - The lines are parsed into a tree of components by a stack-based parser, `ICSParser`.
  - Each `VTODO` component of the calendar becomes one todo.txt line, built in this order:
    - a completion mark;
    - a priority letter;
    - the distinct time stamps, latest first;
    - the decoded summary, the URL and the due date;
    - the `@context` tokens and notes taken from the description;
    - an optional text appended from the command line.
- **Atom converter** (`rtm_atom_to_todotxt.py`, and its Python 2 copy `atom_to_todotxt.py`):
  - A `TaskConverter` collects the fields of one Remember The Milk feed entry: priority, date, title, URL, notes, list and a set of contexts.
  - Its `convert` writes those fields as one line.

The model has one module per concern:

| file | module | models |
|---|---|---|
| wrappers.dfy | `Wrappers` | `Option`, `Result` and `Outcome`, which stand for Python's exceptions |
| strings.dfy | `Strings` | how the Python string built-ins behave, and the lemmas about them |
| escapes.dfy | `Escapes` | `unescape` |
| dates.dfy | `Dates` | `normalize_date` |
| labels.dfy | `Labels` | `camel_case` and the `' @'` context tokens |
| description.dfy | `Description` | `process_description` |
| ics_parser.dfy | `IcsParser` | the `ICSParser` class, line unfolding, `get_root` and the `VTODO` lookup |
| sorting.dfy | `Sorting` | `sorted(dates, reverse=True)` |
| render.dfy | `Render` | the loop in `main` over the tasks, and the whole conversion |
| atom.dfy | `Atom` | the `TaskConverter` class |

**Imperative parts.** Code that changes state step by step is modelled with methods and classes, and each is proved equal to a functional specification:

- `ICSParser` and `TaskConverter` are classes.
- The loops of `__init__`, `process_description`, `camel_case`, the rendering loop and `__process_subdiv` are methods with loop invariants.

The properties are then proved about those specification functions.

**Failures.** The exceptions the converters raise on their input are error values. Where the model reports one earlier than Python does, a line under "## Left out" says so. The error values are:

- a line that cannot be parsed;
- an `END` with nothing open;
- a calendar without tasks;
- a priority that `ord` or `chr` refuses;
- a component list where text is expected;
- a missing `SUMMARY`;
- a third argument that is not ASCII, which Python 2 cannot join to the Unicode text of a task's line.

## Model

| member | source | states |
|---|---|---|
| Strings.Before | ics_to_todotxt.py:84-86 | the cut at the first occurrence of a character is a prefix free of it, is followed by it when shorter, and is the whole string when it does not occur |
| Strings.SplitOn | ics_to_todotxt.py:111 | `split` with a non-empty separator always yields at least one piece |
| Strings.JoinSplitOn | ics_to_todotxt.py:111 | joining the pieces of a split with the separator gives back the original string |
| Strings.SplitOnJoin | rtm_atom_to_todotxt.py:72 | splitting a join of pieces, none of which contains the separator's first character, gives back the pieces |
| Strings.StripLeft | ics_to_todotxt.py:116 | `lstrip` removes exactly the leading white space, leaving a suffix |
| Strings.StripRight | ics_to_todotxt.py:116 | `rstrip` removes exactly the trailing white space, leaving a prefix |
| Strings.StripEol | ics_to_todotxt.py:46 | `rstrip('\r\n')` removes only trailing carriage returns and line feeds, all of them |
| Strings.LexLessIrreflexive | ics_to_todotxt.py:161 | no string sorts before itself |
| Strings.LexLessAsymmetric | ics_to_todotxt.py:161 | two strings are never each before the other |
| Strings.LexLessTransitive | ics_to_todotxt.py:161 | Python's string order is transitive |
| Strings.LexLessTotal | ics_to_todotxt.py:161 | any two distinct strings are ordered one way or the other |
| Strings.LexLessCommonPrefix | ics_to_todotxt.py:161 | a shared prefix does not change how two strings compare |
| Escapes.Unescape | ics_to_todotxt.py:102-104 | decoding never lengthens a string and leaves a string without backslashes unchanged |
| Escapes.UnescapeEscape | ics_to_todotxt.py:102-104 | decoding undoes the TEXT escaping of backslash, semicolon and comma (section 3.3.11 of RFC 5545) |
| Escapes.UnescapeExamples | ics_to_todotxt.py:102-104 | a doubled backslash decodes to one, an escaped comma to a comma, and a backslash before a line feed is kept |
| Dates.NormalizeDate | ics_to_todotxt.py:81-90 | the value is cut at its first `T`; a cut of length 8 gets dashes at positions 4 and 7 and keeps its digits in order; any other length is returned unchanged |
| Dates.NormalizeDateIdempotent | ics_to_todotxt.py:81-90 | normalizing an already normalized date changes nothing |
| Dates.NormalizeDateCut | ics_to_todotxt.py:84-86 | only the part before the first `T` matters |
| Dates.NormalizeDateTimeExample | ics_to_todotxt.py:81-90 | the UTC DATE-TIME `20230115T093000Z` becomes `2023-01-15` |
| Dates.NormalizeDateExamples | ics_to_todotxt.py:88-89 | a DATE gets its dashes, and an already dashed date is kept |
| Labels.Capitalize | ics_to_todotxt.py:97-98 | `capitalize` puts the first letter in upper case and the rest in lower case, keeping the length |
| Labels.Words | ics_to_todotxt.py:95 | the split at runs of non-word characters and `_` yields at least one piece, each made of letters and digits only; only the first and the last piece can be empty, and the first only when the phrase is empty or starts with a separator; put back together, the pieces are the phrase's letters and digits in order |
| Labels.CamelCaseOf | ics_to_todotxt.py:92-100 | a label holds letters and digits only and never starts with a lower-case letter |
| Labels.CamelCaseGlue | ics_to_todotxt.py:95-99 | the label is the concatenation of the words, each capitalized when it starts lower-case and copied otherwise |
| Labels.CamelCase | ics_to_todotxt.py:92-100 | the accumulating loop computes the label; the same loop stands at rtm_atom_to_todotxt.py, lines 129-138, and at atom_to_todotxt.py, lines 104-113 |
| Labels.RecaseLabel | ics_to_todotxt.py:96-99 | recasing a word keeps it a label of the same length, not led by a lower-case letter |
| Labels.LabelWords | ics_to_todotxt.py:95 | a label splits into itself alone |
| Labels.CamelCaseLetters | ics_to_todotxt.py:92-100 | up to case, the label is the phrase's letters and digits in order: only separators are dropped and only case is changed |
| Labels.BuyMilkLabel | ics_to_todotxt.py:92-100 | `buy milk` becomes `BuyMilk` |
| Labels.CamelCaseIdempotent | ics_to_todotxt.py:92-100 | applying `camel_case` to a label changes nothing |
| Labels.ContextTokensJoin | rtm_atom_to_todotxt.py:71-72 | the tokens are `' @'` followed by the labels joined with `' @'` |
| Labels.ContextTokensSplit | ics_to_todotxt.py:118-119 | the labels can be read back from their tokens, by splitting at `' @'` |
| Description.TagLabels | ics_to_todotxt.py:118-119 | every tag gives a label |
| Description.ProcessDescription | ics_to_todotxt.py:106-130 | the loop over the fields computes the specified text |
| Description.ProcessField | ics_to_todotxt.py:112-129 | one iteration of the loop updates the result and both separators as specified for the field's kind |
| Description.AppendTags | ics_to_todotxt.py:117-119 | the inner loop appends one `' @'` token per comma-separated tag, in order |
| Description.SeparatorState | ics_to_todotxt.py:108-129 | after any run of fields, the separator is: one space before the first note; `': '` when a hyphen line stood between the last two notes (or before the first note); `'; '` otherwise. The hyphen-line override thus takes effect one note late |
| Description.NoteSeparator | ics_to_todotxt.py:126-129 | a note is decoded and appended after the separator its position calls for |
| Description.OtherFieldEffects | ics_to_todotxt.py:112-125 | time estimates, updates and empty fields add nothing; tags and locations only append their tokens; none of them touch the separators; a hyphen line only arms the override |
| Description.TagsTextSplit | ics_to_todotxt.py:115-119 | the labels of a `Tags:` field can be read back from the text it contributes |
| Description.ClassifyNote | ics_to_todotxt.py:110-129 | a non-empty field that starts with none of `T`, `U`, `L` and `-` is a note |
| Description.ClassifyRule | ics_to_todotxt.py:124-125 | a field of two or more hyphens only is a hyphen line |
| Description.ClassifyTags | ics_to_todotxt.py:115-116 | `Tags: ` then a list without surrounding blanks is a tags field with that list |
| Description.TagsTextExample | ics_to_todotxt.py:117-119 | the tags `a,b` give the text ` @A @B` |
| Description.RuleThenNotes | ics_to_todotxt.py:124-129 | after a hyphen line, the next note still follows the separator already chosen and only the note after it follows `': '` |
| Description.OverrideOneNoteLate | ics_to_todotxt.py:106-130 | tags, a note, a hyphen line and two notes give the tag tokens, a space, the first note, `'; '`, the second note, `': '`, the third note |
| Description.DescriptionExample | ics_to_todotxt.py:106-130 | the description `Tags: a,b\nnote1\n---\nnote2\nnote3` becomes exactly ` @A @B note1; note2: note3` |
| IcsParser.Key | ics_to_todotxt.py:76-77 | the key is the longest prefix of the line free of `:` and `;`: it is followed by one of them unless it is the whole line, which is the text before the first `:` cut at its first `;` |
| IcsParser.ValueOf | ics_to_todotxt.py:76 | the line is the text before its first `:`, then the colon, then the value, which keeps any later colons |
| IcsParser.Close | ics_to_todotxt.py:73-74 | closing a component keeps the stack well-formed and pops exactly one frame |
| IcsParser.ParsedLine | ics_to_todotxt.py:62-79 | a parsed line keeps the stack well-formed; the depth grows by one on `BEGIN`, shrinks by one on `END` and stays put otherwise; the line fails exactly on: `BEGIN` under a key that holds text, `END` with nothing open, and a property line without `:` |
| IcsParser.ICSParser.ParseLine | ics_to_todotxt.py:62-79 | `__parse_line` updates the stack and the current node as specified, and raises exactly when it is specified to; the same code stands at rtm_ics_to_todotxt.py, lines 61-78 |
| IcsParser.ICSParser.constructor | ics_to_todotxt.py:40-56 | `__init__` ends well-formed and in the specified state, or raises the specified error; the same code stands at rtm_ics_to_todotxt.py, lines 39-55 |
| IcsParser.ParseLogical | ics_to_todotxt.py:62-79 | parsing a sequence of logical lines keeps the stack well-formed |
| IcsParser.Scan | ics_to_todotxt.py:45-56 | the line loop with its buffered line keeps the stack well-formed |
| IcsParser.ParseIsUnfoldThenParse | ics_to_todotxt.py:45-56 | the parser's loop is the same as unfolding all lines first, then parsing the logical lines in order, with the last one flushed |
| IcsParser.ScanFailsWhenUnfoldFails | ics_to_todotxt.py:45-53 | from any buffered line, when the rest of the physical lines cannot be unfolded because one is empty, the parser's loop fails as well |
| IcsParser.ParseFailsWhenUnfoldFails | ics_to_todotxt.py:45-53 | a file with an empty line after its first line cannot be parsed, as `line[0]` raises on it |
| IcsParser.ScanUnfoldFrom | ics_to_todotxt.py:45-56 | from any buffered line, the loop equals unfolding and then parsing |
| IcsParser.UnfoldFold | ics_to_todotxt.py:45-54 | unfolding CRLF-terminated lines folded with a leading space gives back the logical lines |
| IcsParser.ParseFolded | ics_to_todotxt.py:45-56 | a folded file parses like its logical lines |
| IcsParser.NewLogicalLine | ics_to_todotxt.py:50-54 | only a leading space continues a line; a line led by anything else, a tab included, starts a new one |
| IcsParser.ParseLogicalDepth | ics_to_todotxt.py:64-74 | the stack depth is the number of `BEGIN` lines minus the number of `END` lines |
| IcsParser.PropertiesFirstWins | ics_to_todotxt.py:75-79 | after a run of property lines, each key holds its value if it had one before, and otherwise the value of its first line |
| IcsParser.PropertiesKeepStack | ics_to_todotxt.py:75-79 | property lines never fail, and leave the stack and the current component's name alone |
| IcsParser.ParseLogicalFrame | ics_to_todotxt.py:64-74 | lines that never close a component they did not open parse the same under any stack of enclosing components, which they leave untouched below; they fail exactly when they fail without it |
| IcsParser.ParsedClosesWithin | ics_to_todotxt.py:73-74 | lines that parse never `END` more components than are open |
| IcsParser.ParseLogicalBaseName | ics_to_todotxt.py:64-74 | lines that end with the stack they started with leave the current component's name as it was |
| IcsParser.BodyThenEnd | ics_to_todotxt.py:64-74 | once `BEGIN:X` has opened the child, a body that closes what it opens, then `END`, puts the child as the body builds it on its own at the end of list `X` and returns to the parent |
| IcsParser.BlockAppendsChild | ics_to_todotxt.py:64-74 | `BEGIN:X`, any body that parses on its own back to the depth it started from (properties and nested blocks alike), then `END`, appends the component that body builds to the end of list `X`, so children stay in order; the stack and everything else in the parent are unchanged |
| IcsParser.PropertyBlockAppendsChild | ics_to_todotxt.py:64-79 | a block whose body is property lines only always parses, and appends its filled component as above |
| IcsParser.AlarmExample | ics_to_todotxt.py:64-79 | a `VALARM` block with one property inside a `VTODO` lands in the `VTODO`'s `VALARM` list, beside its `SUMMARY` |
| IcsParser.TodoBodyExample | ics_to_todotxt.py:64-79 | a `VTODO` body with a property, a `VALARM` block and another property yields all three keys in the `VTODO` |
| IcsParser.NestedExample | ics_to_todotxt.py:64-79 | a `VALARM` in a `VTODO` in a `VCALENDAR` gives the exact nested dictionaries, the `STATUS` set on the `VTODO` after its alarm still seen from the calendar |
| IcsParser.Root | ics_to_todotxt.py:58-60 | when the current node holds a non-empty `VCALENDAR` list, `get_root` gives its first element; in every other case the conversion fails, and Root reports it at once (see Left out) |
| IcsParser.ICSParser.GetRoot | ics_to_todotxt.py:58-60 | the parser's root is Root of its current state, so the if-and-only-if proved for Root holds of it |
| IcsParser.Tasks | ics_to_todotxt.py:147-163 | `['VTODO']` and the loop over it go through a task list, and through no tasks for empty text; the conversion fails exactly when the key is missing or holds non-empty text, and Tasks reports it at the lookup (see Left out) |
| Sorting.Insert | ics_to_todotxt.py:161 | inserting adds exactly the one element |
| Sorting.SortDesc | ics_to_todotxt.py:161 | the sorted sequence has the same elements |
| Sorting.InsertDescending | ics_to_todotxt.py:161 | inserting into a descending sequence keeps it descending |
| Sorting.SortDescDescending | ics_to_todotxt.py:161 | the result is strictly descending |
| Sorting.DescendingUnique | ics_to_todotxt.py:161 | two strictly descending sequences with the same elements are equal |
| Sorting.SortedSet | ics_to_todotxt.py:161 | any strictly descending enumeration of the dates is the sorted one |
| Sorting.SortedDescending | ics_to_todotxt.py:161 | `sorted(set, reverse=True)` yields each element of the set exactly once, in strictly descending order |
| Render.PriorityLetter | ics_to_todotxt.py:154-156 | a priority is accepted exactly when it is one character whose letter code is below 128; the letter is the one whose code `((ord(p) - 49) >> 2) + 65` gives, with the shift rounding down, and lies between `4` and U+007F |
| Render.PriorityBands | ics_to_todotxt.py:155-156 | `0` gives `@`, `1` to `4` give `A`, `5` to `8` give `B`, and `9` gives `C`; the same code stands at rtm_ics_to_todotxt.py, lines 148-150 |
| Render.PriorityMonotone | ics_to_todotxt.py:156 | a greater priority character never gives an earlier letter |
| Render.Text | ics_to_todotxt.py:159-169 | a property read as text fails exactly when it holds components, and is present exactly when the key is |
| Render.DateValues | ics_to_todotxt.py:157-160 | there are at most as many dates as date keys |
| Render.DateValuesMembers | ics_to_todotxt.py:157-160 | the dates are exactly the normalized values of the date properties present |
| Render.Priority | ics_to_todotxt.py:154-156 | a priority is produced exactly when the task has one |
| Render.Body | ics_to_todotxt.py:163 | a task without `SUMMARY` fails with the missing summary |
| Render.Extract | ics_to_todotxt.py:150-169 | the task's dates are strictly descending; it is marked done exactly when STATUS is COMPLETED, and carries a priority exactly when it has one |
| Render.RenderLineFormat | ics_to_todotxt.py:150-170 | every line is, in order: the mark, the priority, the dates each followed by a space, the summary, the URL, the due date, the notes, and the appendix; a failure in the fields is reported as Extract's, and an appendix that is not ASCII fails only after the fields succeed, at the join of line 170 |
| Render.RenderLead | ics_to_todotxt.py:151-156 | the start of the line is the completion mark, then the priority |
| Render.SortedDates | ics_to_todotxt.py:157-161 | the loop over the date keys and the sort give the distinct dates, latest first |
| Render.RenderBody | ics_to_todotxt.py:163-169 | the end of the line is the summary, the URL, the due date and the notes |
| Render.AppendDates | ics_to_todotxt.py:161-162 | each date is written followed by one space |
| Render.RenderTodo | ics_to_todotxt.py:150-170 | one iteration of the loop writes the specified line or raises the specified error, including the decoding error of a non-ASCII appendix at line 170; the same code stands at rtm_ics_to_todotxt.py, lines 144-164 |
| Render.WriteLines | ics_to_todotxt.py:150-170 | the loop writes the specified lines and stops at the specified failure |
| Render.LinesSpec | ics_to_todotxt.py:150-170 | one line per task, each that task's rendering, up to the first task that fails; the failure is that task's |
| Render.OutputLines | ics_to_todotxt.py:150-170 | the same for the rendering loop: the lines before a failure are written, and the failure is that of the next task |
| Render.NonAsciiAppendixFails | ics_to_todotxt.py:135-170 | with an appendix that is not ASCII no line is written, and the conversion fails exactly when there is a task |
| Render.OutputStops | ics_to_todotxt.py:150-170 | once a task fails, later tasks are not looked at |
| Render.Appendix | ics_to_todotxt.py:134-137 | with a third argument the appendix is a space followed by it, and it is empty otherwise; it is ASCII exactly when the argument is, or when there is none |
| Render.ConvertCalendar | ics_to_todotxt.py:134-170 | with the appendix built from the optional third argument, the conversion parses the file, takes the calendar's tasks and writes their lines, failing where specified |
| Render.CompletedTaskExample | ics_to_todotxt.py:150-170 | a completed task with priority 2, summary `Buy milk` and due date `20230201` gives `x (A) Buy milk due:2023-02-01` |
| Render.DatesExample | ics_to_todotxt.py:157-162 | three date properties with two distinct days give `2023-01-02 2023-01-01 `; the repeated day is written once |
| Atom.PriorityToken | rtm_atom_to_todotxt.py:103-104 | a priority is accepted exactly when it is one character whose code plus 16 is a character; the token is a parenthesis, that character, `) ` |
| Atom.PriorityLetters | rtm_atom_to_todotxt.py:103-104 | `1`, `2` and `3` give `(A) `, `(B) ` and `(C) ` |
| Atom.PriorityDigit | atom_to_todotxt.py:79-80 | a digit whose code plus 16 is a capital letter gives that letter in parentheses |
| Atom.DateField | rtm_atom_to_todotxt.py:56-61 | the date is the time stamp up to its first `T`, followed by one space; without a `T` the whole stamp is kept; no dashes are inserted; the same code stands at atom_to_todotxt.py, lines 34-39 |
| Atom.LabelSet | rtm_atom_to_todotxt.py:112-113 | the contexts the tags add are labels |
| Atom.Applied | rtm_atom_to_todotxt.py:102-113 | `none` and unknown classes change nothing, and only a priority can fail; priority, URL and list overwrite their field; location and tags only add their labels to the contexts; date, title and notes are untouched; contexts only grow and stay labels; the same code stands at atom_to_todotxt.py, lines 78-89 |
| Atom.Processed | rtm_atom_to_todotxt.py:87-90 | a `<div>` of the content only adds contexts, and they stay labels |
| Atom.ProcessedAll | rtm_atom_to_todotxt.py:82-90 | a whole content only adds contexts, and they stay labels |
| Atom.Absorbed | rtm_atom_to_todotxt.py:55-65 | a child of the entry only adds contexts, and they stay labels |
| Atom.Loaded | rtm_atom_to_todotxt.py:46-65 | the contexts of a converted entry are labels |
| Atom.TaskConverter.constructor | rtm_atom_to_todotxt.py:46-65 | `__init__` ends with labels as contexts, holding the specified fields, or raises the specified error; the same code stands at atom_to_todotxt.py, lines 24-43 |
| Atom.TaskConverter.ReadEntry | rtm_atom_to_todotxt.py:55-65 | the loop over the children of the entry ends in the specified fields, with labels as contexts, or stops at the specified error |
| Atom.TaskConverter.Absorb | rtm_atom_to_todotxt.py:56-65 | `updated` sets the date, `title` the description, and `content` is processed; any other child changes nothing |
| Atom.TaskConverter.ProcessContent | rtm_atom_to_todotxt.py:82-90 | the `<div>`s are processed in order up to the first that raises |
| Atom.TaskConverter.ProcessSubdiv | rtm_atom_to_todotxt.py:102-113 | the fields change as specified, and a failing priority leaves every field unchanged; the same code stands at atom_to_todotxt.py, lines 78-89 |
| Atom.TaskConverter.AddTags | rtm_atom_to_todotxt.py:111-113 | the loop over the tags adds the label of each tag to the contexts and changes nothing else |
| Atom.TaskConverter.Convert | rtm_atom_to_todotxt.py:67-73 | the line starts with priority, date, title, URL, notes and project; it is exactly that prefix when there are no contexts; otherwise the contexts can be read back from the rest, one `' @'` token each, in iteration order; the same code stands at atom_to_todotxt.py, lines 45-51 |
| Atom.LastWriteWins | rtm_atom_to_todotxt.py:103-108 | a later priority, URL or list replaces an earlier one |
| Atom.AppliedTwice | rtm_atom_to_todotxt.py:109-113 | processing the same `<div>` twice has the effect of processing it once, so each label appears at most once |
| Atom.TagContexts | rtm_atom_to_todotxt.py:111-113 | every comma-separated tag becomes a context, and no other new context appears |

## Left out

- **Command line and files.** Argument counting and `USAGE`, the refusal to overwrite an existing output file, opening and decoding the files, printing and the exit codes are not modelled. The input is given as its sequence of lines, and the output as the sequence of lines written.
- **Line splitting.** How `codecs` splits the input into lines is not modelled. The parser takes the lines as given.
- **Atom DOM handling.** Not modelled:
  - `xml.dom.minidom` parsing;
  - `remove_whitespace`;
  - the shape checks of `__process_content` and `__process_subdiv` that raise `ConversionError`;
  - the loop in `main` over the `<entry>` elements.

  An entry is given as its children, already reduced to text values: `updated`, `title`, and the class and value of each content `<div>`.
- **`__process_notes`.** Its text depends on Python's `repr` rules. An `rtm_notes` `<div>` is given as the text it contributes, which `Atom.TaskConverter.ProcessContent` appends to the notes.
- **Unicode.** Under Python 3, `(?:\W|_)+` and `islower` also take non-ASCII letters as word characters. `camel_case` is modelled over ASCII, which is exact for the Python 2 files.
- **Set order.** Python's set iteration order cannot be seen. `Atom.TaskConverter.Convert` takes the order as an argument, an enumeration of the contexts.
- Atom.PriorityToken follows the Python 3 file, where any code point up to U+10FFFF can be written. In the Python 2 copy, `chr` takes only codes below 256. A code from 128 to 255 builds a byte string that cannot be joined to the Unicode text of the line, so it fails when the line is written. That failure is not modelled. And if a later `rtm_priority` `<div>` replaces the token first (atom_to_todotxt.py:79-80), Python 2 converts the entry.
- Atom.PriorityToken fails as soon as a value whose code plus 16 is a surrogate is read. Python 3 builds that string, and it fails only when the line is written. If a later `rtm_priority` `<div>` replaces it (rtm_atom_to_todotxt.py:103-104), Python converts the entry, while the model fails.
- Render.PriorityLetter reports a letter code of 128 or more when the priority is read. For a code of 256 or more (a priority from U+032D up), `chr` raises a ValueError right there, at ics_to_todotxt.py:156 (rtm_ics_to_todotxt.py:150), just as modelled. For a code from 128 to 255 (a priority from U+012D to U+032C), Python 2 raises a decoding error only at the first Unicode concatenation: line 162 when the task has dates, otherwise line 163. Python therefore reports another error instead in two cases: a date property holding components (lines 159-160), and, for a task without dates, a missing `SUMMARY` or one holding components (line 163). A failing URL, DUE or DESCRIPTION comes after that concatenation, so Python reports the decoding error, which the model calls `BadPriority`.
- IcsParser.Root and IcsParser.Tasks report a failure where Python's failure is certain but comes later. A `VCALENDAR` property with text `t` makes `get_root` return `t[0]`, and the `['VTODO']` lookup on that string raises a TypeError at ics_to_todotxt.py:148. A `VTODO` property with non-empty text is iterated character by character, and `todo['SUMMARY']` on the first character raises a TypeError at line 163, after the output file is created. In every case the conversion writes no line, as the model's does.
- Render.RenderLine names each failure by its cause (`BadPriority`, `NotText`, `MissingSummary`) rather than by Python's exception class. `NonAsciiAppendix` stands for Python 2's UnicodeDecodeError at ics_to_todotxt.py:170.
