/** `process_description` (ics_to_todotxt.py): the DESCRIPTION of a task,
    whose fields are separated by a literal backslash followed by `n`,
    turned into `@context` tokens and notes. */
module Description {
  import opened Strings
  import opened Escapes
  import opened Labels

  /** What a field is, decided in the order the source tests it. */
  datatype Field =
    | Skipped              // a time estimate, an update stamp, or nothing
    | TagList(tags: string)
    | Place(location: string)
    | Rule                 // a line of hyphens
    | Note(text: string)

  /** `re.match('^--+$', f)`: two or more hyphens and nothing else, where
      `$` also accepts a single final line feed. */
  predicate IsRule(f: string) {
    var body := RuleBody(f);
    |body| >= 2 && forall i :: 0 <= i < |body| ==> body[i] == '-'
  }

  /** The field without the one final line feed that `$` lets through. */
  function RuleBody(f: string): string {
    if f != [] && f[|f| - 1] == '\n' then f[..|f| - 1] else f
  }

  function Classify(f: string): Field {
    if StartsWith(f, "Time estimate:") || StartsWith(f, "Updated:") || f == [] then Skipped
    else if StartsWith(f, "Tags:") then TagList(Strip(f[5..]))
    else if StartsWith(f, "Location:") then Place(Strip(f[9..]))
    else if IsRule(f) then Rule
    else Note(f)
  }

  /** The labels of the comma-separated tags, after decoding. */
  function TagLabels(tags: string): (r: seq<string>)
    ensures forall k :: 0 <= k < |r| ==> IsLabel(r[k])
  {
    var pieces := SplitOn(Unescape(tags), ",");
    seq(|pieces|, k requires 0 <= k < |pieces| => CamelCaseOf(pieces[k]))
  }

  /** The tokens a `Tags:` field contributes. */
  function TagsText(tags: string): string {
    if tags == "none" then [] else ContextTokens(TagLabels(tags))
  }

  /** The token a `Location:` field contributes; no decoding is applied. */
  function LocationText(location: string): string {
    if location == "none" then [] else " @" + CamelCaseOf(location)
  }

  /** The accumulators `result`, `sep` and `next_sep`. */
  datatype Acc = Acc(result: string, sep: string, nextSep: string)

  const Start := Acc([], " ", "; ")

  /** One iteration of the loop over the fields. */
  function Step(a: Acc, f: string): Acc {
    match Classify(f)
    case Skipped => a
    case TagList(tags) => a.(result := a.result + TagsText(tags))
    case Place(location) => a.(result := a.result + LocationText(location))
    case Rule => a.(nextSep := ": ")
    case Note(text) => Acc(a.result + a.sep + Unescape(text), a.nextSep, "; ")
  }

  /** The loop over the remaining fields. */
  function Run(a: Acc, fields: seq<string>): Acc
    decreases |fields|
  {
    if fields == [] then a else Run(Step(a, fields[0]), fields[1..])
  }

  /** The text `process_description` returns. */
  function DescriptionText(description: string): string {
    Run(Start, SplitOn(description, "\\n")).result
  }

  /** `process_description`. */
  method ProcessDescription(description: string) returns (result: string)
    ensures result == DescriptionText(description)
  {
    result := "";
    var sep, nextSep := " ", "; ";
    var fields := SplitOn(description, "\\n");
    for i := 0 to |fields|
      invariant Run(Acc(result, sep, nextSep), fields[i..]) == Run(Start, fields)
    {
      assert fields[i..] == [fields[i]] + fields[i + 1..];
      result, sep, nextSep := ProcessField(result, sep, nextSep, fields[i]);
    }
  }

  /** One iteration of the loop of `process_description`, on the field as
      `Classify` tells its kind. */
  method ProcessField(result: string, sep: string, nextSep: string, field: string)
    returns (result': string, sep': string, nextSep': string)
    ensures Acc(result', sep', nextSep') == Step(Acc(result, sep, nextSep), field)
  {
    result', sep', nextSep' := result, sep, nextSep;
    match Classify(field) {
      case Skipped =>
      case TagList(tags) =>
        if tags != "none" {
          result' := AppendTags(result, tags);
        }
      case Place(location) =>
        if location != "none" {
          var word := CamelCase(location);
          result' := result + (" @" + word);
        }
      case Rule =>
        nextSep' := ": ";
      case Note(text) =>
        result' := result + sep + Unescape(text);
        sep' := nextSep;
        nextSep' := "; ";
    }
  }

  /** The inner loop over the tags of a `Tags:` field. */
  method AppendTags(prefix: string, tags: string) returns (result: string)
    ensures result == prefix + ContextTokens(TagLabels(tags))
  {
    result := prefix;
    var pieces := SplitOn(Unescape(tags), ",");
    ghost var labels := TagLabels(tags);
    for j := 0 to |pieces|
      invariant result == prefix + ContextTokens(labels[..j])
    {
      var word := CamelCase(pieces[j]);
      TokensStep(prefix, labels, j);
      result := result + (" @" + word);
    }
    assert labels[..|pieces|] == labels;
  }

  /** One more tag token after the ones already written. */
  lemma TokensStep(prefix: string, labels: seq<string>, j: nat)
    requires j < |labels|
    ensures prefix + ContextTokens(labels[..j + 1]) == prefix + ContextTokens(labels[..j]) + (" @" + labels[j])
  {
    ContextTokensSnoc(labels, j);
  }

  lemma {:induction false} RunSnoc(a: Acc, fields: seq<string>, f: string)
    ensures Run(a, fields + [f]) == Step(Run(a, fields), f)
    decreases |fields|
  {
    if fields == [] {
      assert [f][1..] == [];
    } else {
      assert (fields + [f])[1..] == fields[1..] + [f];
      RunSnoc(Step(a, fields[0]), fields[1..], f);
    }
  }

  /** A line of hyphens came after the last note (or anywhere, when there
      is no note yet): the next note but one is to be joined with `': '`. */
  predicate RulePending(fields: seq<string>)
    decreases |fields|
  {
    if fields == [] then false
    else match Classify(fields[|fields| - 1])
      case Rule => true
      case Note(_) => false
      case _ => RulePending(fields[..|fields| - 1])
  }

  /** The separator written before the next note: a space before the first
      note; after that `': '` when a line of hyphens stood between the last
      note and the note before it (or the start), and `'; '` otherwise. The
      override thus takes effect one note late. */
  function SepBefore(fields: seq<string>): string
    decreases |fields|
  {
    if fields == [] then " "
    else match Classify(fields[|fields| - 1])
      case Note(_) => if RulePending(fields[..|fields| - 1]) then ": " else "; "
      case _ => SepBefore(fields[..|fields| - 1])
  }

  /** The separator state after any prefix of the fields. A line of hyphens
      sets only the separator after next: the note that follows it is still
      written after the separator in force, and `': '` applies from the note
      after that one. */
  lemma {:induction false} SeparatorState(fields: seq<string>)
    ensures Run(Start, fields).sep == SepBefore(fields)
    ensures Run(Start, fields).nextSep == if RulePending(fields) then ": " else "; "
    decreases |fields|
  {
    if fields != [] {
      var pre, f := fields[..|fields| - 1], fields[|fields| - 1];
      assert pre + [f] == fields;
      RunSnoc(Start, pre, f);
      SeparatorState(pre);
    }
  }

  /** A note is decoded and appended after the separator its position
      calls for. */
  lemma NoteSeparator(fields: seq<string>, note: string)
    requires Classify(note).Note?
    ensures Run(Start, fields + [note]).result
         == Run(Start, fields).result + SepBefore(fields) + Unescape(note)
  {
    RunSnoc(Start, fields, note);
    SeparatorState(fields);
  }

  /** Tags, locations and skipped fields only ever extend the result and
      leave both separators alone; a line of hyphens only arms the
      override. */
  lemma OtherFieldEffects(fields: seq<string>, f: string)
    requires !Classify(f).Note?
    ensures Run(Start, fields + [f]).sep == Run(Start, fields).sep
    ensures !Classify(f).Rule? ==> Run(Start, fields + [f]).nextSep == Run(Start, fields).nextSep
    ensures Classify(f).Rule? || Classify(f).Skipped? ==> Run(Start, fields + [f]).result == Run(Start, fields).result
    ensures Classify(f).TagList? ==> Run(Start, fields + [f]).result == Run(Start, fields).result + TagsText(Classify(f).tags)
    ensures Classify(f).Place? ==> Run(Start, fields + [f]).result == Run(Start, fields).result + LocationText(Classify(f).location)
  {
    RunSnoc(Start, fields, f);
  }

  /** The labels of a `Tags:` field can be read back from its tokens. */
  lemma TagsTextSplit(tags: string)
    requires tags != "none"
    ensures SplitOn(TagsText(tags), " @") == [[]] + TagLabels(tags)
  {
    ContextTokensSplit(TagLabels(tags));
  }

  /** A field that starts with none of the letters the other kinds start
      with, nor with a hyphen, is a note. */
  lemma ClassifyNote(f: string)
    requires f != [] && f[0] != 'T' && f[0] != 'U' && f[0] != 'L' && f[0] != '-'
    ensures Classify(f) == Note(f)
  {
    assert "Time estimate:"[0] == 'T' && "Updated:"[0] == 'U' && "Tags:"[0] == 'T' && "Location:"[0] == 'L';
    assert |RuleBody(f)| >= 2 ==> RuleBody(f)[0] == f[0];
  }

  /** A field of hyphens only is a line of hyphens. */
  lemma ClassifyRule(f: string)
    requires |f| >= 2 && forall i :: 0 <= i < |f| ==> f[i] == '-'
    ensures Classify(f) == Rule
  {
    assert f[0] == '-' && RuleBody(f) == f;
  }

  /** Three hyphens in particular. */
  lemma ClassifyThreeHyphens(f: string)
    requires f == "---"
    ensures Classify(f) == Rule
  {
    assert f[0] == '-' && f[1] == '-' && f[2] == '-';
    ClassifyRule(f);
  }

  /** `Tags: ` followed by a list without surrounding blanks. */
  lemma ClassifyTags(f: string, t: string)
    requires f == "Tags:" + " " + t
    requires t != [] && !IsSpace(t[0]) && !IsSpace(t[|t| - 1])
    ensures Classify(f) == TagList(t)
  {
    assert f[0] == 'T' && f[1] == 'a';
    assert f[..5] == "Tags:" && f[5..] == " " + t;
    assert (" " + t)[1..] == t;
  }

  /** A one-letter lower-case tag becomes its capital. */
  lemma OneLetterLabel(w: string, u: string)
    requires |w| == 1 && |u| == 1 && IsLower(w[0]) && u[0] == ToUpper(w[0])
    ensures CamelCaseOf(w) == u
  {
    assert WordLen(w) == 1 by { assert w[1..] == []; }
    assert Capitalize(w) == u;
  }

  /** The tokens of the tags `a,b`. */
  lemma TagsTextExample(t: string)
    requires t == "a,b"
    ensures TagsText(t) == " @A @B"
  {
    assert Join(["a", "b"], ",") == t;
    SplitOnJoin(["a", "b"], ",");
    OneLetterLabel("a", "A");
    OneLetterLabel("b", "B");
    assert TagLabels(t) == ["A", "B"];
    assert ContextTokens(["A", "B"]) == ContextTokens(["A"]) + " @" + "B" by { assert ["A", "B"][..1] == ["A"]; }
    assert ContextTokens(["A"]) == " @" + "A" by { assert ["A"][..0] == []; }
  }

  /** The fold takes the first field first. */
  lemma RunCons(a: Acc, f: string, rest: seq<string>)
    ensures Run(a, [f] + rest) == Run(Step(a, f), rest)
  {
    assert ([f] + rest)[1..] == rest;
  }

  /** After a line of hyphens the next note still follows the separator
      already chosen; only the note after it follows `': '`. */
  lemma RuleThenNotes(a: Acc, rule: string, n2: string, n3: string)
    requires Classify(rule).Rule?
    requires Classify(n2) == Note(n2) && Classify(n3) == Note(n3)
    requires '\\' !in n2 && '\\' !in n3
    ensures Run(a, [rule, n2, n3]).result == a.result + a.sep + n2 + ": " + n3
  {
    var fields := [rule, n2, n3];
    var a3 := a.(nextSep := ": ");
    var a4 := Acc(a.result + a.sep + n2, ": ", "; ");
    assert fields == [rule] + fields[1..] && fields[1..] == [n2] + fields[2..];
    assert fields[2..] == [n3] + [];
    RunCons(a, rule, fields[1..]);
    RunCons(a3, n2, fields[2..]);
    RunCons(a4, n3, []);
  }

  /** Tags, a note, a line of hyphens and two more notes: the first note
      follows a space, the second still follows `'; '`, and only the third
      follows `': '`. */
  lemma OverrideOneNoteLate(tags: string, n1: string, rule: string, n2: string, n3: string)
    requires Classify(tags).TagList? && Classify(rule).Rule?
    requires Classify(n1) == Note(n1) && Classify(n2) == Note(n2) && Classify(n3) == Note(n3)
    requires '\\' !in n1 && '\\' !in n2 && '\\' !in n3
    ensures Run(Start, [tags, n1, rule, n2, n3]).result
         == TagsText(Classify(tags).tags) + " " + n1 + "; " + n2 + ": " + n3
  {
    var rest := [rule, n2, n3];
    var a1 := Acc(TagsText(Classify(tags).tags), " ", "; ");
    var a2 := Acc(a1.result + " " + n1, "; ", "; ");
    assert [tags, n1, rule, n2, n3] == [tags] + ([n1] + rest);
    assert Start.result + a1.result == a1.result;
    RunCons(Start, tags, [n1] + rest);
    RunCons(a1, n1, rest);
    RuleThenNotes(a2, rule, n2, n3);
  }

  /** The pieces of the expected text, put together. */
  lemma ExampleText()
    ensures " @A @B" + " " + "note1" + "; " + "note2" + ": " + "note3" == " @A @B note1; note2: note3"
  {
  }

  /** A description with tags, a note, a line of hyphens and two more
      notes, its fields separated by a backslash and `n`: the tags become
      tokens, and the hyphen line changes the separator only before the
      note after next. */
  lemma DescriptionExample(tags: string, note1: string, rule: string, note2: string, note3: string)
    requires tags == "Tags: a,b" && note1 == "note1" && rule == "---" && note2 == "note2" && note3 == "note3"
    ensures DescriptionText(Join([tags, note1, rule, note2, note3], "\\n")) == " @A @B note1; note2: note3"
  {
    var fields := [tags, note1, rule, note2, note3];
    assert forall i :: 0 <= i < |fields| ==> '\\' !in fields[i];
    SplitOnJoin(fields, "\\n");
    ClassifyTags(tags, "a,b");
    TagsTextExample("a,b");
    ClassifyNote(note1);
    ClassifyNote(note2);
    ClassifyNote(note3);
    ClassifyThreeHyphens(rule);
    OverrideOneNoteLate(tags, note1, rule, note2, note3);
    ExampleText();
  }
}
