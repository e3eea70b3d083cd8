/** `TaskConverter` (rtm_atom_to_todotxt.py, and its Python 2 copy
    atom_to_todotxt.py): one `<entry>` of a Remember The Milk Atom feed,
    already taken apart into its text values, becomes one todo.txt line. */
module Atom {
  import opened Wrappers
  import opened Strings
  import opened Labels
  import opened Sorting

  /** The children of an `<entry>` the converter looks at, by local name;
      any other child is `Ignored`. */
  datatype EntryField =
    | Updated(text: string)
    | Title(text: string)
    | Content(subdivs: seq<Subdiv>)
    | Ignored

  /** One `<div>` of the content: its `class` and its text value. For the
      class `rtm_notes` the value is the text the notes contribute. */
  datatype Subdiv = Subdiv(cls: string, value: string)

  /** Why `chr(ord(value) + 16)` cannot give a priority letter. */
  datatype PriorityFailure =
    | NotOneCharacter(value: string)  // `ord` of a string of another length
    | NoSuchCharacter(code: int)      // beyond U+10FFFF, or a surrogate that UTF-8 cannot write

  /** The converter's fields, as a value. */
  datatype Fields = Fields(priority: string, date: string, descr: string, url: string,
                           notes: string, project: string, contexts: set<string>)

  const Blank := Fields("", "", "", "", "", "", {})

  /** Every context is a label: letters and digits only. */
  predicate LabelsOnly(f: Fields) {
    forall c :: c in f.contexts ==> IsLabel(c)
  }

  predicate IsScalar(n: int) {
    0 <= n < 0xD800 || 0xE000 <= n < 0x11_0000
  }

  /** `'(' + chr(ord(value) + 16) + ') '`: digits `1`, `2`, `3` become the
      letters `A`, `B`, `C`. */
  function PriorityToken(value: string): (r: Result<string, PriorityFailure>)
    ensures r.Ok? <==> |value| == 1 && IsScalar(value[0] as int + 16)
    ensures |value| != 1 ==> r == Err(NotOneCharacter(value))
    ensures r.Ok? ==> |r.value| == 4 && r.value[0] == '(' && r.value[1] as int == value[0] as int + 16
                      && r.value[2..] == ") "
  {
    if |value| != 1 then Err(NotOneCharacter(value))
    else
      var n := value[0] as int + 16;
      if IsScalar(n) then Ok("(" + [n as char] + ") ") else Err(NoSuchCharacter(n))
  }

  /** The `updated` time stamp cut at its first `T`, followed by one space;
      no dashes are inserted. */
  function DateField(text: string): (r: string)
    ensures |r| >= 1 && r[|r| - 1] == ' '
    ensures r[..|r| - 1] <= text && 'T' !in r[..|r| - 1]
    ensures |r| - 1 < |text| ==> text[|r| - 1] == 'T'
    ensures 'T' !in text ==> r == text + " "
  {
    var d := Before(text, 'T');
    assert (d + " ")[..|d|] == d;
    d + " "
  }

  /** The labels of the given phrases, as a set. */
  function LabelSet(phrases: seq<string>): (r: set<string>)
    ensures forall x :: x in r ==> IsLabel(x)
  {
    set p | p in phrases :: CamelCaseOf(p)
  }

  lemma LabelSetSnoc(phrases: seq<string>, j: nat)
    requires j < |phrases|
    ensures LabelSet(phrases[..j + 1]) == LabelSet(phrases[..j]) + {CamelCaseOf(phrases[j])}
  {
    var pre, cur := phrases[..j], phrases[..j + 1];
    assert cur == pre + [phrases[j]];
    assert forall p :: p in cur <==> p in pre || p == phrases[j];
  }

  /** The classes `__process_subdiv` acts on. */
  const Recognized := {"rtm_priority", "rtm_url", "rtm_list", "rtm_location", "rtm_tags"}

  /** `__process_subdiv` on a value that has been read out of its `<div>`:
      `none` and unknown classes change nothing, a priority can fail, the
      URL and the list are overwritten, and locations and tags only add
      labels to the contexts. */
  function Applied(f: Fields, cls: string, value: string): (r: Result<Fields, PriorityFailure>)
    ensures value == "none" || cls !in Recognized ==> r == Ok(f)
    ensures r.Err? <==> value != "none" && cls == "rtm_priority" && PriorityToken(value).Err?
    ensures r.Ok? ==> && f.contexts <= r.value.contexts
                      && r.value.date == f.date && r.value.descr == f.descr && r.value.notes == f.notes
                      && (LabelsOnly(f) ==> LabelsOnly(r.value))
    ensures r.Ok? && value != "none" ==> match cls
      case "rtm_priority" => r.value == f.(priority := PriorityToken(value).value)
      case "rtm_url" => r.value == f.(url := " " + value)
      case "rtm_list" => r.value == f.(project := " +" + CamelCaseOf(value))
      case "rtm_location" => r.value == f.(contexts := f.contexts + {CamelCaseOf(value)})
      case "rtm_tags" => r.value == f.(contexts := f.contexts + LabelSet(SplitOn(value, ",")))
      case _ => r.value == f
  {
    if value == "none" then Ok(f)
    else if cls == "rtm_priority" then
      match PriorityToken(value)
      case Ok(p) => Ok(f.(priority := p))
      case Err(e) => Err(e)
    else if cls == "rtm_url" then Ok(f.(url := " " + value))
    else if cls == "rtm_list" then Ok(f.(project := " +" + CamelCaseOf(value)))
    else if cls == "rtm_location" then Ok(f.(contexts := f.contexts + {CamelCaseOf(value)}))
    else if cls == "rtm_tags" then Ok(f.(contexts := f.contexts + LabelSet(SplitOn(value, ","))))
    else Ok(f)
  }

  /** One `<div>` of the content: the notes are appended, anything else
      goes to `__process_subdiv`. */
  function Processed(f: Fields, d: Subdiv): (r: Result<Fields, PriorityFailure>)
    ensures r.Ok? ==> f.contexts <= r.value.contexts && (LabelsOnly(f) ==> LabelsOnly(r.value))
  {
    if d.cls == "rtm_notes" then Ok(f.(notes := f.notes + d.value)) else Applied(f, d.cls, d.value)
  }

  /** `__process_content`: the `<div>`s in order, up to the first failure. */
  function ProcessedAll(f: Fields, subdivs: seq<Subdiv>): (r: Result<Fields, PriorityFailure>)
    ensures r.Ok? ==> f.contexts <= r.value.contexts && (LabelsOnly(f) ==> LabelsOnly(r.value))
  {
    if subdivs == [] then Ok(f)
    else match ProcessedAll(f, subdivs[..|subdivs| - 1])
      case Err(e) => Err(e)
      case Ok(g) => Processed(g, subdivs[|subdivs| - 1])
  }

  /** One child of the entry. */
  function Absorbed(f: Fields, field: EntryField): (r: Result<Fields, PriorityFailure>)
    ensures r.Ok? ==> f.contexts <= r.value.contexts && (LabelsOnly(f) ==> LabelsOnly(r.value))
  {
    match field
    case Updated(text) => Ok(f.(date := DateField(text)))
    case Title(text) => Ok(f.(descr := text))
    case Content(subdivs) => ProcessedAll(f, subdivs)
    case Ignored => Ok(f)
  }

  /** `__init__`: the children of the entry in order, starting from empty
      fields and no contexts. */
  function Loaded(entry: seq<EntryField>): (r: Result<Fields, PriorityFailure>)
    ensures r.Ok? ==> LabelsOnly(r.value)
  {
    if entry == [] then Ok(Blank)
    else match Loaded(entry[..|entry| - 1])
      case Err(e) => Err(e)
      case Ok(f) => Absorbed(f, entry[|entry| - 1])
  }

  /** The strings of `order` are the contexts, each exactly once: one order
      in which Python may iterate over the set. */
  predicate Enumerates(order: seq<string>, contexts: set<string>) {
    && Elements(order) == contexts
    && forall i, j :: 0 <= i < j < |order| ==> order[i] != order[j]
  }

  lemma {:induction false} ProcessedAllStops(f: Fields, subdivs: seq<Subdiv>, k: nat)
    requires k <= |subdivs| && ProcessedAll(f, subdivs[..k]).Err?
    ensures ProcessedAll(f, subdivs) == ProcessedAll(f, subdivs[..k])
    decreases |subdivs| - k
  {
    if k < |subdivs| {
      assert subdivs[..k + 1][..k] == subdivs[..k];
      ProcessedAllStops(f, subdivs, k + 1);
    } else {
      assert subdivs[..k] == subdivs;
    }
  }

  lemma {:induction false} LoadedStops(entry: seq<EntryField>, k: nat)
    requires k <= |entry| && Loaded(entry[..k]).Err?
    ensures Loaded(entry) == Loaded(entry[..k])
    decreases |entry| - k
  {
    if k < |entry| {
      assert entry[..k + 1][..k] == entry[..k];
      LoadedStops(entry, k + 1);
    } else {
      assert entry[..k] == entry;
    }
  }

  class TaskConverter {
    var priority: string
    var date: string
    var descr: string
    var url: string
    var notes: string
    var project: string
    var contexts: set<string>
    /** The exception the constructor raised, if any. */
    var failure: Option<PriorityFailure>

    function State(): Fields
      reads this
    {
      Fields(priority, date, descr, url, notes, project, contexts)
    }

    predicate Valid()
      reads this
    {
      LabelsOnly(State())
    }

    /** `__init__`: the children of the entry are read in order. */
    constructor (entry: seq<EntryField>)
      ensures Valid()
      ensures failure.None? <==> Loaded(entry).Ok?
      ensures failure.None? ==> State() == Loaded(entry).value
      ensures failure.Some? ==> Loaded(entry) == Err(failure.value)
    {
      priority, date, descr, url, notes, project := "", "", "", "", "", "";
      contexts := {};
      failure := None;
      new;
      var outcome := ReadEntry(entry);
      if outcome.Fail? {
        failure := Some(outcome.error);
      }
    }

    /** The loop of `__init__` over the children of the entry, stopping at
        the first that raises. */
    method ReadEntry(entry: seq<EntryField>) returns (outcome: Outcome<PriorityFailure>)
      modifies this
      requires State() == Blank
      ensures Valid() && failure == old(failure)
      ensures outcome.Pass? <==> Loaded(entry).Ok?
      ensures outcome.Pass? ==> State() == Loaded(entry).value
      ensures outcome.Fail? ==> Loaded(entry) == Err(outcome.error)
    {
      outcome := Pass;
      var i := 0;
      while i < |entry| && outcome.Pass?
        invariant 0 <= i <= |entry| && Valid() && failure == old(failure)
        invariant outcome.Pass? ==> Loaded(entry[..i]) == Ok(State())
        invariant outcome.Fail? ==> Loaded(entry[..i]) == Err(outcome.error)
        decreases |entry| - i
      {
        assert entry[..i + 1][..i] == entry[..i];
        outcome := Absorb(entry[i]);
        i := i + 1;
      }
      if outcome.Fail? {
        LoadedStops(entry, i);
      } else {
        assert entry[..i] == entry;
      }
    }

    /** One child of the entry, in the branches of `__init__`'s loop. */
    method Absorb(field: EntryField) returns (outcome: Outcome<PriorityFailure>)
      modifies this
      requires Valid()
      ensures Valid() && failure == old(failure)
      ensures outcome.Pass? <==> Absorbed(old(State()), field).Ok?
      ensures outcome.Pass? ==> State() == Absorbed(old(State()), field).value
      ensures outcome.Fail? ==> Absorbed(old(State()), field) == Err(outcome.error)
    {
      outcome := Pass;
      match field {
        case Updated(text) =>
          date := text;
          var cut := Before(date, 'T');
          date := cut + " ";
        case Title(text) =>
          descr := text;
        case Content(subdivs) =>
          outcome := ProcessContent(subdivs);
        case Ignored =>
      }
    }

    /** The line before the contexts. */
    function Prefix(): string
      reads this
    {
      priority + date + descr + url + notes + project
    }

    /** `convert`, with `order` the order in which the set of contexts is
        iterated: the fields in order, then one `' @' + label` per context.
        The contexts can be read back from the line. */
    function Convert(order: seq<string>): (line: string)
      reads this
      requires Valid() && Enumerates(order, contexts)
      ensures Prefix() <= line
      ensures line == Prefix() <==> contexts == {}
      ensures contexts != {} ==> SplitOn(line[|Prefix()|..], " @") == [[]] + order
    {
      var todo := Prefix();
      if contexts != {} then
        var tail := " @" + Join(order, " @");
        assert order != [] by { assert order[0] in contexts; }
        assert forall k :: 0 <= k < |order| ==> IsLabel(order[k]) by {
          forall k | 0 <= k < |order| ensures IsLabel(order[k]) { assert order[k] in Elements(order); }
        }
        ContextTokensJoin(order);
        ContextTokensSplit(order);
        assert (todo + tail)[|todo|..] == tail;
        todo + tail
      else
        todo
    }

    /** `__process_content`: the `<div>`s in order, stopping at the first
        that raises. */
    method ProcessContent(subdivs: seq<Subdiv>) returns (outcome: Outcome<PriorityFailure>)
      modifies this
      requires Valid()
      ensures Valid() && failure == old(failure)
      ensures outcome.Pass? <==> ProcessedAll(old(State()), subdivs).Ok?
      ensures outcome.Pass? ==> State() == ProcessedAll(old(State()), subdivs).value
      ensures outcome.Fail? ==> ProcessedAll(old(State()), subdivs) == Err(outcome.error)
    {
      ghost var start := State();
      outcome := Pass;
      var i := 0;
      while i < |subdivs| && outcome.Pass?
        invariant 0 <= i <= |subdivs| && Valid() && failure == old(failure)
        invariant outcome.Pass? ==> ProcessedAll(start, subdivs[..i]) == Ok(State())
        invariant outcome.Fail? ==> ProcessedAll(start, subdivs[..i]) == Err(outcome.error)
        decreases |subdivs| - i
      {
        assert subdivs[..i + 1][..i] == subdivs[..i];
        var d := subdivs[i];
        if d.cls == "rtm_notes" {
          notes := notes + d.value;
        } else {
          outcome := ProcessSubdiv(d.cls, d.value);
        }
        i := i + 1;
      }
      if outcome.Fail? {
        ProcessedAllStops(start, subdivs, i);
      } else {
        assert subdivs[..i] == subdivs;
      }
    }

    /** `__process_subdiv`, from the point where the value has been read. */
    method ProcessSubdiv(cls: string, value: string) returns (outcome: Outcome<PriorityFailure>)
      modifies this
      requires Valid()
      ensures Valid() && failure == old(failure)
      ensures outcome.Pass? <==> Applied(old(State()), cls, value).Ok?
      ensures outcome.Pass? ==> State() == Applied(old(State()), cls, value).value
      ensures outcome.Fail? ==> State() == old(State()) && Applied(old(State()), cls, value) == Err(outcome.error)
    {
      outcome := Pass;
      if value != "none" {
        if cls == "rtm_priority" {
          var token := PriorityToken(value);
          if token.Ok? {
            priority := token.value;
          } else {
            outcome := Fail(token.error);
          }
        } else if cls == "rtm_url" {
          url := " " + value;
        } else if cls == "rtm_list" {
          var word := CamelCase(value);
          project := " +" + word;
        } else if cls == "rtm_location" {
          var word := CamelCase(value);
          contexts := contexts + {word};
        } else if cls == "rtm_tags" {
          AddTags(SplitOn(value, ","));
        }
      }
    }

    /** The loop over the comma-separated tags. */
    method AddTags(tags: seq<string>)
      modifies this
      ensures State() == old(State()).(contexts := old(contexts) + LabelSet(tags))
      ensures failure == old(failure)
    {
      for j := 0 to |tags|
        invariant State() == old(State()).(contexts := old(contexts) + LabelSet(tags[..j]))
        invariant failure == old(failure)
      {
        LabelSetSnoc(tags, j);
        var word := CamelCase(tags[j]);
        contexts := contexts + {word};
      }
      assert tags[..|tags|] == tags;
    }
  }

  /** A later priority, URL or list replaces an earlier one. */
  lemma LastWriteWins(f: Fields, cls: string, v: string, w: string)
    requires cls in {"rtm_priority", "rtm_url", "rtm_list"}
    requires Applied(f, cls, v).Ok? && w != "none"
    ensures Applied(Applied(f, cls, v).value, cls, w) == Applied(f, cls, w)
  {
  }

  /** The same `<div>` twice has the effect of once: contexts form a set. */
  lemma AppliedTwice(f: Fields, cls: string, value: string)
    requires Applied(f, cls, value).Ok?
    ensures Applied(Applied(f, cls, value).value, cls, value) == Applied(f, cls, value)
  {
  }

  /** Every comma-separated tag becomes a context, and nothing else does. */
  lemma TagContexts(f: Fields, value: string)
    requires value != "none"
    ensures var g := Applied(f, "rtm_tags", value).value;
      && (forall t :: t in SplitOn(value, ",") ==> CamelCaseOf(t) in g.contexts)
      && (forall c :: c in g.contexts ==> c in f.contexts || exists t :: t in SplitOn(value, ",") && c == CamelCaseOf(t))
  {
  }

  /** The priorities Remember The Milk exports. */
  lemma PriorityLetters()
    ensures PriorityToken("1") == Ok("(A) ")
    ensures PriorityToken("2") == Ok("(B) ")
    ensures PriorityToken("3") == Ok("(C) ")
  {
    PriorityDigit("1", 'A');
    assert "(" + ['A'] + ") " == "(A) ";
    PriorityDigit("2", 'B');
    assert "(" + ['B'] + ") " == "(B) ";
    PriorityDigit("3", 'C');
    assert "(" + ['C'] + ") " == "(C) ";
  }

  lemma PriorityDigit(value: string, letter: char)
    requires |value| == 1 && value[0] as int + 16 == letter as int && 'A' <= letter <= 'Z'
    ensures PriorityToken(value) == Ok("(" + [letter] + ") ")
  {
  }
}
