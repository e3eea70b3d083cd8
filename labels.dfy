/** `camel_case` (ics_to_todotxt.py) and `TaskConverter.__camel_case`
    (rtm_atom_to_todotxt.py): a noun phrase becomes one CamelCase label for
    a `@context` or `+project` token. Characters are classified as ASCII,
    which is what the regular expression `(?:\W|_)+` matches without the
    UNICODE flag: the word characters are letters and digits, and every
    other character, `_` included, separates words. */
module Labels {
  import opened Strings

  predicate IsLower(c: char) { 'a' <= c <= 'z' }

  predicate IsUpper(c: char) { 'A' <= c <= 'Z' }

  predicate IsDigit(c: char) { '0' <= c <= '9' }

  /** The characters a label is made of. */
  predicate IsAlnum(c: char) { IsLower(c) || IsUpper(c) || IsDigit(c) }

  /** A string made of letters and digits only. */
  predicate IsLabel(s: string) { forall i :: 0 <= i < |s| ==> IsAlnum(s[i]) }

  function ToUpper(c: char): (r: char)
    ensures IsLower(c) ==> IsUpper(r)
    ensures !IsLower(c) ==> r == c
  {
    if IsLower(c) then (c as int - 32) as char else c
  }

  function ToLower(c: char): (r: char)
    ensures IsUpper(c) ==> IsLower(r)
    ensures !IsUpper(c) ==> r == c
  {
    if IsUpper(c) then (c as int + 32) as char else c
  }

  function LowerAll(w: string): (r: string)
    ensures |r| == |w|
    ensures forall i :: 0 <= i < |w| ==> r[i] == ToLower(w[i])
  {
    if w == [] then [] else [ToLower(w[0])] + LowerAll(w[1..])
  }

  /** `str.capitalize`: the first character upper case, the others lower. */
  function Capitalize(w: string): (r: string)
    requires w != []
    ensures |r| == |w| && r[0] == ToUpper(w[0])
    ensures forall i :: 1 <= i < |w| ==> r[i] == ToLower(w[i])
  {
    [ToUpper(w[0])] + LowerAll(w[1..])
  }

  /** One word of the label: capitalized when it starts with a lower-case
      letter, copied verbatim otherwise. */
  function Recase(w: string): string {
    if w != [] && IsLower(w[0]) then Capitalize(w) else w
  }

  /** Length of the leading run of word characters. */
  function WordLen(s: string): (n: nat)
    ensures n <= |s|
    ensures forall i :: 0 <= i < n ==> IsAlnum(s[i])
    ensures n < |s| ==> !IsAlnum(s[n])
  {
    if s == [] || !IsAlnum(s[0]) then 0 else 1 + WordLen(s[1..])
  }

  /** Length of the leading run of separator characters. */
  function GapLen(s: string): (n: nat)
    ensures n <= |s|
    ensures forall i :: 0 <= i < n ==> !IsAlnum(s[i])
    ensures n < |s| ==> IsAlnum(s[n])
  {
    if s == [] || IsAlnum(s[0]) then 0 else 1 + GapLen(s[1..])
  }

  /** `re.split('(?:\W|_)+', s)`: the pieces between maximal runs of
      separators, with an empty piece before a leading run and after a
      trailing one. Put back together, the pieces are the letters and
      digits of `s` in order. */
  function Words(s: string): (ws: seq<string>)
    ensures |ws| >= 1
    ensures forall k :: 0 <= k < |ws| ==> IsLabel(ws[k])
    ensures forall k :: 0 < k < |ws| - 1 ==> ws[k] != []
    ensures s != [] && IsAlnum(s[0]) ==> ws[0] != []
    ensures Join(ws, "") == Alnums(s)
    decreases |s|
  {
    var n := WordLen(s);
    if n == |s| then
      AlnumsLabel(s, []);
      assert s + [] == s;
      [s]
    else
      var rest := s[n..];
      var m := GapLen(rest);
      var tail := Words(rest[m..]);
      JoinCons(s[..n], tail, "");
      assert s[..n] + "" == s[..n];
      AlnumsSplit(s, n, m);
      [s[..n]] + tail
  }

  /** The recased words, concatenated without separators. */
  function Glue(ws: seq<string>): string {
    ConcatMap(Recase, ws)
  }

  lemma RecaseLabel(w: string)
    requires IsLabel(w)
    ensures IsLabel(Recase(w)) && |Recase(w)| == |w|
    ensures w != [] ==> !IsLower(Recase(w)[0])
  {
    if w != [] && IsLower(w[0]) {
      var x := Recase(w);
      forall i | 0 <= i < |x| ensures IsAlnum(x[i]) {
        if i > 0 { assert IsAlnum(w[i]); }
      }
    }
  }

  /** The label of a phrase: the recased words of `Words(phrase)`, glued
      together; it holds letters and digits only and never starts with a
      lower-case letter. */
  function CamelCaseOf(phrase: string): (r: string)
    ensures IsLabel(r)
    ensures r == [] || !IsLower(r[0])
    decreases |phrase|
  {
    var n := WordLen(phrase);
    RecaseLabel(phrase[..n]);
    if n == |phrase| then Recase(phrase)
    else
      var rest := phrase[n..];
      var m := GapLen(rest);
      Recase(phrase[..n]) + CamelCaseOf(rest[m..])
  }

  /** The label is the concatenation of the recased words. */
  lemma {:induction false} CamelCaseGlue(phrase: string)
    ensures CamelCaseOf(phrase) == Glue(Words(phrase))
    decreases |phrase|
  {
    var n := WordLen(phrase);
    if n == |phrase| {
      ConcatMapCons(Recase, phrase, []);
      assert [phrase] + [] == [phrase];
    } else {
      var rest := phrase[n..];
      var m := GapLen(rest);
      CamelCaseGlue(rest[m..]);
      ConcatMapCons(Recase, phrase[..n], Words(rest[m..]));
    }
  }

  /** `camel_case`: the loop over the split words, accumulating `result`. */
  method CamelCase(words: string) returns (result: string)
    ensures result == CamelCaseOf(words)
  {
    var ws := Words(words);
    result := "";
    for i := 0 to |ws|
      invariant result == Glue(ws[..i])
    {
      ConcatMapSnoc(Recase, ws, i);
      var word := ws[i];
      if word != [] {
        if IsLower(word[0]) {
          word := Capitalize(word);
        }
        result := result + word;
      }
    }
    assert ws[..|ws|] == ws;
    CamelCaseGlue(words);
  }

  /** A label is split into itself alone. */
  lemma LabelWords(s: string)
    requires IsLabel(s)
    ensures Words(s) == [s]
  {
  }

  /** Turning a label into a label again changes nothing. */
  lemma CamelCaseIdempotent(phrase: string)
    ensures CamelCaseOf(CamelCaseOf(phrase)) == CamelCaseOf(phrase)
  {
    var t := CamelCaseOf(phrase);
    assert WordLen(t) == |t|;
  }

  /** The letters and digits of a string, in order. */
  function Alnums(s: string): string {
    if s == [] then [] else (if IsAlnum(s[0]) then [s[0]] else []) + Alnums(s[1..])
  }

  /** A label keeps all its characters. */
  lemma {:induction false} AlnumsLabel(w: string, t: string)
    requires IsLabel(w)
    ensures Alnums(w + t) == w + Alnums(t)
    decreases |w|
  {
    if w == [] {
      assert w + t == t;
    } else {
      assert (w + t)[0] == w[0] && (w + t)[1..] == w[1..] + t;
      AlnumsLabel(w[1..], t);
      assert [w[0]] + (w[1..] + Alnums(t)) == w + Alnums(t);
    }
  }

  /** A run of separators is dropped. */
  lemma {:induction false} AlnumsGap(g: string, t: string)
    requires forall i :: 0 <= i < |g| ==> !IsAlnum(g[i])
    ensures Alnums(g + t) == Alnums(t)
    decreases |g|
  {
    if g == [] {
      assert g + t == t;
    } else {
      assert (g + t)[0] == g[0] && (g + t)[1..] == g[1..] + t;
      AlnumsGap(g[1..], t);
    }
  }

  lemma AlnumsWordGap(word: string, gap: string, tail: string)
    requires IsLabel(word) && forall i :: 0 <= i < |gap| ==> !IsAlnum(gap[i])
    ensures Alnums(word + (gap + tail)) == word + Alnums(tail)
  {
    AlnumsLabel(word, gap + tail);
    AlnumsGap(gap, tail);
  }

  /** A phrase is its first word, then a run of separators, then the rest. */
  lemma WordGapParts(s: string, n: nat, m: nat)
    requires n == WordLen(s) && n < |s| && m == GapLen(s[n..])
    ensures IsLabel(s[..n])
    ensures forall i :: 0 <= i < |s[n..][..m]| ==> !IsAlnum(s[n..][..m][i])
    ensures s == s[..n] + (s[n..][..m] + s[n..][m..])
  {
    var rest := s[n..];
    assert rest == rest[..m] + rest[m..];
  }

  lemma AlnumsSplit(s: string, n: nat, m: nat)
    requires n == WordLen(s) && n < |s| && m == GapLen(s[n..])
    ensures Alnums(s) == s[..n] + Alnums(s[n..][m..])
  {
    WordGapParts(s, n, m);
    AlnumsWordGap(s[..n], s[n..][..m], s[n..][m..]);
  }

  lemma LowerAllAppend(a: string, b: string)
    ensures LowerAll(a + b) == LowerAll(a) + LowerAll(b)
  {
    var l, r := LowerAll(a + b), LowerAll(a) + LowerAll(b);
    assert |l| == |r|;
    forall i | 0 <= i < |l| ensures l[i] == r[i] {
      if i < |a| { assert (a + b)[i] == a[i]; } else { assert (a + b)[i] == b[i - |a|]; }
    }
  }

  /** Recasing a word changes the case of its letters and nothing else. */
  lemma LowerRecase(w: string)
    ensures LowerAll(Recase(w)) == LowerAll(w)
  {
    var l, r := LowerAll(Recase(w)), LowerAll(w);
    assert |l| == |r|;
    forall i | 0 <= i < |l| ensures l[i] == r[i] {
      if i > 0 && IsLower(w[0]) { assert Recase(w)[i] == ToLower(w[i]); }
    }
  }

  /** Up to case, the label of a phrase is the phrase's letters and digits
      in order. */
  lemma {:induction false} CamelCaseLetters(phrase: string)
    ensures LowerAll(CamelCaseOf(phrase)) == LowerAll(Alnums(phrase))
    decreases |phrase|
  {
    var n := WordLen(phrase);
    if n == |phrase| {
      AlnumsLabel(phrase, []);
      assert phrase + [] == phrase;
      LowerRecase(phrase);
    } else {
      var rest := phrase[n..];
      var m := GapLen(rest);
      CamelCaseLetters(rest[m..]);
      LowerAllAppend(Recase(phrase[..n]), CamelCaseOf(rest[m..]));
      LowerRecase(phrase[..n]);
      AlnumsSplit(phrase, n, m);
      LowerAllAppend(phrase[..n], Alnums(rest[m..]));
    }
  }

  /** `camel_case('milk')` is `'Milk'`. */
  lemma MilkLabel()
    ensures CamelCaseOf("milk") == "Milk"
  {
    assert WordLen("milk") == 4;
    assert Capitalize("milk") == "Milk";
  }

  /** `camel_case('buy milk')` is `'BuyMilk'`: the space between the
      words goes, and each word is capitalized. */
  lemma BuyMilkLabel()
    ensures CamelCaseOf("buy milk") == "BuyMilk"
  {
    MilkLabel();
    BuyMilkParts();
    assert Recase("buy") == "Buy" by { assert Capitalize("buy") == "Buy"; }
  }

  lemma BuyMilkParts()
    ensures WordLen("buy milk") == 3 && "buy milk"[..3] == "buy"
    ensures "buy milk"[3..] == " milk" && GapLen(" milk") == 1 && " milk"[1..] == "milk"
  {
    assert WordLen(" milk") == 0;
  }

  /** The `@context` tokens of a todo.txt line: `' @' + label` for each
      label, in order. */
  function ContextTokens(labels: seq<string>): string {
    if labels == [] then []
    else ContextTokens(labels[..|labels| - 1]) + " @" + labels[|labels| - 1]
  }

  lemma ContextTokensSnoc(labels: seq<string>, j: nat)
    requires j < |labels|
    ensures ContextTokens(labels[..j + 1]) == ContextTokens(labels[..j]) + " @" + labels[j]
  {
    assert labels[..j + 1][..j] == labels[..j];
  }

  lemma {:induction false} ContextTokensJoin(labels: seq<string>)
    requires labels != []
    ensures ContextTokens(labels) == " @" + Join(labels, " @")
  {
    var n := |labels|;
    if n == 1 {
      assert labels[..0] == [];
    } else {
      var pre := labels[..n - 1];
      ContextTokensJoin(pre);
      JoinSnoc(pre, labels[n - 1], " @");
      assert pre + [labels[n - 1]] == labels;
    }
  }

  /** The labels can be read back from their tokens: splitting at `' @'`
      gives an empty piece followed by the labels. */
  lemma ContextTokensSplit(labels: seq<string>)
    requires forall k :: 0 <= k < |labels| ==> IsLabel(labels[k])
    ensures SplitOn(ContextTokens(labels), " @") == [[]] + labels
  {
    if labels != [] {
      ContextTokensJoin(labels);
      var j := Join(labels, " @");
      SplitOnJoin(labels, " @");
      var t := " @" + j;
      assert t[..2] == " @" && t[2..] == j;
    }
  }
}
