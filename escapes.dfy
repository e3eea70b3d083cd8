/** The backslash decoding of `unescape` (ics_to_todotxt.py), a loose form
    of the TEXT escaping of section 3.3.11 of RFC 5545. */
module Escapes {

  /** `re.sub(r'\\(.)', r'\1', s)`: scanning left to right, each backslash
      followed by a character other than a line feed (what `.` matches) is
      dropped and the character kept; a matched pair is never rescanned, so
      a doubled backslash becomes one. */
  function Unescape(s: string): (r: string)
    ensures |r| <= |s|
    ensures '\\' !in s ==> r == s
  {
    if |s| >= 2 && s[0] == '\\' && s[1] != '\n' then [s[1]] + Unescape(s[2..])
    else if s == [] then []
    else [s[0]] + Unescape(s[1..])
  }

  /** The characters section 3.3.11 of RFC 5545 escapes with a backslash
      (the line break, written as a backslash and `n`, is not one of them
      here: `Unescape` turns that pair into a plain `n`). */
  predicate IsEscaped(c: char) {
    c == '\\' || c == ';' || c == ','
  }

  /** TEXT escaping of backslash, semicolon and comma. */
  function Escape(s: string): (r: string)
    ensures |r| >= |s|
  {
    if s == [] then []
    else if IsEscaped(s[0]) then ['\\', s[0]] + Escape(s[1..])
    else [s[0]] + Escape(s[1..])
  }

  /** Decoding undoes the escaping of backslash, semicolon and comma. */
  lemma {:induction false} UnescapeEscape(s: string)
    ensures Unescape(Escape(s)) == s
  {
    if s != [] {
      UnescapeEscape(s[1..]);
      var e := Escape(s);
      if IsEscaped(s[0]) {
        assert e[2..] == Escape(s[1..]);
      } else {
        assert e[1..] == Escape(s[1..]);
      }
      assert s == [s[0]] + s[1..];
    }
  }

  /** A doubled backslash decodes to a single one, and a backslash before a
      punctuation character is dropped. */
  lemma UnescapeExamples()
    ensures Unescape("\\\\") == "\\"
    ensures Unescape("a\\,b") == "a,b"
    ensures Unescape("\\\n") == "\\\n"
  {
    assert Unescape("\\\\") == ['\\'] + Unescape("");
    assert Unescape("a\\,b") == ['a'] + Unescape("\\,b");
    assert Unescape("\\,b") == [','] + Unescape("b");
    assert Unescape("\\\n") == ['\\'] + Unescape("\n");
  }
}
