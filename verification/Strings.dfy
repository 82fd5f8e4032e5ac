/** Splitting on a separator, as strings.Split and strings.Cut do it. */
module Strings {
  // The code points unicode.IsSpace accepts.
  predicate IsSpace(c: char) {
    || '\t' <= c <= '\r' || c == ' ' || c == '\U{85}' || c == '\U{A0}' || c == '\U{1680}'
    || '\U{2000}' <= c <= '\U{200A}' || c == '\U{2028}' || c == '\U{2029}'
    || c == '\U{202F}' || c == '\U{205F}' || c == '\U{3000}'
  }

  function Split(s: string, sep: char): (parts: seq<string>)
    ensures parts != []
  {
    if s == "" then [""]
    else
      var rest := Split(s[1..], sep);
      if s[0] == sep then [""] + rest else [[s[0]] + rest[0]] + rest[1..]
  }

  // What comes before the first separator; everything when there is none.
  function Before(s: string, sep: char): string {
    if s == "" || s[0] == sep then "" else [s[0]] + Before(s[1..], sep)
  }

  lemma {:induction false} SplitWhole(s: string, sep: char)
    requires sep !in s
    ensures Split(s, sep) == [s]
  {
    if s != "" {
      SplitWhole(s[1..], sep);
      assert [s[0]] + s[1..] == s;
    }
  }

  /** The first field of a joined string splits off whole. */
  lemma {:induction false} SplitFirst(field: string, sep: char, rest: string)
    requires sep !in field
    ensures Split(field + [sep] + rest, sep) == [field] + Split(rest, sep)
  {
    var s := field + [sep] + rest;
    if field == "" {
      assert s[1..] == rest;
    } else {
      SplitFirst(field[1..], sep, rest);
      assert s[1..] == field[1..] + [sep] + rest;
      assert [field[0]] + field[1..] == field;
    }
  }

  lemma {:induction false} BeforeFirst(field: string, sep: char, rest: string)
    requires sep !in field
    ensures Before(field + [sep] + rest, sep) == field
    ensures Before(field, sep) == field
  {
    if field == "" {
      assert field + [sep] + rest == [sep] + rest;
    } else {
      BeforeFirst(field[1..], sep, rest);
      assert (field + [sep] + rest)[1..] == field[1..] + [sep] + rest;
      assert [field[0]] + field[1..] == field;
    }
  }

  /** Splitting a text at a separator splits what is before it and what is after it. */
  lemma {:induction false} SplitJoins(a: string, sep: char, b: string)
    ensures Split(a + [sep] + b, sep) == Split(a, sep) + Split(b, sep)
  {
    hide Split;
    var s := a + [sep] + b;
    if a == "" {
      assert s[1..] == b && [sep] + b == s;
      SplitOne(s, sep);
      SplitNone(sep);
    } else {
      SplitJoins(a[1..], sep, b);
      assert s[1..] == a[1..] + [sep] + b;
      SplitOne(a, sep);
      SplitOne(s, sep);
      PutBefore(Split(a[1..], sep), Split(b, sep), a[0], sep);
    }
  }

  // What one more character in front makes of the parts.
  function Fronted(c: char, sep: char, rest: seq<string>): seq<string>
    requires rest != []
  {
    if c == sep then [""] + rest else [[c] + rest[0]] + rest[1..]
  }

  lemma PutBefore(p: seq<string>, q: seq<string>, c: char, sep: char)
    requires p != []
    ensures Fronted(c, sep, p + q) == Fronted(c, sep, p) + q
  {
    if c == sep {
      assert [""] + (p + q) == ([""] + p) + q;
    } else {
      assert (p + q)[0] == p[0] && (p + q)[1..] == p[1..] + q;
      assert [[c] + p[0]] + (p[1..] + q) == ([[c] + p[0]] + p[1..]) + q;
    }
  }

  lemma SplitOne(s: string, sep: char)
    requires s != ""
    ensures Split(s, sep) == Fronted(s[0], sep, Split(s[1..], sep))
  {
  }

  lemma SplitNone(sep: char)
    ensures Split("", sep) == [""]
  {
  }

  // The code points with the property White_Space.
  const SPACES: string := "\t\n\U{0B}\U{0C}\r \U{85}\U{A0}\U{1680}\U{2000}\U{2001}\U{2002}\U{2003}\U{2004}\U{2005}\U{2006}\U{2007}\U{2008}\U{2009}\U{200A}\U{2028}\U{2029}\U{202F}\U{205F}\U{3000}"

  lemma SpacesAre(c: char)
    ensures IsSpace(c) <==> c in SPACES
  {
  }
}
