/** The tag escaping of the ingest service's line protocol, and the reader it is
    meant for: a backslash makes the next character part of the tag, and an
    unescaped comma, space or equals sign ends it. */
module EscapeTag {
  import opened Common

  /** str.replace with a one-character pattern. */
  function Replace(s: string, c: char, with: string): string {
    if s == "" then "" else (if s[0] == c then with else [s[0]]) + Replace(s[1..], c, with)
  }

  /** escape_tag: four replacements, one after the other. */
  function Escape(value: string): string {
    Replace(Replace(Replace(Replace(value, '\\', "\\\\"), ',', "\\,"), ' ', "\\ "), '=', "\\=")
  }

  predicate Special(c: char) {
    c == '\\' || c == ',' || c == ' ' || c == '='
  }

  predicate EndsTag(c: char) {
    c == ',' || c == ' ' || c == '='
  }

  /** The tag at the start of a text, and what follows it. */
  function ReadTag(s: string): (string, string) {
    if s == "" || EndsTag(s[0]) then ("", s)
    else if s[0] == '\\' && |s| > 1 then
      var (tag, rest) := ReadTag(s[2..]);
      ([s[1]] + tag, rest)
    else
      var (tag, rest) := ReadTag(s[1..]);
      ([s[0]] + tag, rest)
  }

  lemma {:induction false} ReplaceConcat(a: string, b: string, c: char, with: string)
    ensures Replace(a + b, c, with) == Replace(a, c, with) + Replace(b, c, with)
  {
    if a == "" {
      assert a + b == b;
    } else {
      var head := if a[0] == c then with else [a[0]];
      ReplaceConcat(a[1..], b, c, with);
      assert (a + b)[1..] == a[1..] + b && (a + b)[0] == a[0];
      Regroup(head, Replace(a[1..], c, with), Replace(b, c, with));
    }
  }

  function Escaped(c: char): string {
    if Special(c) then ['\\', c] else [c]
  }

  lemma ReplaceOne(x: char, c: char, with: string)
    ensures Replace([x], c, with) == if x == c then with else [x]
  {
    assert [x][1..] == "";
  }

  lemma ReplaceTwo(x: char, y: char, c: char, with: string)
    requires x != c && y != c
    ensures Replace([x, y], c, with) == [x, y]
  {
    assert [x, y] == [x] + [y];
    ReplaceConcat([x], [y], c, with);
    ReplaceOne(x, c, with);
    ReplaceOne(y, c, with);
  }

  /** One character goes through the four replacements as one escape. */
  lemma EscapeOne(x: char)
    ensures Escape([x]) == Escaped(x)
  {
    ReplaceOne(x, '\\', "\\\\");
    if x == '\\' {
      ReplaceTwo('\\', x, ',', "\\,");
      ReplaceTwo('\\', x, ' ', "\\ ");
      ReplaceTwo('\\', x, '=', "\\=");
    } else {
      ReplaceOne(x, ',', "\\,");
      if x == ',' {
        ReplaceTwo('\\', x, ' ', "\\ ");
        ReplaceTwo('\\', x, '=', "\\=");
      } else {
        ReplaceOne(x, ' ', "\\ ");
        if x == ' ' { ReplaceTwo('\\', x, '=', "\\="); } else { ReplaceOne(x, '=', "\\="); }
      }
    }
  }

  lemma EscapeConcat(a: string, b: string)
    ensures Escape(a + b) == Escape(a) + Escape(b)
  {
    ReplaceConcat(a, b, '\\', "\\\\");
    var a1, b1 := Replace(a, '\\', "\\\\"), Replace(b, '\\', "\\\\");
    ReplaceConcat(a1, b1, ',', "\\,");
    var a2, b2 := Replace(a1, ',', "\\,"), Replace(b1, ',', "\\,");
    ReplaceConcat(a2, b2, ' ', "\\ ");
    ReplaceConcat(Replace(a2, ' ', "\\ "), Replace(b2, ' ', "\\ "), '=', "\\=");
  }

  /** Whatever the value, the reader gets it back and stops at the separator that follows. */
  lemma {:induction false} EscapedTagIsRead(value: string, separator: char, rest: string)
    requires EndsTag(separator)
    ensures ReadTag(Escape(value) + [separator] + rest) == (value, [separator] + rest)
  {
    if value == "" {
      assert Escape(value) == "";
      assert "" + [separator] + rest == [separator] + rest;
    } else {
      var x, tail := value[0], value[1..];
      assert value == [x] + tail;
      EscapeConcat([x], tail);
      EscapeOne(x);
      EscapedTagIsRead(tail, separator, rest);
      var text := Escape(value) + [separator] + rest;
      var after := Escape(tail) + [separator] + rest;
      assert text == Escaped(x) + after;
      assert text[|Escaped(x)|..] == after;
    }
  }

  /** Different devices never share a tag text. */
  lemma EscapeIsInjective(a: string, b: string)
    requires Escape(a) == Escape(b)
    ensures a == b
  {
    EscapedTagIsRead(a, ' ', "");
    EscapedTagIsRead(b, ' ', "");
  }
}
