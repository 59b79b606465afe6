/** SQL text: names, quoted literals, option maps, and how the SQL reader takes a quoted
    literal apart again. */
module SqlText {
  import opened Common

  // ---------------------------------------------------------------- names

  predicate IsLetter(c: char) { 'A' <= c <= 'Z' || 'a' <= c <= 'z' || c == '_' }

  predicate IsWordChar(c: char) { IsLetter(c) || '0' <= c <= '9' }

  /** `[A-Za-z_][A-Za-z0-9_]*`, matched in full. */
  predicate IsIdentifier(s: string) { s != "" && IsLetter(s[0]) && forall i :: 0 <= i < |s| ==> IsWordChar(s[i]) }

  /** The characters a name can begin with, and go on with. */
  lemma NameCharacters(c: char)
    ensures IsLetter(c) <==> c in "ABCDEFGHIJKLMNOPQRSTUVWXYZ" || c in "abcdefghijklmnopqrstuvwxyz" || c == '_'
    ensures IsWordChar(c) <==> IsLetter(c) || c in "0123456789"
  {
  }

  /** A name is letters, digits and underscores, at least one, and does not begin with a digit. */
  lemma IdentifierExactly(s: string)
    ensures IsIdentifier(s) <==>
      && s != "" && s[0] !in "0123456789"
      && forall i :: 0 <= i < |s| ==>
           s[i] in "ABCDEFGHIJKLMNOPQRSTUVWXYZ" || s[i] in "abcdefghijklmnopqrstuvwxyz" || s[i] in "_0123456789"
  {
    forall i | 0 <= i < |s|
      ensures IsWordChar(s[i]) <==>
        s[i] in "ABCDEFGHIJKLMNOPQRSTUVWXYZ" || s[i] in "abcdefghijklmnopqrstuvwxyz" || s[i] in "_0123456789"
    {
      NameCharacters(s[i]);
    }
    if s != "" {
      NameCharacters(s[0]);
    }
  }

  /** `str.split(".")`. */
  function SplitDots(s: string): (parts: seq<string>)
    ensures parts != []
    decreases |s|
  {
    if s == "" then [""]
    else
      var rest := SplitDots(s[1..]);
      if s[0] == '.' then [""] + rest else [[s[0]] + rest[0]] + rest[1..]
  }

  function Join(sep: string, parts: seq<string>): string {
    if |parts| == 0 then "" else if |parts| == 1 then parts[0] else parts[0] + sep + Join(sep, parts[1..])
  }

  predicate IsNamespace(s: string) { forall i :: 0 <= i < |SplitDots(s)| ==> IsIdentifier(SplitDots(s)[i]) }

  /** Joining the parts of a split name gives the name back. */
  lemma {:induction false} JoinSplit(s: string)
    ensures Join(".", SplitDots(s)) == s
    decreases |s|
  {
    if s != "" {
      JoinSplit(s[1..]);
      var rest := SplitDots(s[1..]);
      assert s == [s[0]] + s[1..];
      if s[0] == '.' {
        assert ([""] + rest)[1..] == rest;
      } else {
        var first := [s[0]] + rest[0];
        assert ([first] + rest[1..])[1..] == rest[1..];
        if |rest| > 1 {
          assert first + "." + Join(".", rest[1..]) == [s[0]] + (rest[0] + "." + Join(".", rest[1..]));
        }
      }
    }
  }

  /** And they are split at every dot. */
  lemma {:induction false} PartsHaveNoDots(s: string)
    ensures forall i :: 0 <= i < |SplitDots(s)| ==> '.' !in SplitDots(s)[i]
    decreases |s|
  {
    if s != "" {
      PartsHaveNoDots(s[1..]);
    }
  }

  // ---------------------------------------------------------------- literals

  /** Every quote doubled. */
  function Doubled(s: string): string {
    if s == "" then "" else (if s[0] == '\'' then "''" else [s[0]]) + Doubled(s[1..])
  }

  function Literal(s: string): string { "'" + Doubled(s) + "'" }

  function Literals(values: seq<string>): seq<string> {
    seq(|values|, i requires 0 <= i < |values| => Literal(values[i]))
  }

  /** Key and value literals in turn. */
  function Pairs(options: seq<(string, string)>): seq<string> {
    seq(|options|, i requires 0 <= i < |options| => Literal(options[i].0) + ", " + Literal(options[i].1))
  }

  function OptionMap(options: seq<(string, string)>): string { "map(" + Join(", ", Pairs(options)) + ")" }

  // ---------------------------------------------------------------- reading literals back

  /** The body of a literal after its opening quote, under the rule that two quotes stand for
      one (section 5.3 of ISO/IEC 9075-2): the value, and the text after the closing quote. */
  function ReadBody(text: string): (r: Option<(string, string)>)
    ensures r.Some? ==> |r.value.1| < |text|
  {
    if text == "" then None
    else if text[0] != '\'' then
      var rest := ReadBody(text[1..]);
      if rest.None? then None else Some(([text[0]] + rest.value.0, rest.value.1))
    else if |text| > 1 && text[1] == '\'' then
      var rest := ReadBody(text[2..]);
      if rest.None? then None else Some(("'" + rest.value.0, rest.value.1))
    else Some(("", text[1..]))
  }

  function ReadLiteral(text: string): (r: Option<(string, string)>)
    ensures r.Some? ==> |r.value.1| < |text|
  {
    if text != "" && text[0] == '\'' then ReadBody(text[1..]) else None
  }

  /** A list of literals up to a closing parenthesis: the values, and the text after it. */
  function ReadList(text: string): Option<(seq<string>, string)>
    decreases |text|
  {
    var first := ReadLiteral(text);
    if first.None? then None
    else
      var rest := first.value.1;
      if rest != "" && rest[0] == ')' then Some(([first.value.0], rest[1..]))
      else if |rest| < 2 || rest[..2] != ", " then None
      else
        var more := ReadList(rest[2..]);
        if more.None? then None else Some(([first.value.0] + more.value.0, more.value.1))
  }

  lemma {:induction false} BodyReadsBack(s: string, rest: string)
    requires rest == "" || rest[0] != '\''
    ensures ReadBody(Doubled(s) + "'" + rest) == Some((s, rest))
  {
    var text := Doubled(s) + "'" + rest;
    if s == "" {
      assert text == "'" + rest;
    } else {
      var tail := Doubled(s[1..]) + "'" + rest;
      BodyReadsBack(s[1..], rest);
      if s[0] == '\'' {
        assert text == "''" + tail;
        assert text[2..] == tail;
      } else {
        assert text == [s[0]] + tail;
        assert text[1..] == tail;
      }
      assert s == [s[0]] + s[1..];
    }
  }

  lemma LiteralReadsBack(s: string, rest: string)
    requires rest == "" || rest[0] != '\''
    ensures ReadLiteral(Literal(s) + rest) == Some((s, rest))
  {
    assert (Literal(s) + rest)[1..] == Doubled(s) + "'" + rest;
    BodyReadsBack(s, rest);
  }

  /** A rendered list of literals reads back to exactly the given values, whatever quotes,
      commas and parentheses they contain. */
  lemma {:induction false} ListReadsBack(values: seq<string>, rest: string)
    requires values != []
    ensures ReadList(Join(", ", Literals(values)) + ")" + rest) == Some((values, rest))
    decreases |values|
  {
    var text := Join(", ", Literals(values)) + ")" + rest;
    if |values| == 1 {
      assert text == Literal(values[0]) + (")" + rest);
      LiteralReadsBack(values[0], ")" + rest);
      assert (")" + rest)[1..] == rest;
      assert values == [values[0]];
    } else {
      assert Literals(values)[1..] == Literals(values[1..]);
      var more := Join(", ", Literals(values[1..])) + ")" + rest;
      assert text == Literal(values[0]) + (", " + more);
      LiteralReadsBack(values[0], ", " + more);
      assert (", " + more)[..2] == ", " && (", " + more)[2..] == more;
      ListReadsBack(values[1..], rest);
      assert values == [values[0]] + values[1..];
    }
  }
}
