/** Reading a compiled procedure call: a small reader for such calls that knows nothing of the compilers, and the proof
    that it reads back whatever is written in their manner. */
module SqlReading {
  import opened Common
  import opened Decimals
  import opened SqlText
  import opened SqlGate

  // ---------------------------------------------------------------- the reader

  /** A value of an argument: a quoted text, a quoted timestamp, a word or number, or a list such as `array(..)`. */
  datatype Value =
    | Text(text: string) | Timestamp(text: string) | Word(word: string) | Listed(of: string, items: seq<string>)

  datatype Argument = Argument(name: string, value: Value)

  datatype Procedure = Procedure(catalog: string, name: string, arguments: seq<Argument>)

  /** The letters, digits and underscores at the beginning, and the rest. */
  function ReadWord(text: string): (r: (string, string))
    ensures |r.1| <= |text|
  {
    if text == "" || !IsWordChar(text[0]) then ("", text)
    else
      var rest := ReadWord(text[1..]);
      ([text[0]] + rest.0, rest.1)
  }

  /** What follows the given text, if that is how it begins. */
  function After(text: string, expected: string): (r: Option<string>)
    ensures r.Some? ==> |r.value| + |expected| == |text|
  {
    if |expected| <= |text| && text[..|expected|] == expected then Some(text[|expected|..]) else None
  }

  function ReadValue(text: string): Option<(Value, string)> {
    var literal := ReadLiteral(text);
    var (word, rest) := ReadWord(text);
    if literal.Some? then Some((Text(literal.value.0), literal.value.1))
    else if word == "" then None
    else if After(rest, "(").Some? then
      var items := ReadList(After(rest, "(").value);
      if items.None? then None else Some((Listed(word, items.value.0), items.value.1))
    else if word == "TIMESTAMP" && After(rest, " ").Some? then
      var stamp := ReadLiteral(After(rest, " ").value);
      if stamp.None? then None else Some((Timestamp(stamp.value.0), stamp.value.1))
    else Some((Word(word), rest))
  }

  function ReadArgument(text: string): (r: Option<(Argument, string)>) {
    var (name, rest) := ReadWord(text);
    var body := After(rest, " => ");
    if body.None? then None
    else
      var value := ReadValue(body.value);
      if value.None? then None else Some((Argument(name, value.value.0), value.value.1))
  }

  /** Named arguments up to the closing parenthesis, which ends the text. */
  function ReadArguments(text: string): Option<seq<Argument>>
    decreases |text|
  {
    var first := ReadArgument(text);
    if first.None? then None
    else if first.value.1 == ")" then Some([first.value.0])
    else
      var next := After(first.value.1, ", ");
      if next.None? || |next.value| >= |text| then None
      else
        var more := ReadArguments(next.value);
        if more.None? then None else Some([first.value.0] + more.value)
  }

  function ReadCall(text: string): Option<Procedure> {
    var start := After(text, "CALL ");
    if start.None? then None
    else
      var (catalog, rest) := ReadWord(start.value);
      var system := After(rest, ".system.");
      if system.None? then None
      else
        var (name, open) := ReadWord(system.value);
        var inner := After(open, "(");
        if inner.None? then None
        else
          var arguments := ReadArguments(inner.value);
          if arguments.None? then None else Some(Procedure(catalog, name, arguments.value))
  }

  // ---------------------------------------------------------------- what is written is read

  function WriteValue(v: Value): string {
    match v
    case Text(text) => Literal(text)
    case Timestamp(text) => "TIMESTAMP " + Literal(text)
    case Word(word) => word
    case Listed(of, items) => of + "(" + Join(", ", Literals(items)) + ")"
  }

  function WriteArgument(a: Argument): string { a.name + (" => " + WriteValue(a.value)) }

  function WriteArguments(arguments: seq<Argument>): string
    requires arguments != []
  {
    if |arguments| == 1 then WriteArgument(arguments[0]) + ")"
    else WriteArgument(arguments[0]) + (", " + WriteArguments(arguments[1..]))
  }

  function WriteCall(p: Procedure): string
    requires p.arguments != []
  {
    "CALL " + (p.catalog + (".system." + (p.name + ("(" + WriteArguments(p.arguments)))))
  }

  predicate IsWord(s: string) { forall i :: 0 <= i < |s| ==> IsWordChar(s[i]) }

  predicate ValueOk(v: Value) {
    match v
    case Text(_) => true
    case Timestamp(_) => true
    case Word(word) => IsWord(word) && word != ""
    case Listed(of, items) => IsWord(of) && of != "" && items != []
  }

  predicate ArgumentsOk(arguments: seq<Argument>) {
    arguments != [] && forall i :: 0 <= i < |arguments| ==> IsWord(arguments[i].name) && ValueOk(arguments[i].value)
  }

  lemma {:induction false} WordReadsBack(word: string, rest: string)
    requires IsWord(word) && (rest == "" || !IsWordChar(rest[0]))
    ensures ReadWord(word + rest) == (word, rest)
  {
    if word == "" {
      assert word + rest == rest;
    } else {
      WordReadsBack(word[1..], rest);
      assert (word + rest)[1..] == word[1..] + rest;
      assert word == [word[0]] + word[1..];
    }
  }

  lemma AfterReadsBack(expected: string, rest: string)
    ensures After(expected + rest, expected) == Some(rest)
  {
  }

  /** What can follow a value. */
  predicate Ends(rest: string) { rest != "" && rest[0] in {',', ')'} }

  lemma NoLiteral(text: string)
    requires text != "" && IsWordChar(text[0])
    ensures ReadLiteral(text).None?
  {
  }

  lemma TextReadsBack(text: string, rest: string)
    requires Ends(rest)
    ensures ReadValue(Literal(text) + rest) == Some((Text(text), rest))
  {
    LiteralReadsBack(text, rest);
  }

  lemma TimestampReadsBack(text: string, rest: string)
    requires Ends(rest)
    ensures ReadValue("TIMESTAMP " + Literal(text) + rest) == Some((Timestamp(text), rest))
  {
    var tail := " " + (Literal(text) + rest);
    assert "TIMESTAMP " + Literal(text) + rest == "TIMESTAMP" + tail;
    NoLiteral("TIMESTAMP" + tail);
    WordReadsBack("TIMESTAMP", tail);
    LiteralReadsBack(text, rest);
    AfterReadsBack(" ", Literal(text) + rest);
  }

  lemma PlainWordReadsBack(word: string, rest: string)
    requires Ends(rest) && IsWord(word) && word != ""
    ensures ReadValue(word + rest) == Some((Word(word), rest))
  {
    NoLiteral(word + rest);
    WordReadsBack(word, rest);
  }

  lemma ListedReadsBack(of: string, items: seq<string>, rest: string)
    requires Ends(rest) && IsWord(of) && of != "" && items != []
    ensures ReadValue(of + "(" + Join(", ", Literals(items)) + ")" + rest) == Some((Listed(of, items), rest))
  {
    var inner := Join(", ", Literals(items)) + ")" + rest;
    assert of + "(" + Join(", ", Literals(items)) + ")" + rest == of + ("(" + inner);
    NoLiteral(of + ("(" + inner));
    WordReadsBack(of, "(" + inner);
    ListReadsBack(items, rest);
    AfterReadsBack("(", inner);
  }

  lemma ValueReadsBack(v: Value, rest: string)
    requires ValueOk(v) && Ends(rest)
    ensures ReadValue(WriteValue(v) + rest) == Some((v, rest))
  {
    match v {
      case Text(text) => TextReadsBack(text, rest);
      case Timestamp(text) => TimestampReadsBack(text, rest);
      case Word(word) => PlainWordReadsBack(word, rest);
      case Listed(of, items) => ListedReadsBack(of, items, rest);
    }
  }

  lemma ArgumentReadsBack(a: Argument, rest: string)
    requires IsWord(a.name) && ValueOk(a.value) && Ends(rest)
    ensures ReadArgument(WriteArgument(a) + rest) == Some((a, rest))
  {
    var body := WriteValue(a.value) + rest;
    assert WriteArgument(a) + rest == a.name + (" => " + body);
    WordReadsBack(a.name, " => " + body);
    AfterReadsBack(" => ", body);
    ValueReadsBack(a.value, rest);
  }

  lemma {:induction false} ArgumentsReadBack(arguments: seq<Argument>)
    requires ArgumentsOk(arguments)
    ensures ReadArguments(WriteArguments(arguments)) == Some(arguments)
    decreases |arguments|
  {
    if |arguments| == 1 {
      ArgumentReadsBack(arguments[0], ")");
      assert arguments == [arguments[0]];
    } else {
      var more := WriteArguments(arguments[1..]);
      ArgumentReadsBack(arguments[0], ", " + more);
      AfterReadsBack(", ", more);
      ArgumentsReadBack(arguments[1..]);
      assert arguments == [arguments[0]] + arguments[1..];
    }
  }

  /** Every call that is put together like this is read back as it was meant. */
  lemma CallReadsBack(p: Procedure)
    requires IsWord(p.catalog) && IsWord(p.name) && ArgumentsOk(p.arguments)
    ensures ReadCall(WriteCall(p)) == Some(p)
  {
    var inner := WriteArguments(p.arguments);
    var name := p.name + ("(" + inner);
    var rest := ".system." + name;
    AfterReadsBack("CALL ", p.catalog + rest);
    WordReadsBack(p.catalog, rest);
    AfterReadsBack(".system.", name);
    WordReadsBack(p.name, "(" + inner);
    AfterReadsBack("(", inner);
    ArgumentsReadBack(p.arguments);
  }
}
