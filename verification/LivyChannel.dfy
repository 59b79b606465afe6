/** How a Spark job's result travels to the worker: printed as one marked line of base64,
    fetched with the rest of the batch log page by page, and found by a scan from the end. */
module LivyChannel {
  import opened Common
  import opened Base64

  const MARKER := "ICEBERG_OPS_RESULT="

  /** The line `emit_result` prints for a serialized result. */
  function Emitted(payload: seq<Byte>): string { MARKER + Encode(false, payload) }

  // ---------------------------------------------------------------- str.find and str.strip

  predicate OccursAt(text: string, word: string, i: nat) { i + |word| <= |text| && text[i..i + |word|] == word }

  predicate Occurs(text: string, word: string) {
    exists i :: 0 <= i <= |text| && OccursAt(text, word, i)
  }

  /** The first position of the word, if there is one. */
  method Find(text: string, word: string) returns (at: Option<nat>)
    ensures at.None? <==> !Occurs(text, word)
    ensures at.Some? ==> OccursAt(text, word, at.value) && forall i: nat :: i < at.value ==> !OccursAt(text, word, i)
  {
    var i := 0;
    while i + |word| <= |text|
      invariant forall k: nat :: k < i ==> !OccursAt(text, word, k)
    {
      if text[i..i + |word|] == word {
        assert OccursAt(text, word, i);
        return Some(i);
      }
      i := i + 1;
    }
    at := None;
  }

  /** What `str.strip` takes off: the white space of Unicode, and four separators among the controls. */
  predicate IsSpace(c: char) {
    || '\t' <= c <= '\r' || '\U{1c}' <= c <= ' ' || c == '\U{85}' || c == '\U{a0}' || c == '\U{1680}'
    || '\U{2000}' <= c <= '\U{200a}' || c in {'\U{2028}', '\U{2029}', '\U{202f}', '\U{205f}', '\U{3000}'}
  }

  const SPACES := "\t\n\U{0b}\U{0c}\r\U{1c}\U{1d}\U{1e}\U{1f} \U{85}\U{a0}\U{1680}" +
    "\U{2000}\U{2001}\U{2002}\U{2003}\U{2004}\U{2005}\U{2006}\U{2007}\U{2008}\U{2009}\U{200a}" +
    "\U{2028}\U{2029}\U{202f}\U{205f}\U{3000}"

  lemma SpacesExactly(c: char)
    ensures IsSpace(c) <==> c in SPACES
  {
  }

  /** Nothing but white space. */
  predicate Blank(s: string) { forall i :: 0 <= i < |s| ==> s[i] in SPACES }

  lemma BlankIsSpace(s: string)
    ensures Blank(s) <==> forall i :: 0 <= i < |s| ==> IsSpace(s[i])
  {
    forall i | 0 <= i < |s|
      ensures IsSpace(s[i]) <==> s[i] in SPACES
    {
      SpacesExactly(s[i]);
    }
  }

  function StripLeft(s: string): string {
    if s != "" && IsSpace(s[0]) then StripLeft(s[1..]) else s
  }

  function StripRight(s: string): string {
    if s != "" && IsSpace(s[|s| - 1]) then StripRight(s[..|s| - 1]) else s
  }

  function Strip(s: string): string { StripRight(StripLeft(s)) }

  // ---------------------------------------------------------------- parsing the log

  /** What the JSON parser makes of the decoded bytes. */
  datatype Loaded<T> = Malformed | NotObject | Object(value: T)

  datatype Parsed<T> = Recovered(value: T) | InvalidMarker | NotAnObject | NoMarker

  function ParsePayload<T>(encoded: string, loads: seq<Byte> -> Loaded<T>): Parsed<T> {
    var raw := Decode(false, true, encoded);
    if raw.None? then InvalidMarker
    else
      match loads(raw.value)
      case Malformed => InvalidMarker
      case NotObject => NotAnObject
      case Object(v) => Recovered(v)
  }

  /** The last line that has the marker. */
  predicate LastMarked(lines: seq<string>, n: nat) {
    n < |lines| && Occurs(lines[n], MARKER) && forall k :: n < k < |lines| ==> !Occurs(lines[k], MARKER)
  }

  /** The scan from the end of the log: the last marked line decides, from its first marker on. */
  method ResultFromLogs<T>(lines: seq<string>, loads: seq<Byte> -> Loaded<T>) returns (r: Parsed<T>)
    ensures r == NoMarker <==> forall n :: 0 <= n < |lines| ==> !Occurs(lines[n], MARKER)
    ensures forall n: nat, i: nat :: LastMarked(lines, n) && FirstMarker(lines[n], i) ==>
      r == ParsePayload(Strip(lines[n][i + |MARKER|..]), loads)
  {
    var n := |lines|;
    while n > 0
      invariant 0 <= n <= |lines|
      invariant forall k :: n <= k < |lines| ==> !Occurs(lines[k], MARKER)
    {
      n := n - 1;
      var at := Find(lines[n], MARKER);
      if at.Some? {
        r := ParsePayload(Strip(lines[n][at.value + |MARKER|..]), loads);
        forall m: nat, i: nat | LastMarked(lines, m) && FirstMarker(lines[m], i)
          ensures m == n && i == at.value
        {
        }
        return;
      }
    }
    r := NoMarker;
  }

  ghost predicate FirstMarker(line: string, i: nat) {
    OccursAt(line, MARKER, i) && forall k: nat :: k < i ==> !OccursAt(line, MARKER, k)
  }

  // ---------------------------------------------------------------- paging through the log

  /** A log server answers a request for `size` lines from `offset` on, or fails. */
  type LogServer = (nat, nat) -> Option<seq<string>>

  function Slice(log: seq<string>, from: nat, size: nat): seq<string> {
    if from >= |log| then [] else if from + size >= |log| then log[from..] else log[from..from + size]
  }

  /** The server serves the given log. */
  ghost predicate Serves(server: LogServer, log: seq<string>) {
    forall from: nat, size: nat :: server(from, size) == Some(Slice(log, from, size))
  }

  function Min(a: nat, b: nat): nat { if a < b then a else b }

  function Head<T>(s: seq<T>, n: nat): seq<T> { if n < |s| then s[..n] else s }

  /** Pages of up to a thousand lines, until a short page or enough lines: exactly the first
      `maxLines` lines of the log, with no more requests than that takes. Any server whatever
      is asked finitely often and gives at most `maxLines` lines. */
  method Logs(server: LogServer, maxLines: nat, ghost log: seq<string>)
    returns (lines: Option<seq<string>>, requests: nat)
    ensures lines.Some? ==> |lines.value| <= maxLines
    ensures Serves(server, log) ==> lines == Some(Head(log, maxLines))
    ensures requests <= maxLines
    ensures Serves(server, log) && maxLines > 0 ==> requests <= |log| / Min(1000, maxLines) + 1
  {
    var acc: seq<string> := [];
    var offset := 0;
    var pageSize := Min(1000, maxLines);
    requests := 0;
    while |acc| < maxLines
      invariant offset == |acc| && requests <= |acc| && requests <= maxLines
      invariant Serves(server, log) ==> |acc| <= |log| && acc == log[..|acc|] && requests * pageSize == |acc|
      decreases maxLines - |acc|
    {
      ghost var before := |acc|;
      var page := server(offset, pageSize);
      requests := requests + 1;
      if page.None? {
        return None, requests;
      }
      acc := acc + page.value;
      if |page.value| < pageSize {
        if Serves(server, log) {
          assert page.value == Slice(log, offset, pageSize) == log[offset..];
          assert acc == log;
          FullPages(requests - 1, pageSize, before, |log|);
        }
        lines := Some(Head(acc, maxLines));
        return;
      }
      offset := offset + |page.value|;
      if Serves(server, log) {
        assert page.value == log[before..before + pageSize];
        assert requests * pageSize == (requests - 1) * pageSize + pageSize;
      }
    }
    if Serves(server, log) && maxLines > 0 {
      FullPages(requests, pageSize, |acc|, |log|);
    }
    if Serves(server, log) {
      assert Head(acc, maxLines) == Head(log, maxLines);
    }
    lines := Some(Head(acc, maxLines));
  }

  lemma FullPages(k: nat, size: nat, read: nat, total: nat)
    requires size > 0 && k * size == read <= total
    ensures k <= total / size
  {
    var q := total / size;
    assert total < (q + 1) * size;
    assert k >= q + 1 ==> k * size >= (q + 1) * size;
  }

  // ---------------------------------------------------------------- the whole trip

  /** The marker has no border: its last character occurs nowhere else in it. So it cannot
      straddle the end of a text that does not contain it. */
  lemma NoStraddling(prefix: string, tail: string, i: nat)
    requires !Occurs(prefix, MARKER) && i < |prefix|
    ensures !OccursAt(prefix + MARKER + tail, MARKER, i)
  {
    var text := prefix + MARKER + tail;
    var last := |MARKER| - 1;
    assert MARKER[last] == '=' && forall k :: 0 <= k < last ==> MARKER[k] != '=';
    if i + |MARKER| <= |prefix| {
      assert text[i..i + |MARKER|] == prefix[i..i + |MARKER|];
      assert !OccursAt(prefix, MARKER, i);
    } else {
      var p := i + last - |prefix|;
      assert text[i + last] == MARKER[p] && p < last;
      assert text[i..i + |MARKER|][last] == text[i + last];
    }
  }

  /** The first marker in a result line comes right after a prefix exactly when the prefix has
      no marker in it. */
  lemma FirstMarkerExactly(prefix: string, tail: string)
    ensures FirstMarker(prefix + MARKER + tail, |prefix|) <==> !Occurs(prefix, MARKER)
  {
    var text := prefix + MARKER + tail;
    assert text[|prefix|..|prefix| + |MARKER|] == MARKER;
    if Occurs(prefix, MARKER) {
      var i: nat :| i <= |prefix| && OccursAt(prefix, MARKER, i);
      assert text[i..i + |MARKER|] == prefix[i..i + |MARKER|];
      assert OccursAt(text, MARKER, i) && i < |prefix|;
    } else {
      forall i: nat | i < |prefix|
        ensures !OccursAt(text, MARKER, i)
      {
        NoStraddling(prefix, tail, i);
      }
    }
  }

  lemma {:induction false} StripKeeps(core: string, trail: string)
    requires core == "" || (!IsSpace(core[0]) && !IsSpace(core[|core| - 1]))
    requires forall i :: 0 <= i < |trail| ==> IsSpace(trail[i])
    ensures core != "" ==> Strip(core + trail) == core
    ensures StripRight(core + trail) == core
    decreases |trail|
  {
    var s := core + trail;
    if trail == "" {
      assert s == core;
    } else {
      assert s[..|s| - 1] == core + trail[..|trail| - 1];
      StripKeeps(core, trail[..|trail| - 1]);
    }
  }

  lemma {:induction false} StripLeftOnly(lead: string, s: string)
    requires Blank(lead) && s != "" && !IsSpace(s[0])
    ensures StripLeft(lead + s) == s
  {
    if lead == "" {
      assert lead + s == s;
    } else {
      SpacesExactly(lead[0]);
      assert (lead + s)[1..] == lead[1..] + s;
      StripLeftOnly(lead[1..], s);
    }
  }

  /** White space is stripped from both ends, and only from there. */
  lemma StripBothEnds(lead: string, core: string, trail: string)
    requires Blank(lead) && Blank(trail) && core != ""
    requires core[0] !in SPACES && core[|core| - 1] !in SPACES
    ensures Strip(lead + core + trail) == core
  {
    SpacesExactly(core[0]);
    SpacesExactly(core[|core| - 1]);
    BlankIsSpace(trail);
    assert lead + core + trail == lead + (core + trail);
    StripLeftOnly(lead, core + trail);
    StripKeeps(core, trail);
  }

  lemma EncodedHasNoSpace(payload: seq<Byte>)
    ensures forall i :: 0 <= i < |Encode(false, payload)| ==> !IsSpace(Encode(false, payload)[i])
  {
    EncodedAlphabet(false, payload);
  }

  /** A line as it shows up in the batch log: something the driver put before it, the emitted
      line, and trailing white space. */
  function LogLine(prefix: string, payload: seq<Byte>, trail: string): string { prefix + Emitted(payload) + trail }

  lemma PayloadOfLine(prefix: string, payload: seq<Byte>, trail: string)
    requires payload != [] && Blank(trail)
    ensures Strip(LogLine(prefix, payload, trail)[|prefix| + |MARKER|..]) == Encode(false, payload)
    ensures LogLine(prefix, payload, trail) == prefix + MARKER + (Encode(false, payload) + trail)
  {
    var core := Encode(false, payload);
    assert LogLine(prefix, payload, trail)[|prefix| + |MARKER|..] == core + trail;
    EncodedHasNoSpace(payload);
    BlankIsSpace(trail);
    assert core != "";
    StripKeeps(core, trail);
  }

  lemma {:induction false} StripLeftKeeps(s: string, c: char)
    requires c in s && !IsSpace(c)
    ensures c in StripLeft(s)
  {
    if IsSpace(s[0]) {
      assert s == [s[0]] + s[1..];
      StripLeftKeeps(s[1..], c);
    }
  }

  lemma {:induction false} StripRightKeeps(s: string, c: char)
    requires c in s && !IsSpace(c)
    ensures c in StripRight(s)
  {
    if IsSpace(s[|s| - 1]) {
      assert s == s[..|s| - 1] + [s[|s| - 1]];
      StripRightKeeps(s[..|s| - 1], c);
    }
  }

  /** A word that occurs has a first occurrence. */
  lemma {:induction false} FirstOccurrence(text: string, i: nat) returns (first: nat)
    requires OccursAt(text, MARKER, i)
    ensures first <= i && FirstMarker(text, first)
  {
    first := 0;
    while !OccursAt(text, MARKER, first)
      invariant first <= i && forall k: nat :: k < first ==> !OccursAt(text, MARKER, k)
      decreases i - first
    {
      first := first + 1;
    }
  }

  /** If the text before the result has a marker of its own, the scan starts there, and the
      underscores of the real marker are no base64. */
  lemma EarlierMarkerFatal<T>(prefix: string, tail: string, loads: seq<Byte> -> Loaded<T>) returns (i: nat)
    requires Occurs(prefix, MARKER)
    ensures FirstMarker(prefix + MARKER + tail, i)
    ensures ParsePayload(Strip((prefix + MARKER + tail)[i + |MARKER|..]), loads) == InvalidMarker
  {
    var text := prefix + MARKER + tail;
    var j: nat :| j <= |prefix| && OccursAt(prefix, MARKER, j);
    assert text[j..j + |MARKER|] == prefix[j..j + |MARKER|];
    i := FirstOccurrence(text, j);
    var rest := text[i + |MARKER|..];
    assert MARKER[7] == '_';
    assert rest[|prefix| + 7 - i - |MARKER|] == text[|prefix| + 7] == '_';
    UnderscoreIsInvalid(rest, loads);
  }

  lemma UnderscoreIsInvalid<T>(rest: string, loads: seq<Byte> -> Loaded<T>)
    requires '_' in rest
    ensures ParsePayload(Strip(rest), loads) == InvalidMarker
  {
    StripLeftKeeps(rest, '_');
    StripRightKeeps(StripLeft(rest), '_');
    var k :| 0 <= k < |Strip(rest)| && Strip(rest)[k] == '_';
    ForeignCharacterFatal(false, Strip(rest), 0, 0, 0, false, k);
  }

  function ParseLoaded<T>(l: Loaded<T>): Parsed<T> {
    match l
    case Malformed => InvalidMarker
    case NotObject => NotAnObject
    case Object(v) => Recovered(v)
  }

  lemma LineIsMarked(prefix: string, tail: string)
    ensures Occurs(prefix + MARKER + tail, MARKER)
  {
    assert (prefix + MARKER + tail)[|prefix|..|prefix| + |MARKER|] == MARKER;
    assert OccursAt(prefix + MARKER + tail, MARKER, |prefix|);
  }

  /** The n-th line of the log is a result line, among the lines that are fetched and the last marked one of them. */
  predicate ResultLine(
    log: seq<string>, maxLines: nat, n: nat, prefix: string, payload: seq<Byte>, trail: string)
  {
    && n < |log| && n < maxLines && log[n] == LogLine(prefix, payload, trail) && payload != []
    && Blank(trail)
    && (forall k :: n < k < |log| && k < maxLines ==> !Occurs(log[k], MARKER))
  }

  /** What the scan makes of such a line: the result, unless the text before it has a marker of its own. */
  lemma ResultLineParses<T>(
    lines: seq<string>, n: nat, prefix: string, payload: seq<Byte>, trail: string, loads: seq<Byte> -> Loaded<T>)
    returns (i: nat)
    requires ResultLine(lines, |lines|, n, prefix, payload, trail)
    ensures LastMarked(lines, n) && FirstMarker(lines[n], i)
    ensures ParsePayload(Strip(lines[n][i + |MARKER|..]), loads) ==
      if Occurs(prefix, MARKER) then InvalidMarker else ParseLoaded(loads(payload))
  {
    PayloadOfLine(prefix, payload, trail);
    LineIsMarked(prefix, Encode(false, payload) + trail);
    if Occurs(prefix, MARKER) {
      i := EarlierMarkerFatal(prefix, Encode(false, payload) + trail, loads);
    } else {
      i := |prefix|;
      FirstMarkerExactly(prefix, Encode(false, payload) + trail);
      RoundTrip(false, true, payload);
    }
  }

  /** The emitted object comes back: for every log in which the result line is the last marked
      line among those fetched, the worker recovers the result if the text before the marker
      has no marker in it, and otherwise finds the line invalid. */
  method Recover<T>(
    server: LogServer, maxLines: nat, ghost log: seq<string>, ghost n: nat, ghost prefix: string,
    ghost payload: seq<Byte>, ghost trail: string, loads: seq<Byte> -> Loaded<T>)
    returns (r: Parsed<T>)
    requires Serves(server, log) && ResultLine(log, maxLines, n, prefix, payload, trail)
    ensures !Occurs(prefix, MARKER) ==> r == ParseLoaded(loads(payload))
    ensures Occurs(prefix, MARKER) ==> r == InvalidMarker
  {
    var lines, _ := Logs(server, maxLines, log);
    assert ResultLine(lines.value, |lines.value|, n, prefix, payload, trail);
    r := ResultFromLogs(lines.value, loads);
    ghost var i := ResultLineParses(lines.value, n, prefix, payload, trail, loads);
    assert FirstMarker(lines.value[n], i);
  }
}
