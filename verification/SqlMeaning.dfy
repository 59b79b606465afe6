/** What the compiled statements ask for: each is read back by `SqlReading`, and what is found there is said in terms of
    the request alone, command by command. */
module SqlMeaning {
  import opened Common
  import opened Decimals
  import opened SqlText
  import opened SqlGate
  import opened SqlReading

  // ---------------------------------------------------------------- putting calls together

  function TableArgument(namespaceName: string, table: string): Argument {
    Argument("table", Text(namespaceName + "." + table))
  }

  function MoreArguments(more: seq<Argument>): string { if more == [] then ")" else ", " + WriteArguments(more) }

  lemma Regrouped(a: string, b: string, c: string, d: string, e: string)
    ensures a + (b + (c + (d + e))) == a + b + c + d + e
  {
    assert c + (d + e) == c + d + e;
    assert b + (c + d + e) == b + c + d + e;
  }

  /** A call on a table, and what other arguments it has. */
  lemma CallWritten(catalog: string, name: string, namespaceName: string, table: string, more: seq<Argument>)
    ensures WriteCall(Procedure(catalog, name, [TableArgument(namespaceName, table)] + more)) ==
      "CALL " + catalog + (".system." + name + "(table => ") + Literal(namespaceName + "." + table) +
      MoreArguments(more)
  {
    var all := [TableArgument(namespaceName, table)] + more;
    assert all[1..] == more;
    var literal, rest := Literal(namespaceName + "." + table), MoreArguments(more);
    assert WriteArguments(all) == "table" + (" => " + literal) + rest;
    Shuffled(catalog, ".system.", name, "(", "table", " => ", literal, rest);
    assert "(table => " == "(" + "table" + " => ";
  }

  lemma Shuffled(
    catalog: string, system: string, name: string, open: string, first: string, arrow: string, literal: string,
    rest: string)
    ensures "CALL " + (catalog + (system + (name + (open + (first + (arrow + literal) + rest))))) ==
      "CALL " + catalog + (system + name + (open + first + arrow)) + literal + rest
  {
    var tail := literal + rest;
    assert first + (arrow + literal) + rest == first + (arrow + tail);
    Regrouped(system, name, open, first, arrow + tail);
    assert system + name + open + first + (arrow + tail) == system + name + (open + first + arrow) + tail;
    Regrouped("CALL ", catalog, system + name + (open + first + arrow), literal, rest);
  }

  /** One more argument. */
  lemma ArgumentWritten(name: string, value: Value, rest: seq<Argument>)
    ensures MoreArguments([Argument(name, value)] + rest) ==
      (", " + name + " => ") + WriteValue(value) + MoreArguments(rest)
  {
    var all := [Argument(name, value)] + rest;
    assert all[1..] == rest;
    Regrouped(", ", name, " => ", WriteValue(value), MoreArguments(rest));
    assert WriteArguments(all) == name + (" => " + WriteValue(value)) + MoreArguments(rest);
    assert name + (" => " + WriteValue(value)) + MoreArguments(rest) ==
      name + (" => " + (WriteValue(value) + MoreArguments(rest)));
  }

  /** The text is such a call, so that is how it is read. */
  lemma CallRead(
    catalog: string, name: string, namespaceName: string, table: string, more: seq<Argument>, head: string,
    tail: string)
    requires IsIdentifier(catalog) && IsWord(name) && (more != [] ==> ArgumentsOk(more))
    requires head == ".system." + name + "(table => " && tail == MoreArguments(more)
    ensures ReadCall("CALL " + catalog + head + Literal(namespaceName + "." + table) + tail) ==
      Some(Procedure(catalog, name, [TableArgument(namespaceName, table)] + more))
  {
    CallWritten(catalog, name, namespaceName, table, more);
    CallReadsBack(Procedure(catalog, name, [TableArgument(namespaceName, table)] + more));
  }

  /** The same with one more argument. */
  lemma CallWithOneRead(
    catalog: string, name: string, namespaceName: string, table: string, argument: string, value: Value, head: string,
    arrow: string)
    requires IsIdentifier(catalog) && IsWord(name) && IsWord(argument) && ValueOk(value)
    requires head == ".system." + name + "(table => " && arrow == ", " + argument + " => "
    ensures ReadCall(
        "CALL " + catalog + head + Literal(namespaceName + "." + table) + arrow + WriteValue(value) + ")") ==
      Some(Procedure(catalog, name, [TableArgument(namespaceName, table), Argument(argument, value)]))
  {
    ArgumentWritten(argument, value, []);
    var more := [Argument(argument, value)];
    assert more + [] == more;
    CallRead(catalog, name, namespaceName, table, more, head, arrow + WriteValue(value) + ")");
    var start := "CALL " + catalog + head + Literal(namespaceName + "." + table);
    Joined(start, arrow, WriteValue(value), ")");
    assert [TableArgument(namespaceName, table)] + more ==
      [TableArgument(namespaceName, table), Argument(argument, value)];
  }

  /** The same with three more. */
  lemma CallWithThreeRead(
    catalog: string, name: string, namespaceName: string, table: string, a: Argument, b: Argument, c: Argument,
    head: string, arrowA: string, arrowB: string, arrowC: string)
    requires IsIdentifier(catalog) && IsWord(name) && ArgumentsOk([a, b, c])
    requires head == ".system." + name + "(table => "
    requires arrowA == ", " + a.name + " => " && arrowB == ", " + b.name + " => " && arrowC == ", " + c.name + " => "
    ensures ReadCall(
        "CALL " + catalog + head + Literal(namespaceName + "." + table) + arrowA + WriteValue(a.value) +
        arrowB + WriteValue(b.value) + arrowC + WriteValue(c.value) + ")") ==
      Some(Procedure(catalog, name, [TableArgument(namespaceName, table), a, b, c]))
  {
    ArgumentWritten(c.name, c.value, []);
    ArgumentWritten(b.name, b.value, [c]);
    ArgumentWritten(a.name, a.value, [b, c]);
    assert [c] + [] == [c] && [b] + [c] == [b, c] && [a] + [b, c] == [a, b, c];
    CallRead(catalog, name, namespaceName, table, [a, b, c], head, MoreArguments([a, b, c]));
    var start := "CALL " + catalog + head + Literal(namespaceName + "." + table);
    JoinedThrice(start, arrowA, WriteValue(a.value), arrowB, WriteValue(b.value), arrowC, WriteValue(c.value), ")");
    assert [TableArgument(namespaceName, table)] + [a, b, c] == [TableArgument(namespaceName, table), a, b, c];
  }

  lemma JoinedThrice(a: string, b: string, c: string, d: string, e: string, f: string, g: string, h: string)
    ensures a + b + c + d + e + f + g + h == a + (b + c + (d + e + (f + g + h)))
  {
    Joined(a + b + c + d + e, f, g, h);
    Joined(a + b + c, d, e, f + g + h);
    Joined(a, b, c, d + e + (f + g + h));
  }

  lemma Joined(a: string, b: string, c: string, d: string)
    ensures a + b + c + d == a + (b + c + d)
  {
  }

  // ---------------------------------------------------------------- the commands

  lemma ManifestsWords()
    ensures ".system.rewrite_manifests(table => " == ".system." + "rewrite_manifests" + "(table => "
    ensures ", use_caching => " == ", " + "use_caching" + " => "
    ensures IsWord("rewrite_manifests") && IsWord("use_caching")
  {
  }

  lemma ManifestsText(catalog: string, namespaceName: string, table: string, p: Parameters, stamp: nat -> string)
    requires Statement(catalog, namespaceName, table, RewriteManifests, p, stamp).Some?
    ensures var caching := "useCaching" in p && p["useCaching"] == JBool(true);
      Statement(catalog, namespaceName, table, RewriteManifests, p, stamp).value ==
        "CALL " + catalog + ".system.rewrite_manifests(table => " + Literal(namespaceName + "." + table) +
        ", use_caching => " + (if caching then "true" else "false") + ")"
    ensures IsIdentifier(catalog)
  {
  }

  /** Caching is used exactly if the request says so. */
  lemma ManifestsRead(catalog: string, namespaceName: string, table: string, p: Parameters, stamp: nat -> string)
    requires Statement(catalog, namespaceName, table, RewriteManifests, p, stamp).Some?
    ensures var caching := "useCaching" in p && p["useCaching"] == JBool(true);
      ReadCall(Statement(catalog, namespaceName, table, RewriteManifests, p, stamp).value) ==
        Some(Procedure(catalog, "rewrite_manifests", [
          TableArgument(namespaceName, table), Argument("use_caching", Word(if caching then "true" else "false"))]))
  {
    var caching := "useCaching" in p && p["useCaching"] == JBool(true);
    ManifestsWords();
    ManifestsText(catalog, namespaceName, table, p, stamp);
    CallWithOneRead(catalog, "rewrite_manifests", namespaceName, table, "use_caching",
      Word(if caching then "true" else "false"), ".system.rewrite_manifests(table => ", ", use_caching => ");
  }

  lemma RegroupedTwice(a: string, b: string, b1: string, b2: string, c: string)
    requires b == b1 + b2
    ensures a + b + c == a + b1 + (b2 + c)
  {
  }

  /** What an expiry and a removal of orphans have in common: a point in time, an argument, and streamed results. */
  lemma AgedCallRead(
    catalog: string, name: string, namespaceName: string, table: string, time: string, argument: string, word: string,
    head: string, arrow: string)
    requires IsIdentifier(catalog) && IsWord(name) && IsWord(argument) && IsWord(word) && word != ""
    requires head == ".system." + name + "(table => " && arrow == ", " + argument + " => "
    ensures ReadCall("CALL " + catalog + head + Literal(namespaceName + "." + table) + ", older_than => TIMESTAMP " +
                     Literal(time) + arrow + word + ", stream_results => true)") ==
      Some(Procedure(catalog, name, [
        TableArgument(namespaceName, table), Argument("older_than", Timestamp(time)), Argument(argument, Word(word)),
        Argument("stream_results", Word("true"))]))
  {
    var a, b, c := Argument("older_than", Timestamp(time)), Argument(argument, Word(word)),
      Argument("stream_results", Word("true"));
    AgedWords();
    StreamedWords();
    CallWithThreeRead(catalog, name, namespaceName, table, a, b, c, head, ", older_than => ", arrow,
                      ", stream_results => ");
    var start := "CALL " + catalog + head + Literal(namespaceName + "." + table);
    RegroupedTwice(start, ", older_than => TIMESTAMP ", ", older_than => ", "TIMESTAMP ", Literal(time));
    Joined(start + ", older_than => " + ("TIMESTAMP " + Literal(time)) + arrow + word, ", stream_results => ", "true",
           ")");
  }

  lemma AgedWords()
    ensures ", older_than => TIMESTAMP " == ", older_than => " + "TIMESTAMP "
    ensures ", older_than => " == ", " + "older_than" + " => "
    ensures IsWord("older_than")
  {
  }

  lemma StreamedWords()
    ensures ", stream_results => " == ", " + "stream_results" + " => "
    ensures ", stream_results => true)" == ", stream_results => " + "true" + ")"
    ensures IsWord("stream_results") && IsWord("true")
  {
  }

  lemma DigitsAreWords(n: nat)
    ensures IsWord(Show(n)) && Show(n) != ""
  {
    ReadShow(n);
  }

  lemma ExpiryWords()
    ensures ".system.expire_snapshots(table => " == ".system." + "expire_snapshots" + "(table => "
    ensures ", retain_last => " == ", " + "retain_last" + " => "
    ensures IsWord("expire_snapshots") && IsWord("retain_last")
  {
  }

  lemma ExpiryText(catalog: string, namespaceName: string, table: string, p: Parameters, stamp: nat -> string)
    returns (hours: nat, retain: nat)
    requires Statement(catalog, namespaceName, table, ExpireSnapshots, p, stamp).Some?
    ensures IsIdentifier(catalog) && 120 <= hours <= 87_600 && 1 <= retain <= 10_000
    ensures if "olderThanHours" in p then p["olderThanHours"] == JInt(hours) else hours == 168
    ensures if "retainLast" in p then p["retainLast"] == JInt(retain) else retain == 1
    ensures Statement(catalog, namespaceName, table, ExpireSnapshots, p, stamp).value ==
      "CALL " + catalog + ".system.expire_snapshots(table => " + Literal(namespaceName + "." + table) +
      ", older_than => TIMESTAMP " + Literal(stamp(hours)) + ", retain_last => " + Show(retain) +
      ", stream_results => true)"
  {
    hours := GetOr(p, "olderThanHours", JInt(168)).n;
    retain := GetOr(p, "retainLast", JInt(1)).n;
  }

  /** Snapshots expire by the age asked for, or else after a week; as many are kept as asked for, or else one. */
  lemma ExpiryRead(catalog: string, namespaceName: string, table: string, p: Parameters, stamp: nat -> string)
    returns (hours: nat, retain: string)
    requires Statement(catalog, namespaceName, table, ExpireSnapshots, p, stamp).Some?
    ensures ReadCall(Statement(catalog, namespaceName, table, ExpireSnapshots, p, stamp).value) ==
      Some(Procedure(catalog, "expire_snapshots", [
        TableArgument(namespaceName, table), Argument("older_than", Timestamp(stamp(hours))),
        Argument("retain_last", Word(retain)), Argument("stream_results", Word("true"))]))
    ensures 120 <= hours <= 87_600
    ensures if "olderThanHours" in p then p["olderThanHours"] == JInt(hours) else hours == 168
    ensures AllDigits(retain) && 1 <= Read(retain) <= 10_000
    ensures if "retainLast" in p then p["retainLast"] == JInt(Read(retain)) else Read(retain) == 1
  {
    var n: nat;
    hours, n := ExpiryText(catalog, namespaceName, table, p, stamp);
    retain := Show(n);
    ReadShow(n);
    DigitsAreWords(n);
    ExpiryWords();
    AgedCallRead(catalog, "expire_snapshots", namespaceName, table, stamp(hours), "retain_last", retain,
      ".system.expire_snapshots(table => ", ", retain_last => ");
  }

  lemma OrphansWords()
    ensures ".system.remove_orphan_files(table => " == ".system." + "remove_orphan_files" + "(table => "
    ensures ", dry_run => " == ", " + "dry_run" + " => "
    ensures IsWord("remove_orphan_files") && IsWord("dry_run") && IsWord("true") && IsWord("false")
  {
  }

  lemma OrphansText(catalog: string, namespaceName: string, table: string, p: Parameters, stamp: nat -> string)
    returns (hours: nat)
    requires Statement(catalog, namespaceName, table, RemoveOrphanFiles, p, stamp).Some?
    ensures IsIdentifier(catalog) && 72 <= hours <= 87_600
    ensures if "olderThanHours" in p then p["olderThanHours"] == JInt(hours) else hours == 72
    ensures var deletes := "dryRun" in p && p["dryRun"] == JBool(false);
      Statement(catalog, namespaceName, table, RemoveOrphanFiles, p, stamp).value ==
        "CALL " + catalog + ".system.remove_orphan_files(table => " + Literal(namespaceName + "." + table) +
        ", older_than => TIMESTAMP " + Literal(stamp(hours)) + ", dry_run => " + (if deletes then "false" else "true") +
        ", stream_results => true)"
  {
    hours := GetOr(p, "olderThanHours", JInt(72)).n;
  }

  /** Orphans are deleted exactly if the request says that it is no dry run; otherwise they are only listed. Their age
      is the one asked for, or else three days. */
  lemma OrphansRead(catalog: string, namespaceName: string, table: string, p: Parameters, stamp: nat -> string)
    returns (hours: nat)
    requires Statement(catalog, namespaceName, table, RemoveOrphanFiles, p, stamp).Some?
    ensures var deletes := "dryRun" in p && p["dryRun"] == JBool(false);
      ReadCall(Statement(catalog, namespaceName, table, RemoveOrphanFiles, p, stamp).value) ==
        Some(Procedure(catalog, "remove_orphan_files", [
          TableArgument(namespaceName, table), Argument("older_than", Timestamp(stamp(hours))),
          Argument("dry_run", Word(if deletes then "false" else "true")), Argument("stream_results", Word("true"))]))
    ensures 72 <= hours <= 87_600
    ensures if "olderThanHours" in p then p["olderThanHours"] == JInt(hours) else hours == 72
  {
    hours := OrphansText(catalog, namespaceName, table, p, stamp);
    var deletes := "dryRun" in p && p["dryRun"] == JBool(false);
    OrphansWords();
    AgedCallRead(catalog, "remove_orphan_files", namespaceName, table, stamp(hours), "dry_run",
      if deletes then "false" else "true", ".system.remove_orphan_files(table => ", ", dry_run => ");
  }

  lemma RollbackHead()
    ensures ".system.rollback_to_snapshot(table => " == ".system." + "rollback_to_snapshot" + "(table => "
  {
  }

  lemma RollbackWords()
    ensures ", snapshot_id => " == ", " + "snapshot_id" + " => "
    ensures IsWord("rollback_to_snapshot") && IsWord("snapshot_id")
  {
  }

  lemma RollbackText(catalog: string, namespaceName: string, table: string, p: Parameters, stamp: nat -> string)
    returns (snapshot: nat)
    requires Statement(catalog, namespaceName, table, Rollback, p, stamp).Some?
    ensures IsIdentifier(catalog) && 1 <= snapshot <= 9_223_372_036_854_775_807
    ensures "snapshotId" in p && p["snapshotId"] == JInt(snapshot)
    ensures Statement(catalog, namespaceName, table, Rollback, p, stamp).value ==
      "CALL " + catalog + ".system.rollback_to_snapshot(table => " + Literal(namespaceName + "." + table) +
      ", snapshot_id => " + Show(snapshot) + ")"
  {
    snapshot := p["snapshotId"].n;
  }

  /** A rollback goes to the snapshot it names. */
  lemma RollbackRead(catalog: string, namespaceName: string, table: string, p: Parameters, stamp: nat -> string)
    returns (snapshot: string)
    requires Statement(catalog, namespaceName, table, Rollback, p, stamp).Some?
    ensures ReadCall(Statement(catalog, namespaceName, table, Rollback, p, stamp).value) ==
      Some(Procedure(catalog, "rollback_to_snapshot", [
        TableArgument(namespaceName, table), Argument("snapshot_id", Word(snapshot))]))
    ensures AllDigits(snapshot) && 1 <= Read(snapshot) <= 9_223_372_036_854_775_807
    ensures "snapshotId" in p && p["snapshotId"] == JInt(Read(snapshot))
  {
    var n := RollbackText(catalog, namespaceName, table, p, stamp);
    snapshot := Show(n);
    ReadShow(n);
    DigitsAreWords(n);
    RollbackHead();
    RollbackWords();
    CallWithOneRead(catalog, "rollback_to_snapshot", namespaceName, table, "snapshot_id", Word(snapshot),
      ".system.rollback_to_snapshot(table => ", ", snapshot_id => ");
  }

  // ---------------------------------------------------------------- lists

  /** A list, written without a space in front of its parenthesis. */
  lemma ListCallRead(
    catalog: string, name: string, namespaceName: string, table: string, argument: string, of: string,
    items: seq<string>, head: string, arrow: string, start: string, list: string)
    requires IsIdentifier(catalog) && IsWord(name) && IsWord(argument) && IsWord(of) && of != "" && items != []
    requires head == ".system." + name + "(table => " && arrow == ", " + argument + " => "
    requires start == of + "(" && list == Join(", ", Literals(items))
    ensures ReadCall(
        "CALL " + catalog + head + Literal(namespaceName + "." + table) + arrow + (start + list + ")") + ")") ==
      Some(Procedure(catalog, name, [TableArgument(namespaceName, table), Argument(argument, Listed(of, items))]))
  {
    CallWithOneRead(catalog, name, namespaceName, table, argument, Listed(of, items), head, arrow);
  }

  lemma StatsWords()
    ensures ".system.compute_table_stats(table => " == ".system." + "compute_table_stats" + "(table => "
    ensures ", columns => " == ", " + "columns" + " => "
    ensures IsWord("compute_table_stats") && IsWord("columns") && IsWord("array") && "array(" == "array" + "("
  {
  }

  lemma StatsText(catalog: string, namespaceName: string, table: string, p: Parameters, stamp: nat -> string)
    returns (names: seq<string>)
    requires Statement(catalog, namespaceName, table, ComputeStats, p, stamp).Some?
    ensures IsIdentifier(catalog)
    ensures "columns" !in p || p["columns"] == JNull ==>
      Statement(catalog, namespaceName, table, ComputeStats, p, stamp).value ==
        "CALL " + catalog + ".system.compute_table_stats(table => " + Literal(namespaceName + "." + table) + ")"
    ensures "columns" in p && p["columns"] != JNull ==>
      && p["columns"].JList? && 1 <= |names| == |p["columns"].items| <= 100
      && (forall i :: 0 <= i < |names| ==> p["columns"].items[i] == JText(names[i]))
      && Statement(catalog, namespaceName, table, ComputeStats, p, stamp).value ==
           "CALL " + catalog + ".system.compute_table_stats(table => " + Literal(namespaceName + "." + table) +
           ", columns => " + ("array(" + Join(", ", Literals(names)) + ")") + ")"
  {
    names := [];
    if "columns" in p && p["columns"] != JNull {
      ColumnsExactly(p["columns"].items);
      names := Columns(p["columns"].items).value;
    }
  }

  /** Statistics are computed for the columns of the request, all of them in their order, or for all there are if it
      names none. */
  lemma StatsRead(catalog: string, namespaceName: string, table: string, p: Parameters, stamp: nat -> string)
    returns (names: seq<string>)
    requires Statement(catalog, namespaceName, table, ComputeStats, p, stamp).Some?
    ensures var named := "columns" in p && p["columns"] != JNull;
      && (named ==> p["columns"].JList? && 1 <= |names| == |p["columns"].items| <= 100)
      && (named ==> forall i :: 0 <= i < |names| ==> p["columns"].items[i] == JText(names[i]))
      && ReadCall(Statement(catalog, namespaceName, table, ComputeStats, p, stamp).value) ==
           Some(Procedure(catalog, "compute_table_stats", [TableArgument(namespaceName, table)] +
             if named then [Argument("columns", Listed("array", names))] else []))
  {
    names := StatsText(catalog, namespaceName, table, p, stamp);
    StatsWords();
    if "columns" in p && p["columns"] != JNull {
      ListCallRead(catalog, "compute_table_stats", namespaceName, table, "columns", "array", names,
        ".system.compute_table_stats(table => ", ", columns => ", "array(", Join(", ", Literals(names)));
      var a, b := TableArgument(namespaceName, table), Argument("columns", Listed("array", names));
      assert [a, b] == [a] + [b];
    } else {
      CallRead(catalog, "compute_table_stats", namespaceName, table, [], ".system.compute_table_stats(table => ", ")");
    }
  }

  // ---------------------------------------------------------------- options

  /** The keys and values of the options, in turn. */
  function Flat(options: seq<(string, string)>): seq<string> {
    if options == [] then [] else [options[0].0, options[0].1] + Flat(options[1..])
  }

  lemma {:induction false} FlatAt(options: seq<(string, string)>, i: nat)
    requires i < |options|
    ensures |Flat(options)| == 2 * |options|
    ensures Flat(options)[2 * i] == options[i].0 && Flat(options)[2 * i + 1] == options[i].1
    decreases |options|
  {
    if |options| > 1 {
      FlatAt(options[1..], if i == 0 then 0 else i - 1);
    }
  }

  /** Rendered in pairs or one by one, it is the same text. */
  lemma {:induction false} PairsAreFlat(options: seq<(string, string)>)
    requires options != []
    ensures Join(", ", Pairs(options)) == Join(", ", Literals(Flat(options)))
    decreases |options|
  {
    var k, v := options[0].0, options[0].1;
    var rest := Flat(options[1..]);
    assert Flat(options) == [k, v] + rest;
    assert Literals(Flat(options)) == [Literal(k), Literal(v)] + Literals(rest);
    assert Literals(Flat(options))[1..] == [Literal(v)] + Literals(rest);
    if |options| == 1 {
      assert rest == [] && Literals(rest) == [];
      assert Pairs(options) == [Literal(k) + ", " + Literal(v)];
    } else {
      PairsAreFlat(options[1..]);
      assert Pairs(options)[1..] == Pairs(options[1..]);
      assert ([Literal(v)] + Literals(rest))[1..] == Literals(rest);
      FlatAt(options[1..], 0);
    }
  }

  /** The text of an option says what the parameter says. */
  predicate Says(text: string, v: Json) {
    match v
    case JBool(b) => text == if b then "true" else "false"
    case JInt(n) => text != "" && AllDigits(text) && Read(text) == n
    case _ => false
  }

  /** Somewhere the option is given, as the parameter says. */
  predicate Given(options: seq<(string, string)>, option: string, v: Json) {
    exists i :: 0 <= i < |options| && options[i].0 == option && Says(options[i].1, v)
  }

  /** Under the names of their options, exactly the parameters of the request are given, each once. */
  predicate ExactlyGiven(options: seq<(string, string)>, names: map<string, string>, p: Parameters) {
    && |options| == |names.Keys * p.Keys|
    && forall parameter :: parameter in names && parameter in p ==> Given(options, names[parameter], p[parameter])
  }

  lemma OptionSays(v: Json, kind: OptionKind)
    requires OptionText(v, kind).Some?
    ensures Says(OptionText(v, kind).value, v)
  {
    if kind.IntKind? {
      ReadShow(v.n);
    }
  }

  function Sources(p: Parameters, mappings: seq<Mapping>): set<string> {
    set i | 0 <= i < |mappings| && mappings[i].source in p :: mappings[i].source
  }

  lemma SourcesGrow(p: Parameters, front: seq<Mapping>, m: Mapping)
    ensures Sources(p, front + [m]) == Sources(p, front) + if m.source in p then {m.source} else {}
  {
    var all := front + [m];
    assert all[|front|] == m && forall i :: 0 <= i < |front| ==> all[i] == front[i];
    forall source | source in Sources(p, front)
      ensures source in Sources(p, all)
    {
      var i :| 0 <= i < |front| && front[i].source in p && front[i].source == source;
      assert all[i].source == source;
    }
  }

  predicate DistinctSources(mappings: seq<Mapping>) {
    forall i, j :: 0 <= i < j < |mappings| ==> mappings[i].source != mappings[j].source
  }

  lemma GivenGrows(options: seq<(string, string)>, more: (string, string), option: string, v: Json)
    requires Given(options, option, v)
    ensures Given(options + [more], option, v)
  {
    var i :| 0 <= i < |options| && options[i].0 == option && Says(options[i].1, v);
    assert (options + [more])[i] == options[i];
  }

  lemma NewSource(p: Parameters, mappings: seq<Mapping>)
    requires mappings != [] && DistinctSources(mappings)
    ensures mappings[|mappings| - 1].source !in Sources(p, mappings[..|mappings| - 1])
  {
  }

  lemma CountOneMore(a: set<string>, x: string)
    requires x !in a
    ensures |a + {x}| == |a| + 1 && a + {} == a
  {
  }

  lemma {:induction false} OptionsCounted(p: Parameters, mappings: seq<Mapping>)
    requires Options(p, mappings).Some? && DistinctSources(mappings)
    ensures |Options(p, mappings).value| == |Sources(p, mappings)|
    decreases |mappings|
  {
    if mappings != [] {
      var front, m := mappings[..|mappings| - 1], mappings[|mappings| - 1];
      assert mappings == front + [m];
      OptionsCounted(p, front);
      SourcesGrow(p, front, m);
      NewSource(p, mappings);
      CountOneMore(Sources(p, front), m.source);
    }
  }

  lemma {:induction false} OptionGiven(p: Parameters, mappings: seq<Mapping>, k: nat)
    requires Options(p, mappings).Some? && k < |mappings| && mappings[k].source in p
    ensures Given(Options(p, mappings).value, mappings[k].target, p[mappings[k].source])
    decreases |mappings|
  {
    var front, m := mappings[..|mappings| - 1], mappings[|mappings| - 1];
    if k < |front| {
      OptionGiven(p, front, k);
      if m.source in p {
        GivenGrows(Options(p, front).value, (m.target, OptionText(p[m.source], m.kind).value), front[k].target,
                   p[front[k].source]);
      }
    } else {
      OptionSays(p[m.source], m.kind);
      var more := (m.target, OptionText(p[m.source], m.kind).value);
      assert (Options(p, front).value + [more])[|Options(p, front).value|] == more;
    }
  }

  const REWRITE_OPTIONS: map<string, string> := map[
    "targetFileSizeBytes" := "target-file-size-bytes",
    "minInputFiles" := "min-input-files",
    "maxFileGroupSizeBytes" := "max-file-group-size-bytes",
    "rewriteAll" := "rewrite-all",
    "removeDanglingDeletes" := "remove-dangling-deletes"]

  const DELETE_OPTIONS: map<string, string> := map["rewriteAll" := "rewrite-all"]

  /** The mappings are those of the table of option names. */
  predicate Maps(mappings: seq<Mapping>, names: map<string, string>) {
    && DistinctSources(mappings)
    && (forall i :: 0 <= i < |mappings| ==>
          mappings[i].source in names && names[mappings[i].source] == mappings[i].target)
    && (forall name :: name in names ==> exists i :: 0 <= i < |mappings| && mappings[i].source == name)
  }

  lemma SourcesOf(p: Parameters, mappings: seq<Mapping>, names: map<string, string>)
    requires Maps(mappings, names)
    ensures Sources(p, mappings) == names.Keys * p.Keys
  {
    forall name | name in names && name in p
      ensures name in Sources(p, mappings)
    {
      var i :| 0 <= i < |mappings| && mappings[i].source == name;
    }
  }

  lemma OptionsExactlyGiven(p: Parameters, mappings: seq<Mapping>, names: map<string, string>)
    requires Options(p, mappings).Some? && Maps(mappings, names)
    ensures ExactlyGiven(Options(p, mappings).value, names, p)
  {
    SourcesOf(p, mappings, names);
    OptionsCounted(p, mappings);
    forall name | name in names && name in p
      ensures Given(Options(p, mappings).value, names[name], p[name])
    {
      var i :| 0 <= i < |mappings| && mappings[i].source == name;
      OptionGiven(p, mappings, i);
    }
  }

  lemma RewriteMaps()
    ensures Maps(REWRITE_MAPPINGS, REWRITE_OPTIONS)
  {
    var ms := REWRITE_MAPPINGS;
    assert ms[0].source == "targetFileSizeBytes" && ms[1].source == "minInputFiles";
    assert ms[2].source == "maxFileGroupSizeBytes" && ms[3].source == "rewriteAll";
    assert ms[4].source == "removeDanglingDeletes";
  }

  lemma DeleteMaps()
    ensures Maps(DELETE_MAPPINGS, DELETE_OPTIONS)
  {
    assert DELETE_MAPPINGS[0].source == "rewriteAll";
  }

  lemma OptionsWords()
    ensures ", options => " == ", " + "options" + " => " && "map(" == "map" + "("
    ensures IsWord("options") && IsWord("map")
  {
  }

  function OptionsArgument(options: seq<(string, string)>): seq<Argument> {
    if options == [] then [] else [Argument("options", Listed("map", Flat(options)))]
  }

  /** A call that has options, if any were given. */
  lemma RewriteCallRead(
    catalog: string, name: string, namespaceName: string, table: string, options: seq<(string, string)>, head: string)
    requires IsIdentifier(catalog) && IsWord(name) && head == ".system." + name + "(table => "
    ensures ReadCall(
        "CALL " + catalog + head + Literal(namespaceName + "." + table) + Suffix(options) + ")") ==
      Some(Procedure(catalog, name, [TableArgument(namespaceName, table)] + OptionsArgument(options)))
  {
    var start := "CALL " + catalog + head + Literal(namespaceName + "." + table);
    if options == [] {
      CallRead(catalog, name, namespaceName, table, [], head, ")");
      assert start + "" == start;
    } else {
      OptionsWords();
      PairsAreFlat(options);
      FlatAt(options, 0);
      ListCallRead(catalog, name, namespaceName, table, "options", "map", Flat(options), head, ", options => ", "map(",
                   Join(", ", Literals(Flat(options))));
      Appended(start, ", options => ", OptionMap(options));
      var a, b := TableArgument(namespaceName, table), Argument("options", Listed("map", Flat(options)));
      assert [a, b] == [a] + [b];
    }
  }

  lemma Appended(a: string, b: string, c: string)
    ensures a + (b + c) == a + b + c
  {
  }

  lemma DataFilesHead()
    ensures ".system.rewrite_data_files(table => " == ".system." + "rewrite_data_files" + "(table => "
  {
  }

  lemma DataFilesWord()
    ensures IsWord("rewrite_data_files")
  {
  }

  /** A rewrite of data files is given exactly the options of the request, under their names and as they were. */
  lemma DataFilesRead(catalog: string, namespaceName: string, table: string, p: Parameters, stamp: nat -> string)
    returns (options: seq<(string, string)>)
    requires Statement(catalog, namespaceName, table, RewriteDataFiles, p, stamp).Some?
    ensures ExactlyGiven(options, REWRITE_OPTIONS, p)
    ensures ReadCall(Statement(catalog, namespaceName, table, RewriteDataFiles, p, stamp).value) ==
      Some(Procedure(catalog, "rewrite_data_files",
                     [TableArgument(namespaceName, table)] + OptionsArgument(options)))
  {
    options := Options(p, REWRITE_MAPPINGS).value;
    RewriteMaps();
    OptionsExactlyGiven(p, REWRITE_MAPPINGS, REWRITE_OPTIONS);
    DataFilesHead();
    DataFilesWord();
    RewriteCallRead(catalog, "rewrite_data_files", namespaceName, table, options,
      ".system.rewrite_data_files(table => ");
  }

  lemma DeletesHead()
    ensures ".system.rewrite_position_delete_files(table => " ==
      ".system." + "rewrite_position_delete_files" + "(table => "
  {
  }

  lemma DeletesWord()
    ensures IsWord("rewrite_position_delete_files")
  {
  }

  lemma DeletesText(catalog: string, namespaceName: string, table: string, p: Parameters, stamp: nat -> string)
    requires Statement(catalog, namespaceName, table, RewritePositionDeletes, p, stamp).Some?
    ensures IsIdentifier(catalog) && Options(p, DELETE_MAPPINGS).Some?
    ensures Statement(catalog, namespaceName, table, RewritePositionDeletes, p, stamp).value ==
      "CALL " + catalog + ".system.rewrite_position_delete_files(table => " + Literal(namespaceName + "." + table) +
      Suffix(Options(p, DELETE_MAPPINGS).value) + ")"
  {
  }

  /** And so is a rewrite of position deletes. */
  lemma DeletesRead(catalog: string, namespaceName: string, table: string, p: Parameters, stamp: nat -> string)
    returns (options: seq<(string, string)>)
    requires Statement(catalog, namespaceName, table, RewritePositionDeletes, p, stamp).Some?
    ensures ExactlyGiven(options, DELETE_OPTIONS, p)
    ensures ReadCall(Statement(catalog, namespaceName, table, RewritePositionDeletes, p, stamp).value) ==
      Some(Procedure(catalog, "rewrite_position_delete_files",
                     [TableArgument(namespaceName, table)] + OptionsArgument(options)))
  {
    DeletesText(catalog, namespaceName, table, p, stamp);
    options := Options(p, DELETE_MAPPINGS).value;
    DeleteMaps();
    OptionsExactlyGiven(p, DELETE_MAPPINGS, DELETE_OPTIONS);
    DeletesHead();
    DeletesWord();
    RewriteCallRead(catalog, "rewrite_position_delete_files", namespaceName, table, options,
      ".system.rewrite_position_delete_files(table => ");
  }

  // ---------------------------------------------------------------- all of them

  function ProcedureOf(c: Command): string {
    match c
    case RewriteDataFiles => "rewrite_data_files"
    case RewriteManifests => "rewrite_manifests"
    case RewritePositionDeletes => "rewrite_position_delete_files"
    case ComputeStats => "compute_table_stats"
    case ExpireSnapshots => "expire_snapshots"
    case RemoveOrphanFiles => "remove_orphan_files"
    case Rollback => "rollback_to_snapshot"
    case StorageMigration => ""
  }

  /** The text is a call of the command's procedure, in the catalog and on the table of the request. */
  predicate CallsFor(text: string, catalog: string, namespaceName: string, table: string, c: Command) {
    var call := ReadCall(text);
    && call.Some? && call.value.catalog == catalog && call.value.name == ProcedureOf(c)
    && call.value.arguments != [] && call.value.arguments[0] == Argument("table", Text(namespaceName + "." + table))
  }

  lemma CalledFor(
    text: string, catalog: string, namespaceName: string, table: string, c: Command, more: seq<Argument>)
    requires ReadCall(text) ==
      Some(Procedure(catalog, ProcedureOf(c), [TableArgument(namespaceName, table)] + more))
    ensures CallsFor(text, catalog, namespaceName, table, c)
  {
  }

  lemma RewritesRead(
    catalog: string, namespaceName: string, table: string, c: Command, p: Parameters, stamp: nat -> string)
    requires Statement(catalog, namespaceName, table, c, p, stamp).Some?
    requires c in {RewriteDataFiles, RewritePositionDeletes}
    ensures CallsFor(Statement(catalog, namespaceName, table, c, p, stamp).value, catalog, namespaceName, table, c)
  {
    var text := Statement(catalog, namespaceName, table, c, p, stamp).value;
    if c == RewriteDataFiles {
      var options := DataFilesRead(catalog, namespaceName, table, p, stamp);
      CalledFor(text, catalog, namespaceName, table, c, OptionsArgument(options));
    } else {
      var options := DeletesRead(catalog, namespaceName, table, p, stamp);
      CalledFor(text, catalog, namespaceName, table, c, OptionsArgument(options));
    }
  }

  /** Whatever the command and its parameters are. */
  lemma StatementRead(
    catalog: string, namespaceName: string, table: string, c: Command, p: Parameters, stamp: nat -> string)
    requires Statement(catalog, namespaceName, table, c, p, stamp).Some?
    ensures CallsFor(Statement(catalog, namespaceName, table, c, p, stamp).value, catalog, namespaceName, table, c)
  {
    if c in {RewriteDataFiles, RewritePositionDeletes} {
      RewritesRead(catalog, namespaceName, table, c, p, stamp);
    } else if c == RewriteManifests {
      ManifestsRead(catalog, namespaceName, table, p, stamp);
    } else if c == ComputeStats {
      var names := StatsRead(catalog, namespaceName, table, p, stamp);
    } else if c == ExpireSnapshots {
      var hours, retain := ExpiryRead(catalog, namespaceName, table, p, stamp);
    } else if c == RemoveOrphanFiles {
      var hours := OrphansRead(catalog, namespaceName, table, p, stamp);
    } else {
      var snapshot := RollbackRead(catalog, namespaceName, table, p, stamp);
    }
  }
}
