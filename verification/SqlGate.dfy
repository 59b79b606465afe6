/** Maintenance parameters: what the API lets through, and the two compilers that turn them
    into a procedure call, one in the Spark job and one in the playground runner. */
module SqlGate {
  import opened Common
  import opened Decimals
  import opened SqlText

  /** A decoded JSON value. */
  datatype Json = JNull | JBool(b: bool) | JInt(n: int) | JText(s: string) | JList(items: seq<Json>) | JOther

  type Parameters = map<string, Json>

  const SPARK_COMMANDS := {ComputeStats, RewriteManifests, RewriteDataFiles, RewritePositionDeletes,
                           ExpireSnapshots, RemoveOrphanFiles, Rollback}

  const NUL := '\U{00}'

  // ---------------------------------------------------------------- the gate of the API

  function KnownParameters(c: Command): set<string> {
    match c
    case RewriteDataFiles =>
      {"targetFileSizeBytes", "minInputFiles", "maxFileGroupSizeBytes", "rewriteAll", "removeDanglingDeletes"}
    case RewriteManifests => {"useCaching"}
    case RewritePositionDeletes => {"rewriteAll"}
    case ComputeStats => {"columns"}
    case ExpireSnapshots => {"olderThanHours", "retainLast"}
    case RemoveOrphanFiles => {"olderThanHours", "dryRun"}
    case Rollback => {"snapshotId"}
    case StorageMigration => {}
  }

  predicate InRange(v: Json, minimum: int, maximum: int) { v.JInt? && minimum <= v.n <= maximum }

  predicate IntegerOk(p: Parameters, name: string, minimum: int, maximum: int) {
    name in p ==> InRange(p[name], minimum, maximum)
  }

  predicate BooleanOk(p: Parameters, name: string) { name in p ==> p[name].JBool? }

  predicate NameOk(v: Json) { v.JText? && v.s != "" && |v.s| <= 500 }

  predicate ColumnsOk(p: Parameters) {
    "columns" in p && p["columns"] != JNull ==>
      && p["columns"].JList? && 1 <= |p["columns"].items| <= 100
      && forall i :: 0 <= i < |p["columns"].items| ==> NameOk(p["columns"].items[i])
  }

  predicate OnlyKnown(c: Command, p: Parameters) { p.Keys <= KnownParameters(c) }

  predicate HoursOk(c: Command, p: Parameters) {
    && (c == ExpireSnapshots ==> IntegerOk(p, "olderThanHours", 120, 87_600))
    && (c == RemoveOrphanFiles ==> IntegerOk(p, "olderThanHours", 72, 87_600))
  }

  /** `validate_parameters` returns rather than raises. */
  predicate Accepted(c: Command, p: Parameters) {
    && OnlyKnown(c, p)
    && BooleanOk(p, "rewriteAll") && BooleanOk(p, "removeDanglingDeletes")
    && BooleanOk(p, "useCaching") && BooleanOk(p, "dryRun")
    && IntegerOk(p, "targetFileSizeBytes", 1_048_576, 10_737_418_240)
    && IntegerOk(p, "minInputFiles", 1, 10_000)
    && IntegerOk(p, "maxFileGroupSizeBytes", 1_048_576, 109_951_162_777_600)
    && IntegerOk(p, "retainLast", 1, 10_000)
    && IntegerOk(p, "snapshotId", 1, 9_223_372_036_854_775_807)
    && HoursOk(c, p)
    && ColumnsOk(p)
  }

  // ---------------------------------------------------------------- option helpers of the compilers

  function GetOr(p: Parameters, name: string, default: Json): Json { if name in p then p[name] else default }

  function BoolOption(v: Json): Option<string> {
    if v.JBool? then Some(if v.b then "true" else "false") else None
  }

  function IntOption(v: Json, minimum: nat, maximum: int): Option<string> {
    if InRange(v, minimum, maximum) then Some(Show(v.n)) else None
  }

  datatype OptionKind = IntKind(minimum: nat, maximum: int) | BoolKind

  /** A parameter, the option it becomes, and its check. */
  datatype Mapping = Mapping(source: string, target: string, kind: OptionKind)

  const REWRITE_MAPPINGS: seq<Mapping> := [
    Mapping("targetFileSizeBytes", "target-file-size-bytes", IntKind(1_048_576, 10_737_418_240)),
    Mapping("minInputFiles", "min-input-files", IntKind(1, 10_000)),
    Mapping("maxFileGroupSizeBytes", "max-file-group-size-bytes", IntKind(1_048_576, 109_951_162_777_600)),
    Mapping("rewriteAll", "rewrite-all", BoolKind),
    Mapping("removeDanglingDeletes", "remove-dangling-deletes", BoolKind)]

  const DELETE_MAPPINGS: seq<Mapping> := [Mapping("rewriteAll", "rewrite-all", BoolKind)]

  function OptionText(v: Json, kind: OptionKind): Option<string> {
    match kind
    case IntKind(minimum, maximum) => IntOption(v, minimum, maximum)
    case BoolKind => BoolOption(v)
  }

  /** The options given, in the order of the mappings, if every one of them passes its check. */
  function Options(p: Parameters, mappings: seq<Mapping>): Option<seq<(string, string)>>
    decreases |mappings|
  {
    if mappings == [] then Some([])
    else
      var front, m := Options(p, mappings[..|mappings| - 1]), mappings[|mappings| - 1];
      if front.None? then None
      else if m.source !in p then front
      else
        var text := OptionText(p[m.source], m.kind);
        if text.None? then None else Some(front.value + [(m.target, text.value)])
  }

  predicate StatsNameOk(v: Json) { NameOk(v) && NUL !in v.s }

  /** The column names, if all of them are usable. */
  function Columns(items: seq<Json>): Option<seq<string>>
    decreases |items|
  {
    if items == [] then Some([])
    else
      var front, v := Columns(items[..|items| - 1]), items[|items| - 1];
      if front.None? || !StatsNameOk(v) then None else Some(front.value + [v.s])
  }

  function Suffix(options: seq<(string, string)>): string {
    if options == [] then "" else ", options => " + OptionMap(options)
  }

  function ColumnList(names: seq<string>): string { "array(" + Join(", ", Literals(names)) + ")" }

  // ---------------------------------------------------------------- the statement

  /** The procedure call for a catalog and a quoted table name. `stamp` renders the point in
      time so many hours before now. */
  function Call(catalog: string, tableArg: string, c: Command, p: Parameters, stamp: nat -> string): Option<string> {
    match c
    case RewriteDataFiles =>
      var options := Options(p, REWRITE_MAPPINGS);
      if options.None? then None
      else Some("CALL " + catalog + ".system.rewrite_data_files(table => " + tableArg + Suffix(options.value) + ")")
    case RewriteManifests =>
      var caching := BoolOption(GetOr(p, "useCaching", JBool(false)));
      if caching.None? then None
      else Some("CALL " + catalog +
        ".system.rewrite_manifests(table => " + tableArg + ", use_caching => " + caching.value + ")")
    case RewritePositionDeletes =>
      var options := Options(p, DELETE_MAPPINGS);
      if options.None? then None
      else Some("CALL " + catalog +
        ".system.rewrite_position_delete_files(table => " + tableArg + Suffix(options.value) + ")")
    case ComputeStats =>
      var columns := GetOr(p, "columns", JNull);
      if columns == JNull then Some("CALL " + catalog + ".system.compute_table_stats(table => " + tableArg + ")")
      else if !columns.JList? || !(1 <= |columns.items| <= 100) then None
      else
        var names := Columns(columns.items);
        if names.None? then None
        else Some("CALL " + catalog + ".system.compute_table_stats(table => " + tableArg + ", columns => " +
                  ColumnList(names.value) + ")")
    case ExpireSnapshots =>
      var hours := GetOr(p, "olderThanHours", JInt(168));
      var retain := IntOption(GetOr(p, "retainLast", JInt(1)), 1, 10_000);
      if !InRange(hours, 120, 87_600) || retain.None? then None
      else Some("CALL " + catalog + ".system.expire_snapshots(table => " + tableArg + ", older_than => TIMESTAMP " +
                Literal(stamp(hours.n)) + ", retain_last => " + retain.value + ", stream_results => true)")
    case RemoveOrphanFiles =>
      var hours := GetOr(p, "olderThanHours", JInt(72));
      var dryRun := BoolOption(GetOr(p, "dryRun", JBool(true)));
      if !InRange(hours, 72, 87_600) || dryRun.None? then None
      else Some("CALL " + catalog + ".system.remove_orphan_files(table => " + tableArg + ", older_than => TIMESTAMP " +
                Literal(stamp(hours.n)) + ", dry_run => " + dryRun.value + ", stream_results => true)")
    case Rollback =>
      var snapshot := IntOption(GetOr(p, "snapshotId", JNull), 1, 9_223_372_036_854_775_807);
      if snapshot.None? then None
      else Some("CALL " + catalog +
        ".system.rollback_to_snapshot(table => " + tableArg + ", snapshot_id => " + snapshot.value + ")")
    case StorageMigration => None
  }

  predicate NamesOk(catalog: string, namespaceName: string, table: string) {
    IsIdentifier(catalog) && IsNamespace(namespaceName) && IsIdentifier(table)
  }

  /** What compiling a request gives, or nothing when it raises. */
  function Statement(
    catalog: string, namespaceName: string, table: string, c: Command, p: Parameters,
    stamp: nat -> string): Option<string>
  {
    if NamesOk(catalog, namespaceName, table) then Call(catalog, Literal(namespaceName + "." + table), c, p, stamp)
      else None
  }

  // ---------------------------------------------------------------- gate and compilers agree

  /** What the gate lets through and the compilers do not: a rollback without a target, and a
      column name with a NUL in it. */
  predicate Compilable(c: Command, p: Parameters) {
    && (c == Rollback ==> "snapshotId" in p)
    && (c == ComputeStats && "columns" in p && p["columns"].JList? ==>
          forall i :: 0 <= i < |p["columns"].items| && p["columns"].items[i].JText? ==> NUL !in p["columns"].items[i].s)
  }

  lemma {:induction false} OptionsExactly(p: Parameters, mappings: seq<Mapping>)
    ensures Options(p, mappings).Some? <==>
      forall i :: 0 <= i < |mappings| && mappings[i].source in p ==>
        OptionText(p[mappings[i].source], mappings[i].kind).Some?
    decreases |mappings|
  {
    if mappings != [] {
      OptionsExactly(p, mappings[..|mappings| - 1]);
    }
  }

  lemma {:induction false} ColumnsExactly(items: seq<Json>)
    ensures Columns(items).Some? <==> forall i :: 0 <= i < |items| ==> StatsNameOk(items[i])
    ensures Columns(items).Some? ==>
      |Columns(items).value| == |items| && forall i :: 0 <= i < |items| ==> Columns(items).value[i] == items[i].s
    decreases |items|
  {
    if items != [] {
      ColumnsExactly(items[..|items| - 1]);
    }
  }

  lemma RewriteGate(p: Parameters)
    requires OnlyKnown(RewriteDataFiles, p)
    ensures Options(p, REWRITE_MAPPINGS).Some? <==> Accepted(RewriteDataFiles, p)
  {
    OptionsExactly(p, REWRITE_MAPPINGS);
    var ms := REWRITE_MAPPINGS;
    assert ms[0].source == "targetFileSizeBytes" && ms[1].source == "minInputFiles" &&
      ms[2].source == "maxFileGroupSizeBytes";
    assert ms[3].source == "rewriteAll" && ms[4].source == "removeDanglingDeletes";
  }

  lemma DeleteGate(p: Parameters)
    requires OnlyKnown(RewritePositionDeletes, p)
    ensures Options(p, DELETE_MAPPINGS).Some? <==> Accepted(RewritePositionDeletes, p)
  {
    OptionsExactly(p, DELETE_MAPPINGS);
    assert DELETE_MAPPINGS[0].source == "rewriteAll";
  }

  lemma StatsGate(p: Parameters, catalog: string, tableArg: string, stamp: nat -> string)
    requires OnlyKnown(ComputeStats, p)
    ensures Call(catalog, tableArg, ComputeStats, p, stamp).Some? <==>
      Accepted(ComputeStats, p) && Compilable(ComputeStats, p)
  {
    if "columns" in p && p["columns"].JList? {
      ColumnsExactly(p["columns"].items);
    }
  }

  lemma ExpiryGate(p: Parameters, catalog: string, tableArg: string, stamp: nat -> string)
    requires OnlyKnown(ExpireSnapshots, p)
    ensures Call(catalog, tableArg, ExpireSnapshots, p, stamp).Some? <==> Accepted(ExpireSnapshots, p)
  {
    assert "dryRun" !in p && "rewriteAll" !in p && "columns" !in p;
  }

  lemma OrphansGate(p: Parameters, catalog: string, tableArg: string, stamp: nat -> string)
    requires OnlyKnown(RemoveOrphanFiles, p)
    ensures Call(catalog, tableArg, RemoveOrphanFiles, p, stamp).Some? <==> Accepted(RemoveOrphanFiles, p)
  {
    assert "retainLast" !in p && "rewriteAll" !in p && "columns" !in p;
  }

  lemma ManifestsGate(p: Parameters, catalog: string, tableArg: string, stamp: nat -> string)
    requires OnlyKnown(RewriteManifests, p)
    ensures Call(catalog, tableArg, RewriteManifests, p, stamp).Some? <==> Accepted(RewriteManifests, p)
  {
    assert "snapshotId" !in p && "columns" !in p;
  }

  /** The one command whose default the compilers refuse: a rollback has to name its target. */
  lemma RollbackGate(p: Parameters, catalog: string, tableArg: string, stamp: nat -> string)
    requires OnlyKnown(Rollback, p)
    ensures Call(catalog, tableArg, Rollback, p, stamp).Some? <==> Accepted(Rollback, p) && "snapshotId" in p
  {
    assert "useCaching" !in p && "columns" !in p;
  }

  /** Among requests without unknown parameters, a Spark command compiles exactly when the API
      accepts its parameters, except precisely for rollbacks without a target and column
      names with a NUL. */
  lemma {:induction false} GateMatchesCompilers(
    catalog: string, namespaceName: string, table: string, c: Command, p: Parameters, stamp: nat -> string)
    requires c in SPARK_COMMANDS && OnlyKnown(c, p)
    ensures Statement(catalog, namespaceName, table, c, p, stamp).Some? <==>
      NamesOk(catalog, namespaceName, table) && Accepted(c, p) && Compilable(c, p)
  {
    var tableArg := Literal(namespaceName + "." + table);
    if c == RewriteDataFiles {
      RewriteGate(p);
    } else if c == RewritePositionDeletes {
      DeleteGate(p);
    } else if c == ComputeStats {
      StatsGate(p, catalog, tableArg, stamp);
    } else if c == ExpireSnapshots {
      ExpiryGate(p, catalog, tableArg, stamp);
    } else if c == RemoveOrphanFiles {
      OrphansGate(p, catalog, tableArg, stamp);
    } else if c == RewriteManifests {
      ManifestsGate(p, catalog, tableArg, stamp);
    } else {
      RollbackGate(p, catalog, tableArg, stamp);
    }
  }

  /** The column list of a statistics request is read back from the compiled statement exactly
      as it was given. */
  lemma StatsColumnsReadBack(
    catalog: string, namespaceName: string, table: string, p: Parameters, stamp: nat -> string)
    returns (head: string, body: string, names: seq<string>)
    requires Statement(catalog, namespaceName, table, ComputeStats, p, stamp).Some?
    requires "columns" in p && p["columns"] != JNull
    ensures Statement(catalog, namespaceName, table, ComputeStats, p, stamp) ==
      Some(head + ", columns => array(" + body)
    ensures ReadList(body) == Some((names, ")"))
    ensures p["columns"].JList? && |names| == |p["columns"].items|
    ensures forall i :: 0 <= i < |names| ==> p["columns"].items[i] == JText(names[i])
  {
    var items := p["columns"].items;
    ColumnsExactly(items);
    names := Columns(items).value;
    head := "CALL " + catalog + ".system.compute_table_stats(table => " + Literal(namespaceName + "." + table);
    body := Join(", ", Literals(names)) + ")" + ")";
    ListReadsBack(names, ")");
    var whole := Statement(catalog, namespaceName, table, ComputeStats, p, stamp).value;
    assert whole == head + ", columns => " + ColumnList(names) + ")";
    assert ", columns => array(" == ", columns => " + "array(";
    assert whole == head + ", columns => array(" + body;
  }
}
