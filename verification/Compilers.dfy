/** The two copies of `procedure_sql`, the one in the Spark job that Livy runs and the one in
    the playground runner, step by step. They put the quoted table name together differently
    and are the same line for line from there on. Both are proved to compute the same
    statement, for every request. */
module Compilers {
  import opened Common
  import opened SqlText
  import opened SqlGate
  import opened SqlMeaning

  /** The options dictionary of a rewrite, filled by one loop over a table of mappings. */
  method CollectOptions(p: Parameters, mappings: seq<Mapping>, options: seq<(string, string)>)
    returns (r: Option<seq<(string, string)>>)
    ensures r == if Options(p, mappings).None? then None else Some(options + Options(p, mappings).value)
  {
    var acc := options;
    for i := 0 to |mappings|
      invariant Options(p, mappings[..i]).Some? && acc == options + Options(p, mappings[..i]).value
    {
      assert mappings[..i + 1][..i] == mappings[..i];
      var m := mappings[i];
      if m.source in p {
        var text := OptionText(p[m.source], m.kind);
        if text.None? {
          StillNone(p, mappings, i + 1);
          return None;
        }
        acc := acc + [(m.target, text.value)];
      }
    }
    assert mappings[..|mappings|] == mappings;
    r := Some(acc);
  }

  lemma {:induction false} StillNone(p: Parameters, mappings: seq<Mapping>, i: nat)
    requires i <= |mappings| && Options(p, mappings[..i]).None?
    ensures Options(p, mappings).None?
    decreases |mappings|
  {
    if i == |mappings| {
      assert mappings[..i] == mappings;
    } else {
      assert mappings[..|mappings| - 1][..i] == mappings[..i];
      StillNone(p, mappings[..|mappings| - 1], i);
    }
  }

  /** The quoted column names, collected by a loop that raises at the first bad one. */
  method CollectColumns(items: seq<Json>) returns (r: Option<seq<string>>)
    ensures r == if Columns(items).None? then None else Some(Literals(Columns(items).value))
  {
    ColumnsExactly(items);
    var values: seq<string> := [];
    for i := 0 to |items|
      invariant |values| == i
      invariant forall k :: 0 <= k < i ==> StatsNameOk(items[k]) && values[k] == Literal(items[k].s)
    {
      if !StatsNameOk(items[i]) {
        return None;
      }
      values := values + [Literal(items[i].s)];
    }
    assert values == Literals(Columns(items).value);
    r := Some(values);
  }

  const INT_MAPPINGS := REWRITE_MAPPINGS[..3]
  const BOOL_MAPPINGS := REWRITE_MAPPINGS[3..]

  lemma {:induction false} OptionsInTwoParts(p: Parameters, a: seq<Mapping>, b: seq<Mapping>)
    ensures Options(p, a + b) ==
      if Options(p, a).None? || Options(p, b).None? then None else Some(Options(p, a).value + Options(p, b).value)
    decreases |b|
  {
    if b == [] {
      assert a + b == a;
      assert Options(p, a).Some? ==> Options(p, a).value + [] == Options(p, a).value;
    } else {
      var front := b[..|b| - 1];
      OptionsInTwoParts(p, a, front);
      assert (a + b)[..|a + b| - 1] == a + front;
      assert (a + b)[|a + b| - 1] == b[|b| - 1];
      if Options(p, a).Some? && Options(p, b).Some? && b[|b| - 1].source in p {
        var x := [(b[|b| - 1].target, OptionText(p[b[|b| - 1].source], b[|b| - 1].kind).value)];
        assert (Options(p, a).value + Options(p, front).value) + x ==
          Options(p, a).value + (Options(p, front).value + x);
      }
    }
  }

  /** The options of a file rewrite: the numbers first, then the switches. */
  method RewriteOptions(p: Parameters) returns (options: Option<seq<(string, string)>>)
    ensures options == Options(p, REWRITE_MAPPINGS)
  {
    OptionsInTwoParts(p, INT_MAPPINGS, BOOL_MAPPINGS);
    assert INT_MAPPINGS + BOOL_MAPPINGS == REWRITE_MAPPINGS;
    options := CollectOptions(p, INT_MAPPINGS, []);
    if options.Some? {
      assert options.value == Options(p, INT_MAPPINGS).value;
      options := CollectOptions(p, BOOL_MAPPINGS, options.value);
    }
  }

  method DeleteOptions(p: Parameters) returns (options: Option<seq<(string, string)>>)
    ensures options == Options(p, DELETE_MAPPINGS)
  {
    options := CollectOptions(p, DELETE_MAPPINGS, []);
    assert options.Some? ==> options.value == Options(p, DELETE_MAPPINGS).value;
  }

  /** From the quoted table name on. */
  method Render(catalog: string, tableArg: string, c: Command, p: Parameters, stamp: nat -> string)
    returns (sql: Option<string>)
    ensures sql == Call(catalog, tableArg, c, p, stamp)
  {
    match c {
      case RewriteDataFiles =>
        var options := RewriteOptions(p);
        if options.None? {
          return None;
        }
        var suffix := if options.value != [] then ", options => " + OptionMap(options.value) else "";
        sql := Some("CALL " + catalog + ".system.rewrite_data_files(table => " + tableArg + suffix + ")");
      case RewriteManifests =>
        var caching := BoolOption(GetOr(p, "useCaching", JBool(false)));
        if caching.None? {
          return None;
        }
        sql := Some("CALL " + catalog +
          ".system.rewrite_manifests(table => " + tableArg + ", use_caching => " + caching.value + ")");
      case RewritePositionDeletes =>
        var options := DeleteOptions(p);
        if options.None? {
          return None;
        }
        var suffix := if options.value != [] then ", options => " + OptionMap(options.value) else "";
        sql := Some("CALL " + catalog + ".system.rewrite_position_delete_files(table => " + tableArg + suffix + ")");
      case ComputeStats =>
        var columns := GetOr(p, "columns", JNull);
        if columns == JNull {
          return Some("CALL " + catalog + ".system.compute_table_stats(table => " + tableArg + ")");
        }
        if !columns.JList? || !(1 <= |columns.items| <= 100) {
          return None;
        }
        var values := CollectColumns(columns.items);
        if values.None? {
          return None;
        }
        sql := Some("CALL " + catalog + ".system.compute_table_stats(table => " + tableArg + ", columns => " +
                    ("array(" + Join(", ", values.value) + ")") + ")");
      case ExpireSnapshots =>
        var hours := GetOr(p, "olderThanHours", JInt(168));
        if !InRange(hours, 120, 87_600) {
          return None;
        }
        var retain := IntOption(GetOr(p, "retainLast", JInt(1)), 1, 10_000);
        if retain.None? {
          return None;
        }
        sql := Some("CALL " + catalog + ".system.expire_snapshots(table => " + tableArg + ", older_than => TIMESTAMP " +
                    Literal(stamp(hours.n)) + ", retain_last => " + retain.value + ", stream_results => true)");
      case RemoveOrphanFiles =>
        var hours := GetOr(p, "olderThanHours", JInt(72));
        if !InRange(hours, 72, 87_600) {
          return None;
        }
        var dryRun := BoolOption(GetOr(p, "dryRun", JBool(true)));
        if dryRun.None? {
          return None;
        }
        sql := Some("CALL " + catalog +
          ".system.remove_orphan_files(table => " + tableArg + ", older_than => TIMESTAMP " +
                    Literal(stamp(hours.n)) + ", dry_run => " + dryRun.value + ", stream_results => true)");
      case Rollback =>
        var snapshot := IntOption(GetOr(p, "snapshotId", JNull), 1, 9_223_372_036_854_775_807);
        if snapshot.None? {
          return None;
        }
        sql := Some("CALL " + catalog +
          ".system.rollback_to_snapshot(table => " + tableArg + ", snapshot_id => " + snapshot.value + ")");
      case StorageMigration =>
        sql := None;
    }
  }

  /** The Spark job's copy: the namespace is checked, and quoted as it was given. */
  method JobProcedureSql(
    catalog: string, namespaceName: string, table: string, c: Command, p: Parameters, stamp: nat -> string)
    returns (sql: Option<string>)
    ensures sql == Statement(catalog, namespaceName, table, c, p, stamp)
    ensures sql.Some? ==> CallsFor(sql.value, catalog, namespaceName, table, c)
  {
    if !IsIdentifier(catalog) || !IsNamespace(namespaceName) || !IsIdentifier(table) {
      return None;
    }
    sql := Render(catalog, Literal(namespaceName + "." + table), c, p, stamp);
    if sql.Some? {
      StatementRead(catalog, namespaceName, table, c, p, stamp);
    }
  }

  /** `namespace_identifier`: the checked parts, joined again. */
  function NamespaceIdentifier(namespaceName: string): Option<string> {
    if IsNamespace(namespaceName) then Some(Join(".", SplitDots(namespaceName))) else None
  }

  /** The runner's copy: it quotes the namespace it has put together again. */
  method RunnerProcedureSql(
    catalog: string, namespaceName: string, table: string, c: Command, p: Parameters, stamp: nat -> string)
    returns (sql: Option<string>)
    ensures sql == Statement(catalog, namespaceName, table, c, p, stamp)
    ensures sql.Some? ==> CallsFor(sql.value, catalog, namespaceName, table, c)
  {
    if !IsIdentifier(catalog) {
      return None;
    }
    var checked := NamespaceIdentifier(namespaceName);
    if checked.None? || !IsIdentifier(table) {
      return None;
    }
    JoinSplit(namespaceName);
    sql := Render(catalog, Literal(checked.value + "." + table), c, p, stamp);
    if sql.Some? {
      StatementRead(catalog, namespaceName, table, c, p, stamp);
    }
  }
}
