/** Which parameters a maintenance request may have, parameter by parameter: what the gate accepts, and what the
    compilers do not look at. */
module SqlParameters {
  import opened Common
  import opened SqlText
  import opened SqlGate

  /** The commands a parameter belongs to. */
  function CommandsOf(parameter: string): set<Command> {
    if parameter in {"targetFileSizeBytes", "minInputFiles", "maxFileGroupSizeBytes", "removeDanglingDeletes"} then
      {RewriteDataFiles}
    else if parameter == "rewriteAll" then {RewriteDataFiles, RewritePositionDeletes}
    else if parameter == "useCaching" then {RewriteManifests}
    else if parameter == "columns" then {ComputeStats}
    else if parameter == "olderThanHours" then {ExpireSnapshots, RemoveOrphanFiles}
    else if parameter == "retainLast" then {ExpireSnapshots}
    else if parameter == "dryRun" then {RemoveOrphanFiles}
    else if parameter == "snapshotId" then {Rollback}
    else {}
  }

  predicate Whole(v: Json, minimum: int, maximum: int) { exists n :: minimum <= n <= maximum && v == JInt(n) }

  predicate Switch(v: Json) { v == JBool(true) || v == JBool(false) }

  predicate ColumnNames(v: Json) {
    v == JNull ||
    (v.JList? && 1 <= |v.items| <= 100 &&
     forall i :: 0 <= i < |v.items| ==> v.items[i].JText? && 1 <= |v.items[i].s| <= 500)
  }

  /** What a parameter may be. */
  predicate MayBe(c: Command, parameter: string, v: Json) {
    && c in CommandsOf(parameter)
    && (parameter == "targetFileSizeBytes" ==> Whole(v, 1_048_576, 10_737_418_240))
    && (parameter == "minInputFiles" ==> Whole(v, 1, 10_000))
    && (parameter == "maxFileGroupSizeBytes" ==> Whole(v, 1_048_576, 109_951_162_777_600))
    && (parameter == "retainLast" ==> Whole(v, 1, 10_000))
    && (parameter == "snapshotId" ==> Whole(v, 1, 9_223_372_036_854_775_807))
    && (parameter == "olderThanHours" ==> Whole(v, if c == ExpireSnapshots then 120 else 72, 87_600))
    && (parameter in {"rewriteAll", "removeDanglingDeletes", "useCaching", "dryRun"} ==> Switch(v))
    && (parameter == "columns" ==> ColumnNames(v))
  }

  lemma KnownExactly(c: Command, parameter: string)
    ensures parameter in KnownParameters(c) <==> c in CommandsOf(parameter)
  {
  }

  lemma AcceptedMayBe(c: Command, p: Parameters, parameter: string)
    requires Accepted(c, p) && parameter in p
    ensures MayBe(c, parameter, p[parameter])
  {
    KnownExactly(c, parameter);
  }

  lemma NumbersAccepted(c: Command, p: Parameters)
    requires forall parameter :: parameter in p ==> MayBe(c, parameter, p[parameter])
    ensures IntegerOk(p, "targetFileSizeBytes", 1_048_576, 10_737_418_240)
    ensures IntegerOk(p, "minInputFiles", 1, 10_000)
    ensures IntegerOk(p, "maxFileGroupSizeBytes", 1_048_576, 109_951_162_777_600)
    ensures IntegerOk(p, "retainLast", 1, 10_000)
    ensures IntegerOk(p, "snapshotId", 1, 9_223_372_036_854_775_807)
    ensures HoursOk(c, p)
  {
  }

  lemma SwitchesAccepted(c: Command, p: Parameters)
    requires forall parameter :: parameter in p ==> MayBe(c, parameter, p[parameter])
    ensures BooleanOk(p, "rewriteAll") && BooleanOk(p, "removeDanglingDeletes")
    ensures BooleanOk(p, "useCaching") && BooleanOk(p, "dryRun")
    ensures ColumnsOk(p)
  {
  }

  /** The gate looks at every parameter by itself: a request is accepted exactly if each of its parameters belongs to
      the command and is one it may be. */
  lemma AcceptedExactly(c: Command, p: Parameters)
    ensures Accepted(c, p) <==> forall parameter :: parameter in p ==> MayBe(c, parameter, p[parameter])
  {
    if Accepted(c, p) {
      forall parameter | parameter in p
        ensures MayBe(c, parameter, p[parameter])
      {
        AcceptedMayBe(c, p, parameter);
      }
    }
    if forall parameter :: parameter in p ==> MayBe(c, parameter, p[parameter]) {
      NumbersAccepted(c, p);
      SwitchesAccepted(c, p);
      forall parameter | parameter in p
        ensures parameter in KnownParameters(c)
      {
        KnownExactly(c, parameter);
      }
    }
  }

  /** The two requests agree on the parameters of the command. */
  predicate Agree(c: Command, p: Parameters, q: Parameters) {
    && (forall parameter :: parameter in p && c in CommandsOf(parameter) ==>
          parameter in q && q[parameter] == p[parameter])
    && (forall parameter :: parameter in q && c in CommandsOf(parameter) ==> parameter in p)
  }

  lemma {:induction false} SameOptions(p: Parameters, q: Parameters, mappings: seq<Mapping>)
    requires forall i :: 0 <= i < |mappings| ==>
      var source := mappings[i].source;
      (source in p <==> source in q) && (source in p ==> p[source] == q[source])
    ensures Options(p, mappings) == Options(q, mappings)
    decreases |mappings|
  {
    if mappings != [] {
      SameOptions(p, q, mappings[..|mappings| - 1]);
    }
  }

  lemma SourcesBelong(c: Command, mappings: seq<Mapping>)
    requires (c == RewriteDataFiles && mappings == REWRITE_MAPPINGS) ||
      (c == RewritePositionDeletes && mappings == DELETE_MAPPINGS)
    ensures forall i :: 0 <= i < |mappings| ==> c in CommandsOf(mappings[i].source)
  {
  }

  lemma RewriteIgnores(
    catalog: string, tableArg: string, c: Command, p: Parameters, q: Parameters, stamp: nat -> string)
    requires Agree(c, p, q) && c in {RewriteDataFiles, RewritePositionDeletes}
    ensures Call(catalog, tableArg, c, p, stamp) == Call(catalog, tableArg, c, q, stamp)
  {
    var mappings := if c == RewriteDataFiles then REWRITE_MAPPINGS else DELETE_MAPPINGS;
    SourcesBelong(c, mappings);
    SameOptions(p, q, mappings);
  }

  lemma AgedIgnore(
    catalog: string, tableArg: string, c: Command, p: Parameters, q: Parameters, stamp: nat -> string)
    requires Agree(c, p, q) && c in {ExpireSnapshots, RemoveOrphanFiles}
    ensures Call(catalog, tableArg, c, p, stamp) == Call(catalog, tableArg, c, q, stamp)
  {
    assert c in CommandsOf("olderThanHours");
    if c == ExpireSnapshots {
      assert c in CommandsOf("retainLast");
    } else {
      assert c in CommandsOf("dryRun");
    }
  }

  lemma OthersIgnore(
    catalog: string, tableArg: string, c: Command, p: Parameters, q: Parameters, stamp: nat -> string)
    requires Agree(c, p, q) && c in {RewriteManifests, ComputeStats, Rollback, StorageMigration}
    ensures Call(catalog, tableArg, c, p, stamp) == Call(catalog, tableArg, c, q, stamp)
  {
    if c == RewriteManifests {
      assert c in CommandsOf("useCaching");
    } else if c == ComputeStats {
      assert c in CommandsOf("columns");
    } else if c == Rollback {
      assert c in CommandsOf("snapshotId");
    }
  }

  /** A parameter of another command changes nothing in the compiled statement. */
  lemma ForeignParametersIgnored(
    catalog: string, namespaceName: string, table: string, c: Command, p: Parameters, q: Parameters,
    stamp: nat -> string)
    requires Agree(c, p, q)
    ensures Statement(catalog, namespaceName, table, c, p, stamp) ==
      Statement(catalog, namespaceName, table, c, q, stamp)
  {
    if c in {RewriteDataFiles, RewritePositionDeletes} {
      RewriteIgnores(catalog, Literal(namespaceName + "." + table), c, p, q, stamp);
    } else if c in {ExpireSnapshots, RemoveOrphanFiles} {
      AgedIgnore(catalog, Literal(namespaceName + "." + table), c, p, q, stamp);
    } else {
      OthersIgnore(catalog, Literal(namespaceName + "." + table), c, p, q, stamp);
    }
  }
}
