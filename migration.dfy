/**
 * Option migration: renaming options in the options table, one by one or
 * a whole name group at a time, driven by two mapping tables, and run at
 * most once per migration version.
 */
module Migration {
  import opened Php
  import opened WordPress

  /** The option that records which migration version has run. */
  const MigrationVersionOption := "syncfire_migration_version"

  /** `$current_version`. */
  const CurrentVersion := "1.0"

  /** A call's result together with the options table it leaves behind. */
  datatype Step<R> = Step(result: R, values: map<string, Value>)

  /** The `error` of a result; `NoError` stands for the empty string. */
  datatype MigrationError =
    | NoError
    | OldMissing(oldName: string)
    | NewExists(newName: string)
    | UpdateFailed(newName: string)
    | NoGroupOptions(oldGroup: string)

  /** The `sprintf` text of each error. */
  function Message(e: MigrationError): string {
    match e
    case NoError => ""
    case OldMissing(n) => "Old option \"" + n + "\" does not exist"
    case NewExists(n) => "New option \"" + n + "\" already exists, not overwriting"
    case UpdateFailed(n) => "Failed to update new option \"" + n + "\""
    case NoGroupOptions(g) => "No options found in group \"" + g + "\""
  }

  /** `migrate_option`'s `{success, value_migrated, error}`. */
  datatype OptionResult = OptionResult(success: bool, valueMigrated: bool, error: MigrationError)

  /** `migrate_group`'s `{success, options_migrated, error}`. */
  datatype GroupResult = GroupResult(success: bool, optionsMigrated: seq<(string, string)>, error: MigrationError)

  datatype MigratedOption = MigratedOption(oldName: string, newName: string, valueMigrated: bool)

  datatype MigratedGroup = MigratedGroup(oldGroup: string, newGroup: string, optionsMigrated: seq<(string, string)>)

  /** `run_migration`'s `{migrated_options, migrated_groups, errors, success}`. */
  datatype Report = Report(
    migratedOptions: seq<MigratedOption>,
    migratedGroups: seq<MigratedGroup>,
    errors: seq<MigrationError>,
    success: bool)

  function Failed(error: MigrationError): OptionResult {
    OptionResult(false, false, error)
  }

  // ---------------------------------------------------------------------
  // migrate_option
  // ---------------------------------------------------------------------

  /**
   * `migrate_option($old, $new)`. An option counts as missing when
   * `get_option($name, null)` reads null. The copy goes through
   * `update_option`, which refuses to store a value equal to what the
   * option reads now (`false` for a missing option).
   */
  function MigrateOptionSpec(values: map<string, Value>, oldName: string, newName: string): Step<OptionResult> {
    var oldValue := GetOption(values, oldName, Null);
    if oldValue == Null then
      Step(Failed(OldMissing(oldName)), values)
    else if GetOption(values, newName, Null) != Null then
      Step(Failed(NewExists(newName)), values)
    else if !UpdateChanges(values, newName, oldValue) then
      Step(Failed(UpdateFailed(newName)), values)
    else
      Step(OptionResult(true, true, NoError), values[newName := oldValue] - {oldName})
  }

  /**
   * A failed rename changes nothing. It fails when the old option is
   * missing and when the new one exists; otherwise it fails only for the
   * value `false` under a name not in the table. A successful rename moves
   * the value to the new name, removes the old name and touches nothing else.
   */
  lemma MigrateOptionRules(values: map<string, Value>, oldName: string, newName: string)
    ensures var s := MigrateOptionSpec(values, oldName, newName);
      (!s.result.success ==> s.values == values && !s.result.valueMigrated && s.result.error != NoError) &&
      (GetOption(values, oldName, Null) == Null ==> !s.result.success) &&
      (GetOption(values, newName, Null) != Null ==> !s.result.success) &&
      (GetOption(values, oldName, Null) != Null && GetOption(values, newName, Null) == Null ==>
         (s.result.success <==> values[oldName] != Bool(false) || newName in values)) &&
      (s.result.success ==>
         s.result.valueMigrated && s.result.error == NoError &&
         newName in s.values && oldName in values && s.values[newName] == values[oldName] && oldName !in s.values &&
         forall k :: k != oldName && k != newName ==> (k in s.values <==> k in values) && (k in values ==> s.values[k] == values[k]))
  {
  }

  /** Renaming an option to its own name never succeeds. */
  lemma SameNameNeverMigrates(values: map<string, Value>, name: string)
    ensures !MigrateOptionSpec(values, name, name).result.success
    ensures MigrateOptionSpec(values, name, name).values == values
  {
  }

  // ---------------------------------------------------------------------
  // migrate_group
  // ---------------------------------------------------------------------

  /** `str_replace($old_group . '_', $new_group . '_', $name)`. */
  function NewName(name: string, oldGroup: string, newGroup: string): string {
    ReplaceAll(name, oldGroup + "_", newGroup + "_")
  }

  /** A name without `<old>_` in it is kept by the group rename. */
  lemma NewNameKeeps(name: string, oldGroup: string, newGroup: string)
    requires !Contains(name, oldGroup + "_")
    ensures NewName(name, oldGroup, newGroup) == name
  {
    ReplaceNone(name, oldGroup + "_", newGroup + "_");
  }

  /**
   * The group rename on a name whose first `<old>_` starts at `i`: the text before it is kept,
   * that occurrence becomes `<new>_`, and the rest of the name is renamed the same way.
   */
  lemma NewNameReplacesFirst(name: string, oldGroup: string, newGroup: string, i: nat)
    requires FirstAt(name, oldGroup + "_", i)
    ensures i + |oldGroup| + 1 <= |name|
    ensures NewName(name, oldGroup, newGroup) == name[..i] + newGroup + "_" + NewName(name[i + |oldGroup| + 1..], oldGroup, newGroup)
  {
    var pat, rep := oldGroup + "_", newGroup + "_";
    ReplaceFirst(name, pat, rep, i);
    assert name[i + |oldGroup| + 1..] == name[i + |pat|..];
    assert name[..i] + rep == name[..i] + newGroup + "_";
  }

  /** Worked instance: every occurrence of the group prefix is replaced, not only the leading one. */
  lemma NewNameEveryOccurrence()
    ensures NewName("ab_x_ab_y", "ab", "cd") == "cd_x_cd_y"
  {
    assert ReplaceAll("y", "ab_", "cd_") == "y";
    assert ReplaceAll("_y", "ab_", "cd_") == "_y";
    assert ReplaceAll("b_y", "ab_", "cd_") == "b_y";
    assert ReplaceAll("ab_y", "ab_", "cd_") == "cd_y";
    assert ReplaceAll("_ab_y", "ab_", "cd_") == "_cd_y";
    assert ReplaceAll("x_ab_y", "ab_", "cd_") == "x_cd_y";
  }

  /** The first `n` rows of the group, renamed in order, and the renames that succeeded. */
  function GroupStep(values: map<string, Value>, names: seq<string>, n: nat, oldGroup: string, newGroup: string): Step<seq<(string, string)>>
    requires n <= |names|
    decreases n
  {
    if n == 0 then Step([], values)
    else
      var prev := GroupStep(values, names, n - 1, oldGroup, newGroup);
      var newName := NewName(names[n - 1], oldGroup, newGroup);
      var s := MigrateOptionSpec(prev.values, names[n - 1], newName);
      Step(prev.result + (if s.result.success then [(names[n - 1], newName)] else []), s.values)
  }

  /** Whether the rename of row `i` succeeds, on the table the earlier rows left. */
  predicate RowMigrated(values: map<string, Value>, names: seq<string>, i: nat, oldGroup: string, newGroup: string)
    requires i < |names|
  {
    MigrateOptionSpec(GroupStep(values, names, i, oldGroup, newGroup).values, names[i], NewName(names[i], oldGroup, newGroup)).result.success
  }

  /** The `f(i)` for the `i < n` with `ok(i)`, in order. */
  function Select<T>(f: nat -> T, ok: nat -> bool, n: nat): seq<T>
    decreases n
  {
    if n == 0 then [] else Select(f, ok, n - 1) + (if ok(n - 1) then [f(n - 1)] else [])
  }

  lemma {:induction false} SelectMembers<T>(f: nat -> T, ok: nat -> bool, n: nat)
    ensures forall i :: 0 <= i < n && ok(i) ==> f(i) in Select(f, ok, n)
    ensures forall p :: p in Select(f, ok, n) ==> exists i :: 0 <= i < n && ok(i) && p == f(i)
    ensures |Select(f, ok, n)| <= n
    decreases n
  {
    if n > 0 {
      SelectMembers(f, ok, n - 1);
    }
  }

  /** The migrated list is the selection of the renamed rows. */
  lemma {:induction false} GroupStepSelect(values: map<string, Value>, names: seq<string>, n: nat, oldGroup: string, newGroup: string)
    requires n <= |names|
    ensures GroupStep(values, names, n, oldGroup, newGroup).result ==
      Select(RowPair(names, oldGroup, newGroup), RowFlag(values, names, oldGroup, newGroup), n)
    decreases n, 1
  {
    if n > 0 {
      GroupStepSelectLast(values, names, n, oldGroup, newGroup);
    }
  }

  /** The inductive step: the first `n - 1` rows by induction, then row `n - 1`. */
  lemma {:induction false} GroupStepSelectLast(values: map<string, Value>, names: seq<string>, n: nat, oldGroup: string, newGroup: string)
    requires 0 < n <= |names|
    ensures GroupStep(values, names, n, oldGroup, newGroup).result ==
      Select(RowPair(names, oldGroup, newGroup), RowFlag(values, names, oldGroup, newGroup), n)
    decreases n, 0
  {
    GroupStepSelect(values, names, n - 1, oldGroup, newGroup);
    GroupStepSelectStep(values, names, n, oldGroup, newGroup);
  }

  /** Row `n - 1` extends the migrated list exactly as it extends the selection. */
  lemma GroupStepSelectStep(values: map<string, Value>, names: seq<string>, n: nat, oldGroup: string, newGroup: string)
    requires 0 < n <= |names|
    ensures var f := RowPair(names, oldGroup, newGroup);
      var ok := RowFlag(values, names, oldGroup, newGroup);
      var tail := if ok(n - 1) then [f(n - 1)] else [];
      GroupStep(values, names, n, oldGroup, newGroup).result == GroupStep(values, names, n - 1, oldGroup, newGroup).result + tail &&
      Select(f, ok, n) == Select(f, ok, n - 1) + tail
  {
    var f := RowPair(names, oldGroup, newGroup);
    var ok := RowFlag(values, names, oldGroup, newGroup);
    var prev := GroupStep(values, names, n - 1, oldGroup, newGroup);
    var newName := NewName(names[n - 1], oldGroup, newGroup);
    var migrated := MigrateOptionSpec(prev.values, names[n - 1], newName).result.success;
    assert ok(n - 1) == migrated;
    assert f(n - 1) == (names[n - 1], newName);
  }

  function RowPair(names: seq<string>, oldGroup: string, newGroup: string): nat -> (string, string) {
    (i: nat) => if i < |names| then (names[i], NewName(names[i], oldGroup, newGroup)) else ("", "")
  }

  function RowFlag(values: map<string, Value>, names: seq<string>, oldGroup: string, newGroup: string): nat -> bool {
    (i: nat) => i < |names| && RowMigrated(values, names, i, oldGroup, newGroup)
  }

  /** The list of migrated options holds exactly the rows whose rename succeeded, in row order. */
  lemma GroupStepListsSuccesses(values: map<string, Value>, names: seq<string>, oldGroup: string, newGroup: string)
    ensures var r := GroupStep(values, names, |names|, oldGroup, newGroup).result;
      (forall i :: 0 <= i < |names| && RowMigrated(values, names, i, oldGroup, newGroup) ==>
         (names[i], NewName(names[i], oldGroup, newGroup)) in r) &&
      (forall p :: p in r ==>
         (exists i :: 0 <= i < |names| && RowMigrated(values, names, i, oldGroup, newGroup) &&
            p == (names[i], NewName(names[i], oldGroup, newGroup)))) &&
      |r| <= |names|
  {
    var f := RowPair(names, oldGroup, newGroup);
    var ok := RowFlag(values, names, oldGroup, newGroup);
    GroupStepSelect(values, names, |names|, oldGroup, newGroup);
    SelectMembers(f, ok, |names|);
    var r := GroupStep(values, names, |names|, oldGroup, newGroup).result;
    forall i | 0 <= i < |names| && RowMigrated(values, names, i, oldGroup, newGroup)
      ensures (names[i], NewName(names[i], oldGroup, newGroup)) in r
    {
      assert ok(i) && f(i) == (names[i], NewName(names[i], oldGroup, newGroup));
    }
    forall p | p in r
      ensures exists i :: (0 <= i < |names| && RowMigrated(values, names, i, oldGroup, newGroup) &&
        p == (names[i], NewName(names[i], oldGroup, newGroup)))
    {
      var i :| 0 <= i < |names| && ok(i) && p == f(i);
    }
  }

  /**
   * `migrate_group` over the rows the `LIKE 'old_group_%'` query returned:
   * an error when there are none, otherwise success with the list of
   * renames that went through.
   */
  function MigrateGroupSpec(values: map<string, Value>, names: seq<string>, oldGroup: string, newGroup: string): Step<GroupResult> {
    if names == [] then
      Step(GroupResult(false, [], NoGroupOptions(oldGroup)), values)
    else
      var s := GroupStep(values, names, |names|, oldGroup, newGroup);
      Step(GroupResult(true, s.result, NoError), s.values)
  }

  /** A group fails exactly when no option matched, and then changes nothing. */
  lemma MigrateGroupRules(values: map<string, Value>, names: seq<string>, oldGroup: string, newGroup: string)
    ensures var s := MigrateGroupSpec(values, names, oldGroup, newGroup);
      (s.result.success <==> names != []) &&
      (s.result.success <==> s.result.error == NoError) &&
      (names == [] ==> s.values == values && s.result.optionsMigrated == [])
  {
  }

  // ---------------------------------------------------------------------
  // run_migration
  // ---------------------------------------------------------------------

  const EmptyReport := Report([], [], [], true)

  /** The option renames of the first `n` entries of the name mapping. */
  function RunOptions(values: map<string, Value>, mapping: seq<(string, string)>, n: nat): Step<Report>
    requires n <= |mapping|
    decreases n
  {
    if n == 0 then Step(EmptyReport, values)
    else
      var prev := RunOptions(values, mapping, n - 1);
      var (oldName, newName) := mapping[n - 1];
      var s := MigrateOptionSpec(prev.values, oldName, newName);
      var r := prev.result;
      if s.result.success then
        Step(r.(migratedOptions := r.migratedOptions + [MigratedOption(oldName, newName, s.result.valueMigrated)]), s.values)
      else
        Step(r.(errors := r.errors + [s.result.error], success := false), s.values)
  }

  /**
   * The group migrations of the first `n` entries of the group mapping,
   * after `start`; `query(g, values)` is what the `LIKE` query for group `g`
   * returns on table `values`.
   */
  function RunGroups(start: Step<Report>, groups: seq<(string, string)>, n: nat, query: (string, map<string, Value>) -> seq<string>): Step<Report>
    requires n <= |groups|
    decreases n
  {
    if n == 0 then start
    else
      var prev := RunGroups(start, groups, n - 1, query);
      var (oldGroup, newGroup) := groups[n - 1];
      var s := MigrateGroupSpec(prev.values, query(oldGroup, prev.values), oldGroup, newGroup);
      var r := prev.result;
      if s.result.success then
        Step(r.(migratedGroups := r.migratedGroups + [MigratedGroup(oldGroup, newGroup, s.result.optionsMigrated)]), s.values)
      else
        Step(r.(errors := r.errors + [s.result.error], success := false), s.values)
  }

  function RunMigrationSpec(values: map<string, Value>, mapping: seq<(string, string)>, groups: seq<(string, string)>,
                            query: (string, map<string, Value>) -> seq<string>): Step<Report>
  {
    RunGroups(RunOptions(values, mapping, |mapping|), groups, |groups|, query)
  }

  /** Success means no error was recorded. */
  predicate Consistent(r: Report) {
    r.success <==> r.errors == []
  }

  /** Every option rename lands in exactly one of the migrated list and the errors. */
  lemma {:induction false} RunOptionsCounts(values: map<string, Value>, mapping: seq<(string, string)>, n: nat)
    requires n <= |mapping|
    ensures var r := RunOptions(values, mapping, n).result;
      Consistent(r) && r.migratedGroups == [] && |r.migratedOptions| + |r.errors| == n
    decreases n
  {
    if n > 0 {
      RunOptionsCounts(values, mapping, n - 1);
    }
  }

  /** Every group migration lands in exactly one of the migrated list and the errors. */
  lemma {:induction false} RunGroupsCounts(start: Step<Report>, groups: seq<(string, string)>, n: nat, query: (string, map<string, Value>) -> seq<string>)
    requires n <= |groups|
    requires Consistent(start.result)
    ensures var r := RunGroups(start, groups, n, query).result;
      Consistent(r) && r.migratedOptions == start.result.migratedOptions &&
      |r.migratedGroups| + |r.errors| == |start.result.migratedGroups| + |start.result.errors| + n
    decreases n
  {
    if n > 0 {
      RunGroupsCounts(start, groups, n - 1, query);
    }
  }

  /**
   * `run_migration` succeeds exactly when there is no error, and records one
   * entry, success or error, per mapping entry.
   */
  lemma RunMigrationCounts(values: map<string, Value>, mapping: seq<(string, string)>, groups: seq<(string, string)>,
                           query: (string, map<string, Value>) -> seq<string>)
    ensures var r := RunMigrationSpec(values, mapping, groups, query).result;
      (r.success <==> r.errors == []) &&
      |r.migratedOptions| + |r.migratedGroups| + |r.errors| == |mapping| + |groups|
  {
    RunOptionsCounts(values, mapping, |mapping|);
    RunGroupsCounts(RunOptions(values, mapping, |mapping|), groups, |groups|, query);
  }

  /** With both mapping tables empty nothing is migrated and the run succeeds. */
  lemma EmptyTablesMigrateNothing(values: map<string, Value>, query: (string, map<string, Value>) -> seq<string>)
    ensures RunMigrationSpec(values, [], [], query) == Step(EmptyReport, values)
  {
  }

  // ---------------------------------------------------------------------
  // version_compare($migration_version, '1.0', '<')
  // ---------------------------------------------------------------------

  function DigitsValue(s: string): nat
    requires forall i :: 0 <= i < |s| ==> '0' <= s[i] <= '9'
    decreases |s|
  {
    if s == [] then 0 else 10 * DigitsValue(s[..|s| - 1]) + (s[|s| - 1] - '0') as nat
  }

  /** One dot-separated part, when it is a non-empty run of digits. */
  function NumberPart(p: string): Option<nat> {
    if p != [] && forall i :: 0 <= i < |p| ==> '0' <= p[i] <= '9' then Some(DigitsValue(p)) else None
  }

  function NumberParts(parts: seq<string>): Option<seq<nat>>
    decreases |parts|
  {
    if parts == [] then Some([])
    else match (NumberPart(parts[0]), NumberParts(parts[1..]))
      case (Some(x), Some(xs)) => Some([x] + xs)
      case _ => None
  }

  /** A version of numbers separated by dots. */
  function ParseVersion(s: string): Option<seq<nat>> {
    NumberParts(Explode(s, '.'))
  }

  /** Part by part; when one version runs out first, the longer one is greater. */
  predicate PartsLess(a: seq<nat>, b: seq<nat>)
    decreases |a|
  {
    if b == [] then false
    else if a == [] then true
    else if a[0] != b[0] then a[0] < b[0]
    else PartsLess(a[1..], b[1..])
  }

  lemma {:induction false} PartsLessIrreflexive(a: seq<nat>)
    ensures !PartsLess(a, a)
    decreases |a|
  {
    if a != [] {
      PartsLessIrreflexive(a[1..]);
    }
  }

  /**
   * `version_compare($v, $target, '<')` for a numeric target. A version
   * that is not purely numeric counts as lower.
   */
  predicate VersionBelow(v: string, target: seq<nat>) {
    match ParseVersion(v)
    case Some(parts) => PartsLess(parts, target)
    case None => true
  }

  /** The stored option as the string `version_compare` sees. */
  function VersionString(v: Value): string {
    match v
    case Str(s) => s
    case Int(i) => IntToString(i)
    case Bool(b) => if b then "1" else ""
    case _ => ""
  }

  lemma ExplodeDigit(c: char, rest: string, sep: char)
    requires c != sep
    ensures Explode([c] + rest, sep) == [[c] + Explode(rest, sep)[0]] + Explode(rest, sep)[1..]
  {
    assert ([c] + rest)[1..] == rest;
  }

  /** The default `'0'` is below 1.0, and 1.0 itself is not. */
  lemma VersionOneZero()
    ensures ParseVersion(CurrentVersion) == Some([1, 0])
    ensures VersionBelow("0", [1, 0])
    ensures !VersionBelow(CurrentVersion, [1, 0])
  {
    assert ['0'] + "" == "0";
    ExplodeDigit('0', "", '.');
    assert Explode("0", '.') == ["0"];
    assert ".0"[1..] == "0";
    assert Explode(".0", '.') == ["", "0"];
    assert ['1'] + ".0" == "1.0" && ['1'] + "" == "1";
    ExplodeDigit('1', ".0", '.');
    assert Explode("1.0", '.') == ["1", "0"];
    assert "1"[..0] == "" && "0"[..0] == "";
    assert DigitsValue("1") == 1 && DigitsValue("0") == 0;
    assert NumberPart("1") == Some(1) && NumberPart("0") == Some(0);
    assert ["0"][1..] == [] && ["0"][0] == "0" && [0] + [] == [0];
    assert NumberParts([]) == Some([]);
    assert NumberParts(["0"]) == Some([0]);
    assert ["1", "0"][1..] == ["0"] && ["1", "0"][0] == "1" && [1] + [0] == [1, 0];
    assert NumberParts(["1", "0"]) == Some([1, 0]);
    PartsLessIrreflexive([1, 0]);
  }

  /** `SyncFire_Migration`: the two static mapping tables over the options table. */
  class Migration {
    var optionNameMapping: seq<(string, string)>
    var optionGroupMapping: seq<(string, string)>
    const store: OptionStore

    /** Both tables start empty. */
    constructor (store: OptionStore)
      ensures this.store == store && optionNameMapping == [] && optionGroupMapping == []
    {
      this.store := store;
      optionNameMapping := [];
      optionGroupMapping := [];
    }

    /** `add_option_mapping`: insert or overwrite the entry for `oldName`. */
    method AddOptionMapping(oldName: string, newName: string)
      modifies this
      ensures optionNameMapping == Assign(old(optionNameMapping), oldName, newName)
      ensures optionGroupMapping == old(optionGroupMapping)
    {
      optionNameMapping := Assign(optionNameMapping, oldName, newName);
    }

    /** `add_group_mapping`: insert or overwrite the entry for `oldGroup`. */
    method AddGroupMapping(oldGroup: string, newGroup: string)
      modifies this
      ensures optionGroupMapping == Assign(old(optionGroupMapping), oldGroup, newGroup)
      ensures optionNameMapping == old(optionNameMapping)
    {
      optionGroupMapping := Assign(optionGroupMapping, oldGroup, newGroup);
    }

    /** `migrate_option`. */
    method MigrateOption(oldName: string, newName: string) returns (r: OptionResult)
      modifies store
      ensures var s := MigrateOptionSpec(old(store.values), oldName, newName);
        r == s.result && store.values == s.values
    {
      var oldValue := GetOption(store.values, oldName, Null);
      if oldValue == Null {
        return Failed(OldMissing(oldName));
      }
      var newValue := GetOption(store.values, newName, Null);
      if newValue != Null {
        return Failed(NewExists(newName));
      }
      var updated := store.Update(newName, oldValue);
      if !updated {
        return Failed(UpdateFailed(newName));
      }
      store.Delete(oldName);
      r := OptionResult(true, true, NoError);
    }

    /** `migrate_group`, given the rows its `LIKE` query returned. */
    method MigrateGroup(oldGroup: string, newGroup: string, names: seq<string>) returns (r: GroupResult)
      modifies store
      ensures var s := MigrateGroupSpec(old(store.values), names, oldGroup, newGroup);
        r == s.result && store.values == s.values
    {
      if names == [] {
        return GroupResult(false, [], NoGroupOptions(oldGroup));
      }
      ghost var start := store.values;
      var migrated: seq<(string, string)> := [];
      var i := 0;
      while i < |names|
        invariant 0 <= i <= |names|
        invariant GroupStep(start, names, i, oldGroup, newGroup) == Step(migrated, store.values)
      {
        var oldName := names[i];
        var newName := NewName(oldName, oldGroup, newGroup);
        ghost var before := store.values;
        var result := MigrateOption(oldName, newName);
        assert GroupStep(start, names, i + 1, oldGroup, newGroup) ==
          Step(migrated + (if result.success then [(oldName, newName)] else []), store.values);
        if result.success {
          migrated := migrated + [(oldName, newName)];
        } else {
          assert migrated + [] == migrated;
        }
        i := i + 1;
      }
      r := GroupResult(true, migrated, NoError);
    }

    /** `run_migration`: every option rename, then every group migration. */
    method RunMigration(query: (string, map<string, Value>) -> seq<string>) returns (report: Report)
      modifies store
      ensures var s := RunMigrationSpec(old(store.values), optionNameMapping, optionGroupMapping, query);
        report == s.result && store.values == s.values
    {
      ghost var start := store.values;
      report := EmptyReport;
      var i := 0;
      while i < |optionNameMapping|
        invariant 0 <= i <= |optionNameMapping|
        invariant RunOptions(start, optionNameMapping, i) == Step(report, store.values)
      {
        var (oldName, newName) := optionNameMapping[i];
        var result := MigrateOption(oldName, newName);
        if result.success {
          report := report.(migratedOptions := report.migratedOptions + [MigratedOption(oldName, newName, result.valueMigrated)]);
        } else {
          report := report.(errors := report.errors + [result.error], success := false);
        }
        i := i + 1;
      }
      ghost var afterOptions := Step(report, store.values);
      var j := 0;
      while j < |optionGroupMapping|
        invariant 0 <= j <= |optionGroupMapping|
        invariant RunGroups(afterOptions, optionGroupMapping, j, query) == Step(report, store.values)
      {
        var (oldGroup, newGroup) := optionGroupMapping[j];
        var names := query(oldGroup, store.values);
        var result := MigrateGroup(oldGroup, newGroup, names);
        if result.success {
          report := report.(migratedGroups := report.migratedGroups + [MigratedGroup(oldGroup, newGroup, result.optionsMigrated)]);
        } else {
          report := report.(errors := report.errors + [result.error], success := false);
        }
        j := j + 1;
      }
    }

    /**
     * `syncfire_maybe_run_migration`: runs only below version 1.0 and then
     * records 1.0 whatever the outcome; a failed run queues the failure notice.
     */
    method MaybeRunMigration(query: (string, map<string, Value>) -> seq<string>) returns (ran: bool, failureNotice: bool)
      modifies store
      ensures ran <==> VersionBelow(VersionString(GetOption(old(store.values), MigrationVersionOption, Str("0"))), [1, 0])
      ensures var s := RunMigrationSpec(old(store.values), optionNameMapping, optionGroupMapping, query);
        ran ==> store.values == UpdatedStore(s.values, MigrationVersionOption, Str(CurrentVersion)) &&
                failureNotice == !s.result.success
      ensures !ran ==> store.values == old(store.values) && !failureNotice
    {
      var migrationVersion := GetOption(store.values, MigrationVersionOption, Str("0"));
      ran := VersionBelow(VersionString(migrationVersion), [1, 0]);
      failureNotice := false;
      if ran {
        var results := RunMigration(query);
        var _ := store.Update(MigrationVersionOption, Str(CurrentVersion));
        failureNotice := !results.success;
      }
    }
  }

  /** Once a run has recorded the version, the next check does not run again. */
  lemma RunsOnce(values: map<string, Value>)
    ensures !VersionBelow(VersionString(GetOption(UpdatedStore(values, MigrationVersionOption, Str(CurrentVersion)), MigrationVersionOption, Str("0"))), [1, 0])
  {
    VersionOneZero();
  }
}
