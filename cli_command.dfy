/**
 * The `wp syncfire` command: the subcommands that edit the sync
 * configuration. The three list options (`syncfire_taxonomies_to_sync`,
 * `syncfire_post_types_to_sync`, `syncfire_post_type_fields`) are the
 * fields of a `Command`; `config` writes the scalar Firebase options to the
 * options table. What WordPress knows about registered taxonomies and post
 * types is a `Registry` input.
 */
module CliCommand {
  import opened Php
  import opened WordPress
  import opened Options
  import Firestore
  import Functions

  /** `taxonomy_exists`, `post_type_exists` and the public names `get_taxonomies`/`get_post_types` list. */
  datatype Registry = Registry(
    taxonomyExists: string -> bool,
    postTypeExists: string -> bool,
    publicTaxonomies: seq<string>,
    publicPostTypes: seq<string>)

  // ---------------------------------------------------------------------
  // enable / disable
  // ---------------------------------------------------------------------

  /** `if (!in_array($x, $current)) $current[] = $x;` */
  function AddIfAbsent(current: seq<string>, x: string): seq<string> {
    if x in current then current else current + [x]
  }

  /** The name is present afterwards, nothing before it moved and nothing got duplicated. */
  lemma AddIfAbsentSpec(current: seq<string>, x: string)
    ensures var r := AddIfAbsent(current, x);
      x in r && current <= r && |r| <= |current| + 1 &&
      (forall y :: y in r ==> y in current || y == x) &&
      (Distinct(current) ==> Distinct(r))
  {
  }

  /** The names `enable` works through: every public one with `--all`, else the arguments. */
  function ToAdd(args: seq<string>, all: bool, public: seq<string>): seq<string> {
    if all then public else args
  }

  /** The list after the first `n` names of `toAdd` were enabled; unknown names are skipped. */
  function Enabled(current: seq<string>, toAdd: seq<string>, known: string -> bool, n: nat): seq<string>
    requires n <= |toAdd|
    decreases n
  {
    if n == 0 then current
    else
      var prev := Enabled(current, toAdd, known, n - 1);
      var x := toAdd[n - 1];
      if known(x) then AddIfAbsent(prev, x) else prev
  }

  /**
   * Enabling keeps the former list as a prefix, adds every existing
   * requested name, adds nothing else and never creates a duplicate.
   */
  lemma {:induction false} EnabledProperties(current: seq<string>, toAdd: seq<string>, known: string -> bool, n: nat)
    requires n <= |toAdd|
    ensures var r := Enabled(current, toAdd, known, n);
      current <= r &&
      (forall i :: 0 <= i < n && known(toAdd[i]) ==> toAdd[i] in r) &&
      (forall y :: y in r ==> y in current || (y in toAdd && known(y))) &&
      (Distinct(current) ==> Distinct(r)) &&
      |r| <= |current| + n
    decreases n
  {
    if n > 0 {
      EnabledProperties(current, toAdd, known, n - 1);
      var prev := Enabled(current, toAdd, known, n - 1);
      AddIfAbsentSpec(prev, toAdd[n - 1]);
    }
  }

  /** `array_search` then `unset`: the first occurrence of `x` goes, the rest keeps its order. */
  function RemoveFirst(s: seq<string>, x: string): seq<string>
    decreases |s|
  {
    if s == [] then []
    else if s[0] == x then s[1..]
    else [s[0]] + RemoveFirst(s[1..], x)
  }

  /** The position of the first `x`, as `array_search` finds it. */
  function FirstIndex(s: seq<string>, x: string): (i: nat)
    requires x in s
    ensures i < |s| && s[i] == x && x !in s[..i]
    decreases |s|
  {
    if s[0] == x then 0
    else
      var j := FirstIndex(s[1..], x);
      assert s[..j + 1] == [s[0]] + s[1..][..j];
      j + 1
  }

  /** Without `x` the list is unchanged; with it, exactly its first occurrence is cut out. */
  lemma {:induction false} RemoveFirstShape(s: seq<string>, x: string)
    ensures x !in s ==> RemoveFirst(s, x) == s
    ensures x in s ==> RemoveFirst(s, x) == s[..FirstIndex(s, x)] + s[FirstIndex(s, x) + 1..]
    decreases |s|
  {
    if s != [] && s[0] != x {
      var t := s[1..];
      RemoveFirstShape(t, x);
      assert s == [s[0]] + t;
      if x in t {
        var j := FirstIndex(t, x);
        assert FirstIndex(s, x) == j + 1;
        assert RemoveFirst(t, x) == t[..j] + t[j + 1..];
        assert s[..j + 1] == [s[0]] + t[..j];
        assert s[j + 2..] == t[j + 1..];
        assert RemoveFirst(s, x) == ([s[0]] + t[..j]) + t[j + 1..];
      }
    }
  }

  /** Nothing but entries of `s` remains. */
  lemma {:induction false} RemoveFirstSubset(s: seq<string>, x: string)
    ensures forall y :: y in RemoveFirst(s, x) ==> y in s
    decreases |s|
  {
    if s != [] && s[0] != x {
      RemoveFirstSubset(s[1..], x);
    }
  }

  /** One occurrence of `x`, if any, leaves; every other entry stays. */
  lemma {:induction false} RemoveFirstMultiset(s: seq<string>, x: string)
    ensures multiset(RemoveFirst(s, x)) == multiset(s) - multiset{x}
    ensures forall y :: y in RemoveFirst(s, x) ==> y in s
    decreases |s|
  {
    RemoveFirstSubset(s, x);
    if s != [] {
      var t := s[1..];
      assert s == [s[0]] + t;
      assert multiset(s) == multiset{s[0]} + multiset(t);
      if s[0] != x {
        RemoveFirstMultiset(t, x);
        assert RemoveFirst(s, x) == [s[0]] + RemoveFirst(t, x);
        AddBeforeRemove(multiset(t), s[0], x);
      }
    }
  }

  /** Adding `a` and then removing a different `x` is removing first. */
  lemma AddBeforeRemove(m: multiset<string>, a: string, x: string)
    requires a != x
    ensures multiset{a} + (m - multiset{x}) == (multiset{a} + m) - multiset{x}
  {
    forall e ensures (multiset{a} + (m - multiset{x}))[e] == ((multiset{a} + m) - multiset{x})[e] {
    }
  }

  /** On a list without duplicates, `x` is gone afterwards and no duplicate appears. */
  lemma {:induction false} RemoveFirstDistinct(s: seq<string>, x: string)
    requires Distinct(s)
    ensures x !in RemoveFirst(s, x) && Distinct(RemoveFirst(s, x))
    decreases |s|
  {
    if s != [] {
      var t := s[1..];
      assert Distinct(t) by {
        forall i, j | 0 <= i < j < |t| ensures t[i] != t[j] {
          assert t[i] == s[i + 1] && t[j] == s[j + 1];
        }
      }
      assert s[0] !in t by {
        forall k | 0 <= k < |t| ensures t[k] != s[0] {
          assert t[k] == s[k + 1];
        }
      }
      if s[0] != x {
        RemoveFirstDistinct(t, x);
        RemoveFirstSubset(t, x);
        var rt := RemoveFirst(t, x);
        var r := [s[0]] + rt;
        assert RemoveFirst(s, x) == r;
        forall i, j | 0 <= i < j < |r| ensures r[i] != r[j] {
          assert r[j] == rt[j - 1];
          if i > 0 {
            assert r[i] == rt[i - 1];
          } else {
            assert rt[j - 1] in t;
          }
        }
      }
    }
  }

  /** The list after the first `n` arguments were disabled. */
  function Disabled(current: seq<string>, names: seq<string>, n: nat): seq<string>
    requires n <= |names|
    decreases n
  {
    if n == 0 then current else RemoveFirst(Disabled(current, names, n - 1), names[n - 1])
  }

  /** Disabling removes one occurrence per argument and keeps everything else. */
  lemma {:induction false} DisabledMultiset(current: seq<string>, names: seq<string>, n: nat)
    requires n <= |names|
    ensures multiset(Disabled(current, names, n)) == multiset(current) - multiset(names[..n])
    decreases n
  {
    if n > 0 {
      DisabledMultiset(current, names, n - 1);
      RemoveFirstMultiset(Disabled(current, names, n - 1), names[n - 1]);
      assert names[..n] == names[..n - 1] + [names[n - 1]];
      RemoveTwice(multiset(current), multiset(names[..n - 1]), names[n - 1]);
    }
  }

  /** Removing `b` and then `x` is removing `b` and `x` together. */
  lemma RemoveTwice(a: multiset<string>, b: multiset<string>, x: string)
    ensures (a - b) - multiset{x} == a - (b + multiset{x})
  {
    forall e ensures ((a - b) - multiset{x})[e] == (a - (b + multiset{x}))[e] {
    }
  }

  /** On a list without duplicates the disabled names are gone and no duplicate appears. */
  lemma {:induction false} DisabledDistinct(current: seq<string>, names: seq<string>, n: nat)
    requires n <= |names| && Distinct(current)
    ensures Distinct(Disabled(current, names, n))
    ensures forall i :: 0 <= i < n ==> names[i] !in Disabled(current, names, n)
    decreases n
  {
    if n > 0 {
      DisabledDistinct(current, names, n - 1);
      var prev := Disabled(current, names, n - 1);
      var r := Disabled(current, names, n);
      RemoveFirstDistinct(prev, names[n - 1]);
      RemoveFirstSubset(prev, names[n - 1]);
      forall i | 0 <= i < n ensures names[i] !in r {
        if i < n - 1 {
          assert names[i] !in prev;
        }
      }
    }
  }

  // ---------------------------------------------------------------------
  // field lists
  // ---------------------------------------------------------------------

  /** `$current_fields[$t] = $fields` for the first `n` types of `toAdd`. */
  function WithFields(fieldMap: seq<(string, seq<string>)>, toAdd: seq<string>, fields: seq<string>, n: nat): seq<(string, seq<string>)>
    requires n <= |toAdd|
    decreases n
  {
    if n == 0 then fieldMap else Assign(WithFields(fieldMap, toAdd, fields, n - 1), toAdd[n - 1], fields)
  }

  /** Every requested type gets the list, existing or not; other types keep theirs. */
  lemma {:induction false} WithFieldsLookup(fieldMap: seq<(string, seq<string>)>, toAdd: seq<string>, fields: seq<string>, n: nat, t: string)
    requires n <= |toAdd|
    ensures Lookup(WithFields(fieldMap, toAdd, fields, n), t) ==
      if t in toAdd[..n] then Some(fields) else Lookup(fieldMap, t)
    decreases n
  {
    if n > 0 {
      WithFieldsLookup(fieldMap, toAdd, fields, n - 1, t);
      AssignLookup(WithFields(fieldMap, toAdd, fields, n - 1), toAdd[n - 1], fields, t);
      assert toAdd[..n] == toAdd[..n - 1] + [toAdd[n - 1]];
    }
  }

  /** `array_unique`: the first occurrence of each value, in order. */
  function Unique(s: seq<string>): seq<string>
    decreases |s|
  {
    if s == [] then []
    else
      var r := Unique(s[..|s| - 1]);
      if s[|s| - 1] in r then r else r + [s[|s| - 1]]
  }

  /**
   * `array_unique` keeps every value once and nothing else; a list without
   * duplicates comes back unchanged, and the result on a prefix is a prefix
   * of the result.
   */
  lemma {:induction false} UniqueSpec(s: seq<string>)
    ensures Distinct(Unique(s))
    ensures forall x :: x in Unique(s) <==> x in s
    ensures Distinct(s) ==> Unique(s) == s
    decreases |s|
  {
    if s != [] {
      var init := s[..|s| - 1];
      UniqueSpec(init);
      assert s == init + [s[|s| - 1]];
      if Distinct(s) {
        assert Distinct(init) by {
          forall a, b | 0 <= a < b < |init| ensures init[a] != init[b] {
            assert init[a] == s[a] && init[b] == s[b];
          }
        }
        assert s[|s| - 1] !in init by {
          forall k | 0 <= k < |init| ensures init[k] != s[|s| - 1] {
            assert init[k] == s[k];
          }
        }
      }
    }
  }

  lemma {:induction false} UniquePrefix(a: seq<string>, b: seq<string>)
    ensures Unique(a) <= Unique(a + b)
    decreases |b|
  {
    if b == [] {
      assert a + b == a;
    } else {
      var init := b[..|b| - 1];
      UniquePrefix(a, init);
      assert (a + b)[..|a + b| - 1] == a + init;
    }
  }

  /** An `--add` keeps the old list in front and adds each new field once. */
  lemma AddFieldsKeepsOrder(existing: seq<string>, fields: seq<string>)
    requires Distinct(existing)
    ensures var r := Unique(existing + fields);
      existing <= r && Distinct(r) && (forall x :: x in r <==> x in existing || x in fields)
  {
    UniqueSpec(existing);
    UniqueSpec(existing + fields);
    UniquePrefix(existing, fields);
  }

  /** `array_diff($a, $b)`: the entries of `a` not in `b`, in order. */
  function Diff(a: seq<string>, b: seq<string>): seq<string>
    decreases |a|
  {
    if a == [] then []
    else
      var rest := Diff(a[1..], b);
      if a[0] in b then rest else [a[0]] + rest
  }

  /** Every occurrence of a removed field goes; all other entries stay. */
  lemma {:induction false} DiffSpec(a: seq<string>, b: seq<string>)
    ensures forall x :: x in Diff(a, b) <==> x in a && x !in b
    ensures |Diff(a, b)| <= |a|
    ensures b == [] ==> Diff(a, b) == a
    decreases |a|
  {
    if a != [] {
      DiffSpec(a[1..], b);
      assert a == [a[0]] + a[1..];
    }
  }

  /** The list stored for a type, `[]` when there is none. */
  function FieldsOf(fieldMap: seq<(string, seq<string>)>, t: string): seq<string> {
    match Lookup(fieldMap, t)
    case Some(fs) => fs
    case None => []
  }

  /** What `post-type fields` was asked to do. */
  datatype FieldsAction = SetFields(set_: string) | AddFields(add: string) | RemoveFields(remove: string) | ListFields

  /**
   * The action chosen from the `--set`, `--add` and `--remove` flags: the
   * first one given in that order wins and the later ones are ignored; with
   * none of them the fields are listed.
   */
  function FieldsActionOf(set_: Option<string>, add: Option<string>, remove: Option<string>): (a: FieldsAction)
    ensures a.SetFields? <==> set_.Some?
    ensures a.AddFields? <==> set_.None? && add.Some?
    ensures a.RemoveFields? <==> set_.None? && add.None? && remove.Some?
    ensures a.ListFields? <==> set_.None? && add.None? && remove.None?
  {
    if set_.Some? then SetFields(set_.value)
    else if add.Some? then AddFields(add.value)
    else if remove.Some? then RemoveFields(remove.value)
    else ListFields
  }

  /** A flag that wins carries its own value, whatever the ignored flags say. */
  lemma FieldsActionPriority(s: string, a: string, r: string, add: Option<string>, remove: Option<string>,
                             add': Option<string>, remove': Option<string>)
    ensures FieldsActionOf(Some(s), add, remove) == FieldsActionOf(Some(s), add', remove') == SetFields(s)
    ensures FieldsActionOf(None, Some(a), remove) == FieldsActionOf(None, Some(a), remove') == AddFields(a)
    ensures FieldsActionOf(None, None, Some(r)) == RemoveFields(r)
  {
  }

  datatype FieldsOutcome =
    | NoPostTypeGiven                 // "Please specify a post type slug"
    | UnknownPostType(postType: string)
    | FieldsSet(fields: seq<string>)
    | FieldsAdded(fields: seq<string>)
    | FieldsRemoved(fields: seq<string>)
    | NothingToRemove                 // `--remove` on a type without a list
    | Listed(fields: seq<string>)

  /** The field map `post-type fields` leaves for a type that exists. */
  function FieldsAfter(fieldMap: seq<(string, seq<string>)>, t: string, action: FieldsAction): seq<(string, seq<string>)> {
    match action
    case SetFields(arg) => Assign(fieldMap, t, Explode(arg, ','))
    case AddFields(arg) => Assign(fieldMap, t, Unique(FieldsOf(fieldMap, t) + Explode(arg, ',')))
    case RemoveFields(arg) =>
      if Lookup(fieldMap, t).Some? then Assign(fieldMap, t, Diff(FieldsOf(fieldMap, t), Explode(arg, ','))) else fieldMap
    case ListFields => fieldMap
  }

  /**
   * `--set` replaces the list, `--add` appends the new fields once each
   * after the old ones, `--remove` drops every occurrence and only touches
   * a type that has a list, listing changes nothing; no other type's list
   * changes.
   */
  lemma FieldsAfterSpec(fieldMap: seq<(string, seq<string>)>, t: string, action: FieldsAction, other: string)
    requires other != t
    ensures Lookup(FieldsAfter(fieldMap, t, action), other) == Lookup(fieldMap, other)
    ensures action.SetFields? ==> Lookup(FieldsAfter(fieldMap, t, action), t) == Some(Explode(action.set_, ','))
    ensures action.AddFields? && Distinct(FieldsOf(fieldMap, t)) ==>
      var r := FieldsOf(FieldsAfter(fieldMap, t, action), t);
      FieldsOf(fieldMap, t) <= r && Distinct(r) &&
      forall x :: x in r <==> x in FieldsOf(fieldMap, t) || x in Explode(action.add, ',')
    ensures action.RemoveFields? ==>
      (Lookup(fieldMap, t).None? ==> FieldsAfter(fieldMap, t, action) == fieldMap) &&
      forall x :: x in FieldsOf(FieldsAfter(fieldMap, t, action), t) <==>
        x in FieldsOf(fieldMap, t) && x !in Explode(action.remove, ',')
    ensures action.ListFields? ==> FieldsAfter(fieldMap, t, action) == fieldMap
  {
    match action
    case SetFields(arg) =>
      AssignLookup(fieldMap, t, Explode(arg, ','), other);
      AssignLookup(fieldMap, t, Explode(arg, ','), t);
    case AddFields(arg) =>
      var r := Unique(FieldsOf(fieldMap, t) + Explode(arg, ','));
      AssignLookup(fieldMap, t, r, other);
      AssignLookup(fieldMap, t, r, t);
      if Distinct(FieldsOf(fieldMap, t)) {
        AddFieldsKeepsOrder(FieldsOf(fieldMap, t), Explode(arg, ','));
      }
    case RemoveFields(arg) =>
      var r := Diff(FieldsOf(fieldMap, t), Explode(arg, ','));
      AssignLookup(fieldMap, t, r, other);
      AssignLookup(fieldMap, t, r, t);
      DiffSpec(FieldsOf(fieldMap, t), Explode(arg, ','));
    case ListFields =>
  }

  // ---------------------------------------------------------------------
  // config
  // ---------------------------------------------------------------------

  /**
   * The options `config` accepts: `--project-id`, `--database-id`,
   * `--api-key`, `--auth-domain`, `--storage-bucket`, `--service-account`,
   * `--emulator`, `--emulator-host`, `--emulator-port`.
   */
  datatype ConfigArg =
    | ProjectIdArg | DatabaseIdArg | ApiKeyArg | AuthDomainArg | StorageBucketArg
    | ServiceAccountArg | EmulatorArg | EmulatorHostArg | EmulatorPortArg

  /** The option an argument writes. */
  function OptionOf(a: ConfigArg): string {
    match a
    case ProjectIdArg => FirebaseProjectId
    case DatabaseIdArg => FirebaseDatabaseId
    case ApiKeyArg => FirebaseApiKey
    case AuthDomainArg => FirebaseAuthDomain
    case StorageBucketArg => FirebaseStorageBucket
    case ServiceAccountArg => FirebaseServiceAccount
    case EmulatorArg => FirestoreEmulatorEnabled
    case EmulatorHostArg => FirestoreEmulatorHost
    case EmulatorPortArg => FirestoreEmulatorPort
  }

  /** The label an argument adds to the "Updated: ..." line. */
  function CaptionOf(a: ConfigArg): string {
    match a
    case ProjectIdArg => "Project ID"
    case DatabaseIdArg => "Database ID"
    case ApiKeyArg => "API Key"
    case AuthDomainArg => "Auth Domain"
    case StorageBucketArg => "Storage Bucket"
    case ServiceAccountArg => "Service Account"
    case EmulatorArg => "Emulator Enabled"
    case EmulatorHostArg => "Emulator Host"
    case EmulatorPortArg => "Emulator Port"
  }

  /** The order in which `config` handles its arguments. */
  const ConfigOrder: seq<ConfigArg> := [
    ProjectIdArg, DatabaseIdArg, ApiKeyArg, AuthDomainArg, StorageBucketArg,
    ServiceAccountArg, EmulatorArg, EmulatorHostArg, EmulatorPortArg]

  /** No argument is handled twice. */
  lemma ConfigOrderDistinct()
    ensures Distinct(ConfigOrder)
  {
  }

  /** Every argument is handled. */
  lemma ConfigOrderComplete()
    ensures forall a: ConfigArg :: a in ConfigOrder
  {
    forall a: ConfigArg ensures a in ConfigOrder {
      var i := match a
        case ProjectIdArg => 0 case DatabaseIdArg => 1 case ApiKeyArg => 2
        case AuthDomainArg => 3 case StorageBucketArg => 4 case ServiceAccountArg => 5
        case EmulatorArg => 6 case EmulatorHostArg => 7 case EmulatorPortArg => 8;
      assert ConfigOrder[i] == a;
    }
  }

  /** Each argument writes an option of its own. */
  lemma ConfigOptionsDistinct()
    ensures forall a, b :: a != b ==> OptionOf(a) != OptionOf(b)
  {
  }

  /** What reading the service-account file gives: no file, or its text and whether it is valid JSON. */
  datatype FileRead = NotFound | Contents(text: string, validJson: bool)

  datatype ConfigError = FileNotFound(path: string) | InvalidJson

  /** The arguments stored so far (each one label), the options table, and the error that stopped the command, if any. */
  datatype ConfigState = ConfigState(handled: seq<ConfigArg>, values: map<string, Value>, error: Option<ConfigError>)

  datatype Either<L, R> = Left(left: L) | Right(right: R)

  /** The value an argument stores for its text, or the error it raises. */
  function EntryValue(a: ConfigArg, text: string, readFile: string -> FileRead): Either<ConfigError, Value> {
    match a
    case ServiceAccountArg =>
      (match readFile(text)
       case NotFound => Left(FileNotFound(text))
       case Contents(json, valid) => if valid then Right(Str(json)) else Left(InvalidJson))
    case EmulatorArg => Right(Bool(true))
    case _ => Right(Str(text))
  }

  /** Handling one argument: skipped when absent or after an error. */
  function ConfigStep(s: ConfigState, a: ConfigArg, assoc: map<ConfigArg, string>, readFile: string -> FileRead): ConfigState {
    if s.error.Some? || a !in assoc then s
    else match EntryValue(a, assoc[a], readFile)
      case Left(err) => s.(error := Some(err))
      case Right(v) => ConfigState(s.handled + [a], UpdatedStore(s.values, OptionOf(a), v), None)
  }

  /** The first `n` arguments of `ConfigOrder` handled in turn. */
  function ConfigFold(values: map<string, Value>, assoc: map<ConfigArg, string>, readFile: string -> FileRead, n: nat): ConfigState
    requires n <= |ConfigOrder|
    decreases n
  {
    if n == 0 then ConfigState([], values, None)
    else ConfigStep(ConfigFold(values, assoc, readFile, n - 1), ConfigOrder[n - 1], assoc, readFile)
  }

  lemma ConfigAdvance(values: map<string, Value>, assoc: map<ConfigArg, string>, readFile: string -> FileRead, n: nat, s: ConfigState)
    requires n < |ConfigOrder| && ConfigFold(values, assoc, readFile, n) == s
    ensures ConfigFold(values, assoc, readFile, n + 1) == ConfigStep(s, ConfigOrder[n], assoc, readFile)
  {
  }

  /** Once an error is raised, the remaining arguments change nothing. */
  lemma {:induction false} ConfigErrorStops(values: map<string, Value>, assoc: map<ConfigArg, string>, readFile: string -> FileRead, n: nat, m: nat)
    requires n <= m <= |ConfigOrder| && ConfigFold(values, assoc, readFile, n).error.Some?
    ensures ConfigFold(values, assoc, readFile, m) == ConfigFold(values, assoc, readFile, n)
    decreases m
  {
    if m > n {
      ConfigErrorStops(values, assoc, readFile, n, m - 1);
    }
  }

  datatype ConfigOutcome = ConfigFailed(error: ConfigError) | NoOptions | Updated(handled: seq<ConfigArg>)

  function ConfigOutcomeOf(s: ConfigState): ConfigOutcome {
    if s.error.Some? then ConfigFailed(s.error.value)
    else if s.handled == [] then NoOptions
    else Updated(s.handled)
  }

  /** The labels of the "Updated: ..." line, one per stored argument, in order. */
  function Captions(handled: seq<ConfigArg>): (cs: seq<string>)
    ensures |cs| == |handled| && forall i :: 0 <= i < |handled| ==> cs[i] == CaptionOf(handled[i])
  {
    seq(|handled|, i requires 0 <= i < |handled| => CaptionOf(handled[i]))
  }

  /**
   * Without an error, every provided argument's option reads back the value
   * given for it and its label is reported; there is at most one label per
   * argument.
   */
  lemma {:induction false} ConfigStores(values: map<string, Value>, assoc: map<ConfigArg, string>, readFile: string -> FileRead, n: nat)
    requires n <= |ConfigOrder|
    ensures var s := ConfigFold(values, assoc, readFile, n);
      s.error.None? ==>
        |s.handled| <= n && (forall a :: a in s.handled ==> a in assoc) &&
        forall i :: 0 <= i < n && ConfigOrder[i] in assoc ==>
          ConfigOrder[i] in s.handled &&
          EntryValue(ConfigOrder[i], assoc[ConfigOrder[i]], readFile).Right? &&
          GetOption(s.values, OptionOf(ConfigOrder[i]), Bool(false)) == EntryValue(ConfigOrder[i], assoc[ConfigOrder[i]], readFile).right
    decreases n, 1
  {
    if n > 0 {
      ConfigStoresLast(values, assoc, readFile, n);
    }
  }

  /** The inductive step of `ConfigStores`: the first `n - 1` arguments by induction, then argument `n - 1`. */
  lemma {:induction false} ConfigStoresLast(values: map<string, Value>, assoc: map<ConfigArg, string>, readFile: string -> FileRead, n: nat)
    requires 0 < n <= |ConfigOrder|
    ensures var s := ConfigFold(values, assoc, readFile, n);
      s.error.None? ==>
        |s.handled| <= n && (forall a :: a in s.handled ==> a in assoc) &&
        forall i :: 0 <= i < n && ConfigOrder[i] in assoc ==>
          ConfigOrder[i] in s.handled &&
          EntryValue(ConfigOrder[i], assoc[ConfigOrder[i]], readFile).Right? &&
          GetOption(s.values, OptionOf(ConfigOrder[i]), Bool(false)) == EntryValue(ConfigOrder[i], assoc[ConfigOrder[i]], readFile).right
    decreases n, 0
  {
    ConfigStores(values, assoc, readFile, n - 1);
    var prev := ConfigFold(values, assoc, readFile, n - 1);
    var s := ConfigFold(values, assoc, readFile, n);
    var a := ConfigOrder[n - 1];
    if s.error.None? {
      assert prev.error.None?;
      ConfigStepFacts(prev, a, assoc, readFile);
      forall i | 0 <= i < n && ConfigOrder[i] in assoc
        ensures ConfigOrder[i] in s.handled
        ensures EntryValue(ConfigOrder[i], assoc[ConfigOrder[i]], readFile).Right?
        ensures GetOption(s.values, OptionOf(ConfigOrder[i]), Bool(false)) == EntryValue(ConfigOrder[i], assoc[ConfigOrder[i]], readFile).right
      {
        if i < n - 1 {
          ConfigOptionApart(i, n - 1);
        }
      }
    }
  }

  /** Two different places of `ConfigOrder` write two different options. */
  lemma ConfigOptionApart(i: nat, j: nat)
    requires i < |ConfigOrder| && j < |ConfigOrder| && i != j
    ensures OptionOf(ConfigOrder[i]) != OptionOf(ConfigOrder[j])
  {
    ConfigOrderDistinct();
    ConfigOptionsDistinct();
  }

  /** One error-free step stores its argument's value and leaves every other option as it was. */
  lemma ConfigStepFacts(prev: ConfigState, a: ConfigArg, assoc: map<ConfigArg, string>, readFile: string -> FileRead)
    requires prev.error.None?
    ensures var s := ConfigStep(prev, a, assoc, readFile);
      s.error.None? ==>
        s.handled == prev.handled + (if a in assoc then [a] else []) &&
        (a in assoc ==>
           EntryValue(a, assoc[a], readFile).Right? &&
           GetOption(s.values, OptionOf(a), Bool(false)) == EntryValue(a, assoc[a], readFile).right) &&
        forall o :: o != OptionOf(a) ==> GetOption(s.values, o, Bool(false)) == GetOption(prev.values, o, Bool(false))
  {
  }

  /** `config` writes no option other than those of the arguments it is given. */
  lemma {:induction false} ConfigTouchesOnlyItsOptions(values: map<string, Value>, assoc: map<ConfigArg, string>, readFile: string -> FileRead, n: nat, name: string)
    requires n <= |ConfigOrder|
    requires forall a :: a in assoc ==> OptionOf(a) != name
    ensures var s := ConfigFold(values, assoc, readFile, n);
      (name in s.values <==> name in values) && (name in values ==> s.values[name] == values[name])
    decreases n
  {
    if n > 0 {
      ConfigTouchesOnlyItsOptions(values, assoc, readFile, n - 1, name);
    }
  }

  /** Only the service-account argument can raise an error. */
  lemma {:induction false} ConfigErrorSource(values: map<string, Value>, assoc: map<ConfigArg, string>, readFile: string -> FileRead, n: nat)
    requires n <= |ConfigOrder|
    ensures var s := ConfigFold(values, assoc, readFile, n);
      s.error.Some? <==> 5 < n && ServiceAccountArg in assoc && EntryValue(ServiceAccountArg, assoc[ServiceAccountArg], readFile).Left?
    ensures 5 < n && ConfigFold(values, assoc, readFile, n).error.Some? ==>
      ConfigFold(values, assoc, readFile, n).values == ConfigFold(values, assoc, readFile, 5).values
    decreases n
  {
    if n > 0 {
      ConfigErrorSource(values, assoc, readFile, n - 1);
    }
  }

  /**
   * The command fails exactly when a service-account path is given whose
   * file is missing or not JSON; the options handled before it are then
   * stored, it and those after it are not.
   */
  lemma ConfigFailure(values: map<string, Value>, assoc: map<ConfigArg, string>, readFile: string -> FileRead)
    ensures var s := ConfigFold(values, assoc, readFile, |ConfigOrder|);
      var bad := ServiceAccountArg in assoc && !(readFile(assoc[ServiceAccountArg]).Contents? && readFile(assoc[ServiceAccountArg]).validJson);
      (s.error.Some? <==> bad) &&
      (bad ==> s.values == ConfigFold(values, assoc, readFile, 5).values)
  {
    ConfigErrorSource(values, assoc, readFile, |ConfigOrder|);
  }

  /** The arguments of `args` that were given, in the order of `args`. */
  function GivenArgs(args: seq<ConfigArg>, assoc: map<ConfigArg, string>): seq<ConfigArg>
    decreases |args|
  {
    if args == [] then []
    else
      var a := args[|args| - 1];
      GivenArgs(args[..|args| - 1], assoc) + (if a in assoc then [a] else [])
  }

  /** The given arguments are exactly those of `args` found in `assoc`, each once when `args` has no repeats. */
  lemma {:induction false} GivenArgsSpec(args: seq<ConfigArg>, assoc: map<ConfigArg, string>)
    ensures forall a :: a in GivenArgs(args, assoc) <==> a in args && a in assoc
    ensures Distinct(args) ==> Distinct(GivenArgs(args, assoc))
    decreases |args|
  {
    if args != [] {
      var init := args[..|args| - 1];
      GivenArgsSpec(init, assoc);
      assert args == init + [args[|args| - 1]];
      if Distinct(args) {
        assert Distinct(init) by {
          forall i, j | 0 <= i < j < |init| ensures init[i] != init[j] {
            assert init[i] == args[i] && init[j] == args[j];
          }
        }
      }
    }
  }

  /**
   * Without an error, the "Updated: ..." labels are those of the given
   * arguments in the documented order, one per argument.
   */
  lemma {:induction false} ConfigLabels(values: map<string, Value>, assoc: map<ConfigArg, string>, readFile: string -> FileRead, n: nat)
    requires n <= |ConfigOrder|
    ensures var s := ConfigFold(values, assoc, readFile, n);
      s.error.None? ==> s.handled == GivenArgs(ConfigOrder[..n], assoc) && Distinct(s.handled)
    decreases n
  {
    var s := ConfigFold(values, assoc, readFile, n);
    if n > 0 && s.error.None? {
      var prev := ConfigFold(values, assoc, readFile, n - 1);
      ConfigLabels(values, assoc, readFile, n - 1);
      ConfigStepFacts(prev, ConfigOrder[n - 1], assoc, readFile);
      assert ConfigOrder[..n][..n - 1] == ConfigOrder[..n - 1];
    }
    ConfigOrderDistinct();
    assert Distinct(ConfigOrder[..n]) by {
      forall i, j | 0 <= i < j < n ensures ConfigOrder[..n][i] != ConfigOrder[..n][j] {
        assert ConfigOrder[..n][i] == ConfigOrder[i] && ConfigOrder[..n][j] == ConfigOrder[j];
      }
    }
    GivenArgsSpec(ConfigOrder[..n], assoc);
  }

  /** Where an argument stands in `ConfigOrder`. */
  function ArgIndex(a: ConfigArg): (i: nat)
    ensures i < |ConfigOrder| && ConfigOrder[i] == a
  {
    match a
    case ProjectIdArg => 0 case DatabaseIdArg => 1 case ApiKeyArg => 2
    case AuthDomainArg => 3 case StorageBucketArg => 4 case ServiceAccountArg => 5
    case EmulatorArg => 6 case EmulatorHostArg => 7 case EmulatorPortArg => 8
  }

  /** After an error-free `config`, a given argument's option holds the value stored for it. */
  lemma ArgReadBack(values: map<string, Value>, assoc: map<ConfigArg, string>, readFile: string -> FileRead, a: ConfigArg)
    requires a in assoc
    ensures var s := ConfigFold(values, assoc, readFile, |ConfigOrder|);
      s.error.None? ==>
        EntryValue(a, assoc[a], readFile).Right? &&
        OptionOf(a) in s.values && s.values[OptionOf(a)] == EntryValue(a, assoc[a], readFile).right
  {
    ConfigStores(values, assoc, readFile, |ConfigOrder|);
    var i := ArgIndex(a);
    assert ConfigOrder[i] == a;
  }

  /** An argument not given leaves its option as it was. */
  lemma ArgUnchanged(values: map<string, Value>, assoc: map<ConfigArg, string>, readFile: string -> FileRead, a: ConfigArg)
    requires a !in assoc
    ensures var s := ConfigFold(values, assoc, readFile, |ConfigOrder|);
      GetOption(s.values, OptionOf(a), Bool(false)) == GetOption(values, OptionOf(a), Bool(false)) &&
      (OptionOf(a) in s.values <==> OptionOf(a) in values)
  {
    ConfigOptionsDistinct();
    ConfigTouchesOnlyItsOptions(values, assoc, readFile, |ConfigOrder|, OptionOf(a));
  }

  /**
   * What the Firestore client reads after an error-free `config`: each
   * given Firebase argument, as it was given.
   */
  lemma ConfigReadBack(values: map<string, Value>, assoc: map<ConfigArg, string>, readFile: string -> FileRead, isJson: string -> bool)
    ensures var s := ConfigFold(values, assoc, readFile, |ConfigOrder|);
      var c := Firestore.ConfigOf(s.values, isJson);
      s.error.None? ==>
        (ProjectIdArg in assoc ==> c.projectId == assoc[ProjectIdArg]) &&
        (ApiKeyArg in assoc ==> c.apiKey == assoc[ApiKeyArg]) &&
        (AuthDomainArg in assoc ==> c.authDomain == assoc[AuthDomainArg]) &&
        (StorageBucketArg in assoc ==> c.storageBucket == assoc[StorageBucketArg])
  {
    var s := ConfigFold(values, assoc, readFile, |ConfigOrder|);
    if s.error.None? {
      if ProjectIdArg in assoc { ArgReadBack(values, assoc, readFile, ProjectIdArg); }
      if ApiKeyArg in assoc { ArgReadBack(values, assoc, readFile, ApiKeyArg); }
      if AuthDomainArg in assoc { ArgReadBack(values, assoc, readFile, AuthDomainArg); }
      if StorageBucketArg in assoc { ArgReadBack(values, assoc, readFile, StorageBucketArg); }
    }
  }

  /** After an error-free `config --service-account`, the client reads the file's text and its JSON verdict. */
  lemma ServiceAccountReadBack(values: map<string, Value>, assoc: map<ConfigArg, string>, readFile: string -> FileRead, isJson: string -> bool)
    requires ServiceAccountArg in assoc
    ensures var s := ConfigFold(values, assoc, readFile, |ConfigOrder|);
      var c := Firestore.ConfigOf(s.values, isJson);
      var file := readFile(assoc[ServiceAccountArg]);
      s.error.None? ==>
        file.Contents? && file.validJson &&
        c.serviceAccount == file.text && c.serviceAccountIsJson == isJson(file.text)
  {
    ArgReadBack(values, assoc, readFile, ServiceAccountArg);
  }

  /** `config` has no arguments for the sender ID and the app ID: the client reads them as before. */
  lemma ConfigKeepsOtherFields(values: map<string, Value>, assoc: map<ConfigArg, string>, readFile: string -> FileRead, isJson: string -> bool)
    ensures var s := ConfigFold(values, assoc, readFile, |ConfigOrder|);
      var c := Firestore.ConfigOf(s.values, isJson);
      c.messagingSenderId == Firestore.ConfigOf(values, isJson).messagingSenderId &&
      c.appId == Firestore.ConfigOf(values, isJson).appId
  {
    ConfigTouchesOnlyItsOptions(values, assoc, readFile, |ConfigOrder|, FirebaseMessagingSenderId);
    ConfigTouchesOnlyItsOptions(values, assoc, readFile, |ConfigOrder|, FirebaseAppId);
  }

  /**
   * What `syncfire_get_emulator_config` reads after an error-free
   * `config`: `--emulator` switches it on, `--emulator-host` and
   * `--emulator-port` give host and port; an argument not given leaves
   * its part as it was, which is the default when the option was never
   * stored.
   */
  lemma EmulatorReadBack(values: map<string, Value>, assoc: map<ConfigArg, string>, readFile: string -> FileRead)
    ensures var s := ConfigFold(values, assoc, readFile, |ConfigOrder|);
      var e := Functions.GetEmulatorConfig(s.values);
      var before := Functions.GetEmulatorConfig(values);
      s.error.None? ==>
        (EmulatorArg in assoc ==> e.enabled) &&
        (EmulatorArg !in assoc ==> e.enabled == before.enabled) &&
        (EmulatorHostArg in assoc ==> e.host == Str(assoc[EmulatorHostArg])) &&
        (EmulatorHostArg !in assoc ==> e.host == before.host) &&
        (EmulatorPortArg in assoc ==> e.port == Str(assoc[EmulatorPortArg])) &&
        (EmulatorPortArg !in assoc ==> e.port == before.port) &&
        (EmulatorArg !in assoc && FirestoreEmulatorEnabled !in values ==> !e.enabled) &&
        (EmulatorHostArg !in assoc && FirestoreEmulatorHost !in values ==> e.host == Str("localhost")) &&
        (EmulatorPortArg !in assoc && FirestoreEmulatorPort !in values ==> e.port == Str("8080"))
  {
    var s := ConfigFold(values, assoc, readFile, |ConfigOrder|);
    if s.error.None? {
      if EmulatorArg in assoc { ArgReadBack(values, assoc, readFile, EmulatorArg); }
      else { ArgUnchanged(values, assoc, readFile, EmulatorArg); }
      if EmulatorHostArg in assoc { ArgReadBack(values, assoc, readFile, EmulatorHostArg); }
      else { ArgUnchanged(values, assoc, readFile, EmulatorHostArg); }
      if EmulatorPortArg in assoc { ArgReadBack(values, assoc, readFile, EmulatorPortArg); }
      else { ArgUnchanged(values, assoc, readFile, EmulatorPortArg); }
    }
  }

  /** With no argument given nothing is written and the command only warns. */
  lemma {:induction false} ConfigNoOptions(values: map<string, Value>, readFile: string -> FileRead, n: nat)
    requires n <= |ConfigOrder|
    ensures ConfigFold(values, map[], readFile, n) == ConfigState([], values, None)
    decreases n
  {
    if n > 0 {
      ConfigNoOptions(values, readFile, n - 1);
    }
  }

  // ---------------------------------------------------------------------
  // import
  // ---------------------------------------------------------------------

  /** A `taxonomy sync` or `post-type sync` subcommand run on the given slugs. */
  datatype SyncSubcommand = TaxonomySyncOf(slugs: seq<string>) | PostTypeSyncOf(slugs: seq<string>)

  /**
   * How `import` ends. `Imported` reaches "Import complete" and names the
   * sync subcommand `--sync-now` started, if any. `SyncAborted` names a
   * subcommand that died with an uncaught PHP `Error` before "Import
   * complete": `post_type sync` calls `sync_post` with two of its three
   * required arguments on the first post it finds.
   */
  datatype ImportOutcome =
    | BadType
    | SchemaPluginInactive
    | SchemaNotFound(dir: string, slug: string)
    | Imported(syncRun: Option<SyncSubcommand>)
    | SyncAborted(aborted: SyncSubcommand)

  /** The schema sub-directory for a schema type. */
  function SchemaDir(schemaType: string): string {
    if schemaType == "taxonomy" then "taxonomies" else "post-types"
  }

  /** The `foreach ($to_add ...)` loop of `enable`: each existing name not yet listed is appended. */
  method EnableNames(current: seq<string>, toAdd: seq<string>, known: string -> bool) returns (r: seq<string>)
    ensures r == Enabled(current, toAdd, known, |toAdd|)
  {
    r := current;
    var i := 0;
    while i < |toAdd|
      invariant 0 <= i <= |toAdd|
      invariant r == Enabled(current, toAdd, known, i)
    {
      var name := toAdd[i];
      if !known(name) {
        i := i + 1;
        continue;
      }
      if name !in r {
        r := r + [name];
      }
      i := i + 1;
    }
  }

  /** The `--fields` loop of `post-type enable`: `$current_fields[$post_type] = $fields` for each name. */
  method AssignFields(fieldMap: seq<(string, seq<string>)>, toAdd: seq<string>, fields: seq<string>) returns (r: seq<(string, seq<string>)>)
    ensures r == WithFields(fieldMap, toAdd, fields, |toAdd|)
  {
    r := fieldMap;
    var j := 0;
    while j < |toAdd|
      invariant 0 <= j <= |toAdd|
      invariant r == WithFields(fieldMap, toAdd, fields, j)
    {
      r := Assign(r, toAdd[j], fields);
      j := j + 1;
    }
  }

  /** `SyncFireCommand`: the sync lists it edits and the options table `config` writes. */
  class Command {
    var taxonomies: seq<string>
    var postTypes: seq<string>
    var postTypeFields: seq<(string, seq<string>)>
    const store: OptionStore

    constructor (taxonomies: seq<string>, postTypes: seq<string>, postTypeFields: seq<(string, seq<string>)>, store: OptionStore)
      ensures this.taxonomies == taxonomies && this.postTypes == postTypes
      ensures this.postTypeFields == postTypeFields && this.store == store
    {
      this.taxonomies := taxonomies;
      this.postTypes := postTypes;
      this.postTypeFields := postTypeFields;
      this.store := store;
    }

    /**
     * One `if (isset($assoc_args[...]))` block of `config`: store the
     * argument's option and note its label; a missing or invalid
     * service-account file raises the error instead.
     */
    method StoreArg(a: ConfigArg, assoc: map<ConfigArg, string>, readFile: string -> FileRead, updated: seq<ConfigArg>)
      returns (updated': seq<ConfigArg>, error: Option<ConfigError>)
      modifies store
      ensures ConfigStep(ConfigState(updated, old(store.values), None), a, assoc, readFile) == ConfigState(updated', store.values, error)
    {
      updated', error := updated, None;
      if a !in assoc {
        return;
      }
      var text := assoc[a];
      var value: Value;
      match a {
        case ServiceAccountArg =>
          var file := readFile(text);
          if file.NotFound? {
            return updated, Some(FileNotFound(text));
          }
          if !file.validJson {
            return updated, Some(InvalidJson);
          }
          value := Str(file.text);
        case EmulatorArg =>
          value := Bool(true);
        case _ =>
          value := Str(text);
      }
      var written := store.Update(OptionOf(a), value);
      updated' := updated + [a];
    }

    /** The `n`-th block of `config`, stated as one more step of `ConfigFold` from the options `start`. */
    method StoreNext(a: ConfigArg, ghost n: nat, ghost start: map<string, Value>, assoc: map<ConfigArg, string>,
                     readFile: string -> FileRead, updated: seq<ConfigArg>)
      returns (updated': seq<ConfigArg>, error: Option<ConfigError>)
      requires n < |ConfigOrder| && ConfigOrder[n] == a
      requires ConfigFold(start, assoc, readFile, n) == ConfigState(updated, store.values, None)
      modifies store
      ensures ConfigFold(start, assoc, readFile, n + 1) == ConfigState(updated', store.values, error)
      ensures a != ServiceAccountArg ==> error.None?
    {
      ConfigAdvance(start, assoc, readFile, n, ConfigState(updated, store.values, None));
      updated', error := StoreArg(a, assoc, readFile, updated);
    }

    /** The plain "Firebase configuration" blocks of `config`: the first five arguments, none of which can fail. */
    method StoreFirebaseConfig(assoc: map<ConfigArg, string>, readFile: string -> FileRead)
      returns (updated: seq<ConfigArg>)
      modifies store
      ensures ConfigFold(old(store.values), assoc, readFile, 5) == ConfigState(updated, store.values, None)
    {
      var error: Option<ConfigError>;
      ghost var start := store.values;
      ghost var k: nat := 0;
      updated := [];
      updated, error := StoreNext(ProjectIdArg, k, start, assoc, readFile, updated);
      k := k + 1;
      updated, error := StoreNext(DatabaseIdArg, k, start, assoc, readFile, updated);
      k := k + 1;
      updated, error := StoreNext(ApiKeyArg, k, start, assoc, readFile, updated);
      k := k + 1;
      updated, error := StoreNext(AuthDomainArg, k, start, assoc, readFile, updated);
      k := k + 1;
      updated, error := StoreNext(StorageBucketArg, k, start, assoc, readFile, updated);
    }

    /** The "Emulator configuration" blocks of `config`: the last three arguments, none of which can fail. */
    method StoreEmulatorConfig(ghost start: map<string, Value>, assoc: map<ConfigArg, string>, readFile: string -> FileRead,
                               updated: seq<ConfigArg>)
      returns (updated': seq<ConfigArg>)
      requires ConfigFold(start, assoc, readFile, 6) == ConfigState(updated, store.values, None)
      modifies store
      ensures ConfigFold(start, assoc, readFile, 9) == ConfigState(updated', store.values, None)
    {
      ghost var k: nat := 6;
      var error: Option<ConfigError>;
      updated', error := StoreNext(EmulatorArg, k, start, assoc, readFile, updated);
      k := k + 1;
      updated', error := StoreNext(EmulatorHostArg, k, start, assoc, readFile, updated');
      k := k + 1;
      updated', error := StoreNext(EmulatorPortArg, k, start, assoc, readFile, updated');
    }

    /** `config`: store each provided option in a fixed order; an unusable service-account file stops the command. */
    method Config(assoc: map<ConfigArg, string>, readFile: string -> FileRead) returns (outcome: ConfigOutcome)
      modifies store
      ensures var s := ConfigFold(old(store.values), assoc, readFile, |ConfigOrder|);
        outcome == ConfigOutcomeOf(s) && store.values == s.values
    {
      ghost var start := store.values;
      var updated := StoreFirebaseConfig(assoc, readFile);
      var error: Option<ConfigError>;
      updated, error := StoreNext(ServiceAccountArg, 5, start, assoc, readFile, updated);
      if error.Some? {
        ConfigErrorStops(start, assoc, readFile, 6, |ConfigOrder|);
        return ConfigFailed(error.value);
      }
      updated := StoreEmulatorConfig(start, assoc, readFile, updated);
      if updated == [] {
        return NoOptions;
      }
      outcome := Updated(updated);
    }

    /** `taxonomy enable`: append each existing requested taxonomy not yet listed. */
    method TaxonomyEnable(args: seq<string>, all: bool, registry: Registry)
      modifies this
      ensures var toAdd := ToAdd(args, all, registry.publicTaxonomies);
        taxonomies == Enabled(old(taxonomies), toAdd, registry.taxonomyExists, |toAdd|)
      ensures postTypes == old(postTypes) && postTypeFields == old(postTypeFields)
    {
      var toAdd := if all then registry.publicTaxonomies else args;
      taxonomies := EnableNames(taxonomies, toAdd, registry.taxonomyExists);
    }

    /** `taxonomy disable`: remove the first listed occurrence of each argument. */
    method TaxonomyDisable(args: seq<string>)
      modifies this
      ensures taxonomies == Disabled(old(taxonomies), args, |args|)
      ensures postTypes == old(postTypes) && postTypeFields == old(postTypeFields)
    {
      var current := taxonomies;
      var i := 0;
      while i < |args|
        invariant 0 <= i <= |args|
        invariant current == Disabled(taxonomies, args, i)
        modifies {}
      {
        current := RemoveFirst(current, args[i]);
        i := i + 1;
      }
      taxonomies := current;
    }

    /**
     * `post-type enable`: as for taxonomies; with `--fields` every
     * requested type, existing or not, gets the comma-separated list.
     */
    method PostTypeEnable(args: seq<string>, all: bool, fieldsArg: Option<string>, registry: Registry)
      modifies this
      ensures var toAdd := ToAdd(args, all, registry.publicPostTypes);
        postTypes == Enabled(old(postTypes), toAdd, registry.postTypeExists, |toAdd|) &&
        postTypeFields == (if fieldsArg.Some? then WithFields(old(postTypeFields), toAdd, Explode(fieldsArg.value, ','), |toAdd|) else old(postTypeFields))
      ensures taxonomies == old(taxonomies)
    {
      var toAdd := if all then registry.publicPostTypes else args;
      postTypes := EnableNames(postTypes, toAdd, registry.postTypeExists);
      if fieldsArg.Some? {
        var fields := Explode(fieldsArg.value, ',');
        postTypeFields := AssignFields(postTypeFields, toAdd, fields);
      }
    }

    /** `post-type disable`. */
    method PostTypeDisable(args: seq<string>)
      modifies this
      ensures postTypes == Disabled(old(postTypes), args, |args|)
      ensures taxonomies == old(taxonomies) && postTypeFields == old(postTypeFields)
    {
      var current := postTypes;
      var i := 0;
      while i < |args|
        invariant 0 <= i <= |args|
        invariant current == Disabled(postTypes, args, i)
        modifies {}
      {
        current := RemoveFirst(current, args[i]);
        i := i + 1;
      }
      postTypes := current;
    }

    /** `post-type fields <type> [--set=<f>] [--add=<f>] [--remove=<f>]`. */
    method PostTypeFieldsCommand(args: seq<string>, set_: Option<string>, add: Option<string>, remove: Option<string>,
                                 registry: Registry) returns (outcome: FieldsOutcome)
      modifies this
      ensures args == [] ==> outcome == NoPostTypeGiven && postTypeFields == old(postTypeFields)
      ensures args != [] && !registry.postTypeExists(args[0]) ==>
        outcome == UnknownPostType(args[0]) && postTypeFields == old(postTypeFields)
      ensures args != [] && registry.postTypeExists(args[0]) ==>
        postTypeFields == FieldsAfter(old(postTypeFields), args[0], FieldsActionOf(set_, add, remove)) &&
        outcome == match FieldsActionOf(set_, add, remove)
          case SetFields(a) => FieldsSet(Explode(a, ','))
          case AddFields(a) => FieldsAdded(Explode(a, ','))
          case RemoveFields(a) => if Lookup(old(postTypeFields), args[0]).Some? then FieldsRemoved(Explode(a, ',')) else NothingToRemove
          case ListFields => Listed(FieldsOf(old(postTypeFields), args[0]))
      ensures taxonomies == old(taxonomies) && postTypes == old(postTypes)
    {
      if args == [] {
        return NoPostTypeGiven;
      }
      var postType := args[0];
      if !registry.postTypeExists(postType) {
        return UnknownPostType(postType);
      }
      var currentFields := postTypeFields;
      var action := FieldsActionOf(set_, add, remove);
      match action {
        case SetFields(a) =>
          var fields := Explode(a, ',');
          postTypeFields := Assign(currentFields, postType, fields);
          outcome := FieldsSet(fields);
        case AddFields(a) =>
          var fields := Explode(a, ',');
          var existing := FieldsOf(currentFields, postType);
          postTypeFields := Assign(currentFields, postType, Unique(existing + fields));
          outcome := FieldsAdded(fields);
        case RemoveFields(a) =>
          var fields := Explode(a, ',');
          if Lookup(currentFields, postType).Some? {
            postTypeFields := Assign(currentFields, postType, Diff(FieldsOf(currentFields, postType), fields));
            outcome := FieldsRemoved(fields);
          } else {
            outcome := NothingToRemove;
          }
        case ListFields =>
          outcome := Listed(FieldsOf(currentFields, postType));
      }
    }

    /**
     * `import <type> <slug>`: rejects other schema types, needs the schema
     * plugin and the schema file; `--auto-sync` enables the slug once and
     * `--sync-now` then starts the sync subcommand of the type on the slug
     * alone. `slugPosts` is the number of posts `post_type sync` finds for
     * the slug (zero when no such post type is registered); with any post
     * that subcommand aborts, after the `--auto-sync` change is stored.
     */
    method Import(schemaType: string, slug: string, autoSync: bool, syncNow: bool, schemaPluginActive: bool,
                  schemaExists: (string, string) -> bool, slugPosts: nat) returns (outcome: ImportOutcome)
      modifies this
      ensures schemaType != "post-type" && schemaType != "taxonomy" ==>
        outcome == BadType && taxonomies == old(taxonomies) && postTypes == old(postTypes)
      ensures (schemaType == "post-type" || schemaType == "taxonomy") && !schemaPluginActive ==>
        outcome == SchemaPluginInactive && taxonomies == old(taxonomies) && postTypes == old(postTypes)
      ensures (schemaType == "post-type" || schemaType == "taxonomy") && schemaPluginActive && !schemaExists(SchemaDir(schemaType), slug) ==>
        outcome == SchemaNotFound(SchemaDir(schemaType), slug) && taxonomies == old(taxonomies) && postTypes == old(postTypes)
      ensures (schemaType == "post-type" || schemaType == "taxonomy") && schemaPluginActive && schemaExists(SchemaDir(schemaType), slug) ==>
        outcome == (if !syncNow then Imported(None)
                    else if schemaType == "taxonomy" then Imported(Some(TaxonomySyncOf([slug])))
                    else if slugPosts == 0 then Imported(Some(PostTypeSyncOf([slug])))
                    else SyncAborted(PostTypeSyncOf([slug]))) &&
        taxonomies == (if autoSync && schemaType == "taxonomy" then AddIfAbsent(old(taxonomies), slug) else old(taxonomies)) &&
        postTypes == (if autoSync && schemaType == "post-type" then AddIfAbsent(old(postTypes), slug) else old(postTypes))
      ensures postTypeFields == old(postTypeFields)
    {
      if schemaType != "post-type" && schemaType != "taxonomy" {
        return BadType;
      }
      if !schemaPluginActive {
        return SchemaPluginInactive;
      }
      var dir := if schemaType == "taxonomy" then "taxonomies" else "post-types";
      if !schemaExists(dir, slug) {
        return SchemaNotFound(dir, slug);
      }
      if autoSync {
        if schemaType == "taxonomy" {
          if slug !in taxonomies {
            taxonomies := taxonomies + [slug];
          }
        } else {
          if slug !in postTypes {
            postTypes := postTypes + [slug];
          }
        }
      }
      if !syncNow {
        outcome := Imported(None);
      } else if schemaType == "taxonomy" {
        outcome := Imported(Some(TaxonomySyncOf([slug])));
      } else if slugPosts == 0 {
        outcome := Imported(Some(PostTypeSyncOf([slug])));
      } else {
        outcome := SyncAborted(PostTypeSyncOf([slug]));
      }
    }
  }
}
