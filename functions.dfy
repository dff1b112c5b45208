/**
 * The helper functions of `syncfire-functions.php`: the recursive array
 * sanitizer, the boolean sanitizer, option registration, the check that
 * every option is registered, and the emulator configuration and its
 * connection test. `sanitize_text_field` is external to the plugin: it is
 * the parameter `clean`, which turns any scalar into a string.
 */
module Functions {
  import opened Php
  import opened WordPress
  import opened Options
  import Firestore

  // ---------------------------------------------------------------------
  // Sanitizing trees of values
  // ---------------------------------------------------------------------

  /**
   * The array branch both array sanitizers share: the same keys in the
   * same order, nested arrays sanitized recursively, every other value
   * passed through `sanitize_text_field`.
   */
  function SanitizeTree(v: Value, clean: Value -> string): Value
    decreases v
  {
    match v
    case Arr(es) => Arr(seq(|es|, i requires 0 <= i < |es| => (es[i].0, SanitizeTree(es[i].1, clean))))
    case _ => Str(clean(v))
  }

  /** The shape of a value: its arrays and keys, with every scalar replaced by `null`. */
  function Skeleton(v: Value): Value
    decreases v
  {
    match v
    case Arr(es) => Arr(seq(|es|, i requires 0 <= i < |es| => (es[i].0, Skeleton(es[i].1))))
    case _ => Null
  }

  /** The scalars of a value, depth first in key order. */
  function Leaves(v: Value): seq<Value>
    decreases v
  {
    match v
    case Arr(es) => Flatten(seq(|es|, i requires 0 <= i < |es| => Leaves(es[i].1)))
    case _ => [v]
  }

  function Flatten<T>(ss: seq<seq<T>>): seq<T>
    decreases |ss|
  {
    if ss == [] then [] else ss[0] + Flatten(ss[1..])
  }

  /** Each scalar of a list passed through `sanitize_text_field`. */
  function CleanAll(ls: seq<Value>, clean: Value -> string): (r: seq<Value>)
    ensures |r| == |ls|
    ensures forall i :: 0 <= i < |ls| ==> r[i] == Str(clean(ls[i]))
  {
    seq(|ls|, i requires 0 <= i < |ls| => Str(clean(ls[i])))
  }

  lemma CleanAllAppend(a: seq<Value>, b: seq<Value>, clean: Value -> string)
    ensures CleanAll(a + b, clean) == CleanAll(a, clean) + CleanAll(b, clean)
  {
  }

  lemma {:induction false} FlattenClean(ss: seq<seq<Value>>, tt: seq<seq<Value>>, clean: Value -> string)
    requires |ss| == |tt|
    requires forall i :: 0 <= i < |ss| ==> tt[i] == CleanAll(ss[i], clean)
    ensures Flatten(tt) == CleanAll(Flatten(ss), clean)
    decreases |ss|
  {
    if ss != [] {
      FlattenClean(ss[1..], tt[1..], clean);
      CleanAllAppend(ss[0], Flatten(ss[1..]), clean);
    }
  }

  /**
   * Sanitizing a tree keeps its shape exactly (the same nested arrays
   * under the same keys in the same order) and replaces its scalars, in
   * order, by their sanitized strings.
   */
  lemma {:induction false} SanitizeTreeShape(v: Value, clean: Value -> string)
    ensures Skeleton(SanitizeTree(v, clean)) == Skeleton(v)
    ensures Leaves(SanitizeTree(v, clean)) == CleanAll(Leaves(v), clean)
    decreases v
  {
    match v
    case Arr(es) =>
      forall i | 0 <= i < |es|
        ensures Skeleton(SanitizeTree(es[i].1, clean)) == Skeleton(es[i].1)
        ensures Leaves(SanitizeTree(es[i].1, clean)) == CleanAll(Leaves(es[i].1), clean)
      {
        SanitizeTreeShape(es[i].1, clean);
      }
      var r := SanitizeTree(v, clean);
      assert Skeleton(r).entries == Skeleton(v).entries;
      var ss := seq(|es|, i requires 0 <= i < |es| => Leaves(es[i].1));
      var tt := seq(|es|, i requires 0 <= i < |es| => Leaves(r.entries[i].1));
      FlattenClean(ss, tt, clean);
    case _ =>
  }

  /** `syncfire_sanitize_array`: a non-array becomes the empty array. */
  function SanitizeArray(input: Value, clean: Value -> string): Value {
    if input.Arr? then SanitizeTree(input, clean) else Arr([])
  }

  /**
   * The result is always an array: empty for a non-array input, and for
   * an array the same shape with every scalar sanitized.
   */
  lemma SanitizeArrayResult(input: Value, clean: Value -> string)
    ensures SanitizeArray(input, clean).Arr?
    ensures !input.Arr? ==> SanitizeArray(input, clean) == Arr([])
    ensures input.Arr? ==> Skeleton(SanitizeArray(input, clean)) == Skeleton(input)
    ensures input.Arr? ==> Leaves(SanitizeArray(input, clean)) == CleanAll(Leaves(input), clean)
  {
    SanitizeTreeShape(input, clean);
  }

  /** `syncfire_sanitize_boolean`: the `(bool)` cast. */
  function SanitizeBoolean(input: Value): bool {
    ToBool(input)
  }

  /** The cast gives false exactly for PHP's falsy values. */
  lemma SanitizeBooleanFalsy(input: Value)
    ensures !SanitizeBoolean(input) <==>
      input == Null || input == Bool(false) || input == Int(0) || (input.Float? && IsZero(input.d)) ||
      input == Str("") || input == Str("0") || input == Arr([])
  {
  }

  // ---------------------------------------------------------------------
  // Registered settings
  // ---------------------------------------------------------------------

  /** An entry of `$wp_registered_settings`: its `group`, if set, and the other arguments. */
  datatype Registration = Registration(group: Option<string>, args: Value)

  /** `$wp_registered_settings`, option name to registration. */
  class Registry {
    var settings: map<string, Registration>

    constructor (settings: map<string, Registration>)
      ensures this.settings == settings
    {
      this.settings := settings;
    }

    /** `syncfire_register_option`: `register_setting` in the plugin's own group. */
    method RegisterOption(name: string, args: Value)
      modifies this
      ensures settings == old(settings)[name := Registration(Some(Group), args)]
    {
      settings := settings[name := Registration(Some(Group), args)];
    }
  }

  /** The first `n` names that are not in `present`, in their order. */
  function NotIn(names: seq<string>, present: set<string>, n: nat): seq<string>
    requires n <= |names|
    decreases n
  {
    if n == 0 then []
    else NotIn(names, present, n - 1) + (if names[n - 1] in present then [] else [names[n - 1]])
  }

  /** How many of the first `n` names are in `present`. */
  function CountIn(names: seq<string>, present: set<string>, n: nat): nat
    requires n <= |names|
    decreases n
  {
    if n == 0 then 0
    else CountIn(names, present, n - 1) + (if names[n - 1] in present then 1 else 0)
  }

  /** `a` is `b` with some elements left out, the rest in their order. */
  predicate SubsequenceOf<T(==)>(a: seq<T>, b: seq<T>)
    decreases |b|
  {
    a == [] ||
    (b != [] &&
     ((a[|a| - 1] == b[|b| - 1] && SubsequenceOf(a[..|a| - 1], b[..|b| - 1])) ||
      SubsequenceOf(a, b[..|b| - 1])))
  }

  /**
   * The missing names are exactly those not present, in the order of the
   * list; every name is either counted as present or listed as missing.
   */
  lemma NotInMembers(names: seq<string>, present: set<string>, n: nat)
    requires n <= |names|
    ensures forall x :: x in NotIn(names, present, n) <==> x in names[..n] && x !in present
    ensures SubsequenceOf(NotIn(names, present, n), names[..n])
    ensures CountIn(names, present, n) + |NotIn(names, present, n)| == n
  {
    NotInElements(names, present, n);
    NotInOrdered(names, present, n);
    NotInCount(names, present, n);
  }

  /** The missing names are the names not present. */
  lemma {:induction false} NotInElements(names: seq<string>, present: set<string>, n: nat)
    requires n <= |names|
    ensures forall x :: x in NotIn(names, present, n) <==> x in names[..n] && x !in present
    decreases n
  {
    if n > 0 {
      NotInElements(names, present, n - 1);
      assert names[..n] == names[..n - 1] + [names[n - 1]];
    }
  }

  /** The missing names keep the order of the list. */
  lemma {:induction false} NotInOrdered(names: seq<string>, present: set<string>, n: nat)
    requires n <= |names|
    ensures SubsequenceOf(NotIn(names, present, n), names[..n])
    decreases n
  {
    if n > 0 {
      NotInOrdered(names, present, n - 1);
      assert names[..n][..n - 1] == names[..n - 1];
      var m := NotIn(names, present, n);
      if names[n - 1] !in present {
        assert m[..|m| - 1] == NotIn(names, present, n - 1);
      } else {
        assert m == NotIn(names, present, n - 1);
      }
    }
  }

  /** Every name is counted as present or listed as missing. */
  lemma {:induction false} NotInCount(names: seq<string>, present: set<string>, n: nat)
    requires n <= |names|
    ensures CountIn(names, present, n) + |NotIn(names, present, n)| == n
    decreases n
  {
    if n > 0 {
      NotInCount(names, present, n - 1);
    }
  }

  /** Every one of the first `n` names counts when all of them are present. */
  lemma {:induction false} CountInAll(names: seq<string>, present: set<string>, n: nat)
    requires n <= |names|
    requires forall i :: 0 <= i < n ==> names[i] in present
    ensures CountIn(names, present, n) == n
    decreases n
  {
    if n > 0 {
      CountInAll(names, present, n - 1);
    }
  }

  /** Nothing is missing when every name is present. */
  lemma NotInEmpty(names: seq<string>, present: set<string>)
    requires forall x :: x in names ==> x in present
    ensures NotIn(names, present, |names|) == []
    ensures CountIn(names, present, |names|) == |names|
  {
    NotInMembers(names, present, |names|);
    CountInAll(names, present, |names|);
  }

  /**
   * `syncfire_test_settings`: the listed options that are not registered,
   * in the order of `get_all_options`; they are what it writes to the
   * error log.
   */
  method TestSettings(registered: map<string, Registration>) returns (missing: seq<string>)
    ensures missing == NotIn(AllOptions(), registered.Keys, |AllOptions()|)
  {
    var options := AllOptions();
    missing := [];
    var i := 0;
    while i < |options|
      invariant 0 <= i <= |options|
      invariant missing == NotIn(options, registered.Keys, i)
    {
      if options[i] !in registered {
        missing := missing + [options[i]];
      }
      i := i + 1;
    }
  }

  // ---------------------------------------------------------------------
  // The Firestore emulator
  // ---------------------------------------------------------------------

  /** `syncfire_is_emulator_enabled`. */
  predicate IsEmulatorEnabled(values: map<string, Value>) {
    ToBool(GetOption(values, FirestoreEmulatorEnabled, Bool(false)))
  }

  datatype EmulatorConfig = EmulatorConfig(enabled: bool, host: Value, port: Value)

  /** `syncfire_get_emulator_config`. */
  function GetEmulatorConfig(values: map<string, Value>): (c: EmulatorConfig)
    ensures c.enabled == IsEmulatorEnabled(values)
    ensures FirestoreEmulatorEnabled !in values ==> !c.enabled
    ensures FirestoreEmulatorHost in values ==> c.host == values[FirestoreEmulatorHost]
    ensures FirestoreEmulatorHost !in values ==> c.host == Str("localhost")
    ensures FirestoreEmulatorPort in values ==> c.port == values[FirestoreEmulatorPort]
    ensures FirestoreEmulatorPort !in values ==> c.port == Str("8080")
  {
    EmulatorConfig(
      ToBool(GetOption(values, FirestoreEmulatorEnabled, Bool(false))),
      GetOption(values, FirestoreEmulatorHost, Str("localhost")),
      GetOption(values, FirestoreEmulatorPort, Str("8080")))
  }

  /**
   * `syncfire_test_emulator_connection`: with the emulator switched off it
   * fails at once and sends nothing; otherwise it creates a
   * `SyncFire_Firestore` on the same options and runs `test_connection`.
   */
  method TestEmulatorConnection(values: map<string, Value>, isJson: string -> bool,
                                transients: Firestore.Transients, network: Firestore.Network, now: int) returns (ok: bool)
    modifies transients, network
    ensures !IsEmulatorEnabled(values) ==>
      !ok && network.sent == old(network.sent) && transients.token == old(transients.token)
    ensures IsEmulatorEnabled(values) ==>
      var c := Firestore.ConfigOf(values, isJson);
      var req := Firestore.Request(Firestore.GET, Firestore.BaseUrl(c.projectId),
        Firestore.AuthHeader(Firestore.TokenFor(c, old(transients.token), now)), None);
      ok == (Firestore.Configured(c) && Firestore.Succeeded(network.remote(req))) &&
      network.sent == old(network.sent) + (if Firestore.Configured(c) then [req] else [])
  {
    if !IsEmulatorEnabled(values) {
      return false;
    }
    var client := new Firestore.Client(values, isJson, transients, network);
    ok := client.TestConnection(now);
  }
}
