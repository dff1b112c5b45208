/**
 * The `SyncFire` main class of `sync-fire.php`: its own array sanitizer,
 * the nested-array test, the option initialisation that runs when the
 * options cache is cleared, the log of updated options, and the single
 * instance `get_instance` hands out.
 */
module Plugin {
  import opened Php
  import opened WordPress
  import opened Options
  import Functions

  // ---------------------------------------------------------------------
  // sanitize_array
  // ---------------------------------------------------------------------

  /**
   * `SyncFire::sanitize_array`, a public method of the main class that no
   * setting registers as its sanitize callback (the array settings use
   * `syncfire_sanitize_array`). A non-array is not dropped as there:
   * an empty one becomes `[]` and any other is wrapped as `[$input]`,
   * without passing through `sanitize_text_field`. The recursion on nested
   * arrays only ever meets arrays, so it is the shared array branch.
   */
  function SanitizeArray(input: Value, clean: Value -> string): Value {
    if !input.Arr? then
      if !ToBool(input) then Arr([]) else Arr([(IntKey(0), input)])
    else Functions.SanitizeTree(input, clean)
  }

  /**
   * An empty non-array becomes `[]`, any other non-array the one-element
   * list holding it, and an array keeps its shape with every scalar
   * sanitized.
   */
  lemma SanitizeArrayCases(input: Value, clean: Value -> string)
    ensures !input.Arr? && !ToBool(input) ==> SanitizeArray(input, clean) == Arr([])
    ensures !input.Arr? && ToBool(input) ==> SanitizeArray(input, clean) == Arr([(IntKey(0), input)])
    ensures input.Arr? ==> Functions.Skeleton(SanitizeArray(input, clean)) == Functions.Skeleton(input)
    ensures input.Arr? ==> Functions.Leaves(SanitizeArray(input, clean)) == Functions.CleanAll(Functions.Leaves(input), clean)
  {
    Functions.SanitizeTreeShape(input, clean);
  }

  /** On arrays the two array sanitizers agree; they differ only on non-empty non-arrays. */
  lemma SanitizersAgree(input: Value, clean: Value -> string)
    ensures SanitizeArray(input, clean) == Functions.SanitizeArray(input, clean) <==> input.Arr? || !ToBool(input)
  {
  }

  /**
   * A wrapped scalar keeps its raw text: with `sanitize_text_field`
   * stripping tags, `sanitize_array("<b>x</b>")` returns `["<b>x</b>"]`.
   */
  lemma WrappedScalarUnsanitized()
    ensures var clean := (v: Value) => "x";
      SanitizeArray(Str("<b>x</b>"), clean) == Arr([(IntKey(0), Str("<b>x</b>"))]) &&
      Functions.Leaves(SanitizeArray(Str("<b>x</b>"), clean)) != Functions.CleanAll(Functions.Leaves(Str("<b>x</b>")), clean)
  {
    var clean := (v: Value) => "x";
    var w := Str("<b>x</b>");
    var es := SanitizeArray(w, clean).entries;
    assert seq(|es|, i requires 0 <= i < |es| => Functions.Leaves(es[i].1)) == [[w]];
    assert Functions.Flatten([[w]]) == [w] + Functions.Flatten([]);
    assert Functions.CleanAll([w], clean)[0] == Str("x");
  }

  /** `sanitize_array` with the wrapped scalar sanitized like every other scalar. */
  function SanitizeArrayCorrected(input: Value, clean: Value -> string): Value {
    if !input.Arr? then
      if !ToBool(input) then Arr([]) else Arr([(IntKey(0), Str(clean(input)))])
    else Functions.SanitizeTree(input, clean)
  }

  /**
   * Every scalar stored through the corrected callback is a sanitized
   * string: the result holds the sanitized scalars of the input, in order,
   * except that an empty non-array gives `[]`.
   */
  lemma SanitizeArrayCorrectedLeaves(input: Value, clean: Value -> string)
    ensures input.Arr? || ToBool(input) ==>
      Functions.Leaves(SanitizeArrayCorrected(input, clean)) == Functions.CleanAll(Functions.Leaves(input), clean)
    ensures !input.Arr? && !ToBool(input) ==> SanitizeArrayCorrected(input, clean) == Arr([])
    ensures forall w :: w in Functions.Leaves(SanitizeArrayCorrected(input, clean)) ==> w.Str?
  {
    if input.Arr? {
      Functions.SanitizeTreeShape(input, clean);
    } else if ToBool(input) {
      var w := Str(clean(input));
      var es := SanitizeArrayCorrected(input, clean).entries;
      assert seq(|es|, i requires 0 <= i < |es| => Functions.Leaves(es[i].1)) == [[w]];
      assert Functions.Flatten([[w]]) == [w] + Functions.Flatten([]);
      assert Functions.CleanAll([input], clean) == [w];
    }
  }

  // ---------------------------------------------------------------------
  // has_nested_array
  // ---------------------------------------------------------------------

  /** An array with at least one array among its values. */
  predicate Nested(v: Value) {
    v.Arr? && exists i :: 0 <= i < |v.entries| && v.entries[i].1.Arr?
  }

  /** `has_nested_array`: stops at the first value that is an array. */
  method HasNestedArray(v: Value) returns (nested: bool)
    ensures nested == Nested(v)
  {
    if !v.Arr? {
      return false;
    }
    var es := v.entries;
    var i := 0;
    while i < |es|
      invariant 0 <= i <= |es|
      invariant forall j :: 0 <= j < i ==> !es[j].1.Arr?
    {
      if es[i].1.Arr? {
        return true;
      }
      i := i + 1;
    }
    return false;
  }

  /** Sanitizing an array keeps it nested exactly when it was. */
  lemma SanitizeKeepsNesting(input: Value, clean: Value -> string)
    requires input.Arr?
    ensures Nested(SanitizeArray(input, clean)) <==> Nested(input)
  {
    var es := input.entries;
    var r := Functions.SanitizeTree(input, clean);
    assert r == SanitizeArray(input, clean);
    assert |r.entries| == |es|;
    forall i | 0 <= i < |es|
      ensures r.entries[i].1.Arr? <==> es[i].1.Arr?
    {
      assert r.entries[i].1 == Functions.SanitizeTree(es[i].1, clean);
    }
  }

  // ---------------------------------------------------------------------
  // clear_options_cache
  // ---------------------------------------------------------------------

  /** A value `clear_options_cache` treats as an uninitialised option. */
  predicate Uninitialised(v: Value) {
    v == Bool(false) || v == Str("")
  }

  /** The initial value of an option: `[]` for an array option, `''` otherwise. */
  function InitialValue(option: string): Value {
    if option in ArrayOptions() then Arr([]) else Str("")
  }

  /** One option: read with default `''`, and written back initialised if it was uninitialised. */
  function ClearStep(values: map<string, Value>, option: string): map<string, Value> {
    if Uninitialised(GetOption(values, option, Str(""))) then UpdatedStore(values, option, InitialValue(option))
    else values
  }

  /** The store after the first `n` options of the list. */
  function Cleared(values: map<string, Value>, options: seq<string>, n: nat): map<string, Value>
    requires n <= |options|
    decreases n
  {
    if n == 0 then values else ClearStep(Cleared(values, options, n - 1), options[n - 1])
  }

  /**
   * After the first `n` options of a list without repeats: each of them
   * that was missing, `false` or `''` holds its initial value, each other
   * one keeps its value, and every option outside those `n` is untouched.
   */
  lemma {:induction false} ClearedSpec(values: map<string, Value>, options: seq<string>, n: nat, o: string)
    requires n <= |options|
    requires Distinct(options)
    ensures var r := Cleared(values, options, n);
      (o in options[..n] && Uninitialised(GetOption(values, o, Str(""))) ==> o in r && r[o] == InitialValue(o)) &&
      (o in options[..n] && !Uninitialised(GetOption(values, o, Str(""))) ==> o in values && o in r && r[o] == values[o]) &&
      (o !in options[..n] ==> (o in r <==> o in values) && (o in values ==> r[o] == values[o]))
    decreases n
  {
    if n > 0 {
      ClearedSpec(values, options, n - 1, o);
      assert options[..n] == options[..n - 1] + [options[n - 1]];
      var prev := Cleared(values, options, n - 1);
      var x := options[n - 1];
      assert x !in options[..n - 1];
      if o != x {
        assert o in options[..n] <==> o in options[..n - 1];
      } else {
        ClearedSpec(values, options, n - 1, x);
      }
    }
  }

  /** Clearing twice leaves the store as clearing once does. */
  lemma ClearIdempotent(values: map<string, Value>)
    ensures Cleared(Cleared(values, AllOptions(), 17), AllOptions(), 17) == Cleared(values, AllOptions(), 17)
  {
    AllOptionsDistinct();
    ClearTwice(values, AllOptions());
  }

  /** Over any list without repeats, a second pass changes nothing. */
  lemma ClearTwice(values: map<string, Value>, options: seq<string>)
    requires Distinct(options)
    ensures Cleared(Cleared(values, options, |options|), options, |options|) == Cleared(values, options, |options|)
  {
    var once := Cleared(values, options, |options|);
    var twice := Cleared(once, options, |options|);
    forall o
      ensures (o in twice <==> o in once) && (o in once ==> twice[o] == once[o])
    {
      ClearTwiceAt(values, options, o);
    }
    assert twice.Keys == once.Keys;
  }

  /** One option after clearing twice: present exactly when after clearing once, and with the same value. */
  lemma ClearTwiceAt(values: map<string, Value>, options: seq<string>, o: string)
    requires Distinct(options)
    ensures var once := Cleared(values, options, |options|);
      var twice := Cleared(once, options, |options|);
      (o in twice <==> o in once) && (o in once ==> twice[o] == once[o])
  {
    var n := |options|;
    assert options[..n] == options;
    var once := Cleared(values, options, n);
    ClearedSpec(values, options, n, o);
    ClearedSpec(once, options, n, o);
    if o in options {
      if Uninitialised(GetOption(values, o, Str(""))) {
        assert GetOption(once, o, Str("")) == InitialValue(o);
      } else {
        assert GetOption(once, o, Str("")) == GetOption(values, o, Str(""));
      }
    }
  }

  // ---------------------------------------------------------------------
  // The plugin object
  // ---------------------------------------------------------------------

  /** One record of `logs/options_updated.log`: the option, its old and its new value. */
  datatype OptionUpdate = OptionUpdate(option: string, oldValue: Value, newValue: Value)

  /** `SyncFire`. */
  class SyncFire {
    const store: OptionStore
    var updateLog: seq<OptionUpdate>

    constructor (store: OptionStore)
      ensures this.store == store && updateLog == []
    {
      this.store := store;
      updateLog := [];
    }

    /** `log_updated_option`: only options whose name starts with `syncfire_` are logged. */
    method LogUpdatedOption(option: string, oldValue: Value, value: Value)
      modifies this
      ensures updateLog == old(updateLog) + (if StartsWith(option, Prefix) then [OptionUpdate(option, oldValue, value)] else [])
    {
      if !StartsWith(option, "syncfire_") {
        return;
      }
      updateLog := updateLog + [OptionUpdate(option, oldValue, value)];
    }

    /** `clear_options_cache`: every listed option, in order, initialised if needed. */
    method ClearOptionsCache()
      modifies store
      ensures store.values == Cleared(old(store.values), AllOptions(), |AllOptions()|)
    {
      var options := AllOptions();
      var i := 0;
      while i < |options|
        invariant 0 <= i <= |options|
        invariant store.values == Cleared(old(store.values), options, i)
      {
        var option := options[i];
        var value := GetOption(store.values, option, Str(""));
        if value == Bool(false) || value == Str("") {
          if option in ArrayOptions() {
            var changed := store.Update(option, Arr([]));
          } else {
            var changed := store.Update(option, Str(""));
          }
        }
        i := i + 1;
      }
    }
  }

  /** The class's `static $instance`. */
  class Instance {
    const store: OptionStore
    var instance: SyncFire?

    constructor (store: OptionStore)
      ensures this.store == store && instance == null
    {
      this.store := store;
      instance := null;
    }

    /**
     * `get_instance`: the first call creates the object, every later call
     * returns that same object.
     */
    method GetInstance() returns (p: SyncFire)
      modifies this
      ensures old(instance) != null ==> p == old(instance)
      ensures old(instance) == null ==> fresh(p) && p.store == store && p.updateLog == []
      ensures instance == p
    {
      if instance == null {
        instance := new SyncFire(store);
      }
      p := instance;
    }
  }
}
