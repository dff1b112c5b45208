/**
 * `SyncFire_Settings_Test`: the self-check that every option is
 * registered in the plugin's settings group, the check of the settings
 * form, and their combination. Translation (`__`) is the identity here;
 * the admin URL and the current time are inputs.
 */
module SettingsTest {
  import opened Php
  import opened Options
  import opened Functions

  // ---------------------------------------------------------------------
  // test_settings_registration
  // ---------------------------------------------------------------------

  /** Among the first `n` names, the registered ones whose group is not the plugin's. */
  function WrongGroup(names: seq<string>, registered: map<string, Registration>, n: nat): seq<string>
    requires n <= |names|
    decreases n
  {
    if n == 0 then []
    else
      var x := names[n - 1];
      WrongGroup(names, registered, n - 1) +
      (if x in registered && registered[x].group != Some(Group) then [x] else [])
  }

  /** Exactly the registered names with a missing or foreign group are reported. */
  lemma {:induction false} WrongGroupMembers(names: seq<string>, registered: map<string, Registration>, n: nat)
    requires n <= |names|
    ensures forall x :: x in WrongGroup(names, registered, n) <==>
      x in names[..n] && x in registered && registered[x].group != Some(Group)
    decreases n
  {
    if n > 0 {
      WrongGroupMembers(names, registered, n - 1);
      assert names[..n] == names[..n - 1] + [names[n - 1]];
    }
  }

  datatype RegistrationResults = RegistrationResults(
    missingOptions: seq<string>,
    incorrectGroup: seq<string>,
    totalOptions: nat,
    registeredOptions: nat,
    success: bool,
    message: string)

  function AllRegisteredText(total: nat): string {
    "All " + IntToString(total) + " options are correctly registered with the proper group."
  }

  function MissingText(missing: seq<string>): string {
    "Missing options: " + Join(missing, ", ")
  }

  function IncorrectGroupText(incorrect: seq<string>): string {
    "Options with incorrect group: " + Join(incorrect, ", ")
  }

  /** The parts of a failure message: the missing part, then the group part, each when non-empty. */
  function FailureParts(missing: seq<string>, incorrect: seq<string>): seq<string> {
    (if missing != [] then [MissingText(missing)] else []) +
    (if incorrect != [] then [IncorrectGroupText(incorrect)] else [])
  }

  /** A failure message names the missing options first and then the misgrouped ones. */
  lemma FailureMessage(missing: seq<string>, incorrect: seq<string>)
    ensures missing != [] && incorrect != [] ==>
      Join(FailureParts(missing, incorrect), " ") == MissingText(missing) + " " + IncorrectGroupText(incorrect)
    ensures missing != [] && incorrect == [] ==> Join(FailureParts(missing, incorrect), " ") == MissingText(missing)
    ensures missing == [] && incorrect != [] ==> Join(FailureParts(missing, incorrect), " ") == IncorrectGroupText(incorrect)
  {
    if missing != [] && incorrect != [] {
      var parts := FailureParts(missing, incorrect);
      assert parts == [MissingText(missing), IncorrectGroupText(incorrect)];
      assert parts[1..] == [IncorrectGroupText(incorrect)];
    }
  }

  /**
   * `test_settings_registration` over `$wp_registered_settings`: one pass
   * over the options, each either counted as registered or listed as
   * missing, a registered one also listed when its group is wrong.
   */
  method TestSettingsRegistration(registered: map<string, Registration>) returns (r: RegistrationResults)
    ensures r.totalOptions == |AllOptions()|
    ensures r.missingOptions == NotIn(AllOptions(), registered.Keys, |AllOptions()|)
    ensures r.incorrectGroup == WrongGroup(AllOptions(), registered, |AllOptions()|)
    ensures r.registeredOptions == CountIn(AllOptions(), registered.Keys, |AllOptions()|)
    ensures r.success <==> r.missingOptions == [] && r.incorrectGroup == []
    ensures r.message == if r.success then AllRegisteredText(r.totalOptions)
      else Join(FailureParts(r.missingOptions, r.incorrectGroup), " ")
  {
    var options := AllOptions();
    var missing: seq<string> := [];
    var incorrect: seq<string> := [];
    var count := 0;
    var success := true;
    var i := 0;
    while i < |options|
      invariant 0 <= i <= |options|
      invariant missing == NotIn(options, registered.Keys, i)
      invariant incorrect == WrongGroup(options, registered, i)
      invariant count == CountIn(options, registered.Keys, i)
      invariant success <==> missing == [] && incorrect == []
    {
      var option := options[i];
      if option !in registered {
        missing := missing + [option];
        success := false;
      } else {
        count := count + 1;
        if registered[option].group.None? || registered[option].group.value != Group {
          incorrect := incorrect + [option];
          success := false;
        }
      }
      i := i + 1;
    }
    var message: string;
    if success {
      message := AllRegisteredText(|options|);
    } else {
      var parts: seq<string> := [];
      if missing != [] {
        parts := parts + [MissingText(missing)];
      }
      if incorrect != [] {
        parts := parts + [IncorrectGroupText(incorrect)];
      }
      message := Join(parts, " ");
    }
    r := RegistrationResults(missing, incorrect, |options|, count, success, message);
  }

  /**
   * The counts add up: every option of the list `opts` (`get_all_options`
   * in the plugin) is either registered or missing, and only registered
   * options can have the wrong group; the missing ones keep the order of
   * the option list.
   */
  lemma RegistrationCounts(opts: seq<string>, registered: map<string, Registration>)
    ensures var n := |opts|;
      CountIn(opts, registered.Keys, n) + |NotIn(opts, registered.Keys, n)| == n &&
      SubsequenceOf(NotIn(opts, registered.Keys, n), opts) &&
      (forall x :: x in WrongGroup(opts, registered, n) ==> x in registered && x !in NotIn(opts, registered.Keys, n))
  {
    var n := |opts|;
    assert opts[..n] == opts;
    NotInMembers(opts, registered.Keys, n);
    WrongGroupMembers(opts, registered, n);
  }

  /** No name is misgrouped when each of the first `n` is registered in the plugin's group. */
  lemma {:induction false} WrongGroupEmpty(names: seq<string>, registered: map<string, Registration>, n: nat)
    requires n <= |names|
    requires forall i :: 0 <= i < n ==> names[i] in registered && registered[names[i]].group == Some(Group)
    ensures WrongGroup(names, registered, n) == []
    decreases n
  {
    if n > 0 {
      WrongGroupEmpty(names, registered, n - 1);
    }
  }

  /**
   * Registering every option through `syncfire_register_option` makes
   * the check pass: each option is then registered in the plugin's group.
   */
  lemma RegisteredOptionsPass(options: seq<string>, registered: map<string, Registration>)
    requires forall o :: o in options ==> o in registered && registered[o].group == Some(Group)
    ensures NotIn(options, registered.Keys, |options|) == []
    ensures WrongGroup(options, registered, |options|) == []
    ensures CountIn(options, registered.Keys, |options|) == |options|
  {
    NotInEmpty(options, registered.Keys);
    WrongGroupEmpty(options, registered, |options|);
  }

  // ---------------------------------------------------------------------
  // test_form_submission and run_all_tests
  // ---------------------------------------------------------------------

  datatype FormResults = FormResults(formAction: string, optionPage: string, success: bool, message: string)

  const FormActionEmptyText := "Form action URL is empty."
  const FormCorrectText := "Form submission configuration is correct."

  function OptionPageIncorrectText(expected: string, got: string): string {
    "Option page is incorrect. Expected: " + expected + ", Got: " + got
  }

  /**
   * `test_form_submission`, with `formAction` what `admin_url('options.php')`
   * returns: the option page is always the plugin's group, so only an empty
   * form action can make it fail.
   */
  method TestFormSubmission(formAction: string) returns (r: FormResults)
    ensures r.formAction == formAction && r.optionPage == Group
    ensures r.success <==> !EmptyString(formAction)
    ensures r.message == if r.success then FormCorrectText else FormActionEmptyText
  {
    var optionPage := Group;
    var success := true;
    var message := "";
    if EmptyString(formAction) {
      success := false;
      message := FormActionEmptyText;
    }
    if optionPage != Group {
      success := false;
      message := OptionPageIncorrectText(Group, optionPage);
    }
    if success {
      message := FormCorrectText;
    }
    r := FormResults(formAction, optionPage, success, message);
  }

  datatype CombinedResults = CombinedResults(registration: RegistrationResults, form: FormResults, success: bool, timestamp: int)

  /** `run_all_tests`: both checks, passing only when both pass. */
  method RunAllTests(registered: map<string, Registration>, formAction: string, now: int) returns (c: CombinedResults)
    ensures c.success <==> c.registration.success && c.form.success
    ensures c.success <==>
      NotIn(AllOptions(), registered.Keys, 17) == [] && WrongGroup(AllOptions(), registered, 17) == [] && !EmptyString(formAction)
    ensures c.timestamp == now
  {
    var registration := TestSettingsRegistration(registered);
    var form := TestFormSubmission(formAction);
    c := CombinedResults(registration, form, registration.success && form.success, now);
  }
}
