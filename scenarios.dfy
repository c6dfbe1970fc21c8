/** Whole interactions with a prompt and its form, on concrete arguments. */
module Scenarios {
  import opened Wrappers
  import opened Js
  import opened SessionItem
  import opened Form
  import opened Prompt

  /** A resolver for `add(name: String!, email: String!)`: both arguments are
      required and are supplied by a string value. */
  function AddArgs(known: Object): Parsed
  {
    var hasName := "name" in known && known["name"].Str?;
    var hasEmail := "email" in known && known["email"].Str?;
    Parsed(map k | k in known && (k == "name" || k == "email") && known[k].Str? :: known[k],
           Missing(!hasName || !hasEmail, false))
  }

  /** A resolver for a command with one optional Boolean flag `verbose`. */
  function FlagArgs(known: Object): Parsed
  {
    Parsed(if "verbose" in known then map["verbose" := Bool(true)] else map[],
           Missing(false, "verbose" !in known))
  }

  function AddSpecs(): seq<ArgSpec>
  {
    [ArgSpec("name", "String!", "String", true, ""), ArgSpec("email", "String!", "String", true, "")]
  }

  lemma AddInitialState(state: Object)
    requires IsInitialState(AddSpecs(), Some(map["name" := Str("Ann")]), state)
    ensures state == map["name" := Str("Ann")]
  {
    var specs := AddSpecs();
    assert Declared(specs, "name") == Some(specs[0]);
    assert state.Keys <= {"name"};
  }

  lemma AddArgsComplete()
    ensures AddArgs(map["name" := Str("Ann"), "email" := Str("a@x.com")])
         == Parsed(map["name" := Str("Ann"), "email" := Str("a@x.com")], Missing(false, false))
  {
  }

  /** The form opened for `add name=Ann`: it starts with the name, and after
      the user types the email its submission hands over both values. */
  method AddFormSubmission(args: Option<Object>) returns (initial: Object, submitted: Object)
    requires args == Some(map["name" := Str("Ann")])
    ensures initial == map["name" := Str("Ann")]
    ensures submitted == map["name" := Str("Ann"), "email" := Str("a@x.com")]
  {
    var form := new CliForm(AddSpecs(), args);
    initial := form.state;
    AddInitialState(initial);
    form.TextChanged("email", "a@x.com");
    submitted := form.Submit();
  }

  /** `add name=Ann`: the email is missing, so nothing runs and the prompt
      shows the form over the command line's values; the form's submission, which still holds
      the name, replaces the props, and the mutation runs once with both
      values; its answer sends one `item.next()`. */
  method AddWithPromptedEmail() returns (before: seq<Object>, after: seq<Object>, signals: seq<Signal>)
    ensures before == []
    ensures after == [map["name" := Str("Ann"), "email" := Str("a@x.com")]]
    ensures signals == [Next]
  {
    var cmdline: Object := map["name" := Str("Ann")];
    var prompt := new Lifecycle<string, string>(Mutation, Some(cmdline), AddArgs, (d: string) => d, true);
    assert AddArgs(cmdline).missing.required;
    before := prompt.executions;

    prompt.ViewMatchesPhase();
    var view := prompt.View();
    var _, values := AddFormSubmission(view.args);
    AddArgsComplete();
    prompt.Submit(values);
    after := prompt.executions;

    prompt.Settle(Done("Added contact"));
    signals := prompt.itemLog;
  }

  /** A command whose only argument is an optional flag: nothing runs until the
      user submits, an empty submission runs it with no variables, and later
      submissions and re-renders do not run it again. */
  method OptionalFlagOnly() returns (before: seq<Object>, after: seq<Object>, later: seq<Object>)
    ensures before == []
    ensures after == [map[]]
    ensures later == [map[]]
  {
    var prompt := new Lifecycle<string, string>(Query, None, FlagArgs, (d: string) => d, true);
    before := prompt.executions;
    prompt.Submit(map[]);
    after := prompt.executions;
    prompt.Submit(map["verbose" := Bool(false)]);
    prompt.Rerender();
    later := prompt.executions;
  }

  /** A submission that still leaves a required argument missing runs nothing
      and keeps the form on screen. */
  method SubmissionStillMissing() returns (executions: seq<Object>, view: View<string>)
    ensures executions == []
    ensures view == FormView(Some(map["name" := Str("Ann")]))
  {
    var cmdline: Object := map["name" := Str("Ann")];
    var prompt := new Lifecycle<string, string>(Mutation, Some(cmdline), AddArgs, (d: string) => d, true);
    prompt.Submit(map["email" := Str("a@x.com")]);
    executions := prompt.executions;
    prompt.ViewMatchesPhase();
    view := prompt.View();
  }

}
