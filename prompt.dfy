/** The lifecycle of one prompt: `QueryPrompt` and `MutationPrompt` are the
    same state machine, driving the lazy query or the mutation respectively.
    The argument resolver (`parseArgs`), the result extraction (`toOutput`)
    and the executor are collaborators that are not part of this model; the
    first two are given as functions, the executor's calls are recorded and
    its answers arrive as `Settle` events. React re-runs the prompt's effects
    after each change of state, so each event method below ends with them. */
module Prompt {
  import opened Wrappers
  import opened Js
  import opened SessionItem

  datatype OperationKind = Query | Mutation

  /** `parsed.missing`. */
  datatype Missing = Missing(required: bool, optional: bool)

  /** What `parseArgs` returns. */
  datatype Parsed = Parsed(variables: Object, missing: Missing)

  /** The executor's answer. */
  datatype Outcome<Data> = Done(data: Data) | Failed(error: string)

  /** What the prompt renders. */
  datatype View<Out> = ErrorView(error: string) | LoadingView | OutputView(output: Out) | FormView(args: Option<Object>) | EmptyView

  /** The arguments handed to the resolver: `submitted || props.args || {}`.
      A submission replaces the props; it is not merged with them. */
  function ArgumentSource(submitted: Option<Object>, propsArgs: Option<Object>): (r: Object)
    ensures submitted.Some? ==> r == submitted.value
    ensures submitted.None? && propsArgs.Some? ==> r == propsArgs.value
    ensures submitted.None? && propsArgs.None? ==> r == map[]
  {
    if submitted.Some? then submitted.value else if propsArgs.Some? then propsArgs.value else map[]
  }

  /** The execute effect's guard: not yet called, no required argument missing,
      and either no optional argument missing or an explicit submission made. */
  predicate MayExecute(called: bool, missing: Missing, hasSubmission: bool)
    ensures MayExecute(called, missing, hasSubmission) ==> !called && !missing.required
    ensures !called && !missing.required && !missing.optional ==> MayExecute(called, missing, hasSubmission)
    ensures !called && !missing.required && hasSubmission ==> MayExecute(called, missing, hasSubmission)
    ensures !hasSubmission && missing.optional ==> !MayExecute(called, missing, hasSubmission)
  {
    !called && !missing.required && (!missing.optional || hasSubmission)
  }

  class Lifecycle<Data, Out> {
    /** Which component the machine stands for (`QueryPrompt` or
        `MutationPrompt`); it only labels the prompt, the two behave alike. */
    const kind: OperationKind
    /** `props.args`: the values supplied on the command line. */
    const propsArgs: Option<Object>
    /** `parseArgs` over the command's declared arguments. */
    const parse: Object -> Parsed
    /** `props.toOutput`: extracts the output from the response data. */
    const toOutput: Data -> Out
    /** Whether `props.item` is set. */
    const hasItem: bool

    var submitted: Option<Object>
    var called: bool
    var loading: bool
    var data: Option<Data>
    var error: Option<string>
    /** The variables of every call to `query` / `mutate`, in order. */
    var executions: seq<Object>
    /** The signals sent to `props.item`, in order. */
    var itemLog: seq<Signal>

    function ParsedArgs(): Parsed
      reads this
    {
      parse(ArgumentSource(submitted, propsArgs))
    }

    predicate Settled()
      reads this
    {
      data.Some? || error.Some?
    }

    /** The lifecycle's invariant: at most one execution, called exactly when
        executed; before that the guard is closed; loading lasts from the call
        to the answer; afterwards exactly one of data and error is present; and
        `item.next()` has been sent once if and only if the prompt settled. */
    ghost predicate Valid()
      reads this
    {
      && |executions| <= 1
      && (called <==> |executions| == 1)
      && (!called ==> !MayExecute(false, ParsedArgs().missing, submitted.Some?))
      && (!called ==> !loading && data.None? && error.None?)
      && (loading ==> called && data.None? && error.None?)
      && (called && !loading ==> data.Some? != error.Some?)
      && multiset(itemLog)[Next] == (if hasItem && Settled() then 1 else 0)
    }

    /** The prompt as it mounts: nothing submitted, and the execute effect runs
        once on what the command line supplied. */
    constructor (kind: OperationKind, propsArgs: Option<Object>, parse: Object -> Parsed, toOutput: Data -> Out, hasItem: bool)
      ensures Valid()
      ensures this.kind == kind && this.propsArgs == propsArgs && this.parse == parse
      ensures this.toOutput == toOutput && this.hasItem == hasItem
      ensures submitted.None? && data.None? && error.None? && itemLog == []
      ensures var p := parse(ArgumentSource(None, propsArgs));
        if MayExecute(false, p.missing, false) then executions == [p.variables] && called && loading
        else executions == [] && !called && !loading
    {
      this.kind := kind;
      this.propsArgs := propsArgs;
      this.parse := parse;
      this.toOutput := toOutput;
      this.hasItem := hasItem;
      submitted := None;
      called := false;
      loading := false;
      data := None;
      error := None;
      executions := [];
      itemLog := [];
      new;
      ExecuteEffect();
    }

    /** The effect that fires `query` / `mutate` with the resolved variables. */
    method ExecuteEffect()
      requires !called ==> !loading && data.None? && error.None?
      requires |executions| <= 1 && (called <==> |executions| == 1)
      modifies this
      ensures submitted == old(submitted) && data == old(data) && error == old(error) && itemLog == old(itemLog)
      ensures var p := old(ParsedArgs());
        if MayExecute(old(called), p.missing, old(submitted).Some?)
        then executions == old(executions) + [p.variables] && called && loading
        else executions == old(executions) && called == old(called) && loading == old(loading)
    {
      var parsed := ParsedArgs();
      if called || parsed.missing.required || (parsed.missing.optional && submitted.None?) {
        return;
      }
      executions := executions + [parsed.variables];
      called := true;
      loading := true;
    }

    /** The form's `onSubmit` (`setSubmitted`), followed by the execute effect. */
    method Submit(values: Object)
      requires Valid()
      modifies this
      ensures Valid()
      ensures submitted == Some(values) && data == old(data) && error == old(error) && itemLog == old(itemLog)
      ensures var p := parse(values);
        if MayExecute(old(called), p.missing, true)
        then executions == old(executions) + [p.variables] && called && loading
        else executions == old(executions) && called == old(called) && loading == old(loading)
    {
      submitted := Some(values);
      ExecuteEffect();
    }

    /** A re-render with unchanged props: the effect runs again. */
    method Rerender()
      requires Valid()
      modifies this
      ensures Valid()
      ensures submitted == old(submitted) && data == old(data) && error == old(error) && itemLog == old(itemLog)
      ensures executions == old(executions) && called == old(called) && loading == old(loading)
    {
      ExecuteEffect();
    }

    /** The executor answers the call in flight; the second effect then sends
        `item.next()` when there is an item. */
    method Settle(outcome: Outcome<Data>)
      requires Valid() && loading
      modifies this
      ensures Valid()
      ensures !loading && Settled()
      ensures outcome.Done? ==> data == Some(outcome.data) && error.None?
      ensures outcome.Failed? ==> error == Some(outcome.error) && data.None?
      ensures itemLog == old(itemLog) + (if hasItem then [Next] else [])
      ensures submitted == old(submitted) && executions == old(executions) && called == old(called)
    {
      loading := false;
      match outcome {
        case Done(d) => data := Some(d);
        case Failed(e) => error := Some(e);
      }
      if hasItem {
        itemLog := itemLog + [Next];
      }
    }

    /** The form's `onCancel`: `item.remove().next()` when there is an item. */
    method Cancel()
      requires Valid()
      modifies this
      ensures Valid()
      ensures itemLog == old(itemLog) + (if hasItem then [RemoveThenNext] else [])
      ensures submitted == old(submitted) && executions == old(executions) && called == old(called)
      ensures loading == old(loading) && data == old(data) && error == old(error)
    {
      if hasItem {
        itemLog := itemLog + [RemoveThenNext];
      }
    }

    /** What the prompt renders: the error, else the loading indicator, else
        the output extracted from the data, else the form while an argument is
        missing, else an empty element. */
    function View(): (v: View<Out>)
      reads this
      ensures error.Some? ==> v == ErrorView(error.value)
      ensures error.None? && loading ==> v == LoadingView
      ensures error.None? && !loading && data.Some? ==> v == OutputView(toOutput(data.value))
      ensures (error.None? && !loading && data.None? && (ParsedArgs().missing.required || ParsedArgs().missing.optional))
        ==> v == FormView(propsArgs)
      ensures v == EmptyView <==> error.None? && !loading && data.None? &&
                                  !ParsedArgs().missing.required && !ParsedArgs().missing.optional
    {
      var parsed := ParsedArgs();
      if error.Some? then ErrorView(error.value)
      else if loading then LoadingView
      else if data.Some? then OutputView(toOutput(data.value))
      else if parsed.missing.optional || parsed.missing.required then FormView(propsArgs)
      else EmptyView
    }

    /** Between events each phase has its own view: the error or the output once
        settled, the loading indicator while the call is in flight, and the
        form (over the command-line values) exactly while nothing has been
        executed. The empty element is only ever seen between a render in which
        nothing is missing and nothing has been called and the effect that
        follows it. */
    lemma ViewMatchesPhase()
      requires Valid()
      ensures View().ErrorView? <==> error.Some?
      ensures View().ErrorView? ==> View().error == error.value
      ensures View() == LoadingView <==> loading
      ensures View().OutputView? <==> data.Some?
      ensures View().OutputView? ==> View().output == toOutput(data.value)
      ensures View().FormView? <==> !called
      ensures View().FormView? ==> View().args == propsArgs
      ensures View() != EmptyView
    {
    }
  }

}
