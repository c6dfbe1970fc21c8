# clui-demo contact terminal, modelled in Dafny

This project models the demo's own logic around a schema-driven command line:

- the GraphQL server's in-memory **contact store** (`search`, `list`, `add`,
  `remove`) and the `CluiOutput` union's `__resolveType`, which tags every
  resolver result as an error, a markdown text or a success message;
- the generated **form** (`CliForm`): the initial state built from the values
  already supplied on the command line, the `UPDATE` reducer, the hand-off of
  the state on submission, the auto-focused field and the control each
  argument renders as;
- the **prompt lifecycle** shared by `QueryPrompt` and `MutationPrompt`: the
  arguments it resolves, the one-shot execution guard, the loading and settled
  phases, `item.next()` on settling, cancellation and what is rendered;
- the **`email` command**: its sub-command map folded from a contact search,
  and the `Email` composer's submit / cancel controller.

Modules: `Wrappers` (Option), `Js` (argument values and JavaScript
truthiness), `Text` (ASCII lower-casing and `includes`), `Seqs` (`filter`,
`find`, last match), `Contacts` (the `Contact` record, email sets and
uniqueness), `ContactStore` (server), `Form`, `SessionItem` (the two signals a
component sends its session item), `Prompt`, `EmailCommand`, and `Scenarios`
(whole interactions of a prompt with its form on concrete arguments).

State that the source changes in place is a class: `ContactStore.Store` (the
module-level `contacts` array), `Form.CliForm` (the reducer state),
`Prompt.Lifecycle` (`submitted`, `called`, `loading`, `data`, `error`) and
`EmailCommand.Email` (`value`, `submitted`). Calls to collaborators are
recorded in fields: `Lifecycle.executions` holds the variables of every call
to `query` / `mutate`, and `itemLog` the signals sent to `props.item`.
The resolver `parseArgs` and the output extraction `toOutput` are function
values given to a `Lifecycle`; the values `getScalarType` and `isNonNull` answer
for an argument are fields of `Form.ArgSpec`. The executor's answer arrives as
a `Settle` event, and React's effects are run at the end of each event method.

Two behaviours of the code worth stating:
- A submission *replaces* the command-line values (`submitted || props.args || {}`);
  it is not merged with them. The values still reach the executor together
  because the form's state is initialised from the command-line values:
  `Scenarios.AddFormSubmission` and `Scenarios.AddWithPromptedEmail` show
  `add name=Ann` followed by a prompted email executing once with both.
- Cancelling sends `item.remove().next()` to the session item. Popping the
  stack is the session's business, which is not part of this model.

## Model

| member | source | states |
|---|---|---|
| `ContactStore.Store.constructor` | server/graphql.js:5-17 | the store starts with the given seed records |
| `ContactStore.Store.Search` | server/graphql.js:59-69 | returns `SearchResults` of the current list: a missing or empty query returns every contact in order; otherwise exactly the contacts whose lower-cased name or email contains the lower-cased query, each with its multiplicity, in original order; the list is not changed (no `modifies`) |
| `ContactStore.SearchResults` | server/graphql.js:60-66 | a missing or empty query gives the whole list; otherwise exactly the contacts whose lower-cased name or email contains the lower-cased query, each with its multiplicity, as a subsequence of the list |
| `ContactStore.SearchIgnoresQueryCase` | server/graphql.js:61-65 | searching for `q` and for its lower-cased form gives the same result |
| `ContactStore.FoundAfterAdd` | server/graphql.js:60-65 | a record appended to the list is found by searching for its own email |
| `ContactStore.Store.List` | server/graphql.js:72-83 | returns a markdown table of the whole list, tagged as markdown |
| `ContactStore.FindByEmail` | server/graphql.js:85 | finds a record with the given email iff that email is in the list, and what it finds is the first such record of the list |
| `ContactStore.Store.Add` | server/graphql.js:84-106 | an already-present email gives the error naming it and leaves the list unchanged; a new email appends exactly that record at the end and returns the markdown output; the tag matches; unique emails stay unique |
| `ContactStore.Store.Remove` | server/graphql.js:107-117 | an absent email gives the "not found" error and changes nothing; a present one drops every record with that email, keeps every other record with its count and in order, and returns the success message naming it; unique emails stay unique |
| `ContactStore.WithoutEmail` | server/graphql.js:114 | keeps exactly the records whose email differs, each with its count, in order; the email no longer occurs; unique emails stay unique |
| `ContactStore.RemoveUndoesAdd` | server/graphql.js:114 | removing the email of a record just added (with a new email) restores the earlier list |
| `ContactStore.RemoveDropsOne` | server/graphql.js:114 | with unique emails, removing a present email shortens the list by exactly one |
| `ContactStore.ResolveType` | server/graphql.js:120-130 | the tag is error iff `error` is truthy, markdown iff not error and `markdown` is set, success otherwise |
| `Contacts.AppendKeepsUnique` | server/graphql.js:85-91 | appending a record whose email is new keeps emails unique |
| `Contacts.FilterKeepsUnique` | server/graphql.js:114 | any filter of a list with unique emails keeps them unique |
| `Seqs.FilterMembers` | server/graphql.js:61-65 | an element is in `filter(p)` iff it is in the list and satisfies `p` |
| `Seqs.FilterIsSubsequence` | server/graphql.js:61-65 | `filter` keeps the original order |
| `Seqs.FilterCount` | server/graphql.js:61-65 | `filter` keeps each element's multiplicity or drops it entirely |
| `Seqs.FilterAppend` | server/graphql.js:114 | filtering distributes over concatenation |
| `Seqs.Find` | server/graphql.js:85 | `find` returns the first element satisfying the predicate, and nothing iff none does |
| `Text.ContainsAt` | server/graphql.js:63-64 | `includes` holds iff the needle starts at some position of the text |
| `Form.Reduce` | client/Form.jsx:5-15 | `UPDATE` gives the union of keys, the updates' values on their keys and the old values elsewhere; any other action returns the state as is |
| `Form.UpdatesCompose` | client/Form.jsx:5-15 | two updates in a row equal one update with the later values winning |
| `Form.Declared` | client/Form.jsx:103 | finds the first declared argument with the key's name iff one exists |
| `Form.InitialValue` | client/Form.jsx:106-115 | a Boolean-typed argument with any defined value (including `false`) starts as `true`; any other keeps its value only if defined and not a boolean |
| `Form.InitialState` | client/Form.jsx:102-119 | the initial state holds only keys of declared arguments that were supplied, exactly those whose value yields an initial value, with that value; no arguments give `{}` |
| `Form.CliForm.constructor` | client/Form.jsx:99-121 | the form's state starts as the initial state of its arguments |
| `Form.CliForm.Dispatch` | client/Form.jsx:121 | the new state is the reducer applied to the old state |
| `Form.CliForm.CheckboxChanged` | client/Form.jsx:156-158 | a checkbox change sets its argument to the checked flag and nothing else |
| `Form.CliForm.TextChanged` | client/Form.jsx:165 | a text change sets its argument to the text and nothing else |
| `Form.CliForm.Submit` | client/Form.jsx:123-126 | submission hands over the current state unchanged |
| `Form.AutoFocus` | client/Form.jsx:133-135 | the focused argument is the first, in declaration order, that is not "boolean" and whose state value is falsy; none iff no argument qualifies |
| `Form.FieldFor` | client/Form.jsx:141-167 | a "boolean" argument is a checkbox checked iff its value is truthy; any other is a text input showing its value if it is a string, else `""`, auto-focused iff it is the focused argument |
| `Form.Fields` | client/Form.jsx:141-168 | one field per declared argument, in declaration order |
| `Form.FocusIsUnique` | client/Form.jsx:163 | with unique argument names at most one field is auto-focused, and one is iff some argument qualifies |
| `Prompt.ArgumentSource` | client/QueryPrompt.jsx:16 | the submission if there is one, else the command-line values, else `{}`; a submission replaces the command-line values |
| `Prompt.MayExecute` | client/QueryPrompt.jsx:27-31 | the guard opens only when not called and no required argument is missing; then it opens when nothing optional is missing or a submission exists; a missing optional argument without a submission keeps it closed |
| `Prompt.Lifecycle.constructor` | client/QueryPrompt.jsx:10-38 | on mount nothing is submitted and the query runs at once, with the resolved variables, iff nothing at all is missing |
| `Prompt.Lifecycle.ExecuteEffect` | client/QueryPrompt.jsx:26-38 | executes, recording the variables, iff not called, no required argument missing, and no optional one missing or a submission made; otherwise changes nothing |
| `Prompt.Lifecycle.Submit` | client/QueryPrompt.jsx:68 | the submission replaces the arguments; the operation then runs once iff not yet called and the submitted values leave no required argument missing; it keeps `Valid`, so it never runs twice |
| `Prompt.Lifecycle.Rerender` | client/MutationPrompt.jsx:26-38 | a re-render with unchanged props never executes |
| `Prompt.Lifecycle.Settle` | client/QueryPrompt.jsx:40-44 | the answer ends loading, stores exactly one of data and error, and sends `item.next()` once when there is an item |
| `Prompt.Lifecycle.Cancel` | client/MutationPrompt.jsx:69-73 | cancel sends `item.remove().next()` when there is an item, nothing otherwise, and executes nothing |
| `Prompt.Lifecycle.View` | client/QueryPrompt.jsx:46-78 | renders the error first, then loading, then the output extracted from the data, then the form over the command-line values while an argument is missing, and the empty element exactly when none of these applies |
| `Prompt.Lifecycle.ViewMatchesPhase` | client/QueryPrompt.jsx:46-78 | between events: the error view iff an error, loading iff in flight, the output iff data, the form over the command-line values iff nothing executed yet, never the empty element |
| `Scenarios.AddFormSubmission` | client/Form.jsx:102-126 | the form opened for `add name=Ann` starts with just the name; after the email is typed its submission hands over both values |
| `Scenarios.AddWithPromptedEmail` | client/MutationPrompt.jsx:16-44 | `add name=Ann`: no execution at first and the prompt shows the form, which is built over the view's own arguments; after the form's submission, exactly one mutation with both values; settling sends one `next` |
| `Scenarios.OptionalFlagOnly` | client/QueryPrompt.jsx:26-38 | only an optional argument missing: nothing runs before a submission; an empty submission runs it once with no variables; later submissions and re-renders do not run it again |
| `Scenarios.SubmissionStillMissing` | client/MutationPrompt.jsx:29-76 | a submission that leaves a required argument missing executes nothing and keeps the form shown |
| `EmailCommand.Commands` | client/commands/email.jsx:83-94 | no `search` list gives no sub-commands; otherwise the keys are exactly the returned emails, each entry describes and runs the last contact with that email, and there are at most as many entries as contacts, as many iff the emails are distinct |
| `EmailCommand.LastWithEmailSnoc` | client/commands/email.jsx:85-88 | a later contact overwrites the entry for its email and leaves the others alone |
| `Contacts.EmailSetSize` | client/commands/email.jsx:84-91 | a list has at most as many distinct emails as records, and exactly as many iff its emails are unique |
| `EmailCommand.Email.constructor` | client/commands/email.jsx:6-9 | the composer starts with empty text, not submitted, no signals sent, and the invariant holds |
| `EmailCommand.Email.Change` | client/commands/email.jsx:46 | typing sets the text and nothing else, keeping the invariant |
| `EmailCommand.Email.Submit` | client/commands/email.jsx:17-25 | submitting, possible only while the form is shown, marks the message sent and sends `item.next()` when there is an item; the invariant keeps that `next` the only one over the composer's life |
| `EmailCommand.Email.Cancel` | client/commands/email.jsx:51-55 | cancel, possible only before the message is sent, sends `item.remove().next()` when there is an item and nothing otherwise; the invariant is kept |
| `EmailCommand.Email.View` | client/commands/email.jsx:27-48 | once submitted, the confirmation naming the email; before, the composer addressed to the contact showing the text and a placeholder naming the contact |

## Left out

- The seed data: the source fills the list with 100 random faker records in a loop; here the seed is the constructor's argument. Such seeds need not have unique emails, so uniqueness is stated as preserved, not as always true.
- The markdown layout: json2md's table text is not modelled; `ContactStore.Markdown` records only what is tabulated, and is taken to be non-empty (truthy) text.
- Lower-casing is ASCII only; Unicode case mapping is not modelled.
- `console.log` and the Apollo server setup.
- The command-tree builder `toCommand`, the resolver `parseArgs` and its helpers `getScalarType` / `isNonNull`, and the session stack are library code outside these files; their results are inputs (function values or record fields) here.
- client/Terminal.jsx (wiring the session, `toCommand`, `lodash.merge` and the removal of `search`) is not part of this model.
- Apollo's transport, `fetchPolicy`, and the asynchronous `search` call of the `email` command: their results are event or method arguments.
- React rendering itself: styles, `Controls`, `Output`, `ErrorOutput`, the "(optional)" descriptions, and the `useRef` focus effect of the composer.
- `QueryPrompt` hands its form `field=` while `CliForm` reads `command`; the model gives the form the argument list instead of reproducing that mismatch.
- `Prompt.Lifecycle.View`: the empty element React renders when nothing is missing and nothing has been called (on mount, or after a submission that completes the arguments) is a transient between that render and the effect that follows it; the model runs effects within each event, so between events that view is never seen.
- `Prompt.Lifecycle.Settle`: requires a call in flight, since the executor only answers calls that were made; an answer carrying both data and an error is not modelled.
- Argument values are strings, booleans, integers, `null` and `undefined`; floating-point numbers, arrays and nested objects are not modelled.
- JavaScript objects are plain maps here, with no prototype: a state key such as `constructor` or `toString` that the source would read as an inherited (truthy) property reads as `undefined` in `Js.Get`, and the key `__proto__`, which in `EmailCommand.Commands` would set the accumulator's prototype instead of adding an entry, is an ordinary key.
- Strings are sequences of Unicode scalar values, whereas JavaScript's `includes` compares UTF-16 code units; text outside the Basic Multilingual Plane may match differently.
- `EmailCommand.Commands` returns a `map`, so the first-insertion order in which a JavaScript object lists its keys is not kept.
- A search response whose `data` is `null` makes `res.data.search` throw in the source; the model takes the `search` list (or its absence) as input and does not model that exception.
