# Survey tracker core, modelled in Dafny

The service posts a survey (a question with up to five answers) into a
conversation as an interactive form, and later tallies each form submission
onto that survey. The user's surveys live in a small per-user key-value
table. This project models that core:

- `store.dfy` (module `Store`): the in-memory table, which maps a user id to
  an entry, and the entry's key (`settings` or `token`) to the saved
  document. `Table.Save` creates the entry on demand. `Table.Get` gives
  `NoUser` (the source's `false`) for an unknown user and `NoKey` (the
  source's `undefined`) for a missing key. `users` records the order in which
  users were added, which is the object-key order `getUsers` and `getValues`
  return for the user ids the service uses. The ghost counter `saves` counts
  the writes of the table to the data file.
- `surveys.dfy` (module `Surveys`): the survey record and the initial record
  the posting route builds.
- `circuit.dfy` (module `Circuit`): building the form (`BuildForm`), posting
  (`PostSurvey`), and tallying a submission (`HandleFormSubmission`). The
  tallying method is proved against the pure functions `FindFirst`, `Tally`
  and `Record`. `SurveyScenario` is a client of the two methods: post
  "Lunch?" with "Pizza"/"Salad", take a vote for each answer, then a vote for
  an unknown form id and one whose submitter cannot be resolved.
- `wrappers.dfy`: the `Option` type.

Modelling choices:

- The random form id, the message id the messaging client returns and the
  submitter's email address are parameters. The message id and the address
  are `Option`s: `None` stands for the client call failing (no client for the
  user, the post rejected, the user lookup rejected), which aborts the
  operation before anything is saved.
- A string answer is truthy exactly when it is not empty.
- The store holds `Doc`s: a survey list under `settings`, a token under
  `token`.
- `HandleFormSubmission` returns an `Outcome` that stands for the line the
  handler logs. Whether a save happened is stated on the store itself,
  through `saves`: `UnknownForm` and `Aborted` save nothing, while an unknown
  choice saves the unchanged collection.
- The source reads the live stored array and pushes into it. The model does
  this as a read-modify-write of the store's map, which has the same effect.

Behaviour of the code that the model keeps on purpose:

- Option values are the strings `"1"`..`"5"`, one per answer index.
- Answer 1 always gets an option, even when it is empty.
- Every survey has five respondent lists, one per answer field, including the fields left empty.
- A submitted value `"3"` for a survey whose answer 3 is empty is still
  recorded in `answer3UserIds`. The handler checks only that the value is
  one of `"1"`..`"5"`.
- An unknown choice still saves the collection, unchanged.

## Model

| member | source | states |
|---|---|---|
| `Store.Table.constructor` | store.js:9-12 | the table starts empty, with no users |
| `Store.Table.Get` | store.js:36-38 | `NoUser` (`false`) for a user without an entry, `NoKey` (`undefined`) for an entry without the key, and `Found` of the stored document when the entry holds the key |
| `Store.Table.GetUsers` | store.js:19-21 | every user with an entry, each exactly once, in the order users were added (the `users` order that `Save` extends) |
| `Store.Table.GetValues` | store.js:14-17 | exactly one entry per user, position by position in the order of `GetUsers` |
| `Store.ValuesOf` | store.js:14-17 | the mapped sequence has the same length as the user list, and element i is user i's entry |
| `Store.Table.Save` | store.js:28-34 | the table becomes `Put` of the old one and is written out once more; a new user is appended to the user order and an existing one adds no key; `Get` of the saved key returns the object; the other key of that user reads as before, or `NoKey` if the user is new; every other user reads as before |
| `Store.Table.SaveSettings` | store.js:23 | `Save` under `settings`; the token reads as before, or `NoKey` if the user is new |
| `Store.Table.SaveToken` | store.js:24 | `Save` under `token`; the settings read as before, or `NoKey` if the user is new |
| `Store.Table.GetSettings` | store.js:25 | `Get` under `settings`: `NoUser` for an unknown user, `NoKey` for an entry without settings, otherwise `Found` of the stored settings |
| `Store.Table.GetToken` | store.js:26 | `Get` under `token`: `NoUser` for an unknown user, `NoKey` for an entry without a token, otherwise `Found` of the stored token |
| `Store.FindPutSame` | store.js:28-31 | after saving `obj` under a key for a user, reading that key for that user yields `obj` |
| `Store.FindPutOtherKey` | store.js:30-31 | saving under one key does not change the user's other key; if the user had no entry, the other key now reads `NoKey` instead of `NoUser` |
| `Store.FindPutOtherUser` | store.js:30-31 | saving for one user changes nothing that any other user reads |
| `Store.PutStored` | store.js:28-31 | saving the document that is already stored leaves the table equal to what it was |
| `Surveys.NewSurvey` | index.js:108-122 | the record carries the conversation, question and five answers as given, all five respondent lists are empty (zero votes), and there is no form id or message id yet |
| `Surveys.TotalVotesUpdate` | circuit.js:167-187 | replacing one survey changes the collection's vote total by exactly that survey's change |
| `Circuit.ChoiceIndex` | circuit.js:167-190 | a submitted value selects answer k exactly when it is the value `"k"` the form gives answer k; any other value selects none (0) |
| `Circuit.ChoiceRoundTrip` | circuit.js:42-65 | the value of answer k's option selects answer k |
| `Circuit.OptionsLength` | circuit.js:36-66 | the options hold one more entry than there are truthy answers among 2..n, and the first is answer 1's option with value `"1"` |
| `Circuit.OptionsValues` | circuit.js:47-66 | every option is the option of the answer whose index its value carries (that answer's text, that index, the success notification) |
| `Circuit.OptionsIncreasing` | circuit.js:47-66 | option values strictly increase along the list |
| `Circuit.OptionsMembership` | circuit.js:47-66 | for k in 2..n, answer k has an option exactly when it is truthy |
| `Circuit.AnswerOptionsShape` | circuit.js:36-66 | the options pushed for all five answers have all of the properties above |
| `Circuit.BuildForm` | circuit.js:31-66 | the form has the given id, a label with the question, and an `answers` button group whose options start with answer 1 (even when empty); after that it has one option per truthy answer 2..5, each with its own index as value, in increasing order; every option's notification is "Form submitted successfully" |
| `Circuit.SurveysIn` | circuit.js:74 | an absent user or key counts as the empty collection; a stored list is used as it is |
| `Circuit.PostSurvey` | circuit.js:28-79 | returns the form `BuildForm` specifies; when the post fails (no message id) the store is unchanged and not written; otherwise the user's settings become the previous collection (none counts as empty) plus the survey stamped with the given form id and message id, only that key of that user changes, and the table is written once |
| `Circuit.PostAppends` | circuit.js:71-76 | posting grows the collection by exactly one; earlier surveys are unchanged; the last carries the form id and message id; the vote total grows by the new record's votes (zero for a fresh record) |
| `Circuit.TotalVotesAppend` | circuit.js:75 | appending a survey adds its votes to the collection's total |
| `Circuit.FindFirst` | circuit.js:159 | returns the position of the first survey whose form id is the event's, and None exactly when no survey has that id |
| `Circuit.Tally` | circuit.js:167-190 | the selected answer's respondent list gains the email at its end; the other four lists, the answers, the question, the conversation and both ids are unchanged; the vote count grows by one, or by zero for an unknown choice |
| `Circuit.TallyUnknownChoice` | circuit.js:188-190 | a value outside `"1"`..`"5"` leaves the survey exactly as it was |
| `Circuit.Record` | circuit.js:159-190 | None (nothing saved) exactly when no survey has the form id; otherwise a collection of the same length |
| `Circuit.RecordFirstOnly` | circuit.js:159-187 | when several surveys share the form id, only the first is tallied; every other survey is unchanged |
| `Circuit.RecordVotes` | circuit.js:167-187 | a submission to a known form adds exactly one respondent to the whole collection when its value selects an answer, and none otherwise |
| `Circuit.RecordUnknownForm` | circuit.js:159-163 | a form id that no survey has leaves nothing to save |
| `Circuit.FindPosted` | circuit.js:71-75 | a survey just posted with a form id no earlier survey has is the one a submission for that id finds |
| `Circuit.HandleFormSubmission` | circuit.js:154-192 | unknown form id: `UnknownForm`, the store unchanged and not written; known form id but the submitter not resolved: `Aborted`, likewise; otherwise the settings become `Record`'s collection, written once, reported as `Recorded(k)` or `UnknownChoice`; an unknown choice leaves the data equal to what it was; the user order never changes |

## Left out

- The OAuth2 authorization-code flow, the CSRF state check, the profile fetch and the session handling in index.js, because they are network and framework plumbing.
- Express routes, page rendering and the XLS/JSON export file writes, because they are UI and file I/O.
- The messaging client (logon, logout, isAuthenticated, subscribe/unsubscribe, updateClientSubscription, addTextItem, getUserById) and the `subscriptions` map, because they are foreign calls. Their results (the message id, the submitter's email) are parameters.
- `generateId`, because it draws from `Math.random`. The form id is a parameter.
- `getEmails`, because it depends on the messaging client. It also names a `client` it never defines.
- Reading and writing the JSON data file in `init` and `save`, because they are file I/O. The constructor starts from the empty table a fresh data file gives, and `Save` does not model the promise that resolves after the write.
- Interleaving of asynchronous handlers, including the lost update between two concurrent submissions for one user, because it is concurrency. The model runs each operation to completion.
- Console logging. Only `HandleFormSubmission`'s outcome stands for what it logs.
- User ids are taken to be ordinary property names. An array-index-like id such as "42" would be listed first by `getUsers`, in numeric order, and an id such as `__proto__` would write to the object's prototype; the `users` order of the model does not capture either. The service's ids are UUIDs.
- An answer field the posting page leaves out is `undefined` in the source, and the model folds it into the empty string. Both are falsy, so options 2 to 5 are the same; but for answer 1 the source sends an option whose text is `undefined`, where the model sends `""`.
- `handleFormSubmission` reads the user's client from the subscription map before the lookup. That read cannot fail for a handler that `subscribe` registered, so the model leaves it out.
- Stored documents are typed as a survey list or a token. The source accepts any JSON value there.
- Circuit.PostSurvey: requires that the stored settings, if any, be a survey list. The source would fail with a type error when it pushes onto any other truthy value, and that error path is not modelled.
- Circuit.HandleFormSubmission: requires that the user has a stored survey list. The source has no `|| []` fallback there and fails on a missing one, and that failure is not modelled. The submitted value is taken as the first data entry of the event, whose presence is also assumed.
