# mandrilltest: the in-memory email-service test double, in Dafny

`TestClient` (mandrilltest/mandrill.go) stands in for a Mandrill email-service
client in tests. It holds an availability switch `OK`, a table of templates
keyed by template key, a table of subaccounts keyed by subaccount id, and the
last message, template name and template contents it was asked to send. Every
operation fails when `OK` is off. Otherwise it checks whether the key is present,
then looks up, inserts, replaces or deletes one table entry, or records the
message and returns one acknowledgement per recipient.

The project has four modules:

- `Mandrill` (mandrill.dfy): the external library's records, reduced to the
  fields the double reads. These are `Recipient.email`, `Message.to`,
  `Template.key`, `Subaccount.id` and `MessagesResponse.email`. Every other field is folded into one opaque
  `rest` value.
- `ClientModel` (model.dfy): the client's state as a value `State<C>`, with `C`
  standing for the untyped template contents. It has one function per operation,
  giving the next state and the reply (`Result` = `Ok(value)` or
  `Err(Unavailable | NotFound | AlreadyExists)`). Each function's contract says
  what the operation means: when it succeeds (both directions), which error it
  reports, which entry changes, and that nothing else changes. Lemmas relate two
  calls.
- `Traces` (traces.dfy): any series of calls, as a sequence of `Call` values run
  one after another. It proves by induction that an outage is total and that no
  call moves the switch or the API key. It also proves that the calls keep every
  entry filed under its own key.
- `MandrillTest` (client.dfy): the class `TestClient<C>` with the Go struct's
  fields, assigned in place by its methods. Each method is proved to leave the
  fields, through the ghost view `Model()`, and to reply exactly as the matching
  `ClientModel` function says. The `MessagesSend` method keeps the source's
  append loop, with its loop invariant. Three client methods state the test
  scenarios the double is meant to support.

## Model

| member | source | states |
|---|---|---|
| `MandrillTest.TestClient.NewClient` | mandrilltest/mandrill.go:22-29 | a new client is up, keeps the API key unchanged, has empty template and subaccount tables and no recorded message, template name or contents |
| `MandrillTest.TestClient.Ping` | mandrilltest/mandrill.go:32-37 | replies as `ClientModel.Ping` on the current fields, and changes nothing |
| `MandrillTest.TestClient.MessagesSend` | mandrilltest/mandrill.go:40-50 | its append loop builds the replies of `ClientModel.MessagesSend`, and the fields afterwards are that function's next state |
| `MandrillTest.TestClient.MessagesSendTemplate` | mandrilltest/mandrill.go:53-64 | fields and reply are those of `ClientModel.MessagesSendTemplate`; it delegates to the `MessagesSend` method |
| `MandrillTest.TestClient.SubaccountInfo` | mandrilltest/mandrill.go:67-76 | replies as `ClientModel.SubaccountInfo`, and changes nothing |
| `MandrillTest.TestClient.DeleteSubaccount` | mandrilltest/mandrill.go:79-89 | fields and reply are those of `ClientModel.DeleteSubaccount` |
| `MandrillTest.TestClient.UpdateSubaccount` | mandrilltest/mandrill.go:92-101 | fields and reply are those of `ClientModel.UpdateSubaccount` |
| `MandrillTest.TestClient.AddSubaccount` | mandrilltest/mandrill.go:104-113 | fields and reply are those of `ClientModel.AddSubaccount` |
| `MandrillTest.TestClient.TemplateInfo` | mandrilltest/mandrill.go:116-125 | replies as `ClientModel.TemplateInfo`, and changes nothing |
| `MandrillTest.TestClient.DeleteTemplate` | mandrilltest/mandrill.go:128-138 | fields and reply are those of `ClientModel.DeleteTemplate` |
| `MandrillTest.TestClient.UpdateTemplate` | mandrilltest/mandrill.go:141-151 | fields and reply are those of `ClientModel.UpdateTemplate` |
| `MandrillTest.TestClient.AddTemplate` | mandrilltest/mandrill.go:154-164 | fields and reply are those of `ClientModel.AddTemplate` |
| `ClientModel.Ping` | mandrilltest/mandrill.go:32-37 | succeeds exactly when the service is up; then it replies "pong", and otherwise fails with Unavailable |
| `ClientModel.Responses` | mandrilltest/mandrill.go:45-48 | exactly one acknowledgement per recipient; acknowledgement i carries the address of recipient i, so order is preserved |
| `ClientModel.MessagesSend` | mandrilltest/mandrill.go:40-50 | succeeds exactly when up. On success it records the message (also with zero recipients), changes nothing else, and returns one response per recipient with the same address, in order. On failure the error is Unavailable and the state is unchanged |
| `ClientModel.MessagesSendTemplate` | mandrilltest/mandrill.go:53-64 | succeeds exactly when up and the template name is present. A failure is Unavailable or NotFound and changes nothing, not even the recorded message. Success records message, template name and contents, and replies what `MessagesSend` replies |
| `ClientModel.SubaccountInfo` | mandrilltest/mandrill.go:67-76 | succeeds exactly when up and the id is present, and then returns the stored value; otherwise Unavailable, or NotFound when up |
| `ClientModel.DeleteSubaccount` | mandrilltest/mandrill.go:79-89 | succeeds exactly when up and the id is present. It returns the stored value, the key set loses exactly that id, the other entries keep their values, and only the subaccount table changes. A failure changes nothing |
| `ClientModel.UpdateSubaccount` | mandrilltest/mandrill.go:92-101 | succeeds exactly when up and the id is present. The key set is preserved, only that id's value becomes the input, and the input is returned. A failure is NotFound or Unavailable and changes nothing |
| `ClientModel.AddSubaccount` | mandrilltest/mandrill.go:104-113 | succeeds exactly when up and the id is absent. The key set gains that id mapped to the input, and existing entries are kept. A present id fails with AlreadyExists and changes nothing |
| `ClientModel.TemplateInfo` | mandrilltest/mandrill.go:116-125 | succeeds exactly when up and the name is present, and then returns the stored value; otherwise Unavailable, or NotFound when up |
| `ClientModel.DeleteTemplate` | mandrilltest/mandrill.go:128-138 | succeeds exactly when up and the name is present. It returns the stored value, the key set loses exactly that name, the other entries keep their values, and only the template table changes. A failure changes nothing |
| `ClientModel.UpdateTemplate` | mandrilltest/mandrill.go:141-151 | succeeds exactly when up and the key is present. The key set is preserved, only that key's value becomes the input, and the input is returned. A failure is NotFound or Unavailable and changes nothing |
| `ClientModel.AddTemplate` | mandrilltest/mandrill.go:154-164 | succeeds exactly when up and the key is absent. The key set gains that key mapped to the input, and existing entries are kept. A present key fails with AlreadyExists and leaves the stored value unchanged |
| `ClientModel.AddThenTemplateInfo` | mandrilltest/mandrill.go:116-164 | after a successful add, looking up the template's key returns the added template |
| `ClientModel.AddThenSubaccountInfo` | mandrilltest/mandrill.go:67-113 | after a successful add, looking up the subaccount's id returns the added subaccount |
| `ClientModel.AddThenDeleteTemplate` | mandrilltest/mandrill.go:128-164 | deleting a just-added template returns it and restores the exact state before the add |
| `ClientModel.AddThenDeleteSubaccount` | mandrilltest/mandrill.go:79-113 | deleting a just-added subaccount returns it and restores the exact state before the add |
| `ClientModel.DeleteThenTemplateGone` | mandrilltest/mandrill.go:116-151 | after a successful delete, lookup, update and a second delete of that name all fail with NotFound |
| `ClientModel.UpdateThenSubaccountInfo` | mandrilltest/mandrill.go:67-101 | after a successful update, lookup returns the new value, and repeating the same update changes nothing further |
| `ClientModel.MissingSubaccountNotFound` | mandrilltest/mandrill.go:67-101 | with the service up, an absent id makes lookup, delete and update fail with NotFound and leaves the state unchanged |
| `Traces.RunKeepsSettings` | mandrilltest/mandrill.go:32-164 | no series of calls changes the availability switch or the API key |
| `Traces.OutageIsTotal` | mandrilltest/mandrill.go:32-164 | with the service down, every call of any series fails with Unavailable. The whole state is left exactly as it was: both tables, the recorded message, template name and contents |
| `Traces.FailedCallChangesNothing` | mandrilltest/mandrill.go:32-164 | a call that fails, for any reason, leaves the whole state unchanged |
| `Traces.ApplyKeepsWellKeyed` | mandrilltest/mandrill.go:92-164 | if every template is filed under its own key and every subaccount under its own id, one call keeps it so |
| `Traces.RunKeepsWellKeyed` | mandrilltest/mandrill.go:92-164 | any series of calls keeps every entry filed under its own key or id |
| `MandrillTest.WelcomeScenario` | mandrilltest/mandrill.go:53-64 | with "welcome" seeded, sending it to one recipient yields exactly one acknowledgement for that address and records name, contents and message |
| `MandrillTest.DeleteMissingScenario` | mandrilltest/mandrill.go:79-89 | deleting an unknown subaccount on a fresh client fails with NotFound and leaves the table empty |
| `MandrillTest.OutageScenario` | mandrilltest/mandrill.go:116-164 | while the switch is off an add and a ping fail with Unavailable. Once it is back on, the seeded template is still there and the rejected one was never added |

## Left out

- Error message text (`"Ping failed"`, `"no template (%s) found"`, ...): only the kind of error is modelled: Unavailable when `OK` is off, NotFound for an absent key, AlreadyExists for a present key on add.
- Pointer identity: the Go tables hold `*mandrill.Template` and `*mandrill.Subaccount` and return the same pointers. A caller that mutates a returned or passed-in record therefore also changes the stored one. The model stores and returns values, so this aliasing is not captured.
- Nil arguments (a nil message, template or subaccount) make the Go code panic. Dafny values are never nil, so these panics have no counterpart.
- The external library's records beyond the fields the double reads are one opaque `rest` field. The other `MessagesResponse` fields, which the double leaves at their zero values, are not modelled.
- A send with zero recipients returns a nil slice in Go. The model returns `Ok([])`, which has the same length and contents.
- `Contents` is Go's untyped `interface{}`. It is the type parameter `C`, and "nothing recorded yet" (Go's nil) is `None`.
- The client interface that `TestClient` satisfies is not part of this model. The model is only the test double's own behaviour.
- Concurrency: the source has no locking and is used from one goroutine, so the model is sequential.
