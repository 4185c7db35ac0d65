# WebAuthn ceremony view model

A Dafny model of `WebAuthnViewModel`, the view model of an iOS demo client that
drives the ZSM WebAuthn SDK. It covers three ceremonies: create (attestation),
get (assertion) and retrieve. The view model holds five published fields:

- the SDK session `zsm`;
- the JSON text the user typed, `inputText`;
- the rendered result, `outputText`;
- a separate `errorMessage`;
- `credentialId`, the `rawId` of the last successful create.

It also holds the three settings the configuration screen edits. The app creates
two view models: one in `WebAuthnSwiftApp` (WebAuthnSwiftApp.swift:5), which is
handed to the configuration screen as an environment object, and another that
`ContentView` makes for itself (ContentView.swift:4) and whose buttons run the
ceremonies. So the settings screen, and the re-initialization that `saveConfig()`
performs, never reconfigure the instance the ceremonies use. The model describes
one view model object and does not model this wiring.

The project has three modules:

- `Json` (json.dfy): JSON values, and `Codec`, which stands for Foundation's
  JSONSerialization. Its `parse` and `format` are function values the model never
  looks inside. `ParseObject` is the "parses, and to an object" test that the
  create and get guards use. `StringField` is `json[key] as? String`.
- `Ceremony` (ceremony.dfy): the view model's fields as a value `Model`, with one
  function per user action and per SDK completion. It also holds the
  configuration document and the two example templates. `Step` and `Run` give
  the meaning of any sequence of events. The lemmas say what runs can and cannot
  do:
  - which fields can change;
  - where the credential and the session come from;
  - that no ceremony reaches the SDK without a session;
  - that error messages persist;
  - an end-to-end create → template → get scenario.
  `Changed(a, b)`, the set of fields on which two states differ, is how the
  contracts state "nothing else changes".
- `ViewModel` (view_model.dfy): the class `WebAuthnViewModel`. Its fields mirror
  the Swift class. Its methods assign them after the same guards. Each
  asynchronous SDK call is split into two methods:
  - a request method holds the guard and appends the call to the ghost log
    `calls`;
  - a completion method takes the closure's arguments (an optional result
    document and an optional error description) and runs the closure's body.
  Each method is proved to move the object's state exactly as the matching
  `Ceremony` function does, and to extend `calls` by exactly the call that
  function issues.

Some behaviours of the code that a reader might not expect:

- When the `create()` or `get()` guard fails, the message goes to
  `errorMessage`, not to `outputText`. `outputText` is left as it was.
- `create()` uses one message, "Invalid JSON input", for both a missing session
  and input that is not a JSON object. `get()` uses "Invalid JSON input or no
  credential available." for the same two cases, and it never looks at
  `credentialId` (`Ceremony.GetIgnoresCredential`).
- A successful create result with no string `rawId` shows `"Error: "` followed by
  the SDK's error description, or by "Unknown". There is no separate
  malformed-result message.
- An error message, once shown, stays until `clearOutput()`. No later ceremony
  clears it (`Ceremony.ErrorStaysUntilClearOutput`).

## Model

| member | source | states |
|---|---|---|
| `Json.ParseObject` | WebAuthnSwift/WebAuthnSwift/WebAuthnViewModel.swift:88-89 | the guard's options are present exactly when the text parses and parses to a JSON object, and then they are that object |
| `Json.StringField` | WebAuthnSwift/WebAuthnSwift/WebAuthnViewModel.swift:96 | `as? String` yields a value exactly when the key is present with a string value, and that value is the string |
| `Ceremony.ConfigJson` | WebAuthnSwift/WebAuthnSwift/WebAuthnViewModel.swift:27-34 | the environment in the configuration document is "NA", and the settings read back out of it are the ones it was built from |
| `Ceremony.ConfigJsonKeys` | WebAuthnSwift/WebAuthnSwift/WebAuthnViewModel.swift:27-34 | the configuration document has exactly the keys host_url, application_id, consumer_id and application_environment |
| `Ceremony.ErrorText` | WebAuthnSwift/WebAuthnSwift/WebAuthnViewModel.swift:100 | a failure text is "Error: " followed by the error description, or by "Unknown" when there is none |
| `Ceremony.ExampleCreateDocument` | WebAuthnSwift/WebAuthnSwift/WebAuthnViewModel.swift:145-154 | the creation template has relying party id "zsm.app" and timeout 300000 |
| `Ceremony.ExampleCreateDocumentKeys` | WebAuthnSwift/WebAuthnSwift/WebAuthnViewModel.swift:145-154 | the creation template has exactly its eight top-level keys: rp, user, challenge, pubKeyCredParams, timeout, authenticatorSelection, attestation, extensions |
| `Ceremony.ExampleGetDocument` | WebAuthnSwift/WebAuthnSwift/WebAuthnViewModel.swift:164-170 | in the assertion template, `allowCredentials[0].id` is the given credential, `rpId` is "zsm.app" and the timeout is 300000 |
| `Ceremony.ExampleGetDocumentKeys` | WebAuthnSwift/WebAuthnSwift/WebAuthnViewModel.swift:164-170 | the assertion template has exactly its five keys: challenge, timeout, rpId, allowCredentials, userVerification |
| `Ceremony.ExampleGetDocumentInjective` | WebAuthnSwift/WebAuthnSwift/WebAuthnViewModel.swift:168 | two assertion templates are equal if and only if they were built for the same credential |
| `Ceremony.TemplatesAgree` | WebAuthnSwift/WebAuthnSwift/WebAuthnViewModel.swift:144-171 | a sanity check between the two template constants, not a promise of the source: they name the same relying party and the same timeout |
| `Ceremony.InitializeZsm` | WebAuthnSwift/WebAuthnSwift/WebAuthnViewModel.swift:25-47 | initialization changes no field and issues one instance request, whose configuration decodes to the current settings |
| `Ceremony.InitializeCompleted` | WebAuthnSwift/WebAuthnSwift/WebAuthnViewModel.swift:47-55 | an instance replaces the session and nothing else changes; an error alone sets errorMessage to "Error initializing ZSM: " + description and leaves the session and everything else alone; with neither, nothing changes |
| `Ceremony.SaveConfigIsReinitialization` | WebAuthnSwift/WebAuthnSwift/WebAuthnViewModel.swift:58-62 | saving the settings has the same effect and issues the same call as initializing |
| `Ceremony.CreateRequest` | WebAuthnSwift/WebAuthnSwift/WebAuthnViewModel.swift:88-94 | the SDK is called if and only if there is a session and the input parses to an object, and then with that object and with no field changed; otherwise errorMessage becomes "Invalid JSON input", no call is made, and output, credential and session are unchanged |
| `Ceremony.CreateCompleted` | WebAuthnSwift/WebAuthnSwift/WebAuthnViewModel.swift:94-103 | a result with a string rawId records that rawId as the credential and shows the formatted result; any other completion shows the error text and keeps the credential; only output and credential can change |
| `Ceremony.GetRequest` | WebAuthnSwift/WebAuthnSwift/WebAuthnViewModel.swift:107-113 | as for create, with the message "Invalid JSON input or no credential available." and a get call |
| `Ceremony.GetIgnoresCredential` | WebAuthnSwift/WebAuthnSwift/WebAuthnViewModel.swift:107-111 | whether and how get calls the SDK does not depend on the stored credential |
| `Ceremony.RetrieveRequest` | WebAuthnSwift/WebAuthnSwift/WebAuthnViewModel.swift:120-126 | the SDK is called if and only if there is a session, with no field changed; otherwise errorMessage becomes "ZSM is not initialized", nothing else changes and no call is made |
| `Ceremony.ResultShown` | WebAuthnSwift/WebAuthnSwift/WebAuthnViewModel.swift:113-117 | the get and retrieve completions overwrite the output with the formatted result, or with the error text when there is no result, and change nothing else (in particular not the credential) |
| `Ceremony.ClearInput` | WebAuthnSwift/WebAuthnSwift/WebAuthnViewModel.swift:133-136 | input and output become empty; errorMessage, credential, session and settings are unchanged |
| `Ceremony.ClearInputIdempotent` | WebAuthnSwift/WebAuthnSwift/WebAuthnViewModel.swift:133-136 | clearing the input twice is the same as clearing it once |
| `Ceremony.ClearOutput` | WebAuthnSwift/WebAuthnSwift/WebAuthnViewModel.swift:138-141 | output becomes empty and errorMessage none; input, credential, session and settings are unchanged |
| `Ceremony.ClearOutputIdempotent` | WebAuthnSwift/WebAuthnSwift/WebAuthnViewModel.swift:138-141 | clearing the output twice is the same as clearing it once |
| `Ceremony.LoadExampleCreate` | WebAuthnSwift/WebAuthnSwift/WebAuthnViewModel.swift:144-155 | the input becomes the formatted creation template and nothing else changes |
| `Ceremony.LoadExampleCreateIgnoresState` | WebAuthnSwift/WebAuthnSwift/WebAuthnViewModel.swift:144-155 | the loaded creation template is the same whatever the state |
| `Ceremony.LoadExampleGet` | WebAuthnSwift/WebAuthnSwift/WebAuthnViewModel.swift:158-171 | with no credential, errorMessage becomes "No credential available. Run Create first." and nothing else changes (the input stays); with one, the input becomes the formatted assertion template for that credential and nothing else changes |
| `Ceremony.PerformFrame` | WebAuthnSwift/WebAuthnSwift/WebAuthnViewModel.swift:25-171 | every button changes only the fields its method assigns |
| `Ceremony.CompleteFrame` | WebAuthnSwift/WebAuthnSwift/WebAuthnViewModel.swift:47-130 | every SDK completion changes only the fields its closure assigns |
| `Ceremony.StepFrame` | WebAuthnSwift/WebAuthnSwift/WebAuthnViewModel.swift:25-171 | every event (an entry point, a completion, or typing into the input editor, the output editor or a settings field) changes only the fields the source assigns in it |
| `Ceremony.RunFrame` | WebAuthnSwift/WebAuthnSwift/WebAuthnViewModel.swift:21-171 | any run of events changes only fields that one of its events may assign |
| `Ceremony.RunCredentialIsLastCreated` | WebAuthnSwift/WebAuthnSwift/WebAuthnViewModel.swift:96-97 | after any run, the credential is the rawId of the last create completion that carried a string rawId, or the credential held before the run if there was none |
| `Ceremony.RunSessionIsLastInstance` | WebAuthnSwift/WebAuthnSwift/WebAuthnViewModel.swift:49-50 | after any run, the session is the last instance an initialization completion delivered, or the session held before the run |
| `Ceremony.NoSessionNoCeremony` | WebAuthnSwift/WebAuthnSwift/WebAuthnViewModel.swift:88-124 | starting without a session, and with no instance delivered during the run, the SDK receives only instance requests: no create, get or retrieve call |
| `Ceremony.ErrorStaysUntilClearOutput` | WebAuthnSwift/WebAuthnSwift/WebAuthnViewModel.swift:138-141 | once an error message is shown, it stays through any run that does not clear the output |
| `Ceremony.CreateThenGet` | WebAuthnSwift/WebAuthnSwift/WebAuthnViewModel.swift:88-170 | with a session and object input: create, a completion with rawId X, loading the assertion template, then get. The SDK receives exactly the creation options and then a get request whose `allowCredentials[0].id` is X. The credential is X and the output is the formatted create result |
| `ViewModel.WebAuthnViewModel.constructor` | WebAuthnSwift/WebAuthnSwift/WebAuthnViewModel.swift:6-23 | after construction: empty input and output, no error, no credential, no session, the default settings, and one instance request with the default configuration |
| `ViewModel.WebAuthnViewModel.InitializeZSM` | WebAuthnSwift/WebAuthnSwift/WebAuthnViewModel.swift:25-56 | no field changes; the log gains the instance request that `Ceremony.InitializeZsm` issues |
| `ViewModel.WebAuthnViewModel.InitializeZSMCompletion` | WebAuthnSwift/WebAuthnSwift/WebAuthnViewModel.swift:47-55 | the new state is `Ceremony.InitializeCompleted` of the old one; no SDK call |
| `ViewModel.WebAuthnViewModel.SaveConfig` | WebAuthnSwift/WebAuthnSwift/WebAuthnViewModel.swift:58-62 | no field changes; the log gains one instance request built from the current settings, as for initialization |
| `ViewModel.WebAuthnViewModel.Create` | WebAuthnSwift/WebAuthnSwift/WebAuthnViewModel.swift:88-94 | the new state and the call, if any, are those of `Ceremony.CreateRequest` |
| `ViewModel.WebAuthnViewModel.CreateCompletion` | WebAuthnSwift/WebAuthnSwift/WebAuthnViewModel.swift:94-103 | the new state is `Ceremony.CreateCompleted` of the old one; no SDK call |
| `ViewModel.WebAuthnViewModel.Get` | WebAuthnSwift/WebAuthnSwift/WebAuthnViewModel.swift:106-113 | the new state and the call, if any, are those of `Ceremony.GetRequest` |
| `ViewModel.WebAuthnViewModel.GetCompletion` | WebAuthnSwift/WebAuthnSwift/WebAuthnViewModel.swift:113-117 | the new state is `Ceremony.ResultShown` of the old one; no SDK call |
| `ViewModel.WebAuthnViewModel.Retrieve` | WebAuthnSwift/WebAuthnSwift/WebAuthnViewModel.swift:120-126 | the new state and the call, if any, are those of `Ceremony.RetrieveRequest` |
| `ViewModel.WebAuthnViewModel.RetrieveCompletion` | WebAuthnSwift/WebAuthnSwift/WebAuthnViewModel.swift:126-130 | the new state is `Ceremony.ResultShown` of the old one; no SDK call |
| `ViewModel.WebAuthnViewModel.ClearInput` | WebAuthnSwift/WebAuthnSwift/WebAuthnViewModel.swift:133-136 | the new state is `Ceremony.ClearInput` of the old one; no SDK call |
| `ViewModel.WebAuthnViewModel.ClearOutput` | WebAuthnSwift/WebAuthnSwift/WebAuthnViewModel.swift:138-141 | the new state is `Ceremony.ClearOutput` of the old one; no SDK call |
| `ViewModel.WebAuthnViewModel.LoadExampleCreate` | WebAuthnSwift/WebAuthnSwift/WebAuthnViewModel.swift:144-155 | the new state is `Ceremony.LoadExampleCreate` of the old one; no SDK call |
| `ViewModel.WebAuthnViewModel.LoadExampleGet` | WebAuthnSwift/WebAuthnSwift/WebAuthnViewModel.swift:158-171 | the new state is `Ceremony.LoadExampleGet` of the old one; no SDK call |

## Left out

- The ZSM SDK (ZSM.h, ZSMConfig.h, ZSMError.h): a closed framework. Its calls are entries in the ghost log. The arguments of its completions are method parameters: a session handle, an optional result document and an optional error description (`localizedDescription`). The metadata argument the closures ignore is dropped.
- Asynchrony and `DispatchQueue.main.async`: each completion is a separate sequential method. A completion is not tied to an earlier request, so completions can arrive in any order, but there is no interleaving within one method.
- JSONSerialization parsing and pretty-printing: `Codec.parse` and `Codec.format` are parameters the model does not look inside. This also covers formatJSON's "Error formatting JSON" fallback, which sits inside `format`. JSON numbers are integers only.
- The debug block at the start of `create()` (WebAuthnViewModel.swift:65-85): it parses and pretty-prints `inputText` with `try` before the "Invalid JSON input" guard at line 88. `create()` is not `throws`, so as written the file does not compile. In a version that compiles with `try!`, input that is not JSON would crash `create()` before the guard. The model leaves the block out. `Ceremony.CreateRequest` and `ViewModel.WebAuthnViewModel.Create` therefore describe `create()` as if the block were deleted, so a guard failure on bad input is reported rather than crashing. The block's `guard` on `data(using: .utf8)` cannot fail on a Swift string.
- UserDefaults: the defaults for host URL and application id are constants. The writes in `saveConfig()` are commented out in the source.
- The SwiftUI views (ContentView.swift, ConfigurationView.swift, WebAuthnSwiftApp.swift): they are presentation and button wiring. Their bindings appear as direct field assignments on the class, and as events of `Ceremony.Step`. The two-way bindings are the input editor (ContentView.swift:18, `EditInput`), the output editor (ContentView.swift:63, `EditOutput`) and the three settings fields (ConfigurationView.swift:10-19, `EditSettings`). No view calls `clearOutput()`: ContentView's "Clear" button calls `clearInput()`. Together with `Ceremony.ErrorStaysUntilClearOutput`, this means that in the app as written an error message, once shown, stays on screen. `Ceremony.Action` still has `DoClearOutput` because the class offers the method.
