/** The ceremony view model as a state machine on values: the fields of
    `WebAuthnViewModel`, one transition per user action and per SDK completion,
    and what runs of those transitions can and cannot do to the fields.
    The class in module ViewModel is proved to follow these transitions.
 */
module Ceremony {
  import opened Json

  // ---------------------------------------------------------------------------
  // Constants of the view model

  const DefaultHostUrl := "https://mobilesoasit.citi.com/tbslab/"
  const DefaultApplicationId := "6dcb42e7-5dfb-4263-b21f-34c014a55ecc"
  const DefaultConsumerId := "cititest1-ios"
  const ApplicationEnvironment := "NA"

  const InvalidCreateInput := "Invalid JSON input"
  const InvalidGetInput := "Invalid JSON input or no credential available."
  const NotInitialized := "ZSM is not initialized"
  const NoCredential := "No credential available. Run Create first."
  const InitErrorPrefix := "Error initializing ZSM: "
  const ErrorPrefix := "Error: "
  const UnknownError := "Unknown"

  const RelyingParty := "zsm.app"
  const TemplateTimeout := 300000

  // ---------------------------------------------------------------------------
  // Data model

  /** One `ZSM` instance handed out by `ZSM.createInstance`; `handle` tells instances apart. */
  datatype Session = Session(handle: nat)

  /** The settings the configuration screen edits. */
  datatype Config = Config(hostUrl: string, applicationId: string, consumerId: string)

  const DefaultConfig := Config(DefaultHostUrl, DefaultApplicationId, DefaultConsumerId)

  /** The published fields of the view model. */
  datatype Model = Model(
    zsm: Option<Session>,
    inputText: string,
    outputText: string,
    errorMessage: Option<string>,
    credentialId: Option<string>,
    settings: Config)

  /** The state right after construction, before any completion has arrived. */
  const Initial := Model(None, "", "", None, None, DefaultConfig)

  /** A call into the SDK. */
  datatype Call =
    | CreateInstance(config: JsonObject)
    | WebAuthnCreate(options: JsonObject)
    | WebAuthnGet(options: JsonObject)
    | WebAuthnRetrieve

  /** What a request does: the new fields, and the SDK call it issues, if any. */
  datatype Outcome = Outcome(next: Model, call: Option<Call>)

  function Issued(call: Option<Call>): seq<Call> {
    if call.Some? then [call.value] else []
  }

  /** Names of the fields, for saying which ones an action may touch. */
  datatype Field = ZsmField | InputField | OutputField | ErrorField | CredentialField | SettingsField

  /** The fields on which two states differ. */
  function Changed(a: Model, b: Model): set<Field> {
    (if a.zsm != b.zsm then {ZsmField} else {})
    + (if a.inputText != b.inputText then {InputField} else {})
    + (if a.outputText != b.outputText then {OutputField} else {})
    + (if a.errorMessage != b.errorMessage then {ErrorField} else {})
    + (if a.credentialId != b.credentialId then {CredentialField} else {})
    + (if a.settings != b.settings then {SettingsField} else {})
  }

  lemma ChangedTrans(a: Model, b: Model, c: Model)
    ensures Changed(a, c) <= Changed(a, b) + Changed(b, c)
  {
  }

  // ---------------------------------------------------------------------------
  // Documents

  /** The configuration document handed to `ZSMConfig(json:)`. */
  function ConfigJson(c: Config): (doc: JsonObject)
    ensures StringField(doc, "application_environment") == Some(ApplicationEnvironment)
    ensures ConfigOf(doc) == Some(c)
  {
    map[
      "host_url" := JString(c.hostUrl),
      "application_id" := JString(c.applicationId),
      "consumer_id" := JString(c.consumerId),
      "application_environment" := JString(ApplicationEnvironment)]
  }

  /** Reads the three settings back out of a configuration document as strings,
      the inverse of `ConfigJson`. (The SDK itself goes on to turn the host into a
      URL and the application id into a UUID; that step is not modelled.) */
  function ConfigOf(doc: JsonObject): Option<Config> {
    var host := StringField(doc, "host_url");
    var app := StringField(doc, "application_id");
    var consumer := StringField(doc, "consumer_id");
    if host.Some? && app.Some? && consumer.Some?
       && StringField(doc, "application_environment") == Some(ApplicationEnvironment)
    then Some(Config(host.value, app.value, consumer.value))
    else None
  }

  /** The text a ceremony completion shows when it has no usable result. */
  function ErrorText(err: Option<string>): (text: string)
    ensures |ErrorPrefix| <= |text| && text[..|ErrorPrefix|] == ErrorPrefix
    ensures text[|ErrorPrefix|..] == if err.Some? then err.value else UnknownError
  {
    ErrorPrefix + (if err.Some? then err.value else UnknownError)
  }

  /** `rp.id` of an options document. */
  function RelyingPartyId(doc: JsonObject): Option<string> {
    if "rp" in doc && doc["rp"].JObject? then StringField(doc["rp"].fields, "id") else None
  }

  /** `allowCredentials[0].id` of an options document. */
  function AllowedCredentialId(doc: JsonObject): Option<string> {
    if "allowCredentials" in doc && doc["allowCredentials"].JArray?
       && |doc["allowCredentials"].items| > 0 && doc["allowCredentials"].items[0].JObject?
    then StringField(doc["allowCredentials"].items[0].fields, "id")
    else None
  }

  /** The fixed creation-options example. */
  function ExampleCreateDocument(): (doc: JsonObject)
    ensures RelyingPartyId(doc) == Some(RelyingParty)
    ensures "timeout" in doc && doc["timeout"] == JNumber(TemplateTimeout)
  {
    map[
      "rp" := JObject(map["name" := JString(RelyingParty), "id" := JString(RelyingParty)]),
      "user" := JObject(map[
        "id" := JString("wdrGRM8-QVGObt2fluIsnw"),
        "name" := JString("user123"),
        "displayName" := JString("user123")]),
      "challenge" := JString("dae5Moljx_7gqaB2482nJ9Sytls_04mdAxbrApwgGcQ"),
      "pubKeyCredParams" := JArray([
        JObject(map["type" := JString("public-key"), "alg" := JNumber(-7)]),
        JObject(map["type" := JString("public-key"), "alg" := JNumber(-257)])]),
      "timeout" := JNumber(TemplateTimeout),
      "authenticatorSelection" := JObject(map[
        "residentKey" := JString("discouraged"),
        "requireResidentKey" := JBool(false),
        "userVerification" := JString("required")]),
      "attestation" := JString("none"),
      "extensions" := JObject(map[
        "credentialProtectionPolicy" := JString("userVerificationRequired"),
        "enforceCredentialProtectionPolicy" := JBool(false),
        "uvm" := JBool(true),
        "credProps" := JBool(true)])]
  }

  /** The assertion-options example for credential `id`. */
  function ExampleGetDocument(id: string): (doc: JsonObject)
    ensures AllowedCredentialId(doc) == Some(id)
    ensures StringField(doc, "rpId") == Some(RelyingParty)
    ensures "timeout" in doc && doc["timeout"] == JNumber(TemplateTimeout)
  {
    map[
      "challenge" := JString("EeLxRgy2MyLAFsrrv0AH_qf5YQZEtC6ZkTtY4sCtNn8"),
      "timeout" := JNumber(TemplateTimeout),
      "rpId" := JString(RelyingParty),
      "allowCredentials" := JArray([JObject(map["id" := JString(id), "type" := JString("public-key")])]),
      "userVerification" := JString("required")]
  }

  /** The configuration document has exactly the four keys the source writes. */
  lemma ConfigJsonKeys(c: Config)
    ensures ConfigJson(c).Keys == {"host_url", "application_id", "consumer_id", "application_environment"}
  {
  }

  /** The creation template has exactly the eight top-level keys the source writes. */
  lemma ExampleCreateDocumentKeys()
    ensures ExampleCreateDocument().Keys == {"rp", "user", "challenge", "pubKeyCredParams", "timeout",
                                             "authenticatorSelection", "attestation", "extensions"}
  {
  }

  /** The assertion template has exactly the five keys the source writes. */
  lemma ExampleGetDocumentKeys(id: string)
    ensures ExampleGetDocument(id).Keys == {"challenge", "timeout", "rpId", "allowCredentials", "userVerification"}
  {
  }

  /** Different credentials give different assertion templates. */
  lemma ExampleGetDocumentInjective(a: string, b: string)
    ensures ExampleGetDocument(a) == ExampleGetDocument(b) <==> a == b
  {
    if ExampleGetDocument(a) == ExampleGetDocument(b) {
      assert AllowedCredentialId(ExampleGetDocument(a)) == Some(a);
    }
  }

  /** A consistency check between the two template constants, not a promise of
      the view model: both name the same relying party and the same timeout. */
  lemma TemplatesAgree(id: string)
    ensures RelyingPartyId(ExampleCreateDocument()) == StringField(ExampleGetDocument(id), "rpId")
    ensures ExampleCreateDocument()["timeout"] == ExampleGetDocument(id)["timeout"]
  {
  }

  // ---------------------------------------------------------------------------
  // Transitions

  /** Builds the configuration document from the current settings and asks the
      SDK for an instance; no field changes until the completion arrives. */
  function InitializeZsm(s: Model): (o: Outcome)
    ensures o.next == s
    ensures o.call.Some? && o.call.value.CreateInstance?
    ensures ConfigOf(o.call.value.config) == Some(s.settings)
  {
    Outcome(s, Some(CreateInstance(ConfigJson(s.settings))))
  }

  /** The completion of `ZSM.createInstance`. */
  function InitializeCompleted(s: Model, instance: Option<Session>, err: Option<string>): (r: Model)
    ensures instance.Some? ==> r.zsm == instance && Changed(s, r) <= {ZsmField}
    ensures instance.None? && err.Some? ==>
              r.errorMessage == Some(InitErrorPrefix + err.value) && Changed(s, r) <= {ErrorField}
    ensures instance.None? && err.None? ==> r == s
  {
    if instance.Some? then s.(zsm := instance)
    else if err.Some? then s.(errorMessage := Some(InitErrorPrefix + err.value))
    else s
  }

  /** The guard of a create or get request: a session, and input that parses to an object. */
  predicate Ready(codec: Codec, s: Model) {
    s.zsm.Some? && ParseObject(codec, s.inputText).Some?
  }

  /** `create()`: calls the SDK with the parsed options, or reports the one
      message it has for both a missing session and bad input. */
  function CreateRequest(codec: Codec, s: Model): (o: Outcome)
    ensures o.call.Some? <==> Ready(codec, s)
    ensures Ready(codec, s) ==>
              o.next == s && o.call == Some(WebAuthnCreate(ParseObject(codec, s.inputText).value))
    ensures !Ready(codec, s) ==>
              o.next.errorMessage == Some(InvalidCreateInput) && Changed(s, o.next) <= {ErrorField}
  {
    var options := ParseObject(codec, s.inputText);
    if s.zsm.None? || options.None? then Outcome(s.(errorMessage := Some(InvalidCreateInput)), None)
    else Outcome(s, Some(WebAuthnCreate(options.value)))
  }

  /** The completion of `webauthnCreate`: a result with a string `rawId` is
      recorded and shown; anything else shows an error and keeps the credential. */
  function CreateCompleted(codec: Codec, s: Model, result: Option<JsonObject>, err: Option<string>): (r: Model)
    ensures Changed(s, r) <= {OutputField, CredentialField}
    ensures result.Some? && StringField(result.value, "rawId").Some? ==>
              r.credentialId == StringField(result.value, "rawId") && r.outputText == codec.format(result.value)
    ensures !(result.Some? && StringField(result.value, "rawId").Some?) ==>
              r.credentialId == s.credentialId && r.outputText == ErrorText(err)
  {
    if result.Some? && StringField(result.value, "rawId").Some? then
      s.(credentialId := StringField(result.value, "rawId"), outputText := codec.format(result.value))
    else
      s.(outputText := ErrorText(err))
  }

  /** `get()`: like `create()`, with its own message; it never looks at the credential. */
  function GetRequest(codec: Codec, s: Model): (o: Outcome)
    ensures o.call.Some? <==> Ready(codec, s)
    ensures Ready(codec, s) ==>
              o.next == s && o.call == Some(WebAuthnGet(ParseObject(codec, s.inputText).value))
    ensures !Ready(codec, s) ==>
              o.next.errorMessage == Some(InvalidGetInput) && Changed(s, o.next) <= {ErrorField}
  {
    var options := ParseObject(codec, s.inputText);
    if s.zsm.None? || options.None? then Outcome(s.(errorMessage := Some(InvalidGetInput)), None)
    else Outcome(s, Some(WebAuthnGet(options.value)))
  }

  /** `retrieve()`: needs only a session. */
  function RetrieveRequest(s: Model): (o: Outcome)
    ensures o.call.Some? <==> s.zsm.Some?
    ensures s.zsm.Some? ==> o.next == s && o.call == Some(WebAuthnRetrieve)
    ensures s.zsm.None? ==> o.next.errorMessage == Some(NotInitialized) && Changed(s, o.next) <= {ErrorField}
  {
    if s.zsm.None? then Outcome(s.(errorMessage := Some(NotInitialized)), None)
    else Outcome(s, Some(WebAuthnRetrieve))
  }

  /** The completion shared by `webauthnGet` and `webauthnRetrieve`: output is
      overwritten with the formatted result or the error text, nothing else moves. */
  function ResultShown(codec: Codec, s: Model, result: Option<JsonObject>, err: Option<string>): (r: Model)
    ensures Changed(s, r) <= {OutputField}
    ensures r.outputText == if result.Some? then codec.format(result.value) else ErrorText(err)
  {
    s.(outputText := if result.Some? then codec.format(result.value) else ErrorText(err))
  }

  function ClearInput(s: Model): (r: Model)
    ensures r.inputText == "" && r.outputText == ""
    ensures Changed(s, r) <= {InputField, OutputField}
  {
    s.(inputText := "", outputText := "")
  }

  function ClearOutput(s: Model): (r: Model)
    ensures r.outputText == "" && r.errorMessage == None
    ensures Changed(s, r) <= {OutputField, ErrorField}
  {
    s.(outputText := "", errorMessage := None)
  }

  lemma ClearInputIdempotent(s: Model)
    ensures ClearInput(ClearInput(s)) == ClearInput(s)
  {
  }

  lemma ClearOutputIdempotent(s: Model)
    ensures ClearOutput(ClearOutput(s)) == ClearOutput(s)
  {
  }

  function LoadExampleCreate(codec: Codec, s: Model): (r: Model)
    ensures r.inputText == codec.format(ExampleCreateDocument())
    ensures Changed(s, r) <= {InputField}
  {
    s.(inputText := codec.format(ExampleCreateDocument()))
  }

  /** The creation template does not depend on the state it is loaded into. */
  lemma LoadExampleCreateIgnoresState(codec: Codec, s: Model, t: Model)
    ensures LoadExampleCreate(codec, s).inputText == LoadExampleCreate(codec, t).inputText
  {
  }

  function LoadExampleGet(codec: Codec, s: Model): (r: Model)
    ensures s.credentialId.None? ==> r.errorMessage == Some(NoCredential) && Changed(s, r) <= {ErrorField}
    ensures s.credentialId.Some? ==>
              r.inputText == codec.format(ExampleGetDocument(s.credentialId.value)) && Changed(s, r) <= {InputField}
  {
    if s.credentialId.None? then s.(errorMessage := Some(NoCredential))
    else s.(inputText := codec.format(ExampleGetDocument(s.credentialId.value)))
  }

  /** `get()`'s guard does not look at the credential, whatever its message says. */
  lemma GetIgnoresCredential(codec: Codec, s: Model, c: Option<string>)
    ensures GetRequest(codec, s.(credentialId := c)).call == GetRequest(codec, s).call
  {
  }

  // ---------------------------------------------------------------------------
  // Runs

  /** The view model's entry points, each calling one of its methods. The views
      have buttons for the ceremonies, the two templates and `clearInput()`; the
      configuration screen calls `saveConfig()`; `initializeZSM()` runs from
      `init()`; no view calls `clearOutput()`, which is kept as an entry point
      because the class offers it. */
  datatype Action =
    | DoInitialize
    | DoSaveConfig
    | DoCreate
    | DoGet
    | DoRetrieve
    | DoClearInput
    | DoClearOutput
    | DoLoadExampleCreate
    | DoLoadExampleGet

  /** The SDK's completions, with the arguments their closures receive. */
  datatype Completion =
    | InitializeDone(instance: Option<Session>, err: Option<string>)
    | CreateDone(result: Option<JsonObject>, err: Option<string>)
    | GetDone(result: Option<JsonObject>, err: Option<string>)
    | RetrieveDone(result: Option<JsonObject>, err: Option<string>)

  /** Everything that can happen to the view model: an entry point, a completion,
      or typing into one of the bound text fields (the input editor, the output
      editor, or the settings fields). */
  datatype Event =
    | Tap(action: Action)
    | Sdk(completion: Completion)
    | EditInput(text: string)
    | EditOutput(text: string)
    | EditSettings(settings: Config)

  function Perform(codec: Codec, s: Model, a: Action): Outcome {
    match a
    case DoInitialize => InitializeZsm(s)
    case DoSaveConfig => InitializeZsm(s)
    case DoCreate => CreateRequest(codec, s)
    case DoGet => GetRequest(codec, s)
    case DoRetrieve => RetrieveRequest(s)
    case DoClearInput => Outcome(ClearInput(s), None)
    case DoClearOutput => Outcome(ClearOutput(s), None)
    case DoLoadExampleCreate => Outcome(LoadExampleCreate(codec, s), None)
    case DoLoadExampleGet => Outcome(LoadExampleGet(codec, s), None)
  }

  function Complete(codec: Codec, s: Model, c: Completion): Model {
    match c
    case InitializeDone(instance, err) => InitializeCompleted(s, instance, err)
    case CreateDone(result, err) => CreateCompleted(codec, s, result, err)
    case GetDone(result, err) => ResultShown(codec, s, result, err)
    case RetrieveDone(result, err) => ResultShown(codec, s, result, err)
  }

  function Step(codec: Codec, s: Model, e: Event): Outcome {
    match e
    case Tap(a) => Perform(codec, s, a)
    case Sdk(c) => Outcome(Complete(codec, s, c), None)
    case EditInput(text) => Outcome(s.(inputText := text), None)
    case EditOutput(text) => Outcome(s.(outputText := text), None)
    case EditSettings(c) => Outcome(s.(settings := c), None)
  }

  /** `saveConfig()` is exactly a re-initialization. */
  lemma SaveConfigIsReinitialization(codec: Codec, s: Model)
    ensures Step(codec, s, Tap(DoSaveConfig)) == Step(codec, s, Tap(DoInitialize))
  {
  }

  /** The fields each button may write, read off the source rather than the transitions. */
  function ActionWrites(a: Action): set<Field> {
    match a
    case DoInitialize => {}
    case DoSaveConfig => {}
    case DoCreate => {ErrorField}
    case DoGet => {ErrorField}
    case DoRetrieve => {ErrorField}
    case DoClearInput => {InputField, OutputField}
    case DoClearOutput => {OutputField, ErrorField}
    case DoLoadExampleCreate => {InputField}
    case DoLoadExampleGet => {InputField, ErrorField}
  }

  /** The fields each completion may write. */
  function CompletionWrites(c: Completion): set<Field> {
    match c
    case InitializeDone(_, _) => {ZsmField, ErrorField}
    case CreateDone(_, _) => {OutputField, CredentialField}
    case GetDone(_, _) => {OutputField}
    case RetrieveDone(_, _) => {OutputField}
  }

  function Writes(e: Event): set<Field> {
    match e
    case Tap(a) => ActionWrites(a)
    case Sdk(c) => CompletionWrites(c)
    case EditInput(_) => {InputField}
    case EditOutput(_) => {OutputField}
    case EditSettings(_) => {SettingsField}
  }

  function Footprint(es: seq<Event>): set<Field>
    decreases |es|
  {
    if es == [] then {} else Writes(es[0]) + Footprint(es[1..])
  }

  lemma PerformFrame(codec: Codec, s: Model, a: Action)
    ensures Changed(s, Perform(codec, s, a).next) <= ActionWrites(a)
  {
  }

  lemma CompleteFrame(codec: Codec, s: Model, c: Completion)
    ensures Changed(s, Complete(codec, s, c)) <= CompletionWrites(c)
  {
  }

  /** Every event changes only the fields the source assigns in it. */
  lemma StepFrame(codec: Codec, s: Model, e: Event)
    ensures Changed(s, Step(codec, s, e).next) <= Writes(e)
  {
    match e
    case Tap(a) => PerformFrame(codec, s, a);
    case Sdk(c) => CompleteFrame(codec, s, c);
    case EditInput(_) =>
    case EditOutput(_) =>
    case EditSettings(_) =>
  }

  /** The event delivers a session instance. */
  predicate DeliversInstance(e: Event) {
    e.Sdk? && e.completion.InitializeDone? && e.completion.instance.Some?
  }

  /** Without a session, a step that delivers no instance keeps it that way and
      asks the SDK for nothing but an instance. */
  lemma StepWithoutSession(codec: Codec, s: Model, e: Event)
    requires s.zsm.None? && !DeliversInstance(e)
    ensures Step(codec, s, e).next.zsm.None?
    ensures Step(codec, s, e).call.None? || Step(codec, s, e).call.value.CreateInstance?
  {
    match e
    case Tap(a) =>
      assert !Ready(codec, s);
    case Sdk(c) =>
      assert c.InitializeDone? ==> c.instance.None?;
    case EditInput(_) =>
    case EditOutput(_) =>
    case EditSettings(_) =>
  }

  /** A step other than clearing the output keeps an error message shown. */
  lemma StepKeepsError(codec: Codec, s: Model, e: Event)
    requires s.errorMessage.Some? && e != Tap(DoClearOutput)
    ensures Step(codec, s, e).next.errorMessage.Some?
  {
    match e
    case Tap(a) =>
      assert a != DoClearOutput;
    case Sdk(c) =>
    case EditInput(_) =>
    case EditOutput(_) =>
    case EditSettings(_) =>
  }

  /** The final state and the SDK calls of a run of events from state `s`. */
  datatype Trace = Trace(final: Model, calls: seq<Call>)

  function Run(codec: Codec, s: Model, es: seq<Event>): Trace
    decreases |es|
  {
    if es == [] then Trace(s, [])
    else
      var o := Step(codec, s, es[0]);
      var t := Run(codec, o.next, es[1..]);
      Trace(t.final, Issued(o.call) + t.calls)
  }

  /** A run changes only fields that one of its events may write. */
  lemma {:induction false} RunFrame(codec: Codec, s: Model, es: seq<Event>)
    ensures Changed(s, Run(codec, s, es).final) <= Footprint(es)
    decreases |es|
  {
    if es != [] {
      var o := Step(codec, s, es[0]);
      StepFrame(codec, s, es[0]);
      RunFrame(codec, o.next, es[1..]);
      ChangedTrans(s, o.next, Run(codec, o.next, es[1..]).final);
    }
  }

  /** The credential a create completion records, if it records one. */
  function CreatedId(e: Event): Option<string> {
    if e.Sdk? && e.completion.CreateDone? && e.completion.result.Some?
    then StringField(e.completion.result.value, "rawId")
    else None
  }

  /** The credential of the last create completion that recorded one, else `current`. */
  function LastCreatedId(es: seq<Event>, current: Option<string>): Option<string>
    decreases |es|
  {
    if es == [] then current
    else LastCreatedId(es[1..], if CreatedId(es[0]).Some? then CreatedId(es[0]) else current)
  }

  lemma StepCredential(codec: Codec, s: Model, e: Event)
    ensures Step(codec, s, e).next.credentialId == if CreatedId(e).Some? then CreatedId(e) else s.credentialId
  {
    match e
    case Tap(a) => PerformFrame(codec, s, a);
    case Sdk(c) =>
    case EditInput(_) =>
    case EditOutput(_) =>
    case EditSettings(_) =>
  }

  /** After any run, the credential is the `rawId` of the last successful create,
      or the one held before if there was none: get, retrieve, the clears and the
      templates never set or clear it. */
  lemma {:induction false} RunCredentialIsLastCreated(codec: Codec, s: Model, es: seq<Event>)
    ensures Run(codec, s, es).final.credentialId == LastCreatedId(es, s.credentialId)
    decreases |es|
  {
    if es != [] {
      StepCredential(codec, s, es[0]);
      RunCredentialIsLastCreated(codec, Step(codec, s, es[0]).next, es[1..]);
    }
  }

  /** The instance of the last initialization completion that delivered one, else `current`. */
  function LastInstance(es: seq<Event>, current: Option<Session>): Option<Session>
    decreases |es|
  {
    if es == [] then current
    else LastInstance(es[1..], if DeliversInstance(es[0]) then es[0].completion.instance else current)
  }

  lemma StepSession(codec: Codec, s: Model, e: Event)
    ensures Step(codec, s, e).next.zsm == if DeliversInstance(e) then e.completion.instance else s.zsm
  {
    match e
    case Tap(a) => PerformFrame(codec, s, a);
    case Sdk(c) =>
    case EditInput(_) =>
    case EditOutput(_) =>
    case EditSettings(_) =>
  }

  /** The session is replaced only by an initialization completion that delivers
      an instance; a failed initialization keeps the one before. */
  lemma {:induction false} RunSessionIsLastInstance(codec: Codec, s: Model, es: seq<Event>)
    ensures Run(codec, s, es).final.zsm == LastInstance(es, s.zsm)
    decreases |es|
  {
    if es != [] {
      StepSession(codec, s, es[0]);
      RunSessionIsLastInstance(codec, Step(codec, s, es[0]).next, es[1..]);
    }
  }

  /** Without a session, and with no instance delivered along the way, the SDK
      is asked for nothing but instances: no ceremony reaches it. */
  lemma {:induction false} NoSessionNoCeremony(codec: Codec, s: Model, es: seq<Event>)
    requires s.zsm.None?
    requires forall i :: 0 <= i < |es| ==> !DeliversInstance(es[i])
    ensures forall i :: 0 <= i < |Run(codec, s, es).calls| ==> Run(codec, s, es).calls[i].CreateInstance?
    decreases |es|
  {
    if es != [] {
      StepWithoutSession(codec, s, es[0]);
      NoSessionNoCeremony(codec, Step(codec, s, es[0]).next, es[1..]);
    }
  }

  /** Once shown, an error message stays until the output is cleared: a later
      successful ceremony does not remove it. */
  lemma {:induction false} ErrorStaysUntilClearOutput(codec: Codec, s: Model, es: seq<Event>)
    requires s.errorMessage.Some?
    requires forall i :: 0 <= i < |es| ==> es[i] != Tap(DoClearOutput)
    ensures Run(codec, s, es).final.errorMessage.Some?
    decreases |es|
  {
    if es != [] {
      StepKeepsError(codec, s, es[0]);
      ErrorStaysUntilClearOutput(codec, Step(codec, s, es[0]).next, es[1..]);
    }
  }

  /** One event, then the rest of the run. */
  lemma RunCons(codec: Codec, s: Model, e: Event, rest: seq<Event>)
    ensures var o := Step(codec, s, e);
            var t := Run(codec, o.next, rest);
            Run(codec, s, [e] + rest) == Trace(t.final, Issued(o.call) + t.calls)
  {
    assert ([e] + rest)[0] == e;
    assert ([e] + rest)[1..] == rest;
  }

  /** Create, then load the assertion template, then get: the SDK receives the
      creation options and then a get request naming the credential just created. */
  lemma CreateThenGet(codec: Codec, s: Model, options: JsonObject, result: JsonObject, rawId: string)
    requires s.zsm.Some? && ParseObject(codec, s.inputText) == Some(options)
    requires StringField(result, "rawId") == Some(rawId)
    requires codec.parse(codec.format(ExampleGetDocument(rawId))) == Some(JObject(ExampleGetDocument(rawId)))
    ensures var t := Run(codec, s, [Tap(DoCreate), Sdk(CreateDone(Some(result), None)), Tap(DoLoadExampleGet), Tap(DoGet)]);
            && t.final.credentialId == Some(rawId)
            && t.final.outputText == codec.format(result)
            && t.calls == [WebAuthnCreate(options), WebAuthnGet(ExampleGetDocument(rawId))]
            && AllowedCredentialId(t.calls[1].options) == Some(rawId)
  {
    var rest := [Sdk(CreateDone(Some(result), None)), Tap(DoLoadExampleGet), Tap(DoGet)];
    CreatedThenGet(codec, s, result, rawId);
    assert [Tap(DoCreate)] + rest == [Tap(DoCreate), Sdk(CreateDone(Some(result), None)), Tap(DoLoadExampleGet), Tap(DoGet)];
    CreateStep(codec, s, options, rest);
  }

  lemma CreatedThenGet(codec: Codec, s: Model, result: JsonObject, rawId: string)
    requires s.zsm.Some?
    requires StringField(result, "rawId") == Some(rawId)
    requires codec.parse(codec.format(ExampleGetDocument(rawId))) == Some(JObject(ExampleGetDocument(rawId)))
    ensures var t := Run(codec, s, [Sdk(CreateDone(Some(result), None)), Tap(DoLoadExampleGet), Tap(DoGet)]);
            && t.final.credentialId == Some(rawId)
            && t.final.outputText == codec.format(result)
            && t.calls == [WebAuthnGet(ExampleGetDocument(rawId))]
  {
    var e := Sdk(CreateDone(Some(result), None));
    var s2 := CreateCompleted(codec, s, Some(result), None);
    assert Step(codec, s, e) == Outcome(s2, None);
    LoadThenGet(codec, s2, rawId);
    assert [e] + [Tap(DoLoadExampleGet), Tap(DoGet)] == [e, Tap(DoLoadExampleGet), Tap(DoGet)];
    RunCons(codec, s, e, [Tap(DoLoadExampleGet), Tap(DoGet)]);
  }

  lemma LoadThenGet(codec: Codec, s: Model, rawId: string)
    requires s.zsm.Some? && s.credentialId == Some(rawId)
    requires codec.parse(codec.format(ExampleGetDocument(rawId))) == Some(JObject(ExampleGetDocument(rawId)))
    ensures Run(codec, s, [Tap(DoLoadExampleGet), Tap(DoGet)])
         == Trace(LoadExampleGet(codec, s), [WebAuthnGet(ExampleGetDocument(rawId))])
  {
    var s3 := LoadExampleGet(codec, s);
    var doc := ExampleGetDocument(rawId);
    assert s3.zsm.Some? && s3.inputText == codec.format(doc);
    assert ParseObject(codec, s3.inputText) == Some(doc);
    GetStep(codec, s3, doc);
    assert Step(codec, s, Tap(DoLoadExampleGet)) == Outcome(s3, None);
    RunCons(codec, s, Tap(DoLoadExampleGet), [Tap(DoGet)]);
    assert [Tap(DoLoadExampleGet)] + [Tap(DoGet)] == [Tap(DoLoadExampleGet), Tap(DoGet)];
  }

  lemma CreateStep(codec: Codec, s: Model, options: JsonObject, rest: seq<Event>)
    requires s.zsm.Some? && ParseObject(codec, s.inputText) == Some(options)
    ensures Run(codec, s, [Tap(DoCreate)] + rest)
         == Trace(Run(codec, s, rest).final, [WebAuthnCreate(options)] + Run(codec, s, rest).calls)
  {
    assert Step(codec, s, Tap(DoCreate)) == Outcome(s, Some(WebAuthnCreate(options)));
    RunCons(codec, s, Tap(DoCreate), rest);
  }

  lemma GetStep(codec: Codec, s: Model, options: JsonObject)
    requires s.zsm.Some? && ParseObject(codec, s.inputText) == Some(options)
    ensures Run(codec, s, [Tap(DoGet)]) == Trace(s, [WebAuthnGet(options)])
  {
    assert Step(codec, s, Tap(DoGet)) == Outcome(s, Some(WebAuthnGet(options)));
    RunCons(codec, s, Tap(DoGet), []);
  }
}
