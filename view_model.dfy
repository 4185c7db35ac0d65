/** The view model object itself: published fields assigned after guard checks.
    Every SDK call is split in two methods, the request (the guard and the call,
    recorded in the ghost log `calls`) and the completion (the body of the closure
    handed to the SDK, with the closure's arguments as parameters).
 */
module ViewModel {
  import opened Json
  import opened Ceremony

  class WebAuthnViewModel {
    var zsm: Option<Session>
    var inputText: string
    var outputText: string
    var errorMessage: Option<string>
    var credentialId: Option<string>  // the rawId of the last successful create

    // Settings, edited by the configuration screen.
    var hostUrl: string
    var applicationId: string
    var consumerId: string

    /** JSONSerialization, as the view model uses it. */
    const codec: Codec

    /** Every call made into the SDK, oldest first. */
    ghost var calls: seq<Call>

    /** The published fields as a value. */
    ghost function State(): Model
      reads this
    {
      Model(zsm, inputText, outputText, errorMessage, credentialId, Config(hostUrl, applicationId, consumerId))
    }

    /** `init()`: the initial field values, then `initializeZSM()`. */
    constructor (codec: Codec)
      ensures this.codec == codec
      ensures State() == Initial
      ensures calls == [CreateInstance(ConfigJson(DefaultConfig))]
    {
      this.codec := codec;
      zsm := None;
      inputText := "";
      outputText := "";
      errorMessage := None;
      credentialId := None;
      hostUrl := DefaultHostUrl;
      applicationId := DefaultApplicationId;
      consumerId := DefaultConsumerId;
      calls := [];
      new;
      InitializeZSM();
    }

    /** `initializeZSM()`: asks the SDK for an instance configured from the current settings. */
    method InitializeZSM()
      modifies this
      ensures State() == old(State())
      ensures calls == old(calls) + Issued(Ceremony.InitializeZsm(old(State())).call)
    {
      var json := map[
        "host_url" := JString(hostUrl),
        "application_id" := JString(applicationId),
        "consumer_id" := JString(consumerId),
        "application_environment" := JString(ApplicationEnvironment)];
      calls := calls + [CreateInstance(json)];
    }

    /** The closure handed to `ZSM.createInstance`. */
    method InitializeZSMCompletion(instance: Option<Session>, error: Option<string>)
      modifies this
      ensures State() == Ceremony.InitializeCompleted(old(State()), instance, error)
      ensures calls == old(calls)
    {
      if instance.Some? {
        zsm := instance;
      } else if error.Some? {
        errorMessage := Some(InitErrorPrefix + error.value);
      }
    }

    /** `saveConfig()`: exactly a re-initialization. */
    method SaveConfig()
      modifies this
      ensures State() == old(State())
      ensures calls == old(calls) + [CreateInstance(ConfigJson(old(State()).settings))]
    {
      InitializeZSM();
    }

    /** `create()`. */
    method Create()
      modifies this
      ensures var o := Ceremony.CreateRequest(codec, old(State()));
              State() == o.next && calls == old(calls) + Issued(o.call)
    {
      var options := ParseObject(codec, inputText);
      if zsm.None? || options.None? {
        errorMessage := Some(InvalidCreateInput);
        return;
      }
      calls := calls + [WebAuthnCreate(options.value)];
    }

    /** The closure handed to `webauthnCreate`. */
    method CreateCompletion(json: Option<JsonObject>, error: Option<string>)
      modifies this
      ensures State() == Ceremony.CreateCompleted(codec, old(State()), json, error)
      ensures calls == old(calls)
    {
      var rawId := if json.Some? then StringField(json.value, "rawId") else None;
      if rawId.Some? {
        credentialId := rawId;
        outputText := codec.format(json.value);
      } else {
        outputText := ErrorText(error);
      }
    }

    /** `get()`. */
    method Get()
      modifies this
      ensures var o := Ceremony.GetRequest(codec, old(State()));
              State() == o.next && calls == old(calls) + Issued(o.call)
    {
      var options := ParseObject(codec, inputText);
      if zsm.None? || options.None? {
        errorMessage := Some(InvalidGetInput);
        return;
      }
      calls := calls + [WebAuthnGet(options.value)];
    }

    /** The closure handed to `webauthnGet`. */
    method GetCompletion(json: Option<JsonObject>, error: Option<string>)
      modifies this
      ensures State() == Ceremony.ResultShown(codec, old(State()), json, error)
      ensures calls == old(calls)
    {
      outputText := if json.Some? then codec.format(json.value) else ErrorText(error);
    }

    /** `retrieve()`. */
    method Retrieve()
      modifies this
      ensures var o := Ceremony.RetrieveRequest(old(State()));
              State() == o.next && calls == old(calls) + Issued(o.call)
    {
      if zsm.None? {
        errorMessage := Some(NotInitialized);
        return;
      }
      calls := calls + [WebAuthnRetrieve];
    }

    /** The closure handed to `webauthnRetrieve`. */
    method RetrieveCompletion(json: Option<JsonObject>, error: Option<string>)
      modifies this
      ensures State() == Ceremony.ResultShown(codec, old(State()), json, error)
      ensures calls == old(calls)
    {
      outputText := if json.Some? then codec.format(json.value) else ErrorText(error);
    }

    method ClearInput()
      modifies this
      ensures State() == Ceremony.ClearInput(old(State()))
      ensures calls == old(calls)
    {
      inputText := "";
      outputText := "";
    }

    method ClearOutput()
      modifies this
      ensures State() == Ceremony.ClearOutput(old(State()))
      ensures calls == old(calls)
    {
      outputText := "";
      errorMessage := None;
    }

    method LoadExampleCreate()
      modifies this
      ensures State() == Ceremony.LoadExampleCreate(codec, old(State()))
      ensures calls == old(calls)
    {
      inputText := codec.format(ExampleCreateDocument());
    }

    method LoadExampleGet()
      modifies this
      ensures State() == Ceremony.LoadExampleGet(codec, old(State()))
      ensures calls == old(calls)
    {
      if credentialId.None? {
        errorMessage := Some(NoCredential);
        return;
      }
      inputText := codec.format(ExampleGetDocument(credentialId.value));
    }
  }

  /** A client that sees only the contracts above: a fresh view model with no
      session rejects create and get and leaves its output and credential alone. */
  method FreshModelRejectsCeremonies(codec: Codec)
  {
    var vm := new WebAuthnViewModel(codec);
    vm.LoadExampleCreate();
    vm.Create();
    assert vm.errorMessage == Some(InvalidCreateInput);
    vm.Get();
    assert vm.errorMessage == Some(InvalidGetInput);
    assert vm.outputText == "" && vm.credentialId == None;
    assert vm.calls == [CreateInstance(ConfigJson(DefaultConfig))];
    vm.LoadExampleGet();
    assert vm.errorMessage == Some(NoCredential);
  }
}
