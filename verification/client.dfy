/**
 * The in-memory test double for the email-service client. Its fields are
 * public, as a test harness pre-seeds the tables, switches the service off
 * and inspects the last send by reading and writing them directly. Each
 * method is proved to change the fields and reply exactly as the
 * corresponding function of module ClientModel says.
 */
module MandrillTest {
  import opened Mandrill
  import opened ClientModel

  class TestClient<C> {
    var apiKey: string
    var templates: map<string, Template>
    var subaccounts: map<string, Subaccount>
    var message: Option<Message>
    var ok: bool
    var templateName: string
    var contents: Option<C>

    /** The fields of this client as one value. */
    ghost function Model(): State<C>
      reads this
    {
      State(apiKey, templates, subaccounts, message, ok, templateName, contents)
    }

    /** A client that is up, keeps `apiKey` as given and holds no templates or subaccounts. */
    constructor NewClient(apiKey: string)
      ensures ok && this.apiKey == apiKey
      ensures templates == map[] && subaccounts == map[]
      ensures message == None && templateName == "" && contents == None
    {
      this.apiKey := apiKey;
      templates := map[];
      subaccounts := map[];
      message := None;
      ok := true;
      templateName := "";
      contents := None;
    }

    method Ping() returns (pong: Result<string>)
      ensures pong == ClientModel.Ping(Model())
    {
      if ok {
        return Ok("pong");
      }
      return Err(Unavailable);
    }

    method MessagesSend(m: Message) returns (responses: Result<seq<MessagesResponse>>)
      modifies this
      ensures Model() == ClientModel.MessagesSend(old(Model()), m).next
      ensures responses == ClientModel.MessagesSend(old(Model()), m).reply
    {
      if !ok {
        return Err(Unavailable);
      }
      message := Some(m);
      var rs: seq<MessagesResponse> := [];
      var i := 0;
      while i < |m.to|
        invariant 0 <= i <= |m.to|
        invariant rs == Responses(m.to[..i])
      {
        assert m.to[..i + 1][..i] == m.to[..i];
        rs := rs + [MessagesResponse(m.to[i].email)];
        i := i + 1;
      }
      assert m.to[..i] == m.to;
      return Ok(rs);
    }

    method MessagesSendTemplate(m: Message, name: string, c: C) returns (responses: Result<seq<MessagesResponse>>)
      modifies this
      ensures Model() == ClientModel.MessagesSendTemplate(old(Model()), m, name, c).next
      ensures responses == ClientModel.MessagesSendTemplate(old(Model()), m, name, c).reply
    {
      if !ok {
        return Err(Unavailable);
      }
      if name !in templates {
        return Err(NotFound);
      }
      templateName := name;
      contents := Some(c);
      responses := MessagesSend(m);
    }

    method SubaccountInfo(id: string) returns (response: Result<Subaccount>)
      ensures response == ClientModel.SubaccountInfo(Model(), id)
    {
      if !ok {
        return Err(Unavailable);
      }
      if id !in subaccounts {
        return Err(NotFound);
      }
      return Ok(subaccounts[id]);
    }

    method DeleteSubaccount(id: string) returns (response: Result<Subaccount>)
      modifies this
      ensures Model() == ClientModel.DeleteSubaccount(old(Model()), id).next
      ensures response == ClientModel.DeleteSubaccount(old(Model()), id).reply
    {
      if !ok {
        return Err(Unavailable);
      }
      if id !in subaccounts {
        return Err(NotFound);
      }
      var sa := subaccounts[id];
      subaccounts := subaccounts - {id};
      return Ok(sa);
    }

    method UpdateSubaccount(sa: Subaccount) returns (response: Result<Subaccount>)
      modifies this
      ensures Model() == ClientModel.UpdateSubaccount(old(Model()), sa).next
      ensures response == ClientModel.UpdateSubaccount(old(Model()), sa).reply
    {
      if !ok {
        return Err(Unavailable);
      }
      if sa.id !in subaccounts {
        return Err(NotFound);
      }
      subaccounts := subaccounts[sa.id := sa];
      return Ok(sa);
    }

    method AddSubaccount(sa: Subaccount) returns (response: Result<Subaccount>)
      modifies this
      ensures Model() == ClientModel.AddSubaccount(old(Model()), sa).next
      ensures response == ClientModel.AddSubaccount(old(Model()), sa).reply
    {
      if !ok {
        return Err(Unavailable);
      }
      if sa.id in subaccounts {
        return Err(AlreadyExists);
      }
      subaccounts := subaccounts[sa.id := sa];
      return Ok(sa);
    }

    method TemplateInfo(name: string) returns (response: Result<Template>)
      ensures response == ClientModel.TemplateInfo(Model(), name)
    {
      if !ok {
        return Err(Unavailable);
      }
      if name !in templates {
        return Err(NotFound);
      }
      return Ok(templates[name]);
    }

    method DeleteTemplate(name: string) returns (response: Result<Template>)
      modifies this
      ensures Model() == ClientModel.DeleteTemplate(old(Model()), name).next
      ensures response == ClientModel.DeleteTemplate(old(Model()), name).reply
    {
      if !ok {
        return Err(Unavailable);
      }
      if name !in templates {
        return Err(NotFound);
      }
      var t := templates[name];
      templates := templates - {name};
      return Ok(t);
    }

    method UpdateTemplate(t: Template) returns (response: Result<Template>)
      modifies this
      ensures Model() == ClientModel.UpdateTemplate(old(Model()), t).next
      ensures response == ClientModel.UpdateTemplate(old(Model()), t).reply
    {
      if !ok {
        return Err(Unavailable);
      }
      if t.key !in templates {
        return Err(NotFound);
      }
      templates := templates[t.key := t];
      return Ok(t);
    }

    method AddTemplate(t: Template) returns (response: Result<Template>)
      modifies this
      ensures Model() == ClientModel.AddTemplate(old(Model()), t).next
      ensures response == ClientModel.AddTemplate(old(Model()), t).reply
    {
      if !ok {
        return Err(Unavailable);
      }
      if t.key in templates {
        return Err(AlreadyExists);
      }
      templates := templates[t.key := t];
      return Ok(t);
    }
  }

  /**
   * A test that seeds the "welcome" template and sends it to one recipient
   * gets one acknowledgement for that address, and the client records the
   * template name, the contents and the message.
   */
  method WelcomeScenario() returns (responses: Result<seq<MessagesResponse>>)
    ensures responses == Ok([MessagesResponse("a@example.com")])
  {
    var client := new TestClient<map<string, string>>.NewClient("test-key");
    client.templates := map["welcome" := Template("welcome", "")];
    var msg := Message([Recipient("a@example.com", "")], "");
    responses := client.MessagesSendTemplate(msg, "welcome", map["name" := "Alice"]);
    assert client.templateName == "welcome";
    assert client.contents == Some(map["name" := "Alice"]);
    assert client.message == Some(msg);
    assert responses.Ok? && |responses.value| == 1;
    assert responses.value[0] == MessagesResponse("a@example.com");
    assert responses.value == [MessagesResponse("a@example.com")];
  }

  /** Deleting an unknown subaccount from a fresh client fails with NotFound and leaves the table empty. */
  method DeleteMissingScenario() returns (response: Result<Subaccount>)
    ensures response == Err(NotFound)
  {
    var client := new TestClient<string>.NewClient("test-key");
    response := client.DeleteSubaccount("missing");
    assert client.subaccounts == map[];
  }

  /**
   * With the service switched off, an add fails with Unavailable and a
   * pre-seeded template is still there once the service is back.
   */
  method OutageScenario() returns (response: Result<Template>)
    ensures response == Ok(Template("welcome", "v1"))
  {
    var client := new TestClient<string>.NewClient("test-key");
    client.templates := map["welcome" := Template("welcome", "v1")];
    client.ok := false;
    var added := client.AddTemplate(Template("other", ""));
    assert added == Err(Unavailable);
    var pong := client.Ping();
    assert pong == Err(Unavailable);
    client.ok := true;
    response := client.TemplateInfo("welcome");
    assert "other" !in client.templates;
  }
}
