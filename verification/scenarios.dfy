/** Concrete requests worked through the model. */
module Scenarios {
  import opened Wrappers
  import Form
  import ChatId
  import Strconv
  import opened Gateway
  import opened Handlers

  const Id := "1101000001"
  const Token := "d75b3a66374942c5b3c019c698abc2067e151558acbd412345"

  /** Reading the settings with valid credentials: one GET, and the body shown verbatim. */
  lemma GetSettingsScenario(body: string)
    ensures
      var form := map["action" := "/getSettings", "idInstance" := Id, "apiTokenInstance" := Token];
      var r := Request("/", map[], form);
      && PlanCall(GetSettings, form) == Forward(Instance(Id, Token),
           Call(Get, ApiUrl + "/waInstance" + Id + "/getSettings/" + Token, JsonContentType, None))
      && Serve(r, Transport(None, None, None, Success(body))) == Page(Data(Id, Token, body))
  {
    var form := map["action" := "/getSettings", "idInstance" := Id, "apiTokenInstance" := Token];
    assert ParseAction("/getSettings") == Some(GetSettings);
  }

  /** Sending "hi" to a phone number: the number gets the direct-chat suffix. */
  lemma SendMessageScenario()
    ensures
      var form := map["idInstance" := Id, "apiTokenInstance" := Token, "chatId" := "79991234567", "message" := "hi"];
      PlanCall(SendMessage, form).call.payload == Some(map["chatId" := "79991234567@c.us", "message" := "hi"])
  {
    assert Strconv.AllDigits("79991234567");
    ChatId.ShortDigitsAreDirect("79991234567");
    assert "79991234567" + ChatId.DirectSuffix == "79991234567@c.us";
  }

  /** Sending a file by URL: the id comes from `chatId2` and the file is named "picture". */
  lemma SendFileByUrlScenario()
    ensures
      var form := map["idInstance" := Id, "apiTokenInstance" := Token, "chatId2" := "12345", "urlFile" := "http://x/y.png"];
      PlanCall(SendFileByUrl, form).call.payload
        == Some(map["chatId" := "12345@c.us", "urlFile" := "http://x/y.png", "fileName" := "picture"])
  {
    assert Strconv.AllDigits("12345");
    ChatId.ShortDigitsAreDirect("12345");
    assert "12345" + ChatId.DirectSuffix == "12345@c.us";
  }

  /** A refused connection ends in the error text, not in the page. */
  lemma SendFailureScenario()
    ensures
      var form := map["action" := "/getStateInstance", "idInstance" := Id, "apiTokenInstance" := Token];
      Serve(Request("/", map[], form), Transport(None, None, Some("connection refused"), Success("")))
        == ErrorText(ErrorPrefix(SendRequest) + "connection refused")
  {
    var form := map["action" := "/getStateInstance", "idInstance" := Id, "apiTokenInstance" := Token];
    var r := Request("/", map[], form);
    var t := Transport(None, None, Some("connection refused"), Success(""));
    assert ParseAction("/getStateInstance") == Some(GetStateInstance);
    assert RouteOf(r) == Dispatch(GetStateInstance);
    var p := PlanCall(GetStateInstance, form);
    assert p.Forward?;
    assert Perform(p.call, t) == Failed(SendRequest, "connection refused");
  }
}
