/** The first generation's main window: the Enter key in the input box.
    Start-up (`find_json_with_format` with the first generation's keys and
    the `noChats` decision) is `Discovery.StartupWindow` applied to
    `Discovery.Gen1SettingsKeys`. */
module Gen1Main {
  import opened Text
  import opened Messages
  import Gen1Client

  class MainWindow {
    /** The text of the input box. */
    var input: string
    const client: Gen1Client.LLMClient

    constructor (client: Gen1Client.LLMClient)
      ensures this.client == client && input == ""
    {
      this.client := client;
      input := "";
    }

    /** `keyPressEvent` for Return or Enter while the input has focus:
        with Shift a line break goes into the input; otherwise the input is
        cleared, and only a non-blank stripped text is added as one user
        message and a generation started. The window never binds its
        `input` or `chat` attribute, so in the program this handler raises
        before any branch; it is modelled as if `input` were the window's
        input box. */
    method KeyEnter(shift: bool)
      modifies this`input, client`messages, client`currentResponse, client`requestsStarted
      ensures shift ==> input == old(input) + "\n" && unchanged(client)
      ensures !shift ==> input == ""
      ensures !shift && Strip(old(input)) == "" ==> unchanged(client)
      ensures !shift && Strip(old(input)) != "" ==>
        && client.messages == old(client.messages) + [Msg(User, Strip(old(input)))]
        && client.currentResponse == "" && client.requestsStarted == old(client.requestsStarted) + 1
    {
      if shift {
        input := input + "\n";
        return;
      }
      var text := Strip(input);
      input := "";
      if text != "" {
        client.AddUserMessage(text);
        client.Generate();
      }
    }
  }
}
