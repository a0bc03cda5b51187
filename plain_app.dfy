/**
 * The plain-text application a shell request is answered with: one `content`
 * string that `Serve` sets from a route token.
 */
module PlainApp {
  import opened Common

  const DEFAULT_MESSAGE: string := "Here is the discord link: discord.gg/12345\r\n"
  const HELLO_MESSAGE: string := "Shell started! Hello World!\r\n"
  const DISCORD_MESSAGE: string := "Here is the discord link: discord.gg/12345\r\n"

  /** A message fit to send: non-empty and ending in CR LF. */
  predicate WellFormed(msg: string)
  {
    |msg| > 0 && EndsWith(msg, "\r\n")
  }

  lemma HelloWellFormed()
    ensures WellFormed(HELLO_MESSAGE)
  {
    assert HELLO_MESSAGE[|HELLO_MESSAGE| - 2..] == "\r\n";
  }

  lemma DiscordWellFormed()
    ensures WellFormed(DISCORD_MESSAGE)
  {
    assert DISCORD_MESSAGE[|DISCORD_MESSAGE| - 2..] == "\r\n";
  }

  /** The fallback message is the discord message, character for character. */
  lemma DefaultIsDiscord()
    ensures DEFAULT_MESSAGE == DISCORD_MESSAGE
  {
  }

  /**
   * The message `serve` leaves in `content` for a route: "hello" greets, every
   * other route, absent or unknown included, gets the discord invite. Every
   * message is non-empty and ends in CR LF.
   */
  function RouteMessage(route: Option<string>): (msg: string)
    ensures route == Some("hello") ==> msg == HELLO_MESSAGE
    ensures route != Some("hello") ==> msg == DISCORD_MESSAGE
    ensures WellFormed(msg)
  {
    HelloWellFormed();
    DiscordWellFormed();
    match route
    case Some(r) =>
      if r == "hello" then HELLO_MESSAGE
      else if r == "discord" then DISCORD_MESSAGE
      else DEFAULT_MESSAGE
    case None => DEFAULT_MESSAGE
  }

  class App {
    var content: string

    /** `App::start`: no content yet. */
    constructor Start()
      ensures content == ""
    {
      content := "";
    }

    method Default()
      modifies this
      ensures content == DEFAULT_MESSAGE
    {
      content := DEFAULT_MESSAGE;
    }

    method HelloWorld()
      modifies this
      ensures content == HELLO_MESSAGE
    {
      content := HELLO_MESSAGE;
    }

    method DiscordLogin()
      modifies this
      ensures content == DISCORD_MESSAGE
    {
      content := DISCORD_MESSAGE;
    }

    /**
     * `serve`: the new content depends on the route only, never on the old
     * content, so serving the same route twice is the same as serving it once.
     */
    method Serve(route: Option<string>)
      modifies this
      ensures content == RouteMessage(route)
    {
      match route {
        case Some(r) =>
          if r == "hello" {
            HelloWorld();
          } else if r == "discord" {
            DiscordLogin();
          } else {
            Default();
          }
        case None =>
          Default();
      }
    }
  }
}
