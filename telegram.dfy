/** The request `Logger::sendToTelegram` would make. `escape` stands for
    `curl_easy_escape`, whose percent-encoding belongs to libcurl and is
    not modelled: it is whatever function the logger was given. */
module Telegram {
  import opened Base
  import opened Env
  import opened LogFormat

  const ApiBase := "https://api.telegram.org/bot"

  /** The URL up to the message text: it depends on the credentials only. */
  function UrlHeader(c: Credentials): string {
    ApiBase + c.botToken + "/sendMessage?chat_id=" + c.chatId + "&text="
  }

  /** The request URL of the `sendMessage` call for `text`: the header for
      the credentials, then exactly the escaped text and nothing else. */
  function SendMessageUrl(c: Credentials, text: string, escape: string -> string): (r: string)
    ensures UrlHeader(c) <= r
    ensures r[|UrlHeader(c)|..] == escape(text)
  {
    var r := ApiBase + c.botToken + "/sendMessage?chat_id=" + c.chatId + "&text=" + escape(text);
    assert r == UrlHeader(c) + escape(text);
    r
  }

  /** For fixed credentials, two requests coincide exactly when their
      escaped texts do. */
  lemma UrlDeterminesText(c: Credentials, t1: string, t2: string, escape: string -> string)
    ensures SendMessageUrl(c, t1, escape) == SendMessageUrl(c, t2, escape) <==> escape(t1) == escape(t2)
  {
  }

  /** The request `sendToTelegram(message)` makes: none when either
      credential is empty, otherwise the `sendMessage` URL. */
  function NotifyRequest(c: Credentials, message: string, escape: string -> string): (r: Option<string>)
    ensures r.None? <==> c.botToken == "" || c.chatId == ""
    ensures r.Some? ==> r.value == SendMessageUrl(c, message, escape)
  {
    if c.botToken == "" || c.chatId == "" then None
    else Some(SendMessageUrl(c, message, escape))
  }

  /** The requests one `log(level, message)` call makes: only an ERROR
      record notifies, and then at most once. */
  function Notifications(level: LogLevel, c: Credentials, message: string, escape: string -> string): (r: seq<string>)
    ensures |r| <= 1
    ensures |r| == 1 <==> level == Error && c.botToken != "" && c.chatId != ""
    ensures |r| == 1 ==> r[0] == SendMessageUrl(c, message, escape)
  {
    if level == Error then
      ToSeq(NotifyRequest(c, message, escape))
    else []
  }
}
