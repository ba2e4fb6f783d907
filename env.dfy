/** The credentials `Logger::loadEnv` reads from the lines of `.env`. */
module Env {
  import opened Base

  /** The notifier's two secrets (`_TELEGRAM_BOT_TOKEN`, `_TELEGRAM_CHAT_ID`). */
  datatype Credentials = Credentials(botToken: string, chatId: string)

  const BotTokenKey := "TELEGRAM_BOT_TOKEN"
  const ChatIdKey := "TELEGRAM_CHAT_ID"

  /** Splits a line at its first `=`: the key before it and the value after
      it; None when the line has no `=`. */
  function SplitEnvLine(line: string): (r: Option<(string, string)>)
    ensures r.None? <==> '=' !in line
    ensures r.Some? ==> '=' !in r.value.0 && line == r.value.0 + "=" + r.value.1
  {
    match IndexOf(line, '=')
    case None => None
    case Some(pos) =>
      assert line == line[..pos] + "=" + line[pos + 1..];
      Some((line[..pos], line[pos + 1..]))
  }

  /** A line `key=value` whose key holds no `=` splits into exactly that key
      and value, even when the value itself holds `=`. */
  lemma SplitEnvLineOf(key: string, value: string)
    requires '=' !in key
    ensures SplitEnvLine(key + "=" + value) == Some((key, value))
  {
    var line := key + "=" + value;
    assert line[..|key|] == key;
    IndexOfAt(line, '=', |key|);
    assert line[|key| + 1..] == value;
  }

  /** What one line of `.env` does to the credentials read so far. */
  function ApplyEnvLine(c: Credentials, line: string): (r: Credentials)
    ensures '=' !in line ==> r == c
  {
    match SplitEnvLine(line)
    case None => c
    case Some((key, value)) =>
      if key == BotTokenKey then c.(botToken := value)
      else if key == ChatIdKey then c.(chatId := value)
      else c
  }

  /** Some line of `lines` assigns `value` to `key`. */
  ghost predicate Assigns(lines: seq<string>, key: string, value: string)
    decreases |lines|
  {
    lines != [] &&
    (SplitEnvLine(lines[|lines| - 1]) == Some((key, value)) || Assigns(lines[..|lines| - 1], key, value))
  }

  /** The credentials after reading `lines` in order, starting from `c`.
      Each credential either keeps its starting value or holds a value
      that some line assigns to its key. */
  function EnvFold(c: Credentials, lines: seq<string>): (r: Credentials)
    ensures r.botToken == c.botToken || Assigns(lines, BotTokenKey, r.botToken)
    ensures r.chatId == c.chatId || Assigns(lines, ChatIdKey, r.chatId)
    decreases |lines|
  {
    if lines == [] then c
    else
      ApplyEnvLine(EnvFold(c, lines[..|lines| - 1]), lines[|lines| - 1])
  }

  /** The credentials the logger starts with: empty when `.env` is missing
      (`None`), otherwise read from its lines. A credential is non-empty
      only when `.env` exists and one of its lines assigns that value. */
  function LoadedCredentials(env: Option<seq<string>>): (r: Credentials)
    ensures env.None? ==> r == Credentials("", "")
    ensures r.botToken != "" ==> env.Some? && Assigns(env.value, BotTokenKey, r.botToken)
    ensures r.chatId != "" ==> env.Some? && Assigns(env.value, ChatIdKey, r.chatId)
  {
    match env
    case None => Credentials("", "")
    case Some(lines) => EnvFold(Credentials("", ""), lines)
  }

  /** The line `key=value` sets the token for the token key, the chat id for
      the chat-id key, and nothing for any other key. */
  lemma ApplyAssignment(c: Credentials, key: string, value: string)
    requires '=' !in key
    ensures ApplyEnvLine(c, key + "=" + value)
         == if key == BotTokenKey then c.(botToken := value)
            else if key == ChatIdKey then c.(chatId := value)
            else c
  {
    SplitEnvLineOf(key, value);
  }

  /** The key a line assigns, if it has one. */
  function KeyOf(line: string): Option<string> {
    match SplitEnvLine(line)
    case None => None
    case Some((key, _)) => Some(key)
  }

  /** The value a line assigns (empty for a line without `=`). */
  function ValueOf(line: string): string {
    match SplitEnvLine(line)
    case None => ""
    case Some((_, value)) => value
  }

  /** The credential a key stands for. */
  function Field(c: Credentials, key: string): string {
    if key == BotTokenKey then c.botToken else c.chatId
  }

  predicate IsCredentialKey(key: string) {
    key == BotTokenKey || key == ChatIdKey
  }

  /** A line that assigns some other key leaves this credential alone. */
  lemma ApplyOtherKey(c: Credentials, line: string, key: string)
    requires IsCredentialKey(key) && KeyOf(line) != Some(key)
    ensures Field(ApplyEnvLine(c, line), key) == Field(c, key)
  {
  }

  /** The last line that assigns a credential decides its value: later lines
      with other keys, lines without `=`, and earlier assignments do not. */
  lemma {:induction false} LastAssignmentWins(c: Credentials, lines: seq<string>, key: string, i: nat)
    requires IsCredentialKey(key)
    requires i < |lines| && KeyOf(lines[i]) == Some(key)
    requires forall j :: i < j < |lines| ==> KeyOf(lines[j]) != Some(key)
    ensures Field(EnvFold(c, lines), key) == ValueOf(lines[i])
    decreases |lines|
  {
    var init := lines[..|lines| - 1];
    var last := lines[|lines| - 1];
    if i == |lines| - 1 {
      var prev := EnvFold(c, init);
      var (k, v) := SplitEnvLine(last).value;
      assert last == k + "=" + v;
      ApplyAssignment(prev, k, v);
    } else {
      assert init[i] == lines[i];
      forall j | i < j < |init|
        ensures KeyOf(init[j]) != Some(key)
      {
        assert init[j] == lines[j];
      }
      LastAssignmentWins(c, init, key, i);
      ApplyOtherKey(EnvFold(c, init), last, key);
    }
  }

  /** A credential no line assigns keeps the value it started with. */
  lemma {:induction false} UnassignedKeepsValue(c: Credentials, lines: seq<string>, key: string)
    requires IsCredentialKey(key)
    requires forall j :: 0 <= j < |lines| ==> KeyOf(lines[j]) != Some(key)
    ensures Field(EnvFold(c, lines), key) == Field(c, key)
    decreases |lines|
  {
    if lines != [] {
      var init := lines[..|lines| - 1];
      forall j | 0 <= j < |init|
        ensures KeyOf(init[j]) != Some(key)
      {
        assert init[j] == lines[j];
      }
      UnassignedKeepsValue(c, init, key);
      ApplyOtherKey(EnvFold(c, init), lines[|lines| - 1], key);
    }
  }
}
