/** Building outgoing lines (services/irc/prd/util/Reply.cpp). */
module Reply {
  import opened IrcUtil
  import opened Domain

  /** nick!user@host, with placeholders for parts not known yet. */
  function ClientPrefix(client: Client): string {
    (if client.nickname == "" then "*" else client.nickname)
    + "!" + (if client.username == "" then "unknown" else client.username)
    + "@" + (if client.hostname == "" then "0.0.0.0" else client.hostname)
  }

  /** std::setw(3) << std::setfill('0') */
  function ThreeDigits(code: nat): string
    requires code <= 999
  {
    [(code / 100) as char + '0', (code / 10 % 10) as char + '0', (code % 10) as char + '0']
  }

  function TargetName(target: Client): string {
    if target.nickname == "" then "*" else target.nickname
  }

  /** One line, and no line at all exactly when the code, the server name or
      the target cannot stand as a token. */
  function Numeric(serverName: string, target: Client, code: int, parameters: string): (r: string)
    ensures OneLine(r)
    ensures r != "" <==> 0 <= code <= 999 && SafeToken(serverName) && SafeToken(TargetName(target))
  {
    if code < 0 || code > 999 then ""
    else if !SafeToken(serverName) then ""
    else if !SafeToken(TargetName(target)) then ""
    else
      var head := ":" + serverName + " " + ThreeDigits(code) + " " + TargetName(target);
      var safe := Sanitize(parameters);
      assert OneLine(head) by { NumericHeadOneLine(serverName, target, code); }
      assert OneLine(head + " " + safe) by {
        SanitizeOneLine(parameters);
        OneLineConcat(head, " ");
        OneLineConcat(head + " ", safe);
      }
      if safe == "" then head else head + " " + safe
  }

  function Command(prefix: string, command: string, parameters: string): (r: string)
    ensures OneLine(r)
    ensures r != "" <==> SafeToken(command) && (prefix == "" || SafeToken(prefix))
  {
    if !SafeToken(command) then ""
    else if prefix != "" && !SafeToken(prefix) then ""
    else
      var head := (if prefix == "" then "" else ":" + prefix + " ") + command;
      var safe := Sanitize(parameters);
      assert OneLine(head) by { CommandHeadOneLine(prefix, command); }
      assert OneLine(head + " " + safe) by {
        SanitizeOneLine(parameters);
        OneLineConcat(head, " ");
        OneLineConcat(head + " ", safe);
      }
      if safe == "" then head else head + " " + safe
  }

  lemma NumericHeadOneLine(serverName: string, target: Client, code: nat)
    requires code <= 999 && SafeToken(serverName) && SafeToken(TargetName(target))
    ensures OneLine(":" + serverName + " " + ThreeDigits(code) + " " + TargetName(target))
  {
    SafeIsOneLine(serverName);
    SafeIsOneLine(TargetName(target));
    OneLineConcat(":", serverName);
    OneLineConcat(":" + serverName, " ");
    OneLineConcat(":" + serverName + " ", ThreeDigits(code));
    OneLineConcat(":" + serverName + " " + ThreeDigits(code), " ");
    OneLineConcat(":" + serverName + " " + ThreeDigits(code) + " ", TargetName(target));
  }

  lemma CommandHeadOneLine(prefix: string, command: string)
    requires SafeToken(command) && (prefix == "" || SafeToken(prefix))
    ensures OneLine((if prefix == "" then "" else ":" + prefix + " ") + command)
  {
    SafeIsOneLine(command);
    if prefix != "" {
      SafeIsOneLine(prefix);
      OneLineConcat(":", prefix);
      OneLineConcat(":" + prefix, " ");
      OneLineConcat(":" + prefix + " ", command);
    }
  }
}
