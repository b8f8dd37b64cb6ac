/**
 * The protocol vocabulary the session engine of `pyircd/user.py` speaks: the
 * numerics it sends, the shape of an outgoing line, the identity strings of a
 * user, and the command table with its minimum-parameter thresholds.
 */
module Irc {

  import opened Wrappers
  import Strings

  /** The numeric replies `user.py` sends itself (their templates live elsewhere). */
  datatype Code =
    | RplWelcome | RplYourHost | RplCreated | RplMyInfo
    | RplMotdStart | RplMotd | RplEndOfMotd
    | ErrNeedMoreParams | ErrNoSuchChannel

  /**
   * One line handed to a connection, before wire serialisation.
   * A numeric keeps its code, the nick it is addressed to (its first
   * parameter) and the arguments substituted into its template; a command
   * keeps its verb, its parameters and whether the last one is trailing.
   */
  datatype Line =
    | NumericLine(source: string, code: Code, target: string, args: seq<string>)
    | CommandLine(source: string, command: string, params: seq<string>, finalMulti: bool)

  /**
   * The source an outgoing line carries: Python's `if not source` replaces a
   * missing or empty source by the configured server hostname.
   */
  function EffectiveSource(source: Option<string>, hostname: string): (r: string)
    ensures source == None || source == Some("") ==> r == hostname
    ensures source.Some? && source.value != "" ==> r == source.value
  {
    if source.None? || source.value == "" then hostname else source.value
  }

  /** `username@host`. */
  function Hostmask(username: string, host: string): (r: string)
    ensures |r| == |username| + 1 + |host|
    ensures r[..|username|] == username && r[|username|] == '@' && r[|username| + 1..] == host
  {
    username + "@" + host
  }

  /** `nick!username@host`, the source of lines a user relays. */
  function Identifier(nick: string, username: string, host: string): (r: string)
    ensures |r| == |nick| + 1 + |Hostmask(username, host)|
    ensures r[..|nick|] == nick && r[|nick|] == '!' && r[|nick| + 1..] == Hostmask(username, host)
  {
    nick + "!" + username + "@" + host
  }

  /** A hostmask splits back into the username when the username has no `@`. */
  lemma HostmaskSplits(username: string, host: string)
    requires '@' !in username
    ensures Strings.Split(Hostmask(username, host), '@') == [username] + Strings.Split(host, '@')
  {
    Strings.SplitAtFirstSeparator(username, '@', host);
  }

  /**
   * An identifier splits back into the nick and the hostmask when the nick
   * has no `!`; in particular it is never empty, so it never falls back to
   * the hostname as a source.
   */
  lemma IdentifierSplits(nick: string, username: string, host: string)
    requires '!' !in nick
    ensures Identifier(nick, username, host) == nick + "!" + Hostmask(username, host)
    ensures Strings.Split(Identifier(nick, username, host), '!')
         == [nick] + Strings.Split(Hostmask(username, host), '!')
    ensures forall h :: EffectiveSource(Some(Identifier(nick, username, host)), h)
                     == Identifier(nick, username, host)
  {
    assert Identifier(nick, username, host) == nick + "!" + Hostmask(username, host);
    Strings.SplitAtFirstSeparator(nick, '!', Hostmask(username, host));
  }

  /** The eight commands of the dispatch table. */
  datatype Command = Privmsg | Join | Part | Quit | Names | Topic | Who | Whois

  /** The table key under which each command is registered. */
  function Name(c: Command): string {
    match c
    case Privmsg => "PRIVMSG"
    case Join => "JOIN"
    case Part => "PART"
    case Quit => "QUIT"
    case Names => "NAMES"
    case Topic => "TOPIC"
    case Who => "WHO"
    case Whois => "WHOIS"
  }

  /** Looks a verb up in the dispatch table: it hits exactly the eight keys. */
  function Dispatch(verb: string): (r: Option<Command>)
    ensures r.Some? ==> Name(r.value) == verb
    ensures forall c: Command :: Name(c) == verb ==> r == Some(c)
  {
    if verb == "PRIVMSG" then Some(Privmsg)
    else if verb == "JOIN" then Some(Join)
    else if verb == "PART" then Some(Part)
    else if verb == "QUIT" then Some(Quit)
    else if verb == "NAMES" then Some(Names)
    else if verb == "TOPIC" then Some(Topic)
    else if verb == "WHO" then Some(Who)
    else if verb == "WHOIS" then Some(Whois)
    else None
  }

  /** The verb of a raw line: its first space-separated token, upper-cased. */
  function Verb(msg: string): (v: string)
    ensures ' ' !in v && |v| <= |msg|
    ensures v == Strings.AsciiUpper(msg[..|v|])
    ensures |v| == |msg| || msg[|v|] == ' '
  {
    Strings.AsciiUpper(Strings.FirstToken(msg, ' '))
  }

  /**
   * The `min_params` threshold each handler is decorated with; `None` for
   * the two handlers that carry no guard.
   */
  function MinParams(c: Command): (r: Option<nat>)
    ensures r == Some(3) <==> c == Privmsg
    ensures r == Some(2) <==> c in {Join, Part, Topic, Who, Whois}
    ensures r == None <==> c in {Quit, Names}
  {
    match c
    case Privmsg => Some(3)
    case Join | Part | Topic | Who | Whois => Some(2)
    case Quit | Names => None
  }
}
