/**
 * The per-connection command engine of `pyircd/user.py`.
 *
 * A `User` owns no mutable output of its own: everything it does goes to its
 * collaborators, which `Env` stands for. `Env` holds the server configuration,
 * a snapshot of the server registry (which names resolve to channels and to
 * users) and one ordered trace of effects: each line handed to a user's
 * connection and each call made on the server, on a channel or on a
 * connection. Every handler is proved to append exactly the events of a pure
 * reference function (`Reply` and the functions below it).
 */
module Session {

  import opened Wrappers
  import opened Strings
  import opened Irc

  /** The Python exceptions that can escape `handle_cmd`. */
  datatype Fault = IndexError | KeyError | ValueError

  /** One observable effect, in the order it happens. */
  datatype Event =
    | Sent(to: User, line: Line)                    // connection.send_raw on `to`'s connection
    | Closed(conn: User)                            // connection.close()
    | Isupport(user: User)                          // server.send_isupport(user)
    | JoinToChannel(user: User, channel: string)    // server.join_user_to_channel(user, channel)
    | QuitUser(user: User, reason: Option<string>)  // server.quit_user(user[, reason])
    | WhoisCall(target: string, asker: User)        // server.send_whois(target, asker)
    | ChannelMsg(channel: string, source: User, text: string)          // channel.msg
    | ChannelPart(channel: string, user: User, reason: Option<string>) // channel.part
    | SendTopic(channel: string, user: User)                           // channel.send_topic
    | TrySetTopic(channel: string, user: User, topic: string)          // channel.try_set_topic
    | SendWho(channel: string, user: User)                             // channel.send_who
    | ChannelList(user: User, channel: string)      // user.send_channel_list(channel)

  /** What one command does: its effects, and the exception it ends in, if any. */
  datatype Reaction = Reaction(events: seq<Event>, fault: Option<Fault>)

  /** The server registry as a command sees it: `get_channel` and `get_user` succeed on these names. */
  datatype Directory = Directory(channels: seq<string>, users: map<string, User>)
  {
    function GetChannel(name: string): (r: Option<string>)
      ensures r.Some? <==> name in channels
      ensures r.Some? ==> r.value == name
    {
      if name in channels then Some(name) else None
    }

    function GetUser(nick: string): (r: Option<User>)
      ensures r.Some? <==> nick in users
      ensures r.Some? ==> r.value == users[nick]
    {
      if nick in users then Some(users[nick]) else None
    }
  }

  /** A numeric line sent to a user carries that user's nick as its first parameter. */
  predicate AddressedToOwner(e: Event) {
    e.Sent? && e.line.NumericLine? ==> e.line.target == e.to.nick
  }

  predicate NumericsAddressed(t: seq<Event>) {
    forall i | 0 <= i < |t| :: AddressedToOwner(t[i])
  }

  lemma AddressedAppend(a: seq<Event>, b: seq<Event>)
    ensures NumericsAddressed(a + b) <==> NumericsAddressed(a) && NumericsAddressed(b)
  {
    if NumericsAddressed(a) && NumericsAddressed(b) {
      forall i | 0 <= i < |a + b| ensures AddressedToOwner((a + b)[i]) {
        if i >= |a| { assert (a + b)[i] == b[i - |a|]; }
      }
    }
    if NumericsAddressed(a + b) {
      forall i | 0 <= i < |a| ensures AddressedToOwner(a[i]) {
        assert (a + b)[i] == a[i];
      }
      forall i | 0 <= i < |b| ensures AddressedToOwner(b[i]) {
        assert (a + b)[|a| + i] == b[i];
      }
    }
  }

  /** The server, its channels and the connections, as far as a `User` can observe them. */
  class Env {
    const hostname: string
    const version: string
    const motd: seq<string>
    /** `is_channel_name`, whose definition is not part of this model. */
    const isChannelName: string -> bool
    var directory: Directory
    var trace: seq<Event>

    /** Every registered user belongs to this server, and every numeric went to its addressee. */
    ghost predicate Valid()
      reads this
    {
      && (forall n | n in directory.users :: directory.users[n].env == this)
      && NumericsAddressed(trace)
    }

    constructor (hostname: string, version: string, motd: seq<string>, isChannelName: string -> bool)
      ensures Valid()
      ensures this.hostname == hostname && this.version == version && this.motd == motd
      ensures this.isChannelName == isChannelName
      ensures directory == Directory([], map[]) && trace == []
    {
      this.hostname := hostname;
      this.version := version;
      this.motd := motd;
      this.isChannelName := isChannelName;
      directory := Directory([], map[]);
      trace := [];
    }

    /** Stands for the registry changing between commands (users registering, channels created). */
    method SetDirectory(d: Directory)
      requires Valid()
      requires forall n | n in d.users :: d.users[n].env == this
      modifies this
      ensures Valid() && directory == d && trace == old(trace)
    {
      directory := d;
    }

    /** Records one effect at the end of the trace. */
    method Record(e: Event)
      modifies this
      ensures trace == old(trace) + [e] && directory == old(directory)
      ensures old(Valid()) && AddressedToOwner(e) ==> Valid()
    {
      AddressedAppend(trace, [e]);
      trace := trace + [e];
    }
  }

  /** The numeric `send_numeric(code, args, source)` hands to `u`'s connection. */
  function NumericFor(u: User, code: Code, args: seq<string>, source: Option<string>): Line {
    NumericLine(EffectiveSource(source, u.env.hostname), code, u.nick, args)
  }

  /** The line `send_cmd(command, params, finalMulti, source)` hands to `u`'s connection. */
  function CommandFor(u: User, command: string, params: seq<string>, finalMulti: bool,
                      source: Option<string>): Line
  {
    CommandLine(EffectiveSource(source, u.env.hostname), command, params, finalMulti)
  }

  /** The PRIVMSG `to.msg(source, channel, text)` delivers. */
  function RelayLine(to: User, source: User, channel: string, text: string): Line {
    CommandFor(to, "PRIVMSG", [channel, text], true,
               Some(Identifier(source.nick, source.username, source.host)))
  }

  function WelcomeEvents(u: User): seq<Event> {
    [ Sent(u, NumericFor(u, RplWelcome, [u.nick, u.username, u.host], None)),
      Sent(u, NumericFor(u, RplYourHost, [u.env.hostname, u.env.version], None)),
      Sent(u, NumericFor(u, RplCreated, ["in the past."], None)),
      Sent(u, NumericFor(u, RplMyInfo, [u.env.hostname, u.env.version, "", ""], None)) ]
  }

  function MotdEvents(u: User): seq<Event> {
    [Sent(u, NumericFor(u, RplMotdStart, [u.env.hostname], None))]
    + ForEach(MotdTo(u), u.env.motd)
    + [Sent(u, NumericFor(u, RplEndOfMotd, [], None))]
  }

  /** Everything the constructor does once the fields are set. */
  function OpeningEvents(u: User): seq<Event> {
    WelcomeEvents(u) + MotdEvents(u) + [Isupport(u)]
  }

  /**
   * The body of one of the four loops of `user.py`, applied to one item:
   * a PRIVMSG target, a NAMES channel, a WHOIS target or a MOTD line.
   */
  datatype Fanout =
    | PrivmsgTo(sender: User, text: string, dir: Directory)
    | ListChannel(user: User)
    | WhoisFor(asker: User)
    | MotdTo(user: User)

  function Step(f: Fanout, x: string): seq<Event> {
    match f
    case PrivmsgTo(sender, text, dir) =>
      if sender.env.isChannelName(x) then
        (match dir.GetChannel(x)
         case Some(ch) => [ChannelMsg(ch, sender, text)]
         case None => [])
      else
        (match dir.GetUser(x)
         case Some(v) => [Sent(v, RelayLine(v, sender, x, text))]
         case None => [])
    case ListChannel(u) => [ChannelList(u, x)]
    case WhoisFor(u) => [WhoisCall(x, u)]
    case MotdTo(u) => [Sent(u, NumericFor(u, RplMotd, [x], None))]
  }

  /** The loop over `xs`: each item's events, in order. */
  function ForEach(f: Fanout, xs: seq<string>): seq<Event>
    decreases |xs|
  {
    if xs == [] then [] else Step(f, xs[0]) + ForEach(f, xs[1..])
  }

  lemma {:induction false} ForEachAppend(f: Fanout, a: seq<string>, b: seq<string>)
    ensures ForEach(f, a + b) == ForEach(f, a) + ForEach(f, b)
    decreases |a|
  {
    if a == [] {
      assert a + b == b;
    } else {
      assert (a + b)[0] == a[0];
      assert (a + b)[1..] == a[1..] + b;
      ForEachAppend(f, a[1..], b);
    }
  }

  /** `min_params(n)` applied to `parts`: `None` lets the handler run. */
  function GuardWith(u: User, n: nat, parts: seq<string>): (r: Option<Reaction>)
    ensures r.None? <==> n <= |parts|
  {
    if n <= |parts| then None
    else if |parts| == 0 then Some(Reaction([], Some(IndexError)))
    else Some(Reaction([Sent(u, NumericFor(u, ErrNeedMoreParams, [parts[0]], None))], None))
  }

  function Guard(u: User, c: Command, parts: seq<string>): (r: Option<Reaction>)
    ensures r.None? <==> MinParams(c).None? || MinParams(c).value <= |parts|
  {
    match MinParams(c)
    case None => None
    case Some(n) => GuardWith(u, n, parts)
  }

  function PrivmsgBody(u: User, d: Directory, parts: seq<string>): Reaction
    requires |parts| >= 3
  {
    Reaction(ForEach(PrivmsgTo(u, parts[2], d), Split(parts[1], ',')), None)
  }

  function JoinBody(u: User, parts: seq<string>): Reaction
    requires |parts| >= 2
  {
    if |parts| == 3 then Reaction([], Some(IndexError))
    else Reaction([JoinToChannel(u, parts[1])], None)
  }

  function PartBody(u: User, d: Directory, parts: seq<string>): Reaction
    requires |parts| >= 2
  {
    if |parts| > 3 then Reaction([], Some(ValueError))
    else
      var reason := if |parts| == 3 then Some(parts[2]) else None;
      match d.GetChannel(parts[1])
      case Some(ch) => Reaction([ChannelPart(ch, u, reason)], None)
      case None => Reaction([], None)
  }

  function QuitBody(u: User, parts: seq<string>): Reaction {
    var reason := if |parts| == 2 then Some(parts[1]) else None;
    Reaction([QuitUser(u, reason), Closed(u)], None)
  }

  function NamesBody(u: User, d: Directory, parts: seq<string>): Reaction {
    var names := if |parts| == 2 then Split(parts[1], ',') else d.channels;
    Reaction(ForEach(ListChannel(u), names), None)
  }

  function TopicBody(u: User, d: Directory, parts: seq<string>): Reaction
    requires |parts| >= 2
  {
    match d.GetChannel(parts[1])
    case None => Reaction([Sent(u, NumericFor(u, ErrNoSuchChannel, [parts[1]], None))], None)
    case Some(ch) =>
      if |parts| == 2 then Reaction([SendTopic(ch, u)], None)
      else Reaction([TrySetTopic(ch, u, parts[2])], None)
  }

  function WhoBody(u: User, d: Directory, parts: seq<string>): Reaction
    requires |parts| >= 2
  {
    match d.GetChannel(parts[1])
    case None => Reaction([], Some(KeyError))
    case Some(ch) => Reaction([SendWho(ch, u)], None)
  }

  function WhoisBody(u: User, parts: seq<string>): Reaction
    requires |parts| >= 2
  {
    Reaction(ForEach(WhoisFor(u), Split(parts[1], ',')), None)
  }

  /** What the handler of `c` (guard included) does with `parts`. */
  function Handled(u: User, c: Command, d: Directory, parts: seq<string>): Reaction {
    match Guard(u, c, parts)
    case Some(r) => r
    case None =>
      match c
      case Privmsg => PrivmsgBody(u, d, parts)
      case Join => JoinBody(u, parts)
      case Part => PartBody(u, d, parts)
      case Quit => QuitBody(u, parts)
      case Names => NamesBody(u, d, parts)
      case Topic => TopicBody(u, d, parts)
      case Who => WhoBody(u, d, parts)
      case Whois => WhoisBody(u, parts)
  }

  /** What `handle_cmd(msg)` does, where `parts` is `irc_msg_split(msg)`. */
  function Reply(u: User, d: Directory, msg: string, parts: seq<string>): Reaction {
    match Dispatch(Verb(msg))
    case None => Reaction([], None)
    case Some(c) => Handled(u, c, d, parts)
  }

  class User {
    const nick: string
    const username: string
    const realName: string
    const host: string
    const env: Env
    var channels: seq<string>

    /** `User.__init__`: sets the identity, then greets the new connection. */
    constructor (nick: string, username: string, realName: string, host: string, env: Env)
      requires env.Valid()
      modifies env
      ensures this.nick == nick && this.username == username && this.realName == realName
      ensures this.host == host && this.env == env && channels == []
      ensures env.Valid() && env.directory == old(env.directory)
      ensures env.trace == old(env.trace) + OpeningEvents(this)
    {
      this.nick := nick;
      this.username := username;
      this.realName := realName;
      this.host := host;
      this.env := env;
      new;
      SendOpeningNumerics();
      SendMotd();
      env.Record(Isupport(this));
      channels := [];
    }

    method SendOpeningNumerics()
      requires env.Valid()
      modifies env
      ensures env.Valid() && env.directory == old(env.directory)
      ensures env.trace == old(env.trace) + WelcomeEvents(this)
    {
      SendNumeric(RplWelcome, [nick, username, host], None);
      SendNumeric(RplYourHost, [env.hostname, env.version], None);
      SendNumeric(RplCreated, ["in the past."], None);
      SendNumeric(RplMyInfo, [env.hostname, env.version, "", ""], None);
    }

    method SendMotd()
      requires env.Valid()
      modifies env
      ensures env.Valid() && env.directory == old(env.directory)
      ensures env.trace == old(env.trace) + MotdEvents(this)
    {
      SendNumeric(RplMotdStart, [env.hostname], None);
      ghost var start := env.trace;
      var i := 0;
      while i < |env.motd|
        invariant 0 <= i <= |env.motd|
        invariant env.Valid() && env.directory == old(env.directory)
        invariant env.trace == start + ForEach(MotdTo(this), env.motd[..i])
      {
        SendNumeric(RplMotd, [env.motd[i]], None);
        ForEachAppend(MotdTo(this), env.motd[..i], [env.motd[i]]);
        assert env.motd[..i + 1] == env.motd[..i] + [env.motd[i]];
        i := i + 1;
      }
      assert env.motd[..i] == env.motd;
      SendNumeric(RplEndOfMotd, [], None);
    }

    method SendRaw(line: Line)
      requires env.Valid() && AddressedToOwner(Sent(this, line))
      modifies env
      ensures env.Valid()
      ensures env.trace == old(env.trace) + [Sent(this, line)]
      ensures env.directory == old(env.directory)
    {
      env.Record(Sent(this, line));
    }

    method SendCmd(command: string, params: seq<string>, finalMulti: bool, source: Option<string>)
      requires env.Valid()
      modifies env
      ensures env.Valid() && env.directory == old(env.directory)
      ensures env.trace == old(env.trace) + [Sent(this, CommandFor(this, command, params, finalMulti, source))]
    {
      var src := EffectiveSource(source, env.hostname);
      SendRaw(CommandLine(src, command, params, finalMulti));
    }

    method SendNumeric(code: Code, args: seq<string>, source: Option<string>)
      requires env.Valid()
      modifies env
      ensures env.Valid() && env.directory == old(env.directory)
      ensures env.trace == old(env.trace) + [Sent(this, NumericFor(this, code, args, source))]
    {
      var src := EffectiveSource(source, env.hostname);
      SendRaw(NumericLine(src, code, nick, args));
    }

    /** `msg`: relays a PRIVMSG from `source` to this user's connection. */
    method Msg(source: User, channel: string, text: string)
      requires env.Valid()
      modifies env
      ensures env.Valid() && env.directory == old(env.directory)
      ensures env.trace == old(env.trace) + [Sent(this, RelayLine(this, source, channel, text))]
    {
      SendCmd("PRIVMSG", [channel, text], true, Some(Identifier(source.nick, source.username, source.host)));
    }

    /** The `min_params(n)` decorator as a guard at the top of a handler. */
    method MinParamsGuard(n: nat, parts: seq<string>) returns (proceed: bool, fault: Option<Fault>)
      requires env.Valid()
      modifies env
      ensures env.Valid() && env.directory == old(env.directory)
      ensures proceed <==> GuardWith(this, n, parts).None?
      ensures proceed ==> env.trace == old(env.trace) && fault == None
      ensures !proceed ==>
                env.trace == old(env.trace) + GuardWith(this, n, parts).value.events
                && fault == GuardWith(this, n, parts).value.fault
    {
      proceed, fault := true, None;
      if |parts| < n {
        proceed := false;
        if |parts| == 0 {
          fault := Some(IndexError);
        } else {
          SendNumeric(ErrNeedMoreParams, [parts[0]], None);
        }
      }
    }

    method HandleCmd(msg: string, parts: seq<string>) returns (fault: Option<Fault>)
      requires env.Valid()
      modifies env
      ensures env.Valid() && env.directory == old(env.directory)
      ensures env.trace == old(env.trace) + Reply(this, old(env.directory), msg, parts).events
      ensures fault == Reply(this, old(env.directory), msg, parts).fault
    {
      var command := AsciiUpper(Split(msg, ' ')[0]);
      var handler := Dispatch(command);
      fault := None;
      match handler {
        case None =>
        case Some(Privmsg) => fault := HandlePrivmsg(parts);
        case Some(Join) => fault := HandleJoin(parts);
        case Some(Part) => fault := HandlePart(parts);
        case Some(Quit) => fault := HandleQuit(parts);
        case Some(Names) => fault := HandleNames(parts);
        case Some(Topic) => fault := HandleTopic(parts);
        case Some(Who) => fault := HandleWho(parts);
        case Some(Whois) => fault := HandleWhois(parts);
      }
    }

    method HandlePrivmsg(parts: seq<string>) returns (fault: Option<Fault>)
      requires env.Valid()
      modifies env
      ensures env.Valid() && env.directory == old(env.directory)
      ensures env.trace == old(env.trace) + Handled(this, Privmsg, old(env.directory), parts).events
      ensures fault == Handled(this, Privmsg, old(env.directory), parts).fault
    {
      ghost var d := env.directory;
      assert Guard(this, Privmsg, parts) == GuardWith(this, 3, parts);
      var proceed;
      proceed, fault := MinParamsGuard(3, parts);
      if !proceed { return; }
      assert Handled(this, Privmsg, d, parts) == PrivmsgBody(this, d, parts);
      var targets := Split(parts[1], ',');
      var message := parts[2];
      ghost var start := env.trace;
      var i := 0;
      while i < |targets|
        invariant 0 <= i <= |targets|
        invariant env.Valid() && env.directory == d
        invariant env.trace == start + ForEach(PrivmsgTo(this, message, d), targets[..i])
      {
        var target := targets[i];
        DeliverPrivmsg(target, message);
        ForEachAppend(PrivmsgTo(this, message, d), targets[..i], [target]);
        assert targets[..i + 1] == targets[..i] + [target];
        i := i + 1;
      }
      assert targets[..i] == targets;
    }

    /** The body of the PRIVMSG loop for one target; a failed lookup is swallowed. */
    method DeliverPrivmsg(target: string, message: string)
      requires env.Valid()
      modifies env
      ensures env.Valid() && env.directory == old(env.directory)
      ensures env.trace == old(env.trace) + Step(PrivmsgTo(this, message, old(env.directory)), target)
    {
      if env.isChannelName(target) {
        var channel := env.directory.GetChannel(target);
        if channel.Some? {
          env.Record(ChannelMsg(channel.value, this, message));
        }
      } else {
        var targetUser := env.directory.GetUser(target);
        if targetUser.Some? {
          targetUser.value.Msg(this, target, message);
        }
      }
    }

    method HandleJoin(parts: seq<string>) returns (fault: Option<Fault>)
      requires env.Valid()
      modifies env
      ensures env.Valid() && env.directory == old(env.directory)
      ensures env.trace == old(env.trace) + Handled(this, Join, old(env.directory), parts).events
      ensures fault == Handled(this, Join, old(env.directory), parts).fault
    {
      var proceed;
      proceed, fault := MinParamsGuard(2, parts);
      if !proceed { return; }
      var channel := parts[1];
      if |parts| > 2 && |parts| <= 3 {
        // `key = parts[3]` with exactly three parts
        fault := Some(IndexError);
        return;
      }
      env.Record(JoinToChannel(this, channel));
    }

    method HandlePart(parts: seq<string>) returns (fault: Option<Fault>)
      requires env.Valid()
      modifies env
      ensures env.Valid() && env.directory == old(env.directory)
      ensures env.trace == old(env.trace) + Handled(this, Part, old(env.directory), parts).events
      ensures fault == Handled(this, Part, old(env.directory), parts).fault
    {
      var proceed;
      proceed, fault := MinParamsGuard(2, parts);
      if !proceed { return; }
      var reason: Option<string>;
      if |parts| == 3 {
        reason := Some(parts[2]);
      } else if |parts| == 2 {
        reason := None;
      } else {
        // `cmd, channel = parts` with more than two parts
        fault := Some(ValueError);
        return;
      }
      var channel := env.directory.GetChannel(parts[1]);
      if channel.Some? {
        env.Record(ChannelPart(channel.value, this, reason));
      }
    }

    method HandleQuit(parts: seq<string>) returns (fault: Option<Fault>)
      requires env.Valid()
      modifies env
      ensures env.Valid() && env.directory == old(env.directory)
      ensures env.trace == old(env.trace) + Handled(this, Quit, old(env.directory), parts).events
      ensures fault == Handled(this, Quit, old(env.directory), parts).fault
    {
      fault := None;
      if |parts| == 2 {
        env.Record(QuitUser(this, Some(parts[1])));
      } else {
        env.Record(QuitUser(this, None));
      }
      env.Record(Closed(this));
    }

    method HandleNames(parts: seq<string>) returns (fault: Option<Fault>)
      requires env.Valid()
      modifies env
      ensures env.Valid() && env.directory == old(env.directory)
      ensures env.trace == old(env.trace) + Handled(this, Names, old(env.directory), parts).events
      ensures fault == Handled(this, Names, old(env.directory), parts).fault
    {
      fault := None;
      var names := if |parts| == 2 then Split(parts[1], ',') else env.directory.channels;
      ghost var start := env.trace;
      var i := 0;
      while i < |names|
        invariant 0 <= i <= |names|
        invariant env.Valid() && env.directory == old(env.directory)
        invariant env.trace == start + ForEach(ListChannel(this), names[..i])
      {
        env.Record(ChannelList(this, names[i]));
        ForEachAppend(ListChannel(this), names[..i], [names[i]]);
        assert names[..i + 1] == names[..i] + [names[i]];
        i := i + 1;
      }
      assert names[..i] == names;
    }

    method HandleTopic(parts: seq<string>) returns (fault: Option<Fault>)
      requires env.Valid()
      modifies env
      ensures env.Valid() && env.directory == old(env.directory)
      ensures env.trace == old(env.trace) + Handled(this, Topic, old(env.directory), parts).events
      ensures fault == Handled(this, Topic, old(env.directory), parts).fault
    {
      var proceed;
      proceed, fault := MinParamsGuard(2, parts);
      if !proceed { return; }
      var channel := parts[1];
      var chanObj := env.directory.GetChannel(channel);
      if chanObj.None? {
        SendNumeric(ErrNoSuchChannel, [channel], None);
      } else if |parts| == 2 {
        env.Record(SendTopic(chanObj.value, this));
      } else {
        env.Record(TrySetTopic(chanObj.value, this, parts[2]));
      }
    }

    method HandleWho(parts: seq<string>) returns (fault: Option<Fault>)
      requires env.Valid()
      modifies env
      ensures env.Valid() && env.directory == old(env.directory)
      ensures env.trace == old(env.trace) + Handled(this, Who, old(env.directory), parts).events
      ensures fault == Handled(this, Who, old(env.directory), parts).fault
    {
      var proceed;
      proceed, fault := MinParamsGuard(2, parts);
      if !proceed { return; }
      var channel := env.directory.GetChannel(parts[1]);
      if channel.None? {
        // the KeyError of `get_channel` is not caught
        fault := Some(KeyError);
        return;
      }
      env.Record(SendWho(channel.value, this));
    }

    method HandleWhois(parts: seq<string>) returns (fault: Option<Fault>)
      requires env.Valid()
      modifies env
      ensures env.Valid() && env.directory == old(env.directory)
      ensures env.trace == old(env.trace) + Handled(this, Whois, old(env.directory), parts).events
      ensures fault == Handled(this, Whois, old(env.directory), parts).fault
    {
      var proceed;
      proceed, fault := MinParamsGuard(2, parts);
      if !proceed { return; }
      var targets := Split(parts[1], ',');
      ghost var start := env.trace;
      var i := 0;
      while i < |targets|
        invariant 0 <= i <= |targets|
        invariant env.Valid() && env.directory == old(env.directory)
        invariant env.trace == start + ForEach(WhoisFor(this), targets[..i])
      {
        env.Record(WhoisCall(targets[i], this));
        ForEachAppend(WhoisFor(this), targets[..i], [targets[i]]);
        assert targets[..i + 1] == targets[..i] + [targets[i]];
        i := i + 1;
      }
      assert targets[..i] == targets;
    }
  }
}
