/**
 * What `handle_cmd` and the constructor of `pyircd/user.py` promise, stated
 * about the reference functions of `Session` that the methods are proved
 * against.
 */
module SessionProperties {

  import opened Wrappers
  import opened Strings
  import opened Irc
  import opened Session

  // ---------------------------------------------------------------- dispatch

  /** A verb outside the table, MODE included, has no effect at all. */
  lemma UnknownVerbIsIgnored(u: User, d: Directory, msg: string, parts: seq<string>)
    requires Dispatch(Verb(msg)).None?
    ensures Reply(u, d, msg, parts) == Reaction([], None)
  {
  }

  lemma ModeIsNotDispatched()
    ensures Dispatch("MODE") == None
  {
  }

  /** The verb is the first space-separated token, upper-cased: `privmsg` selects PRIVMSG. */
  lemma {:induction false} VerbOfLowercaseLine(rest: string)
    ensures Verb("privmsg " + rest) == "PRIVMSG"
    ensures Dispatch(Verb("privmsg " + rest)) == Some(Privmsg)
  {
    assert "privmsg " + rest == "privmsg" + [' '] + rest;
    SplitAtFirstSeparator("privmsg", ' ', rest);
  }

  // ------------------------------------------------------------------- guard

  /**
   * Below the threshold the handler body does not run: exactly one
   * ERR_NEEDMOREPARAMS naming the first part is sent (and with no part at
   * all, `parts[0]` raises before anything is sent).
   */
  lemma GuardRejects(u: User, d: Directory, msg: string, parts: seq<string>, c: Command)
    requires Dispatch(Verb(msg)) == Some(c)
    requires MinParams(c).Some? && |parts| < MinParams(c).value
    ensures |parts| > 0 ==> Reply(u, d, msg, parts)
                            == Reaction([Sent(u, NumericFor(u, ErrNeedMoreParams, [parts[0]], None))], None)
    ensures |parts| == 0 ==> Reply(u, d, msg, parts) == Reaction([], Some(IndexError))
  {
  }

  /** At or above the threshold the guard sends nothing and the handler runs. */
  lemma GuardAdmits(u: User, c: Command, parts: seq<string>)
    requires MinParams(c).None? || MinParams(c).value <= |parts|
    ensures Guard(u, c, parts) == None
  {
  }

  /** An exception always escapes before the command had any effect. */
  lemma FaultsPrecedeEffects(u: User, d: Directory, msg: string, parts: seq<string>)
    ensures Reply(u, d, msg, parts).fault.Some? ==> Reply(u, d, msg, parts).events == []
  {
  }

  // ------------------------------------------------------------- fan-out loops

  /** The loop bodies other than PRIVMSG's produce exactly one event per item. */
  lemma {:induction false} ForEachPointwise(f: Fanout, xs: seq<string>)
    requires !f.PrivmsgTo?
    ensures |ForEach(f, xs)| == |xs|
    ensures forall i | 0 <= i < |xs| :: [ForEach(f, xs)[i]] == Step(f, xs[i])
    decreases |xs|
  {
    if xs != [] {
      ForEachPointwise(f, xs[1..]);
      assert forall i | 1 <= i < |xs| :: xs[1..][i - 1] == xs[i];
    }
  }

  /** PRIVMSG produces at most one event per target. */
  lemma {:induction false} PrivmsgAtMostOnePerTarget(u: User, text: string, d: Directory, ts: seq<string>)
    ensures |ForEach(PrivmsgTo(u, text, d), ts)| <= |ts|
    decreases |ts|
  {
    if ts != [] {
      PrivmsgAtMostOnePerTarget(u, text, d, ts[1..]);
    }
  }

  /**
   * PRIVMSG targets are handled independently and in order: the events of a
   * target list are those of its parts, and a target that resolves to
   * nothing contributes nothing and does not stop the targets after it.
   */
  lemma PrivmsgTargetsIndependent(u: User, text: string, d: Directory,
                                  before: seq<string>, t: string, after: seq<string>)
    ensures ForEach(PrivmsgTo(u, text, d), before + [t] + after)
         == ForEach(PrivmsgTo(u, text, d), before) + Step(PrivmsgTo(u, text, d), t)
            + ForEach(PrivmsgTo(u, text, d), after)
    ensures (if u.env.isChannelName(t) then t !in d.channels else t !in d.users) ==>
              (ForEach(PrivmsgTo(u, text, d), before + [t] + after)
               == ForEach(PrivmsgTo(u, text, d), before) + ForEach(PrivmsgTo(u, text, d), after))
  {
    var f := PrivmsgTo(u, text, d);
    ForEachAppend(f, before + [t], after);
    ForEachAppend(f, before, [t]);
    ForEachSingle(f, t);
    if (if u.env.isChannelName(t) then t !in d.channels else t !in d.users) {
      assert Step(f, t) == [];
    }
  }

  lemma ForEachSingle(f: Fanout, x: string)
    ensures ForEach(f, [x]) == Step(f, x)
  {
    assert ForEach(f, [x]) == Step(f, x) + ForEach(f, []);
  }

  /** A channel target gets `channel.msg(sender, text)`. */
  lemma PrivmsgToChannel(u: User, text: string, d: Directory, t: string)
    requires u.env.isChannelName(t) && t in d.channels
    ensures Step(PrivmsgTo(u, text, d), t) == [ChannelMsg(t, u, text)]
  {
  }

  /**
   * A nick target gets a PRIVMSG with parameters `[target, text]`, the last
   * one trailing, sourced from the sender's `nick!username@host`.
   */
  lemma PrivmsgToUser(u: User, text: string, d: Directory, t: string)
    requires !u.env.isChannelName(t) && t in d.users
    ensures Step(PrivmsgTo(u, text, d), t)
         == [Sent(d.users[t], CommandLine(Identifier(u.nick, u.username, u.host), "PRIVMSG", [t, text], true))]
  {
    assert Identifier(u.nick, u.username, u.host) != "";
  }

  /**
   * `PRIVMSG #a,bob hello` when `#a` does not exist and `bob` does: bob
   * receives the message and the sender receives nothing (no
   * ERR_NOSUCHCHANNEL for `#a`).
   */
  lemma PrivmsgSkipsMissingChannel(u: User, d: Directory)
    requires u.env.isChannelName("#a") && "#a" !in d.channels
    requires !u.env.isChannelName("bob") && "bob" in d.users
    ensures Reply(u, d, "PRIVMSG #a,bob hello", ["PRIVMSG", "#a,bob", "hello"])
         == Reaction([Sent(d.users["bob"], RelayLine(d.users["bob"], u, "bob", "hello"))], None)
  {
    var parts := ["PRIVMSG", "#a,bob", "hello"];
    assert "PRIVMSG #a,bob hello" == "PRIVMSG " + "#a,bob hello";
    ReplyToPrivmsgLine(u, d, "#a,bob hello", parts);
    var f := PrivmsgTo(u, "hello", d);
    SplitTwoTargets();
    assert PrivmsgBody(u, d, parts) == Reaction(ForEach(f, ["#a", "bob"]), None);
    ForEachAppend(f, ["#a"], ["bob"]);
    assert ["#a"] + ["bob"] == ["#a", "bob"];
    ForEachSingle(f, "#a");
    ForEachSingle(f, "bob");
    assert Step(f, "#a") == [];
  }

  lemma SplitTwoTargets()
    ensures Split("#a,bob", ',') == ["#a", "bob"]
  {
    assert "#a,bob" == "#a" + [','] + "bob";
    SplitAtFirstSeparator("#a", ',', "bob");
    SplitWithoutSeparator("bob", ',');
  }

  /** A line starting with `PRIVMSG ` and enough parts runs the PRIVMSG body. */
  lemma ReplyToPrivmsgLine(u: User, d: Directory, rest: string, parts: seq<string>)
    requires |parts| >= 3
    ensures Reply(u, d, "PRIVMSG " + rest, parts) == PrivmsgBody(u, d, parts)
  {
    assert "PRIVMSG " + rest == "PRIVMSG" + " " + rest;
    VerbOfPrefix("PRIVMSG", rest);
    AsciiUpperKeepsUpper("PRIVMSG");
  }

  lemma AsciiUpperKeepsUpper(s: string)
    requires forall i | 0 <= i < |s| :: !IsAsciiLower(s[i])
    ensures AsciiUpper(s) == s
  {
  }

  /** The verb of `w + " " + rest` is `w` upper-cased when `w` has no space. */
  lemma VerbOfPrefix(w: string, rest: string)
    requires ' ' !in w
    ensures Verb(w + " " + rest) == AsciiUpper(w)
  {
    assert w + " " + rest == w + [' '] + rest;
    SplitAtFirstSeparator(w, ' ', rest);
  }

  // ------------------------------------------------------------- JOIN, PART

  /**
   * JOIN calls `join_user_to_channel(user, parts[1])` with no key; with
   * exactly three parts the read of `parts[3]` raises first.
   */
  lemma JoinCallsServer(u: User, d: Directory, parts: seq<string>)
    requires |parts| >= 2
    ensures |parts| == 3 ==> Handled(u, Join, d, parts) == Reaction([], Some(IndexError))
    ensures |parts| != 3 ==> Handled(u, Join, d, parts) == Reaction([JoinToChannel(u, parts[1])], None)
  {
  }

  /**
   * PART passes the third part as the reason when there are exactly three
   * parts and `None` with two; on an unknown channel it does nothing; with
   * more than three parts the unpacking raises.
   */
  lemma PartOutcomes(u: User, d: Directory, parts: seq<string>)
    requires |parts| >= 2
    ensures |parts| > 3 ==> Handled(u, Part, d, parts) == Reaction([], Some(ValueError))
    ensures |parts| <= 3 && parts[1] !in d.channels ==> Handled(u, Part, d, parts) == Reaction([], None)
    ensures |parts| <= 3 && parts[1] in d.channels ==>
              (Handled(u, Part, d, parts)
               == Reaction([ChannelPart(parts[1], u, if |parts| == 3 then Some(parts[2]) else None)], None))
  {
  }

  // -------------------------------------------------------------------- QUIT

  /**
   * QUIT calls `quit_user` once, with a reason exactly when there are two
   * parts, then closes the connection once, and sends no line.
   */
  lemma QuitThenClose(u: User, d: Directory, msg: string, parts: seq<string>)
    requires Dispatch(Verb(msg)) == Some(Quit)
    ensures Reply(u, d, msg, parts)
         == Reaction([QuitUser(u, if |parts| == 2 then Some(parts[1]) else None), Closed(u)], None)
    ensures forall e | e in Reply(u, d, msg, parts).events :: !e.Sent?
  {
  }

  // ------------------------------------------------------------------- TOPIC

  /**
   * TOPIC with two parts asks the channel to send its topic, with more it
   * tries to set `parts[2]`; an unknown channel gets one ERR_NOSUCHCHANNEL
   * naming it.
   */
  lemma TopicOutcomes(u: User, d: Directory, parts: seq<string>)
    requires |parts| >= 2
    ensures parts[1] !in d.channels ==>
              (Handled(u, Topic, d, parts)
               == Reaction([Sent(u, NumericFor(u, ErrNoSuchChannel, [parts[1]], None))], None))
    ensures parts[1] in d.channels && |parts| == 2 ==>
              Handled(u, Topic, d, parts) == Reaction([SendTopic(parts[1], u)], None)
    ensures parts[1] in d.channels && |parts| > 2 ==>
              Handled(u, Topic, d, parts) == Reaction([TrySetTopic(parts[1], u, parts[2])], None)
  {
  }

  // ------------------------------------------------------------- WHO, WHOIS

  /** WHO on a known channel asks it for the list; on an unknown one the KeyError escapes. */
  lemma WhoOutcomes(u: User, d: Directory, parts: seq<string>)
    requires |parts| >= 2
    ensures parts[1] in d.channels ==> Handled(u, Who, d, parts) == Reaction([SendWho(parts[1], u)], None)
    ensures parts[1] !in d.channels ==> Handled(u, Who, d, parts) == Reaction([], Some(KeyError))
  {
  }

  /** WHOIS makes one `send_whois(target, user)` call per comma-separated target, in order. */
  lemma WhoisPerTarget(u: User, d: Directory, parts: seq<string>)
    requires |parts| >= 2
    ensures var targets := Split(parts[1], ',');
            var r := Handled(u, Whois, d, parts);
            r.fault == None && |r.events| == |targets|
            && forall i | 0 <= i < |targets| :: r.events[i] == WhoisCall(targets[i], u)
  {
    ForEachPointwise(WhoisFor(u), Split(parts[1], ','));
  }

  // ------------------------------------------------------------------- NAMES

  /**
   * NAMES with an argument lists each comma-separated channel, in order;
   * otherwise it lists every channel of the server.
   */
  lemma NamesPerChannel(u: User, d: Directory, parts: seq<string>)
    ensures var names := if |parts| == 2 then Split(parts[1], ',') else d.channels;
            var r := Handled(u, Names, d, parts);
            r.fault == None && |r.events| == |names|
            && forall i | 0 <= i < |names| :: r.events[i] == ChannelList(u, names[i])
  {
    ForEachPointwise(ListChannel(u), if |parts| == 2 then Split(parts[1], ',') else d.channels);
  }

  // ---------------------------------------------------- opening and framing

  /** The codes of the numerics in an event sequence, in order. */
  function Codes(t: seq<Event>): seq<Code> {
    if t == [] then []
    else (if t[0].Sent? && t[0].line.NumericLine? then [t[0].line.code] else []) + Codes(t[1..])
  }

  lemma {:induction false} CodesAppend(a: seq<Event>, b: seq<Event>)
    ensures Codes(a + b) == Codes(a) + Codes(b)
    decreases |a|
  {
    if a == [] {
      assert a + b == b;
    } else {
      assert (a + b)[0] == a[0];
      assert (a + b)[1..] == a[1..] + b;
      CodesAppend(a[1..], b);
    }
  }

  /** When every event is a numeric, the codes are read off one per event. */
  lemma {:induction false} CodesOfNumerics(t: seq<Event>)
    requires forall i | 0 <= i < |t| :: t[i].Sent? && t[i].line.NumericLine?
    ensures Codes(t) == seq(|t|, i requires 0 <= i < |t| => t[i].line.code)
    decreases |t|
  {
    if t != [] {
      CodesOfNumerics(t[1..]);
    }
  }

  lemma {:induction false} MotdCodes(u: User, lines: seq<string>)
    ensures Codes(ForEach(MotdTo(u), lines)) == seq(|lines|, _ => RplMotd)
    decreases |lines|
  {
    if lines != [] {
      MotdCodes(u, lines[1..]);
      CodesAppend(Step(MotdTo(u), lines[0]), ForEach(MotdTo(u), lines[1..]));
    }
  }

  /** The opening events: the four welcome numerics, MOTDSTART, the MOTD lines, ENDOFMOTD, ISUPPORT. */
  lemma OpeningShape(u: User)
    ensures var t := OpeningEvents(u);
            && t == WelcomeEvents(u) + [Sent(u, NumericFor(u, RplMotdStart, [u.env.hostname], None))]
                    + ForEach(MotdTo(u), u.env.motd) + [Sent(u, NumericFor(u, RplEndOfMotd, [], None))]
                    + [Isupport(u)]
            && |t| == |u.env.motd| + 7
            && t[|t| - 1] == Isupport(u)
  {
    ForEachPointwise(MotdTo(u), u.env.motd);
  }

  /**
   * The constructor sends WELCOME, YOURHOST, CREATED, MYINFO, MOTDSTART, one
   * RPL_MOTD per MOTD line, ENDOFMOTD, in that order, and then triggers
   * ISUPPORT.
   */
  lemma OpeningCodes(u: User)
    ensures Codes(OpeningEvents(u))
         == [RplWelcome, RplYourHost, RplCreated, RplMyInfo, RplMotdStart]
            + seq(|u.env.motd|, _ => RplMotd) + [RplEndOfMotd]
    ensures OpeningEvents(u)[|OpeningEvents(u)| - 1] == Isupport(u)
  {
    OpeningShape(u);
    var lines := ForEach(MotdTo(u), u.env.motd);
    MotdCodes(u, u.env.motd);
    var start := WelcomeEvents(u) + [Sent(u, NumericFor(u, RplMotdStart, [u.env.hostname], None))];
    var finish := [Sent(u, NumericFor(u, RplEndOfMotd, [], None))];
    assert OpeningEvents(u) == start + lines + finish + [Isupport(u)];
    CodesOfNumerics(start);
    assert Codes(start) == [RplWelcome, RplYourHost, RplCreated, RplMyInfo, RplMotdStart];
    CodesOfNumerics(finish);
    CodesAppend(start, lines);
    CodesAppend(start + lines, finish);
    CodesAppend(start + lines + finish, [Isupport(u)]);
  }

  /** The i-th MOTD numeric of the opening carries the i-th MOTD line. */
  lemma OpeningMotdLines(u: User)
    ensures forall i | 0 <= i < |u.env.motd| ::
              5 + i < |OpeningEvents(u)|
              && OpeningEvents(u)[5 + i] == Sent(u, NumericFor(u, RplMotd, [u.env.motd[i]], None))
  {
    OpeningShape(u);
    ForEachPointwise(MotdTo(u), u.env.motd);
  }

  /**
   * Every line the constructor sends is a numeric addressed to the new
   * user's nick and sourced from the configured hostname.
   */
  lemma OpeningFramed(u: User)
    ensures forall i | 0 <= i < |OpeningEvents(u)| - 1 ::
              var e := OpeningEvents(u)[i];
              e.Sent? && e.to == u && e.line.NumericLine?
              && e.line.target == u.nick && e.line.source == u.env.hostname
  {
    OpeningShape(u);
    ForEachPointwise(MotdTo(u), u.env.motd);
  }

  /** Every event of a loop over MOTD lines, channel lists or WHOIS targets satisfies the framing. */
  lemma {:induction false} ForEachFramed(f: Fanout, xs: seq<string>)
    ensures NumericsAddressed(ForEach(f, xs))
    ensures forall i | 0 <= i < |ForEach(f, xs)| ::
              var e := ForEach(f, xs)[i];
              e.Sent? && e.line.NumericLine? ==> e.line.source == e.to.env.hostname
    decreases |xs|
  {
    if xs != [] {
      ForEachFramed(f, xs[1..]);
      AddressedAppend(Step(f, xs[0]), ForEach(f, xs[1..]));
    }
  }

  /**
   * Every numeric any command sends is addressed to the receiving user's
   * own nick (its first parameter) and sourced from the server hostname.
   */
  lemma ReplyFramed(u: User, d: Directory, msg: string, parts: seq<string>)
    ensures NumericsAddressed(Reply(u, d, msg, parts).events)
    ensures forall i | 0 <= i < |Reply(u, d, msg, parts).events| ::
              var e := Reply(u, d, msg, parts).events[i];
              e.Sent? && e.line.NumericLine? ==> e.line.source == e.to.env.hostname
  {
    match Dispatch(Verb(msg))
    case None =>
    case Some(c) =>
      if Guard(u, c, parts).None? {
        match c
        case Privmsg => ForEachFramed(PrivmsgTo(u, parts[2], d), Split(parts[1], ','));
        case Names => ForEachFramed(ListChannel(u), if |parts| == 2 then Split(parts[1], ',') else d.channels);
        case Whois => ForEachFramed(WhoisFor(u), Split(parts[1], ','));
        case _ =>
      }
  }
}
