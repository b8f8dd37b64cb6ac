# pyircd session engine in Dafny

This project models the per-connection command engine of pyircd, a minimal IRC
daemon: the `User` class of `pyircd/user.py` and its `min_params` guard. A
`User` greets a new connection with the welcome numerics, the MOTD and
ISUPPORT. It then takes each incoming line, picks a handler by the
upper-cased first token, checks the minimum parameter count, and routes the
parameters to the server, to a channel or to another user.

The model is imperative where the source is:

- `Session.User` is a class with the user's identity as constant fields and
  the `channels` list as a mutable field.
- Its methods (`HandleCmd`, the eight `Handle*` handlers, `SendNumeric`,
  `SendCmd`, `SendMotd`, `Msg`, ...) change the state of the environment.
- The loops over comma-separated targets and over MOTD lines are `while`
  loops with invariants.

The environment is `Session.Env`. It stands for everything a `User` talks to:

- the server configuration (hostname, version, MOTD lines);
- the `is_channel_name` helper, as a function-valued constant;
- a snapshot of the registry (`Directory`), which says which names
  `get_channel` and `get_user` resolve (`Directory.GetChannel` and
  `Directory.GetUser` are that environment, not code of `pyircd/user.py`, and
  have no row in the table below);
- one ordered trace of `Event`s.

Each event is either a line handed to some user's connection (`Sent`) or a
call made on the server, on a channel or on a connection. Keeping a single
trace preserves the interleaving: ISUPPORT comes after ENDOFMOTD, and the
connection closes after `quit_user`.

Every handler is proved to append exactly the events of a pure reference
function (`Session.Reply`, `Session.Handled`, the `*Body` functions and
`Session.ForEach` for the loops). The module `SessionProperties` proves what
the code promises about those functions: dispatch, the guard, per-target
fan-out, each handler's outcomes, the opening sequence and the framing of
numerics. `Env.Valid()` says that registered users share the server and that
every numeric sent to a user carries that user's nick as its first parameter.
Every `User` method requires and keeps it. `Env.Record`, the raw recorder
underneath, keeps it for any event that is addressed to its owner, and
`User.SendRaw` requires its line to be so addressed.

Python exceptions that `pyircd/user.py`'s own code raises out of `handle_cmd`
are modelled as a returned `Option<Fault>`, assuming that the helpers it calls
but does not show exist and return normally (see "Left out" for
`send_channel_list`, which does not). The model shows that each one is raised
before the command has any effect:

- `IndexError`: the guard reads `parts[0]` of an empty part list, or JOIN
  reads `parts[3]` when there are exactly three parts.
- `ValueError`: PART unpacks `cmd, channel = parts` when there are more than
  three parts.
- `KeyError`: WHO names an unknown channel.

The code is modelled, not a corrected design:

- PRIVMSG and JOIN send no error reply when a target does not resolve.
- JOIN never passes a key on.
- PART on an unknown channel does nothing.

## Model

| member | source | states |
|---|---|---|
| `Strings.Split` | pyircd/user.py:99 | `str.split(',')`: at least one piece, no piece holds the separator, joining the pieces with the separator gives back the input, and the first piece is the text before the first separator |
| `Strings.SplitJoin` | pyircd/user.py:99 | splitting undoes joining when no piece holds the separator (the other half of the round trip) |
| `Strings.SplitWithoutSeparator` | pyircd/user.py:99 | a string without the separator splits into itself alone |
| `Strings.SplitAtFirstSeparator` | pyircd/user.py:99 | the first separator ends the first piece |
| `Strings.FirstToken` | pyircd/user.py:91 | `msg.split(' ')[0]` holds no space, is a prefix of the line, and is followed by a space or by the end of the line |
| `Strings.AsciiUpper` | pyircd/user.py:91 | upper-casing keeps the length, maps each character by itself, and leaves no lower-case ASCII letter |
| `Strings.AsciiUpperIdempotent` | pyircd/user.py:91 | upper-casing twice is upper-casing once |
| `Irc.Verb` | pyircd/user.py:91 | the verb is the upper-cased first space-delimited token: it holds no space, is the upper-casing of a prefix of the line, and that prefix ends at a space or at the end of the line |
| `Irc.Dispatch` | pyircd/user.py:27-36 | a verb hits the table exactly when it is one of the eight keys, and then it selects the command registered under it |
| `Irc.MinParams` | pyircd/user.py:95 | thresholds: PRIVMSG 3; JOIN, PART, TOPIC, WHO and WHOIS 2 (lines 111, 125, 162, 184, 191); QUIT and NAMES unguarded |
| `Irc.EffectiveSource` | pyircd/user.py:213-214 | a missing or empty source becomes the configured hostname; any other source is kept |
| `Irc.Hostmask` | pyircd/user.py:82-84 | `username@host`: the username, then `@`, then the host, with nothing else |
| `Irc.Identifier` | pyircd/user.py:86-88 | `nick!username@host`: the nick, then `!`, then the hostmask; it is the source of relayed lines |
| `Irc.HostmaskSplits` | pyircd/user.py:82-84 | `username@host` splits back into the username when the username holds no `@` |
| `Irc.IdentifierSplits` | pyircd/user.py:86-88 | `nick!username@host` is the nick, `!` and the hostmask; it splits back into the nick, and it is never empty, so it never defaults to the hostname |
| `Session.GuardWith` | pyircd/user.py:12-20 | the guard lets the handler run exactly when at least `n` parts arrived |
| `Session.Guard` | pyircd/user.py:95 | a command proceeds exactly when it is unguarded or its threshold is met |
| `Session.ForEachAppend` | pyircd/user.py:100 | a loop over targets yields the events of each target in order: the loop over `a + b` is the loop over `a` followed by the loop over `b` |
| `Session.AddressedAppend` | pyircd/user.py:205 | the "numeric addressed to its receiver" invariant holds of a concatenation exactly when it holds of both halves |
| `Session.User.constructor` | pyircd/user.py:26-48 | sets nick, username, real name, host and the server; sends the opening numerics, then the MOTD, then triggers ISUPPORT; `channels` ends empty |
| `Session.User.SendOpeningNumerics` | pyircd/user.py:50-80 | appends WELCOME(nick, username, host), YOURHOST(hostname, version), CREATED("in the past."), MYINFO(hostname, version, "", "") |
| `Session.User.SendMotd` | pyircd/user.py:222-227 | appends MOTDSTART(hostname), one RPL_MOTD per MOTD line in order, ENDOFMOTD |
| `Session.User.SendRaw` | pyircd/user.py:219-220 | appends the line to this user's connection and nothing else |
| `Session.User.SendCmd` | pyircd/user.py:210-217 | appends one command line with the given verb, params and trailing flag, sourced from the effective source |
| `Session.User.SendNumeric` | pyircd/user.py:201-208 | appends one numeric addressed to this user's nick, with the given arguments, sourced from the effective source |
| `Session.User.Msg` | pyircd/user.py:229-231 | appends to the receiver one PRIVMSG with params `[channel, text]`, trailing flag set, sourced from the sender's `nick!username@host` |
| `Session.User.MinParamsGuard` | pyircd/user.py:6-22 | below `n` parts, sends one ERR_NEEDMOREPARAMS naming `parts[0]` (or raises on an empty list) and stops the handler; otherwise sends nothing |
| `Session.User.HandleCmd` | pyircd/user.py:90-93 | appends exactly the events of `Reply` and returns its exception: a verb outside the table does nothing |
| `Session.User.HandlePrivmsg` | pyircd/user.py:95-109 | guarded at 3; then one loop step per comma-separated target, in order |
| `Session.User.DeliverPrivmsg` | pyircd/user.py:101-109 | a channel target gets `channel.msg`, a nick target gets `user.msg`; a failed lookup appends nothing |
| `Session.User.HandleJoin` | pyircd/user.py:111-123 | guarded at 2; raises on exactly three parts; otherwise calls `join_user_to_channel(user, parts[1])` |
| `Session.User.HandlePart` | pyircd/user.py:125-139 | guarded at 2; reason `parts[2]` with three parts, none with two, raises with more; calls `channel.part` only on a known channel |
| `Session.User.HandleQuit` | pyircd/user.py:141-149 | calls `quit_user` (with a reason exactly when there are two parts), then closes the connection |
| `Session.User.HandleNames` | pyircd/user.py:151-160 | one channel list per comma-separated name with an argument, else one per server channel, in order |
| `Session.User.HandleTopic` | pyircd/user.py:162-178 | guarded at 2; sends the topic or tries to set `parts[2]`; an unknown channel gets ERR_NOSUCHCHANNEL |
| `Session.User.HandleWho` | pyircd/user.py:184-189 | guarded at 2; asks a known channel for its WHO list; an unknown channel raises |
| `Session.User.HandleWhois` | pyircd/user.py:191-199 | guarded at 2; one `send_whois(target, user)` per comma-separated target, in order |
| `SessionProperties.UnknownVerbIsIgnored` | pyircd/user.py:90-93 | a verb outside the table produces no line, no call and no exception |
| `SessionProperties.ModeIsNotDispatched` | pyircd/user.py:180-182 | MODE is not in the table, so `handle_mode` is unreachable |
| `SessionProperties.VerbOfLowercaseLine` | pyircd/user.py:91 | a line starting `privmsg ` dispatches to PRIVMSG: matching is case-insensitive |
| `SessionProperties.VerbOfPrefix` | pyircd/user.py:91 | the verb of `w + " " + rest` is `w` upper-cased |
| `SessionProperties.GuardRejects` | pyircd/user.py:14-18 | below the threshold, the whole reply is exactly one ERR_NEEDMOREPARAMS naming `parts[0]`, and the handler body does not run |
| `SessionProperties.GuardAdmits` | pyircd/user.py:19-20 | at or above the threshold the guard sends nothing and the handler runs |
| `SessionProperties.FaultsPrecedeEffects` | pyircd/user.py:90-93 | whenever `handle_cmd` raises, it has sent nothing and made no call |
| `SessionProperties.ForEachPointwise` | pyircd/user.py:156-160 | the NAMES, WHOIS and MOTD loops produce exactly one event per item, the i-th for the i-th item |
| `SessionProperties.PrivmsgAtMostOnePerTarget` | pyircd/user.py:100-109 | PRIVMSG produces at most one event per target |
| `SessionProperties.PrivmsgTargetsIndependent` | pyircd/user.py:100-109 | each target is handled once, in its position; an unresolvable target contributes nothing and does not stop later targets |
| `SessionProperties.PrivmsgToChannel` | pyircd/user.py:102-103 | a known channel target gets `channel.msg(sender, text)` |
| `SessionProperties.PrivmsgToUser` | pyircd/user.py:104-106 | a known nick target receives PRIVMSG `[target, text]`, trailing, sourced from the sender's `nick!username@host` |
| `SessionProperties.PrivmsgSkipsMissingChannel` | pyircd/user.py:107-109 | `PRIVMSG #a,bob hello` with no `#a`: bob receives the message and the sender receives nothing |
| `SessionProperties.ReplyToPrivmsgLine` | pyircd/user.py:92-98 | a line starting `PRIVMSG ` with at least three parts runs the PRIVMSG body |
| `SessionProperties.JoinCallsServer` | pyircd/user.py:116-123 | JOIN calls `join_user_to_channel(user, parts[1])` without a key; exactly three parts raise first |
| `SessionProperties.PartOutcomes` | pyircd/user.py:128-139 | the reason is `parts[2]` exactly when there are three parts; an unknown channel means no effect; more than three parts raise |
| `SessionProperties.QuitThenClose` | pyircd/user.py:141-149 | one `quit_user` (reason only with two parts), then one close, and no line sent |
| `SessionProperties.TopicOutcomes` | pyircd/user.py:165-178 | two parts send the topic, more try to set `parts[2]`, an unknown channel gets exactly one ERR_NOSUCHCHANNEL naming it |
| `SessionProperties.WhoOutcomes` | pyircd/user.py:187-189 | a known channel is asked for its WHO list; an unknown one raises KeyError with no effect |
| `SessionProperties.WhoisPerTarget` | pyircd/user.py:194-199 | one `send_whois(target, user)` per comma-separated target, in order, and nothing else |
| `SessionProperties.NamesPerChannel` | pyircd/user.py:151-160 | one channel list per comma-separated name given, otherwise one per server channel, in order |
| `SessionProperties.CodesOfNumerics` | pyircd/user.py:201-208 | over a run of numerics, the codes are read off one per line, in order |
| `SessionProperties.MotdCodes` | pyircd/user.py:225-226 | the MOTD loop sends one RPL_MOTD per line |
| `SessionProperties.OpeningShape` | pyircd/user.py:45-47 | construction appends the welcome numerics, MOTDSTART, the MOTD lines, ENDOFMOTD and then ISUPPORT: seven events plus one per MOTD line |
| `SessionProperties.OpeningCodes` | pyircd/user.py:45-47 | the numerics come in the order WELCOME, YOURHOST, CREATED, MYINFO, MOTDSTART, one RPL_MOTD per MOTD line, ENDOFMOTD, and ISUPPORT is triggered last |
| `SessionProperties.OpeningMotdLines` | pyircd/user.py:225-226 | the i-th RPL_MOTD of the opening carries the i-th MOTD line |
| `SessionProperties.OpeningFramed` | pyircd/user.py:201-214 | every line of the opening is a numeric addressed to the new user's nick and sourced from the configured hostname |
| `SessionProperties.ForEachFramed` | pyircd/user.py:205 | the loops send only numerics addressed to their receiver's nick and sourced from the hostname |
| `SessionProperties.ReplyFramed` | pyircd/user.py:201-208 | every numeric any command sends has the receiver's nick as its first parameter and the hostname as its source |

## Left out

- `irc_msg_split` is not part of this model: handlers take the already-split parts, and `HandleCmd` takes the raw line for its verb and the split parts for the handlers.
- `build_irc_msg` is not part of this model: a sent line is recorded as its structured arguments (source, verb or numeric code, params, trailing flag), not as wire text.
- The `numerics` templates are not part of this model: a numeric line keeps its code, its addressee and the arguments substituted into the template, not the rendered parameters or the template's trailing flag.
- `is_channel_name` is not part of this model: `Env.isChannelName` is an arbitrary total predicate.
- `Strings.AsciiUpper`: models `str.upper` on ASCII letters only. Python also maps some other characters (the dotless `ı` to `I`, `ß` to `SS`), so a token such as `joın` dispatches as JOIN in the source but not in the model.
- The MOTD is taken as a list of lines; `str.splitlines` and MOTD file loading are not modelled.
- The server registry and the channel implementations (join, key and limit checks, membership, topics, WHO and WHOIS replies, ISUPPORT) are recorded calls only. Every such call returns normally. So the `except KeyError` around `join_user_to_channel`, `channel.part` and `channel.msg`, and a KeyError raised inside `send_topic` or `try_set_topic` (which would also produce ERR_NOSUCHCHANNEL), are not modelled.
- Exceptions of other kinds from those calls (a bad key, a full channel) are not modelled either.
- `send_channel_list` is not defined in `pyircd/user.py`. As written, `NAMES x` raises AttributeError at the first name, before any effect, and so does a bare `NAMES` whenever the server has a channel. The model assumes that the helper is supplied elsewhere and records each call to it as a `ChannelList` event.
- The registry is a snapshot that stays fixed while one command runs. `Env.SetDirectory` changes it between commands; it stands for the server, not for code in `user.py`.
- `host` is a constructor parameter standing for `connection.address[0]`. The connection's transport, `send_raw`'s wire output and sockets are recorded events only.
- The real name is stored and never used, as in the source. `__str__`, which returns the identifier, is covered by `Irc.Identifier` and is not modelled as a separate member.
- `handle_mode` is an empty stub that is not in the dispatch table; only its unreachability is stated (`SessionProperties.ModeIsNotDispatched`).
- Concurrency and locking are not modelled; the source has none.
