/**
 * The ticket conversation of server/bot.ts: opening a ticket channel, and
 * the turn run for each message posted in a tracked ticket channel.
 *
 * The language-model call and `JSON.parse` are not modelled: a turn receives
 * the parsed decision, or `None` when the call or the parse threw. A turn's
 * `try` block awaits its operations one after the other; `failAt == Some(k)`
 * says that the k-th `channel.send` of that block (counting from 0) rejects,
 * which ends the block and runs the `catch`.
 */
module Tickets {
  import opened Wrappers
  import opened Platform

  /** What the bot remembers about a ticket channel. */
  datatype TicketState = TicketState(step: string, reason: Option<string>)

  /** The entry a newly opened ticket gets. */
  const InitialState := TicketState("init", None)

  /** `ticketStates`: channel id to ticket state. */
  type States = map<string, TicketState>

  /** The new ticket-state map and the calls a handler issued. */
  datatype Reaction = Reaction(states: States, effects: seq<Effect>)

  // ---------------------------------------------------------------------------
  // Opening a ticket (the `ticket` command)

  datatype Guild = Guild(id: string)
  datatype Member = Member(id: string, username: string)

  /** Which awaited call of the opening sequence rejects. */
  datatype OpenFailure = CreateRejected | ConfirmRejected | GreetingRejected

  const OpenError := "Erreur lors de la création du ticket."

  function Greeting(opener: Member): string {
    "Bonjour " + UserMention(opener.id) + ", quel est le but du ticket ?"
  }

  function Created(channelId: string): string {
    "Ticket créé: " + ChannelMention(channelId)
  }

  /**
   * The channel a ticket opens: named after the opener; hidden from the
   * guild's everyone role (whose id is the guild id); visible and writable
   * for the opener and for the bot, and for no one else.
   */
  function TicketChannel(guild: Guild, opener: Member, botId: string): (req: ChannelRequest)
    ensures req.name == "ticket-" + opener.username
    ensures Overwrite(guild.id, {}, {ViewChannel}) in req.overwrites
    ensures Overwrite(opener.id, {ViewChannel, SendMessages}, {}) in req.overwrites
    ensures Overwrite(botId, {ViewChannel, SendMessages}, {}) in req.overwrites
    ensures forall o :: o in req.overwrites && o.allow != {} ==> o.id == opener.id || o.id == botId
    ensures forall o :: o in req.overwrites ==> o.deny == {} || o.id == guild.id
  {
    ChannelRequest("ticket-" + opener.username, [
      Overwrite(guild.id, {}, {ViewChannel}),
      Overwrite(opener.id, {ViewChannel, SendMessages}, {}),
      Overwrite(botId, {ViewChannel, SendMessages}, {})
    ])
  }

  /**
   * The `ticket` command: create the channel, answer the interaction, greet
   * the opener in the channel, then track the channel at step "init". No
   * guild: nothing happens. A rejected call: no entry, and the error reply.
   */
  function Open(states: States, guild: Option<Guild>, opener: Member, botId: string,
                channelId: string, failure: Option<OpenFailure>): (r: Reaction)
    ensures guild.None? ==> r == Reaction(states, [])
    ensures guild.Some? && failure.None? ==> r.states == states[channelId := InitialState]
    ensures failure.Some? ==> r.states == states
    ensures guild.Some? ==> |r.effects| >= 2 && r.effects[0] == CreateChannel(TicketChannel(guild.value, opener, botId))
    ensures guild.Some? && failure.Some? ==> r.effects[|r.effects| - 1] == Reply(OpenError, true)
    ensures guild.Some? && failure.None? ==>
      r.effects[1..] == [Reply(Created(channelId), true), Send(channelId, Greeting(opener))]
    // a rejection ends the `try` at that `await`: nothing after it is issued but the error reply
    ensures guild.Some? && failure == Some(CreateRejected) ==>
      r.effects[1..] == [Reply(OpenError, true)]
    ensures guild.Some? && failure == Some(ConfirmRejected) ==>
      r.effects[1..] == [Reply(Created(channelId), true), Reply(OpenError, true)]
    ensures guild.Some? && failure == Some(GreetingRejected) ==>
      r.effects[1..] == [Reply(Created(channelId), true), Send(channelId, Greeting(opener)), Reply(OpenError, true)]
  {
    match guild
    case None => Reaction(states, [])
    case Some(g) =>
      var create := CreateChannel(TicketChannel(g, opener, botId));
      var reply := Reply(Created(channelId), true);
      var greet := Send(channelId, Greeting(opener));
      match failure
      case None => Reaction(states[channelId := InitialState], [create, reply, greet])
      case Some(CreateRejected) => Reaction(states, [create, Reply(OpenError, true)])
      case Some(ConfirmRejected) => Reaction(states, [create, reply, Reply(OpenError, true)])
      case Some(GreetingRejected) => Reaction(states, [create, reply, greet, Reply(OpenError, true)])
  }

  /** A successful opening for a new channel adds exactly that one entry and keeps every other. */
  lemma OpenAddsOneEntry(states: States, guild: Guild, opener: Member, botId: string, channelId: string)
    requires channelId !in states
    ensures var r := Open(states, Some(guild), opener, botId, channelId, None);
      && r.states.Keys == states.Keys + {channelId}
      && |r.states| == |states| + 1
      && r.states[channelId] == InitialState
      && forall c :: c in states ==> r.states[c] == states[c]
  {
    var r := Open(states, Some(guild), opener, botId, channelId, None);
    assert r.states.Keys == states.Keys + {channelId};
  }

  // ---------------------------------------------------------------------------
  // A turn (the `messageCreate` handler)

  /** The parsed model output; a field is `None` when the JSON object lacks it. */
  datatype Decision = Decision(reply: Option<string>, action: Option<string>,
                               targetUser: Option<string>, newStep: Option<string>)

  /** What an empty completion parses to: the content falls back to "{}". */
  const EmptyDecision := Decision(None, None, None, None)

  const ErrorNotice := "Une erreur est survenue lors du traitement de votre demande."
  const DeleteNotice := "Suppression du ticket dans 5 secondes..."
  const DeleteTicket := "DELETE_TICKET"
  const FallbackTarget := "l'utilisateur concerné"

  /** JavaScript truthiness of an optional string field. */
  predicate Truthy(v: Option<string>) {
    v.Some? && v.value != ""
  }

  /** `["BAN", "KICK", "MUTE"].includes(action)` */
  predicate IsSanction(action: Option<string>) {
    action == Some("BAN") || action == Some("KICK") || action == Some("MUTE")
  }

  /** `target || "l'utilisateur concerné"` */
  function TargetName(target: Option<string>): string {
    if Truthy(target) then target.value else FallbackTarget
  }

  /** The simulated sanction message; no sanction is applied. */
  function SanctionNotice(action: string, target: Option<string>): string {
    "[SYSTEM] Sanction appliquée: " + action + " pour " + TargetName(target) + ". (Simulation)"
  }

  /** One step of the turn's `try` block after the decision is parsed. */
  datatype Op = SendOp(text: string) | WriteStep(step: string) | ScheduleDeletion

  function ReplyOps(d: Decision): seq<Op> {
    if Truthy(d.reply) then [SendOp(d.reply.value)] else []
  }

  function StepOps(d: Decision): seq<Op> {
    if Truthy(d.newStep) then [WriteStep(d.newStep.value)] else []
  }

  function DeleteOps(d: Decision): seq<Op> {
    if d.action == Some(DeleteTicket) then [SendOp(DeleteNotice), ScheduleDeletion] else []
  }

  function SanctionOps(d: Decision): seq<Op> {
    if IsSanction(d.action) then [SendOp(SanctionNotice(d.action.value, d.targetUser))] else []
  }

  /** The two independent `if`s on the action. */
  function ActionOps(d: Decision): seq<Op> {
    DeleteOps(d) + SanctionOps(d)
  }

  /** The `try` block in source order: reply, step write, deletion, sanction message. */
  function Script(d: Decision): seq<Op> {
    ReplyOps(d) + StepOps(d) + ActionOps(d)
  }

  function SendCount(ops: seq<Op>): nat {
    if ops == [] then 0 else (if ops[0].SendOp? then 1 else 0) + SendCount(ops[1..])
  }

  /** The failing send's index once `n` sends have gone through. */
  function Skip(failAt: Option<nat>, n: nat): Option<nat> {
    if failAt.Some? && failAt.value >= n then Some(failAt.value - n) else None
  }

  /** An effect of a turn in channel `ch`: a message to it, or its scheduled deletion. */
  predicate InChannel(e: Effect, ch: string) {
    e == ScheduleDelete(ch) || (e.Send? && e.channel == ch)
  }

  /** How far a `try` block got: the ticket state, the calls issued, and whether a send rejected. */
  datatype Progress = Progress(state: TicketState, effects: seq<Effect>, failed: bool)

  /** Runs the operations in order until the send numbered `failAt` rejects. */
  function Run(ops: seq<Op>, ch: string, st: TicketState, failAt: Option<nat>): (p: Progress)
    ensures p.state.reason == st.reason
    ensures forall e :: e in p.effects ==> InChannel(e, ch)
    ensures p.failed <==> failAt.Some? && failAt.value < SendCount(ops)
    decreases |ops|
  {
    if ops == [] then Progress(st, [], false)
    else match ops[0]
      case SendOp(t) =>
        if failAt == Some(0) then Progress(st, [Send(ch, t)], true)
        else
          var p := Run(ops[1..], ch, st, Skip(failAt, 1));
          p.(effects := [Send(ch, t)] + p.effects)
      case WriteStep(s) => Run(ops[1..], ch, st.(step := s), failAt)
      case ScheduleDeletion =>
        var p := Run(ops[1..], ch, st, failAt);
        p.(effects := [ScheduleDelete(ch)] + p.effects)
  }

  /**
   * One turn. A message from a bot, or in a channel without an entry, is
   * ignored. Otherwise the block runs; the channel's entry takes the state
   * the block left, and if anything threw the error notice is sent.
   */
  function Turn(states: States, ch: string, authorIsBot: bool, parsed: Option<Decision>,
                failAt: Option<nat>): (r: Reaction)
    ensures authorIsBot || ch !in states ==> r == Reaction(states, [])
    ensures !authorIsBot && ch in states && parsed.None? ==> r == Reaction(states, [Send(ch, ErrorNotice)])
    ensures r.states.Keys == states.Keys
    ensures forall c :: c in states && c != ch ==> r.states[c] == states[c]
    ensures ch in states ==> r.states[ch].reason == states[ch].reason
    ensures forall e :: e in r.effects ==> InChannel(e, ch)
  {
    if authorIsBot || ch !in states then Reaction(states, [])
    else match parsed
      case None => Reaction(states, [Send(ch, ErrorNotice)])
      case Some(d) =>
        var p := Run(Script(d), ch, states[ch], failAt);
        Reaction(states[ch := p.state], p.effects + if p.failed then [Send(ch, ErrorNotice)] else [])
  }

  // ---------------------------------------------------------------------------
  // Properties of a turn

  /** Running two blocks one after the other: the second starts where the first stopped, unless it failed. */
  lemma {:induction false} RunAppend(a: seq<Op>, b: seq<Op>, ch: string, st: TicketState, failAt: Option<nat>)
    ensures Run(a + b, ch, st, failAt) ==
      var pa := Run(a, ch, st, failAt);
      if pa.failed then pa
      else
        var pb := Run(b, ch, pa.state, Skip(failAt, SendCount(a)));
        Progress(pb.state, pa.effects + pb.effects, pb.failed)
    decreases |a|
  {
    if a == [] {
      assert a + b == b;
    } else {
      assert (a + b)[0] == a[0] && (a + b)[1..] == a[1..] + b;
      match a[0]
      case SendOp(t) =>
        if failAt != Some(0) {
          RunAppend(a[1..], b, ch, st, Skip(failAt, 1));
          assert Skip(Skip(failAt, 1), SendCount(a[1..])) == Skip(failAt, SendCount(a));
        }
      case WriteStep(s) =>
        RunAppend(a[1..], b, ch, st.(step := s), failAt);
      case ScheduleDeletion =>
        RunAppend(a[1..], b, ch, st, failAt);
    }
  }

  /** The reply's send, when the reply is truthy. */
  function ReplyEffects(ch: string, d: Decision): seq<Effect> {
    if Truthy(d.reply) then [Send(ch, d.reply.value)] else []
  }

  /** The action's calls when nothing rejects. */
  function ActionEffects(ch: string, d: Decision): seq<Effect> {
    (if d.action == Some(DeleteTicket) then [Send(ch, DeleteNotice), ScheduleDelete(ch)] else [])
    + (if IsSanction(d.action) then [Send(ch, SanctionNotice(d.action.value, d.targetUser))] else [])
  }

  /** The ticket state after a truthy `newStep` is written. */
  function Stepped(st: TicketState, d: Decision): TicketState {
    if Truthy(d.newStep) then st.(step := d.newStep.value) else st
  }

  lemma RunReplyOps(d: Decision, ch: string, st: TicketState, failAt: Option<nat>)
    ensures SendCount(ReplyOps(d)) == if Truthy(d.reply) then 1 else 0
    ensures Run(ReplyOps(d), ch, st, failAt) ==
      Progress(st, ReplyEffects(ch, d), Truthy(d.reply) && failAt == Some(0))
  {
    if Truthy(d.reply) {
      assert ReplyOps(d)[1..] == [];
    }
  }

  lemma RunStepOps(d: Decision, ch: string, st: TicketState, failAt: Option<nat>)
    ensures SendCount(StepOps(d)) == 0
    ensures Run(StepOps(d), ch, st, failAt) == Progress(Stepped(st, d), [], false)
  {
    if Truthy(d.newStep) {
      assert StepOps(d)[1..] == [];
    }
  }

  /** The action part alone: its calls, cut short when its one send rejects; the state is untouched. */
  lemma RunActionOps(d: Decision, ch: string, st: TicketState, failAt: Option<nat>)
    ensures Run(ActionOps(d), ch, st, failAt) ==
      if failAt == Some(0) && (d.action == Some(DeleteTicket) || IsSanction(d.action))
      then Progress(st, ActionEffects(ch, d)[..1], true)
      else Progress(st, ActionEffects(ch, d), false)
  {
    if d.action == Some(DeleteTicket) {
      assert !IsSanction(d.action);
      assert ActionOps(d) == [SendOp(DeleteNotice), ScheduleDeletion];
      assert ActionOps(d)[1..] == [ScheduleDeletion] && ActionOps(d)[1..][1..] == [];
      assert Run([ScheduleDeletion], ch, st, Skip(failAt, 1)) == Progress(st, [ScheduleDelete(ch)], false);
    } else if IsSanction(d.action) {
      assert ActionOps(d) == [SendOp(SanctionNotice(d.action.value, d.targetUser))];
      assert ActionOps(d)[1..] == [];
    } else {
      assert ActionOps(d) == [];
    }
  }

  /**
   * The block as a whole: the reply's send, then (unless it rejected) the
   * step write, then the action part counting its sends after the reply's.
   */
  lemma RunScript(d: Decision, ch: string, st: TicketState, failAt: Option<nat>)
    ensures Run(Script(d), ch, st, failAt) ==
      if Truthy(d.reply) && failAt == Some(0) then Progress(st, ReplyEffects(ch, d), true)
      else
        var pa := Run(ActionOps(d), ch, Stepped(st, d), Skip(failAt, if Truthy(d.reply) then 1 else 0));
        Progress(pa.state, ReplyEffects(ch, d) + pa.effects, pa.failed)
  {
    var pre := ReplyOps(d) + StepOps(d);
    RunAppend(pre, ActionOps(d), ch, st, failAt);
    RunAppend(ReplyOps(d), StepOps(d), ch, st, failAt);
    RunReplyOps(d, ch, st, failAt);
    var k := if Truthy(d.reply) then 1 else 0;
    RunStepOps(d, ch, st, Skip(failAt, k));
    assert SendCount(pre) == k by {
      SendCountAppend(ReplyOps(d), StepOps(d));
    }
    if !(Truthy(d.reply) && failAt == Some(0)) {
      assert Run(pre, ch, st, failAt) == Progress(Stepped(st, d), ReplyEffects(ch, d), false);
      assert ReplyEffects(ch, d) + [] == ReplyEffects(ch, d);
    }
  }

  lemma {:induction false} SendCountAppend(a: seq<Op>, b: seq<Op>)
    ensures SendCount(a + b) == SendCount(a) + SendCount(b)
    decreases |a|
  {
    if a == [] {
      assert a + b == b;
    } else {
      assert (a + b)[0] == a[0] && (a + b)[1..] == a[1..] + b;
      SendCountAppend(a[1..], b);
    }
  }

  /** What the turn does once the decision is parsed, for a tracked channel and a human author. */
  lemma TurnParsed(states: States, ch: string, d: Decision, failAt: Option<nat>)
    requires ch in states
    ensures var p := Run(Script(d), ch, states[ch], failAt);
      Turn(states, ch, false, Some(d), failAt) ==
        Reaction(states[ch := p.state], p.effects + if p.failed then [Send(ch, ErrorNotice)] else [])
  {
  }

  /**
   * A turn in which nothing rejects: the step becomes `newStep` when that is
   * truthy and stays otherwise, and the calls are the reply (when truthy),
   * then the action's calls, in that order.
   */
  lemma TurnWithoutFailure(states: States, ch: string, d: Decision)
    requires ch in states
    ensures var r := Turn(states, ch, false, Some(d), None);
      && r.states == (if Truthy(d.newStep) then states[ch := states[ch].(step := d.newStep.value)] else states)
      && r.effects == ReplyEffects(ch, d) + ActionEffects(ch, d)
  {
    var st := states[ch];
    TurnParsed(states, ch, d, None);
    RunScript(d, ch, st, None);
    RunActionOps(d, ch, Stepped(st, d), None);
    assert Skip(None, if Truthy(d.reply) then 1 else 0) == None;
    assert !Truthy(d.newStep) ==> states[ch := st] == states;
    assert ReplyEffects(ch, d) + ActionEffects(ch, d) + [] == ReplyEffects(ch, d) + ActionEffects(ch, d);
  }

  /**
   * The step write comes after the reply: the channel's step becomes a
   * truthy `newStep` unless the reply's send is the one that rejects, and it
   * stays as it was when `newStep` is absent or empty.
   */
  lemma StepAfterTurn(states: States, ch: string, d: Decision, failAt: Option<nat>)
    requires ch in states
    ensures Turn(states, ch, false, Some(d), failAt).states[ch].step ==
      if Truthy(d.newStep) && !(Truthy(d.reply) && failAt == Some(0)) then d.newStep.value
      else states[ch].step
  {
    var st := states[ch];
    TurnParsed(states, ch, d, failAt);
    RunScript(d, ch, st, failAt);
    RunActionOps(d, ch, Stepped(st, d), Skip(failAt, if Truthy(d.reply) then 1 else 0));
  }

  /** An empty completion parses to "{}": no call is issued and nothing changes. */
  lemma EmptyContentTurn(states: States, ch: string, failAt: Option<nat>)
    ensures Turn(states, ch, false, Some(EmptyDecision), failAt) == Reaction(states, [])
  {
    if ch in states {
      var st := states[ch];
      TurnParsed(states, ch, EmptyDecision, failAt);
      RunScript(EmptyDecision, ch, st, failAt);
      RunActionOps(EmptyDecision, ch, st, Skip(failAt, 0));
      assert states[ch := st] == states;
    }
  }

  /**
   * DELETE_TICKET: after the reply, the notice and then exactly one scheduled
   * deletion; the ticket's entry stays in the map.
   */
  lemma DeleteTurn(states: States, ch: string, d: Decision)
    requires ch in states && d.action == Some(DeleteTicket)
    ensures var r := Turn(states, ch, false, Some(d), None);
      && multiset(r.effects)[ScheduleDelete(ch)] == 1
      && |r.effects| >= 2
      && r.effects[|r.effects| - 2..] == [Send(ch, DeleteNotice), ScheduleDelete(ch)]
      && ch in r.states
  {
    TurnWithoutFailure(states, ch, d);
    assert !IsSanction(d.action);
    var r := Turn(states, ch, false, Some(d), None);
    assert r.effects == ReplyEffects(ch, d) + [Send(ch, DeleteNotice), ScheduleDelete(ch)];
    assert multiset(ReplyEffects(ch, d))[ScheduleDelete(ch)] == 0;
  }

  /** The tracked entry survives DELETE_TICKET, so a second DELETE_TICKET turn schedules a second deletion. */
  lemma RepeatedDelete(states: States, ch: string, d1: Decision, d2: Decision)
    requires ch in states && d1.action == Some(DeleteTicket) && d2.action == Some(DeleteTicket)
    ensures var r1 := Turn(states, ch, false, Some(d1), None);
      var r2 := Turn(r1.states, ch, false, Some(d2), None);
      ScheduleDelete(ch) in r1.effects && ScheduleDelete(ch) in r2.effects
  {
    DeleteTurn(states, ch, d1);
    var r1 := Turn(states, ch, false, Some(d1), None);
    DeleteTurn(r1.states, ch, d2);
    var r2 := Turn(r1.states, ch, false, Some(d2), None);
    assert r1.effects[|r1.effects| - 1] == ScheduleDelete(ch);
    assert r2.effects[|r2.effects| - 1] == ScheduleDelete(ch);
  }

  /**
   * BAN, KICK or MUTE: the last call is the one simulated sanction message,
   * naming the action and the target, or the fallback when the target is
   * absent or empty; no deletion is scheduled.
   */
  lemma SanctionTurn(states: States, ch: string, d: Decision)
    requires ch in states && IsSanction(d.action)
    ensures var r := Turn(states, ch, false, Some(d), None);
      && |r.effects| >= 1
      && r.effects[|r.effects| - 1] ==
         Send(ch, "[SYSTEM] Sanction appliquée: " + d.action.value + " pour " + TargetName(d.targetUser) + ". (Simulation)")
      && ScheduleDelete(ch) !in r.effects
  {
    TurnWithoutFailure(states, ch, d);
  }

  /** Any other action value issues nothing beyond the reply. */
  lemma OtherActionTurn(states: States, ch: string, d: Decision)
    requires ch in states && !IsSanction(d.action) && d.action != Some(DeleteTicket)
    ensures Turn(states, ch, false, Some(d), None).effects ==
      if Truthy(d.reply) then [Send(ch, d.reply.value)] else []
  {
    TurnWithoutFailure(states, ch, d);
  }

  /**
   * When the reply's send rejects, nothing else of the block happens: no step
   * change, no action message; only the error notice follows.
   */
  lemma ReplyRejected(states: States, ch: string, d: Decision)
    requires ch in states && Truthy(d.reply)
    ensures Turn(states, ch, false, Some(d), Some(0)) ==
      Reaction(states, [Send(ch, d.reply.value), Send(ch, ErrorNotice)])
  {
    TurnParsed(states, ch, d, Some(0));
    RunScript(d, ch, states[ch], Some(0));
    assert states[ch := states[ch]] == states;
  }

  /**
   * When the deletion notice's send rejects, no deletion is scheduled and the
   * error notice is the last call.
   */
  lemma DeleteNoticeRejected(states: States, ch: string, d: Decision)
    requires ch in states && d.action == Some(DeleteTicket)
    ensures var r := Turn(states, ch, false, Some(d), Some(if Truthy(d.reply) then 1 else 0));
      && ScheduleDelete(ch) !in r.effects
      && |r.effects| >= 2
      && r.effects[|r.effects| - 2..] == [Send(ch, DeleteNotice), Send(ch, ErrorNotice)]
  {
    var k := if Truthy(d.reply) then 1 else 0;
    var st := states[ch];
    assert !IsSanction(d.action);
    assert ActionEffects(ch, d) == [Send(ch, DeleteNotice), ScheduleDelete(ch)];
    RunActionOps(d, ch, Stepped(st, d), Some(0));
    assert Run(ActionOps(d), ch, Stepped(st, d), Some(0)) ==
      Progress(Stepped(st, d), [Send(ch, DeleteNotice)], true);
    assert Skip(Some(k), k) == Some(0);
    RunScript(d, ch, st, Some(k));
    assert Run(Script(d), ch, st, Some(k)) ==
      Progress(Stepped(st, d), ReplyEffects(ch, d) + [Send(ch, DeleteNotice)], true);
    TurnParsed(states, ch, d, Some(k));
    var r := Turn(states, ch, false, Some(d), Some(k));
    assert r.effects == ReplyEffects(ch, d) + [Send(ch, DeleteNotice)] + [Send(ch, ErrorNotice)];
    assert multiset(ReplyEffects(ch, d))[ScheduleDelete(ch)] == 0;
  }
}
