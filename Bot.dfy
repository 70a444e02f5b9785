/**
 * The process-wide state of server/bot.ts and its handlers: the
 * `ticketStates` map, which the ticket and message handlers update in place,
 * and `botConfig`, whose fields `/bot setstatus` reassigns.
 */
module Bot {
  import opened Wrappers
  import opened StatusText
  import opened Platform
  import opened Tickets

  /** The only user allowed to run `/bot`. */
  const AdminId := "1385342457570394187"

  const NoPermission := "Vous n'avez pas la permission."

  /** The `/bot` subcommands as registered; `setbanner` has no handler branch. */
  datatype Subcommand =
    | Rename(name: string)          // setname
    | Avatar(url: string)           // setavatar
    | Banner(url: string)           // setbanner
    | Status(kind: string, text: string)  // setstatus

  class TicketBot {
    var ticketStates: States
    var statusType: ActivityType
    var statusText: string

    constructor ()
      ensures ticketStates == map[]
      ensures statusType == Streaming && statusText == InitialStatusText
    {
      ticketStates := map[];
      statusType := Streaming;
      statusText := InitialStatusText;
    }

    /** `updateStatus()`: the presence call for the current configuration and guild count. */
    method UpdateStatus(guildCount: nat) returns (e: Effect)
      ensures e.SetActivity? && e.kind == statusType && e.url == StreamUrl
      ensures e.text == StatusLine(statusText, guildCount)
    {
      e := SetActivity(StatusLine(statusText, guildCount), statusType, StreamUrl);
    }

    /** The `ticket` command, for a platform-assigned channel id. */
    method OpenTicket(guild: Option<Guild>, opener: Member, botId: string, channelId: string,
                      failure: Option<OpenFailure>) returns (effects: seq<Effect>)
      modifies this`ticketStates
      ensures ticketStates == Open(old(ticketStates), guild, opener, botId, channelId, failure).states
      ensures effects == Open(old(ticketStates), guild, opener, botId, channelId, failure).effects
      ensures guild.Some? && failure.None? ==> ticketStates == old(ticketStates)[channelId := InitialState]
      ensures guild.None? || failure.Some? ==> ticketStates == old(ticketStates)
    {
      var r := Open(ticketStates, guild, opener, botId, channelId, failure);
      ticketStates := r.states;
      effects := r.effects;
    }

    /** The `messageCreate` handler for one message. */
    method OnMessage(ch: string, authorIsBot: bool, parsed: Option<Decision>, failAt: Option<nat>)
      returns (effects: seq<Effect>)
      modifies this`ticketStates
      ensures ticketStates == Turn(old(ticketStates), ch, authorIsBot, parsed, failAt).states
      ensures effects == Turn(old(ticketStates), ch, authorIsBot, parsed, failAt).effects
      ensures authorIsBot || ch !in old(ticketStates) ==> ticketStates == old(ticketStates) && effects == []
      ensures ticketStates.Keys == old(ticketStates).Keys
      ensures forall c :: c in old(ticketStates) && c != ch ==> ticketStates[c] == old(ticketStates)[c]
    {
      var r := Turn(ticketStates, ch, authorIsBot, parsed, failAt);
      ticketStates := r.states;
      effects := r.effects;
    }

    /**
     * `/bot`: only the owner may run it; anyone else gets the refusal and
     * changes nothing. `rejection` is the message of the first awaited call
     * of the subcommand's branch when that call rejects (`setUsername`,
     * `setAvatar`, or the reply of `setstatus`).
     */
    method BotCommand(userId: string, sub: Subcommand, guildCount: nat, rejection: Option<string>)
      returns (effects: seq<Effect>)
      modifies this`statusType, this`statusText
      ensures userId != AdminId ==>
        effects == [Reply(NoPermission, true)] && statusType == old(statusType) && statusText == old(statusText)
      ensures !(userId == AdminId && sub.Status?) ==> statusType == old(statusType) && statusText == old(statusText)
      ensures userId == AdminId && sub.Status? ==>
        && statusType == ActivityFor(sub.kind)
        && statusText == sub.text
        && effects == [SetActivity(StatusLine(sub.text, guildCount), ActivityFor(sub.kind), StreamUrl),
                       Reply("Statut mis à jour.", false)] +
                      (if rejection.Some? then [Reply("Erreur: " + rejection.value, true)] else [])
      ensures userId == AdminId && sub.Rename? ==>
        effects == [SetUsername(sub.name)] +
          (if rejection.Some? then [Reply("Erreur: " + rejection.value, true)]
           else [Reply("Nom changé pour: " + sub.name, false)])
      ensures userId == AdminId && sub.Avatar? ==>
        effects == [SetAvatar(sub.url)] +
          (if rejection.Some? then [Reply("Erreur: " + rejection.value, true)]
           else [Reply("Avatar changé.", false)])
      ensures userId == AdminId && sub.Banner? ==> effects == []
    {
      if userId != AdminId {
        effects := [Reply(NoPermission, true)];
        return;
      }
      match sub
      case Rename(name) =>
        effects := [SetUsername(name)];
        if rejection.Some? {
          effects := effects + [Reply("Erreur: " + rejection.value, true)];
        } else {
          effects := effects + [Reply("Nom changé pour: " + name, false)];
        }
      case Avatar(url) =>
        effects := [SetAvatar(url)];
        if rejection.Some? {
          effects := effects + [Reply("Erreur: " + rejection.value, true)];
        } else {
          effects := effects + [Reply("Avatar changé.", false)];
        }
      case Status(kind, text) =>
        statusType := ActivityFor(kind);
        statusText := text;
        var presence := UpdateStatus(guildCount);
        effects := [presence, Reply("Statut mis à jour.", false)];
        if rejection.Some? {
          effects := effects + [Reply("Erreur: " + rejection.value, true)];
        }
      case Banner(_) =>
        effects := [];
    }
  }
}
