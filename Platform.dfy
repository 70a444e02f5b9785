/**
 * The chat platform as the bot sees it: the calls it issues. Every handler
 * is modelled as a function or method that returns the sequence of calls it
 * issues, in order; a call that rejects is still listed, followed by
 * whatever the handler's `catch` issues.
 */
module Platform {
  import opened StatusText

  /** The two channel permissions the ticket overwrites mention. */
  datatype Permission = ViewChannel | SendMessages

  /** A permission overwrite on a channel for a role or user id. */
  datatype Overwrite = Overwrite(id: string, allow: set<Permission>, deny: set<Permission>)

  /** A request to create a guild text channel. */
  datatype ChannelRequest = ChannelRequest(name: string, overwrites: seq<Overwrite>)

  datatype Effect =
    | CreateChannel(request: ChannelRequest)
      /** `interaction.reply(...)` */
    | Reply(content: string, ephemeral: bool)
      /** `channel.send(...)` */
    | Send(channel: string, content: string)
      /** `setTimeout(() => channel.delete(), 5000)` */
    | ScheduleDelete(channel: string)
    | SetUsername(name: string)
    | SetAvatar(url: string)
    | SetActivity(text: string, kind: ActivityType, url: string)

  /** The stream link every presence carries. */
  const StreamUrl := "https://www.twitch.tv/discord"

  /** `channel.toString()` */
  function ChannelMention(id: string): string {
    "<#" + id + ">"
  }

  /** `user.toString()` */
  function UserMention(id: string): string {
    "<@" + id + ">"
  }
}
