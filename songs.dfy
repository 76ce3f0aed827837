/** Values shared by the whole model: the optional value, guild and channel
    identifiers, and the song record that the bot queues and plays. */
module Songs {

  datatype Option<+T> = None | Some(value: T)

  /** Discord snowflakes are plain integers. */
  type GuildId = int
  type ChannelId = int

  /** One resolved, playable item (a YTDLSource in the source). The metadata
      comes from the external resolver; `requester` is the requesting user's
      mention text. `volume` is the only field the bot changes after creation,
      kept here as an integer percent instead of a float fraction. */
  datatype Song = Song(
    title: string,
    url: string,
    duration: Option<nat>,
    thumbnail: Option<string>,
    requester: string,
    volume: int)
}
