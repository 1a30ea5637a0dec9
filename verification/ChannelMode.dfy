/** What a channel may be used for. */
module ChannelMode {
  datatype Mode = Undefined | Realtime
}
