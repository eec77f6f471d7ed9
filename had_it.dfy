/** The `hadit` command reply (src/commands/hadIt.ts). */
module HadIt {
  import opened Wrappers
  import opened Discord

  const HAD_IT_IMAGE := "https://i.pinimg.com/736x/f2/c0/1a/f2c01a4cc18f18b16f4adb71e1835314.jpg"

  /** A constant reply: the image link, visible only to the caller, without components. */
  function HandleHadItCommand(): (e: Envelope)
    ensures e.kind == ChannelMessageWithSource
    ensures ContentOf(e) == Some(HAD_IT_IMAGE)
    ensures e.data.Message? && e.data.flags == Some(Ephemeral) && e.data.components == []
  {
    Envelope(ChannelMessageWithSource, Message(Some(HAD_IT_IMAGE), [], Some(Ephemeral)))
  }
}
