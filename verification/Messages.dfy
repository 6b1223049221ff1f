/** Names shared by the protocol modules. */
module Messages {

  datatype Platform = Tg | Bale

  function Other(p: Platform): Platform
  {
    if p == Tg then Bale else Tg
  }

  /** A message as the bridge's tables name it; chats are the normalised keys. */
  datatype Key = Key(platform: Platform, chat: string, id: nat)

  /** The key of a content fingerprint; `fp` is the hash of kind and text. */
  datatype FpKey = FpKey(platform: Platform, chat: string, fp: string)
}
