/** The whole way of a request to the upstream: assembly, the provider's own pass, compaction
    (src/server.ts, src/translate/reqToChat.ts, src/translate/minimaxCompat.ts,
    src/translate/autoCompact.ts). */
module Pipeline {
  import opened AutoCompact
  import opened ChatTypes
  import opened Core
  import opened MergeSystem
  import opened Pairing
  import opened ReqToChat

  /** What goes upstream: the request's messages, with the system messages merged where the provider
      wants that, and shortened where there is a trigger. */
  ghost function Prepared(env: Outside, req: Request, mergeSystem: bool): seq<ChatMessage> {
    if mergeSystem then Merged(ChatMessages(env, req)) else ChatMessages(env, req)
  }

  /** For every request, and whatever the summariser answers, the messages that go upstream are
      those of the request, merged and shortened where asked for, and they are well paired. */
  method PrepareChat(env: Outside, req: Request, mergeSystem: bool, compactAt: Option<int>, model: string,
                     cache: SummaryCache, render: seq<ChatMessage> -> string, callChat: string -> SummaryCall)
    returns (chat: MessageList)
    requires cache.Valid()
    modifies cache
    ensures cache.Valid()
    ensures WellPaired(chat.items) && PairedByIndex(chat.items)
    ensures var msgs := Prepared(env, req, mergeSystem);
      match compactAt
      case None => chat.items == msgs
      case Some(at) =>
        && ShortenedFor(msgs, at, chat.items)
        && chat.items == Shortened(msgs, at, SummaryFor(msgs, model, at, old(cache.entries), render, callChat))
  {
    chat := ReqToChatMessages(env, req);
    RequestWellPaired(env, req);
    if mergeSystem {
      MergeKeepsPairing(chat.items);
      MergeSystemMessagesInPlace(chat);
    }
    if compactAt.Some? {
      var _ := MaybeCompactChat(chat, model, compactAt.value, cache, render, callChat);
    }
    PairedIffIndexed(chat.items);
  }
}
