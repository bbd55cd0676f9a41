/**
 * Typed views of the two kinds of stored documents, as the handlers read them after a fetch.
 *
 * A member's document and the guild's document are kept as they look after the adapter's
 * fetch: every default key filled in (see MongoDB.FetchAfterUpsert for why a typed update of
 * that view is the same as the stored update followed by a fetch). Keys the defaults do not
 * name (`ad_pending`, `ad_listed`, `ads`, `pending_ad_message_ids`) may be missing: they are
 * `Option`s here, `None` meaning "reading this key raises KeyError".
 */
module Records {
  import opened Wrappers

  /** One queued advertisement: who sent it and the text to post. */
  datatype Ad = Ad(userId: int, content: string)

  /** The fields of a `guild_member` document. Times are integer timestamps in seconds. */
  datatype MemberDoc = MemberDoc(
    verificationPending: bool,
    verificationCooldown: Option<int>,
    verificationCodes: map<string, Option<int>>,   // invite code -> member who redeemed it
    verificationJoinCode: Option<string>,
    verificationJoinInviter: Option<int>,
    exp: int,
    level: int,
    adPending: Option<bool>,
    adListed: Option<bool>)

  /** The fields of the single `guild_data` document. Message ids map to member ids. */
  datatype GuildDoc = GuildDoc(
    ticketsChannelId: Option<int>,
    ticketsMessageId: Option<int>,
    verificationChannelId: Option<int>,
    verificationMessageId: Option<int>,
    pendingVerificationMessageIds: map<int, int>,
    autoRolesChannelId: Option<int>,
    autoRolesMessageId: Option<int>,
    pendingAdMessageIds: Option<map<int, int>>,
    ads: Option<seq<Ad>>)

  /** What a fetch gives for a member with no document (the member defaults). */
  const DefaultMember := MemberDoc(false, None, map[], None, None, 0, 1, None, None)

  /** What a fetch gives when the guild has no document (the guild defaults). */
  const DefaultGuild := GuildDoc(None, None, None, None, map[], None, None, None, None)

  /** The fetched view of member `id`: its document if it has one, the defaults otherwise. */
  function Fetch(members: map<int, MemberDoc>, id: int): MemberDoc
  {
    if id in members then members[id] else DefaultMember
  }

  /**
   * Writing the fetched view back is invisible: storing a member's view under its id, when it
   * had no document, changes no fetch. This is what makes an upsert of an unchanged view safe.
   */
  lemma FetchStoreView(members: map<int, MemberDoc>, id: int, other: int)
    ensures Fetch(members[id := Fetch(members, id)], other) == Fetch(members, other)
  {
  }

  /** A stored update is seen by the next fetch of that member and by no other. */
  lemma FetchAfterStore(members: map<int, MemberDoc>, id: int, m: MemberDoc, other: int)
    ensures Fetch(members[id := m], other) == if other == id then m else Fetch(members, other)
  {
  }

  /** One entry of the `tickets` configuration: a label, an emoji and the channel-name prefix. */
  datatype TicketCategory = TicketCategory(description: string, emoji: string, prefix: string)

  /**
   * The parts of the configuration file the core reads. Role and channel-category ids are
   * plain integers. `botOwnerRoles` maps a bot-owner role to the number of invite codes it
   * grants; `ticketManagerRoles` maps a ticket category to the manager role configured for
   * it (the `<category>_developer.manager` entry).
   */
  datatype Config = Config(
    verifiedMember: int,
    verifiedBotDeveloper: int,
    libraryDeveloper: int,
    botTeamMember: int,
    botOwnerRoles: map<int, int>,
    promotions: int,
    announcements: int,
    events: int,
    polls: int,
    manager: int,
    ticketManagerRoles: map<string, int>,
    ticketsCategory: int,
    ticketCategories: map<string, TicketCategory>)
}
