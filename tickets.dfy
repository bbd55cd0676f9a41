/**
 * The ticket table (cogs/tickets.py).
 *
 * The bot keeps, in memory only, a table from ticket category to the members holding a ticket
 * in it and the channel of that ticket. A member may hold one ticket per category; closing a
 * ticket channel finds its entry by channel id and deletes it.
 */
module Tickets {
  import opened Wrappers
  import opened Records
  import opened Bot
  import Sequences

  type Table = map<string, map<int, int>>

  /** A place in the table: a category and a member. */
  datatype TicketKey = TicketKey(category: string, user: int)

  /** The table has an entry at `k` and it is `channel`. */
  predicate Holds(t: Table, k: TicketKey, channel: int)
  {
    k.category in t && k.user in t[k.category] && t[k.category][k.user] == channel
  }

  /** The table after a new ticket at `k`. */
  function Opened(t: Table, k: TicketKey, channel: int): Table
    requires k.category in t
  {
    t[k.category := t[k.category][k.user := channel]]
  }

  /** The table after the entry at `k` is deleted. */
  function Removed(t: Table, k: TicketKey): Table
    requires k.category in t
  {
    t[k.category := t[k.category] - {k.user}]
  }

  /* ---------------------------------------------------------------------------------------
   * Opening a ticket
   * --------------------------------------------------------------------------------------- */

  /** The stars a skill-evaluation ticket may request. */
  predicate ValidStars(s: string)
  {
    s == "1" || s == "2" || s == "3"
  }

  /**
   * The first part of the channel name: `support` without stars; with stars the category's
   * configured prefix, read after its manager role (a missing entry in either raises KeyError).
   */
  function NamePrefix(config: Config, category: string, stars: Option<string>): Option<string>
  {
    if stars.None? then Some("support")
    else if category !in config.ticketManagerRoles || category !in config.ticketCategories then None
    else Some(config.ticketCategories[category].prefix)
  }

  /** The channel name: the prefix, then the member's name and discriminator. */
  function TicketName(prefix: string, userName: string, discriminator: string): (r: string)
    ensures |r| == |prefix| + |userName| + |discriminator| + 2
    ensures r[..|prefix|] == prefix
    ensures r[|prefix|..] == "-" + userName + "-" + discriminator
  {
    prefix + "-" + userName + "-" + discriminator
  }

  datatype CreateOutcome =
    | UnknownCategory          // KeyError: the category has no table
    | AlreadyOpen(channel: int)
    | BadStars
    | ConfigKeyError           // the category lacks a manager role or a prefix in the configuration
    | Created(name: string, channel: int)

  /**
   * `create_ticket` for `user` in `category`, `channel` being the id of the channel it would
   * create. The checks run in this order: the category's table, an open ticket, the stars.
   */
  method CreateTicket(c: Client, user: int, userName: string, discriminator: string, category: string,
                      stars: Option<string>, channel: int) returns (r: CreateOutcome)
    modifies c`tickets
    ensures r == UnknownCategory <==> category !in old(c.tickets)
    ensures r.AlreadyOpen? <==> category in old(c.tickets) && user in old(c.tickets)[category]
    ensures r.AlreadyOpen? ==> r.channel == old(c.tickets)[category][user]
    ensures r == BadStars <==>
      category in old(c.tickets) && user !in old(c.tickets)[category] && stars.Some? && !ValidStars(stars.value)
    ensures r == ConfigKeyError <==>
      && category in old(c.tickets) && user !in old(c.tickets)[category]
      && (stars.None? || ValidStars(stars.value)) && NamePrefix(c.config, category, stars).None?
    ensures !r.Created? ==> c.tickets == old(c.tickets)
    ensures r.Created? ==>
      && category in old(c.tickets)
      && r.name == TicketName(NamePrefix(c.config, category, stars).value, userName, discriminator)
      && r.channel == channel
      && c.tickets == Opened(old(c.tickets), TicketKey(category, user), channel)
  {
    if category !in c.tickets {
      return UnknownCategory;
    }
    if user in c.tickets[category] {
      return AlreadyOpen(c.tickets[category][user]);
    }
    if stars.Some? && !ValidStars(stars.value) {
      return BadStars;
    }
    var prefix := NamePrefix(c.config, category, stars);
    if prefix.None? {
      return ConfigKeyError;
    }
    var name := TicketName(prefix.value, userName, discriminator);
    c.tickets := c.tickets[category := c.tickets[category][user := channel]];
    return Created(name, channel);
  }

  /**
   * Opening touches one entry: the new ticket is recorded, every other entry and the set of
   * categories stay, so a second request in the same category finds the open ticket.
   */
  lemma OpenedChangesOneEntry(t: Table, k: TicketKey, channel: int, other: TicketKey, ch: int)
    requires k.category in t
    ensures Holds(Opened(t, k, channel), k, channel)
    ensures Opened(t, k, channel).Keys == t.Keys
    ensures other != k ==> (Holds(Opened(t, k, channel), other, ch) <==> Holds(t, other, ch))
  {
  }

  /** No two entries share a channel. */
  ghost predicate ChannelsUnique(t: Table)
  {
    forall k1, k2, ch :: Holds(t, k1, ch) && Holds(t, k2, ch) ==> k1 == k2
  }

  /** A new channel keeps the channels unique. */
  lemma OpenedKeepsUnique(t: Table, k: TicketKey, channel: int)
    requires ChannelsUnique(t) && k.category in t
    requires forall other :: !Holds(t, other, channel)
    ensures ChannelsUnique(Opened(t, k, channel))
  {
    var t' := Opened(t, k, channel);
    forall k1, k2, ch | Holds(t', k1, ch) && Holds(t', k2, ch)
      ensures k1 == k2
    {
      OpenedChangesOneEntry(t, k, channel, k1, ch);
      OpenedChangesOneEntry(t, k, channel, k2, ch);
    }
  }

  /* ---------------------------------------------------------------------------------------
   * Closing a ticket
   * --------------------------------------------------------------------------------------- */

  /** The nested scan over the table for the entry whose channel is `channel`. */
  method FindTicket(t: Table, channel: int) returns (found: Option<TicketKey>)
    ensures found.Some? ==> Holds(t, found.value, channel)
    ensures found.None? ==> forall k :: !Holds(t, k, channel)
  {
    var categories := t.Keys;
    while categories != {}
      invariant categories <= t.Keys
      invariant forall k: TicketKey :: k.category !in categories ==> !Holds(t, k, channel)
      decreases categories
    {
      Sequences.NonEmptyHasString(categories);
      var category :| category in categories;
      var tickets := t[category];
      var users := tickets.Keys;
      while users != {}
        invariant users <= tickets.Keys
        invariant forall u :: u in tickets && u !in users ==> tickets[u] != channel
        decreases users
      {
        Sequences.NonEmptyHasElement(users);
        var user :| user in users;
        if tickets[user] == channel {
          return Some(TicketKey(category, user));
        }
        users := users - {user};
      }
      categories := categories - {category};
    }
    return None;
  }

  datatype CloseOutcome = NotATicket | NotAllowed | NoEntry | Closed(key: TicketKey)

  /**
   * `/close` in a channel of category `channelCategory`. A caller with the manager role who is
   * not an administrator is refused. The entry of the channel is deleted if there is one.
   */
  method Close(c: Client, caller: int, isAdministrator: bool, channelCategory: int, channel: int) returns (r: CloseOutcome)
    requires caller in c.roles
    modifies c`tickets
    ensures r == NotATicket <==> channelCategory != c.config.ticketsCategory
    ensures r == NotAllowed <==>
      channelCategory == c.config.ticketsCategory && c.config.manager in c.roles[caller] && !isAdministrator
    ensures r == NoEntry ==> forall k :: !Holds(old(c.tickets), k, channel)
    ensures r.Closed? ==> Holds(old(c.tickets), r.key, channel) && c.tickets == Removed(old(c.tickets), r.key)
    ensures !r.Closed? ==> c.tickets == old(c.tickets)
    ensures channelCategory == c.config.ticketsCategory && !(c.config.manager in c.roles[caller] && !isAdministrator) ==>
      (r.Closed? || r == NoEntry)
  {
    if channelCategory != c.config.ticketsCategory {
      return NotATicket;
    }
    if c.config.manager in c.roles[caller] && !isAdministrator {
      return NotAllowed;
    }
    var found := FindTicket(c.tickets, channel);
    if found.None? {
      return NoEntry;
    }
    var k := found.value;
    c.tickets := c.tickets[k.category := c.tickets[k.category] - {k.user}];
    return Closed(k);
  }

  /**
   * With unique channels, closing deletes exactly the ticket of the channel: no entry has the
   * channel afterwards, every other entry stays, the channels stay unique, and the member can
   * open a new ticket in that category.
   */
  lemma CloseRemovesExactlyOne(t: Table, k: TicketKey, channel: int)
    requires ChannelsUnique(t) && Holds(t, k, channel)
    ensures forall other :: !Holds(Removed(t, k), other, channel)
    ensures forall other, ch :: other != k ==> (Holds(Removed(t, k), other, ch) <==> Holds(t, other, ch))
    ensures ChannelsUnique(Removed(t, k))
    ensures k.user !in Removed(t, k)[k.category]
    ensures Removed(t, k).Keys == t.Keys
  {
    forall other | Holds(Removed(t, k), other, channel)
      ensures false
    {
      assert other != k;
      assert Holds(t, other, channel);
    }
  }

  /** With unique channels the scan's answer is determined: it is the one entry of the channel. */
  lemma FoundTicketIsUnique(t: Table, k1: TicketKey, k2: TicketKey, channel: int)
    requires ChannelsUnique(t) && Holds(t, k1, channel) && Holds(t, k2, channel)
    ensures k1 == k2
  {
  }

  /** The initial table has the channels unique, trivially: it has no entry. */
  lemma InitialTicketsEmpty(config: Config, k: TicketKey, channel: int)
    ensures !Holds(InitialTickets(config), k, channel)
    ensures ChannelsUnique(InitialTickets(config))
  {
  }
}
