/**
 * The bot object: the state every handler works on.
 *
 * `members` and `guild` are the stored documents (as fetched views), `roles` the role set of
 * every member currently in the guild (a member is in the guild exactly when it has an entry),
 * and `tickets` the in-memory ticket table, which is never persisted.
 */
module Bot {
  import opened Records

  /** The initial ticket table: one empty table per configured category, plus `Support`. */
  function InitialTickets(config: Config): (t: map<string, map<int, int>>)
    ensures t.Keys == config.ticketCategories.Keys + {"Support"}
    ensures forall category :: category in t ==> t[category] == map[]
  {
    map category | category in config.ticketCategories.Keys + {"Support"} :: map[]
  }

  class Client {
    const config: Config
    var members: map<int, MemberDoc>
    var guild: GuildDoc
    var roles: map<int, set<int>>
    var tickets: map<string, map<int, int>>

    /** Starts the bot over the stored documents and the guild as it is; no ticket is open. */
    constructor (config: Config, members: map<int, MemberDoc>, guild: GuildDoc, roles: map<int, set<int>>)
      ensures this.config == config && this.members == members && this.guild == guild && this.roles == roles
      ensures tickets == InitialTickets(config)
    {
      this.config := config;
      this.members := members;
      this.guild := guild;
      this.roles := roles;
      tickets := InitialTickets(config);
    }

    /** The fetched view of member `id`. */
    function Member(id: int): MemberDoc
      reads this
    {
      Fetch(members, id)
    }
  }

  /** The role set of `id` after it is granted `granted`. */
  function Granted(roles: map<int, set<int>>, id: int, granted: set<int>): (r: map<int, set<int>>)
    requires id in roles
    ensures r.Keys == roles.Keys
    ensures r[id] == roles[id] + granted
    ensures forall other :: other in roles && other != id ==> r[other] == roles[other]
  {
    roles[id := roles[id] + granted]
  }
}
