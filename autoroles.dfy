/**
 * The self-service roles panel (cogs/auto_roles.py; cogs/general.py carries the same view).
 *
 * Three buttons toggle the announcements, events and polls roles of the member who clicks.
 * The panel's message and channel ids are stored so the view can be re-attached on restart.
 */
module AutoRoles {
  import opened Wrappers
  import opened Records
  import opened Bot

  datatype AutoRole = Announcements | Events | Polls

  function RoleId(config: Config, kind: AutoRole): int
  {
    match kind
    case Announcements => config.announcements
    case Events => config.events
    case Polls => config.polls
  }

  /** The role set after one click on the button of `role`. */
  function Toggled(roles: set<int>, role: int): set<int>
  {
    if role in roles then roles - {role} else roles + {role}
  }

  /** A click does exactly one of removing or adding the role, and touches no other role. */
  lemma ToggleFlips(roles: set<int>, role: int)
    ensures role in Toggled(roles, role) <==> role !in roles
    ensures forall r :: r != role ==> (r in Toggled(roles, role) <==> r in roles)
  {
  }

  /** Two clicks on the same button restore the role set. */
  lemma ToggleTwice(roles: set<int>, role: int)
    ensures Toggled(Toggled(roles, role), role) == roles
  {
  }

  /** A click on a panel button; the result says whether the role was added. */
  method Click(c: Client, user: int, kind: AutoRole) returns (added: bool)
    requires user in c.roles
    modifies c`roles
    ensures added <==> RoleId(c.config, kind) !in old(c.roles)[user]
    ensures c.roles == old(c.roles)[user := Toggled(old(c.roles)[user], RoleId(c.config, kind))]
  {
    var role := RoleId(c.config, kind);
    if role in c.roles[user] {
      c.roles := c.roles[user := c.roles[user] - {role}];
      return false;
    }
    c.roles := c.roles[user := c.roles[user] + {role}];
    return true;
  }

  /** The guild record after the panel is posted as message `msg` in `channel`. */
  function WithPanel(g: GuildDoc, msg: int, channel: int): GuildDoc
  {
    g.(autoRolesMessageId := Some(msg), autoRolesChannelId := Some(channel))
  }

  /** Posting the panel stores both ids. */
  method SendAutoRolesView(c: Client, msg: int, channel: int)
    modifies c`guild
    ensures c.guild == WithPanel(old(c.guild), msg, channel)
  {
    c.guild := WithPanel(c.guild, msg, channel);
  }

  /** The message the view is re-attached to on start-up, if any. */
  method AfterReady(c: Client) returns (registered: Option<int>)
    ensures registered.Some? <==> c.guild.autoRolesMessageId.Some?
    ensures registered.Some? ==> registered.value == c.guild.autoRolesMessageId.value
  {
    if c.guild.autoRolesMessageId.None? {
      return None;
    }
    return Some(c.guild.autoRolesMessageId.value);
  }

  /**
   * After the panel is posted, a restart re-attaches the view to that message; before any
   * panel, on a fresh guild record, nothing is re-attached.
   */
  lemma PanelSurvivesRestart(g: GuildDoc, msg: int, channel: int)
    ensures WithPanel(g, msg, channel).autoRolesMessageId == Some(msg)
    ensures WithPanel(g, msg, channel).autoRolesChannelId == Some(channel)
    ensures WithPanel(g, msg, channel).pendingVerificationMessageIds == g.pendingVerificationMessageIds
    ensures DefaultGuild.autoRolesMessageId.None?
  {
  }
}
