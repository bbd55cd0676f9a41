/**
 * The advertisement workflow (cogs/advertisements.py).
 *
 * A member applies with the text of an ad; moderators accept or deny the pending application;
 * accepted ads wait in the guild's `ads` list and a periodic task posts the one at its head.
 * The member flags `ad_pending` and `ad_listed`, the map from application message to member
 * and the list itself have no defaults, so on a fresh document reading them raises KeyError.
 */
module Advertisements {
  import opened Wrappers
  import opened Records
  import opened Bot
  import Sequences
  import Parsing

  /* ---------------------------------------------------------------------------------------
   * `/adapply`
   * --------------------------------------------------------------------------------------- */

  /** The 1-based place of the first ad of `user` in the queue, or one past the end if none. */
  function Position(ads: seq<Ad>, user: int): (p: nat)
    ensures 1 <= p <= |ads| + 1
    ensures forall i :: 0 <= i < p - 1 ==> ads[i].userId != user
    ensures p <= |ads| ==> ads[p - 1].userId == user
  {
    if ads == [] then 1
    else if ads[0].userId == user then 1
    else 1 + Position(ads[1..], user)
  }

  /** The scan with a counter that computes the reported place. */
  method AdPosition(ads: seq<Ad>, user: int) returns (position: nat)
    ensures position == Position(ads, user)
  {
    position := 1;
    var i := 0;
    while i < |ads|
      invariant 0 <= i <= |ads|
      invariant position == i + 1
      invariant Position(ads, user) == i + Position(ads[i..], user)
    {
      if ads[i].userId == user {
        break;
      }
      assert ads[i..][1..] == ads[i + 1..];
      position := position + 1;
      i := i + 1;
    }
  }

  datatype ApplyOutcome = ApplyKeyError | AlreadyPending | AlreadyListed(position: nat) | ShowForm

  /** The decision of `/adapply` on the member's record and the queue. */
  function ApplyDecision(m: MemberDoc, ads: Option<seq<Ad>>, user: int): (r: ApplyOutcome)
    ensures r == AlreadyPending <==> m.adPending == Some(true)
    ensures r.AlreadyListed? <==> m.adPending == Some(false) && m.adListed == Some(true) && ads.Some?
    ensures r.AlreadyListed? ==> r.position == Position(ads.value, user)
    ensures r == ShowForm <==> m.adPending == Some(false) && m.adListed == Some(false)
    ensures r == ApplyKeyError <==>
      m.adPending.None? || (m.adPending == Some(false) && (m.adListed.None? || (m.adListed == Some(true) && ads.None?)))
  {
    match m.adPending
    case None => ApplyKeyError
    case Some(pending) =>
      if pending then AlreadyPending
      else match m.adListed
        case None => ApplyKeyError
        case Some(listed) =>
          if !listed then ShowForm
          else match ads
            case None => ApplyKeyError
            case Some(queue) => AlreadyListed(Position(queue, user))
  }

  /** `/adapply`: it reads the records and changes nothing. */
  method AdApply(c: Client, user: int) returns (r: ApplyOutcome)
    ensures r == ApplyDecision(c.Member(user), c.guild.ads, user)
  {
    var m := c.Member(user);
    if m.adPending.None? {
      return ApplyKeyError;
    }
    if m.adPending.value {
      return AlreadyPending;
    }
    if m.adListed.None? {
      return ApplyKeyError;
    }
    if m.adListed.value {
      if c.guild.ads.None? {
        return ApplyKeyError;
      }
      var position := AdPosition(c.guild.ads.value, user);
      return AlreadyListed(position);
    }
    return ShowForm;
  }

  /** A member who never applied has neither flag: `/adapply` fails with KeyError. */
  lemma FreshMemberCannotApply(ads: Option<seq<Ad>>, user: int)
    ensures ApplyDecision(DefaultMember, ads, user) == ApplyKeyError
  {
  }

  /* ---------------------------------------------------------------------------------------
   * Submitting, accepting, denying
   * --------------------------------------------------------------------------------------- */

  /** The member whose application message is `msg`, when the map exists and has the entry. */
  function PendingOwner(g: GuildDoc, msg: int): Option<int>
  {
    match g.pendingAdMessageIds
    case None => None
    case Some(pending) => if msg in pending then Some(pending[msg]) else None
  }

  /** The map entry of a new application message; `$set` on a dotted path creates the map. */
  function WithPendingAd(g: GuildDoc, msg: int, user: int): (r: GuildDoc)
    ensures PendingOwner(r, msg) == Some(user)
    ensures forall other :: other != msg ==> PendingOwner(r, other) == PendingOwner(g, other)
    ensures r.ads == g.ads
  {
    var pending := g.pendingAdMessageIds.GetOr(map[]);
    g.(pendingAdMessageIds := Some(pending[msg := user]))
  }

  /** The application form: the member is marked pending and the message recorded. */
  method SubmitAd(c: Client, user: int, msg: int)
    modifies c`members, c`guild
    ensures c.members == old(c.members)[user := old(c.Member(user)).(adPending := Some(true))]
    ensures c.guild == WithPendingAd(old(c.guild), msg, user)
  {
    var m := c.Member(user);
    c.members := c.members[user := m.(adPending := Some(true))];
    c.guild := WithPendingAd(c.guild, msg, user);
  }

  /** A member whose application is pending is turned away by `/adapply`. */
  lemma SecondApplicationRejected(m: MemberDoc, ads: Option<seq<Ad>>, user: int)
    ensures ApplyDecision(m.(adPending := Some(true)), ads, user) == AlreadyPending
  {
  }

  /** The guild record after an accepted ad: appended at the tail, its application entry gone. */
  function Enqueued(g: GuildDoc, ad: Ad, msg: int): (r: GuildDoc)
    requires g.pendingAdMessageIds.Some?
  {
    g.(ads := Some(g.ads.GetOr([]) + [ad]), pendingAdMessageIds := Some(g.pendingAdMessageIds.value - {msg}))
  }

  datatype ReviewOutcome = ReviewKeyError | ApplicantLeft(user: int) | Reviewed(user: int)

  /**
   * The Accept button on application `msg` whose text is `content`. If the applicant left,
   * only its pending flag is cleared: the application entry stays.
   */
  method AcceptAd(c: Client, msg: int, content: string) returns (r: ReviewOutcome)
    modifies c`members, c`guild
    ensures r == ReviewKeyError <==> PendingOwner(old(c.guild), msg).None?
    ensures r == ReviewKeyError ==> c.members == old(c.members) && c.guild == old(c.guild)
    ensures r.ApplicantLeft? ==>
      && PendingOwner(old(c.guild), msg) == Some(r.user) && r.user !in c.roles
      && c.members == old(c.members)[r.user := old(c.Member(r.user)).(adPending := Some(false))]
      && c.guild == old(c.guild)
    ensures r.Reviewed? ==>
      && PendingOwner(old(c.guild), msg) == Some(r.user) && r.user in c.roles
      && c.members == old(c.members)[r.user := old(c.Member(r.user)).(adPending := Some(false), adListed := Some(true))]
      && c.guild == Enqueued(old(c.guild), Ad(r.user, content), msg)
  {
    var owner := PendingOwner(c.guild, msg);
    if owner.None? {
      return ReviewKeyError;
    }
    var user := owner.value;
    var m := c.Member(user);
    if user !in c.roles {
      c.members := c.members[user := m.(adPending := Some(false))];
      return ApplicantLeft(user);
    }
    c.guild := Enqueued(c.guild, Ad(user, content), msg);
    m := c.Member(user);
    c.members := c.members[user := m.(adPending := Some(false), adListed := Some(true))];
    return Reviewed(user);
  }

  /** After acceptance `/adapply` reports the ad as listed, at a place where it really is. */
  lemma AcceptedAdIsListed(m: MemberDoc, g: GuildDoc, user: int, content: string, msg: int)
    requires g.pendingAdMessageIds.Some?
    ensures var r := ApplyDecision(m.(adPending := Some(false), adListed := Some(true)), Enqueued(g, Ad(user, content), msg).ads, user);
      var queue := Enqueued(g, Ad(user, content), msg).ads.value;
      && r.AlreadyListed?
      && r.position <= |queue|
      && queue[r.position - 1].userId == user
  {
    var queue := Enqueued(g, Ad(user, content), msg).ads.value;
    assert queue[|queue| - 1].userId == user;
  }

  /** The deny form: the flag is cleared and the entry removed; the queue and `ad_listed` stay. */
  method DenyAd(c: Client, msg: int) returns (r: ReviewOutcome)
    modifies c`members, c`guild
    ensures !r.ApplicantLeft?
    ensures r == ReviewKeyError <==> PendingOwner(old(c.guild), msg).None?
    ensures r == ReviewKeyError ==> c.members == old(c.members) && c.guild == old(c.guild)
    ensures r.Reviewed? ==>
      && PendingOwner(old(c.guild), msg) == Some(r.user)
      && c.members == old(c.members)[r.user := old(c.Member(r.user)).(adPending := Some(false))]
      && c.guild == old(c.guild).(pendingAdMessageIds := Some(old(c.guild.pendingAdMessageIds).value - {msg}))
  {
    var owner := PendingOwner(c.guild, msg);
    if owner.None? {
      return ReviewKeyError;
    }
    var user := owner.value;
    var m := c.Member(user);
    c.members := c.members[user := m.(adPending := Some(false))];
    c.guild := c.guild.(pendingAdMessageIds := Some(c.guild.pendingAdMessageIds.value - {msg}));
    return Reviewed(user);
  }

  /* ---------------------------------------------------------------------------------------
   * Posting
   * --------------------------------------------------------------------------------------- */

  /** The queue after posting its head: `$pull` removes every ad equal to the head. */
  function Pulled(ads: seq<Ad>): (r: seq<Ad>)
    requires ads != []
    ensures |r| < |ads|
  {
    Sequences.RemoveAll(ads, ads[0])
  }

  datatype PostOutcome = PostKeyError | QueueEmpty | Posted(ad: Ad)

  /** One run of the periodic task (the wait and restart on an empty queue are not modelled). */
  method PostAdvertisement(c: Client) returns (r: PostOutcome)
    modifies c`members, c`guild
    ensures r == PostKeyError <==> old(c.guild.ads).None?
    ensures r == QueueEmpty <==> old(c.guild.ads) == Some([])
    ensures !r.Posted? ==> c.members == old(c.members) && c.guild == old(c.guild)
    ensures r.Posted? ==>
      && old(c.guild.ads).Some? && old(c.guild.ads).value != [] && r.ad == old(c.guild.ads).value[0]
      && c.guild == old(c.guild).(ads := Some(Pulled(old(c.guild.ads).value)))
      && c.members == old(c.members)[r.ad.userId := old(c.Member(r.ad.userId)).(adListed := Some(false))]
  {
    if c.guild.ads.None? {
      return PostKeyError;
    }
    var queue := c.guild.ads.value;
    if |queue| == 0 {
      return QueueEmpty;
    }
    var ad := queue[0];
    c.guild := c.guild.(ads := Some(Sequences.RemoveAll(queue, ad)));
    var m := c.Member(ad.userId);
    c.members := c.members[ad.userId := m.(adListed := Some(false))];
    return Posted(ad);
  }

  /** The ads in the order repeated runs post them. */
  function PostAll(ads: seq<Ad>): seq<Ad>
    decreases |ads|
  {
    if ads == [] then [] else [ads[0]] + PostAll(Pulled(ads))
  }

  /** With no duplicate in the queue, posting takes the head and keeps the rest in order. */
  lemma PullDistinctHead(ads: seq<Ad>)
    requires ads != [] && Sequences.Distinct(ads)
    ensures Pulled(ads) == ads[1..]
  {
    assert ads == [ads[0]] + ads[1..];
    assert ads[0] !in ads[1..] by {
      forall i | 0 <= i < |ads[1..]|
        ensures ads[1..][i] != ads[0]
      {
        assert ads[1..][i] == ads[i + 1];
      }
    }
  }

  /** Ads are posted in the order they were accepted: a queue with no duplicates drains as is. */
  lemma {:induction false} PostsInAcceptanceOrder(ads: seq<Ad>)
    requires Sequences.Distinct(ads)
    ensures PostAll(ads) == ads
    decreases |ads|
  {
    if ads != [] {
      PullDistinctHead(ads);
      assert Sequences.Distinct(ads[1..]) by {
        forall i, j | 0 <= i < j < |ads[1..]|
          ensures ads[1..][i] != ads[1..][j]
        {
          assert ads[1..][i] == ads[i + 1] && ads[1..][j] == ads[j + 1];
        }
      }
      PostsInAcceptanceOrder(ads[1..]);
    }
  }

  /**
   * The same ad accepted twice is posted once: the `$pull` of the head removes the later
   * copy too.
   */
  lemma DuplicateAdPostedOnce(a: Ad, b: Ad)
    requires a != b
    ensures PostAll([a, b, a]) == [a, b]
  {
    assert [a, b, a][1..] == [b, a] && [b, a][1..] == [a] && [a][1..] == [];
    assert Sequences.RemoveAll([a], a) == [];
    assert Sequences.RemoveAll([b, a], a) == [b] + Sequences.RemoveAll([a], a);
    assert Pulled([a, b, a]) == [b];
    assert [b][1..] == [];
    assert Pulled([b]) == [];
    assert PostAll([b]) == [b] + PostAll([]);
  }

  /** After its ad is posted a member whose application is settled may apply again. */
  lemma PostedMemberMayReapply(m: MemberDoc, ads: Option<seq<Ad>>, user: int)
    requires m.adPending == Some(false)
    ensures ApplyDecision(m.(adListed := Some(false)), ads, user) == ShowForm
  {
  }

  /** The label under a posted ad: the member's name if it is in the guild and short enough. */
  function AuthorLabel(userId: int, memberName: Option<string>): string
  {
    if memberName.Some? && |memberName.value| <= 70 then "Sent by: " + memberName.value
    else "Sent by: " + Parsing.IntToString(userId)
  }

  /** The label names the member when it can, and otherwise carries the id, which reads back. */
  lemma AuthorLabelShows(userId: int, memberName: Option<string>)
    ensures var shown := AuthorLabel(userId, memberName);
      && |shown| >= 9 && shown[..9] == "Sent by: "
      && (memberName.Some? && |memberName.value| <= 70 ==> shown[9..] == memberName.value)
      && (memberName.None? || |memberName.value| > 70 ==> Parsing.ParseInt(shown[9..]) == Some(userId))
  {
    Parsing.IntToStringRoundTrip(userId);
  }
}
