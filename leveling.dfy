/**
 * The leveling rule (cogs/leveling.py; cogs/general.py carries the same code).
 *
 * Every guild message that is not the bot's own earns its author 1, 2 or 3 experience points.
 * The threshold of a level is a floating-point expression of the level; here it is the
 * parameter `expNeeded`, about which nothing is assumed.
 */
module Leveling {
  import opened Records
  import opened Bot

  /** The awards a message may bring (their weights, 0.70/0.15/0.15, are not modelled). */
  const ExpChoices: seq<int> := [1, 2, 3]

  /** The level at which the promotion role is granted. */
  const PromotionLevel := 5

  /**
   * The member after a message worth `won` with `needed` the threshold of its level: reaching
   * the threshold moves it up one level with exactly the award as its experience (the surplus
   * is dropped); otherwise the award is added.
   */
  function Gain(m: MemberDoc, won: int, needed: int): MemberDoc
  {
    if needed <= m.exp + won then m.(level := m.level + 1, exp := won)
    else m.(exp := m.exp + won)
  }

  /** The promotion role is granted on this message. */
  predicate Promotes(m: MemberDoc, won: int, needed: int)
  {
    needed <= m.exp + won && m.level + 1 == PromotionLevel
  }

  /**
   * The two outcomes of a message: at the threshold the level rises by one and the experience
   * becomes the award; below it the level stays and the award is added. No other field moves.
   */
  lemma GainRule(m: MemberDoc, won: int, needed: int)
    ensures var m' := Gain(m, won, needed);
      && (needed <= m.exp + won ==> m'.level == m.level + 1 && m'.exp == won)
      && (needed > m.exp + won ==> m'.level == m.level && m'.exp == m.exp + won)
      && m'.(level := m.level, exp := m.exp) == m
  {
  }

  /** The level never falls and rises by at most one per message. */
  lemma GainLevelBounds(m: MemberDoc, won: int, needed: int)
    ensures m.level <= Gain(m, won, needed).level <= m.level + 1
  {
  }

  /** The promotion role is granted exactly when the message takes the member to level 5. */
  lemma PromotesIffReachesFive(m: MemberDoc, won: int, needed: int)
    ensures Promotes(m, won, needed) <==> m.level != PromotionLevel && Gain(m, won, needed).level == PromotionLevel
  {
  }

  /**
   * What a message did: nothing (a direct message or the bot's own), an award, an award that
   * granted the promotion role, or an award whose promotion failed because the author is not
   * a guild member (a webhook, say): the role lookup on `member.guild` raises after the write.
   */
  datatype ExpOutcome = Ignored | Awarded | Promoted | PromotionError

  /** `_update_exp`: the author's record is always written; the role only for a guild member. */
  method UpdateExp(c: Client, id: int, won: int, expNeeded: int -> int) returns (r: ExpOutcome)
    modifies c`members, c`roles
    ensures var m := old(c.Member(id));
      && c.members == old(c.members)[id := Gain(m, won, expNeeded(m.level))]
      && (r == Awarded <==> !Promotes(m, won, expNeeded(m.level)))
      && (r == Promoted <==> Promotes(m, won, expNeeded(m.level)) && id in old(c.roles))
      && (r == PromotionError <==> Promotes(m, won, expNeeded(m.level)) && id !in old(c.roles))
      && c.roles == if r == Promoted then Granted(old(c.roles), id, {c.config.promotions}) else old(c.roles)
  {
    var m := c.Member(id);
    var needed := expNeeded(m.level);
    if needed <= m.exp + won {
      var newLevel := m.level + 1;
      c.members := c.members[id := m.(exp := won, level := newLevel)];
      if newLevel == PromotionLevel {
        if id !in c.roles {
          return PromotionError;
        }
        c.roles := Granted(c.roles, id, {c.config.promotions});
        return Promoted;
      }
    } else {
      c.members := c.members[id := m.(exp := m.exp + won)];
    }
    return Awarded;
  }

  /**
   * The message listener: direct messages and the bot's own messages earn nothing; others
   * earn `won`, one of the choices, whoever the author is.
   */
  method OnMessage(c: Client, inGuild: bool, author: int, botId: int, won: int, expNeeded: int -> int)
    returns (r: ExpOutcome)
    requires won in ExpChoices
    modifies c`members, c`roles
    ensures r == Ignored <==> !inGuild || author == botId
    ensures r == Ignored ==> c.members == old(c.members) && c.roles == old(c.roles)
    ensures r != Ignored ==>
      var m := old(c.Member(author));
      && c.members == old(c.members)[author := Gain(m, won, expNeeded(m.level))]
      && (r == Promoted <==> Promotes(m, won, expNeeded(m.level)) && author in old(c.roles))
      && (r == PromotionError <==> Promotes(m, won, expNeeded(m.level)) && author !in old(c.roles))
      && c.roles == if r == Promoted then Granted(old(c.roles), author, {c.config.promotions}) else old(c.roles)
  {
    if !inGuild {
      return Ignored;
    }
    if author == botId {
      return Ignored;
    }
    r := UpdateExp(c, author, won, expNeeded);
  }

  /** `/level`: the member's level, experience and threshold, read without any change. */
  method LevelReport(c: Client, id: int, expNeeded: int -> int) returns (level: int, exp: int, needed: int)
    ensures level == c.Member(id).level && exp == c.Member(id).exp && needed == expNeeded(level)
  {
    var m := c.Member(id);
    level := m.level;
    exp := m.exp;
    needed := expNeeded(level);
  }

  /** The member after a run of messages with these awards. */
  function GainAll(m: MemberDoc, awards: seq<int>, expNeeded: int -> int): MemberDoc
    decreases |awards|
  {
    if awards == [] then m else GainAll(Gain(m, awards[0], expNeeded(m.level)), awards[1..], expNeeded)
  }

  /** How many messages of the run grant the promotion role. */
  function PromotionCount(m: MemberDoc, awards: seq<int>, expNeeded: int -> int): nat
    decreases |awards|
  {
    if awards == [] then 0
    else
      (if Promotes(m, awards[0], expNeeded(m.level)) then 1 else 0)
      + PromotionCount(Gain(m, awards[0], expNeeded(m.level)), awards[1..], expNeeded)
  }

  /**
   * Over any run of messages (with whatever thresholds) the level rises by at most the number
   * of messages and never falls.
   */
  lemma {:induction false} GainAllLevelBounds(m: MemberDoc, awards: seq<int>, expNeeded: int -> int)
    ensures m.level <= GainAll(m, awards, expNeeded).level <= m.level + |awards|
    decreases |awards|
  {
    if awards != [] {
      GainLevelBounds(m, awards[0], expNeeded(m.level));
      GainAllLevelBounds(Gain(m, awards[0], expNeeded(m.level)), awards[1..], expNeeded);
    }
  }

  /** A member already at level 5 or above is never promoted again. */
  lemma {:induction false} NoPromotionAboveFive(m: MemberDoc, awards: seq<int>, expNeeded: int -> int)
    requires m.level >= PromotionLevel
    ensures PromotionCount(m, awards, expNeeded) == 0
    decreases |awards|
  {
    if awards != [] {
      GainLevelBounds(m, awards[0], expNeeded(m.level));
      NoPromotionAboveFive(Gain(m, awards[0], expNeeded(m.level)), awards[1..], expNeeded);
    }
  }

  /** The promotion role is granted at most once in any run of messages. */
  lemma {:induction false} PromotedAtMostOnce(m: MemberDoc, awards: seq<int>, expNeeded: int -> int)
    ensures PromotionCount(m, awards, expNeeded) <= 1
    decreases |awards|
  {
    if awards != [] {
      var next := Gain(m, awards[0], expNeeded(m.level));
      if Promotes(m, awards[0], expNeeded(m.level)) {
        NoPromotionAboveFive(next, awards[1..], expNeeded);
      } else {
        PromotedAtMostOnce(next, awards[1..], expNeeded);
      }
    }
  }

  /** With awards from the choices, experience stays positive once a message has been counted. */
  lemma GainKeepsExpPositive(m: MemberDoc, won: int, needed: int)
    requires m.exp >= 0 && won in ExpChoices
    ensures 1 <= Gain(m, won, needed).exp
  {
  }
}
