/**
 * The verification workflow (cogs/verification.py).
 *
 * A member applies (as a bot owner, a library developer or a bot team member), a moderator
 * accepts or denies the pending request, and verified bot owners hand out invite codes to the
 * members of their team. The per-member state is `verification_pending` and
 * `verification_cooldown`; the guild keeps a map from the request message to the applicant.
 */
module Verification {
  import opened Wrappers
  import opened Records
  import opened Bot
  import Parsing
  import Sequences

  /** The cooldown set on submission: one hour. */
  const CooldownSeconds := 3600

  /* ---------------------------------------------------------------------------------------
   * Cooldown and the request state machine
   * --------------------------------------------------------------------------------------- */

  /** A member may not open a new application form while this holds. */
  predicate IsOnCooldown(m: MemberDoc, now: int)
  {
    m.verificationPending || (m.verificationCooldown.Some? && m.verificationCooldown.value > now)
  }

  /** The check at the application buttons; it reads the member's record and changes nothing. */
  method CheckCooldown(c: Client, user: int, now: int) returns (blocked: bool)
    ensures blocked <==> IsOnCooldown(c.Member(user), now)
  {
    var m := c.Member(user);
    if m.verificationPending {
      return true;
    }
    if m.verificationCooldown.Some? && m.verificationCooldown.value > now {
      return true;
    }
    return false;
  }

  /** The member after submitting a request at `now`. */
  function Submitted(m: MemberDoc, now: int): MemberDoc
  {
    m.(verificationPending := true, verificationCooldown := Some(now + CooldownSeconds))
  }

  /** The member after a moderator accepts the request. */
  function Accepted(m: MemberDoc): MemberDoc
  {
    m.(verificationPending := false, verificationCooldown := None)
  }

  /** The member after a moderator denies the request: the cooldown stays. */
  function Denied(m: MemberDoc): MemberDoc
  {
    m.(verificationPending := false)
  }

  lemma FreshMemberMayApply(now: int)
    ensures !IsOnCooldown(DefaultMember, now)
  {
  }

  /** While a request is pending the member is blocked, whatever the time. */
  lemma SubmittedBlocks(m: MemberDoc, now: int, later: int)
    ensures IsOnCooldown(Submitted(m, now), later)
  {
  }

  /** An accepted member is never blocked. */
  lemma AcceptedUnblocks(m: MemberDoc, later: int)
    ensures !IsOnCooldown(Accepted(m), later)
  {
  }

  /** A denied applicant may apply again exactly once the hour from the submission is over. */
  lemma DeniedWaitsOneHour(m: MemberDoc, now: int, later: int)
    ensures IsOnCooldown(Denied(Submitted(m, now)), later) <==> later < now + CooldownSeconds
  {
  }

  /**
   * The consistency of the request bookkeeping: each request message names a member whose
   * request is pending, no member has two request messages, and each pending member has one.
   */
  ghost predicate Consistent(members: map<int, MemberDoc>, pending: map<int, int>)
  {
    && (forall msg :: msg in pending ==> Fetch(members, pending[msg]).verificationPending)
    && (forall msg1, msg2 :: msg1 in pending && msg2 in pending && pending[msg1] == pending[msg2] ==> msg1 == msg2)
    && (forall id :: id in members && members[id].verificationPending ==> exists msg :: msg in pending && pending[msg] == id)
  }

  lemma InitiallyConsistent()
    ensures Consistent(map[], map[])
  {
  }

  /** A submission that passed the cooldown check, under a new message, keeps the bookkeeping consistent. */
  lemma SubmitKeepsConsistent(members: map<int, MemberDoc>, pending: map<int, int>, user: int, msg: int, now: int)
    requires Consistent(members, pending)
    requires !IsOnCooldown(Fetch(members, user), now)
    requires msg !in pending
    ensures Consistent(members[user := Submitted(Fetch(members, user), now)], pending[msg := user])
  {
    var members' := members[user := Submitted(Fetch(members, user), now)];
    var pending' := pending[msg := user];
    assert forall m :: m in pending ==> pending[m] != user;
    forall id | id in members' && members'[id].verificationPending
      ensures exists m :: m in pending' && pending'[m] == id
    {
      if id != user {
        assert id in members && members[id].verificationPending;
        var m :| m in pending && pending[m] == id;
        assert pending'[m] == id;
      } else {
        assert pending'[msg] == user;
      }
    }
  }

  /** Accepting the request of message `msg` keeps the bookkeeping consistent. */
  lemma AcceptKeepsConsistent(members: map<int, MemberDoc>, pending: map<int, int>, msg: int)
    requires Consistent(members, pending)
    requires msg in pending
    ensures var user := pending[msg];
      Consistent(members[user := Accepted(Fetch(members, user))], pending - {msg})
  {
    var user := pending[msg];
    var members' := members[user := Accepted(Fetch(members, user))];
    var pending' := pending - {msg};
    forall id | id in members' && members'[id].verificationPending
      ensures exists m :: m in pending' && pending'[m] == id
    {
      assert id != user;
      assert id in members && members[id].verificationPending;
      var m :| m in pending && pending[m] == id;
      assert m != msg;
      assert pending'[m] == id;
    }
  }

  /** Denying the request of message `msg` keeps the bookkeeping consistent. */
  lemma DenyKeepsConsistent(members: map<int, MemberDoc>, pending: map<int, int>, msg: int)
    requires Consistent(members, pending)
    requires msg in pending
    ensures var user := pending[msg];
      Consistent(members[user := Denied(Fetch(members, user))], pending - {msg})
  {
    var user := pending[msg];
    var members' := members[user := Denied(Fetch(members, user))];
    var pending' := pending - {msg};
    forall id | id in members' && members'[id].verificationPending
      ensures exists m :: m in pending' && pending'[m] == id
    {
      assert id != user;
      assert id in members && members[id].verificationPending;
      var m :| m in pending && pending[m] == id;
      assert m != msg;
      assert pending'[m] == id;
    }
  }

  /* ---------------------------------------------------------------------------------------
   * Submitting, accepting and denying
   * --------------------------------------------------------------------------------------- */

  /**
   * The shared end of both application forms: `msg` is the id of the request message just
   * posted in the requests channel.
   */
  method SubmitRequest(c: Client, user: int, msg: int, now: int)
    modifies c`members, c`guild
    ensures c.members == old(c.members)[user := Submitted(old(c.Member(user)), now)]
    ensures c.guild == old(c.guild).(pendingVerificationMessageIds := old(c.guild.pendingVerificationMessageIds)[msg := user])
  {
    var m := c.Member(user);
    c.members := c.members[user := Submitted(m, now)];
    c.guild := c.guild.(pendingVerificationMessageIds := c.guild.pendingVerificationMessageIds[msg := user]);
  }

  datatype BotOwnerOutcome = NoProof | Requested

  /** The bot-owner form: without a proof message in the bot's DMs in time, nothing is recorded. */
  method SubmitBotOwnerForm(c: Client, user: int, proofReceived: bool, msg: int, now: int) returns (r: BotOwnerOutcome)
    modifies c`members, c`guild
    ensures r == (if proofReceived then Requested else NoProof)
    ensures r.NoProof? ==> c.members == old(c.members) && c.guild == old(c.guild)
    ensures r.Requested? ==> c.members == old(c.members)[user := Submitted(old(c.Member(user)), now)]
    ensures r.Requested? ==> c.guild == old(c.guild).(pendingVerificationMessageIds := old(c.guild.pendingVerificationMessageIds)[msg := user])
  {
    if !proofReceived {
      return NoProof;
    }
    SubmitRequest(c, user, msg, now);
    return Requested;
  }

  /** What a request message is accepted with: the member and the request entry updated together. */
  method AcceptVerification(c: Client, applicant: int, msg: int)
    modifies c`members, c`guild
    ensures c.members == old(c.members)[applicant := Accepted(old(c.Member(applicant)))]
    ensures c.guild == old(c.guild).(pendingVerificationMessageIds := old(c.guild.pendingVerificationMessageIds) - {msg})
  {
    var m := c.Member(applicant);
    c.members := c.members[applicant := Accepted(m)];
    c.guild := c.guild.(pendingVerificationMessageIds := c.guild.pendingVerificationMessageIds - {msg});
  }

  datatype AcceptOutcome =
    | UnknownRequest       // KeyError: the message is not in the request map
    | UserLeftError        // the applicant left; `member.id` on None raises before any write
    | RoleSelectShown      // a bot-owner request: the moderator is asked to pick a role
    | LibraryAccepted

  /**
   * The Accept button on a request message with `embedFields` fields (five for a bot-owner
   * request, four for a library request). A library request grants the library-developer and
   * verified-member roles to the moderator who clicked, not to the applicant.
   */
  method PendingAccept(c: Client, moderator: int, msg: int, embedFields: int) returns (r: AcceptOutcome)
    requires moderator in c.roles
    modifies c`members, c`guild, c`roles
    ensures msg !in old(c.guild.pendingVerificationMessageIds) <==> r == UnknownRequest
    ensures r == UserLeftError <==>
      msg in old(c.guild.pendingVerificationMessageIds) && old(c.guild.pendingVerificationMessageIds)[msg] !in old(c.roles)
    ensures r == RoleSelectShown <==>
      msg in old(c.guild.pendingVerificationMessageIds) && old(c.guild.pendingVerificationMessageIds)[msg] in old(c.roles) && embedFields == 5
    ensures r != LibraryAccepted ==> c.members == old(c.members) && c.guild == old(c.guild) && c.roles == old(c.roles)
    ensures r == LibraryAccepted ==>
      var applicant := old(c.guild.pendingVerificationMessageIds)[msg];
      && c.members == old(c.members)[applicant := Accepted(old(c.Member(applicant)))]
      && c.guild == old(c.guild).(pendingVerificationMessageIds := old(c.guild.pendingVerificationMessageIds) - {msg})
      && c.roles == Granted(old(c.roles), moderator, {c.config.libraryDeveloper, c.config.verifiedMember})
  {
    if msg !in c.guild.pendingVerificationMessageIds {
      return UnknownRequest;
    }
    var applicant := c.guild.pendingVerificationMessageIds[msg];
    if applicant !in c.roles {
      return UserLeftError;
    }
    if embedFields == 5 {
      return RoleSelectShown;
    }
    c.roles := Granted(c.roles, moderator, {c.config.libraryDeveloper, c.config.verifiedMember});
    AcceptVerification(c, applicant, msg);
    return LibraryAccepted;
  }

  datatype SelectOutcome = ApplicantLeft | BotOwnerAccepted

  /**
   * The role picker shown for a bot-owner request: the applicant gets the chosen bot-owner
   * role, the verified-bot-developer role and the verified-member role, then is accepted. If
   * the applicant has left since the picker was shown, adding the roles raises and nothing is
   * written: the request stays pending.
   */
  method SelectBotOwnerRole(c: Client, applicant: int, msg: int, role: int) returns (r: SelectOutcome)
    requires role in c.config.botOwnerRoles
    modifies c`members, c`guild, c`roles
    ensures r == ApplicantLeft <==> applicant !in old(c.roles)
    ensures r == ApplicantLeft ==> c.members == old(c.members) && c.guild == old(c.guild) && c.roles == old(c.roles)
    ensures r == BotOwnerAccepted ==>
      && c.roles == Granted(old(c.roles), applicant, {role, c.config.verifiedBotDeveloper, c.config.verifiedMember})
      && c.members == old(c.members)[applicant := Accepted(old(c.Member(applicant)))]
      && c.guild == old(c.guild).(pendingVerificationMessageIds := old(c.guild.pendingVerificationMessageIds) - {msg})
  {
    if applicant !in c.roles {
      return ApplicantLeft;
    }
    c.roles := Granted(c.roles, applicant, {role, c.config.verifiedBotDeveloper, c.config.verifiedMember});
    AcceptVerification(c, applicant, msg);
    return BotOwnerAccepted;
  }

  /** The deny form: the applicant's request ends, the cooldown stays, the entry goes. */
  method DenyVerification(c: Client, msg: int) returns (denied: Option<int>)
    modifies c`members, c`guild
    ensures denied.None? <==> msg !in old(c.guild.pendingVerificationMessageIds)
    ensures denied.None? ==> c.members == old(c.members) && c.guild == old(c.guild)
    ensures denied.Some? ==>
      && denied.value == old(c.guild.pendingVerificationMessageIds)[msg]
      && c.members == old(c.members)[denied.value := Denied(old(c.Member(denied.value)))]
      && c.guild == old(c.guild).(pendingVerificationMessageIds := old(c.guild.pendingVerificationMessageIds) - {msg})
  {
    if msg !in c.guild.pendingVerificationMessageIds {
      return None;
    }
    var user := c.guild.pendingVerificationMessageIds[msg];
    var m := c.Member(user);
    c.members := c.members[user := Denied(m)];
    c.guild := c.guild.(pendingVerificationMessageIds := c.guild.pendingVerificationMessageIds - {msg});
    return Some(user);
  }

  /**
   * When the applicant has left, Accept fails after the lookup and writes nothing: the member
   * stays pending, so blocked at every later time, and the request entry stays; Deny on the
   * same message still clears both.
   */
  lemma LeftApplicantStaysBlocked(members: map<int, MemberDoc>, pending: map<int, int>, msg: int, later: int)
    requires Consistent(members, pending) && msg in pending
    ensures IsOnCooldown(Fetch(members, pending[msg]), later)
    ensures var user := pending[msg];
      && !Fetch(members[user := Denied(Fetch(members, user))], user).verificationPending
      && msg !in pending - {msg}
  {
  }

  /* ---------------------------------------------------------------------------------------
   * Invite codes: redemption
   * --------------------------------------------------------------------------------------- */

  datatype RedeemOutcome = InvalidUserId | InvalidCode | CodeUsed | Redeemed(inviter: int)

  /** The checks of the bot-team form, in order, on the inviter id as typed and the code. */
  function RedeemCheck(members: map<int, MemberDoc>, inviterText: string, code: string): (r: RedeemOutcome)
    ensures r == InvalidUserId <==> Parsing.ParseInt(inviterText).None?
    ensures r == InvalidCode <==>
      Parsing.ParseInt(inviterText).Some?
      && code !in Fetch(members, Parsing.ParseInt(inviterText).value).verificationCodes
    ensures r == CodeUsed <==>
      && Parsing.ParseInt(inviterText).Some?
      && var codes := Fetch(members, Parsing.ParseInt(inviterText).value).verificationCodes;
         code in codes && codes[code].Some?
    ensures r.Redeemed? <==>
      && Parsing.ParseInt(inviterText).Some?
      && var codes := Fetch(members, Parsing.ParseInt(inviterText).value).verificationCodes;
         code in codes && codes[code].None?
    ensures r.Redeemed? ==> r.inviter == Parsing.ParseInt(inviterText).value
  {
    match Parsing.ParseInt(inviterText)
    case None => InvalidUserId
    case Some(inviter) =>
      var codes := Fetch(members, inviter).verificationCodes;
      if code !in codes then InvalidCode
      else if codes[code].Some? then CodeUsed
      else Redeemed(inviter)
  }

  /**
   * The two writes of a redemption, in order: the redeemer's join code and inviter, then the
   * inviter's code entry. The second write sees the first when the redeemer is the inviter.
   */
  function Redeem(members: map<int, MemberDoc>, redeemer: int, inviter: int, code: string): map<int, MemberDoc>
  {
    var joined := Fetch(members, redeemer).(verificationJoinCode := Some(code), verificationJoinInviter := Some(inviter));
    var members' := members[redeemer := joined];
    var owner := Fetch(members', inviter);
    members'[inviter := owner.(verificationCodes := owner.verificationCodes[code := Some(redeemer)])]
  }

  /** The bot-team form; a successful redemption grants the bot-team and verified-member roles. */
  method SubmitBotTeamForm(c: Client, redeemer: int, inviterText: string, code: string) returns (r: RedeemOutcome)
    requires redeemer in c.roles
    modifies c`members, c`roles
    ensures r == RedeemCheck(old(c.members), inviterText, code)
    ensures !r.Redeemed? ==> c.members == old(c.members) && c.roles == old(c.roles)
    ensures r.Redeemed? ==> c.members == Redeem(old(c.members), redeemer, r.inviter, code)
    ensures r.Redeemed? ==> c.roles == Granted(old(c.roles), redeemer, {c.config.botTeamMember, c.config.verifiedMember})
  {
    var parsed := Parsing.ParseInt(inviterText);
    if parsed.None? {
      return InvalidUserId;
    }
    var inviter := parsed.value;
    var owner := c.Member(inviter);
    if code !in owner.verificationCodes {
      return InvalidCode;
    }
    if owner.verificationCodes[code].Some? {
      return CodeUsed;
    }
    var joined := c.Member(redeemer).(verificationJoinCode := Some(code), verificationJoinInviter := Some(inviter));
    c.members := c.members[redeemer := joined];
    owner := c.Member(inviter);
    c.members := c.members[inviter := owner.(verificationCodes := owner.verificationCodes[code := Some(redeemer)])];
    c.roles := Granted(c.roles, redeemer, {c.config.botTeamMember, c.config.verifiedMember});
    return Redeemed(inviter);
  }

  /**
   * After a redemption the code belongs to the redeemer, who records the code and the
   * inviter; the inviter's other codes are untouched; and the same code is refused next time.
   */
  lemma RedeemUsesCode(members: map<int, MemberDoc>, redeemer: int, inviterText: string, code: string)
    requires RedeemCheck(members, inviterText, code).Redeemed?
    ensures var inviter := Parsing.ParseInt(inviterText).value;
      var after := Redeem(members, redeemer, inviter, code);
      && Fetch(after, inviter).verificationCodes[code] == Some(redeemer)
      && Fetch(after, inviter).verificationCodes.Keys == Fetch(members, inviter).verificationCodes.Keys
      && (forall k :: k in Fetch(members, inviter).verificationCodes && k != code ==>
            Fetch(after, inviter).verificationCodes[k] == Fetch(members, inviter).verificationCodes[k])
      && Fetch(after, redeemer).verificationJoinCode == Some(code)
      && Fetch(after, redeemer).verificationJoinInviter == Some(inviter)
      && RedeemCheck(after, inviterText, code) == CodeUsed
  {
  }

  /** Only the two members involved change. */
  lemma RedeemTouchesTwoMembers(members: map<int, MemberDoc>, redeemer: int, inviter: int, code: string, other: int)
    requires other != redeemer && other != inviter
    ensures Fetch(Redeem(members, redeemer, inviter, code), other) == Fetch(members, other)
  {
  }

  /* ---------------------------------------------------------------------------------------
   * Invite codes: allotment and top-up
   * --------------------------------------------------------------------------------------- */

  /** The number of codes one role grants; roles that are not bot-owner roles grant none. */
  function RoleAllotment(config: Config, role: int): int
  {
    if role in config.botOwnerRoles then config.botOwnerRoles[role] else 0
  }

  /** The number of codes a member with these roles is entitled to: the sum over the roles. */
  ghost function Allotment(config: Config, roles: set<int>): int
    decreases roles
  {
    if roles == {} then 0
    else
      Sequences.NonEmptyHasElement(roles);
      var r :| r in roles;
      RoleAllotment(config, r) + Allotment(config, roles - {r})
  }

  /** The sum does not depend on the order of the roles: any role can be taken out first. */
  lemma {:induction false} AllotmentRemove(config: Config, roles: set<int>, role: int)
    requires role in roles
    ensures Allotment(config, roles) == RoleAllotment(config, role) + Allotment(config, roles - {role})
    decreases roles
  {
    var r :| r in roles && Allotment(config, roles) == RoleAllotment(config, r) + Allotment(config, roles - {r});
    if r != role {
      AllotmentRemove(config, roles - {r}, role);
      AllotmentRemove(config, roles - {role}, r);
      assert roles - {r} - {role} == roles - {role} - {r};
    }
  }

  /** Roles that grant nothing do not change the allotment. */
  lemma {:induction false} AllotmentWithoutOwnerRoles(config: Config, roles: set<int>)
    requires forall r :: r in roles ==> r !in config.botOwnerRoles
    ensures Allotment(config, roles) == 0
    decreases roles
  {
    if roles != {} {
      Sequences.NonEmptyHasElement(roles);
      var r :| r in roles;
      AllotmentRemove(config, roles, r);
      AllotmentWithoutOwnerRoles(config, roles - {r});
    }
  }

  /** The loop over the member's roles that adds up their allotments. */
  method SumAllotment(config: Config, roles: set<int>) returns (total: int)
    ensures total == Allotment(config, roles)
  {
    total := 0;
    var rest := roles;
    while rest != {}
      invariant rest <= roles
      invariant total + Allotment(config, rest) == Allotment(config, roles)
      decreases rest
    {
      Sequences.NonEmptyHasElement(rest);
      var r :| r in rest;
      AllotmentRemove(config, rest, r);
      total := total + RoleAllotment(config, r);
      rest := rest - {r};
    }
  }

  /** A generated code: six characters drawn from the ASCII letters and digits. */
  predicate IsCodeString(s: string)
  {
    |s| == 6 && forall i :: 0 <= i < |s| ==> ('a' <= s[i] <= 'z' || 'A' <= s[i] <= 'Z' || '0' <= s[i] <= '9')
  }

  /** The codes after adding each draw as an unused code, in order. */
  function WithUnused(codes: map<string, Option<int>>, draws: seq<string>): (r: map<string, Option<int>>)
    ensures r.Keys == codes.Keys + set i | 0 <= i < |draws| :: draws[i]
    decreases |draws|
  {
    if draws == [] then codes
    else
      var prefix := draws[..|draws| - 1];
      assert (set i | 0 <= i < |draws| :: draws[i]) == (set i | 0 <= i < |prefix| :: prefix[i]) + {draws[|draws| - 1]};
      WithUnused(codes, prefix)[draws[|draws| - 1] := None]
  }

  /** What each entry becomes: a drawn code is unused, whatever it was; other entries are kept. */
  lemma {:induction false} WithUnusedValues(codes: map<string, Option<int>>, draws: seq<string>, k: string)
    requires k in WithUnused(codes, draws)
    ensures WithUnused(codes, draws)[k] == if k in codes && (forall i :: 0 <= i < |draws| ==> draws[i] != k) then codes[k] else None
    decreases |draws|
  {
    if draws != [] {
      var prefix := draws[..|draws| - 1];
      if k != draws[|draws| - 1] {
        WithUnusedValues(codes, prefix, k);
        assert forall i :: 0 <= i < |prefix| ==> prefix[i] == draws[i];
      }
    }
  }

  /**
   * With draws that are distinct and new, the top-up adds exactly one unused code per draw and
   * leaves every existing entry as it was.
   */
  lemma {:induction false} WithUnusedFresh(codes: map<string, Option<int>>, draws: seq<string>)
    requires forall i :: 0 <= i < |draws| ==> draws[i] !in codes
    requires forall i, j :: 0 <= i < j < |draws| ==> draws[i] != draws[j]
    ensures |WithUnused(codes, draws)| == |codes| + |draws|
    ensures forall k :: k in codes ==> WithUnused(codes, draws)[k] == codes[k]
    decreases |draws|
  {
    if draws != [] {
      var prefix := draws[..|draws| - 1];
      WithUnusedFresh(codes, prefix);
      var last := draws[|draws| - 1];
      assert forall i :: 0 <= i < |prefix| ==> prefix[i] != last by {
        forall i | 0 <= i < |prefix|
          ensures prefix[i] != last
        {
          assert prefix[i] == draws[i];
        }
      }
      assert last !in WithUnused(codes, prefix);
    }
  }

  /**
   * A draw that repeats an existing code, however that code was used, resets it to unused
   * and adds nothing: here a member entitled to two codes, one of them redeemed by member 7,
   * ends with a single unused code.
   */
  lemma CollisionResetsUsedCode()
    ensures var codes := map["aB3xY9" := Some(7)];
      var after := WithUnused(codes, ["aB3xY9"]);
      && after == map["aB3xY9" := None]
      && |after| == 1
  {
    var codes := map["aB3xY9" := Some(7)];
    assert ["aB3xY9"][..0] == [];
  }

  /** `/codes` draws new codes exactly when the member holds fewer than its allotment. */
  predicate NeedsTopUp(codes: map<string, Option<int>>, total: int)
  {
    |codes| < total
  }

  datatype CodesOutcome = NotVerifiedOwner | Listed(codes: map<string, Option<int>>)

  /** The loop that adds the missing codes, one draw each. */
  method TopUp(codes: map<string, Option<int>>, draws: seq<string>, count: nat) returns (r: map<string, Option<int>>)
    requires count <= |draws|
    ensures r == WithUnused(codes, draws[..count])
  {
    r := codes;
    var x := 0;
    while x < count
      invariant 0 <= x <= count
      invariant r == WithUnused(codes, draws[..x])
    {
      assert draws[..x + 1][..x] == draws[..x];
      r := r[draws[x] := None];
      x := x + 1;
    }
  }

  /**
   * The `/codes` command: only verified bot owners may use it. When the member holds fewer
   * codes than its roles grant, the missing number is drawn (from `draws`, the generator's
   * output) and the whole code map is written back; otherwise nothing is written. The codes
   * shown are the resulting map.
   */
  method Codes(c: Client, user: int, draws: seq<string>) returns (r: CodesOutcome)
    requires user in c.roles
    requires forall i :: 0 <= i < |draws| ==> IsCodeString(draws[i])
    requires |draws| >= Allotment(c.config, c.roles[user])
    modifies c`members
    ensures c.config.verifiedBotDeveloper !in c.roles[user] ==> r == NotVerifiedOwner && c.members == old(c.members)
    ensures c.config.verifiedBotDeveloper in c.roles[user] ==>
      var m := old(c.Member(user));
      var total := Allotment(c.config, c.roles[user]);
      if NeedsTopUp(m.verificationCodes, total) then
        && r == Listed(WithUnused(m.verificationCodes, draws[..total - |m.verificationCodes|]))
        && c.members == old(c.members)[user := m.(verificationCodes := r.codes)]
      else
        r == Listed(m.verificationCodes) && c.members == old(c.members)
    ensures r.Listed? ==> forall k :: k in r.codes && k !in old(c.Member(user)).verificationCodes ==> IsCodeString(k)
  {
    if c.config.verifiedBotDeveloper !in c.roles[user] {
      return NotVerifiedOwner;
    }
    var m := c.Member(user);
    var total := SumAllotment(c.config, c.roles[user]);
    if |m.verificationCodes| < total {
      var codes := TopUp(m.verificationCodes, draws, total - |m.verificationCodes|);
      c.members := c.members[user := m.(verificationCodes := codes)];
      forall k | k in codes && k !in m.verificationCodes
        ensures IsCodeString(k)
      {
        var prefix := draws[..total - |m.verificationCodes|];
        var i :| 0 <= i < |prefix| && prefix[i] == k;
        assert k == draws[i];
      }
      return Listed(codes);
    }
    return Listed(m.verificationCodes);
  }

  /**
   * With fresh, distinct draws the top-up brings the member to exactly its allotment, keeps
   * every code it had with its redeemer, and leaves nothing to top up: a second `/codes` with
   * the same roles takes the branch of `Codes` that writes nothing.
   */
  lemma TopUpReachesAllotment(codes: map<string, Option<int>>, draws: seq<string>, total: int)
    requires |codes| < total <= |codes| + |draws|
    requires forall i :: 0 <= i < |draws| ==> draws[i] !in codes
    requires forall i, j :: 0 <= i < j < |draws| ==> draws[i] != draws[j]
    ensures var after := WithUnused(codes, draws[..total - |codes|]);
      && |after| == total
      && (forall k :: k in codes ==> after[k] == codes[k])
      && !NeedsTopUp(after, total)
  {
    WithUnusedFresh(codes, draws[..total - |codes|]);
  }

  /* ---------------------------------------------------------------------------------------
   * Team membership and departures
   * --------------------------------------------------------------------------------------- */

  /** `target` redeemed one of the codes of this member. */
  predicate Invited(m: MemberDoc, target: int)
  {
    Some(target) in m.verificationCodes.Values
  }

  /** `/team remove`: the target is kicked only if it redeemed one of the caller's codes. */
  method TeamRemove(c: Client, caller: int, target: int) returns (kicked: bool)
    requires target in c.roles
    modifies c`roles
    ensures kicked <==> Invited(c.Member(caller), target)
    ensures c.roles == if kicked then old(c.roles) - {target} else old(c.roles)
  {
    var m := c.Member(caller);
    if Some(target) !in m.verificationCodes.Values {
      return false;
    }
    c.roles := c.roles - {target};
    return true;
  }

  /** A redeemer is on the team of the inviter. */
  lemma RedeemerIsInvited(members: map<int, MemberDoc>, redeemer: int, inviter: int, code: string)
    ensures Invited(Fetch(Redeem(members, redeemer, inviter, code), inviter), redeemer)
  {
    var codes := Fetch(Redeem(members, redeemer, inviter, code), inviter).verificationCodes;
    assert codes[code] == Some(redeemer);
  }

  /**
   * The records after member `id` leaves. With no join code nothing is written. Otherwise its
   * join code and inviter are cleared and the code is removed from the inviter's codes; when
   * the inviter is unset, that removal goes to a document no member id reads.
   */
  function Departed(members: map<int, MemberDoc>, id: int): map<int, MemberDoc>
  {
    var m := Fetch(members, id);
    match m.verificationJoinCode
    case None => members
    case Some(code) =>
      var cleared := members[id := m.(verificationJoinCode := None, verificationJoinInviter := None)];
      match m.verificationJoinInviter
      case None => cleared
      case Some(inviter) =>
        var owner := Fetch(cleared, inviter);
        cleared[inviter := owner.(verificationCodes := owner.verificationCodes - {code})]
  }

  /** A member leaves the guild (or is kicked): its roles go and its records are cleaned up. */
  method MemberRemoved(c: Client, id: int)
    modifies c`members, c`roles
    ensures c.roles == old(c.roles) - {id}
    ensures c.members == Departed(old(c.members), id)
  {
    c.roles := c.roles - {id};
    var m := c.Member(id);
    if m.verificationJoinCode.None? {
      return;
    }
    var code := m.verificationJoinCode.value;
    var inviter := m.verificationJoinInviter;
    c.members := c.members[id := m.(verificationJoinCode := None, verificationJoinInviter := None)];
    if inviter.Some? {
      var owner := c.Member(inviter.value);
      c.members := c.members[inviter.value := owner.(verificationCodes := owner.verificationCodes - {code})];
    }
  }

  /**
   * A redeemed code leaves the inviter's map when the redeemer leaves: it is removed, not
   * reset to unused, so the inviter's next `/codes` draws a new one in its place.
   */
  lemma RedeemThenLeave(members: map<int, MemberDoc>, redeemer: int, inviter: int, code: string)
    requires redeemer != inviter
    ensures var after := Departed(Redeem(members, redeemer, inviter, code), redeemer);
      && Fetch(after, inviter).verificationCodes == Fetch(members, inviter).verificationCodes - {code}
      && Fetch(after, redeemer).verificationJoinCode.None?
      && Fetch(after, redeemer).verificationJoinInviter.None?
  {
    var owner := Fetch(members, inviter);
    assert owner.verificationCodes[code := Some(redeemer)] - {code} == owner.verificationCodes - {code};
  }

  /** A member who joined without a code leaves every record as it was. */
  lemma LeaveWithoutCode(members: map<int, MemberDoc>, id: int)
    requires Fetch(members, id).verificationJoinCode.None?
    ensures Departed(members, id) == members
  {
  }
}
