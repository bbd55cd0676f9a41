/**
 * The moderation commands (cogs/moderation.py): the role-rank guard of ban, softban, kick and
 * mute, the duration parser and bound of mute, the guard of unmute, and the bounds and
 * per-user counter of purge.
 *
 * A member's top role is represented by its rank in the guild's role order.
 */
module Moderation {
  import opened Wrappers
  import opened Bot
  import Parsing

  /* ---------------------------------------------------------------------------------------
   * The rank guard
   * --------------------------------------------------------------------------------------- */

  /** The caller may act on the target only if its top role is strictly higher. */
  predicate HasHigherRole(callerTop: int, targetTop: int)
  {
    callerTop > targetTop
  }

  /** Nobody may act on an equal (so not on itself), and of two members at most one may act on the other. */
  lemma HigherRoleIsStrict(a: int, b: int)
    ensures !HasHigherRole(a, a)
    ensures !(HasHigherRole(a, b) && HasHigherRole(b, a))
  {
  }

  datatype Sanction = Ban | Softban | Kick

  /**
   * Ban, softban and kick: refused without the higher role; otherwise the target leaves the
   * guild (a softban ban is lifted at once, but the member is out).
   */
  method ApplySanction(c: Client, kind: Sanction, callerTop: int, target: int, targetTop: int) returns (done: bool)
    modifies c`roles
    ensures done <==> HasHigherRole(callerTop, targetTop)
    ensures c.roles == if done then old(c.roles) - {target} else old(c.roles)
  {
    if !HasHigherRole(callerTop, targetTop) {
      return false;
    }
    c.roles := c.roles - {target};
    return true;
  }

  /* ---------------------------------------------------------------------------------------
   * Durations and mute
   * --------------------------------------------------------------------------------------- */

  /** The unit letters and their lengths in seconds; other letters, capitals included, are unknown. */
  function UnitSeconds(u: char): Option<int>
  {
    if u == 's' then Some(1)
    else if u == 'm' then Some(60)
    else if u == 'h' then Some(3600)
    else if u == 'd' then Some(86400)
    else if u == 'w' then Some(604800)
    else None
  }

  /** A duration such as `10m`: an integer, then one unit letter; `None` for anything else. */
  function StrDurationToSeconds(s: string): (r: Option<int>)
    ensures r.Some? <==>
      |s| >= 1 && Parsing.ParseInt(s[..|s| - 1]).Some? && UnitSeconds(s[|s| - 1]).Some?
    ensures r.Some? ==>
      r.value == Parsing.ParseInt(s[..|s| - 1]).value * UnitSeconds(s[|s| - 1]).value
  {
    if |s| == 0 then None
    else
      match Parsing.ParseInt(s[..|s| - 1])
      case None => None
      case Some(n) =>
        match UnitSeconds(s[|s| - 1])
        case None => None
        case Some(unit) => Some(n * unit)
  }

  /** Writing a number and a unit letter and parsing it back gives the number of seconds. */
  lemma DurationRoundTrip(n: int, u: char)
    requires UnitSeconds(u).Some?
    ensures StrDurationToSeconds(Parsing.IntToString(n) + [u]) == Some(n * UnitSeconds(u).value)
  {
    var s := Parsing.IntToString(n) + [u];
    assert s[..|s| - 1] == Parsing.IntToString(n);
    Parsing.IntToStringRoundTrip(n);
  }

  /** No text, a unit with no number, and an unknown unit are all refused. */
  lemma DurationRejects()
    ensures StrDurationToSeconds("") == None
    ensures StrDurationToSeconds("m") == None
    ensures StrDurationToSeconds("5x") == None
    ensures StrDurationToSeconds("5M") == None
  {
    assert "m"[..0] == "";
    assert "5x"[..1] == "5" && Parsing.ParseInt("5") == Some(5);
    assert "5M"[..1] == "5";
  }

  /** The longest mute: 28 days. */
  const MaxMuteSeconds := 2419200

  datatype MuteOutcome = NotPermitted | InvalidDuration | TooLong | Muted(seconds: int)

  /** The checks of `/mute`, in order: the rank, the duration text, the bound. */
  function MuteDecision(callerTop: int, targetTop: int, duration: string): (r: MuteOutcome)
    ensures r == NotPermitted <==> !HasHigherRole(callerTop, targetTop)
    ensures r.Muted? <==>
      && HasHigherRole(callerTop, targetTop)
      && StrDurationToSeconds(duration).Some?
      && StrDurationToSeconds(duration).value <= MaxMuteSeconds
    ensures r.Muted? ==> r.seconds == StrDurationToSeconds(duration).value
  {
    if !HasHigherRole(callerTop, targetTop) then NotPermitted
    else match StrDurationToSeconds(duration)
      case None => InvalidDuration
      case Some(seconds) => if seconds > MaxMuteSeconds then TooLong else Muted(seconds)
  }

  /**
   * Exactly 28 days is accepted and one second more is not; a negative duration is not
   * refused by the bound.
   */
  lemma MuteBound(callerTop: int, targetTop: int)
    requires HasHigherRole(callerTop, targetTop)
    ensures MuteDecision(callerTop, targetTop, "28d") == Muted(2419200)
    ensures MuteDecision(callerTop, targetTop, "4w") == Muted(2419200)
    ensures MuteDecision(callerTop, targetTop, "2419201s") == TooLong
    ensures MuteDecision(callerTop, targetTop, "-5m") == Muted(-300)
  {
    DurationRoundTrip(28, 'd');
    DurationRoundTrip(4, 'w');
    DurationRoundTrip(2419201, 's');
    DurationRoundTrip(-5, 'm');
    assert Parsing.IntToString(28) + ['d'] == "28d";
    assert Parsing.IntToString(4) + ['w'] == "4w";
    assert Parsing.IntToString(2419201) + ['s'] == "2419201s";
    assert Parsing.IntToString(-5) + ['m'] == "-5m";
  }

  /** A member is timed out while the end of its timeout is still ahead. */
  predicate TimedOut(until: Option<int>, now: int)
  {
    until.Some? && until.value > now
  }

  /** The end of the timeout a mute accepted at `now` sets. */
  function MutedUntil(now: int, seconds: int): Option<int>
  {
    Some(now + seconds)
  }

  datatype UnmuteOutcome = NotMuted | Unmuted

  /** `/unmute`: refused for a member who is not timed out; otherwise the timeout is lifted. */
  function Unmute(until: Option<int>, now: int): (r: (UnmuteOutcome, Option<int>))
    ensures r.0 == Unmuted <==> TimedOut(until, now)
    ensures r.0 == NotMuted ==> r.1 == until
    ensures !TimedOut(r.1, now)
  {
    if !TimedOut(until, now) then (NotMuted, until) else (Unmuted, None)
  }

  /**
   * A member muted for a positive duration can be unmuted until the timeout runs out, and is
   * then no longer muted; a mute for a negative duration (which the bound lets through) leaves
   * nothing to unmute.
   */
  lemma MuteThenUnmute(now: int, seconds: int, later: int)
    requires now <= later
    ensures Unmute(MutedUntil(now, seconds), later).0 == Unmuted <==> later < now + seconds
    ensures seconds <= 0 ==> Unmute(MutedUntil(now, seconds), later).0 == NotMuted
    ensures Unmute(Unmute(MutedUntil(now, seconds), later).1, later).0 == NotMuted
  {
  }

  /* ---------------------------------------------------------------------------------------
   * Purge
   * --------------------------------------------------------------------------------------- */

  const MaxPurge := 500

  /** How many messages the filtered purge looks at. */
  const ScanLimit := 300

  predicate PurgeAmountValid(amount: int)
  {
    1 <= amount <= MaxPurge
  }

  /** The indices, in order, of the messages of `user` in a history given by author ids. */
  function UserIndices(authors: seq<int>, user: int): seq<nat>
    decreases |authors|
  {
    if authors == [] then []
    else
      UserIndices(authors[..|authors| - 1], user)
        + (if authors[|authors| - 1] == user then [|authors| - 1] else [])
  }

  /** `UserIndices` lists exactly the positions of `user`'s messages, in increasing order. */
  lemma {:induction false} UserIndicesExact(authors: seq<int>, user: int)
    ensures forall k :: 0 <= k < |UserIndices(authors, user)| ==>
      UserIndices(authors, user)[k] < |authors| && authors[UserIndices(authors, user)[k]] == user
    ensures forall k, l :: 0 <= k < l < |UserIndices(authors, user)| ==>
      UserIndices(authors, user)[k] < UserIndices(authors, user)[l]
    ensures forall i :: 0 <= i < |authors| && authors[i] == user ==> i in UserIndices(authors, user)
    decreases |authors|
  {
    if authors != [] {
      var front := authors[..|authors| - 1];
      UserIndicesExact(front, user);
      assert forall i :: 0 <= i < |front| ==> front[i] == authors[i];
    }
  }

  /** At most the first `n` elements. */
  function Take(s: seq<nat>, n: int): (r: seq<nat>)
    ensures |r| <= |s| && (n >= 0 ==> |r| <= n)
    ensures r == s[..|r|]
    ensures |r| < |s| ==> n <= |r|
  {
    if n < 0 then [] else if n < |s| then s[..n] else s
  }

  /** Taking from a longer list: one more element is kept only while the count is not reached. */
  lemma TakeAppend(s: seq<nat>, x: nat, n: int)
    ensures Take(s + [x], n) == if |Take(s, n)| < n && |Take(s, n)| == |s| then Take(s, n) + [x] else Take(s, n)
  {
    if n >= 0 && n < |s| {
      assert (s + [x])[..n] == s[..n];
    }
  }

  /**
   * The purge with a user filter: the check counts the messages it has accepted, refuses every
   * message once it has accepted `amount`, and refuses messages of other authors. `history`
   * lists the authors of the channel's messages, newest first.
   */
  method PurgeByUser(history: seq<int>, user: int, amount: int) returns (deleted: seq<nat>)
    ensures var scanned := if |history| < ScanLimit then history else history[..ScanLimit];
      deleted == Take(UserIndices(scanned, user), amount)
  {
    var scanned := if |history| < ScanLimit then history else history[..ScanLimit];
    var deletedCount := 0;
    deleted := [];
    var i := 0;
    while i < |scanned|
      invariant 0 <= i <= |scanned|
      invariant deleted == Take(UserIndices(scanned[..i], user), amount)
      invariant deletedCount == |deleted|
    {
      ghost var before := UserIndices(scanned[..i], user);
      assert scanned[..i + 1][..i] == scanned[..i];
      assert UserIndices(scanned[..i + 1], user) == before + (if scanned[i] == user then [i] else []);
      if deletedCount >= amount {
        // refused: the count is reached
        if scanned[i] == user {
          TakeAppend(before, i, amount);
        }
      } else if scanned[i] != user {
        // refused: another author
        assert before + [] == before;
      } else {
        TakeAppend(before, i, amount);
        deletedCount := deletedCount + 1;
        deleted := deleted + [i];
      }
      i := i + 1;
    }
    assert scanned[..|scanned|] == scanned;
  }

  /**
   * What the filtered purge deletes: only messages of `user` among the scanned ones, never more
   * than `amount`, the oldest-first order kept, and, short of `amount`, all of them.
   */
  lemma PurgeByUserSelects(scanned: seq<int>, user: int, amount: int)
    requires PurgeAmountValid(amount)
    ensures var deleted := Take(UserIndices(scanned, user), amount);
      && |deleted| <= amount
      && (forall k :: 0 <= k < |deleted| ==> deleted[k] < |scanned| && scanned[deleted[k]] == user)
      && (forall k, l :: 0 <= k < l < |deleted| ==> deleted[k] < deleted[l])
      && (|deleted| < amount ==> forall i :: 0 <= i < |scanned| && scanned[i] == user ==> i in deleted)
  {
    UserIndicesExact(scanned, user);
  }

  datatype PurgeOutcome = InvalidAmount | Deleted(indices: seq<nat>)

  /** `/purge`: the amount bound, then with a user the filtered scan, without one the newest `amount`. */
  method Purge(history: seq<int>, amount: int, user: Option<int>) returns (r: PurgeOutcome)
    ensures r == InvalidAmount <==> !PurgeAmountValid(amount)
    ensures r.Deleted? && user.Some? ==>
      var scanned := if |history| < ScanLimit then history else history[..ScanLimit];
      r.indices == Take(UserIndices(scanned, user.value), amount)
    ensures r.Deleted? && user.None? ==>
      |r.indices| == (if amount < |history| then amount else |history|)
      && forall k :: 0 <= k < |r.indices| ==> r.indices[k] == k
  {
    if amount < 1 || amount > MaxPurge {
      return InvalidAmount;
    }
    if user.Some? {
      var deleted := PurgeByUser(history, user.value, amount);
      return Deleted(deleted);
    }
    var n := if amount < |history| then amount else |history|;
    var indices := seq(n, k => k);
    return Deleted(indices);
  }
}
