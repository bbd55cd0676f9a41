# Discord Bot Owners: a Dafny model of the bot's core

This project models the handlers of the Discord Bot Owners community bot and proves properties
about them. The handlers covered are:

- member verification: application forms, moderator review, invite codes for bot teams, and
  the cleanup when a member leaves;
- the advertisement queue: application, review, and periodic posting;
- support tickets: opening and closing;
- the experience and level system;
- the self-assignable notification roles;
- the moderation commands' guards and parsers;
- the music commands' checks and queue handling;
- the document-store adapter underneath them all.

The model is organised in two layers:

- The `MongoDB` module holds stored documents as JSON-like values. It models:
  - the back-filling of defaults on fetch;
  - the update operators the handlers send (`$set`, `$unset`, `$inc`, `$push`, `$pull`);
  - upsert.
- The handlers work on typed records (module `Records`), which are the documents as a fetch
  returns them. Lemma `MongoDB.FetchAfterUpsert` justifies this: with the bot's flat defaults,
  a fetch after an upserting update equals that update applied to what the fetch returned
  before.

The bot object itself is the class `Bot.Client`. Its fields are:

- the members' records;
- the guild record;
- each present member's role set (a member is in the guild exactly when it has an entry);
- the in-memory ticket table.

Each handler is a method that changes those fields. Where a handler reads a key that a
document may lack, the model returns the `KeyError` as an outcome value rather than excluding
it. The handlers' checks appear in the same order as in the source.

The following become parameters:

- the clock (`now`);
- randomness: experience awards are an argument (checked against the three choices), and
  generated codes are a caller-supplied list of draws;
- Discord's answers: whether a DM with a proof arrived, the id of the message just posted,
  the end of a member's timeout, and the role hierarchy as integer ranks;
- the experience curve (`expNeeded`).

Two quirks of the source are modelled as written:

- Accepting a library-developer request grants the roles to the moderator who clicked, not
  to the applicant.
- A redeemed code is removed from the inviter's map, not reset, when the redeemer leaves.

## Model

| member | source | states |
|---|---|---|
| MongoDB.SetDefaultDict | cogs/mongodb.py:37-48 | fails exactly when a non-dict value sits under a non-empty dict default; otherwise the result is the back-filled document |
| MongoDB.FillSecondLevel | cogs/mongodb.py:43-46 | the second-level loop adds exactly the missing keys of a dict default, and fails on a non-dict value when there is a key to look up |
| MongoDB.BackfillHasAllKeys | cogs/mongodb.py:39-41 | after back-filling, the keys are those of the document plus those of the defaults |
| MongoDB.BackfillNeverOverwrites | cogs/mongodb.py:40-46 | a value the document had is kept; a dict under a dict default only gains missing second-level keys |
| MongoDB.BackfillFillsMissing | cogs/mongodb.py:40-41 | a missing key receives its default value |
| MongoDB.BackfillIdempotent | cogs/mongodb.py:37-48 | back-filling twice equals back-filling once |
| MongoDB.DefaultsAreFlat | cogs/mongodb.py:11-31 | every dict-valued default of both default documents is empty |
| MongoDB.BackfillFlat | cogs/mongodb.py:37-48 | with flat defaults the back-fill cannot fail and is the union in which the document wins |
| MongoDB.FetchFreshMember | cogs/mongodb.py:68-77 | a member with no document is fetched as the member defaults, with `_id` set to its numeric id |
| MongoDB.FetchFreshGuildData | cogs/mongodb.py:52-61 | a fresh guild record lacks `ads` and `pending_ad_message_ids`, while the other defaults are present |
| MongoDB.ViewCommutes | cogs/mongodb.py:63-64 | one operator on a path the back-fill does not touch gives the same fetched view whether applied before or after back-filling |
| MongoDB.ViewCommutesUpdate | cogs/mongodb.py:79-80 | the same holds for a whole update document, including rejection |
| MongoDB.FetchAfterUpsert | cogs/mongodb.py:63-80 | fetching after an upserting update returns the update applied to the previous fetch, whether or not the document existed |
| MongoDB.Database.FetchGuildData | cogs/mongodb.py:52-61 | the adapter's fetch returns the back-filled document (or the defaults), with `_id` replaced |
| MongoDB.Database.UpdateGuildDataDocument | cogs/mongodb.py:63-64 | the collection becomes the upserted one, and a rejected update writes nothing |
| MongoDB.Database.FetchGuildMember | cogs/mongodb.py:68-77 | as for the guild data, keyed by `str(member_id)` |
| MongoDB.Database.UpdateGuildMemberDocument | cogs/mongodb.py:79-80 | as for the guild data, keyed by `str(member_id)` |
| Parsing.IntToStringRoundTrip | cogs/mongodb.py:69 | `int(str(i)) == i` |
| Parsing.IntToStringInjective | cogs/mongodb.py:69-80 | distinct ids have distinct document keys |
| Records.FetchStoreView | cogs/mongodb.py:68-80 | storing a member's fetched view back changes no fetch |
| Records.FetchAfterStore | cogs/mongodb.py:79-80 | a stored member update is seen by that member's next fetch and by no other |
| Bot.InitialTickets | discord_bot_owners.py:36-37 | one empty ticket table per configured category, plus `Support` |
| Bot.Client.constructor | discord_bot_owners.py:36-37 | the bot starts with every ticket table empty |
| Bot.Granted | cogs/verification.py:111 | granting roles adds them to one member's set and changes no other member |
| Verification.CheckCooldown | cogs/verification.py:49-66 | blocked exactly when a request is pending or the cooldown time is still ahead |
| Verification.FreshMemberMayApply | cogs/verification.py:49-66 | a member with no record may apply |
| Verification.SubmittedBlocks | cogs/verification.py:78-85 | once a request is submitted, the member is blocked at every time |
| Verification.AcceptedUnblocks | cogs/verification.py:18-23 | an accepted member is never blocked |
| Verification.DeniedWaitsOneHour | cogs/verification.py:136-144 | a denied applicant is blocked exactly until one hour after the submission |
| Verification.InitiallyConsistent | cogs/mongodb.py:17 | empty records and an empty request map are consistent |
| Verification.SubmitKeepsConsistent | cogs/verification.py:69-89 | a submission past the cooldown check keeps "request map ⇔ pending members" one-to-one |
| Verification.AcceptKeepsConsistent | cogs/verification.py:16-46 | acceptance keeps that one-to-one correspondence |
| Verification.DenyKeepsConsistent | cogs/verification.py:128-163 | denial keeps that one-to-one correspondence |
| Verification.SubmitRequest | cogs/verification.py:78-85 | the member becomes pending with a one-hour cooldown, and the message is mapped to it |
| Verification.SubmitBotOwnerForm | cogs/verification.py:231-271 | without a proof DM nothing is recorded; with one the request is submitted |
| Verification.AcceptVerification | cogs/verification.py:16-46 | the applicant leaves the pending state with its cooldown cleared, and the message entry goes |
| Verification.PendingAccept | cogs/verification.py:172-198 | unknown message is a KeyError; an applicant who left is an error before any write; five fields show the role picker; otherwise the library roles go to the clicking moderator and the request is accepted |
| Verification.SelectBotOwnerRole | cogs/verification.py:104-113 | an applicant who left is an error that writes nothing; otherwise the applicant gets the chosen owner role, the verified-developer role and the verified-member role, and is accepted |
| Verification.DenyVerification | cogs/verification.py:128-163 | an unknown message changes nothing; otherwise the request ends, the cooldown stays and the entry goes |
| Verification.LeftApplicantStaysBlocked | cogs/verification.py:180-186 | an applicant whose accept failed stays blocked until denied, and a deny clears it |
| Verification.RedeemCheck | cogs/verification.py:325-356 | a non-integer inviter id is refused; an unknown code, a used code and a redemption each happen exactly in their case |
| Verification.SubmitBotTeamForm | cogs/verification.py:325-356 | the form's outcome is that check; a redemption records both sides and grants the team roles |
| Verification.RedeemUsesCode | cogs/verification.py:341-347 | after a redemption the code names the redeemer, the inviter's other codes are unchanged, the redeemer records code and inviter, and the same code is refused next time |
| Verification.RedeemTouchesTwoMembers | cogs/verification.py:341-347 | a redemption changes no third member |
| Verification.AllotmentRemove | cogs/verification.py:431-437 | the summed allotment does not depend on the order of the roles |
| Verification.AllotmentWithoutOwnerRoles | cogs/verification.py:431-437 | roles that are not bot-owner roles grant no codes |
| Verification.SumAllotment | cogs/verification.py:431-437 | the loop computes the sum of the allotments of the member's roles |
| Verification.WithUnused | cogs/verification.py:439-445 | the codes after a top-up are the old codes plus every draw |
| Verification.WithUnusedValues | cogs/verification.py:439-445 | a drawn code is unused, whatever it was before; every other entry is kept |
| Verification.WithUnusedFresh | cogs/verification.py:439-445 | with new, distinct draws, one code is added per draw and nothing existing changes |
| Verification.CollisionResetsUsedCode | cogs/verification.py:439-445 | a draw equal to a redeemed code resets it to unused and adds nothing |
| Verification.TopUp | cogs/verification.py:439-445 | the loop adds the first `count` draws as unused codes |
| Verification.Codes | cogs/verification.py:421-467 | only verified owners get a list; a member below its allotment is topped up and the code map written; otherwise nothing is written; every new code is a six-character alphanumeric draw |
| Verification.TopUpReachesAllotment | cogs/verification.py:431-445 | with fresh draws the member ends with exactly its allotment, keeps its codes, and needs no further top-up |
| Verification.TeamRemove | cogs/verification.py:473-483 | the target is kicked exactly when it redeemed one of the caller's codes |
| Verification.RedeemerIsInvited | cogs/verification.py:476-478 | after a redemption the redeemer counts as the inviter's team member |
| Verification.MemberRemoved | cogs/verification.py:520-532 | the member's roles go; its join code and inviter are cleared and the code leaves the inviter's map |
| Verification.RedeemThenLeave | cogs/verification.py:520-532 | when a redeemer leaves, the inviter's map loses that code, and the code is not reset |
| Verification.LeaveWithoutCode | cogs/verification.py:522-524 | a member who joined without a code leaves every record unchanged |
| Advertisements.Position | cogs/advertisements.py:211-216 | the place is the 1-based index of the member's first ad, or one past the end |
| Advertisements.AdPosition | cogs/advertisements.py:211-216 | the counting loop computes that place |
| Advertisements.ApplyDecision | cogs/advertisements.py:204-220 | pending ⇒ refused; listed ⇒ reports the place; neither ⇒ form; every missing key ⇒ KeyError; each case is an iff |
| Advertisements.AdApply | cogs/advertisements.py:201-222 | the command reads the records and changes nothing |
| Advertisements.FreshMemberCannotApply | cogs/advertisements.py:204-205 | a member who never applied has no `ad_pending` key, so the command raises KeyError |
| Advertisements.WithPendingAd | cogs/advertisements.py:146-148 | the new application message maps to the member; other entries and the queue stay |
| Advertisements.SubmitAd | cogs/advertisements.py:124-148 | the member is marked pending and its application message recorded |
| Advertisements.SecondApplicationRejected | cogs/advertisements.py:205-207 | a member with a pending application is turned away |
| Advertisements.AcceptAd | cogs/advertisements.py:64-97 | an unknown message is a KeyError; an applicant who left is cleared but not queued; otherwise flags are set, the ad goes to the queue tail and the entry goes |
| Advertisements.AcceptedAdIsListed | cogs/advertisements.py:78-87 | after acceptance `/adapply` reports the ad as listed at a place where it really is |
| Advertisements.DenyAd | cogs/advertisements.py:18-36 | an unknown message is a KeyError; otherwise the pending flag is cleared and the entry removed, while the queue and `ad_listed` stay |
| Advertisements.Pulled | cogs/advertisements.py:177-179 | pulling the posted ad shortens the queue |
| Advertisements.PostAdvertisement | cogs/advertisements.py:168-195 | without `ads` a KeyError; an empty queue posts nothing; otherwise the head is posted, every copy of it pulled, and its author unlisted |
| Advertisements.PullDistinctHead | cogs/advertisements.py:177-179 | with no duplicates, posting takes the head and keeps the rest in order |
| Advertisements.PostsInAcceptanceOrder | cogs/advertisements.py:168-195 | a queue without duplicates is posted in acceptance order |
| Advertisements.DuplicateAdPostedOnce | cogs/advertisements.py:177-179 | two equal queued ads are posted once |
| Advertisements.PostedMemberMayReapply | cogs/advertisements.py:180-182 | once its ad is posted, a settled member may apply again |
| Advertisements.AuthorLabelShows | cogs/advertisements.py:187-189 | the label shows the member's name when available, otherwise an id that reads back |
| Tickets.TicketName | cogs/tickets.py:31-40 | the name is the prefix, then `-name-discriminator` |
| Tickets.CreateTicket | cogs/tickets.py:11-46 | unknown category; an already open ticket reported by channel; bad stars; a missing config key; otherwise exactly one new entry. Each is an iff with the table unchanged on refusal |
| Tickets.OpenedChangesOneEntry | cogs/tickets.py:46 | opening records the ticket, keeps every other entry and the categories, so a second request finds it open |
| Tickets.OpenedKeepsUnique | cogs/tickets.py:42-46 | a new channel keeps channels unique across the table |
| Tickets.FindTicket | cogs/tickets.py:176-186 | the nested scan finds an entry with the channel, or there is none |
| Tickets.Close | cogs/tickets.py:160-196 | not the ticket category ⇒ refused; a manager without administrator ⇒ refused; otherwise the channel's entry is deleted if any, and nothing else changes |
| Tickets.CloseRemovesExactlyOne | cogs/tickets.py:192-196 | with unique channels, closing deletes exactly the ticket of the channel, keeps uniqueness and lets the member open again |
| Tickets.FoundTicketIsUnique | cogs/tickets.py:178-186 | with unique channels, the scan's answer does not depend on iteration order |
| Tickets.InitialTicketsEmpty | discord_bot_owners.py:36-37 | the initial table has no ticket, and its channels are unique |
| Leveling.GainRule | cogs/leveling.py:25-42 | at the threshold the level rises by one and the experience becomes the award; below it the award is added; nothing else moves |
| Leveling.GainLevelBounds | cogs/leveling.py:32-42 | a message never lowers the level, and raises it by at most one |
| Leveling.PromotesIffReachesFive | cogs/leveling.py:38-40 | the promotion role is granted exactly when a message takes the member to level 5 |
| Leveling.UpdateExp | cogs/leveling.py:25-42 | every author's record is updated by that rule; on reaching 5 a guild member gets the promotion role, and an author outside the guild is an error after the write, with roles unchanged |
| Leveling.OnMessage | cogs/leveling.py:44-53 | direct messages and the bot's own messages earn nothing; any other author, member or not, follows the update |
| Leveling.LevelReport | cogs/leveling.py:55-64 | `/level` shows the stored level, experience and threshold, changing nothing |
| Leveling.GainAllLevelBounds | cogs/general.py:131-159 | over any run of messages the level rises by at most the number of awards and never falls |
| Leveling.NoPromotionAboveFive | cogs/leveling.py:38 | a member at level 5 or above is never promoted again |
| Leveling.PromotedAtMostOnce | cogs/leveling.py:38-40 | the promotion role is granted at most once in any run |
| Leveling.GainKeepsExpPositive | cogs/leveling.py:19-42 | with awards from the choices, experience is at least 1 after a message |
| AutoRoles.ToggleFlips | cogs/auto_roles.py:16-24 | a click removes the role if held, else adds it, and no other role changes |
| AutoRoles.ToggleTwice | cogs/auto_roles.py:16-24 | two clicks restore the role set |
| AutoRoles.Click | cogs/auto_roles.py:12-54 | the clicked button's role is toggled on the member, and the result says whether it was added |
| AutoRoles.SendAutoRolesView | cogs/auto_roles.py:76-86 | posting the panel stores its channel and message ids |
| AutoRoles.AfterReady | cogs/auto_roles.py:67-74 | the view is re-attached exactly when a panel message id is stored |
| AutoRoles.PanelSurvivesRestart | cogs/auto_roles.py:70-86 | after the panel is posted, a restart re-attaches it; a fresh guild has none |
| Moderation.HigherRoleIsStrict | cogs/moderation.py:35-37 | nobody may act on an equal or on themselves, and of two members at most one may act on the other |
| Moderation.ApplySanction | cogs/moderation.py:46-111 | ban, softban and kick succeed exactly with a strictly higher top role, and then the target is out of the guild |
| Moderation.StrDurationToSeconds | cogs/moderation.py:39-44 | a duration is accepted exactly when an integer is followed by a known unit letter, and its value is the product |
| Moderation.DurationRoundTrip | cogs/moderation.py:42 | `str(n)` followed by a unit parses to n times that unit |
| Moderation.DurationRejects | cogs/moderation.py:41-44 | `""`, `"m"`, `"5x"` and `"5M"` give `None` |
| Moderation.MuteDecision | cogs/moderation.py:113-135 | refused without the higher role, then on an invalid duration, then above 28 days; otherwise muted for the parsed seconds |
| Moderation.MuteBound | cogs/moderation.py:122-127 | `28d` and `4w` are accepted, `2419201s` is too long, a negative duration is not rejected |
| Moderation.Unmute | cogs/moderation.py:140-150 | unmute is refused exactly for a member who is not timed out and then changes nothing; afterwards the member is not timed out |
| Moderation.MuteThenUnmute | cogs/moderation.py:129-146 | after a mute, unmute is possible exactly until the timeout ends; a non-positive mute leaves nothing to unmute; a second unmute is refused |
| Moderation.UserIndicesExact | cogs/moderation.py:176-177 | the selection lists exactly the user's messages, in order |
| Moderation.PurgeByUser | cogs/moderation.py:167-183 | the counting check over the scanned history deletes the first `amount` of the user's messages |
| Moderation.PurgeByUserSelects | cogs/moderation.py:170-181 | only the user's messages are deleted, never more than `amount`, and all of them when fewer than `amount` |
| Moderation.Purge | cogs/moderation.py:155-187 | an amount outside 1..500 is refused; with a user, the filtered scan; without one, the newest `amount` messages |
| Music.JoinSplit | cogs/music.py:251 | joining the parts of `split(":")` gives the timecode back |
| Music.SplitPartsHaveNoSeparator | cogs/music.py:251 | no part contains the separator |
| Music.SplitNoSeparator | cogs/music.py:251-252 | a timecode without `:` is one part, so a bad argument |
| Music.SplitAfter | cogs/music.py:251 | a first part without the separator is split off whole |
| Music.ParseSeek | cogs/music.py:251-255 | accepted exactly when there are two parts, both digit strings |
| Music.SeekAccepts | cogs/music.py:251-255 | `A:B` with digit strings seeks to A·60000 + B·1000 ms |
| Music.SeekAcceptedShape | cogs/music.py:251-255 | an accepted timecode is of the form `A:B` with that target |
| Music.SeekRoundTrip | cogs/music.py:255 | minutes and seconds written back seek to the same target, with seconds unbounded |
| Music.SeekRejects | cogs/music.py:252-253 | `90`, `:30`, `-1:30` and `1:2:3` are bad arguments |
| Music.LeadingAngles | cogs/music.py:154 | the count of leading brackets stops at the first other character |
| Music.TrailingAngles | cogs/music.py:154 | the count of trailing brackets stops at the last other character |
| Music.StripKeepsMiddle | cogs/music.py:154 | stripping keeps a middle slice with no bracket at either end and drops only brackets |
| Music.StripIdempotent | cogs/music.py:154 | stripping twice equals stripping once |
| Music.ShapeQuery | cogs/music.py:154-163 | no attachment and an empty query ⇒ bad argument; a URL as it is; else the first attachment; else `ytsearch:` and the query |
| Music.BracketedUrlIsPlayed | cogs/music.py:154-163 | a link between angle brackets is played as the link |
| Music.TextIsSearched | cogs/music.py:163 | plain text becomes a search |
| Music.BareSchemeIsNotUrl | cogs/music.py:159-161 | `https://` alone is not a URL, so the attachment wins |
| Music.OnlyBracketsIsBadArgument | cogs/music.py:154-157 | `<>` with no attachment is a bad argument |
| Music.RemoveDecision | cogs/music.py:233-242 | empty queue, position below one, and position beyond the end are refused in that order; otherwise the named track is selected |
| Music.VolumeBounds | cogs/music.py:281-282 | a volume is accepted exactly from 1 to 1000 |
| Music.Player.constructor | cogs/music.py:106 | a new player has an empty queue and no channel |
| Music.Player.Remove | cogs/music.py:228-244 | on a valid position that track leaves the queue and the others keep their order; otherwise nothing changes |
| Music.Player.SetVolume | cogs/music.py:276-285 | the volume changes exactly when accepted |
| Music.Player.Disconnect | cogs/music.py:287-301 | refused without a voice client, or with the author outside the player's channel; otherwise the queue is emptied and the channel cleared |
| Music.RemoveThenReinsert | cogs/music.py:242 | putting the removed track back at its place restores the queue |
| Music.PageCount | cogs/music.py:17-27 | the pages hold the whole queue, with no empty last page |
| Music.PageEntries | cogs/music.py:17-24 | page p shows up to ten tracks, from queue index 10·p |
| Music.ShownNumberIsRemovePosition | cogs/music.py:19-24 | the number shown beside a track is the position that removes that very track |
| Music.EveryTrackIsShown | cogs/music.py:17-24 | track j appears on page j/10 under the number j+1 |

## Left out

- Discord and its SDK: sending and editing messages, embeds, modal and view rendering,
  permission overwrites, channel creation and deletion, staff and ticket logs. Only the ids and
  role sets the handlers read and write are modelled.
- The audio node (Lavalink) and the voice plumbing of cogs/music.py:32-139 come from an
  external library. This covers `ensure_voice`, the track hook, track loading and enqueueing
  in `play`, skip, pause, resume, now-playing and the queue menu's reactions and timeout.
- The experience curve `int(log(4·level)^5·10)` uses floating point, so it is a parameter
  `expNeeded`. The award weights are random and not modelled; an award is any of the three
  choices.
- The code generator's randomness: draws are supplied by the caller. The model does not
  exclude a colliding draw; `Verification.CollisionResetsUsedCode` shows what one does.
- Concurrency: handlers run one at a time. The races the source mentions (a second delete of
  the same ticket, interleaved Accept and Deny) are not modelled.
- Ticket transcripts (file I/O) and `unban`, whose only check is Discord's HTTP error.
- The wait for the bot-owner proof DM (`wait_for` with a timeout) becomes the flag
  `proofReceived`.
- The 5 ms `before` bound of purge: the history passed in is taken to be the one before the
  command.
- The periodic task's sleep and restart in cogs/advertisements.py: one run of the posting step
  is modelled.
- The ticket-panel, verification-panel and team-list views (`send_tickets_view`,
  `send_verification_view`, `team_view`) show information and record panel ids. They are not
  modelled, beyond the auto-roles panel, which stands for them.
- cogs/general.py repeats the auto-roles and leveling code. It is modelled once. Both cogs
  declare a `level` command, so loading the second one fails before its listeners are
  attached; if both were loaded, each message would be awarded twice, which
  `Leveling.GainAllLevelBounds` covers as a run of awards.
- Dictionary iteration order: maps are unordered here. The close scan's answer is proved not
  to depend on the order while channels are unique.
- Moderation.StrDurationToSeconds: does not accept what Python's `int()` accepts beyond
  `[+-]?[0-9]+`, namely surrounding whitespace, underscores between digits and non-ASCII
  digits. The ASCII grammar is what the commands document.
- Verification.RedeemCheck: the same restriction applies to the inviter id typed in the form.
- Music.ParseSeek: `str.isdigit` also accepts non-ASCII digits, on which `int()` then raises.
  Only ASCII digits are modelled.
- Tickets.CreateTicket: the manager role is looked up as `<category lowercased>_developer`.
  Here the configuration maps each ticket category to its manager role directly. Configuration
  keys are typed ids, not the strings of the JSON file.
- MongoDB.SetDefaultDict: returns the back-filled dict instead of mutating the caller's dict in
  place. The caller's dict is never used again after the call.
- Verification.MemberRemoved: when the inviter is unset, the source removes the code from a
  document keyed `"None"`. No member's fetch reads that document, so the model drops that
  write.
- Music.Player.Disconnect: stopping the current track is not modelled (no current track is
  kept).
