# Invite-role bot: invite attribution model

A Dafny model of the invite-attribution core of a Discord bot that gives a new
member the role linked to the invite they joined with. The bot keeps two pieces
of process-wide state:

- the usage cache, guild id → (invite code → last-seen use count), filled when
  the bot becomes ready and replaced on every member join;
- the role mapping, invite code → role id, in insertion order, changed by the
  create-invite and clear-invites commands and shown by the list-invites command.

A join is attributed to the first invite in the platform's listing order whose
use count is above the cached one. An invite the cache does not know counts as
0. After a successful listing, the guild's cache is replaced by the listing
whether or not an invite matched. If the matched invite has a mapped role, the
bot looks the role up in the guild and adds it.

`invite_model.dfy` (module `InviteModel`) holds the pure part: datatypes for
invites, listings, grants and join outcomes, plus the functions for the
code→uses projection, the first-increase search, attribution, the cache after
a join and the ready-time fill, and the lemmas about them. `invite_bot.dfy` (module `InviteBot`) holds the class
`InviteTracker`. Its fields are the two dictionaries and the mapping's key order.
The two event handlers, `Initialize` and `OnMemberJoin`, are proved against
`InitCache`, `JoinCache` and `JoinResult`. The three commands state their
effect on the mapping directly. The search loop `FindUsedInvite` is a separate
method proved against `UsedInvite`. The methods `MappingOverwriteExample`,
`FillExample` and `JoinExample` are worked scenarios: they run the handlers on
concrete inputs and assert the resulting outcomes and state.

The platform calls are inputs:
- the invite listing is a `Listing` argument: the invites, `Forbidden` (the
  missing-permission error both handlers catch), or `Failed` (any other request
  error). The handlers do not catch `Failed`, so it ends them. In the ready-time
  fill, `Failed` leaves every later guild out of the cache. In the join
  handler, it leaves the state unchanged;
- the guild's existing roles (`get_role`) are a `set<RoleId>` argument;
- whether `add_roles` is permitted is a `bool` argument;
- the code of a newly created invite is an argument of `CreateMapping`.

The dict comprehension that builds a guild's map keeps the later count when a
code appears twice. `Projection` models that rule, so no lemma needs distinct
codes except `UnchangedListingNoMatch`, where a duplicate code really changes
the answer.

## Model

| member | source | states |
|---|---|---|
| InviteModel.Projection | bot.py:111 | the projected map's keys are exactly the listing's codes (no stale entry, nothing merged), and each code maps to the count of its last listing entry |
| InviteModel.FirstIncrease | bot.py:104-108 | the index found is in range, its entry's count is above the cached count (absent = 0), no earlier entry's is, and None means no entry's count rose |
| InviteModel.FirstIncreaseIsFirst | bot.py:104-108 | the search selects index i exactly when entry i rose and no earlier entry rose |
| InviteBot.FindUsedInvite | bot.py:103-108 | the loop returns the first risen invite, the one `UsedInvite` specifies, and returns nothing exactly when no entry's count rose |
| InviteModel.AttributionIsFirstMappedIncrease | bot.py:104-114 | a join yields grant (code, role) exactly when code belongs to the first risen entry and the role map sends code to role |
| InviteModel.NoIncreaseNoGrant | bot.py:104-113 | if no count rose, no invite is selected and no role is granted |
| InviteModel.UncachedGuildPicksFirstUsed | bot.py:101-108 | for a guild absent from the cache, the selected invite is the first one with a positive count |
| InviteModel.GrantUsesMappedRole | bot.py:113-114 | a grant carries `roleMap[code]` for its code, and there is no grant exactly when nothing matched or the matched code is unmapped |
| InviteModel.ClearedMapGrantsNothing | bot.py:113 | with an empty role map, a join yields no grant and ends unattributed |
| InviteModel.UnchangedListingNoMatch | bot.py:104-111 | a listing with distinct codes whose counts equal the cache selects nothing and leaves the cache as it was |
| InviteModel.JoinCacheReplaces | bot.py:95-111 | a refused or failed listing leaves the cache unchanged; a successful one sets the guild's map to exactly the listing's codes; other guilds are untouched |
| InviteModel.GrantedExactlyWhenAttributed | bot.py:113-123 | a role is granted exactly when the join is attributed to a mapped invite, the role exists in the guild and adding it is allowed; the listing-refused and listing-failed outcomes happen exactly on a refused and a failed listing |
| InviteModel.Reached | bot.py:42-47 | the guilds the fill gets through are the prefix of the guild list before the first listing that fails with an error other than a refusal |
| InviteModel.InitCacheAt | bot.py:42-48 | after the ready-time fill a guild holds the projection of its last successful listing before the first failed one; a guild with no such listing keeps its previous entry or stays absent |
| InviteModel.FailedListingEndsFill | bot.py:43-47 | a listing error other than a refusal ends the fill: the guilds after it change nothing |
| InviteModel.InitCacheIdempotent | bot.py:42-48 | filling the cache twice from the same listings gives the same cache as filling it once |
| InviteModel.FirstJoinOnEmptyCache | bot.py:101-114 | on an empty cache, a listing [X:1] with X mapped to role 7 grants role 7 through X, and the cache becomes {X:1} |
| InviteModel.FirstMatchWins | bot.py:104-108 | with cache {A:1, B:2} and listing [A:1, B:3, C:1], B is selected, not the later new invite C |
| InviteModel.NewInviteWithHistoryLooksUsed | bot.py:104-108 | a new invite that already has uses (Y:4 against cache {X:1}) is selected as used |
| InviteBot.InviteTracker.constructor | bot.py:33-35 | both dictionaries start empty |
| InviteBot.InviteTracker.Initialize | bot.py:42-48 | the cache becomes the ready-time fill of the old cache over the guilds' listings; the fill completes exactly when no listing failed with an error other than a refusal; the role mapping is unchanged |
| InviteBot.InviteTracker.OnMemberJoin | bot.py:93-123 | the new cache is the old one with the guild's map replaced by the listing's projection, or unchanged on a refused or failed listing; the role mapping is unchanged; the outcome is the attribution against the old cache followed by role lookup and grant |
| InviteBot.InviteTracker.CreateMapping | bot.py:61 | an upsert: the code maps to the role, every other mapping is unchanged, an overwritten code keeps its place in the order, a new code goes last, and the cache is untouched |
| InviteBot.InviteTracker.ListMappings | bot.py:70-78 | every mapping appears once in insertion order with its role id and whether the guild still has that role; the list is empty exactly when there is no mapping |
| InviteBot.InviteTracker.ClearAll | bot.py:87 | the role mapping and its order become empty; the cache is untouched |

## Left out

- Discord gateway, event dispatch, bot and intents setup (bot.py:24-30): framework plumbing. The handlers are modelled as atomic sequential steps.
- The interleaving of concurrent joins at each `await`: this is about concurrency, which the sequential model does not capture.
- `guild.invites()`, `ctx.channel.create_invite`, `guild.get_role` and `member.add_roles`: these are network calls. They appear only as inputs: the listing, its refusal or another request error, the new invite code, the guild's role set, and whether adding a role is allowed.
- The `max_uses` and `max_age` arguments of the create-invite command: they only go to the invite-creation call.
- An error from `member.add_roles` other than the permission error ends the join handler after the cache update, as the permission error's early return does. The model gives both the `GrantForbidden` outcome, so the two cannot be told apart. The state after the join is the same either way.
- Logging, the user-facing messages and their formatting, including the "Deleted Role" text. The listing model keeps only whether the role exists.
- Permission and guild-only decorators on the commands: the library enforces them.
- Token loading and `main` (bot.py:127-136): process bootstrap.
- Invite use counts are modelled as unbounded naturals. The listing is assumed to always report a count.
