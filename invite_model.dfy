/** Pure part of the invite-role bot: invite snapshots, the per-guild usage
    cache, the first-increase rule that attributes a join to an invite, and
    the bulk cache fill done when the bot becomes ready. */
module InviteModel {

  datatype Option<+T> = None | Some(value: T)

  type Code = string
  type GuildId = int
  type RoleId = int

  /** One entry of a guild's invite listing: the invite code and its use count. */
  datatype Invite = Invite(code: Code, uses: nat)

  /** The outcome of asking the platform for a guild's invites: the listing
      in the order the platform returns it, a missing-permission failure
      (which the handlers catch), or any other request error (which they do
      not catch, so it ends the handler). */
  datatype Listing = Listed(invites: seq<Invite>) | Forbidden | Failed

  /** What a join is attributed to: the invite used and the role mapped to it. */
  datatype Grant = Grant(code: Code, roleId: RoleId)

  /** What handling one member join ends in. */
  datatype JoinOutcome =
    | ListingForbidden          // the invite listing was refused; nothing changed
    | ListingFailed             // the listing raised another error out of the handler; nothing changed
    | Unattributed              // no invite's count rose, or the invite has no mapped role
    | RoleNotFound(grant: Grant)   // the mapped role no longer exists in the guild
    | GrantForbidden(grant: Grant) // adding the role was refused
    | RoleGranted(grant: Grant)

  type UsageMap = map<Code, nat>
  type UsageCache = map<GuildId, UsageMap>

  /** s[i] is the last record in s with its code, so it is the one a dict
      comprehension over s keeps. */
  ghost predicate LastOccurrence(s: seq<Invite>, i: int)
    requires 0 <= i < |s|
  {
    forall j | i < j < |s| :: s[j].code != s[i].code
  }

  ghost predicate DistinctCodes(s: seq<Invite>)
  {
    forall i, j | 0 <= i < j < |s| :: s[i].code != s[j].code
  }

  /** The code-to-uses map built from a listing: every code of the listing is
      a key and nothing else is, and a code listed twice keeps its later count. */
  function Projection(s: seq<Invite>): (m: UsageMap)
    ensures m.Keys == set i | 0 <= i < |s| :: s[i].code
    ensures forall i | 0 <= i < |s| && LastOccurrence(s, i) :: m[s[i].code] == s[i].uses
  {
    if s == [] then map[]
    else
      var last, init := s[|s| - 1], s[..|s| - 1];
      assert forall i | 0 <= i < |init| :: init[i] == s[i];
      assert (set i | 0 <= i < |s| :: s[i].code)
          == (set i | 0 <= i < |init| :: init[i].code) + {last.code};
      Projection(init)[last.code := last.uses]
  }

  /** The cached count of an invite, with an unknown invite counting as 0. */
  function PriorUses(cached: UsageMap, code: Code): nat
  {
    if code in cached then cached[code] else 0
  }

  /** The listing entry shows more uses than the cache remembers. */
  predicate Increased(cached: UsageMap, inv: Invite)
  {
    PriorUses(cached, inv.code) < inv.uses
  }

  /** The cached usage map of a guild; a guild never cached reads as empty. */
  function CachedUses(cache: UsageCache, guild: GuildId): UsageMap
  {
    if guild in cache then cache[guild] else map[]
  }

  /** Index of the first entry of s whose count rose, if any. */
  function FirstIncrease(cached: UsageMap, s: seq<Invite>): (r: Option<nat>)
    ensures r.Some? ==> r.value < |s| && Increased(cached, s[r.value])
    ensures r.Some? ==> forall j | 0 <= j < r.value :: !Increased(cached, s[j])
    ensures r.None? ==> forall j | 0 <= j < |s| :: !Increased(cached, s[j])
  {
    if s == [] then None
    else if Increased(cached, s[0]) then Some(0)
    else
      match FirstIncrease(cached, s[1..])
      case None => None
      case Some(k) => Some(k + 1)
  }

  /** The invite a join is attributed to: the first one whose count rose. */
  function UsedInvite(cached: UsageMap, s: seq<Invite>): Option<Invite>
  {
    match FirstIncrease(cached, s)
    case None => None
    case Some(i) => Some(s[i])
  }

  /** The role grant for a join: the used invite and its mapped role, when it has one. */
  function Attribution(cached: UsageMap, s: seq<Invite>, roleMap: map<Code, RoleId>): Option<Grant>
  {
    match UsedInvite(cached, s)
    case None => None
    case Some(inv) =>
      if inv.code in roleMap then Some(Grant(inv.code, roleMap[inv.code])) else None
  }

  /** The usage cache after a join: a refused or failed listing leaves it
      alone, a successful one replaces the guild's map by the listing's
      projection. */
  function JoinCache(cache: UsageCache, guild: GuildId, listing: Listing): UsageCache
  {
    match listing
    case Forbidden => cache
    case Failed => cache
    case Listed(s) => cache[guild := Projection(s)]
  }

  /** How a join ends, given the guild's existing roles and whether the bot
      may add roles. */
  function JoinResult(cache: UsageCache, guild: GuildId, listing: Listing,
                      roleMap: map<Code, RoleId>, guildRoles: set<RoleId>,
                      grantAllowed: bool): JoinOutcome
  {
    match listing
    case Forbidden => ListingForbidden
    case Failed => ListingFailed
    case Listed(s) =>
      match Attribution(CachedUses(cache, guild), s, roleMap)
      case None => Unattributed
      case Some(g) =>
        if g.roleId !in guildRoles then RoleNotFound(g)
        else if !grantAllowed then GrantForbidden(g)
        else RoleGranted(g)
  }

  /** The cache after the ready-time fill over the guilds in order: a listed
      guild gets the listing's projection, a refused one is skipped, and a
      failed listing ends the fill, leaving the later guilds unvisited. */
  function InitCache(cache: UsageCache, guilds: seq<(GuildId, Listing)>): UsageCache
    decreases |guilds|
  {
    if guilds == [] then cache
    else
      match guilds[0].1
      case Failed => cache
      case Forbidden => InitCache(cache, guilds[1..])
      case Listed(s) => InitCache(cache[guilds[0].0 := Projection(s)], guilds[1..])
  }

  /** The guilds the fill gets through: those before the first failed listing. */
  function Reached(guilds: seq<(GuildId, Listing)>): (r: seq<(GuildId, Listing)>)
    ensures |r| <= |guilds| && r == guilds[..|r|]
    ensures forall i | 0 <= i < |r| :: !r[i].1.Failed?
    ensures |r| < |guilds| ==> guilds[|r|].1.Failed?
  {
    if guilds == [] || guilds[0].1.Failed? then []
    else [guilds[0]] + Reached(guilds[1..])
  }

  /** The listing of the last successful fetch for a guild, if any. */
  function LastListing(guilds: seq<(GuildId, Listing)>, guild: GuildId): Option<seq<Invite>>
  {
    if guilds == [] then None
    else
      match LastListing(guilds[1..], guild)
      case Some(s) => Some(s)
      case None =>
        if guilds[0].0 == guild && guilds[0].1.Listed? then Some(guilds[0].1.invites) else None
  }

  // ---------------------------------------------------------------------------
  // Attribution
  // ---------------------------------------------------------------------------

  /** A join is attributed to the invite at index i exactly when s[i] is the
      first entry whose count rose. */
  lemma FirstIncreaseIsFirst(cached: UsageMap, s: seq<Invite>, i: nat)
    requires i < |s|
    ensures FirstIncrease(cached, s) == Some(i) <==>
            Increased(cached, s[i]) && forall j | 0 <= j < i :: !Increased(cached, s[j])
  {
  }

  /** The grant produced for a join is g exactly when some entry is the first
      whose count rose, it has g's code, and the role map sends that code to
      g's role. */
  lemma AttributionIsFirstMappedIncrease(cached: UsageMap, s: seq<Invite>,
                                         roleMap: map<Code, RoleId>, g: Grant)
    ensures Attribution(cached, s, roleMap) == Some(g) <==>
            exists i | 0 <= i < |s| ::
              && Increased(cached, s[i])
              && (forall j | 0 <= j < i :: !Increased(cached, s[j]))
              && s[i].code == g.code
              && g.code in roleMap && roleMap[g.code] == g.roleId
  {
    var r := FirstIncrease(cached, s);
    if r.Some? {
      var i := r.value;
      forall k | 0 <= k < |s| && Increased(cached, s[k]) &&
                 (forall j | 0 <= j < k :: !Increased(cached, s[j]))
        ensures k == i
      {
        FirstIncreaseIsFirst(cached, s, k);
      }
    }
  }

  /** When no count rose, no invite is selected and no role is granted. */
  lemma NoIncreaseNoGrant(cached: UsageMap, s: seq<Invite>, roleMap: map<Code, RoleId>)
    requires forall i | 0 <= i < |s| :: !Increased(cached, s[i])
    ensures UsedInvite(cached, s) == None
    ensures Attribution(cached, s, roleMap) == None
  {
  }

  /** A guild missing from the cache attributes a join to the first invite
      with a positive count. */
  lemma UncachedGuildPicksFirstUsed(cache: UsageCache, guild: GuildId, s: seq<Invite>, i: nat)
    requires guild !in cache
    requires i < |s|
    ensures UsedInvite(CachedUses(cache, guild), s) == Some(s[i]) <==>
            exists k | 0 <= k < |s| ::
              s[k] == s[i] && s[k].uses > 0 && forall j | 0 <= j < k :: s[j].uses == 0
  {
    var cached := CachedUses(cache, guild);
    assert cached == map[];
    var r := FirstIncrease(cached, s);
    if r.Some? {
      forall k | 0 <= k < |s| && s[k].uses > 0 && (forall j | 0 <= j < k :: s[j].uses == 0)
        ensures k == r.value
      {
        FirstIncreaseIsFirst(cached, s, k);
      }
    }
  }

  /** A grant always carries the role the role map holds for its code. */
  lemma GrantUsesMappedRole(cached: UsageMap, s: seq<Invite>, roleMap: map<Code, RoleId>)
    ensures Attribution(cached, s, roleMap).Some? ==>
            var g := Attribution(cached, s, roleMap).value;
            g.code in roleMap && roleMap[g.code] == g.roleId
    ensures Attribution(cached, s, roleMap).None? <==>
            UsedInvite(cached, s).None? || UsedInvite(cached, s).value.code !in roleMap
  {
  }

  /** With an empty role map (after clearing it) no join yields a role. */
  lemma ClearedMapGrantsNothing(cache: UsageCache, guild: GuildId, s: seq<Invite>,
                                guildRoles: set<RoleId>, grantAllowed: bool)
    ensures Attribution(CachedUses(cache, guild), s, map[]) == None
    ensures JoinResult(cache, guild, Listed(s), map[], guildRoles, grantAllowed) == Unattributed
  {
  }

  /** A listing with the same counts as the cache (distinct codes, as the
      platform assigns them) is attributed to nothing, and the cache stays
      the same after the join. */
  lemma UnchangedListingNoMatch(cache: UsageCache, guild: GuildId, s: seq<Invite>)
    requires DistinctCodes(s)
    requires CachedUses(cache, guild) == Projection(s)
    requires guild in cache
    ensures UsedInvite(CachedUses(cache, guild), s) == None
    ensures JoinCache(cache, guild, Listed(s)) == cache
  {
    forall i | 0 <= i < |s| ensures !Increased(Projection(s), s[i]) {
      assert LastOccurrence(s, i);
    }
  }

  // ---------------------------------------------------------------------------
  // Joins
  // ---------------------------------------------------------------------------

  /** After a join with a successful listing the guild's cache is exactly the
      listing's projection (no entry left from before), and the other guilds
      are untouched; a refused listing changes nothing. */
  lemma JoinCacheReplaces(cache: UsageCache, guild: GuildId, listing: Listing, c: Code)
    ensures !listing.Listed? ==> JoinCache(cache, guild, listing) == cache
    ensures listing.Listed? ==>
              guild in JoinCache(cache, guild, listing) &&
              (c in JoinCache(cache, guild, listing)[guild] <==>
                 exists i | 0 <= i < |listing.invites| :: listing.invites[i].code == c)
    ensures forall h | h != guild ::
              (h in JoinCache(cache, guild, listing) <==> h in cache) &&
              (h in cache ==> JoinCache(cache, guild, listing)[h] == cache[h])
  {
    if listing.Listed? {
      var s := listing.invites;
      if c in Projection(s) {
        assert c in set i | 0 <= i < |s| :: s[i].code;
      }
    }
  }

  /** A role is granted exactly when the join is attributed to a mapped
      invite, the role still exists, and adding it is allowed. */
  lemma GrantedExactlyWhenAttributed(cache: UsageCache, guild: GuildId, listing: Listing,
                                     roleMap: map<Code, RoleId>, guildRoles: set<RoleId>,
                                     grantAllowed: bool, g: Grant)
    ensures JoinResult(cache, guild, listing, roleMap, guildRoles, grantAllowed) == RoleGranted(g) <==>
            && listing.Listed?
            && Attribution(CachedUses(cache, guild), listing.invites, roleMap) == Some(g)
            && g.roleId in guildRoles
            && grantAllowed
    ensures JoinResult(cache, guild, listing, roleMap, guildRoles, grantAllowed) == ListingForbidden <==>
            listing.Forbidden?
    ensures JoinResult(cache, guild, listing, roleMap, guildRoles, grantAllowed) == ListingFailed <==>
            listing.Failed?
  {
  }

  // ---------------------------------------------------------------------------
  // Ready-time cache fill
  // ---------------------------------------------------------------------------

  /** After the fill, a guild holds the projection of its last successful
      listing before the first failed one; a guild with no such listing
      keeps what it had, or stays absent. */
  lemma {:induction false} InitCacheAt(cache: UsageCache, guilds: seq<(GuildId, Listing)>, g: GuildId)
    ensures var last := LastListing(Reached(guilds), g);
            g in InitCache(cache, guilds) <==> last.Some? || g in cache
    ensures var last := LastListing(Reached(guilds), g);
            last.Some? ==> InitCache(cache, guilds)[g] == Projection(last.value)
    ensures var last := LastListing(Reached(guilds), g);
            last.None? && g in cache ==> InitCache(cache, guilds)[g] == cache[g]
    decreases |guilds|
  {
    if guilds != [] && !guilds[0].1.Failed? {
      var next := if guilds[0].1.Listed? then cache[guilds[0].0 := Projection(guilds[0].1.invites)]
                  else cache;
      InitCacheAt(next, guilds[1..], g);
      var r := Reached(guilds);
      assert r[1..] == Reached(guilds[1..]);
    }
  }

  /** A listing error other than a refusal ends the fill: the guilds after it
      leave the cache as the guilds before it made it. */
  lemma {:induction false} FailedListingEndsFill(cache: UsageCache, before: seq<(GuildId, Listing)>,
                                                 g: GuildId, after: seq<(GuildId, Listing)>)
    ensures InitCache(cache, before + [(g, Failed)] + after) == InitCache(cache, before)
    decreases |before|
  {
    var guilds := before + [(g, Failed)] + after;
    if before == [] {
      assert guilds[0].1 == Failed;
    } else if !before[0].1.Failed? {
      var next := if before[0].1.Listed? then cache[before[0].0 := Projection(before[0].1.invites)]
                  else cache;
      assert guilds[0] == before[0];
      assert guilds[1..] == before[1..] + [(g, Failed)] + after;
      FailedListingEndsFill(next, before[1..], g, after);
    } else {
      assert guilds[0] == before[0];
    }
  }

  /** Filling the cache twice from the same listings gives the same cache as
      filling it once. */
  lemma {:induction false} InitCacheIdempotent(cache: UsageCache, guilds: seq<(GuildId, Listing)>)
    ensures InitCache(InitCache(cache, guilds), guilds) == InitCache(cache, guilds)
  {
    var once := InitCache(cache, guilds);
    var twice := InitCache(once, guilds);
    forall g ensures (g in twice <==> g in once) && (g in once ==> twice[g] == once[g]) {
      InitCacheAt(cache, guilds, g);
      InitCacheAt(once, guilds, g);
    }
  }

  // ---------------------------------------------------------------------------
  // Worked cases
  // ---------------------------------------------------------------------------

  /** An empty cache and a first use of invite X mapped to role 7. */
  lemma FirstJoinOnEmptyCache()
    ensures Attribution(map[], [Invite("X", 1)], map["X" := 7]) == Some(Grant("X", 7))
    ensures Projection([Invite("X", 1)]) == map["X" := 1]
  {
  }

  /** The first risen entry in listing order wins: B rose from 2 to 3, the
      new invite C comes after it. */
  lemma FirstMatchWins()
    ensures UsedInvite(map["A" := 1, "B" := 2],
                       [Invite("A", 1), Invite("B", 3), Invite("C", 1)]) == Some(Invite("B", 3))
  {
  }

  /** An invite first seen with earlier uses counts as used: Y is new with 4
      uses, so the join is attributed to Y although X did not move. */
  lemma NewInviteWithHistoryLooksUsed()
    ensures UsedInvite(map["X" := 1], [Invite("X", 1), Invite("Y", 4)]) == Some(Invite("Y", 4))
  {
  }
}
