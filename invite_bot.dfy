/** The bot's process-wide state and its event and command handlers: the
    per-guild invite usage cache, the invite-to-role mapping with its
    insertion order, the ready-time cache fill, the join handler and the
    create/list/clear commands. Each handler runs as one atomic step. */
module InviteBot {
  import opened InviteModel

  /** One line of the mapping listing: the code, its role, and whether the
      guild still has that role (the listing shows a deleted role otherwise). */
  datatype MappingEntry = MappingEntry(code: Code, roleId: RoleId, roleExists: bool)

  /** The join handler's search loop: the first listing entry whose count is
      above the cached one (an unknown code counts as 0). */
  method FindUsedInvite(cached: UsageMap, invites: seq<Invite>) returns (used: Option<Invite>)
    ensures used == UsedInvite(cached, invites)
    ensures used.None? <==> forall i | 0 <= i < |invites| :: !Increased(cached, invites[i])
  {
    used := None;
    var i := 0;
    while i < |invites|
      invariant 0 <= i <= |invites|
      invariant forall j | 0 <= j < i :: !Increased(cached, invites[j])
    {
      var inv := invites[i];
      if PriorUses(cached, inv.code) < inv.uses {
        used := Some(inv);
        FirstIncreaseIsFirst(cached, invites, i);
        return;
      }
      i := i + 1;
    }
  }

  class InviteTracker {
    /** Last-seen invite counts per guild. */
    var inviteUses: UsageCache
    /** The role each bot-created invite grants. */
    var roleMap: map<Code, RoleId>
    /** The keys of roleMap in insertion order (a dict keeps this order). */
    var roleOrder: seq<Code>

    ghost predicate Valid()
      reads this
    {
      && (forall i, j | 0 <= i < j < |roleOrder| :: roleOrder[i] != roleOrder[j])
      && (set c | c in roleOrder) == roleMap.Keys
    }

    constructor ()
      ensures Valid()
      ensures inviteUses == map[] && roleMap == map[] && roleOrder == []
    {
      inviteUses, roleMap, roleOrder := map[], map[], [];
    }

    /** Ready-time fill: each guild whose listing succeeds gets its cache
        replaced by the listing's projection; refused guilds are skipped; any
        other listing error ends the fill, and completed is false then. */
    method Initialize(guilds: seq<(GuildId, Listing)>) returns (completed: bool)
      requires Valid()
      modifies this`inviteUses
      ensures Valid()
      ensures inviteUses == InitCache(old(inviteUses), guilds)
      ensures completed <==> forall k | 0 <= k < |guilds| :: !guilds[k].1.Failed?
      ensures roleMap == old(roleMap) && roleOrder == old(roleOrder)
    {
      var i := 0;
      while i < |guilds|
        invariant 0 <= i <= |guilds|
        invariant InitCache(inviteUses, guilds[i..]) == InitCache(old(inviteUses), guilds)
        invariant forall k | 0 <= k < i :: !guilds[k].1.Failed?
      {
        var (guild, listing) := guilds[i];
        assert guilds[i..][1..] == guilds[i + 1..];
        match listing {
          case Failed =>
            return false;
          case Forbidden =>
          case Listed(invites) =>
            inviteUses := inviteUses[guild := Projection(invites)];
        }
        i := i + 1;
      }
      completed := true;
    }

    /** Join handler: a refused or failed listing changes nothing; otherwise the join is
        attributed to the first invite whose count rose, the guild's cache is
        replaced by the listing, and the mapped role, if any, is looked up in
        the guild and granted. */
    method OnMemberJoin(guild: GuildId, listing: Listing, guildRoles: set<RoleId>,
                        grantAllowed: bool) returns (outcome: JoinOutcome)
      requires Valid()
      modifies this`inviteUses
      ensures Valid()
      ensures inviteUses == JoinCache(old(inviteUses), guild, listing)
      ensures roleMap == old(roleMap) && roleOrder == old(roleOrder)
      ensures outcome == JoinResult(old(inviteUses), guild, listing, roleMap, guildRoles, grantAllowed)
    {
      if listing.Forbidden? {
        return ListingForbidden;
      }
      if listing.Failed? {
        return ListingFailed;
      }
      var invites := listing.invites;
      var cached := CachedUses(inviteUses, guild);
      var used := FindUsedInvite(cached, invites);
      inviteUses := inviteUses[guild := Projection(invites)];
      if used.Some? && used.value.code in roleMap {
        var grant := Grant(used.value.code, roleMap[used.value.code]);
        if grant.roleId !in guildRoles {
          return RoleNotFound(grant);
        }
        if !grantAllowed {
          return GrantForbidden(grant);
        }
        outcome := RoleGranted(grant);
      } else {
        outcome := Unattributed;
      }
    }

    /** Create-invite command: map the new invite's code to the role,
        overwriting an earlier mapping in place; the usage cache is untouched. */
    method CreateMapping(code: Code, roleId: RoleId)
      requires Valid()
      modifies this`roleMap, this`roleOrder
      ensures Valid()
      ensures roleMap == old(roleMap)[code := roleId]
      ensures roleOrder == if code in old(roleMap) then old(roleOrder) else old(roleOrder) + [code]
      ensures inviteUses == old(inviteUses)
    {
      if code !in roleMap {
        roleOrder := roleOrder + [code];
      }
      roleMap := roleMap[code := roleId];
    }

    /** List command: every mapping once, in insertion order, with whether
        the guild still has the role; empty exactly when there is no mapping. */
    method ListMappings(guildRoles: set<RoleId>) returns (entries: seq<MappingEntry>)
      requires Valid()
      ensures |entries| == |roleOrder|
      ensures forall i | 0 <= i < |entries| ::
                entries[i].code == roleOrder[i] && entries[i].code in roleMap &&
                entries[i].roleId == roleMap[entries[i].code] &&
                entries[i].roleExists == (entries[i].roleId in guildRoles)
      ensures (set e | e in entries :: e.code) == roleMap.Keys
      ensures entries == [] <==> roleMap == map[]
    {
      entries := [];
      var i := 0;
      while i < |roleOrder|
        invariant 0 <= i <= |roleOrder|
        invariant |entries| == i
        invariant forall k | 0 <= k < i ::
                    entries[k].code == roleOrder[k] && entries[k].code in roleMap &&
                    entries[k].roleId == roleMap[entries[k].code] &&
                    entries[k].roleExists == (entries[k].roleId in guildRoles)
      {
        var code := roleOrder[i];
        assert code in set c | c in roleOrder;
        var roleId := roleMap[code];
        entries := entries + [MappingEntry(code, roleId, roleId in guildRoles)];
        i := i + 1;
      }
      assert (set e | e in entries :: e.code) == (set c | c in roleOrder) by {
        forall c | c in roleOrder ensures c in set e | e in entries :: e.code {
          var k :| 0 <= k < |roleOrder| && roleOrder[k] == c;
          assert entries[k] in entries;
        }
      }
      if roleOrder != [] {
        assert roleOrder[0] in set c | c in roleOrder;
      }
    }

    /** Clear command: drop every mapping; the usage cache is untouched. */
    method ClearAll()
      modifies this`roleMap, this`roleOrder
      ensures Valid()
      ensures roleMap == map[] && roleOrder == []
      ensures inviteUses == old(inviteUses)
    {
      roleMap, roleOrder := map[], [];
    }
  }

  /** Overwriting a mapping keeps one entry with the newer role. */
  method MappingOverwriteExample()
  {
    var bot := new InviteTracker();
    bot.CreateMapping("X", 1);
    bot.CreateMapping("X", 2);
    var entries := bot.ListMappings({2});
    assert entries == [MappingEntry("X", 2, true)];
    bot.ClearAll();
    entries := bot.ListMappings({2});
    assert entries == [];
  }

  /** The ready-time fill skips a refused guild and stops at a failed one:
      guild 3, listed after the failure, stays out of the cache. */
  method FillExample()
  {
    var bot := new InviteTracker();
    var completed := bot.Initialize([(1, Listed([Invite("X", 1)])), (2, Forbidden),
                                      (4, Failed), (3, Listed([Invite("Y", 2)]))]);
    assert !completed;
    assert bot.inviteUses == map[1 := map["X" := 1]];
  }

  /** A refused listing leaves both maps alone; a later join on a guild
      that was never cached picks the first invite with uses. */
  method JoinExample()
  {
    var bot := new InviteTracker();
    bot.CreateMapping("X", 7);
    var outcome := bot.OnMemberJoin(1, Forbidden, {7}, true);
    assert outcome == ListingForbidden && bot.inviteUses == map[];
    outcome := bot.OnMemberJoin(1, Listed([Invite("X", 1)]), {7}, true);
    FirstJoinOnEmptyCache();
    assert outcome == RoleGranted(Grant("X", 7));
    assert bot.inviteUses == map[1 := map["X" := 1]];
  }
}
