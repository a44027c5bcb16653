/**
 * A party: its owner, members, allies, per-party overrides of the global
 * configuration, and per-player permission grants; with the quota,
 * protection-flag and permission resolution layered on them.
 *
 * Permission plugin lookups (the per-player claim amount and the per-player
 * bonus-limit amount) are passed in as maps; an absent entry or -1 means
 * "no permission amount", as the plugin reports it.
 */
module Party {
  import opened Common
  import opened Config

  /** The kinds of override a party can carry (PartyOverrides). */
  datatype OverrideKind =
    | LegacyClaimAmount        // pre-migration absolute quota
    | ClaimBase                // administrator base quota
    | BonusClaimChunks         // extra chunks on top of the base
    | Protection(flag: Flag)   // one boolean protection setting

  /** The typed value an override holds. */
  datatype OverrideValue = IntValue(n: int) | BoolValue(b: bool)

  /**
   * Permission names. ModifyInfo stands for the modify-party-info permission
   * string; Named carries every other permission string and never that one.
   */
  datatype Permission = ModifyInfo | Named(name: string)

  /** Quota kinds hold integers, protection kinds hold booleans. */
  predicate WellTyped(kind: OverrideKind, v: OverrideValue)
  {
    if kind.Protection? then v.BoolValue? else v.IntValue?
  }

  /** A quota override that setOverride stores as "no override". */
  predicate Elided(kind: OverrideKind, v: OverrideValue, cfg: Config)
  {
    || ((kind == LegacyClaimAmount || kind == ClaimBase) && v == IntValue(cfg.defaultPartyClaimsAmount))
    || (kind == BonusClaimChunks && v == IntValue(0))
  }

  /** No stored quota override equals the value its absence stands for. */
  ghost predicate Canonical(m: map<OverrideKind, OverrideValue>, cfg: Config)
  {
    forall k :: k in m ==> !Elided(k, m[k], cfg)
  }

  /** The override map after setOverride(kind, v). */
  function WithOverride(m: map<OverrideKind, OverrideValue>, kind: OverrideKind, v: OverrideValue, cfg: Config)
    : (r: map<OverrideKind, OverrideValue>)
    ensures kind in r <==> !Elided(kind, v, cfg)
    ensures kind in r ==> r[kind] == v
    ensures forall k :: k != kind ==> (k in r <==> k in m) && (k in r ==> r[k] == m[k])
    ensures Canonical(m, cfg) ==> Canonical(r, cfg)
  {
    if Elided(kind, v, cfg) then m - {kind} else m[kind := v]
  }

  /** Setting the same override twice is the same as setting it once. */
  lemma WithOverrideIdempotent(m: map<OverrideKind, OverrideValue>, kind: OverrideKind, v: OverrideValue, cfg: Config)
    ensures WithOverride(WithOverride(m, kind, v, cfg), kind, v, cfg) == WithOverride(m, kind, v, cfg)
  {
  }

  /** The overrides a new party starts with: five protection flags at their defaults. */
  function SeededOverrides(cfg: Config): map<OverrideKind, OverrideValue>
  {
    map[
      Protection(PlaceBlocks) := BoolValue(cfg.defaultBlockPlace),
      Protection(BreakBlocks) := BoolValue(cfg.defaultBlockBreak),
      Protection(Interact) := BoolValue(cfg.defaultBlockInteract),
      Protection(AllowEntry) := BoolValue(cfg.defaultAllowEntry),
      Protection(InteractPortal) := BoolValue(cfg.defaultInteractPortal)]
  }

  // ---------------------------------------------------------------------
  // Sums over the member list (owner first, then every member)
  // ---------------------------------------------------------------------

  /** The sum of f over a set, in any order. */
  ghost function SumOver(s: set<Uuid>, f: Uuid -> int): int
    decreases s
  {
    if s == {} then 0 else var u :| u in s; f(u) + SumOver(s - {u}, f)
  }

  /** The sum does not depend on which element is taken first. */
  lemma {:induction false} SumOverRemove(s: set<Uuid>, f: Uuid -> int, u: Uuid)
    requires u in s
    ensures SumOver(s, f) == f(u) + SumOver(s - {u}, f)
    decreases s
  {
    var y :| y in s && SumOver(s, f) == f(y) + SumOver(s - {y}, f);
    if y != u {
      SumOverRemove(s - {y}, f, u);
      SumOverRemove(s - {u}, f, y);
      assert s - {y} - {u} == s - {u} - {y};
    }
  }

  /** A sum of terms each at least c is at least c times the number of terms. */
  lemma {:induction false} SumOverAtLeast(s: set<Uuid>, f: Uuid -> int, c: int)
    requires forall u :: u in s ==> f(u) >= c
    ensures SumOver(s, f) >= c * |s|
    decreases s
  {
    if s != {} {
      var u :| u in s;
      SumOverRemove(s, f, u);
      SumOverAtLeast(s - {u}, f, c);
    }
  }

  /** A sum of equal terms c is c times the number of terms. */
  lemma {:induction false} SumOverConstant(s: set<Uuid>, f: Uuid -> int, c: int)
    requires forall u :: u in s ==> f(u) == c
    ensures SumOver(s, f) == c * |s|
    decreases s
  {
    if s != {} {
      var u :| u in s;
      SumOverRemove(s, f, u);
      SumOverConstant(s - {u}, f, c);
    }
  }

  /** One player's contribution to the base quota: the permission amount, or the default. */
  function ClaimAmountOf(cfg: Config, claimPerm: map<Uuid, int>, u: Uuid): int
  {
    var amount := GetOrDefault(claimPerm, u, -1);
    if amount != -1 then amount else cfg.defaultPartyClaimsAmount
  }

  function ClaimAmounts(cfg: Config, claimPerm: map<Uuid, int>): Uuid -> int
  {
    (u: Uuid) => ClaimAmountOf(cfg, claimPerm, u)
  }

  /** One player's contribution to the bonus limit: the larger of the permission amount and the config maximum. */
  function BonusLimitOf(cfg: Config, bonusPerm: map<Uuid, int>, u: Uuid): (r: int)
    ensures r >= cfg.maxAddChunkAmount
  {
    var maxAmount := GetOrDefault(bonusPerm, u, -1);
    if maxAmount != -1 && maxAmount > cfg.maxAddChunkAmount then maxAmount else cfg.maxAddChunkAmount
  }

  function BonusLimits(cfg: Config, bonusPerm: map<Uuid, int>): Uuid -> int
  {
    (u: Uuid) => BonusLimitOf(cfg, bonusPerm, u)
  }

  // ---------------------------------------------------------------------
  // PartyInfo
  // ---------------------------------------------------------------------

  class PartyInfo {
    const id: Uuid
    const owner: Uuid
    var memberSet: set<Uuid>
    var overrideMap: map<OverrideKind, OverrideValue>
    var partyAllies: set<Uuid>
    var playerAllies: set<Uuid>
    var permissionOverrides: map<Uuid, map<Permission, bool>>

    /** Overrides hold values of their kind's type; no holder keeps an empty grant map. */
    ghost predicate Valid()
      reads this
    {
      && (forall k :: k in overrideMap ==> WellTyped(k, overrideMap[k]))
      && (forall u :: u in permissionOverrides ==> permissionOverrides[u] != map[])
    }

    /** A new party: the five seeded protection overrides at their defaults, nothing else. */
    constructor (id: Uuid, owner: Uuid, members: set<Uuid>, cfg: Config)
      ensures Valid()
      ensures this.id == id && this.owner == owner && memberSet == members
      ensures overrideMap == SeededOverrides(cfg)
      ensures partyAllies == {} && playerAllies == {} && permissionOverrides == map[]
    {
      this.id := id;
      this.owner := owner;
      memberSet := members;
      overrideMap := map[];
      partyAllies := {};
      playerAllies := {};
      permissionOverrides := map[];
      new;
      SetOverride(Protection(PlaceBlocks), BoolValue(cfg.defaultBlockPlace), cfg);
      SetOverride(Protection(BreakBlocks), BoolValue(cfg.defaultBlockBreak), cfg);
      SetOverride(Protection(Interact), BoolValue(cfg.defaultBlockInteract), cfg);
      SetOverride(Protection(AllowEntry), BoolValue(cfg.defaultAllowEntry), cfg);
      SetOverride(Protection(InteractPortal), BoolValue(cfg.defaultInteractPortal), cfg);
    }

    predicate IsOwner(u: Uuid) { owner == u }

    predicate IsMember(u: Uuid) reads this { u in memberSet }

    predicate IsOwnerOrMember(u: Uuid) reads this { IsOwner(u) || IsMember(u) }

    predicate IsPlayerAllied(u: Uuid) reads this { u in playerAllies }

    predicate IsPartyAllied(u: Uuid) reads this { u in partyAllies }

    /** Owner plus members; the owner is counted again when it is also in memberSet. */
    function TotalMemberCount(): (n: int)
      reads this
      ensures n >= 1
    {
      1 + |memberSet|
    }

    function GetOverride(kind: OverrideKind): (r: Option<OverrideValue>)
      reads this
      ensures r.Some? <==> kind in overrideMap
      ensures r.Some? ==> r.value == overrideMap[kind]
    {
      if kind in overrideMap then Some(overrideMap[kind]) else None
    }

    /** setOverride: an override equal to its default is removed, any other replaces the old one. */
    method SetOverride(kind: OverrideKind, v: OverrideValue, cfg: Config)
      requires WellTyped(kind, v)
      modifies this
      ensures overrideMap == WithOverride(old(overrideMap), kind, v, cfg)
      ensures memberSet == old(memberSet) && partyAllies == old(partyAllies)
      ensures playerAllies == old(playerAllies) && permissionOverrides == old(permissionOverrides)
      ensures old(Valid()) ==> Valid()
    {
      if (kind == LegacyClaimAmount || kind == ClaimBase) && v.n == cfg.defaultPartyClaimsAmount {
        overrideMap := overrideMap - {kind};
        return;
      }
      if kind == BonusClaimChunks && v.n == 0 {
        overrideMap := overrideMap - {kind};
        return;
      }
      overrideMap := overrideMap[kind := v];
    }

    /** removeOverride: drops one kind of override. */
    method RemoveOverride(kind: OverrideKind)
      modifies this
      ensures overrideMap == old(overrideMap) - {kind}
      ensures memberSet == old(memberSet) && partyAllies == old(partyAllies)
      ensures playerAllies == old(playerAllies) && permissionOverrides == old(permissionOverrides)
      ensures old(Valid()) ==> Valid()
    {
      overrideMap := overrideMap - {kind};
    }

    /** addMember: a no-op once the member set has reached the configured maximum. */
    method AddMember(u: Uuid, cfg: Config)
      modifies this
      ensures memberSet == if AtCap(cfg.maxPartyMembers, |old(memberSet)|) then old(memberSet) else old(memberSet) + {u}
      ensures cfg.maxPartyMembers != -1 && |old(memberSet)| <= cfg.maxPartyMembers ==> |memberSet| <= cfg.maxPartyMembers
      ensures overrideMap == old(overrideMap) && partyAllies == old(partyAllies)
      ensures playerAllies == old(playerAllies) && permissionOverrides == old(permissionOverrides)
      ensures old(Valid()) ==> Valid()
    {
      if cfg.maxPartyMembers != -1 && |memberSet| >= cfg.maxPartyMembers {
        return;
      }
      memberSet := memberSet + {u};
    }

    /** removeMember: only the given id leaves the member set. */
    method RemoveMember(u: Uuid)
      modifies this
      ensures memberSet == old(memberSet) - {u}
      ensures overrideMap == old(overrideMap) && partyAllies == old(partyAllies)
      ensures playerAllies == old(playerAllies) && permissionOverrides == old(permissionOverrides)
      ensures old(Valid()) ==> Valid()
    {
      memberSet := memberSet - {u};
    }

    /** addPartyAllies: party and player allies share one cap. */
    method AddPartyAllies(u: Uuid, cfg: Config)
      modifies this
      ensures partyAllies == if AtCap(cfg.maxPartyAllies, |old(partyAllies)| + |old(playerAllies)|) then old(partyAllies) else old(partyAllies) + {u}
      ensures cfg.maxPartyAllies != -1 && |old(partyAllies)| + |old(playerAllies)| <= cfg.maxPartyAllies
        ==> |partyAllies| + |playerAllies| <= cfg.maxPartyAllies
      ensures playerAllies == old(playerAllies) && memberSet == old(memberSet)
      ensures overrideMap == old(overrideMap) && permissionOverrides == old(permissionOverrides)
      ensures old(Valid()) ==> Valid()
    {
      if cfg.maxPartyAllies != -1 && |partyAllies| + |playerAllies| >= cfg.maxPartyAllies {
        return;
      }
      partyAllies := partyAllies + {u};
    }

    method RemovePartyAllies(u: Uuid)
      modifies this
      ensures partyAllies == old(partyAllies) - {u}
      ensures playerAllies == old(playerAllies) && memberSet == old(memberSet)
      ensures overrideMap == old(overrideMap) && permissionOverrides == old(permissionOverrides)
      ensures old(Valid()) ==> Valid()
    {
      partyAllies := partyAllies - {u};
    }

    /** addPlayerAllies: party and player allies share one cap. */
    method AddPlayerAllies(u: Uuid, cfg: Config)
      modifies this
      ensures playerAllies == if AtCap(cfg.maxPartyAllies, |old(partyAllies)| + |old(playerAllies)|) then old(playerAllies) else old(playerAllies) + {u}
      ensures cfg.maxPartyAllies != -1 && |old(partyAllies)| + |old(playerAllies)| <= cfg.maxPartyAllies
        ==> |partyAllies| + |playerAllies| <= cfg.maxPartyAllies
      ensures partyAllies == old(partyAllies) && memberSet == old(memberSet)
      ensures overrideMap == old(overrideMap) && permissionOverrides == old(permissionOverrides)
      ensures old(Valid()) ==> Valid()
    {
      if cfg.maxPartyAllies != -1 && |partyAllies| + |playerAllies| >= cfg.maxPartyAllies {
        return;
      }
      playerAllies := playerAllies + {u};
    }

    method RemovePlayerAllies(u: Uuid)
      modifies this
      ensures playerAllies == old(playerAllies) - {u}
      ensures partyAllies == old(partyAllies) && memberSet == old(memberSet)
      ensures overrideMap == old(overrideMap) && permissionOverrides == old(permissionOverrides)
      ensures old(Valid()) ==> Valid()
    {
      playerAllies := playerAllies - {u};
    }

    // -------------------------------------------------------------------
    // Quota resolution
    // -------------------------------------------------------------------

    /**
     * getBaseClaimAmount, by precedence: base override (times the member
     * count when scaling), legacy override verbatim, the owner's permission
     * amount or the default, or with scaling the sum of that over the owner
     * and every member.
     */
    ghost function BaseClaimAmount(cfg: Config, claimPerm: map<Uuid, int>): int
      reads this
      requires Valid()
    {
      if ClaimBase in overrideMap then
        if cfg.scaleClaimLimitByMembers then overrideMap[ClaimBase].n * TotalMemberCount()
        else overrideMap[ClaimBase].n
      else if LegacyClaimAmount in overrideMap then overrideMap[LegacyClaimAmount].n
      else if !cfg.scaleClaimLimitByMembers then ClaimAmountOf(cfg, claimPerm, owner)
      else ClaimAmountOf(cfg, claimPerm, owner) + SumOver(memberSet, ClaimAmounts(cfg, claimPerm))
    }

    method GetBaseClaimAmount(cfg: Config, claimPerm: map<Uuid, int>) returns (r: int)
      requires Valid()
      ensures r == BaseClaimAmount(cfg, claimPerm)
    {
      var baseOverride := GetOverride(ClaimBase);
      if baseOverride.Some? {
        var baseValue := baseOverride.value.n;
        if cfg.scaleClaimLimitByMembers {
          return baseValue * TotalMemberCount();
        }
        return baseValue;
      }
      var legacyOverride := GetOverride(LegacyClaimAmount);
      if legacyOverride.Some? {
        return legacyOverride.value.n;
      }
      if !cfg.scaleClaimLimitByMembers {
        var amount := GetOrDefault(claimPerm, owner, -1);
        if amount != -1 {
          return amount;
        }
        return cfg.defaultPartyClaimsAmount;
      }
      ghost var f := ClaimAmounts(cfg, claimPerm);
      var total := 0;
      // the owner comes first in getAllMembers
      var amount := GetOrDefault(claimPerm, owner, -1);
      if amount != -1 {
        total := total + amount;
      } else {
        total := total + cfg.defaultPartyClaimsAmount;
      }
      var todo := memberSet;
      while todo != {}
        invariant todo <= memberSet
        invariant total + SumOver(todo, f) == ClaimAmountOf(cfg, claimPerm, owner) + SumOver(memberSet, f)
        decreases todo
      {
        var member :| member in todo;
        SumOverRemove(todo, f, member);
        amount := GetOrDefault(claimPerm, member, -1);
        if amount != -1 {
          total := total + amount;
        } else {
          total := total + cfg.defaultPartyClaimsAmount;
        }
        todo := todo - {member};
      }
      return total;
    }

    /** getBonusChunks: the bonus override, 0 when there is none. */
    function GetBonusChunks(): (r: int)
      reads this
      requires Valid()
      ensures BonusClaimChunks !in overrideMap ==> r == 0
      ensures BonusClaimChunks in overrideMap ==> overrideMap[BonusClaimChunks] == IntValue(r)
    {
      match GetOverride(BonusClaimChunks)
      case Some(v) => v.n
      case None => 0
    }

    /** getMaxBonusLimit: the config maximum, or with scaling each listed player's larger limit summed. */
    ghost function MaxBonusLimit(cfg: Config, bonusPerm: map<Uuid, int>): int
      reads this
    {
      if !cfg.scaleClaimLimitByMembers then cfg.maxAddChunkAmount
      else BonusLimitOf(cfg, bonusPerm, owner) + SumOver(memberSet, BonusLimits(cfg, bonusPerm))
    }

    method GetMaxBonusLimit(cfg: Config, bonusPerm: map<Uuid, int>) returns (r: int)
      ensures r == MaxBonusLimit(cfg, bonusPerm)
      ensures cfg.scaleClaimLimitByMembers ==> r >= cfg.maxAddChunkAmount * TotalMemberCount()
    {
      if !cfg.scaleClaimLimitByMembers {
        return cfg.maxAddChunkAmount;
      }
      ghost var f := BonusLimits(cfg, bonusPerm);
      var total := 0;
      var maxAmount := GetOrDefault(bonusPerm, owner, -1);
      if maxAmount != -1 && maxAmount > cfg.maxAddChunkAmount {
        total := total + maxAmount;
      } else {
        total := total + cfg.maxAddChunkAmount;
      }
      var todo := memberSet;
      while todo != {}
        invariant todo <= memberSet
        invariant total + SumOver(todo, f) == BonusLimitOf(cfg, bonusPerm, owner) + SumOver(memberSet, f)
        decreases todo
      {
        var member :| member in todo;
        SumOverRemove(todo, f, member);
        maxAmount := GetOrDefault(bonusPerm, member, -1);
        if maxAmount != -1 && maxAmount > cfg.maxAddChunkAmount {
          total := total + maxAmount;
        } else {
          total := total + cfg.maxAddChunkAmount;
        }
        todo := todo - {member};
      }
      SumOverAtLeast(memberSet, f, cfg.maxAddChunkAmount);
      return total;
    }

    /** getMaxClaimAmount: the resolved base plus the bonus. */
    ghost function MaxClaimAmount(cfg: Config, claimPerm: map<Uuid, int>): int
      reads this
      requires Valid()
    {
      BaseClaimAmount(cfg, claimPerm) + GetBonusChunks()
    }

    method GetMaxClaimAmount(cfg: Config, claimPerm: map<Uuid, int>) returns (r: int)
      requires Valid()
      ensures r == MaxClaimAmount(cfg, claimPerm)
    {
      var base := GetBaseClaimAmount(cfg, claimPerm);
      r := base + GetBonusChunks();
    }

    // -------------------------------------------------------------------
    // Protection flags and permissions
    // -------------------------------------------------------------------

    /** The flag getters (isBlockPlaceEnabled, ...): the override if present, else the default. */
    function FlagEnabled(cfg: Config, f: Flag): (r: bool)
      reads this
      requires Valid()
      ensures Protection(f) in overrideMap ==> overrideMap[Protection(f)] == BoolValue(r)
      ensures Protection(f) !in overrideMap ==> r == cfg.FlagDefault(f)
    {
      match GetOverride(Protection(f))
      case Some(v) => v.b
      case None => cfg.FlagDefault(f)
    }

    predicate HasGrant(u: Uuid, permission: Permission)
      reads this
    {
      u in permissionOverrides && permission in permissionOverrides[u]
    }

    /** hasPermission: owner, then explicit grant of a member or ally, then the member/ally defaults. */
    function HasPermission(u: Uuid, permission: Permission): (r: bool)
      reads this
      ensures IsOwner(u) ==> r
      ensures !IsOwner(u) && !IsMember(u) && u !in partyAllies && u !in playerAllies ==> !r
      ensures !IsOwner(u) && (IsMember(u) || u in partyAllies || u in playerAllies) && HasGrant(u, permission)
        ==> r == permissionOverrides[u][permission]
      ensures !IsOwner(u) && IsMember(u) && !HasGrant(u, permission) ==> r == (permission != ModifyInfo)
      ensures !IsOwner(u) && !IsMember(u) && !HasGrant(u, permission) ==> !r
    {
      if IsOwner(u) then true
      else if (IsMember(u) || u in partyAllies || u in playerAllies) && HasGrant(u, permission) then
        permissionOverrides[u][permission]
      else if IsMember(u) then permission != ModifyInfo
      else if u in playerAllies || u in partyAllies then false
      else false
    }

    /** hasPartyPermission: the explicit grant, otherwise false. */
    function HasPartyPermission(partyId: Uuid, permission: Permission): (r: bool)
      reads this
      ensures r <==> HasGrant(partyId, permission) && permissionOverrides[partyId][permission]
    {
      if partyId in permissionOverrides && permission in permissionOverrides[partyId] then
        permissionOverrides[partyId][permission]
      else false
    }

    method SetPermission(u: Uuid, permission: Permission, value: bool)
      modifies this
      ensures permissionOverrides == old(permissionOverrides)[u := GetOrDefault(old(permissionOverrides), u, map[])[permission := value]]
      ensures HasPartyPermission(u, permission) == value
      ensures !IsOwner(u) && (IsMember(u) || u in partyAllies || u in playerAllies) ==> HasPermission(u, permission) == value
      ensures memberSet == old(memberSet) && overrideMap == old(overrideMap)
      ensures partyAllies == old(partyAllies) && playerAllies == old(playerAllies)
      ensures old(Valid()) ==> Valid()
    {
      var perms := GetOrDefault(permissionOverrides, u, map[]);
      permissionOverrides := permissionOverrides[u := perms[permission := value]];
    }

    /** removePermission: drops one grant, and the holder's entry once it has none left. */
    method RemovePermission(u: Uuid, permission: Permission)
      modifies this
      ensures !HasGrant(u, permission)
      ensures forall v, p :: (v != u || p != permission) ==> (HasGrant(v, p) <==> old(HasGrant(v, p)))
      ensures forall v, p :: HasGrant(v, p) ==> old(HasGrant(v, p)) && permissionOverrides[v][p] == old(permissionOverrides[v][p])
      ensures memberSet == old(memberSet) && overrideMap == old(overrideMap)
      ensures partyAllies == old(partyAllies) && playerAllies == old(playerAllies)
      ensures old(Valid()) ==> Valid()
    {
      if u in permissionOverrides {
        var perms := permissionOverrides[u] - {permission};
        assert forall p :: p in permissionOverrides[u] && p != permission ==> p in perms;
        if perms == map[] {
          permissionOverrides := permissionOverrides - {u};
        } else {
          permissionOverrides := permissionOverrides[u := perms];
        }
      }
    }
  }

  /** Without scaling, overrides or permission amounts, a party's quota is the configured default plus its bonus. */
  lemma DefaultQuota(party: PartyInfo, cfg: Config)
    requires party.Valid()
    requires !cfg.scaleClaimLimitByMembers
    requires ClaimBase !in party.overrideMap && LegacyClaimAmount !in party.overrideMap
    ensures party.MaxClaimAmount(cfg, map[]) == cfg.defaultPartyClaimsAmount + party.GetBonusChunks()
  {
  }

  /** With scaling and no permission amounts, the quota is the default once per listed player (owner counted again if a member). */
  lemma ScaledDefaultQuota(party: PartyInfo, cfg: Config)
    requires party.Valid()
    requires cfg.scaleClaimLimitByMembers
    requires ClaimBase !in party.overrideMap && LegacyClaimAmount !in party.overrideMap
    ensures party.BaseClaimAmount(cfg, map[]) == cfg.defaultPartyClaimsAmount * party.TotalMemberCount()
  {
    SumOverConstant(party.memberSet, ClaimAmounts(cfg, map[]), cfg.defaultPartyClaimsAmount);
  }

  /** A new party resolves every protection flag to its default, has no bonus, and no quota override. */
  lemma SeededPartyDefaults(party: PartyInfo, cfg: Config)
    requires party.overrideMap == SeededOverrides(cfg)
    ensures party.Valid() <==> forall u :: u in party.permissionOverrides ==> party.permissionOverrides[u] != map[]
    ensures party.Valid() ==> forall f :: party.FlagEnabled(cfg, f) == cfg.FlagDefault(f)
    ensures party.Valid() ==> party.GetBonusChunks() == 0
    ensures ClaimBase !in party.overrideMap && LegacyClaimAmount !in party.overrideMap
  {
  }
}
