/**
 * The claim and party registry (ClaimManager): which party owns which chunk
 * in each dimension, the perimeter reservations, the per-party claim-count
 * cache, the player-to-party index, pending invites and admin overrides.
 *
 * The registry's invariant (ClaimManager.Valid) is that every claim is filed
 * under its own coordinates, that the count cache holds, for every party
 * that owns chunks, exactly the number of chunks it owns (absent meaning 0),
 * and that every party is filed under its own id. Every operation below
 * preserves it.
 */
module Claims {
  import opened Common
  import opened Config
  import opened Party
  import opened Perimeter

  type Chunks = map<string, ChunkDimension>

  type Reservations = map<string, ReservedDimension>

  datatype PartyInvite = PartyInvite(recipient: Uuid, sender: Uuid, party: Uuid)

  // ---------------------------------------------------------------------
  // Ownership and the count cache
  // ---------------------------------------------------------------------

  /** Every (dimension, coordinate) that party p owns. */
  ghost function Owned(chunks: Chunks, p: Uuid): set<(string, Coord)>
  {
    set d, c | d in chunks && c in chunks[d] && chunks[d][c].partyOwner == p :: (d, c)
  }

  /** The count cache agrees with ownership: an entry exactly for each owning party, holding its count. */
  ghost predicate CountsAgree(counts: map<Uuid, int>, chunks: Chunks)
  {
    forall p {:trigger Owned(chunks, p)} ::
      && (p in counts <==> Owned(chunks, p) != {})
      && (p in counts ==> counts[p] == |Owned(chunks, p)|)
  }

  function CountOf(counts: map<Uuid, int>, p: Uuid): (n: int)
    ensures p !in counts ==> n == 0
    ensures p in counts ==> n == counts[p]
  {
    GetOrDefault(counts, p, 0)
  }

  /** Where the cache agrees, the cached count is the number of owned chunks. */
  lemma CountIsOwned(counts: map<Uuid, int>, chunks: Chunks, p: Uuid)
    requires CountsAgree(counts, chunks)
    ensures CountOf(counts, p) == |Owned(chunks, p)|
  {
    if p !in counts {
      assert Owned(chunks, p) == {};
    }
  }

  /** One more claim, at a free coordinate, adds to its owner's chunks and no one else's. */
  lemma OwnedAfterClaim(chunks: Chunks, d: string, c: Coord, info: ChunkInfo, q: Uuid)
    requires d !in chunks || c !in chunks[d]
    ensures (d, c) !in Owned(chunks, q)
    ensures Owned(chunks[d := GetOrDefault(chunks, d, map[])[c := info]], q)
         == if q == info.partyOwner then Owned(chunks, q) + {(d, c)} else Owned(chunks, q)
  {
    var after := chunks[d := GetOrDefault(chunks, d, map[])[c := info]];
    forall e | e in Owned(after, q)
      ensures e in (if q == info.partyOwner then Owned(chunks, q) + {(d, c)} else Owned(chunks, q))
    {
      if e != (d, c) {
        assert e.0 in chunks && e.1 in chunks[e.0];
      }
    }
  }

  /** Removing a claim removes it from its owner's chunks and from no one else's. */
  lemma OwnedAfterUnclaim(chunks: Chunks, d: string, c: Coord, q: Uuid)
    requires d in chunks && c in chunks[d]
    ensures (d, c) in Owned(chunks, chunks[d][c].partyOwner)
    ensures Owned(chunks[d := chunks[d] - {c}], q)
         == if q == chunks[d][c].partyOwner then Owned(chunks, q) - {(d, c)} else Owned(chunks, q)
  {
  }

  /** An empty dimension map owns nothing. */
  lemma OwnedAfterEmptyDimension(chunks: Chunks, d: string, q: Uuid)
    requires d !in chunks
    ensures Owned(chunks[d := map[]], q) == Owned(chunks, q)
  {
  }

  /** The cache update claimChunkBy makes (merge with +1) keeps the cache in agreement. */
  lemma CountsAfterClaim(counts: map<Uuid, int>, chunks: Chunks, d: string, c: Coord, info: ChunkInfo)
    requires CountsAgree(counts, chunks)
    requires d !in chunks || c !in chunks[d]
    ensures CountsAgree(counts[info.partyOwner := CountOf(counts, info.partyOwner) + 1],
                        chunks[d := GetOrDefault(chunks, d, map[])[c := info]])
  {
    var after := chunks[d := GetOrDefault(chunks, d, map[])[c := info]];
    var counts' := counts[info.partyOwner := CountOf(counts, info.partyOwner) + 1];
    forall q
      ensures (q in counts' <==> Owned(after, q) != {})
      ensures q in counts' ==> counts'[q] == |Owned(after, q)|
    {
      OwnedAfterClaim(chunks, d, c, info, q);
      CountIsOwned(counts, chunks, q);
    }
  }

  /** The cache update unclaim makes (computeIfPresent: decrement, or delete at 1) keeps the cache in agreement. */
  lemma CountsAfterUnclaim(counts: map<Uuid, int>, chunks: Chunks, d: string, c: Coord)
    requires CountsAgree(counts, chunks)
    requires d in chunks && c in chunks[d]
    ensures var q := chunks[d][c].partyOwner;
            && q in counts
            && CountsAgree(if counts[q] > 1 then counts[q := counts[q] - 1] else counts - {q},
                           chunks[d := chunks[d] - {c}])
  {
    var q := chunks[d][c].partyOwner;
    var after := chunks[d := chunks[d] - {c}];
    OwnedAfterUnclaim(chunks, d, c, q);
    assert q in counts;
    var counts' := if counts[q] > 1 then counts[q := counts[q] - 1] else counts - {q};
    forall r
      ensures (r in counts' <==> Owned(after, r) != {})
      ensures r in counts' ==> counts'[r] == |Owned(after, r)|
    {
      OwnedAfterUnclaim(chunks, d, c, r);
      if r == q {
        assert |Owned(after, q)| == |Owned(chunks, q)| - 1;
      }
    }
  }

  /**
   * Why claimChunkBy needs an unclaimed coordinate: filing a claim over
   * another party's claim and counting it leaves the previous owner's
   * cached count one too high.
   */
  lemma OverwriteBreaksCounts(counts: map<Uuid, int>, chunks: Chunks, d: string, c: Coord, info: ChunkInfo)
    requires CountsAgree(counts, chunks)
    requires d in chunks && c in chunks[d] && chunks[d][c].partyOwner != info.partyOwner
    ensures !CountsAgree(counts[info.partyOwner := CountOf(counts, info.partyOwner) + 1],
                         chunks[d := chunks[d][c := info]])
  {
    var q := chunks[d][c].partyOwner;
    var after := chunks[d := chunks[d][c := info]];
    var counts' := counts[info.partyOwner := CountOf(counts, info.partyOwner) + 1];
    assert Owned(after, q) == Owned(chunks, q) - {(d, c)} by {
      forall e | e in Owned(after, q)
        ensures e in Owned(chunks, q) - {(d, c)}
      {
        assert e.0 in chunks && e.1 in chunks[e.0];
      }
    }
    assert (d, c) in Owned(chunks, q);
    CountIsOwned(counts, chunks, q);
    assert |Owned(after, q)| == |Owned(chunks, q)| - 1;
    if CountsAgree(counts', after) {
      CountIsOwned(counts', after, q);
    }
  }

  /** The chunks of every dimension with the claims of the parties in ids removed. */
  function WithoutParties(chunks: Chunks, ids: set<Uuid>): (r: Chunks)
    ensures r.Keys == chunks.Keys
  {
    map d | d in chunks :: map c | c in chunks[d] && chunks[d][c].partyOwner !in ids :: chunks[d][c]
  }

  /** The reservations of every dimension with those held by the parties in ids removed. */
  function WithoutHolders(reserved: Reservations, ids: set<Uuid>): (r: Reservations)
    ensures r.Keys == reserved.Keys
  {
    map d | d in reserved :: map c | c in reserved[d] && reserved[d][c] !in ids :: reserved[d][c]
  }

  /** Dropping parties removes exactly their chunks and leaves everyone else's. */
  lemma OwnedWithoutParties(chunks: Chunks, ids: set<Uuid>, q: Uuid)
    ensures Owned(WithoutParties(chunks, ids), q) == if q in ids then {} else Owned(chunks, q)
  {
  }

  lemma WithoutNothing(chunks: Chunks, reserved: Reservations)
    ensures WithoutParties(chunks, {}) == chunks
    ensures WithoutHolders(reserved, {}) == reserved
  {
    assert forall d :: d in chunks ==> WithoutParties(chunks, {})[d] == chunks[d];
    assert forall d :: d in reserved ==> WithoutHolders(reserved, {})[d] == reserved[d];
  }

  lemma WithoutPartiesStep(chunks: Chunks, ids: set<Uuid>, p: Uuid)
    ensures WithoutParties(WithoutParties(chunks, ids), {p}) == WithoutParties(chunks, ids + {p})
  {
    var a := WithoutParties(WithoutParties(chunks, ids), {p});
    var b := WithoutParties(chunks, ids + {p});
    forall d | d in chunks
      ensures a[d] == b[d]
    {
    }
  }

  lemma WithoutHoldersStep(reserved: Reservations, ids: set<Uuid>, p: Uuid)
    ensures WithoutHolders(WithoutHolders(reserved, ids), {p}) == WithoutHolders(reserved, ids + {p})
  {
    var a := WithoutHolders(WithoutHolders(reserved, ids), {p});
    var b := WithoutHolders(reserved, ids + {p});
    forall d | d in reserved
      ensures a[d] == b[d]
    {
    }
  }

  lemma CountsWithoutParties(counts: map<Uuid, int>, chunks: Chunks, ids: set<Uuid>)
    requires CountsAgree(counts, chunks)
    ensures CountsAgree(counts - ids, WithoutParties(chunks, ids))
  {
    forall q
      ensures (q in counts - ids <==> Owned(WithoutParties(chunks, ids), q) != {})
      ensures q in counts - ids ==> (counts - ids)[q] == |Owned(WithoutParties(chunks, ids), q)|
    {
      OwnedWithoutParties(chunks, ids, q);
    }
  }

  // ---------------------------------------------------------------------
  // updateReservedPerimeter, as a function of the state
  // ---------------------------------------------------------------------

  /**
   * The reservations after p's perimeter in d is recomputed: nothing when d
   * has no chunk map; when p claims nothing there, its reservations in d
   * are dropped (a missing reservation map stays missing); otherwise d's
   * reservations are reconciled with the ring of p's claims.
   */
  function PerimeterUpdate(chunks: Chunks, reserved: Reservations, d: string, p: Uuid): Reservations
  {
    if d !in chunks then reserved
    else
      var claims := OwnedCoords(chunks[d], p);
      if claims == {} then
        if d in reserved then reserved[d := Reconciled(reserved[d], {}, p)] else reserved
      else reserved[d := Reconciled(GetOrDefault(reserved, d, map[]), Ring(claims), p)]
  }

  /**
   * After the update, p's reservations in d are exactly the ring of its
   * claims there (none when it claims nothing); the ring's coordinates are
   * all p's, other parties' reservations outside the ring are kept as they
   * were, and no other dimension changes.
   */
  lemma PerimeterUpdateMeaning(chunks: Chunks, reserved: Reservations, d: string, p: Uuid)
    requires d in chunks
    ensures var before := GetOrDefault(reserved, d, map[]);
            var after := GetOrDefault(PerimeterUpdate(chunks, reserved, d, p), d, map[]);
            var ring := Ring(OwnedCoords(chunks[d], p));
            && ReservedBy(after, p) == ring
            && (forall c :: c in ring ==> c in after && after[c] == p)
            && (forall c :: c !in ring ==> (c in after <==> c in before && before[c] != p))
            && (forall c :: c in after && c !in ring ==> after[c] == before[c])
    ensures forall e :: e != d ==> (e in PerimeterUpdate(chunks, reserved, d, p) <==> e in reserved)
    ensures forall e :: e != d && e in reserved ==> PerimeterUpdate(chunks, reserved, d, p)[e] == reserved[e]
  {
    RingEmpty();
  }

  /**
   * claimChunkBy drops p's own reservation at the coordinate it claims
   * before recomputing the perimeter; the recomputation would have
   * dropped it anyway, since a claimed coordinate is never in the ring.
   */
  lemma OwnReservationDropSubsumed(chunks: Chunks, reserved: Reservations, d: string, c: Coord, p: Uuid)
    requires d in chunks && c in chunks[d] && chunks[d][c].partyOwner == p
    requires d in reserved && c in reserved[d] && reserved[d][c] == p
    ensures PerimeterUpdate(chunks, reserved[d := reserved[d] - {c}], d, p) == PerimeterUpdate(chunks, reserved, d, p)
  {
    var claims := OwnedCoords(chunks[d], p);
    assert c in claims;
    var ring := Ring(claims);
    var a := Reconciled(reserved[d] - {c}, ring, p);
    var b := Reconciled(reserved[d], ring, p);
    forall k
      ensures (k in a <==> k in b) && (k in a ==> a[k] == b[k])
    {
    }
    assert a == b;
    assert GetOrDefault(reserved[d := reserved[d] - {c}], d, map[]) == reserved[d] - {c};
  }

  /** A coordinate p claims keeps whatever another party's reservation it had when p's perimeter is recomputed. */
  lemma ClaimedCoordKeepsHolder(chunks: Chunks, reserved: Reservations, d: string, c: Coord, p: Uuid)
    requires d in chunks && c in chunks[d] && chunks[d][c].partyOwner == p
    ensures var before := GetOrDefault(reserved, d, map[]);
            var after := GetOrDefault(PerimeterUpdate(chunks, reserved, d, p), d, map[]);
            && (c in after <==> c in before && before[c] != p)
            && (c in after ==> after[c] == before[c])
  {
    PerimeterUpdateMeaning(chunks, reserved, d, p);
    assert c in OwnedCoords(chunks[d], p);
  }

  /** A coordinate 4-adjacent to one of p's claims and not claimed by p is in p's ring. */
  lemma AdjacentIsInRing(dim: ChunkDimension, c: Coord, n: Coord, p: Uuid)
    requires n in Neighbours4(c) && n in dim && dim[n].partyOwner == p
    requires c !in OwnedCoords(dim, p)
    ensures c in Ring(OwnedCoords(dim, p))
  {
    Neighbours4WithinNeighbours8(n);
    Neighbours8Touching(n, c);
    assert Touches(n, c);
    RingTouching(OwnedCoords(dim, p), c);
  }

  /**
   * Recomputing p's perimeter reserves, for p, a chunk that another party
   * has claimed next to one of p's claims.
   */
  lemma PerimeterReservesOtherClaims(chunks: Chunks, reserved: Reservations, d: string, c: Coord, n: Coord, p: Uuid)
    requires d in chunks && c in chunks[d] && chunks[d][c].partyOwner == p
    requires n in chunks[d] && chunks[d][n].partyOwner != p
    requires Touches(c, n)
    ensures var after := PerimeterUpdate(chunks, reserved, d, p);
            d in after && n in after[d] && after[d][n] == p
  {
    RingIncludesOtherClaims(chunks[d], c, n, p);
    PerimeterUpdateMeaning(chunks, reserved, d, p);
    assert c in OwnedCoords(chunks[d], p);
  }

  // ---------------------------------------------------------------------
  // The inactivity sweep's notion of an inactive party
  // ---------------------------------------------------------------------

  /**
   * A player counts as inactive when the name tracker has a positive
   * last-seen time for it, it is offline, and at least the configured
   * number of hours has passed since.
   */
  predicate PlayerInactive(u: Uuid, cfg: Config, lastSeen: map<Uuid, int>, online: set<Uuid>, now: int)
  {
    && u in lastSeen
    && lastSeen[u] > 0
    && u !in online
    && now - lastSeen[u] >= cfg.partyInactivityHours * 3600000
  }

  ghost predicate PartyInactive(party: PartyInfo, cfg: Config, lastSeen: map<Uuid, int>, online: set<Uuid>, now: int)
    reads party
  {
    && PlayerInactive(party.owner, cfg, lastSeen, online, now)
    && forall m :: m in party.memberSet ==> PlayerInactive(m, cfg, lastSeen, online, now)
  }

  /** The owner, then each member, must be inactive; the first active one decides. */
  method IsPartyInactive(party: PartyInfo, cfg: Config, lastSeen: map<Uuid, int>, online: set<Uuid>, now: int)
    returns (allInactive: bool)
    ensures allInactive == PartyInactive(party, cfg, lastSeen, online, now)
  {
    if !PlayerInactive(party.owner, cfg, lastSeen, online, now) {
      return false;
    }
    var todo := party.memberSet;
    while todo != {}
      invariant todo <= party.memberSet
      invariant forall m :: m in party.memberSet - todo ==> PlayerInactive(m, cfg, lastSeen, online, now)
      decreases todo
    {
      var member :| member in todo;
      if !PlayerInactive(member, cfg, lastSeen, online, now) {
        return false;
      }
      todo := todo - {member};
    }
    return true;
  }

  /** The ids of the registered parties that are inactive. */
  ghost function InactiveParties(parties: map<Uuid, PartyInfo>, cfg: Config, lastSeen: map<Uuid, int>, online: set<Uuid>, now: int): set<Uuid>
    reads parties.Values
  {
    set k | k in parties && PartyInactive(parties[k], cfg, lastSeen, online, now)
  }

  /** The first pass of the sweep: the ids of every party that is inactive. */
  method CollectInactive(parties: map<Uuid, PartyInfo>, cfg: Config, lastSeen: map<Uuid, int>, online: set<Uuid>, now: int)
    returns (toDisband: set<Uuid>)
    ensures toDisband == InactiveParties(parties, cfg, lastSeen, online, now)
  {
    toDisband := {};
    var todo := parties.Keys;
    while todo != {}
      invariant todo <= parties.Keys
      invariant toDisband == set k | k in parties.Keys - todo && PartyInactive(parties[k], cfg, lastSeen, online, now)
      decreases todo
    {
      var k :| k in todo;
      var allInactive := IsPartyInactive(parties[k], cfg, lastSeen, online, now);
      if allInactive {
        toDisband := toDisband + {k};
      }
      todo := todo - {k};
    }
  }

  /** Every member of the parties filed under ids. */
  ghost function MembersOf(parties: map<Uuid, PartyInfo>, ids: set<Uuid>): set<Uuid>
    reads parties.Values
  {
    set k, u | k in ids && k in parties && u in parties[k].memberSet :: u
  }

  // ---------------------------------------------------------------------
  // migrateOldClaimOverrides, per party
  // ---------------------------------------------------------------------

  /**
   * The overrides of one party after the legacy quota V is split against
   * the default D: V > D becomes a bonus of V - D, V < D a base of V,
   * V == D nothing; the legacy override is dropped in every case.
   */
  function MigratedOverrides(m: map<OverrideKind, OverrideValue>, cfg: Config): (r: map<OverrideKind, OverrideValue>)
    requires LegacyClaimAmount in m ==> m[LegacyClaimAmount].IntValue?
    ensures LegacyClaimAmount !in r
    ensures LegacyClaimAmount !in m ==> r == m
    ensures LegacyClaimAmount in m && m[LegacyClaimAmount].n > cfg.defaultPartyClaimsAmount ==>
      && BonusClaimChunks in r && r[BonusClaimChunks] == IntValue(m[LegacyClaimAmount].n - cfg.defaultPartyClaimsAmount)
      && r - {BonusClaimChunks} == m - {LegacyClaimAmount, BonusClaimChunks}
    ensures LegacyClaimAmount in m && m[LegacyClaimAmount].n < cfg.defaultPartyClaimsAmount ==>
      && ClaimBase in r && r[ClaimBase] == IntValue(m[LegacyClaimAmount].n)
      && r - {ClaimBase} == m - {LegacyClaimAmount, ClaimBase}
    ensures LegacyClaimAmount in m && m[LegacyClaimAmount].n == cfg.defaultPartyClaimsAmount ==>
      r == m - {LegacyClaimAmount}
  {
    if LegacyClaimAmount !in m then m
    else
      var oldValue := m[LegacyClaimAmount].n;
      var configDefault := cfg.defaultPartyClaimsAmount;
      var split :=
        if oldValue > configDefault then WithOverride(m, BonusClaimChunks, IntValue(oldValue - configDefault), cfg)
        else if oldValue < configDefault then WithOverride(m, ClaimBase, IntValue(oldValue), cfg)
        else m;
      split - {LegacyClaimAmount}
  }

  /**
   * Without scaling, and with no permission amount for the owner, migrating
   * a party that had only the legacy quota keeps its maximum claim amount.
   */
  lemma MigrationKeepsQuota(before: PartyInfo, after: PartyInfo, cfg: Config, claimPerm: map<Uuid, int>)
    requires before.Valid() && after.Valid()
    requires after.owner == before.owner && after.memberSet == before.memberSet
    requires after.overrideMap == MigratedOverrides(before.overrideMap, cfg)
    requires !cfg.scaleClaimLimitByMembers && before.owner !in claimPerm
    requires LegacyClaimAmount in before.overrideMap
    requires ClaimBase !in before.overrideMap && BonusClaimChunks !in before.overrideMap
    ensures after.MaxClaimAmount(cfg, claimPerm) == before.MaxClaimAmount(cfg, claimPerm)
  {
  }

  // ---------------------------------------------------------------------
  // The load-time rebuild of the indexes
  // ---------------------------------------------------------------------

  /** Counts every loaded claim towards its owner (merge with +1). */
  method RebuildClaimCounts(chunks: Chunks) returns (counts: map<Uuid, int>)
    ensures CountsAgree(counts, chunks)
  {
    counts := map[];
    ghost var seen: Chunks := map[];
    var dims := chunks.Keys;
    forall q
      ensures Owned(seen, q) == {}
    {
    }
    assert chunks.Keys - dims == {};
    while dims != {}
      invariant dims <= chunks.Keys
      invariant seen == map e | e in chunks.Keys - dims :: chunks[e]
      invariant CountsAgree(counts, seen)
      decreases dims
    {
      var d :| d in dims;
      ghost var base := seen;
      seen := seen[d := map[]];
      forall q
        ensures q in counts <==> Owned(seen, q) != {}
        ensures q in counts ==> counts[q] == |Owned(seen, q)|
      {
        OwnedAfterEmptyDimension(base, d, q);
      }
      var dim := chunks[d];
      var keys := dim.Keys;
      while keys != {}
        invariant keys <= dim.Keys
        invariant seen == base[d := map c | c in dim.Keys - keys :: dim[c]]
        invariant CountsAgree(counts, seen)
        decreases keys
      {
        var key :| key in keys;
        var chunk := dim[key];
        CountsAfterClaim(counts, seen, d, key, chunk);
        counts := counts[chunk.partyOwner := CountOf(counts, chunk.partyOwner) + 1];
        seen := seen[d := seen[d][key := chunk]];
        assert seen[d] == map c | c in dim.Keys - (keys - {key}) :: dim[c];
        keys := keys - {key};
      }
      assert seen[d] == dim;
      dims := dims - {d};
    }
    assert seen == chunks;
  }

  /** Files every member of every loaded party under that party's id. */
  method RebuildPlayerIndex(parties: map<Uuid, PartyInfo>) returns (index: map<Uuid, Uuid>)
    ensures forall u :: u in index ==> index[u] in parties && u in parties[index[u]].memberSet
    ensures forall k, u :: k in parties && u in parties[k].memberSet ==> u in index
  {
    index := map[];
    var ids := parties.Keys;
    while ids != {}
      invariant ids <= parties.Keys
      invariant forall u :: u in index ==> index[u] in parties && u in parties[index[u]].memberSet
      invariant forall k, u :: k in parties.Keys - ids && u in parties[k].memberSet ==> u in index
      decreases ids
    {
      var id :| id in ids;
      var party := parties[id];
      var members := party.memberSet;
      while members != {}
        invariant members <= party.memberSet
        invariant forall u :: u in index ==> index[u] in parties && u in parties[index[u]].memberSet
        invariant forall k, u :: k in parties.Keys - ids && u in parties[k].memberSet ==> u in index
        invariant forall u :: u in party.memberSet - members ==> u in index
        decreases members
      {
        var member :| member in members;
        index := index[member := id];
        members := members - {member};
      }
      ids := ids - {id};
    }
  }

  // ---------------------------------------------------------------------
  // The registry
  // ---------------------------------------------------------------------

  /**
   * Every claim is filed under its own coordinates, the count cache agrees
   * with ownership, and every party is filed under its own id.
   */
  ghost predicate RegistryInvariant(chunks: Chunks, counts: map<Uuid, int>, parties: map<Uuid, PartyInfo>)
  {
    && (forall d :: d in chunks ==> KeysMatch(chunks[d]))
    && CountsAgree(counts, chunks)
    && (forall k :: k in parties ==> parties[k].id == k)
  }

  /** Filing a claim under its own coordinates at a free coordinate, and counting it, keeps the invariant. */
  lemma RegistryAfterClaim(chunks: Chunks, counts: map<Uuid, int>, parties: map<Uuid, PartyInfo>, d: string, c: Coord, info: ChunkInfo)
    requires RegistryInvariant(chunks, counts, parties)
    requires (info.chunkX, info.chunkZ) == c && (d !in chunks || c !in chunks[d])
    ensures RegistryInvariant(chunks[d := GetOrDefault(chunks, d, map[])[c := info]],
                              counts[info.partyOwner := CountOf(counts, info.partyOwner) + 1], parties)
  {
    CountsAfterClaim(counts, chunks, d, c, info);
    var after := chunks[d := GetOrDefault(chunks, d, map[])[c := info]];
    assert KeysMatch(after[d]);
  }

  /** Removing a claim and uncounting it keeps the invariant. */
  lemma RegistryAfterUnclaim(chunks: Chunks, counts: map<Uuid, int>, parties: map<Uuid, PartyInfo>, d: string, c: Coord)
    requires RegistryInvariant(chunks, counts, parties)
    requires d in chunks && c in chunks[d]
    ensures var q := chunks[d][c].partyOwner;
            && q in counts
            && RegistryInvariant(chunks[d := chunks[d] - {c}],
                                 if counts[q] > 1 then counts[q := counts[q] - 1] else counts - {q}, parties)
  {
    CountsAfterUnclaim(counts, chunks, d, c);
    assert KeysMatch(chunks[d] - {c});
  }

  class ClaimManager {
    var parties: map<Uuid, PartyInfo>
    var chunks: Chunks
    var reservedChunks: Reservations
    var partyClaimCounts: map<Uuid, int>
    var playerToParty: map<Uuid, Uuid>
    var partyInvites: map<Uuid, PartyInvite>
    var adminOverrides: set<Uuid>
    var adminUsageParty: map<Uuid, Uuid>

    ghost predicate Valid()
      reads this
    {
      RegistryInvariant(chunks, partyClaimCounts, parties)
    }

    /** Every registered party's overrides are well typed. */
    ghost predicate PartiesValid()
      reads this, parties.Values
    {
      forall k :: k in parties ==> parties[k].Valid()
    }

    /**
     * The registry as loaded: the loaded parties, claims, reservations and
     * admin overrides, with the player index and the count cache rebuilt.
     */
    constructor Load(loadedParties: map<Uuid, PartyInfo>, loadedChunks: Chunks, loadedReserved: Reservations, loadedAdmins: set<Uuid>)
      requires forall k :: k in loadedParties ==> loadedParties[k].id == k
      requires forall d :: d in loadedChunks ==> KeysMatch(loadedChunks[d])
      ensures Valid()
      ensures (forall k :: k in loadedParties ==> loadedParties[k].Valid()) ==> PartiesValid()
      ensures parties == loadedParties && chunks == loadedChunks
      ensures reservedChunks == loadedReserved && adminOverrides == loadedAdmins
      ensures partyInvites == map[] && adminUsageParty == map[]
      ensures forall u :: u in playerToParty ==> playerToParty[u] in parties && u in parties[playerToParty[u]].memberSet
      ensures forall k, u :: k in parties && u in parties[k].memberSet ==> u in playerToParty
    {
      var index := RebuildPlayerIndex(loadedParties);
      var counts := RebuildClaimCounts(loadedChunks);
      parties := loadedParties;
      chunks := loadedChunks;
      reservedChunks := loadedReserved;
      partyClaimCounts := counts;
      playerToParty := index;
      partyInvites := map[];
      adminOverrides := loadedAdmins;
      adminUsageParty := map[];
    }

    // -------------------------------------------------------------------
    // Lookups
    // -------------------------------------------------------------------

    /** getChunk: the claim at (x, z) in d, if any. */
    function GetChunk(d: string, x: int, z: int): (r: Option<ChunkInfo>)
      reads this
      ensures r.Some? <==> d in chunks && (x, z) in chunks[d]
      ensures r.Some? ==> r.value == chunks[d][(x, z)]
      ensures Valid() && r.Some? ==> r.value.chunkX == x && r.value.chunkZ == z
    {
      if d in chunks && (x, z) in chunks[d] then Some(chunks[d][(x, z)]) else None
    }

    /** getReservedChunk: the holder of the reservation at (x, z) in d, if any. */
    function GetReservedChunk(d: string, x: int, z: int): (r: Option<Uuid>)
      reads this
      ensures r.Some? <==> d in reservedChunks && (x, z) in reservedChunks[d]
      ensures r.Some? ==> r.value == reservedChunks[d][(x, z)]
    {
      if d in reservedChunks && (x, z) in reservedChunks[d] then Some(reservedChunks[d][(x, z)]) else None
    }

    /** Whether party p claims coordinate c in d. */
    predicate ClaimedBy(d: string, c: Coord, p: Uuid)
      reads this
    {
      d in chunks && c in chunks[d] && chunks[d][c].partyOwner == p
    }

    /** getAmountOfClaims: the cached count, which is the number of chunks the party owns. */
    function GetAmountOfClaims(party: PartyInfo): (n: int)
      reads this
      requires Valid()
      ensures n == |Owned(chunks, party.id)|
      ensures n == 0 <==> party.id !in partyClaimCounts
    {
      CountIsOwned(partyClaimCounts, chunks, party.id);
      CountOf(partyClaimCounts, party.id)
    }

    /** hasEnoughClaimsLeft: strictly fewer owned chunks than the party's maximum. */
    method HasEnoughClaimsLeft(party: PartyInfo, cfg: Config, claimPerm: map<Uuid, int>) returns (r: bool)
      requires Valid() && party.Valid()
      ensures r <==> |Owned(chunks, party.id)| < party.MaxClaimAmount(cfg, claimPerm)
    {
      var maxAmount := party.GetMaxClaimAmount(cfg, claimPerm);
      var currentAmount := GetAmountOfClaims(party);
      return currentAmount < maxAmount;
    }

    /** isReservedByOtherParty: reserved, by someone other than excludePartyId. */
    predicate IsReservedByOtherParty(d: string, x: int, z: int, excludePartyId: Uuid)
      reads this
      ensures IsReservedByOtherParty(d, x, z, excludePartyId) <==>
        GetReservedChunk(d, x, z).Some? && GetReservedChunk(d, x, z).value != excludePartyId
    {
      d in reservedChunks && (x, z) in reservedChunks[d] && reservedChunks[d][(x, z)] != excludePartyId
    }

    /** isReservedByOwnParty: reserved, by partyId. */
    predicate IsReservedByOwnParty(d: string, x: int, z: int, partyId: Uuid)
      reads this
      ensures IsReservedByOwnParty(d, x, z, partyId) <==> GetReservedChunk(d, x, z) == Some(partyId)
    {
      d in reservedChunks && (x, z) in reservedChunks[d] && reservedChunks[d][(x, z)] == partyId
    }

    /** One neighbour that p does not claim but another party has reserved. */
    ghost predicate OverlapsOtherAt(d: string, n: Coord, p: Uuid)
      reads this
    {
      !ClaimedBy(d, n, p) && IsReservedByOtherParty(d, n.0, n.1, p)
    }

    /**
     * wouldPerimeterOverlapOtherReserved: with reservation on and a
     * reservation map for d, whether one of the 8 neighbours of (x, z)
     * that p does not claim is reserved by another party.
     */
    method WouldPerimeterOverlapOtherReserved(d: string, x: int, z: int, p: Uuid, cfg: Config) returns (r: bool)
      ensures !cfg.enablePerimeterReservation || d !in reservedChunks ==> !r
      ensures cfg.enablePerimeterReservation && d in reservedChunks ==>
        (r <==> exists n :: n in Neighbours8((x, z)) && OverlapsOtherAt(d, n, p))
    {
      if !cfg.enablePerimeterReservation {
        return false;
      }
      if d !in reservedChunks {
        return false;
      }
      var reservedDimension := reservedChunks[d];
      var i := 0;
      while i < 8
        invariant 0 <= i <= 8
        invariant forall j :: 0 <= j < i ==> !OverlapsOtherAt(d, Offset((x, z), j), p)
      {
        var adjX, adjZ := x + DX[i], z + DZ[i];
        assert (adjX, adjZ) == Offset((x, z), i);
        var existingChunk := GetChunk(d, adjX, adjZ);
        if existingChunk.Some? && existingChunk.value.partyOwner == p {
          i := i + 1;
          continue;
        }
        if (adjX, adjZ) in reservedDimension && reservedDimension[(adjX, adjZ)] != p {
          assert Offset((x, z), i) in Neighbours8((x, z));
          assert OverlapsOtherAt(d, (adjX, adjZ), p);
          return true;
        }
        i := i + 1;
      }
      return false;
    }

    /** isAdjacentToPartyClaims: whether p claims one of the 4 orthogonal neighbours. */
    method IsAdjacentToPartyClaims(d: string, x: int, z: int, p: Uuid) returns (r: bool)
      ensures r <==> exists n :: n in Neighbours4((x, z)) && ClaimedBy(d, n, p)
    {
      var adjacentChunks := [GetChunk(d, x, z + 1), GetChunk(d, x, z - 1), GetChunk(d, x + 1, z), GetChunk(d, x - 1, z)];
      ghost var coords := [(x, z + 1), (x, z - 1), (x + 1, z), (x - 1, z)];
      var i := 0;
      while i < 4
        invariant 0 <= i <= 4
        invariant forall j :: 0 <= j < i ==> !ClaimedBy(d, coords[j], p)
      {
        var adjacent := adjacentChunks[i];
        if adjacent.Some? && adjacent.value.partyOwner == p {
          assert ClaimedBy(d, coords[i], p);
          return true;
        }
        i := i + 1;
      }
      assert forall n :: n in Neighbours4((x, z)) ==> n in coords;
      return false;
    }

    /**
     * isAllowedToInteract, in the source's order: admin override; unclaimed
     * chunk (allowed unless the dimension is fully protected); claim of a
     * vanished party; unknown player; owner, member or player ally (their
     * permission); a player whose party is allied (the party's permission);
     * anyone else (the party's protection flag).
     */
    function IsAllowedToInteract(player: Option<Uuid>, d: string, x: int, z: int, interact: Flag,
                                 permission: Permission, cfg: Config): (r: bool)
      reads this, parties.Values
      requires PartiesValid()
      ensures player.Some? && player.value in adminOverrides ==> r
      ensures (player.None? || player.value !in adminOverrides) && GetChunk(d, x, z).None? ==>
        (r <==> d !in cfg.fullWorldProtection)
      ensures (player.None? || player.value !in adminOverrides) && GetChunk(d, x, z).Some? ==>
        var owner := GetChunk(d, x, z).value.partyOwner;
        && (owner !in parties ==> r)
        && (owner in parties && player.None? ==> !r)
        && (owner in parties && player.Some? && parties[owner].IsOwner(player.value) ==> r)
        && (owner in parties && player.Some? && !parties[owner].IsOwnerOrMember(player.value)
            && !parties[owner].IsPlayerAllied(player.value)
            && (player.value !in playerToParty || !parties[owner].IsPartyAllied(playerToParty[player.value]))
            ==> r == parties[owner].FlagEnabled(cfg, interact))
        && (owner in parties && player.Some? && !parties[owner].IsOwner(player.value)
            && (parties[owner].IsMember(player.value) || parties[owner].IsPlayerAllied(player.value))
            ==> r == parties[owner].HasPermission(player.value, permission))
        && (owner in parties && player.Some? && !parties[owner].IsOwnerOrMember(player.value)
            && !parties[owner].IsPlayerAllied(player.value)
            && player.value in playerToParty && parties[owner].IsPartyAllied(playerToParty[player.value])
            ==> r == parties[owner].HasPartyPermission(playerToParty[player.value], permission))
    {
      if player.Some? && player.value in adminOverrides then true
      else match GetChunk(d, x, z)
        case None => d !in cfg.fullWorldProtection
        case Some(chunkInfo) =>
          if chunkInfo.partyOwner !in parties then true
          else
            var chunkParty := parties[chunkInfo.partyOwner];
            if player.None? then false
            else if chunkParty.IsOwnerOrMember(player.value) || chunkParty.IsPlayerAllied(player.value) then
              chunkParty.HasPermission(player.value, permission)
            else if player.value in playerToParty && chunkParty.IsPartyAllied(playerToParty[player.value]) then
              chunkParty.HasPartyPermission(playerToParty[player.value], permission)
            else chunkParty.FlagEnabled(cfg, interact)
    }

    // -------------------------------------------------------------------
    // Claiming, unclaiming and the perimeter
    // -------------------------------------------------------------------

    /**
     * updateReservedPerimeter: recomputes p's ring in d from its claims
     * there, drops p's reservations outside it, and reserves every ring
     * coordinate for p, taking over those another party held.
     */
    method UpdateReservedPerimeter(d: string, p: Uuid)
      requires Valid()
      modifies this
      ensures reservedChunks == PerimeterUpdate(chunks, old(reservedChunks), d, p)
      ensures Valid()
      ensures chunks == old(chunks) && partyClaimCounts == old(partyClaimCounts) && parties == old(parties)
      ensures playerToParty == old(playerToParty) && partyInvites == old(partyInvites)
      ensures adminOverrides == old(adminOverrides) && adminUsageParty == old(adminUsageParty)
    {
      if d !in chunks {
        return;
      }
      var chunkDimension := chunks[d];
      var partyChunkCoords := CollectPartyCoords(chunkDimension, p);
      if partyChunkCoords == {} {
        if d in reservedChunks {
          var reservedDimension := reservedChunks[d];
          var toRemove := CollectStale(reservedDimension, {}, p);
          assert reservedDimension - toRemove == Reconciled(reservedDimension, {}, p) by {
            assert (reservedDimension - toRemove).Keys == Reconciled(reservedDimension, {}, p).Keys;
          }
          reservedChunks := reservedChunks[d := reservedDimension - toRemove];
        }
        return;
      }
      var perimeterCoords := ComputePerimeter(chunkDimension, partyChunkCoords, p);
      var reservedDimension: ReservedDimension := GetOrDefault(reservedChunks, d, map[]);
      var toRemove := CollectStale(reservedDimension, perimeterCoords, p);
      var updated := ReservePerimeter(reservedDimension - toRemove, perimeterCoords, p);
      ghost var target := Reconciled(reservedDimension, perimeterCoords, p);
      forall c
        ensures (c in updated <==> c in target) && (c in updated ==> updated[c] == target[c])
      {
      }
      assert updated == target;
      reservedDimension := updated;
      reservedChunks := reservedChunks[d := reservedDimension];
    }

    /** Files a claim at a free coordinate and counts it for its owner (merge with +1). */
    method RecordClaim(d: string, c: Coord, info: ChunkInfo)
      requires Valid()
      requires (info.chunkX, info.chunkZ) == c && (d !in chunks || c !in chunks[d])
      modifies this
      ensures Valid()
      ensures chunks == old(chunks)[d := GetOrDefault(old(chunks), d, map[])[c := info]]
      ensures partyClaimCounts == old(partyClaimCounts)[info.partyOwner := CountOf(old(partyClaimCounts), info.partyOwner) + 1]
      ensures reservedChunks == old(reservedChunks) && parties == old(parties) && playerToParty == old(playerToParty)
      ensures partyInvites == old(partyInvites) && adminOverrides == old(adminOverrides) && adminUsageParty == old(adminUsageParty)
    {
      RegistryAfterClaim(chunks, partyClaimCounts, parties, d, c, info);
      chunks := chunks[d := GetOrDefault(chunks, d, map[])[c := info]];
      partyClaimCounts := partyClaimCounts[info.partyOwner := CountOf(partyClaimCounts, info.partyOwner) + 1];
    }

    /**
     * claimChunkBy: files a claim for the party at (x, z) in d, counts it,
     * and with reservation on drops the party's own reservation there and
     * recomputes its perimeter. Nothing checks that the coordinate is
     * free; callers establish it.
     */
    method ClaimChunkBy(d: string, x: int, z: int, party: PartyInfo, cfg: Config) returns (chunkInfo: ChunkInfo)
      requires Valid()
      requires GetChunk(d, x, z).None?
      modifies this
      ensures Valid()
      ensures chunkInfo == ChunkInfo(party.id, x, z)
      ensures chunks == old(chunks)[d := GetOrDefault(old(chunks), d, map[])[(x, z) := chunkInfo]]
      ensures GetChunk(d, x, z) == Some(chunkInfo)
      ensures CountOf(partyClaimCounts, party.id) == old(CountOf(partyClaimCounts, party.id)) + 1
      ensures |Owned(chunks, party.id)| == old(|Owned(chunks, party.id)|) + 1
      ensures forall q :: q != party.id ==> Owned(chunks, q) == old(Owned(chunks, q))
      ensures reservedChunks == if cfg.enablePerimeterReservation
                                then PerimeterUpdate(chunks, old(reservedChunks), d, party.id)
                                else old(reservedChunks)
      ensures cfg.enablePerimeterReservation ==> !IsReservedByOwnParty(d, x, z, party.id)
      ensures forall q :: q != party.id && old(GetReservedChunk(d, x, z)) == Some(q) ==> GetReservedChunk(d, x, z) == Some(q)
      ensures parties == old(parties) && playerToParty == old(playerToParty) && partyInvites == old(partyInvites)
      ensures adminOverrides == old(adminOverrides) && adminUsageParty == old(adminUsageParty)
    {
      chunkInfo := ChunkInfo(party.id, x, z);
      forall q
        ensures Owned(chunks[d := GetOrDefault(chunks, d, map[])[(x, z) := chunkInfo]], q)
             == if q == party.id then Owned(chunks, q) + {(d, (x, z))} else Owned(chunks, q)
        ensures (d, (x, z)) !in Owned(chunks, q)
      {
        OwnedAfterClaim(chunks, d, (x, z), chunkInfo, q);
      }
      RecordClaim(d, (x, z), chunkInfo);
      if cfg.enablePerimeterReservation {
        if d in reservedChunks {
          var reservedDimension := reservedChunks[d];
          if (x, z) in reservedDimension && reservedDimension[(x, z)] == party.id {
            OwnReservationDropSubsumed(chunks, reservedChunks, d, (x, z), party.id);
            reservedChunks := reservedChunks[d := reservedDimension - {(x, z)}];
          }
        }
        ghost var before := reservedChunks;
        ClaimedCoordKeepsHolder(chunks, before, d, (x, z), party.id);
        UpdateReservedPerimeter(d, party.id);
      }
    }

    /** Removes an existing claim and takes it off its owner's count (computeIfPresent: 1 becomes absent). */
    method DropClaim(d: string, c: Coord)
      requires Valid()
      requires d in chunks && c in chunks[d]
      modifies this
      ensures Valid()
      ensures chunks == old(chunks)[d := old(chunks)[d] - {c}]
      ensures var q := old(chunks)[d][c].partyOwner;
        && CountOf(partyClaimCounts, q) == old(CountOf(partyClaimCounts, q)) - 1
        && (q in partyClaimCounts <==> old(CountOf(partyClaimCounts, q)) > 1)
        && (forall r :: r != q ==> Owned(chunks, r) == old(Owned(chunks, r)))
      ensures reservedChunks == old(reservedChunks) && parties == old(parties) && playerToParty == old(playerToParty)
      ensures partyInvites == old(partyInvites) && adminOverrides == old(adminOverrides) && adminUsageParty == old(adminUsageParty)
    {
      var chunkMap := chunks[d];
      var partyId := chunkMap[c].partyOwner;
      var after := chunks[d := chunkMap - {c}];
      RegistryAfterUnclaim(chunks, partyClaimCounts, parties, d, c);
      CountIsOwned(partyClaimCounts, chunks, partyId);
      OwnedAfterUnclaim(chunks, d, c, partyId);
      forall r | r != partyId
        ensures Owned(after, r) == Owned(chunks, r)
      {
        OwnedAfterUnclaim(chunks, d, c, r);
      }
      chunks := after;
      if partyId in partyClaimCounts {
        var v := partyClaimCounts[partyId];
        if v > 1 {
          partyClaimCounts := partyClaimCounts[partyId := v - 1];
        } else {
          partyClaimCounts := partyClaimCounts - {partyId};
        }
      }
    }

    /**
     * unclaim: removes the claim at (x, z) in d, if there is one, takes it
     * off its former owner's count (deleting an entry that would reach 0)
     * and with reservation on recomputes that party's perimeter.
     */
    method Unclaim(d: string, x: int, z: int, cfg: Config)
      requires Valid()
      modifies this
      ensures Valid()
      ensures old(GetChunk(d, x, z)).None? ==>
        chunks == old(chunks) && partyClaimCounts == old(partyClaimCounts) && reservedChunks == old(reservedChunks)
      ensures old(GetChunk(d, x, z)).Some? ==>
        var q := old(GetChunk(d, x, z)).value.partyOwner;
        && chunks == old(chunks)[d := old(chunks)[d] - {(x, z)}]
        && GetChunk(d, x, z).None?
        && CountOf(partyClaimCounts, q) == old(CountOf(partyClaimCounts, q)) - 1
        && (q in partyClaimCounts <==> old(CountOf(partyClaimCounts, q)) > 1)
        && (forall r :: r != q ==> Owned(chunks, r) == old(Owned(chunks, r)))
        && reservedChunks == if cfg.enablePerimeterReservation
                             then PerimeterUpdate(chunks, old(reservedChunks), d, q)
                             else old(reservedChunks)
      ensures parties == old(parties) && playerToParty == old(playerToParty) && partyInvites == old(partyInvites)
      ensures adminOverrides == old(adminOverrides) && adminUsageParty == old(adminUsageParty)
    {
      if d !in chunks {
        return;
      }
      var chunkMap := chunks[d];
      if (x, z) !in chunkMap {
        return;
      }
      var removed := chunkMap[(x, z)];
      var partyId := removed.partyOwner;
      DropClaim(d, (x, z));
      if cfg.enablePerimeterReservation {
        UpdateReservedPerimeter(d, partyId);
      }
    }

    // -------------------------------------------------------------------
    // Parties: creation, invites, leaving, disbanding
    // -------------------------------------------------------------------

    /**
     * createParty, with the party id given: a new party whose owner is
     * also added as a member, filed under its id, and (unless created by
     * an admin) indexed as the owner's party.
     */
    method CreateParty(id: Uuid, owner: Uuid, isAdmin: bool, cfg: Config) returns (party: PartyInfo)
      requires Valid()
      modifies this
      ensures Valid()
      ensures fresh(party) && party.Valid()
      ensures old(PartiesValid()) ==> PartiesValid()
      ensures party.id == id && party.owner == owner
      ensures party.overrideMap == SeededOverrides(cfg)
      ensures party.partyAllies == {} && party.playerAllies == {} && party.permissionOverrides == map[]
      ensures party.memberSet == if AtCap(cfg.maxPartyMembers, 0) then {} else {owner}
      ensures !AtCap(cfg.maxPartyMembers, 0) ==> party.TotalMemberCount() == 2
      ensures parties == old(parties)[id := party]
      ensures playerToParty == if isAdmin then old(playerToParty) else old(playerToParty)[owner := id]
      ensures chunks == old(chunks) && reservedChunks == old(reservedChunks) && partyClaimCounts == old(partyClaimCounts)
      ensures partyInvites == old(partyInvites) && adminOverrides == old(adminOverrides) && adminUsageParty == old(adminUsageParty)
    {
      party := new PartyInfo(id, owner, {}, cfg);
      party.AddMember(owner, cfg);
      parties := parties[id := party];
      if !isAdmin {
        playerToParty := playerToParty[owner := id];
      }
    }

    /** invitePlayerToParty: records the invite, replacing any earlier one for the recipient. */
    method InvitePlayerToParty(recipient: Uuid, party: PartyInfo, sender: Uuid)
      requires Valid()
      modifies this
      ensures Valid()
      ensures partyInvites == old(partyInvites)[recipient := PartyInvite(recipient, sender, party.id)]
      ensures parties == old(parties) && chunks == old(chunks) && reservedChunks == old(reservedChunks)
      ensures partyClaimCounts == old(partyClaimCounts) && playerToParty == old(playerToParty)
      ensures adminOverrides == old(adminOverrides) && adminUsageParty == old(adminUsageParty)
    {
      partyInvites := partyInvites[recipient := PartyInvite(recipient, sender, party.id)];
    }

    /** The party a pending invite for player points to, while that party exists. */
    function InvitedParty(player: Uuid): set<PartyInfo>
      reads this
    {
      if player in partyInvites && partyInvites[player].party in parties then {parties[partyInvites[player].party]} else {}
    }

    /**
     * acceptInvite: no invite, nothing happens; an invite to a vanished
     * party is kept; at the member cap the invite is consumed without
     * joining; otherwise the player joins, is indexed, and the invite is
     * consumed and returned.
     */
    method AcceptInvite(player: Uuid, cfg: Config) returns (r: Option<PartyInvite>)
      requires Valid()
      modifies this, InvitedParty(player)
      ensures Valid()
      ensures old(PartiesValid()) ==> PartiesValid()
      ensures forall q :: q in old(InvitedParty(player)) ==>
        && q.overrideMap == old(q.overrideMap) && q.partyAllies == old(q.partyAllies)
        && q.playerAllies == old(q.playerAllies) && q.permissionOverrides == old(q.permissionOverrides)
      ensures player !in old(partyInvites) ==> r.None? && partyInvites == old(partyInvites) && playerToParty == old(playerToParty)
      ensures player in old(partyInvites) && old(partyInvites)[player].party !in old(parties) ==>
        r.None? && partyInvites == old(partyInvites) && playerToParty == old(playerToParty)
      ensures player in old(partyInvites) && old(partyInvites)[player].party in old(parties) ==>
        var invite := old(partyInvites)[player];
        var party := old(parties)[invite.party];
        && partyInvites == old(partyInvites) - {player}
        && (AtCap(cfg.maxPartyMembers, |old(parties[invite.party].memberSet)|) ==>
              r.None? && party.memberSet == old(parties[invite.party].memberSet) && playerToParty == old(playerToParty))
        && (!AtCap(cfg.maxPartyMembers, |old(parties[invite.party].memberSet)|) ==>
              r == Some(invite) && party.memberSet == old(parties[invite.party].memberSet) + {player}
              && playerToParty == old(playerToParty)[player := invite.party])
      ensures parties == old(parties) && chunks == old(chunks) && reservedChunks == old(reservedChunks)
      ensures partyClaimCounts == old(partyClaimCounts)
      ensures adminOverrides == old(adminOverrides) && adminUsageParty == old(adminUsageParty)
    {
      if player !in partyInvites {
        return None;
      }
      var invite := partyInvites[player];
      if invite.party !in parties {
        return None;
      }
      var party := parties[invite.party];
      if AtCap(cfg.maxPartyMembers, |party.memberSet|) {
        partyInvites := partyInvites - {player};
        return None;
      }
      party.AddMember(player, cfg);
      playerToParty := playerToParty[player := party.id];
      partyInvites := partyInvites - {player};
      return Some(invite);
    }

    /**
     * disbandParty: unindexes the members, removes every claim and every
     * reservation the party holds in every dimension, its count and its
     * registration; everything belonging to other parties stays.
     */
    method DisbandParty(party: PartyInfo)
      requires Valid()
      modifies this
      ensures Valid()
      ensures playerToParty == old(playerToParty) - party.memberSet
      ensures chunks == WithoutParties(old(chunks), {party.id})
      ensures reservedChunks == WithoutHolders(old(reservedChunks), {party.id})
      ensures partyClaimCounts == old(partyClaimCounts) - {party.id}
      ensures parties == old(parties) - {party.id}
      ensures partyInvites == old(partyInvites) && adminOverrides == old(adminOverrides) && adminUsageParty == old(adminUsageParty)
    {
      var members := party.memberSet;
      var todo := members;
      while todo != {}
        invariant todo <= members
        invariant playerToParty == old(playerToParty) - (members - todo)
        invariant Valid()
        invariant chunks == old(chunks) && partyClaimCounts == old(partyClaimCounts) && parties == old(parties)
        invariant reservedChunks == old(reservedChunks) && partyInvites == old(partyInvites)
        invariant adminOverrides == old(adminOverrides) && adminUsageParty == old(adminUsageParty)
        decreases todo
      {
        var member :| member in todo;
        playerToParty := playerToParty - {member};
        todo := todo - {member};
      }
      CountsWithoutParties(partyClaimCounts, chunks, {party.id});
      chunks := WithoutParties(chunks, {party.id});
      reservedChunks := WithoutHolders(reservedChunks, {party.id});
      partyClaimCounts := partyClaimCounts - {party.id};
      parties := parties - {party.id};
    }

    /** leaveParty: the owner leaving disbands the party; anyone else leaves alone. */
    method LeaveParty(player: Uuid, party: PartyInfo)
      requires Valid()
      modifies this, party
      ensures Valid()
      ensures party.IsOwner(player) ==>
        && playerToParty == old(playerToParty) - {player} - party.memberSet
        && chunks == WithoutParties(old(chunks), {party.id})
        && reservedChunks == WithoutHolders(old(reservedChunks), {party.id})
        && partyClaimCounts == old(partyClaimCounts) - {party.id}
        && parties == old(parties) - {party.id}
      ensures !party.IsOwner(player) ==>
        && party.memberSet == old(party.memberSet) - {player}
        && playerToParty == old(playerToParty) - {player}
        && chunks == old(chunks) && reservedChunks == old(reservedChunks)
        && partyClaimCounts == old(partyClaimCounts) && parties == old(parties)
      ensures party.overrideMap == old(party.overrideMap) && party.permissionOverrides == old(party.permissionOverrides)
      ensures party.partyAllies == old(party.partyAllies) && party.playerAllies == old(party.playerAllies)
      ensures partyInvites == old(partyInvites) && adminOverrides == old(adminOverrides) && adminUsageParty == old(adminUsageParty)
    {
      playerToParty := playerToParty - {player};
      if party.IsOwner(player) {
        DisbandParty(party);
        return;
      }
      party.RemoveMember(player);
      playerToParty := playerToParty - {player};
    }

    /** The second pass of the sweep: disbands each listed party in turn. */
    method DisbandAll(ids: set<Uuid>)
      requires Valid() && ids <= parties.Keys
      modifies this
      ensures Valid()
      ensures parties == old(parties) - ids
      ensures chunks == WithoutParties(old(chunks), ids)
      ensures reservedChunks == WithoutHolders(old(reservedChunks), ids)
      ensures partyClaimCounts == old(partyClaimCounts) - ids
      ensures playerToParty == old(playerToParty) - MembersOf(old(parties), ids)
      ensures partyInvites == old(partyInvites) && adminOverrides == old(adminOverrides) && adminUsageParty == old(adminUsageParty)
    {
      var snapshot := parties;
      var done: set<Uuid> := {};
      var pending := ids;
      WithoutNothing(chunks, reservedChunks);
      while pending != {}
        invariant pending <= ids && done == ids - pending
        invariant Valid()
        invariant parties == snapshot - done
        invariant chunks == WithoutParties(old(chunks), done)
        invariant reservedChunks == WithoutHolders(old(reservedChunks), done)
        invariant partyClaimCounts == old(partyClaimCounts) - done
        invariant playerToParty == old(playerToParty) - MembersOf(snapshot, done)
        invariant partyInvites == old(partyInvites) && adminOverrides == old(adminOverrides) && adminUsageParty == old(adminUsageParty)
        decreases pending
      {
        var k :| k in pending;
        var party := snapshot[k];
        WithoutPartiesStep(old(chunks), done, k);
        WithoutHoldersStep(old(reservedChunks), done, k);
        assert MembersOf(snapshot, done + {k}) == MembersOf(snapshot, done) + party.memberSet;
        DisbandParty(party);
        done := done + {k};
        pending := pending - {k};
      }
      assert done == ids;
    }

    /**
     * disbandInactiveParties: with a non-negative threshold, disbands
     * exactly the registered parties whose owner and members are all
     * inactive; with a negative one, does nothing.
     */
    method DisbandInactiveParties(cfg: Config, lastSeen: map<Uuid, int>, online: set<Uuid>, now: int)
      requires Valid()
      modifies this
      ensures Valid()
      ensures cfg.partyInactivityHours < 0 ==>
        parties == old(parties) && chunks == old(chunks) && reservedChunks == old(reservedChunks)
        && partyClaimCounts == old(partyClaimCounts) && playerToParty == old(playerToParty)
      ensures cfg.partyInactivityHours >= 0 ==>
        var doomed := InactiveParties(old(parties), cfg, lastSeen, online, now);
        && parties == old(parties) - doomed
        && chunks == WithoutParties(old(chunks), doomed)
        && reservedChunks == WithoutHolders(old(reservedChunks), doomed)
        && partyClaimCounts == old(partyClaimCounts) - doomed
        && playerToParty == old(playerToParty) - MembersOf(old(parties), doomed)
      ensures partyInvites == old(partyInvites) && adminOverrides == old(adminOverrides) && adminUsageParty == old(adminUsageParty)
    {
      if cfg.partyInactivityHours < 0 {
        return;
      }
      var toDisband := CollectInactive(parties, cfg, lastSeen, online, now);
      DisbandAll(toDisband);
    }

    /**
     * migrateOldClaimOverrides: with the option on, rewrites every party's
     * legacy quota override into the base/bonus form; with it off, nothing.
     */
    method MigrateOldClaimOverrides(cfg: Config)
      requires Valid() && PartiesValid()
      modifies parties.Values
      ensures PartiesValid()
      ensures !cfg.migrateOldClaimOverrides ==> forall k :: k in parties ==> parties[k].overrideMap == old(parties[k].overrideMap)
      ensures cfg.migrateOldClaimOverrides ==>
        forall k :: k in parties ==> parties[k].overrideMap == MigratedOverrides(old(parties[k].overrideMap), cfg)
      ensures forall k :: k in parties ==> parties[k].memberSet == old(parties[k].memberSet)
      ensures forall k :: k in parties ==>
        && parties[k].partyAllies == old(parties[k].partyAllies) && parties[k].playerAllies == old(parties[k].playerAllies)
        && parties[k].permissionOverrides == old(parties[k].permissionOverrides)
        && parties[k].owner == old(parties[k].owner) && parties[k].id == old(parties[k].id)
    {
      if !cfg.migrateOldClaimOverrides {
        return;
      }
      var todo := parties.Keys;
      while todo != {}
        invariant todo <= parties.Keys
        invariant PartiesValid()
        invariant forall k :: k in parties.Keys - todo ==> parties[k].overrideMap == MigratedOverrides(old(parties[k].overrideMap), cfg)
        invariant forall k :: k in todo ==> parties[k].overrideMap == old(parties[k].overrideMap)
        invariant forall k :: k in parties ==>
          && parties[k].memberSet == old(parties[k].memberSet)
          && parties[k].partyAllies == old(parties[k].partyAllies) && parties[k].playerAllies == old(parties[k].playerAllies)
          && parties[k].permissionOverrides == old(parties[k].permissionOverrides)
        decreases todo
      {
        var k :| k in todo;
        MigrateParty(parties[k], cfg);
        todo := todo - {k};
      }
    }
  }

  /** The per-party step of migrateOldClaimOverrides: only the override map changes. */
  method MigrateParty(party: PartyInfo, cfg: Config)
    requires party.Valid()
    modifies party
    ensures party.Valid()
    ensures party.overrideMap == MigratedOverrides(old(party.overrideMap), cfg)
    ensures party.memberSet == old(party.memberSet)
    ensures party.partyAllies == old(party.partyAllies) && party.playerAllies == old(party.playerAllies)
    ensures party.permissionOverrides == old(party.permissionOverrides)
  {
    var oldOverride := party.GetOverride(LegacyClaimAmount);
    if oldOverride.Some? {
      var oldValue := oldOverride.value.n;
      var configDefault := cfg.defaultPartyClaimsAmount;
      if oldValue != configDefault {
        if oldValue > configDefault {
          party.SetOverride(BonusClaimChunks, IntValue(oldValue - configDefault), cfg);
        } else {
          party.SetOverride(ClaimBase, IntValue(oldValue), cfg);
        }
      }
      party.RemoveOverride(LegacyClaimAmount);
    }
  }

  /** A stored claim count is never 0 or negative, and no party is counted for chunks it does not own. */
  lemma CountsPositive(m: ClaimManager, p: Uuid)
    requires m.Valid()
    ensures p in m.partyClaimCounts ==> m.partyClaimCounts[p] >= 1
    ensures p !in m.partyClaimCounts ==> forall d, c :: d in m.chunks && c in m.chunks[d] ==> m.chunks[d][c].partyOwner != p
  {
    if p in m.partyClaimCounts {
      assert Owned(m.chunks, p) != {};
    } else {
      forall d, c | d in m.chunks && c in m.chunks[d]
        ensures m.chunks[d][c].partyOwner != p
      {
        assert (d, c) !in Owned(m.chunks, p);
      }
    }
  }

  /** A chunk is never reserved by its own party and by another party at once. */
  lemma ReservedOwnOrOther(m: ClaimManager, d: string, x: int, z: int, p: Uuid)
    ensures !(m.IsReservedByOwnParty(d, x, z, p) && m.IsReservedByOtherParty(d, x, z, p))
    ensures m.GetReservedChunk(d, x, z).Some? <==> m.IsReservedByOwnParty(d, x, z, p) || m.IsReservedByOtherParty(d, x, z, p)
  {
  }
}
