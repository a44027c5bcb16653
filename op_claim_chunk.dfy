/**
 * The admin claim command: an operator claims the chunk they stand in on
 * behalf of the party they selected beforehand. The command runs a chain of
 * guards against the registry and claims only when every guard passes; each
 * failing guard ends the command with its own message.
 *
 * Admission is the guard chain as a function of the registry state;
 * AdminClaimChunk runs the same chain with the registry's own queries and
 * claims exactly when Admission says Claimed.
 */
module AdminClaim {
  import opened Common
  import opened Config
  import opened Party
  import opened Perimeter
  import opened Claims

  /** The message the command ends with. */
  datatype Outcome =
    | NotSelected            // no party selected by this admin
    | PartyNotFound          // the selected party no longer exists
    | AlreadyClaimedByYou    // the chunk is claimed by the selected party
    | AlreadyClaimedByOther  // the chunk is claimed by another party
    | ReservedByOtherParty   // reserved by, or its perimeter overlaps, another party's reservation
    | NotAdjacent            // the party has claims and this chunk touches none of them
    | NotEnoughChunks        // the party's quota is used up
    | Claimed

  /** The registry reading of wouldPerimeterOverlapOtherReserved with reservation on. */
  ghost predicate PerimeterOverlaps(m: ClaimManager, d: string, x: int, z: int, p: Uuid)
    reads m
  {
    d in m.reservedChunks && exists n :: n in Neighbours8((x, z)) && m.OverlapsOtherAt(d, n, p)
  }

  /** The registry reading of isAdjacentToPartyClaims. */
  ghost predicate AdjacentToClaims(m: ClaimManager, d: string, x: int, z: int, p: Uuid)
    reads m
  {
    exists n :: n in Neighbours4((x, z)) && m.ClaimedBy(d, n, p)
  }

  /**
   * The guard chain, in the command's order: a selected party, that still
   * exists, an unclaimed chunk, no reservation of another party on the
   * chunk or on its would-be perimeter (both skipped when the chunk is the
   * party's own reservation), adjacency to an existing claim when the
   * restriction is on and the party has claims (again waived for its own
   * reservation), and quota left.
   */
  ghost function Admission(m: ClaimManager, admin: Uuid, d: string, x: int, z: int, cfg: Config, claimPerm: map<Uuid, int>): (r: Outcome)
    reads m, m.parties.Values
    requires m.Valid() && m.PartiesValid()
    ensures r == NotSelected <==> admin !in m.adminUsageParty
    ensures r == PartyNotFound <==> admin in m.adminUsageParty && m.adminUsageParty[admin] !in m.parties
    ensures (r == AlreadyClaimedByYou || r == AlreadyClaimedByOther) <==>
      admin in m.adminUsageParty && m.adminUsageParty[admin] in m.parties && m.GetChunk(d, x, z).Some?
    ensures r == AlreadyClaimedByYou ==> m.GetChunk(d, x, z).value.partyOwner == m.adminUsageParty[admin]
    ensures r == AlreadyClaimedByOther ==> m.GetChunk(d, x, z).value.partyOwner != m.adminUsageParty[admin]
    ensures r == Claimed ==>
      && admin in m.adminUsageParty
      && var p := m.adminUsageParty[admin];
      && p in m.parties
      && m.GetChunk(d, x, z).None?
      && |Owned(m.chunks, p)| < m.parties[p].MaxClaimAmount(cfg, claimPerm)
      && (cfg.enablePerimeterReservation ==> !m.IsReservedByOtherParty(d, x, z, p))
      && (cfg.enablePerimeterReservation && !m.IsReservedByOwnParty(d, x, z, p) ==> !PerimeterOverlaps(m, d, x, z, p))
      && (cfg.enableAdjacentChunkRestriction && |Owned(m.chunks, p)| > 0 ==>
            AdjacentToClaims(m, d, x, z, p) || m.IsReservedByOwnParty(d, x, z, p))
  {
    if admin !in m.adminUsageParty then NotSelected
    else
      var selectedPartyId := m.adminUsageParty[admin];
      if selectedPartyId !in m.parties then PartyNotFound
      else
        var party := m.parties[selectedPartyId];
        match m.GetChunk(d, x, z)
        case Some(chunk) =>
          if chunk.partyOwner == party.id then AlreadyClaimedByYou else AlreadyClaimedByOther
        case None =>
          var isOwnReserved := m.IsReservedByOwnParty(d, x, z, party.id);
          if cfg.enablePerimeterReservation && !isOwnReserved && m.IsReservedByOtherParty(d, x, z, party.id) then
            ReservedByOtherParty
          else if cfg.enablePerimeterReservation && !isOwnReserved && PerimeterOverlaps(m, d, x, z, party.id) then
            ReservedByOtherParty
          else if cfg.enableAdjacentChunkRestriction && m.GetAmountOfClaims(party) > 0
                  && !AdjacentToClaims(m, d, x, z, party.id) && !isOwnReserved then
            NotAdjacent
          else if !(|Owned(m.chunks, party.id)| < party.MaxClaimAmount(cfg, claimPerm)) then
            NotEnoughChunks
          else
            Claimed
  }

  /**
   * A chunk the selected party has reserved itself can be claimed whenever
   * it is unclaimed and quota is left: neither the perimeter-overlap guard
   * nor the adjacency guard applies to it.
   */
  lemma OwnReservationBypass(m: ClaimManager, admin: Uuid, d: string, x: int, z: int, cfg: Config, claimPerm: map<Uuid, int>)
    requires m.Valid() && m.PartiesValid()
    requires admin in m.adminUsageParty && m.adminUsageParty[admin] in m.parties
    requires m.GetChunk(d, x, z).None?
    requires m.IsReservedByOwnParty(d, x, z, m.adminUsageParty[admin])
    requires |Owned(m.chunks, m.adminUsageParty[admin])| < m.parties[m.adminUsageParty[admin]].MaxClaimAmount(cfg, claimPerm)
    ensures Admission(m, admin, d, x, z, cfg, claimPerm) == Claimed
  {
    var p := m.adminUsageParty[admin];
    assert m.parties[p].id == p;
    ReservedOwnOrOther(m, d, x, z, p);
  }

  /**
   * With reservation on, a chunk another party has reserved is never
   * claimed, whatever the quota and adjacency.
   */
  lemma OtherReservationBlocks(m: ClaimManager, admin: Uuid, d: string, x: int, z: int, cfg: Config, claimPerm: map<Uuid, int>)
    requires m.Valid() && m.PartiesValid()
    requires cfg.enablePerimeterReservation
    requires admin in m.adminUsageParty
    requires m.GetReservedChunk(d, x, z).Some? && m.GetReservedChunk(d, x, z).value != m.adminUsageParty[admin]
    ensures Admission(m, admin, d, x, z, cfg, claimPerm) != Claimed
  {
  }

  /**
   * The command's queries, run in its order against the registry: the
   * verdict is the guard chain's, and nothing is changed.
   */
  method CheckAdmission(m: ClaimManager, admin: Uuid, d: string, x: int, z: int, cfg: Config, claimPerm: map<Uuid, int>)
    returns (outcome: Outcome)
    requires m.Valid() && m.PartiesValid()
    ensures outcome == Admission(m, admin, d, x, z, cfg, claimPerm)
  {
    if admin !in m.adminUsageParty {
      return NotSelected;
    }
    var selectedPartyId := m.adminUsageParty[admin];
    if selectedPartyId !in m.parties {
      return PartyNotFound;
    }
    var party := m.parties[selectedPartyId];
    var chunk := m.GetChunk(d, x, z);
    if chunk.Some? {
      return if chunk.value.partyOwner == party.id then AlreadyClaimedByYou else AlreadyClaimedByOther;
    }
    var isOwnReserved := m.IsReservedByOwnParty(d, x, z, party.id);
    if cfg.enablePerimeterReservation && !isOwnReserved && m.IsReservedByOtherParty(d, x, z, party.id) {
      return ReservedByOtherParty;
    }
    if cfg.enablePerimeterReservation && !isOwnReserved {
      var overlaps := m.WouldPerimeterOverlapOtherReserved(d, x, z, party.id, cfg);
      if overlaps {
        return ReservedByOtherParty;
      }
    }
    if cfg.enableAdjacentChunkRestriction && m.GetAmountOfClaims(party) > 0 {
      var isAdjacent := m.IsAdjacentToPartyClaims(d, x, z, party.id);
      if !isAdjacent && !isOwnReserved {
        return NotAdjacent;
      }
    }
    var enough := m.HasEnoughClaimsLeft(party, cfg, claimPerm);
    if !enough {
      return NotEnoughChunks;
    }
    return Claimed;
  }

  /**
   * Runs the command for the admin standing in chunk (x, z) of dimension d.
   * The outcome is the guard chain's verdict on the registry as it was; the
   * registry changes only on Claimed, where exactly that chunk becomes the
   * selected party's, no other party's claims change, the party's perimeter
   * is recomputed when reservation is on, and its claim count stays within
   * its quota.
   */
  method AdminClaimChunk(m: ClaimManager, admin: Uuid, d: string, x: int, z: int, cfg: Config, claimPerm: map<Uuid, int>)
    returns (outcome: Outcome)
    requires m.Valid() && m.PartiesValid()
    modifies m
    ensures m.Valid() && m.PartiesValid()
    ensures outcome == old(Admission(m, admin, d, x, z, cfg, claimPerm))
    ensures outcome != Claimed ==>
      && m.chunks == old(m.chunks) && m.reservedChunks == old(m.reservedChunks)
      && m.partyClaimCounts == old(m.partyClaimCounts)
    ensures outcome == Claimed ==>
      && admin in m.adminUsageParty
      && var p := m.adminUsageParty[admin];
      && p in m.parties
      && m.GetChunk(d, x, z) == Some(ChunkInfo(p, x, z))
      && m.chunks == old(m.chunks)[d := GetOrDefault(old(m.chunks), d, map[])[(x, z) := ChunkInfo(p, x, z)]]
      && |Owned(m.chunks, p)| == old(|Owned(m.chunks, p)|) + 1
      && |Owned(m.chunks, p)| <= m.parties[p].MaxClaimAmount(cfg, claimPerm)
      && (forall q :: q != p ==> Owned(m.chunks, q) == old(Owned(m.chunks, q)))
      && m.reservedChunks == if cfg.enablePerimeterReservation
                             then PerimeterUpdate(m.chunks, old(m.reservedChunks), d, p)
                             else old(m.reservedChunks)
    ensures m.parties == old(m.parties) && m.playerToParty == old(m.playerToParty)
    ensures m.partyInvites == old(m.partyInvites) && m.adminOverrides == old(m.adminOverrides)
    ensures m.adminUsageParty == old(m.adminUsageParty)
  {
    outcome := CheckAdmission(m, admin, d, x, z, cfg, claimPerm);
    if outcome == Claimed {
      var party := m.parties[m.adminUsageParty[admin]];
      var chunkInfo := m.ClaimChunkBy(d, x, z, party, cfg);
    }
  }
}
