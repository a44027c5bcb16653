# SimpleClaims claim and party registry, in Dafny

This project models the in-memory core of SimpleClaims, a chunk-claiming plugin. Players form parties, and parties claim chunks of a world.
Its parts:

- **Registry** (`Claims.ClaimManager`, `claim_manager.dfy`). The registry holds:
  - the claimed chunks of each dimension;
  - the perimeter reservations each party keeps around its claims;
  - a per-party claim-count cache;
  - the player-to-party index, pending invites, admin overrides, and each admin's selected party.

  Its methods claim, unclaim, recompute a party's perimeter, answer the pre-claim queries, decide whether a player may interact with a chunk, and manage parties: create, invite, accept, leave, disband, the inactivity sweep, and the legacy-quota migration.
  The registry invariant (`RegistryInvariant`, `ClaimManager.Valid`) says:
  - every claim is filed under its own coordinates;
  - the count cache holds, for each party that owns chunks, exactly the number it owns (absent means 0);
  - every party is filed under its own id.

  Every state-changing method preserves this invariant.
- **Perimeter** (`Perimeter`, `perimeter.dfy`). A party's ring is the set of 8-neighbours of its claims in a dimension, minus its own claims. Reconciling a dimension's reservations with that ring is specified by the function `Reconciled`. The four loops of updateReservedPerimeter are proved against `OwnedCoords`, `Ring`, `Stale` and `Reconciled`.
- **Party policy** (`Party.PartyInfo`, `party_info.dfy`):
  - the canonical override map (an override equal to its default is not stored);
  - quota resolution (base override, legacy override, permission amounts, member scaling, bonus);
  - the protection flags;
  - member and ally caps;
  - the per-player permission grants.
- **Coordinate key and reservation value** (`Coordinates`, `coordinates.dfy`):
  - the `"x:z"` key, with a proof that splitting on `:` and parsing gives back `(x, z)` for every pair of ints, and that the key is injective. This is why the registry maps are keyed by the pair `(x, z)`;
  - `ReservedChunk`, with identity by coordinate only.
- **Admin claim command** (`AdminClaim`, `op_claim_chunk.dfy`). The chain of guards an operator's claim passes before the registry claims the chunk. It is a function `Admission` of the registry state, plus a method that runs the registry's queries and claims exactly when `Admission` says `Claimed`.

The global configuration is a `Config` value passed to each operation. The permission plugin's per-player amounts are passed as maps, where a missing entry or -1 means no amount. The inactivity sweep takes the name tracker's last-seen times, the set of online players, and the current time as parameters.

Where the code's comments and its statements disagree, the model follows the statements:
- The perimeter loop's comment at `ClaimManager.java:676` says a neighbour already claimed by another party is not reserved. The test beneath it (`ClaimManager.java:678`) compares the owner with the reserving party itself, which is always true at that point because the party's own claims were skipped just before. So chunks that other parties claim enter the ring and are reserved. See `Perimeter.RingIncludesOtherClaims` and `Claims.PerimeterReservesOtherClaims`.
- A ring coordinate reserved by another party is taken over by the recomputing party (`Perimeter.Reconciled`).
- `createParty` also adds the owner to the member set, so the owner is counted twice in the member count and in the scaled quota (`Claims.ClaimManager.CreateParty`, `Party.ScaledDefaultQuota`).

## Model

| member | source | states |
|---|---|---|
| Coordinates.FormatParseRoundTrip | src/main/java/com/buuz135/simpleclaims/claim/chunk/ReservedChunk.java:46-48 | splitting formatCoordinates(x, z) (`Coordinates.FormatCoordinates`) on ':' and parsing both pieces with Java's parseInt (`Coordinates.ParseCoordinates`, the parse at ClaimManager.java:661-663) gives back (x, z) for every pair of ints, negatives included |
| Coordinates.FormatInjective | src/main/java/com/buuz135/simpleclaims/claim/chunk/ReservedChunk.java:46-48 | two coordinate pairs with the same key are the same pair |
| Coordinates.ParseIntToString | src/main/java/com/buuz135/simpleclaims/claim/ClaimManager.java:661-663 | parseInt inverts Java's decimal rendering of an int |
| Coordinates.JavaHash2 | src/main/java/com/buuz135/simpleclaims/claim/chunk/ReservedChunk.java:58-61 | Objects.hash(x, z), which `Coordinates.ReservedChunk.HashCode` returns, is a 32-bit signed value |
| Coordinates.ReservedChunk.constructor | src/main/java/com/buuz135/simpleclaims/claim/chunk/ReservedChunk.java:16-20 | the new reservation holds the given holder and coordinates |
| Coordinates.ReservedChunk.SetReservedBy | src/main/java/com/buuz135/simpleclaims/claim/chunk/ReservedChunk.java:26-28 | only the holder changes; coordinates, key and hash stay |
| Coordinates.ReservedChunk.SetChunkX | src/main/java/com/buuz135/simpleclaims/claim/chunk/ReservedChunk.java:34-36 | sets chunkX, nothing else changes |
| Coordinates.ReservedChunk.SetChunkZ | src/main/java/com/buuz135/simpleclaims/claim/chunk/ReservedChunk.java:42-44 | sets chunkZ, nothing else changes |
| Coordinates.ReservedChunk.Equals | src/main/java/com/buuz135/simpleclaims/claim/chunk/ReservedChunk.java:50-56 | equal iff the other reservation is non-null with the same coordinates |
| Coordinates.EqualsIgnoresHolder | src/main/java/com/buuz135/simpleclaims/claim/chunk/ReservedChunk.java:50-56 | reservations at one coordinate are equal whoever holds them |
| Coordinates.EqualsSameKey | src/main/java/com/buuz135/simpleclaims/claim/chunk/ReservedChunk.java:46-56 | equal reservations have the same registry key |
| Coordinates.EqualsReflexive | src/main/java/com/buuz135/simpleclaims/claim/chunk/ReservedChunk.java:50-56 | equals is reflexive |
| Coordinates.EqualsSymmetric | src/main/java/com/buuz135/simpleclaims/claim/chunk/ReservedChunk.java:50-56 | equals is symmetric |
| Coordinates.EqualsTransitive | src/main/java/com/buuz135/simpleclaims/claim/chunk/ReservedChunk.java:50-56 | equals is transitive |
| Coordinates.EqualsSameHash | src/main/java/com/buuz135/simpleclaims/claim/chunk/ReservedChunk.java:50-61 | equal reservations have equal hash codes |
| Party.WithOverride | src/main/java/com/buuz135/simpleclaims/claim/party/PartyInfo.java:303-323 | the kind is present iff the value is not its elided default (legacy/base equal to the config default, bonus 0), then with the given value; other kinds are untouched; a canonical map stays canonical |
| Party.WithOverrideIdempotent | src/main/java/com/buuz135/simpleclaims/claim/party/PartyInfo.java:303-323 | setting the same override twice equals setting it once |
| Party.BonusLimitOf | src/main/java/com/buuz135/simpleclaims/claim/party/PartyInfo.java:200-205 | one player's bonus-limit share is at least the config maximum |
| Party.PartyInfo.constructor | src/main/java/com/buuz135/simpleclaims/claim/party/PartyInfo.java:27-47 | a new party holds exactly the five seeded protection overrides at their config defaults, no allies and no grants |
| Party.PartyInfo.GetOverride | src/main/java/com/buuz135/simpleclaims/claim/party/PartyInfo.java:325-327 | the stored override of that kind, none when absent |
| Party.PartyInfo.SetOverride | src/main/java/com/buuz135/simpleclaims/claim/party/PartyInfo.java:303-323 | the override map becomes WithOverride of the old one; members, allies and grants unchanged; well-typedness kept |
| Party.PartyInfo.RemoveOverride | src/main/java/com/buuz135/simpleclaims/claim/ClaimManager.java:519 | drops exactly that kind; nothing else changes |
| Party.PartyInfo.AddMember | src/main/java/com/buuz135/simpleclaims/claim/party/PartyInfo.java:129-134 | no change at the member cap, else the id is added; a member set within the cap stays within it |
| Party.PartyInfo.RemoveMember | src/main/java/com/buuz135/simpleclaims/claim/party/PartyInfo.java:136-139 | only that id leaves the member set |
| Party.PartyInfo.AddPartyAllies | src/main/java/com/buuz135/simpleclaims/claim/party/PartyInfo.java:353-358 | no change when party plus player allies reach the shared cap, else added; allies within the cap stay within it |
| Party.PartyInfo.RemovePartyAllies | src/main/java/com/buuz135/simpleclaims/claim/party/PartyInfo.java:360-362 | only that id leaves the party allies |
| Party.PartyInfo.AddPlayerAllies | src/main/java/com/buuz135/simpleclaims/claim/party/PartyInfo.java:364-369 | the same shared cap as party allies, for player allies |
| Party.PartyInfo.RemovePlayerAllies | src/main/java/com/buuz135/simpleclaims/claim/party/PartyInfo.java:371-373 | only that id leaves the player allies |
| Party.PartyInfo.GetBaseClaimAmount | src/main/java/com/buuz135/simpleclaims/claim/party/PartyInfo.java:141-182 | the loop's result is BaseClaimAmount: base override (times the member count when scaling), else legacy override, else the owner's amount or default, else with scaling the sum over owner and members |
| Party.PartyInfo.GetBonusChunks | src/main/java/com/buuz135/simpleclaims/claim/party/PartyInfo.java:184-190 | 0 without a bonus override, else the override's value |
| Party.PartyInfo.GetMaxBonusLimit | src/main/java/com/buuz135/simpleclaims/claim/party/PartyInfo.java:192-209 | the loop's result is MaxBonusLimit; with scaling it is at least the config maximum times the member count |
| Party.PartyInfo.GetMaxClaimAmount | src/main/java/com/buuz135/simpleclaims/claim/party/PartyInfo.java:211-213 | the result is MaxClaimAmount, the base plus the bonus |
| Party.PartyInfo.FlagEnabled | src/main/java/com/buuz135/simpleclaims/claim/party/PartyInfo.java:215-301 | the override's boolean when present, else the flag's config default |
| Party.PartyInfo.HasPermission | src/main/java/com/buuz135/simpleclaims/claim/party/PartyInfo.java:387-408 | stated through the IsOwner, IsMember, IsPlayerAllied and IsPartyAllied predicates (PartyInfo.java:105-115 and 375-381): owner always; a member or ally with a grant gets the grant; a member without one gets all but modify-info; allies without one and strangers get nothing |
| Party.PartyInfo.HasPartyPermission | src/main/java/com/buuz135/simpleclaims/claim/party/PartyInfo.java:410-418 | true iff an explicit grant exists and is true |
| Party.PartyInfo.SetPermission | src/main/java/com/buuz135/simpleclaims/claim/party/PartyInfo.java:420-422 | a later lookup returns the value set, for the party lookup and for a non-owner member or ally |
| Party.PartyInfo.RemovePermission | src/main/java/com/buuz135/simpleclaims/claim/party/PartyInfo.java:424-431 | that grant is gone, every other grant is unchanged, and no holder is left with an empty grant map |
| Party.DefaultQuota | src/main/java/com/buuz135/simpleclaims/claim/party/PartyInfo.java:162-168 | without scaling, quota overrides or permission amounts, the maximum is the default plus the bonus |
| Party.ScaledDefaultQuota | src/main/java/com/buuz135/simpleclaims/claim/party/PartyInfo.java:169-181 | with scaling and no amounts, the base is the default times 1 + the member count (owner counted again when a member) |
| Party.SeededPartyDefaults | src/main/java/com/buuz135/simpleclaims/claim/party/PartyInfo.java:36-41 | a freshly seeded party resolves every flag to its default, has no bonus and no quota override |
| Perimeter.Neighbours8Touching | src/main/java/com/buuz135/simpleclaims/claim/ClaimManager.java:666-671 | the offset table lists exactly the chunks at Chebyshev distance 1 |
| Perimeter.Neighbours4WithinNeighbours8 | src/main/java/com/buuz135/simpleclaims/claim/ClaimManager.java:540-546 | the 4 orthogonal neighbours are the side-sharing part of the 8-neighbourhood |
| Perimeter.RingTouching | src/main/java/com/buuz135/simpleclaims/claim/ClaimManager.java:658-683 | a chunk is in the ring iff it is not one of the claims and touches one |
| Perimeter.RingIncludesOtherClaims | src/main/java/com/buuz135/simpleclaims/claim/ClaimManager.java:674-681 | a chunk another party claims, touching one of p's claims, is in p's ring |
| Perimeter.Reconciled | src/main/java/com/buuz135/simpleclaims/claim/ClaimManager.java:685-717 | p holds exactly the ring afterwards; outside the ring other holders keep their reservations and p keeps none |
| Perimeter.RemoveThenReserve | src/main/java/com/buuz135/simpleclaims/claim/ClaimManager.java:685-717 | dropping p's stale reservations and then reserving the ring gives Reconciled |
| Perimeter.CollectPartyCoords | src/main/java/com/buuz135/simpleclaims/claim/ClaimManager.java:633-638 | the loop collects exactly the coordinates p claims |
| Perimeter.ComputePerimeter | src/main/java/com/buuz135/simpleclaims/claim/ClaimManager.java:659-683 | the nested offset loop computes exactly Ring(claims) |
| Perimeter.CollectStale | src/main/java/com/buuz135/simpleclaims/claim/ClaimManager.java:687-692 | the loop collects exactly p's reservations outside the perimeter |
| Perimeter.ReservePerimeter | src/main/java/com/buuz135/simpleclaims/claim/ClaimManager.java:699-717 | every perimeter coordinate ends up held by p; everything else is unchanged |
| Claims.CountIsOwned | src/main/java/com/buuz135/simpleclaims/claim/ClaimManager.java:261-263 | under the cache invariant, the cached count (missing = 0) is the number of owned chunks |
| Claims.OwnedAfterClaim | src/main/java/com/buuz135/simpleclaims/claim/ClaimManager.java:222-227 | a claim at a free coordinate adds it to its owner's chunks and to no one else's |
| Claims.OwnedAfterUnclaim | src/main/java/com/buuz135/simpleclaims/claim/ClaimManager.java:265-271 | removing a claim removes it from its owner's chunks only |
| Claims.CountsAfterClaim | src/main/java/com/buuz135/simpleclaims/claim/ClaimManager.java:227 | merge with +1 keeps the cache equal to ownership |
| Claims.CountsAfterUnclaim | src/main/java/com/buuz135/simpleclaims/claim/ClaimManager.java:271 | decrement, or delete at 1, keeps the cache equal to ownership |
| Claims.OverwriteBreaksCounts | src/main/java/com/buuz135/simpleclaims/claim/ClaimManager.java:222-227 | claiming over another party's claim leaves the cache out of step with ownership |
| Claims.WithoutParties | src/main/java/com/buuz135/simpleclaims/claim/ClaimManager.java:370-376 | removing parties' claims keeps every dimension entry |
| Claims.WithoutHolders | src/main/java/com/buuz135/simpleclaims/claim/ClaimManager.java:379-381 | removing parties' reservations keeps every dimension entry |
| Claims.OwnedWithoutParties | src/main/java/com/buuz135/simpleclaims/claim/ClaimManager.java:370-376 | a disbanded party owns nothing afterwards; every other party owns what it owned |
| Claims.CountsWithoutParties | src/main/java/com/buuz135/simpleclaims/claim/ClaimManager.java:388 | dropping the disbanded parties' cache entries keeps the cache equal to ownership |
| Claims.PerimeterUpdateMeaning | src/main/java/com/buuz135/simpleclaims/claim/ClaimManager.java:628-718 | about `Claims.PerimeterUpdate`, the whole update as a function of the state: afterwards p's reservations in d are exactly its ring (none without claims); other holders keep what lies outside it; other dimensions are unchanged |
| Claims.OwnReservationDropSubsumed | src/main/java/com/buuz135/simpleclaims/claim/ClaimManager.java:229-246 | claimChunkBy's removal of its own reservation changes nothing the recomputation would not |
| Claims.ClaimedCoordKeepsHolder | src/main/java/com/buuz135/simpleclaims/claim/ClaimManager.java:229-246 | at a coordinate p claims, another party's reservation survives p's recomputation and p's own does not |
| Claims.AdjacentIsInRing | src/main/java/com/buuz135/simpleclaims/claim/ClaimManager.java:539-554 | a chunk 4-adjacent to p's claim and not p's is in p's ring |
| Claims.PerimeterReservesOtherClaims | src/main/java/com/buuz135/simpleclaims/claim/ClaimManager.java:674-681 | recomputing p's perimeter reserves, for p, another party's claim touching p's claim |
| Claims.IsPartyInactive | src/main/java/com/buuz135/simpleclaims/claim/ClaimManager.java:457-477 | true iff the owner and every member have a positive last-seen time, are offline and were last seen at least the threshold ago |
| Claims.CollectInactive | src/main/java/com/buuz135/simpleclaims/claim/ClaimManager.java:452-481 | the collected ids are exactly the inactive parties |
| Claims.MigratedOverrides | src/main/java/com/buuz135/simpleclaims/claim/ClaimManager.java:497-519 | with legacy value V and default D: V > D stores a bonus of V - D, V < D a base of V, V == D adds nothing; every other override is kept, the legacy override is gone afterwards, and a party without one is unchanged |
| Claims.MigrateParty | src/main/java/com/buuz135/simpleclaims/claim/ClaimManager.java:497-519 | one party's override map becomes MigratedOverrides of the old one; members, allies and grants unchanged; well-typedness kept |
| Claims.MigrationKeepsQuota | src/main/java/com/buuz135/simpleclaims/claim/ClaimManager.java:502-519 | without scaling or an owner amount, migrating a legacy-only party keeps its maximum claim amount |
| Claims.RebuildClaimCounts | src/main/java/com/buuz135/simpleclaims/claim/ClaimManager.java:110-115 | the rebuilt cache agrees with ownership |
| Claims.RebuildPlayerIndex | src/main/java/com/buuz135/simpleclaims/claim/ClaimManager.java:102-107 | every indexed player is a member of its party, and every member is indexed |
| Claims.RegistryAfterClaim | src/main/java/com/buuz135/simpleclaims/claim/ClaimManager.java:222-227 | filing and counting a claim at a free coordinate keeps the registry invariant |
| Claims.RegistryAfterUnclaim | src/main/java/com/buuz135/simpleclaims/claim/ClaimManager.java:265-271 | removing and uncounting a claim keeps the registry invariant |
| Claims.ClaimManager.Load | src/main/java/com/buuz135/simpleclaims/claim/ClaimManager.java:59-130 | the loaded registry satisfies the invariant, with the index and cache rebuilt; well-typed loaded parties stay well typed |
| Claims.ClaimManager.GetChunk | src/main/java/com/buuz135/simpleclaims/claim/ClaimManager.java:211-215 | the claim at (x, z) when present, and it carries those coordinates |
| Claims.ClaimManager.GetReservedChunk | src/main/java/com/buuz135/simpleclaims/claim/ClaimManager.java:618-622 | the reservation holder at (x, z) when present |
| Claims.ClaimManager.GetAmountOfClaims | src/main/java/com/buuz135/simpleclaims/claim/ClaimManager.java:261-263 | the number of chunks the party owns; 0 iff it has no cache entry |
| Claims.ClaimManager.HasEnoughClaimsLeft | src/main/java/com/buuz135/simpleclaims/claim/ClaimManager.java:255-259 | true iff owned chunks < the party's maximum claim amount |
| Claims.ClaimManager.IsReservedByOtherParty | src/main/java/com/buuz135/simpleclaims/claim/ClaimManager.java:559-565 | reserved, by someone other than the given party |
| Claims.ClaimManager.IsReservedByOwnParty | src/main/java/com/buuz135/simpleclaims/claim/ClaimManager.java:570-576 | reserved by the given party |
| Claims.ReservedOwnOrOther | src/main/java/com/buuz135/simpleclaims/claim/ClaimManager.java:559-576 | never both own and other; reserved iff one of them |
| Claims.ClaimManager.WouldPerimeterOverlapOtherReserved | src/main/java/com/buuz135/simpleclaims/claim/ClaimManager.java:581-612 | false when reservation is off or d has no reservations; otherwise true iff some 8-neighbour that p does not claim is reserved by another party |
| Claims.ClaimManager.IsAdjacentToPartyClaims | src/main/java/com/buuz135/simpleclaims/claim/ClaimManager.java:539-554 | true iff p claims one of the 4 orthogonal neighbours |
| Claims.ClaimManager.IsAllowedToInteract | src/main/java/com/buuz135/simpleclaims/claim/ClaimManager.java:153-178 | admin: yes; unclaimed: iff the dimension is not fully protected; vanished party: yes; no player: no; owner: yes; member or player ally: hasPermission; player of an allied party: hasPartyPermission; others: the flag |
| Claims.ClaimManager.UpdateReservedPerimeter | src/main/java/com/buuz135/simpleclaims/claim/ClaimManager.java:628-718 | the reservations become PerimeterUpdate of the old ones; claims, counts and parties unchanged; invariant kept |
| Claims.ClaimManager.RecordClaim | src/main/java/com/buuz135/simpleclaims/claim/ClaimManager.java:223-227 | files the claim and increments its owner's count; invariant kept |
| Claims.ClaimManager.ClaimChunkBy | src/main/java/com/buuz135/simpleclaims/claim/ClaimManager.java:222-249 | the chunk becomes the party's; its count and owned set grow by one, no one else's change; reservations become the party's recomputed perimeter (reservation on) or stay; another party's reservation at (x, z) stays |
| Claims.ClaimManager.DropClaim | src/main/java/com/buuz135/simpleclaims/claim/ClaimManager.java:266-271 | removes the claim and decrements (or deletes) its owner's count; invariant kept |
| Claims.ClaimManager.Unclaim | src/main/java/com/buuz135/simpleclaims/claim/ClaimManager.java:265-280 | no claim: nothing changes; otherwise the claim goes, the owner's count drops by one (entry deleted at 0), no one else's ownership changes, and the owner's perimeter is recomputed when reservation is on |
| Claims.CountsPositive | src/main/java/com/buuz135/simpleclaims/claim/ClaimManager.java:271 | a stored count is at least 1, and a party without an entry owns nothing |
| Claims.ClaimManager.CreateParty | src/main/java/com/buuz135/simpleclaims/claim/ClaimManager.java:192-201 | a fresh party with the owner also as member (member count 2) unless the member cap is 0, filed under its id, indexed for its owner unless created by an admin; the new party carries the seeded protection overrides and has no allies and no grants; every registered party stays well typed |
| Claims.ClaimManager.InvitePlayerToParty | src/main/java/com/buuz135/simpleclaims/claim/ClaimManager.java:326-328 | the recipient's invite is replaced by the new one |
| Claims.ClaimManager.AcceptInvite | src/main/java/com/buuz135/simpleclaims/claim/ClaimManager.java:330-344 | no invite, or the party is gone: nothing changes; at the cap: the invite is consumed and nobody joins; otherwise the player joins, is indexed, and the invite is consumed and returned; the invited party's overrides, allies and grants are unchanged, and every registered party stays well typed |
| Claims.ClaimManager.DisbandParty | src/main/java/com/buuz135/simpleclaims/claim/ClaimManager.java:365-392 | the party's claims, reservations, count entry, record and members' index entries are removed in every dimension; nothing else |
| Claims.ClaimManager.LeaveParty | src/main/java/com/buuz135/simpleclaims/claim/ClaimManager.java:350-363 | the owner leaving disbands the party; anyone else leaves the member set and the index |
| Claims.ClaimManager.DisbandAll | src/main/java/com/buuz135/simpleclaims/claim/ClaimManager.java:482-485 | disbanding a set of parties one by one removes exactly their claims, reservations, counts, records and members' index entries |
| Claims.ClaimManager.DisbandInactiveParties | src/main/java/com/buuz135/simpleclaims/claim/ClaimManager.java:447-486 | negative threshold: nothing changes; otherwise exactly the inactive parties are disbanded |
| Claims.ClaimManager.MigrateOldClaimOverrides | src/main/java/com/buuz135/simpleclaims/claim/ClaimManager.java:488-530 | option off: no party changes; option on: every party's overrides become MigratedOverrides of the old ones; members, allies, grants, owner and id unchanged |
| AdminClaim.Admission | src/main/java/com/buuz135/simpleclaims/commands/subcommand/chunk/op/OpClaimChunkCommand.java:42-95 | no selection or a vanished party gives no claim; an already claimed chunk is rejected first; Claimed only for an unclaimed chunk with quota left, not reserved by another party, whose perimeter overlaps no other reservation unless it is the party's own, and adjacent (or own-reserved) when the rule applies |
| AdminClaim.OwnReservationBypass | src/main/java/com/buuz135/simpleclaims/commands/subcommand/chunk/op/OpClaimChunkCommand.java:61-87 | an unclaimed chunk the party reserved itself is claimed whenever quota is left, overlap and adjacency notwithstanding |
| AdminClaim.OtherReservationBlocks | src/main/java/com/buuz135/simpleclaims/commands/subcommand/chunk/op/OpClaimChunkCommand.java:64-69 | with reservation on, a chunk reserved by another party is never claimed |
| AdminClaim.CheckAdmission | src/main/java/com/buuz135/simpleclaims/commands/subcommand/chunk/op/OpClaimChunkCommand.java:42-92 | the registry queries in the command's order give exactly the Admission verdict |
| AdminClaim.AdminClaimChunk | src/main/java/com/buuz135/simpleclaims/commands/subcommand/chunk/op/OpClaimChunkCommand.java:42-95 | the outcome is the verdict on the old state; nothing is claimed unless Claimed; on Claimed the claim map gains exactly the checked chunk for the selected party and nothing else, no other party's owned set changes, the reservations are the party's perimeter update (or unchanged with reservation off), and its count grows by one and stays within its quota |

## Left out

- Persistence: the database calls, the asynchronous write-behind executor and the save wrappers are not modelled. The model is the in-memory state only.
- Startup I/O: the database load and the legacy file migration. `Claims.ClaimManager.Load` takes the loaded maps as parameters. It does not run the override migration, which is the separate `MigrateOldClaimOverrides`.
- Concurrency: the concurrent maps, the executor and the command's asynchronous wrapping. The model is sequential.
- The map-update queue and `worldsNeedingUpdates`. They notify clients and change no registry state.
- canClaimInDimension: it inspects only the host's world configuration and world names.
- The player name tracker. The sweep takes last-seen times, the online set and the current time as parameters.
- createParty's random id, random colour and timestamps. The id is a parameter. Name, description, colour and the tracking stamps are not modelled, and neither are their setters.
- Block-to-chunk conversion (ChunkUtil) is not part of this model. The command and the registry take chunk coordinates.
- Java int overflow: counts, quotas and coordinates are unbounded integers. Only the hash code wraps to 32 bits.
- ParseInt: does not model parseInt's rejection of values outside the 32-bit range; the round trip covers every int.
- A null party owner is not representable. The sweep's skip of parties with no owner and no members is therefore not modelled.
- isAllowedToInteract's `interactMethod` predicate is modelled as a choice of one protection flag getter.
- Claims.ClaimManager.ClaimChunkBy: requires the chunk to be unclaimed. The source has no such check and would overwrite the claim, leaving the previous owner's count too high (`Claims.OverwriteBreaksCounts`). The admin command establishes it (`AdminClaim.Admission`).
- Claims.ClaimManager.GetChunk: modelled without the side effect of creating an empty dimension map. That map is not visible to any modelled query.
- Claims.ClaimManager.GetReservedChunk: returns the holder rather than the ReservedChunk object. A reservation's identity is its coordinate (`Coordinates.EqualsIgnoresHolder`), so the holder is all it adds to the key.
- Party.PartyInfo.RemoveMember: does not remove the player from the registry's player index, as the source's removeMember also does. That removal is made by `Claims.ClaimManager.LeaveParty`, the only modelled caller.
- Party.PartyInfo.SetOverride: requires a value of the kind's type. Java's setOverride stores any value, and a mistyped one would throw later when read. Every caller in this core passes a well-typed value.
- Party.PartyInfo.RemoveOverride: removeOverride is not part of this model's source files. It is modelled as deleting the key.
- The removal loops of updateReservedPerimeter and disbandParty are modelled as map subtraction and comprehension. `Perimeter.CollectStale` and `Perimeter.ReservePerimeter` keep the collecting and reserving loops.
- Party.PartyInfo.TotalMemberCount: its contract states only that the count is at least one. Its exact value (owner plus members) is used through `Party.ScaledDefaultQuota` and `Claims.ClaimManager.CreateParty`.
