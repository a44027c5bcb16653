/**
 * The global configuration the registry reads (Main.CONFIG in the source),
 * passed to every operation as an explicit, read-only value.
 */
module Config {

  /** The per-party boolean protection settings, each with a global default. */
  datatype Flag =
    | PlaceBlocks | BreakBlocks | Interact | Pvp | FriendlyFire | AllowEntry
    | InteractChest | InteractDoor | InteractBench | InteractChair | InteractPortal

  datatype Config = Config(
    defaultPartyClaimsAmount: int,
    scaleClaimLimitByMembers: bool,
    maxAddChunkAmount: int,
    defaultBlockPlace: bool,
    defaultBlockBreak: bool,
    defaultBlockInteract: bool,
    defaultPvp: bool,
    defaultFriendlyFire: bool,
    defaultAllowEntry: bool,
    defaultInteractChest: bool,
    defaultInteractDoor: bool,
    defaultInteractBench: bool,
    defaultInteractChair: bool,
    defaultInteractPortal: bool,
    maxPartyMembers: int,          // -1: no limit
    maxPartyAllies: int,           // -1: no limit
    enablePerimeterReservation: bool,
    enableAdjacentChunkRestriction: bool,
    partyInactivityHours: int,     // < 0: the inactivity sweep is off
    migrateOldClaimOverrides: bool,
    fullWorldProtection: seq<string>)
  {
    /** The global default of one protection flag. */
    function FlagDefault(f: Flag): bool
    {
      match f
      case PlaceBlocks => defaultBlockPlace
      case BreakBlocks => defaultBlockBreak
      case Interact => defaultBlockInteract
      case Pvp => defaultPvp
      case FriendlyFire => defaultFriendlyFire
      case AllowEntry => defaultAllowEntry
      case InteractChest => defaultInteractChest
      case InteractDoor => defaultInteractDoor
      case InteractBench => defaultInteractBench
      case InteractChair => defaultInteractChair
      case InteractPortal => defaultInteractPortal
    }
  }

  /** A size cap of -1 means unlimited; otherwise a set at or above the cap may not grow. */
  predicate AtCap(cap: int, size: nat)
  {
    cap != -1 && size >= cap
  }
}
