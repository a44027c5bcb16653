/**
 * Claimed chunks, reservations, and the perimeter ("ring") a party reserves
 * around its claims in one dimension: the chunks at Chebyshev distance 1
 * from one of its claims that it does not claim itself.
 *
 * A dimension's claims are a map from coordinate to ChunkInfo; its
 * reservations a map from coordinate to the reserving party. A reservation's
 * identity is its coordinate (ReservedChunk.equals), so the holder is all
 * that the registry stores besides the key.
 */
module Perimeter {
  import opened Common

  /** A claimed chunk: the owning party and the chunk's own coordinates. */
  datatype ChunkInfo = ChunkInfo(partyOwner: Uuid, chunkX: int, chunkZ: int)

  type ChunkDimension = map<Coord, ChunkInfo>

  type ReservedDimension = map<Coord, Uuid>

  /** Every claim is filed under its own coordinates. */
  predicate KeysMatch(dim: ChunkDimension)
  {
    forall c :: c in dim ==> (dim[c].chunkX, dim[c].chunkZ) == c
  }

  /** The offset table the source walks: west-to-east, north row first. */
  const DX: seq<int> := [-1, 0, 1, -1, 1, -1, 0, 1]
  const DZ: seq<int> := [-1, -1, -1, 0, 0, 1, 1, 1]

  function Offset(c: Coord, i: nat): Coord
    requires i < 8
  {
    (c.0 + DX[i], c.1 + DZ[i])
  }

  /** The neighbours of c given by the first i entries of the table. */
  function NeighboursUpTo(c: Coord, i: nat): set<Coord>
    requires i <= 8
  {
    set j | 0 <= j < i :: Offset(c, j)
  }

  function Neighbours8(c: Coord): set<Coord>
  {
    NeighboursUpTo(c, 8)
  }

  /** The 4 orthogonal neighbours: north, south, east, west. */
  function Neighbours4(c: Coord): set<Coord>
  {
    {(c.0, c.1 + 1), (c.0, c.1 - 1), (c.0 + 1, c.1), (c.0 - 1, c.1)}
  }

  /** Two distinct chunks at Chebyshev distance 1 (corners included). */
  predicate Touches(a: Coord, b: Coord)
  {
    a != b && -1 <= a.0 - b.0 <= 1 && -1 <= a.1 - b.1 <= 1
  }

  /** The offset table lists exactly the chunks touching c. */
  lemma Neighbours8Touching(c: Coord, n: Coord)
    ensures n in Neighbours8(c) <==> Touches(c, n)
  {
    if Touches(c, n) {
      var dx, dz := n.0 - c.0, n.1 - c.1;
      var i := if dz == -1 then dx + 1 else if dz == 0 then (if dx == -1 then 3 else 4) else dx + 6;
      assert Offset(c, i) == n;
    }
  }

  /** The 4-neighbourhood is the part of the 8-neighbourhood sharing a side. */
  lemma Neighbours4WithinNeighbours8(c: Coord)
    ensures Neighbours4(c) <= Neighbours8(c)
    ensures forall n :: n in Neighbours8(c) ==> (n in Neighbours4(c) <==> n.0 == c.0 || n.1 == c.1)
  {
    assert Offset(c, 1) == (c.0, c.1 - 1);
    assert Offset(c, 3) == (c.0 - 1, c.1);
    assert Offset(c, 4) == (c.0 + 1, c.1);
    assert Offset(c, 6) == (c.0, c.1 + 1);
  }

  /** The coordinates party p claims in one dimension. */
  function OwnedCoords(dim: ChunkDimension, p: Uuid): set<Coord>
  {
    set c | c in dim && dim[c].partyOwner == p
  }

  /** The neighbours of the chunks in done, minus the claims. */
  function RingPart(done: set<Coord>, claims: set<Coord>): set<Coord>
  {
    (set c, n | c in done && n in Neighbours8(c) :: n) - claims
  }

  /** A party's perimeter: every neighbour of its claims that it does not claim itself. */
  function Ring(claims: set<Coord>): set<Coord>
  {
    RingPart(claims, claims)
  }

  /** The ring is the set of unclaimed chunks touching a claim. */
  lemma RingTouching(claims: set<Coord>, n: Coord)
    ensures n in Ring(claims) <==> n !in claims && exists c :: c in claims && Touches(c, n)
  {
    if n in Ring(claims) {
      var c :| c in claims && n in Neighbours8(c);
      Neighbours8Touching(c, n);
    }
    if n !in claims && exists c :: c in claims && Touches(c, n) {
      var c :| c in claims && Touches(c, n);
      Neighbours8Touching(c, n);
    }
  }

  /**
   * A chunk another party claims enters p's ring when it touches one of p's
   * claims: the ring leaves out only p's own claims.
   */
  lemma RingIncludesOtherClaims(dim: ChunkDimension, c: Coord, n: Coord, p: Uuid)
    requires c in dim && dim[c].partyOwner == p
    requires n in dim && dim[n].partyOwner != p
    requires Touches(c, n)
    ensures n in Ring(OwnedCoords(dim, p))
  {
    assert c in OwnedCoords(dim, p);
    RingTouching(OwnedCoords(dim, p), n);
  }

  lemma RingEmpty()
    ensures Ring({}) == {}
  {
  }

  lemma RingPartStep(done: set<Coord>, c: Coord, claims: set<Coord>)
    ensures RingPart(done + {c}, claims) == RingPart(done, claims) + (Neighbours8(c) - claims)
  {
  }

  /** The reservations party p holds in one dimension. */
  function ReservedBy(rd: ReservedDimension, p: Uuid): set<Coord>
  {
    set c | c in rd && rd[c] == p
  }

  /**
   * A dimension's reservations after p's perimeter is recomputed with target
   * ring: p holds exactly the ring (taking over any coordinate held by
   * another party), and every other party keeps what lies outside it.
   */
  function Reconciled(rd: ReservedDimension, ring: set<Coord>, p: Uuid): (r: ReservedDimension)
    ensures ReservedBy(r, p) == ring
    ensures forall c :: c in ring ==> c in r && r[c] == p
    ensures forall c :: c !in ring ==> (c in r <==> c in rd && rd[c] != p)
    ensures forall c :: c in r && c !in ring ==> r[c] == rd[c]
  {
    map c | c in ring + rd.Keys && (c in ring || rd[c] != p) :: if c in ring then p else rd[c]
  }

  /** p's reservations that are not in the target ring. */
  function Stale(rd: ReservedDimension, ring: set<Coord>, p: Uuid): set<Coord>
  {
    set c | c in rd && rd[c] == p && c !in ring
  }

  /** Dropping the stale entries and then reserving the ring is the reconciliation. */
  lemma RemoveThenReserve(rd: ReservedDimension, ring: set<Coord>, p: Uuid)
    ensures (rd - Stale(rd, ring, p)) + (map c | c in ring :: p) == Reconciled(rd, ring, p)
  {
    var lhs := (rd - Stale(rd, ring, p)) + (map c | c in ring :: p);
    assert lhs.Keys == Reconciled(rd, ring, p).Keys;
  }

  // ---------------------------------------------------------------------
  // The loops of updateReservedPerimeter, each over values
  // ---------------------------------------------------------------------

  /** Collects the coordinates of p's claims, read off each claim. */
  method CollectPartyCoords(dim: ChunkDimension, p: Uuid) returns (coords: set<Coord>)
    requires KeysMatch(dim)
    ensures coords == OwnedCoords(dim, p)
  {
    coords := {};
    var todo := dim.Keys;
    while todo != {}
      invariant todo <= dim.Keys
      invariant coords == set c | c in dim.Keys - todo && dim[c].partyOwner == p
      decreases todo
    {
      var key :| key in todo;
      var chunk := dim[key];
      if chunk.partyOwner == p {
        coords := coords + {(chunk.chunkX, chunk.chunkZ)};
      }
      todo := todo - {key};
    }
  }

  /**
   * Walks the offset table around every claim of p and keeps each neighbour
   * that p does not claim. The source's further "not claimed by another
   * party" test compares the owner with p, so it never excludes anything:
   * chunks claimed by other parties enter the perimeter.
   */
  method ComputePerimeter(dim: ChunkDimension, claims: set<Coord>, p: Uuid) returns (perimeter: set<Coord>)
    requires claims == OwnedCoords(dim, p)
    ensures perimeter == Ring(claims)
  {
    perimeter := {};
    var todo := claims;
    while todo != {}
      invariant todo <= claims
      invariant perimeter == RingPart(claims - todo, claims)
      decreases todo
    {
      var c :| c in todo;
      var i := 0;
      while i < 8
        invariant 0 <= i <= 8
        invariant perimeter == RingPart(claims - todo, claims) + (NeighboursUpTo(c, i) - claims)
      {
        var adj := (c.0 + DX[i], c.1 + DZ[i]);
        if adj !in claims {
          var existing := if adj in dim then Some(dim[adj]) else None;
          if existing.None? || existing.value.partyOwner != p {
            perimeter := perimeter + {adj};
          }
        }
        assert NeighboursUpTo(c, i + 1) == NeighboursUpTo(c, i) + {Offset(c, i)};
        i := i + 1;
      }
      RingPartStep(claims - todo, c, claims);
      assert claims - (todo - {c}) == (claims - todo) + {c};
      todo := todo - {c};
    }
    assert claims - todo == claims;
  }

  /** Collects p's reservations that lie outside the target perimeter. */
  method CollectStale(rd: ReservedDimension, perimeter: set<Coord>, p: Uuid) returns (toRemove: set<Coord>)
    ensures toRemove == Stale(rd, perimeter, p)
  {
    toRemove := {};
    var todo := rd.Keys;
    while todo != {}
      invariant todo <= rd.Keys
      invariant toRemove == set c | c in rd.Keys - todo && rd[c] == p && c !in perimeter
      decreases todo
    {
      var key :| key in todo;
      if rd[key] == p && key !in perimeter {
        toRemove := toRemove + {key};
      }
      todo := todo - {key};
    }
  }

  /**
   * Reserves every perimeter coordinate for p: a new reservation where
   * there was none, a takeover (setReservedBy) where another party held
   * it; everything outside the perimeter stays as it was.
   */
  method ReservePerimeter(rd: ReservedDimension, perimeter: set<Coord>, p: Uuid) returns (r: ReservedDimension)
    ensures forall c :: c in perimeter ==> c in r && r[c] == p
    ensures forall c :: c !in perimeter ==> (c in r <==> c in rd) && (c in r ==> r[c] == rd[c])
  {
    r := rd;
    var todo := perimeter;
    while todo != {}
      invariant todo <= perimeter
      invariant forall c :: c in perimeter - todo ==> c in r && r[c] == p
      invariant forall c :: c !in perimeter - todo ==> (c in r <==> c in rd) && (c in r ==> r[c] == rd[c])
      decreases todo
    {
      var coord :| coord in todo;
      if coord !in r {
        r := r[coord := p];
      } else if r[coord] != p {
        r := r[coord := p];
      }
      todo := todo - {coord};
    }
  }
}
