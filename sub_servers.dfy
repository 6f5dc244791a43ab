/**
 * The authentication server's registry of connected sub-servers: gateways
 * and game worlds keyed by network peer id, plus the id of the game world
 * new players are sent to.
 */
module SubServers {

  import opened Variants

  /** Network peer ids are 32-bit signed integers. */
  type PeerId = Int32

  /** The per-peer records; the registry never reads their contents. */
  datatype Gateway = Gateway
  datatype GameWorld = GameWorld

  /** How a dictionary insertion ends: inserted, or refused because the key is already there. */
  datatype AddOutcome = Added | DuplicateKey

  class SubServersContainer {
    var gateways: map<PeerId, Gateway>
    var gameWorlds: map<PeerId, GameWorld>
    var optimalGameWorldId: int

    /** Both tables empty; no game world is optimal yet (-1). */
    constructor ()
      ensures gateways == map[] && gameWorlds == map[] && optimalGameWorldId == -1
    {
      gateways, gameWorlds, optimalGameWorldId := map[], map[], -1;
    }

    /** `OptimalGameWorldId`: the most recently added game world, or -1 before any. */
    function OptimalGameWorldId(): int
      reads this
    {
      optimalGameWorldId
    }

    /** `AddGateway`: inserts the peer; an id already present is an error and changes nothing. */
    method AddGateway(peerId: PeerId) returns (outcome: AddOutcome)
      modifies this`gateways
      ensures outcome == if peerId in old(gateways) then DuplicateKey else Added
      ensures gateways == if peerId in old(gateways) then old(gateways) else old(gateways)[peerId := Gateway]
      ensures GatewayExists(peerId) && Exists(peerId)
    {
      if peerId in gateways {
        outcome := DuplicateKey;
      } else {
        gateways := gateways[peerId := Gateway];
        outcome := Added;
      }
    }

    /**
     * `AddGameWorld`: the optimal id is set first, so it becomes `peerId` even
     * when the insertion then fails on a duplicate; the gateway table is untouched.
     */
    method AddGameWorld(peerId: PeerId) returns (outcome: AddOutcome)
      modifies this`gameWorlds, this`optimalGameWorldId
      ensures optimalGameWorldId == peerId && OptimalGameWorldId() == peerId
      ensures outcome == if peerId in old(gameWorlds) then DuplicateKey else Added
      ensures gameWorlds == if peerId in old(gameWorlds) then old(gameWorlds) else old(gameWorlds)[peerId := GameWorld]
    {
      optimalGameWorldId := peerId;
      if peerId in gameWorlds {
        outcome := DuplicateKey;
      } else {
        gameWorlds := gameWorlds[peerId := GameWorld];
        outcome := Added;
      }
    }

    /** `GatewayExists`: membership in the gateway table. */
    predicate GatewayExists(peerId: PeerId)
      reads this
    {
      peerId in gateways
    }

    /** `GameWorldExists`, as written: it consults the gateway table, not the game-world table. */
    predicate GameWorldExists(peerId: PeerId)
      reads this
      ensures GameWorldExists(peerId) == GatewayExists(peerId)
    {
      peerId in gateways
    }

    /** `RemoveGateway`: removes the peer if present and says whether it was. */
    method RemoveGateway(peerId: PeerId) returns (removed: bool)
      modifies this`gateways
      ensures removed == old(GatewayExists(peerId))
      ensures gateways == old(gateways) - {peerId}
      ensures !GatewayExists(peerId) && !Exists(peerId)
    {
      removed := peerId in gateways;
      gateways := gateways - {peerId};
    }

    /** `RemoveGameWorld`: removes the peer if present; the optimal id is left as it was. */
    method RemoveGameWorld(peerId: PeerId) returns (removed: bool)
      modifies this`gameWorlds
      ensures removed == (peerId in old(gameWorlds))
      ensures gameWorlds == old(gameWorlds) - {peerId}
    {
      removed := peerId in gameWorlds;
      gameWorlds := gameWorlds - {peerId};
    }

    /** `Remove`: the game-world table is tried only when the gateway removal fails, so at most one table changes. */
    method Remove(peerId: PeerId) returns (removed: bool)
      modifies this`gateways, this`gameWorlds
      ensures removed == (peerId in old(gateways) || peerId in old(gameWorlds))
      ensures peerId in old(gateways) ==> gateways == old(gateways) - {peerId} && gameWorlds == old(gameWorlds)
      ensures peerId !in old(gateways) ==> gateways == old(gateways) && gameWorlds == old(gameWorlds) - {peerId}
      ensures !GatewayExists(peerId) && !Exists(peerId)
    {
      removed := RemoveGateway(peerId);
      if !removed {
        removed := RemoveGameWorld(peerId);
      }
    }

    /** `Exists`: gateway or "game world" membership, which comes down to gateway membership alone. */
    predicate Exists(peerId: PeerId)
      reads this
      ensures Exists(peerId) <==> peerId in gateways
      ensures Exists(peerId) == GatewayExists(peerId)
    {
      GatewayExists(peerId) || GameWorldExists(peerId)
    }
  }

  /** A game world just added to a fresh registry is not reported by `GameWorldExists` nor by `Exists`. */
  method AddedGameWorldNotFound(peerId: PeerId) returns (found: bool, optimal: int)
    ensures !found
    ensures optimal == peerId
  {
    var c := new SubServersContainer();
    var _ := c.AddGameWorld(peerId);
    found := c.GameWorldExists(peerId) || c.Exists(peerId);
    optimal := c.OptimalGameWorldId();
  }

  /** Removing the optimal game world leaves `OptimalGameWorldId` naming the removed peer. */
  method OptimalOutlivesRemoval(peerId: PeerId) returns (removed: bool, optimal: int, stillThere: bool)
    ensures removed && optimal == peerId && !stillThere
  {
    var c := new SubServersContainer();
    var _ := c.AddGameWorld(peerId);
    removed := c.RemoveGameWorld(peerId);
    optimal := c.OptimalGameWorldId();
    stillThere := peerId in c.gameWorlds;
  }

  /** A peer registered both ways loses only its gateway entry on the first `Remove`, and its game world on the second. */
  method RemoveTakesOneTableAtATime(peerId: PeerId) returns (first: bool, worldAfterFirst: bool, second: bool, worldAfterSecond: bool)
    ensures first && worldAfterFirst && second && !worldAfterSecond
  {
    var c := new SubServersContainer();
    var _ := c.AddGateway(peerId);
    var _ := c.AddGameWorld(peerId);
    first := c.Remove(peerId);
    worldAfterFirst := peerId in c.gameWorlds;
    second := c.Remove(peerId);
    worldAfterSecond := peerId in c.gameWorlds;
  }
}
