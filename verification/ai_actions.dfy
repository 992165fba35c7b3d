/**
 * The AI action object of one actor: it owns the actor handle (which may be
 * empty) and the actor's target relation, and turns the forward-target
 * selection and the look-at command into effects on them.
 */
module AiActions {
  import opened Wrappers
  import opened ForwardTarget
  import LookAt

  /** The three values `setForwardActorAsTarget` can return: `false`, `undefined` or `true`. */
  datatype Returned = ReturnedFalse | ReturnedUndefined | ReturnedTrue

  /** What a selection makes `setForwardActorAsTarget` return. */
  function ReturnOf(s: Selection): Returned {
    match s
    case EmptyActor => ReturnedFalse
    case UnresolvedPosition => ReturnedUndefined
    case NoMatch => ReturnedFalse
    case Match(_) => ReturnedTrue
  }

  class Agent {
    /** The actor this AI drives; `None` when the handle is empty. */
    var actor: Option<ActorId>
    /** The actor's current target relation (at most one). */
    var target: Option<ActorId>

    constructor (actor: Option<ActorId>, target: Option<ActorId>)
      ensures this.actor == actor && this.target == target
    {
      this.actor := actor;
      this.target := target;
    }

    /** Overwrites the target relation with `t`; does nothing without an actor. */
    method SetTarget(t: ActorId)
      modifies this`target
      ensures target == if actor.Some? then Some(t) else old(target)
    {
      if actor.Some? {
        target := Some(t);
      }
    }

    /** Removes the target relation; does nothing without an actor. */
    method RemoveTarget()
      modifies this`target
      ensures target == if actor.Some? then None else old(target)
    {
      if actor.Some? {
        target := None;
      }
    }

    /**
     * Picks the first candidate that faces the actor and makes it the
     * target. `pos` is the actor's resolved position, `nearby` the entities
     * within `length` of it and `players` the online players.
     */
    method SetForwardActorAsTarget(pos: Option<Pos>, nearby: seq<Candidate>,
                                   players: seq<Candidate>, length: real) returns (r: Returned)
      modifies this`target
      ensures r == ReturnOf(Select(actor, pos, nearby, players, length))
      ensures r == ReturnedTrue <==> Select(actor, pos, nearby, players, length).Match?
      ensures r == ReturnedUndefined <==> actor.Some? && pos.None?
      ensures target == if r == ReturnedTrue
                        then Some(Select(actor, pos, nearby, players, length).target.id)
                        else old(target)
    {
      if actor.None? {
        return ReturnedFalse;
      }
      if pos.None? {
        return ReturnedUndefined;
      }
      var entities := Candidates(actor.value, nearby, players);
      var found := FirstAccepted(pos.value, length, entities);
      if found.None? {
        return ReturnedFalse;
      }
      SetTarget(entities[found.value].id);
      return ReturnedTrue;
    }

    /**
     * The command `lookAtNearest` runs for this actor, whose selector string
     * is `selector`; `None` when there is no actor, so nothing is run.
     */
    method LookAtNearest(selector: string, radius: nat, family: seq<string>) returns (cmd: Option<string>)
      ensures cmd.None? <==> actor.None?
      ensures cmd.Some? && family == [] ==> cmd.value == LookAt.Head(selector, radius) + "]"
      ensures cmd.Some? && family != [] ==>
        cmd.value == LookAt.Head(selector, radius) + "," + LookAt.FamilyFilter(family) + "]"
    {
      if actor.None? {
        return None;
      }
      LookAt.CommandShape(selector, radius, family);
      cmd := Some(LookAt.Command(selector, radius, family));
    }
  }
}
