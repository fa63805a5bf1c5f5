/**
 * The rigid-body physics world, seen only as a registry of bodies.
 *
 * The solver's integration and collision handling are external; the game
 * core only adds bodies to the world and removes them again. Every body
 * carries the label it was created with ('cow', 'ground', 'trampoline',
 * 'obstacle'), and ids are handed out in increasing order.
 */
module Physics {

  type BodyId = nat

  /** The `label` option a body is created with. */
  datatype Label = CowBody | Ground | Trampoline | Obstacle

  /** Bodies that carried the label `kind` before are still registered with it. */
  ghost predicate KeepsLabel(before: map<BodyId, Label>, after: map<BodyId, Label>, kind: Label)
  {
    forall id | id in before && before[id] == kind :: id in after && after[id] == kind
  }

  class World {
    /** The registered bodies and their labels. */
    var bodies: map<BodyId, Label>
    /** The id the next created body receives. */
    var next: BodyId

    ghost predicate Valid()
      reads this
    {
      forall id | id in bodies :: id < next
    }

    constructor ()
      ensures Valid() && bodies == map[] && next == 0
    {
      bodies := map[];
      next := 0;
    }

    /** Creates a body with the given label and adds it to the world. */
    method Add(kind: Label) returns (id: BodyId)
      requires Valid()
      modifies this
      ensures Valid()
      ensures id == old(next) && id !in old(bodies) && next == id + 1
      ensures bodies == old(bodies)[id := kind]
    {
      id := next;
      bodies := bodies[id := kind];
      next := next + 1;
    }

    /** Removes a body; removing a body that is not registered changes nothing. */
    method Remove(id: BodyId)
      requires Valid()
      modifies this
      ensures Valid() && next == old(next)
      ensures bodies == old(bodies) - {id}
    {
      bodies := bodies - {id};
    }
  }
}
