// The common base of every game entity: a unique ID, a type tag, a generic
// mark, a position, a scale and a bounding radius.
module Entity {
  import opened Geometry

  const DefaultEntityType: int := -1

  /**
   * The counter behind the entity IDs.  The source keeps it as a single
   * static variable shared by all entities; the model makes it an object
   * that every ID-taking constructor is handed.  `issued` records the IDs
   * handed out so far.
   */
  class IdSource {
    var next: int
    ghost var issued: set<int>

    ghost predicate Valid()
      reads this
    {
      0 <= next && forall id :: id in issued ==> 0 <= id < next
    }

    constructor ()
      ensures Valid() && next == 0 && issued == {}
    {
      next := 0;
      issued := {};
    }

    /** Hands out the current counter value and post-increments it. */
    method NextValidID() returns (id: int)
      requires Valid()
      modifies this
      ensures Valid()
      ensures id == old(next) && next == old(next) + 1
      ensures 0 <= id && id !in old(issued) && issued == old(issued) + {id}
    {
      id := next;
      next := next + 1;
      issued := issued + {id};
    }
  }

  class BaseGameEntity {
    const id: int
    var entityType: int
    var tag: bool
    var pos: Vector2D
    var scale: Vector2D
    var bRadius: real
    /**
     * False once a rescale has divided the radius by a zero scale, after
     * which the source's radius is infinite or NaN and `bRadius` means
     * nothing.
     */
    var radiusFinite: bool

    /** Default construction: fresh ID, radius 0, origin, unit scale, default type, untagged. */
    constructor Default(ids: IdSource)
      requires ids.Valid()
      modifies ids
      ensures ids.Valid() && ids.next == old(ids.next) + 1
      ensures id == old(ids.next) && id !in old(ids.issued) && ids.issued == old(ids.issued) + {id}
      ensures bRadius == 0.0 && radiusFinite && pos == Zero && scale == Vector2D(1.0, 1.0)
      ensures entityType == DefaultEntityType && !tag
    {
      var newId := ids.NextValidID();
      id := newId;
      bRadius := 0.0;
      radiusFinite := true;
      pos := Zero;
      scale := Vector2D(1.0, 1.0);
      entityType := DefaultEntityType;
      tag := false;
    }

    constructor OfType(ids: IdSource, entityType: int)
      requires ids.Valid()
      modifies ids
      ensures ids.Valid() && ids.next == old(ids.next) + 1
      ensures id == old(ids.next) && id !in old(ids.issued) && ids.issued == old(ids.issued) + {id}
      ensures bRadius == 0.0 && radiusFinite && pos == Zero && scale == Vector2D(1.0, 1.0)
      ensures this.entityType == entityType && !tag
    {
      var newId := ids.NextValidID();
      id := newId;
      bRadius := 0.0;
      radiusFinite := true;
      pos := Zero;
      scale := Vector2D(1.0, 1.0);
      this.entityType := entityType;
      tag := false;
    }

    constructor Placed(ids: IdSource, entityType: int, pos: Vector2D, r: real)
      requires ids.Valid()
      modifies ids
      ensures ids.Valid() && ids.next == old(ids.next) + 1
      ensures id == old(ids.next) && id !in old(ids.issued) && ids.issued == old(ids.issued) + {id}
      ensures bRadius == r && radiusFinite && this.pos == pos && scale == Vector2D(1.0, 1.0)
      ensures this.entityType == entityType && !tag
    {
      var newId := ids.NextValidID();
      id := newId;
      bRadius := r;
      radiusFinite := true;
      this.pos := pos;
      scale := Vector2D(1.0, 1.0);
      this.entityType := entityType;
      tag := false;
    }

    /** Construction with a caller-chosen ID; the counter is not consulted. */
    constructor WithForcedId(entityType: int, forcedId: int)
      ensures id == forcedId
      ensures bRadius == 0.0 && radiusFinite && pos == Zero && scale == Vector2D(1.0, 1.0)
      ensures this.entityType == entityType && !tag
    {
      id := forcedId;
      bRadius := 0.0;
      radiusFinite := true;
      pos := Zero;
      scale := Vector2D(1.0, 1.0);
      this.entityType := entityType;
      tag := false;
    }

    /** The base entity understands no message. */
    function HandleMessage<M>(msg: M): (handled: bool)
      ensures !handled
    {
      false
    }

    function Pos(): Vector2D reads this { pos }

    method SetPos(p: Vector2D)
      modifies this`pos
      ensures Pos() == p
    {
      pos := p;
    }

    function BRadius(): real reads this { bRadius }

    method SetBRadius(r: real)
      modifies this`bRadius, this`radiusFinite
      ensures BRadius() == r && radiusFinite
    {
      bRadius := r;
      radiusFinite := true;
    }

    function IsTagged(): bool reads this { tag }

    method Tag()
      modifies this`tag
      ensures IsTagged()
    {
      tag := true;
    }

    method UnTag()
      modifies this`tag
      ensures !IsTagged()
    {
      tag := false;
    }

    function EntityType(): int reads this { entityType }

    method SetEntityType(t: int)
      modifies this`entityType
      ensures EntityType() == t
    {
      entityType := t;
    }

    /**
     * Rescales the entity.  The radius follows the larger scale component,
     * so the ratio of radius to larger component is kept.  When the old
     * larger component is zero the division leaves the radius infinite or
     * NaN, which the model records by clearing `radiusFinite`.
     */
    method SetScale(val: Vector2D)
      modifies this`bRadius, this`scale, this`radiusFinite
      ensures scale == val
      ensures radiusFinite == (old(radiusFinite) && Max(old(scale).x, old(scale).y) != 0.0)
      ensures Max(old(scale).x, old(scale).y) != 0.0 ==>
        bRadius == old(bRadius) * Max(val.x, val.y) / Max(old(scale).x, old(scale).y)
      ensures Max(old(scale).x, old(scale).y) == 0.0 ==> bRadius == old(bRadius)
      ensures Max(old(scale).x, old(scale).y) != 0.0 && Max(val.x, val.y) != 0.0 ==>
        bRadius / Max(scale.x, scale.y) == old(bRadius / Max(scale.x, scale.y))
    {
      var larger := Max(scale.x, scale.y);
      if larger == 0.0 {
        radiusFinite := false;
      } else {
        bRadius := bRadius * Max(val.x, val.y) / larger;
      }
      scale := val;
    }

    /** Rescales the entity uniformly to (val, val), with the same zero case as SetScale. */
    method SetUniformScale(val: real)
      modifies this`bRadius, this`scale, this`radiusFinite
      ensures scale == Vector2D(val, val)
      ensures radiusFinite == (old(radiusFinite) && Max(old(scale).x, old(scale).y) != 0.0)
      ensures Max(old(scale).x, old(scale).y) != 0.0 ==>
        bRadius == old(bRadius) * val / Max(old(scale).x, old(scale).y)
      ensures Max(old(scale).x, old(scale).y) == 0.0 ==> bRadius == old(bRadius)
      ensures Max(old(scale).x, old(scale).y) != 0.0 && val != 0.0 ==>
        bRadius / Max(scale.x, scale.y) == old(bRadius / Max(scale.x, scale.y))
    {
      var larger := Max(scale.x, scale.y);
      if larger == 0.0 {
        radiusFinite := false;
      } else {
        bRadius := bRadius * val / larger;
      }
      scale := Vector2D(val, val);
    }
  }
}
