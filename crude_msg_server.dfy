/**
 * The crude module's message handlers: create a resource, and update or
 * delete one on behalf of its owner.
 *
 * A handler's guards are the pure functions `UpdateCheck` and `DeleteCheck`
 * over the stored resources; the handlers change the keeper only when their
 * guard passes. The messages' own address checks are not part of this model.
 */
module CrudeMsgServer {
  import opened Outcomes
  import opened FixedPoint
  import opened CrudeTypes
  import opened CrudeKeeper

  datatype MsgCreateResource = MsgCreateResource(creator: string, name: string, value: Uint64)
  datatype MsgUpdateResource = MsgUpdateResource(creator: string, id: Uint64, name: string, value: Uint64)
  datatype MsgDeleteResource = MsgDeleteResource(creator: string, id: Uint64)

  /** The registered errors the handlers wrap: no resource under the id, or not its owner. */
  datatype MsgError = ErrKeyNotFound(id: Uint64) | ErrUnauthorized

  /** The resource an update message describes. */
  function UpdatedResource(msg: MsgUpdateResource): Resource
  {
    Resource(msg.creator, msg.id, msg.name, msg.value)
  }

  /** The guard shared by update and delete: the resource exists, then the sender owns it. */
  function OwnerCheck(store: map<Uint64, Resource>, sender: string, id: Uint64): Outcome<MsgError>
  {
    if id !in store then Fail(ErrKeyNotFound(id))
    else if sender != store[id].creator then Fail(ErrUnauthorized)
    else Pass
  }

  function UpdateCheck(store: map<Uint64, Resource>, msg: MsgUpdateResource): Outcome<MsgError>
  {
    OwnerCheck(store, msg.creator, msg.id)
  }

  function DeleteCheck(store: map<Uint64, Resource>, msg: MsgDeleteResource): Outcome<MsgError>
  {
    OwnerCheck(store, msg.creator, msg.id)
  }

  /** The stored resources after an update message: changed only when its guard passes. */
  function Updated(store: map<Uint64, Resource>, msg: MsgUpdateResource): map<Uint64, Resource>
  {
    if UpdateCheck(store, msg).Pass? then store[msg.id := UpdatedResource(msg)] else store
  }

  /** The stored resources after a delete message: changed only when its guard passes. */
  function Deleted(store: map<Uint64, Resource>, msg: MsgDeleteResource): map<Uint64, Resource>
  {
    if DeleteCheck(store, msg).Pass? then store - {msg.id} else store
  }

  /** `CreateResource`: appends the message's resource and answers with its id, the old count. */
  method CreateResource(k: Keeper, msg: MsgCreateResource) returns (id: Uint64)
    requires k.Valid()
    modifies k
    ensures k.Valid()
    ensures id == old(k.Count())
    ensures k.resources == old(k.resources)[id := Resource(msg.creator, id, msg.name, msg.value)]
    ensures k.Count() == (old(k.Count()) + 1) % Two64
  {
    var resource := Resource(msg.creator, 0, msg.name, msg.value);
    id := k.AppendResource(resource);
  }

  /** `UpdateResource`: replaces the resource under the message's id when the sender owns it. */
  method UpdateResource(k: Keeper, msg: MsgUpdateResource) returns (r: Outcome<MsgError>)
    requires k.Valid()
    modifies k
    ensures k.Valid()
    ensures r == UpdateCheck(old(k.resources), msg)
    ensures k.resources == Updated(old(k.resources), msg)
    ensures k.countBytes == old(k.countBytes)
  {
    var resource := UpdatedResource(msg);
    var val, found := k.GetResource(msg.id);
    if !found {
      return Fail(ErrKeyNotFound(msg.id));
    }
    if msg.creator != val.creator {
      return Fail(ErrUnauthorized);
    }
    k.SetResource(resource);
    return Pass;
  }

  /** `DeleteResource`: removes the resource under the message's id when the sender owns it. */
  method DeleteResource(k: Keeper, msg: MsgDeleteResource) returns (r: Outcome<MsgError>)
    requires k.Valid()
    modifies k
    ensures k.Valid()
    ensures r == DeleteCheck(old(k.resources), msg)
    ensures k.resources == Deleted(old(k.resources), msg)
    ensures k.countBytes == old(k.countBytes)
  {
    var val, found := k.GetResource(msg.id);
    if !found {
      return Fail(ErrKeyNotFound(msg.id));
    }
    if msg.creator != val.creator {
      return Fail(ErrUnauthorized);
    }
    k.RemoveResource(msg.id);
    return Pass;
  }

  /**
   * The guard reports a missing id before ownership, and passes exactly when
   * the sender is the stored owner.
   */
  lemma OwnerCheckOrder(store: map<Uint64, Resource>, sender: string, id: Uint64)
    ensures id !in store ==> OwnerCheck(store, sender, id) == Fail(ErrKeyNotFound(id))
    ensures OwnerCheck(store, sender, id).Pass? <==> id in store && store[id].creator == sender
    ensures OwnerCheck(store, sender, id) == Fail(ErrUnauthorized)
            <==> id in store && store[id].creator != sender
  {
  }

  /** An update changes only the entry under its id, and keeps that entry's owner and id. */
  lemma UpdateKeepsOwnership(store: map<Uint64, Resource>, msg: MsgUpdateResource)
    requires forall id :: id in store ==> store[id].id == id
    ensures Updated(store, msg).Keys == store.Keys
    ensures forall id :: id in store && id != msg.id ==> Updated(store, msg)[id] == store[id]
    ensures forall id :: id in store ==> Updated(store, msg)[id].creator == store[id].creator
    ensures forall id :: id in store ==> Updated(store, msg)[id].id == id
  {
  }

  /** Applying the same update twice leaves what applying it once does. */
  lemma UpdateIdempotent(store: map<Uint64, Resource>, msg: MsgUpdateResource)
    ensures Updated(Updated(store, msg), msg) == Updated(store, msg)
  {
    if UpdateCheck(store, msg).Pass? {
      assert UpdateCheck(Updated(store, msg), msg).Pass?;
    }
  }

  /** A delete removes only the entry under its id; afterwards that id is not found. */
  lemma DeleteRemovesOnlyItsEntry(store: map<Uint64, Resource>, msg: MsgDeleteResource)
    ensures DeleteCheck(store, msg).Pass? ==> msg.id !in Deleted(store, msg)
    ensures forall id :: id != msg.id ==> (id in Deleted(store, msg) <==> id in store)
    ensures forall id :: id in Deleted(store, msg) ==> Deleted(store, msg)[id] == store[id]
  {
  }

  /** After a successful delete, updating or deleting the same id reports it missing. */
  lemma DeletedIdNotFound(store: map<Uint64, Resource>, msg: MsgDeleteResource, sender: string)
    requires DeleteCheck(store, msg).Pass?
    ensures OwnerCheck(Deleted(store, msg), sender, msg.id) == Fail(ErrKeyNotFound(msg.id))
  {
    DeleteRemovesOnlyItsEntry(store, msg);
  }

  /**
   * The handler tests' store: one resource created by "A" under id 0. "A"
   * may update and delete it, "B" is unauthorized, and id 10 is not found.
   */
  lemma HandlerScenarios()
    ensures var store := map[0 := Resource("A", 0, "", 0)];
      && UpdateCheck(store, MsgUpdateResource("A", 0, "", 0)) == Pass
      && UpdateCheck(store, MsgUpdateResource("B", 0, "", 0)) == Fail(ErrUnauthorized)
      && UpdateCheck(store, MsgUpdateResource("A", 10, "", 0)) == Fail(ErrKeyNotFound(10))
      && DeleteCheck(store, MsgDeleteResource("A", 0)) == Pass
      && DeleteCheck(store, MsgDeleteResource("B", 0)) == Fail(ErrUnauthorized)
      && DeleteCheck(store, MsgDeleteResource("A", 10)) == Fail(ErrKeyNotFound(10))
      && Deleted(store, MsgDeleteResource("A", 0)) == map[]
  {
    var store := map[0 := Resource("A", 0, "", 0)];
    assert "B" != "A" by {
      assert "B"[0] != "A"[0];
    }
    assert store - {0} == map[];
  }
}
