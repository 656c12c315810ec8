/**
 * The heap side of the ubus object core: object types and objects, whose ids
 * the broker's replies assign and clear, and the connection context that
 * holds the id-keyed object registry and the replies sent so far.
 */
module UbusObjects {
  import opened UbusTypes
  import opened Signature
  import opened Dispatch
  import opened Registration

  /** A method list shared by every object of one kind; `id` is 0 until the broker assigns one. */
  class ObjectType {
    var id: uint32
    const methods: seq<Method>

    constructor (methods: seq<Method>)
      ensures id == 0 && this.methods == methods
    {
      id := 0;
      this.methods := methods;
    }
  }

  /**
   * An object the application exposes on the bus. `id` is 0 until an
   * add-object exchange assigns it; the type, when present, is shared with
   * other objects.
   */
  class UbusObject {
    var id: uint32
    const name: Option<string>
    const typ: ObjectType?
    const methods: seq<Method>

    constructor (name: Option<string>, typ: ObjectType?, methods: seq<Method>)
      ensures id == 0 && this.name == name && this.typ == typ && this.methods == methods
    {
      id := 0;
      this.name := name;
      this.typ := typ;
      this.methods := methods;
    }
  }

  /** What an add request is told about an object's type. */
  ghost function TypeOf(obj: UbusObject): Option<TypeDesc>
    reads obj.typ
  {
    if obj.typ == null then None else Some(TypeDesc(obj.typ.id, obj.typ.methods))
  }

  /** A bus connection: the registry of added objects and the invocation replies it has sent. */
  class Context {
    var objects: map<uint32, UbusObject>
    var outbox: seq<Reply>

    constructor ()
      ensures objects == map[] && outbox == []
    {
      objects := map[];
      outbox := [];
    }

    /** Every registered object is registered under its own id. */
    ghost predicate Consistent()
      reads this, objects.Values
    {
      forall k :: k in objects ==> objects[k].id == k
    }

    /** The registry as dispatch sees it: object id to that object's methods. */
    ghost function MethodsById(): map<uint32, seq<Method>>
      reads this
    {
      map k | k in objects :: objects[k].methods
    }

    /** Sends the invocation result for `req` with `status`. */
    method CompleteRequest(req: RequestData, status: int)
      modifies this`outbox
      ensures outbox == old(outbox) + [Reply(req.peer, req.sequence, req.objId, status)]
    {
      outbox := outbox + [Reply(req.peer, req.sequence, req.objId, status)];
    }

    /**
     * Handles one inbound invoke message: finds the object and the method,
     * runs the handler and, unless it defers, sends exactly one reply.
     */
    method ProcessInvoke(peer: uint32, sequence: uint32, msg: Attrs) returns (d: Outcome)
      modifies this`outbox
      ensures d == Invoke(peer, sequence, msg, MethodsById())
      ensures outbox == old(outbox) + Sent(d)
    {
      var objId := U32Attr(msg, ObjIdTag);
      if objId.None? {
        d := Dropped;
        return;
      }
      var req := RequestData(peer, sequence, objId.value);
      var status: int;
      var name := StrAttr(msg, MethodTag);
      if name.None? {
        status := STATUS_INVALID_ARGUMENT;
        d := Rejected(Reply(peer, sequence, objId.value, status));
      } else if objId.value !in objects {
        status := STATUS_NOT_FOUND;
        d := Rejected(Reply(peer, sequence, objId.value, status));
      } else {
        var obj := objects[objId.value];
        var found := ScanMethods(obj.methods, name.value);
        if found.None? {
          status := STATUS_METHOD_NOT_FOUND;
          d := Rejected(Reply(peer, sequence, objId.value, status));
        } else {
          var result := obj.methods[found.value].handler(req, name.value, NestedAttr(msg, DataTag));
          d := Handled(found.value, req, result);
          if result.deferred {
            return;
          }
          status := result.status;
        }
      }
      CompleteRequest(req, status);
    }

    /**
     * Applies the broker's reply to an add-object request: a reply without an
     * object id changes nothing; otherwise the object takes the id, the shared
     * type takes the type id when the reply carries one, and the object is
     * registered under its new id.
     */
    method AddObjectCb(obj: UbusObject, msg: Attrs)
      requires U32Attr(msg, ObjIdTag).Some? && U32Attr(msg, ObjTypeTag).Some? ==> obj.typ != null
      modifies this`objects, obj`id, obj.typ
      ensures U32Attr(msg, ObjIdTag).None? ==> obj.id == old(obj.id) && objects == old(objects)
      ensures U32Attr(msg, ObjIdTag).Some? ==>
        obj.id == U32Attr(msg, ObjIdTag).value && objects == Register(old(objects), obj.id, obj)
      ensures obj.typ != null ==>
        obj.typ.id == (if U32Attr(msg, ObjIdTag).Some? && U32Attr(msg, ObjTypeTag).Some?
                       then U32Attr(msg, ObjTypeTag).value else old(obj.typ.id))
      ensures old(Consistent()) && obj !in old(objects).Values ==> Consistent()
    {
      var objId := U32Attr(msg, ObjIdTag);
      if objId.None? {
        return;
      }
      obj.id := objId.value;
      var typeId := U32Attr(msg, ObjTypeTag);
      if typeId.Some? {
        obj.typ.id := typeId.value;
      }
      objects := Register(objects, obj.id, obj);
    }

    /**
     * Adds `obj` on the bus. `started` says whether the request could be
     * sent, `transportStatus` is the status the round trip ended with, and
     * `reply` the broker's reply, if one arrived.
     */
    method AddObject(obj: UbusObject, started: bool, transportStatus: int, reply: Option<Attrs>)
      returns (status: int, body: seq<BodyAttr>)
      requires (started && reply.Some? && U32Attr(reply.value, ObjIdTag).Some?
                && U32Attr(reply.value, ObjTypeTag).Some?) ==> obj.typ != null
      modifies this`objects, obj`id, obj.typ
      ensures body == AddRequestBody(obj.name, old(TypeOf(obj)))
      ensures started && reply.Some? && U32Attr(reply.value, ObjIdTag).Some? ==>
        obj.id == U32Attr(reply.value, ObjIdTag).value && objects == Register(old(objects), obj.id, obj)
      ensures !(started && reply.Some? && U32Attr(reply.value, ObjIdTag).Some?) ==>
        obj.id == old(obj.id) && objects == old(objects)
      ensures obj.typ != null ==>
        obj.typ.id == (if started && reply.Some? && U32Attr(reply.value, ObjIdTag).Some?
                          && U32Attr(reply.value, ObjTypeTag).Some?
                       then U32Attr(reply.value, ObjTypeTag).value else old(obj.typ.id))
      ensures status == AddStatus(started, transportStatus, obj.id)
      ensures old(Consistent()) && obj !in old(objects).Values ==> Consistent()
    {
      body := [];
      if obj.name.Some? && obj.typ != null {
        body := body + [PathAttr(obj.name.value)];
        if obj.typ.id != 0 {
          body := body + [TypeIdAttr(obj.typ.id)];
        } else {
          var ok, tables := PushObjectType(obj.typ.methods);
          if !ok {
            status := STATUS_INVALID_ARGUMENT;
            return;
          }
          body := body + [SignatureAttr(tables)];
        }
      }
      if !started {
        status := STATUS_INVALID_ARGUMENT;
        return;
      }
      if reply.Some? {
        AddObjectCb(obj, reply.value);
      }
      if transportStatus != 0 {
        status := transportStatus;
        return;
      }
      if obj.id == 0 {
        status := STATUS_NO_DATA;
        return;
      }
      status := STATUS_OK;
    }

    /**
     * Applies the broker's reply to a remove-object request: with an object id
     * in the reply, the object's id becomes 0, the shared type's id becomes 0
     * when the reply carries a type and the object has a type, and the object
     * leaves the registry.
     */
    method RemoveObjectCb(obj: UbusObject, msg: Attrs)
      modifies this`objects, obj`id, obj.typ
      ensures U32Attr(msg, ObjIdTag).None? ==> obj.id == old(obj.id) && objects == old(objects)
      ensures U32Attr(msg, ObjIdTag).Some? ==> obj.id == 0 && objects == Unregister(old(objects), obj)
      ensures obj.typ != null ==>
        obj.typ.id == (if U32Attr(msg, ObjIdTag).Some? && U32Attr(msg, ObjTypeTag).Some? then 0 else old(obj.typ.id))
      ensures old(Consistent()) ==> Consistent()
    {
      var objId := U32Attr(msg, ObjIdTag);
      if objId.None? {
        return;
      }
      obj.id := 0;
      if U32Attr(msg, ObjTypeTag).Some? && obj.typ != null {
        obj.typ.id := 0;
      }
      objects := Unregister(objects, obj);
    }

    /** Removes `obj` from the bus; the parameters are those of AddObject. */
    method RemoveObject(obj: UbusObject, started: bool, transportStatus: int, reply: Option<Attrs>)
      returns (status: int, body: seq<BodyAttr>)
      modifies this`objects, obj`id, obj.typ
      ensures body == RemoveRequestBody(old(obj.id))
      ensures started && reply.Some? && U32Attr(reply.value, ObjIdTag).Some? ==>
        obj.id == 0 && objects == Unregister(old(objects), obj)
      ensures !(started && reply.Some? && U32Attr(reply.value, ObjIdTag).Some?) ==>
        obj.id == old(obj.id) && objects == old(objects)
      ensures obj.typ != null ==>
        obj.typ.id == (if started && reply.Some? && U32Attr(reply.value, ObjIdTag).Some?
                          && U32Attr(reply.value, ObjTypeTag).Some?
                       then 0 else old(obj.typ.id))
      ensures status == RemoveStatus(started, transportStatus, obj.id)
      ensures old(Consistent()) ==> Consistent()
    {
      body := [IdAttr(obj.id)];
      if !started {
        status := STATUS_INVALID_ARGUMENT;
        return;
      }
      if reply.Some? {
        RemoveObjectCb(obj, reply.value);
      }
      if transportStatus != 0 {
        status := transportStatus;
        return;
      }
      if obj.id != 0 {
        status := STATUS_NO_DATA;
        return;
      }
      status := STATUS_OK;
    }
  }

  /**
   * Two objects sharing a type: once the first add is answered with a type
   * id, adding the second sends that id and no signature.
   */
  method SharedTypePublishedOnce(ctx: Context, a: UbusObject, b: UbusObject, reply: Attrs, secondReply: Option<Attrs>)
    returns (first: seq<BodyAttr>, second: seq<BodyAttr>)
    requires a.typ != null && b.typ == a.typ && a.typ.id == 0
    requires a.name.Some? && b.name.Some?
    requires U32Attr(reply, ObjIdTag).Some? && U32Attr(reply, ObjTypeTag).Some? && U32Attr(reply, ObjTypeTag).value != 0
    modifies ctx`objects, a`id, b`id, a.typ
    ensures |first| == 2 && first[1].SignatureAttr? && ParseSignature(first[1].tables) == ShapesOf(a.typ.methods)
    ensures second == [PathAttr(b.name.value), TypeIdAttr(U32Attr(reply, ObjTypeTag).value)]
  {
    var status;
    status, first := ctx.AddObject(a, true, 0, Some(reply));
    status, second := ctx.AddObject(b, true, 0, secondReply);
  }
}
