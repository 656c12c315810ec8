/**
 * The add-object and remove-object exchanges as values: the request bodies,
 * the registry updates the broker's reply causes, and the status each call
 * returns once the round trip is over.
 */
module Registration {
  import opened UbusTypes
  import opened Signature

  /** One attribute of a registration request body, in the order it is written. */
  datatype BodyAttr =
    | PathAttr(path: string)                   // the object's publish path
    | TypeIdAttr(typeId: uint32)               // an already published type, by id
    | SignatureAttr(tables: seq<MethodTable>)  // the full signature of an unpublished type
    | IdAttr(id: uint32)                       // the object id, in a remove request

  /** What the add request needs to know about an object's type. */
  datatype TypeDesc = TypeDesc(id: uint32, methods: seq<Method>)

  /**
   * The body of an add-object request. With a publish path and a type, it
   * holds the path and then either the type's id, when the type has one, or
   * its full signature; otherwise it is empty.
   */
  function AddRequestBody(name: Option<string>, typ: Option<TypeDesc>): (body: seq<BodyAttr>)
    ensures name.None? || typ.None? ==> body == []
    ensures name.Some? && typ.Some? ==> |body| == 2 && body[0] == PathAttr(name.value)
    ensures name.Some? && typ.Some? && typ.value.id != 0 ==> body[1] == TypeIdAttr(typ.value.id)
    ensures name.Some? && typ.Some? && typ.value.id == 0 ==>
      body[1].SignatureAttr? && ParseSignature(body[1].tables) == ShapesOf(typ.value.methods)
  {
    if name.Some? && typ.Some? then
      if typ.value.id != 0 then [PathAttr(name.value), TypeIdAttr(typ.value.id)]
      else
        SignatureRoundTrip(typ.value.methods);
        [PathAttr(name.value), SignatureAttr(SignatureOf(typ.value.methods))]
    else []
  }

  /** A type that already has an id is never sent with its signature again. */
  lemma PublishedTypeSendsNoSignature(name: Option<string>, typ: TypeDesc)
    requires typ.id != 0
    ensures forall a :: a in AddRequestBody(name, Some(typ)) ==> !a.SignatureAttr?
    ensures name.Some? ==> TypeIdAttr(typ.id) in AddRequestBody(name, Some(typ))
  {
  }

  /** The body of a remove-object request: the object's current id alone. */
  function RemoveRequestBody(id: uint32): (body: seq<BodyAttr>)
    ensures |body| == 1 && body[0].IdAttr? && body[0].id == id
  {
    [IdAttr(id)]
  }

  /** The registry after an object is inserted under `id`; every other entry is kept. */
  function Register<T>(registry: map<uint32, T>, id: uint32, obj: T): (r: map<uint32, T>)
    ensures id in r && r[id] == obj
    ensures forall k :: k != id ==> (k in r <==> k in registry)
    ensures forall k :: k in r && k != id ==> r[k] == registry[k]
  {
    registry[id := obj]
  }

  /** The registry after an object's own entry is deleted, whatever key it sits under. */
  function Unregister<T(==)>(registry: map<uint32, T>, obj: T): (r: map<uint32, T>)
    ensures obj !in r.Values
    ensures forall k :: k in r <==> k in registry && registry[k] != obj
    ensures forall k :: k in r ==> r[k] == registry[k]
  {
    map k | k in registry && registry[k] != obj :: registry[k]
  }

  /**
   * The status of an add-object or remove-object call: a request that could
   * not be started gives INVALID_ARGUMENT, a failed round trip passes its
   * status through, and otherwise the call succeeds exactly when the broker
   * confirmed the change.
   */
  function RoundTripStatus(started: bool, transportStatus: int, confirmed: bool): (status: int)
    ensures !started ==> status == STATUS_INVALID_ARGUMENT
    ensures started && transportStatus != 0 ==> status == transportStatus
    ensures started && transportStatus == 0 && !confirmed ==> status == STATUS_NO_DATA
    ensures status == STATUS_OK <==> started && transportStatus == 0 && confirmed
  {
    if !started then STATUS_INVALID_ARGUMENT
    else if transportStatus != 0 then transportStatus
    else if !confirmed then STATUS_NO_DATA
    else STATUS_OK
  }

  /** Adding is confirmed when the object holds an id after the round trip. */
  function AddStatus(started: bool, transportStatus: int, idAfter: uint32): (status: int)
    ensures status == STATUS_OK <==> started && transportStatus == 0 && idAfter != 0
    ensures started && transportStatus == 0 && idAfter == 0 ==> status == STATUS_NO_DATA
  {
    RoundTripStatus(started, transportStatus, idAfter != 0)
  }

  /** Removing is confirmed when the object's id is back to 0 after the round trip. */
  function RemoveStatus(started: bool, transportStatus: int, idAfter: uint32): (status: int)
    ensures status == STATUS_OK <==> started && transportStatus == 0 && idAfter == 0
    ensures started && transportStatus == 0 && idAfter != 0 ==> status == STATUS_NO_DATA
  {
    RoundTripStatus(started, transportStatus, idAfter == 0)
  }
}
