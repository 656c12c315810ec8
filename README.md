# ubus object core in Dafny

This project models the object core of the ubus message bus client library (`libubus-obj.c`). The core has four parts:

- **Invocation dispatch.** An inbound invoke message is parsed into an attribute table. A message without an object id is dropped. A missing method name is answered with `INVALID_ARGUMENT`. An object id that is not in the connection's registry is answered with `NOT_FOUND`. Otherwise the object's methods are scanned in declared order. A method without a name matches any requested name. If no method matches, the answer is `METHOD_NOT_FOUND`. If one matches, its handler runs. Exactly one reply is sent unless the handler defers the request.
- **Registration reply callbacks.** The broker's reply to an add-object request gives the object its id, may give the shared object type its id, and registers the object under the new id. The reply to a remove-object request clears the object's id, may clear the type's id, and removes the object from the registry.
- **Add and remove entry points.** These build the request body and map the outcome of the round trip to a status. A request that cannot be started gives `INVALID_ARGUMENT`. A failed round trip passes its status through. An unconfirmed change gives `NO_DATA`. Success gives 0.
- **Signature serialisation.** An unpublished type is sent with its full signature: one table per method, in declared order, and in each table one `argument name -> type code` field per policy entry, in order.

Modules:

- `UbusTypes` (`ubus_types.dfy`): fixed-width integers, status codes, attribute tags, the parsed attribute table (`map<Tag, Value>`), and the method descriptor with its handler.
- `Signature` (`signature.dfy`): the serialised signature as a specification function, the two serialising loops, and the parse-back round trip.
- `Dispatch` (`dispatch.dfy`): the method scan, and dispatch as a function over the registry view `object id -> methods`.
- `Registration` (`registration.dfy`): request bodies, registry insertion and deletion on maps, and the status of a round trip.
- `UbusObjects` (`objects.dfy`): the classes `ObjectType`, `UbusObject` and `Context`. The methods of `Context` change ids and the registry in place and send replies. Each is proved against the functions above.

The broker round trip is an input to the model. `started` says whether the request could be sent. `transportStatus` is the status the round trip ended with. `reply` is the broker's reply table, if one arrived. The reply callback runs exactly when the request started and a reply is present. A handler is a function from the call's correlation data, the method name and the payload to a status and a "deferred" flag. Sending a reply appends it to `Context.outbox`.

The model follows the code where it differs from the bus's intended design:

- By design the request's deferred flag starts out false. The code never initialises it (libubus-obj.c:20-26). The model therefore takes "deferred" from the handler's result.
- By design a signature that cannot be serialised gives `INVALID_ARGUMENT`. `ubus_push_object_type` always returns true (libubus-obj.c:108), so the exit at libubus-obj.c:123-124 is never taken. `PushObjectType` proves `ok` is always true.
- By design an object is never registered with id 0. The add callback registers the object under whatever id the reply carries, 0 included. `AddObject` then returns `NO_DATA` while the object stays registered under 0. The model keeps this behaviour.

Status codes use the numeric values of `ubusmsg.h`: OK 0, INVALID_ARGUMENT 2, METHOD_NOT_FOUND 3, NOT_FOUND 4, NO_DATA 5. `ubusmsg.h` is not part of this model.

## Model

| member | source | states |
|---|---|---|
| `Dispatch.FindFrom` | libubus-obj.c:45-49 | the first index at or after `from` whose method is nameless or has the requested name; none only when no index from there on matches |
| `Dispatch.FindMethod` | libubus-obj.c:45-53 | the selected method is the lowest index whose name is absent or equal to the requested name; none exactly when no method matches |
| `Dispatch.ScanMethods` | libubus-obj.c:45-49 | the declared-order loop stops at the first matching index, never passing over a match, and agrees with `FindMethod` |
| `Dispatch.FirstMatchIsFound` | libubus-obj.c:45-49 | a matching index with no match before it is the one the scan selects |
| `Dispatch.NamelessFirstTakesAll` | libubus-obj.c:46 | a nameless first method takes every requested method name |
| `Dispatch.Invoke` | libubus-obj.c:17-64 | dropped exactly when the object id is missing; a missing method name gives INVALID_ARGUMENT whatever the registry holds; an unknown object gives NOT_FOUND; for a known object, METHOD_NOT_FOUND exactly when no method matches, otherwise the lowest matching handler runs on the call's peer, sequence number and object id, with the name and payload |
| `Dispatch.RepliesSent` | libubus-obj.c:56-63 | no reply when the message is dropped or the handler defers; otherwise exactly one reply, correlated with the call's peer, sequence number and object id, carrying the handler's status when a handler ran |
| `Signature.FieldsOf` | libubus-obj.c:90-91 | one `name -> type` field per policy entry, in declared order |
| `Signature.SignatureOf` | libubus-obj.c:103-104 | one table per method, in declared order, each named after its method and holding that method's fields |
| `Signature.PushMethodData` | libubus-obj.c:83-94 | the loop builds the method's table: its name, and field i is policy entry i's name and type |
| `Signature.PushObjectType` | libubus-obj.c:96-109 | the loop builds table i from method i for every method, and always reports success |
| `Signature.PolicyRoundTrip` | libubus-obj.c:88-93 | reading a method table's fields back gives the method's argument policy |
| `Signature.SignatureRoundTrip` | libubus-obj.c:101-106 | parsing the serialised signature gives back every method's name and policy, in order |
| `Registration.AddRequestBody` | libubus-obj.c:116-125 | with a publish path and a type: the path, then the type id when it is non-zero, else a signature that parses back to the type's methods; with either missing: an empty body |
| `Registration.PublishedTypeSendsNoSignature` | libubus-obj.c:121-122 | a type with an id is never sent with its signature; with a path, the body carries the type id instead |
| `Registration.RemoveRequestBody` | libubus-obj.c:163-164 | the remove request carries the object's current id and nothing else |
| `Registration.Register` | libubus-obj.c:79-80 | after insertion the id maps to the object, and every other key is present and mapped exactly as before |
| `Registration.Unregister` | libubus-obj.c:155 | after deletion the object is under no key, and every other entry is kept unchanged |
| `Registration.RoundTripStatus` | libubus-obj.c:127-139 | an unstarted request gives INVALID_ARGUMENT, a failed round trip passes its status through, an unconfirmed change gives NO_DATA, and the result is 0 exactly when the request started, the round trip succeeded and the change was confirmed |
| `Registration.AddStatus` | libubus-obj.c:133-139 | an add succeeds exactly when the request started, the round trip succeeded and the object holds a non-zero id; a successful round trip that leaves the id at 0 gives NO_DATA |
| `Registration.RemoveStatus` | libubus-obj.c:171-178 | a remove succeeds exactly when the request started, the round trip succeeded and the object's id is 0; a non-zero id after a successful round trip gives NO_DATA |
| `UbusObjects.Context.CompleteRequest` | libubus-obj.c:62-63 | sending a result appends exactly one reply with the request's peer, sequence number and object id and the given status |
| `UbusObjects.Context.ProcessInvoke` | libubus-obj.c:17-64 | the dispatch outcome is `Invoke` on the registry, the replies sent are exactly `Sent` of that outcome, and the registry is unchanged |
| `UbusObjects.Context.AddObjectCb` | libubus-obj.c:66-81 | a reply without an object id changes nothing; otherwise the object takes the reply's id and the registry maps that id to it, other keys unchanged; the shared type's id changes only when the reply carries a type id; registry consistency is preserved when the object was not already registered |
| `UbusObjects.Context.AddObject` | libubus-obj.c:111-140 | the request body is `AddRequestBody` of the object's path and type; the callback's effect happens exactly when the request started and a reply with an object id arrived; the status is `AddStatus` of the outcome and the object's final id |
| `UbusObjects.Context.RemoveObjectCb` | libubus-obj.c:142-156 | a reply with an object id sets the object's id to 0, clears the type's id only when the reply carries a type and the object has a type, and deletes the object from the registry; a reply without an object id changes nothing; registry consistency is preserved |
| `UbusObjects.Context.RemoveObject` | libubus-obj.c:158-179 | the request body is the object's id; the callback's effect happens exactly when the request started and a reply with an object id arrived; the status is `RemoveStatus` of the outcome and the object's final id |
| `UbusObjects.SharedTypePublishedOnce` | libubus-obj.c:118-125 | once the first of two objects sharing a type has been added with a type id in the reply, the second add sends that type id and no signature |

## Left out

- Transport and event loop. `ubus_start_request` and `ubus_complete_request` are not part of this model. Their effects are the `started`, `transportStatus` and `reply` inputs. Blocking and sequence-number correlation are not modelled.
- `ubus_complete_deferred_request` is not part of this model. Sending a reply is modelled as appending `(peer, sequence, object id, status)` to `Context.outbox`.
- Attribute codec. `ubus_parse_msg`, `blob_get_u32`, `blob_put_*`, `blobmsg_*` and `blob_nest_*` are external. A parsed message is a `map<Tag, Value>`. An attribute of the wrong type reads as absent, as the parser's typed policy drops it. A request body is a sequence of attributes, and a signature is a sequence of method tables. The byte encoding is not modelled. A nameless method's table is opened with a NULL name (libubus-obj.c:88); the model assumes the wire form keeps "no name" distinct from every string, which is why `SignatureRoundTrip` gives a nameless method back as nameless.
- The global scratch buffer `b` and `blob_buf_init` are replaced by a sequence that each call owns.
- AVL tree. `ctx->objects` is a `map<uint32, UbusObject>`. Insertion overwrites an existing key. The real tree may refuse a duplicate key, and inserting a node that is already in the tree is not modelled. Deletion removes every key mapped to the object, which covers the object's own node. The source deletes the object's embedded node without checking that it is in the tree (libubus-obj.c:155), for example for an object that was never added or is removed twice; in the model that deletion is a no-op on the registry.
- Handlers are total functions of the call data, the method name and the payload. Their side effects, including calls back into the context, are not modelled.
- `strcmp` compares C strings up to the first NUL byte. Names here are Dafny strings, so embedded NULs are not modelled.
- A policy entry's type is kept as its numeric code. The `blobmsg_type` enumeration is not part of this model.
- Concurrency and multiple connections are left out: each context is driven by one thread.
- `UbusObjects.Context.AddObjectCb`: preserves registry consistency only when the object was not already registered. The source gives re-adding a registered object no defined meaning.
- `UbusObjects.Context.AddObject`: the same condition as `AddObjectCb` applies to its consistency clause.
- `UbusObjects.Context.AddObjectCb`: requires the object to have a type when the reply carries both an object id and a type id. The source writes `obj->type->id` there without a null check (libubus-obj.c:76-77), so with no type it dereferences NULL; the model does not cover that crash.
- `UbusObjects.Context.AddObject`: requires the object to have a type when the request started and the reply carries both an object id and a type id, for the same unchecked dereference in its reply callback (libubus-obj.c:76-77).
