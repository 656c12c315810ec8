/**
 * Values shared by every part of the ubus object core: fixed-width integers,
 * the status codes, the tags of a parsed message and the method descriptor.
 */
module UbusTypes {

  newtype uint8 = x: int | 0 <= x < 0x100
  newtype uint32 = x: int | 0 <= x < 0x1_0000_0000

  datatype Option<+T> = None | Some(value: T)

  /** Status codes carried in replies and returned by the registration calls (ubusmsg.h). */
  const STATUS_OK: int := 0
  const STATUS_INVALID_ARGUMENT: int := 2
  const STATUS_METHOD_NOT_FOUND: int := 3
  const STATUS_NOT_FOUND: int := 4
  const STATUS_NO_DATA: int := 5

  /** The attribute tags of a ubus message that this core reads or writes. */
  datatype Tag = ObjPathTag | ObjIdTag | MethodTag | ObjTypeTag | SignatureTag | DataTag

  /** The value of one parsed attribute: a 32-bit integer, a string or an opaque nested blob. */
  datatype Value = U32(n: uint32) | Str(s: string) | Nested(raw: seq<uint8>)

  /**
   * A message body parsed into a table indexed by tag. The parser keeps an
   * attribute only when its type is the one its tag calls for, so each
   * accessor below answers None both for a missing and for a mistyped entry.
   */
  type Attrs = map<Tag, Value>

  function U32Attr(a: Attrs, t: Tag): Option<uint32>
  {
    if t in a && a[t].U32? then Some(a[t].n) else None
  }

  function StrAttr(a: Attrs, t: Tag): Option<string>
  {
    if t in a && a[t].Str? then Some(a[t].s) else None
  }

  function NestedAttr(a: Attrs, t: Tag): Option<seq<uint8>>
  {
    if t in a && a[t].Nested? then Some(a[t].raw) else None
  }

  /** Correlation data of one inbound call: who sent it, its sequence number, the target object. */
  datatype RequestData = RequestData(peer: uint32, sequence: uint32, objId: uint32)

  /** One invocation-result message: the correlation fields of the call and its status. */
  datatype Reply = Reply(peer: uint32, sequence: uint32, objId: uint32, status: int)

  /** What a method handler hands back: its status and whether it will reply later itself. */
  datatype HandlerResult = HandlerResult(status: int, deferred: bool)

  /** One argument-policy entry of a method: the argument name and its declared type code. */
  datatype PolicyEntry = PolicyEntry(name: string, typ: uint32)

  /**
   * A method of an object or object type. A method without a name matches
   * every requested method name. The handler receives the call's correlation
   * data, the requested method name and the payload attribute, if any.
   */
  datatype Method = Method(
    name: Option<string>,
    handler: (RequestData, string, Option<seq<uint8>>) -> HandlerResult,
    policy: seq<PolicyEntry>)
}
