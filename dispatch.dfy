/**
 * Routing of an inbound invoke message to an object's method, stated as
 * functions over the registry's view `object id -> methods`.
 */
module Dispatch {
  import opened UbusTypes

  /** A method is selected by a requested name when it has no name or exactly that name. */
  predicate Matches(m: Method, name: string)
  {
    m.name.None? || m.name.value == name
  }

  /** The first index at or after `from` whose method matches `name`. */
  function FindFrom(methods: seq<Method>, name: string, from: nat): (r: Option<nat>)
    requires from <= |methods|
    decreases |methods| - from
    ensures r.Some? ==> from <= r.value < |methods| && Matches(methods[r.value], name)
    ensures r.Some? ==> forall j :: from <= j < r.value ==> !Matches(methods[j], name)
    ensures r.None? ==> forall j :: from <= j < |methods| ==> !Matches(methods[j], name)
  {
    if from == |methods| then None
    else if Matches(methods[from], name) then Some(from)
    else FindFrom(methods, name, from + 1)
  }

  /** The method selected for `name`: the lowest matching index, if any. */
  function FindMethod(methods: seq<Method>, name: string): (r: Option<nat>)
    ensures r.Some? ==> r.value < |methods| && Matches(methods[r.value], name)
    ensures r.Some? ==> forall j :: 0 <= j < r.value ==> !Matches(methods[j], name)
    ensures r.None? <==> forall j :: 0 <= j < |methods| ==> !Matches(methods[j], name)
  {
    FindFrom(methods, name, 0)
  }

  /** Scans the methods in declared order and stops at the first match. */
  method ScanMethods(methods: seq<Method>, name: string) returns (found: Option<nat>)
    ensures found.Some? ==> found.value < |methods| && Matches(methods[found.value], name)
    ensures found.Some? ==> forall j :: 0 <= j < found.value ==> !Matches(methods[j], name)
    ensures found.None? ==> forall j :: 0 <= j < |methods| ==> !Matches(methods[j], name)
    ensures found == FindMethod(methods, name)
  {
    var i := 0;
    while i < |methods|
      invariant 0 <= i <= |methods|
      invariant forall j :: 0 <= j < i ==> !Matches(methods[j], name)
    {
      if Matches(methods[i], name) {
        found := Some(i);
        FirstMatchIsFound(methods, name, i);
        return;
      }
      i := i + 1;
    }
    found := None;
  }

  /** Any index that matches, with no match before it, is the one FindMethod returns. */
  lemma FirstMatchIsFound(methods: seq<Method>, name: string, i: nat)
    requires i < |methods| && Matches(methods[i], name)
    requires forall j :: 0 <= j < i ==> !Matches(methods[j], name)
    ensures FindMethod(methods, name) == Some(i)
  {
  }

  /** The outcome of dispatching one inbound invoke message. */
  datatype Outcome =
    | Dropped                              // no object id: nothing is called and nothing is sent
    | Rejected(reply: Reply)               // an error status is sent before any handler runs
    | Handled(index: nat, req: RequestData, result: HandlerResult)  // the method at `index` ran

  /** The replies a dispatch sends at once; a deferred call sends nothing yet. */
  function Sent(d: Outcome): seq<Reply>
  {
    match d
    case Dropped => []
    case Rejected(reply) => [reply]
    case Handled(_, req, result) =>
      if result.deferred then [] else [Reply(req.peer, req.sequence, req.objId, result.status)]
  }

  /**
   * Dispatch of a message from `peer` with sequence number `sequence` and
   * parsed body `msg`, against the registry view `registry`.
   */
  function Invoke(peer: uint32, sequence: uint32, msg: Attrs, registry: map<uint32, seq<Method>>): (d: Outcome)
    // no object id: dropped
    ensures d.Dropped? <==> U32Attr(msg, ObjIdTag).None?
    // every reply is correlated with the call
    ensures d.Rejected? ==>
      d.reply.peer == peer && d.reply.sequence == sequence && Some(d.reply.objId) == U32Attr(msg, ObjIdTag)
    // a missing method name is rejected whatever the registry holds
    ensures U32Attr(msg, ObjIdTag).Some? && StrAttr(msg, MethodTag).None? ==>
      d.Rejected? && d.reply.status == STATUS_INVALID_ARGUMENT
    // an unknown object is rejected
    ensures U32Attr(msg, ObjIdTag).Some? && StrAttr(msg, MethodTag).Some? && U32Attr(msg, ObjIdTag).value !in registry ==>
      d.Rejected? && d.reply.status == STATUS_NOT_FOUND
    // a known object: rejected exactly when no method matches
    ensures U32Attr(msg, ObjIdTag).Some? && StrAttr(msg, MethodTag).Some? && U32Attr(msg, ObjIdTag).value in registry ==>
      var methods, name := registry[U32Attr(msg, ObjIdTag).value], StrAttr(msg, MethodTag).value;
      && (d.Rejected? <==> forall j :: 0 <= j < |methods| ==> !Matches(methods[j], name))
      && (d.Rejected? ==> d.reply.status == STATUS_METHOD_NOT_FOUND)
      && (d.Handled? ==>
            && d.index < |methods| && Matches(methods[d.index], name)
            && (forall j :: 0 <= j < d.index ==> !Matches(methods[j], name))
            && d.req == RequestData(peer, sequence, U32Attr(msg, ObjIdTag).value)
            && d.result == methods[d.index].handler(d.req, name, NestedAttr(msg, DataTag)))
  {
    match U32Attr(msg, ObjIdTag)
    case None => Dropped
    case Some(id) =>
      var req := RequestData(peer, sequence, id);
      match StrAttr(msg, MethodTag)
      case None => Rejected(Reply(peer, sequence, id, STATUS_INVALID_ARGUMENT))
      case Some(name) =>
        if id !in registry then Rejected(Reply(peer, sequence, id, STATUS_NOT_FOUND))
        else
          match FindMethod(registry[id], name)
          case None => Rejected(Reply(peer, sequence, id, STATUS_METHOD_NOT_FOUND))
          case Some(i) => Handled(i, req, registry[id][i].handler(req, name, NestedAttr(msg, DataTag)))
  }

  /**
   * A dispatch sends no reply when the message is dropped or the handler
   * defers, and otherwise exactly one, correlated with the call and carrying
   * the rejection status or the handler's status.
   */
  lemma RepliesSent(peer: uint32, sequence: uint32, msg: Attrs, registry: map<uint32, seq<Method>>)
    ensures var d := Invoke(peer, sequence, msg, registry);
      && (|Sent(d)| == 0 <==> d.Dropped? || (d.Handled? && d.result.deferred))
      && (|Sent(d)| == 1 <==> d.Rejected? || (d.Handled? && !d.result.deferred))
      && (d.Handled? && !d.result.deferred ==> Sent(d)[0].status == d.result.status)
      && (forall r :: r in Sent(d) ==>
            r.peer == peer && r.sequence == sequence && Some(r.objId) == U32Attr(msg, ObjIdTag))
  {
  }

  /** A nameless method takes every call that reaches it: listed first, it takes them all. */
  lemma NamelessFirstTakesAll(methods: seq<Method>, name: string)
    requires |methods| > 0 && methods[0].name.None?
    ensures FindMethod(methods, name) == Some(0)
  {
  }
}
