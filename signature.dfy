/**
 * Serialisation of an object type's method signatures into the signature
 * attribute of an add-object request: one named table per method, each
 * holding one `argument name -> type code` u32 field per policy entry.
 */
module Signature {
  import opened UbusTypes

  /**
   * A u32 attribute `name -> type code` inside a method table: the wire form
   * of one policy entry, which the broker reads back into a policy entry.
   */
  datatype Field = Field(name: string, typ: uint32)

  /** The table emitted for one method, named after the method (no name for a nameless method). */
  datatype MethodTable = MethodTable(name: Option<string>, fields: seq<Field>)

  /** What the signature says about one method: its name and its argument policy. */
  datatype MethodShape = MethodShape(name: Option<string>, policy: seq<PolicyEntry>)

  /** The fields emitted for a policy, in declared order. */
  function FieldsOf(policy: seq<PolicyEntry>): (r: seq<Field>)
    ensures |r| == |policy|
    ensures forall i :: 0 <= i < |policy| ==> r[i] == Field(policy[i].name, policy[i].typ)
  {
    if policy == [] then []
    else FieldsOf(policy[..|policy| - 1]) + [Field(policy[|policy| - 1].name, policy[|policy| - 1].typ)]
  }

  function TableOf(m: Method): MethodTable
  {
    MethodTable(m.name, FieldsOf(m.policy))
  }

  /** The tables emitted for a list of methods, in declared order. */
  function SignatureOf(methods: seq<Method>): (r: seq<MethodTable>)
    ensures |r| == |methods|
    ensures forall i :: 0 <= i < |methods| ==> r[i] == TableOf(methods[i])
  {
    if methods == [] then []
    else SignatureOf(methods[..|methods| - 1]) + [TableOf(methods[|methods| - 1])]
  }

  /** Reading a method table back: each field becomes a policy entry again. */
  function PolicyOf(fields: seq<Field>): seq<PolicyEntry>
  {
    if fields == [] then [] else [PolicyEntry(fields[0].name, fields[0].typ)] + PolicyOf(fields[1..])
  }

  /** Reading a whole signature back into method shapes, as the broker does. */
  function ParseSignature(tables: seq<MethodTable>): seq<MethodShape>
  {
    if tables == [] then []
    else [MethodShape(tables[0].name, PolicyOf(tables[0].fields))] + ParseSignature(tables[1..])
  }

  function ShapesOf(methods: seq<Method>): seq<MethodShape>
  {
    if methods == [] then [] else [MethodShape(methods[0].name, methods[0].policy)] + ShapesOf(methods[1..])
  }

  /** The fields of a policy read back give the policy. */
  lemma {:induction false} PolicyRoundTrip(policy: seq<PolicyEntry>)
    ensures PolicyOf(FieldsOf(policy)) == policy
  {
    if policy != [] {
      var f := FieldsOf(policy);
      assert f[1..] == FieldsOf(policy[1..]);
      PolicyRoundTrip(policy[1..]);
      assert policy == [policy[0]] + policy[1..];
    }
  }

  /** Parsing the serialised signature gives back every method's name and policy, in order. */
  lemma {:induction false} SignatureRoundTrip(methods: seq<Method>)
    ensures ParseSignature(SignatureOf(methods)) == ShapesOf(methods)
  {
    if methods != [] {
      var s := SignatureOf(methods);
      assert s[1..] == SignatureOf(methods[1..]);
      PolicyRoundTrip(methods[0].policy);
      SignatureRoundTrip(methods[1..]);
    }
  }

  /** Builds the table of one method, appending one field per policy entry. */
  method PushMethodData(m: Method) returns (t: MethodTable)
    ensures t.name == m.name
    ensures |t.fields| == |m.policy|
    ensures forall i :: 0 <= i < |m.policy| ==> t.fields[i] == Field(m.policy[i].name, m.policy[i].typ)
    ensures t == TableOf(m)
  {
    var fields: seq<Field> := [];
    var i := 0;
    while i < |m.policy|
      invariant 0 <= i <= |m.policy|
      invariant fields == FieldsOf(m.policy[..i])
    {
      assert m.policy[..i + 1][..i] == m.policy[..i];
      fields := fields + [Field(m.policy[i].name, m.policy[i].typ)];
      i := i + 1;
    }
    assert m.policy[..i] == m.policy;
    t := MethodTable(m.name, fields);
  }

  /**
   * Builds the signature attribute of a type: one table per method, in order.
   * It always succeeds.
   */
  method PushObjectType(methods: seq<Method>) returns (ok: bool, tables: seq<MethodTable>)
    ensures ok
    ensures |tables| == |methods|
    ensures forall i :: 0 <= i < |methods| ==> tables[i] == TableOf(methods[i])
    ensures tables == SignatureOf(methods)
  {
    tables := [];
    var i := 0;
    while i < |methods|
      invariant 0 <= i <= |methods|
      invariant tables == SignatureOf(methods[..i])
    {
      assert methods[..i + 1][..i] == methods[..i];
      var t := PushMethodData(methods[i]);
      tables := tables + [t];
      i := i + 1;
    }
    assert methods[..i] == methods;
    ok := true;
  }
}
