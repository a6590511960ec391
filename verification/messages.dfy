/**
  The canonical record builder (`create_message`). The builder returns a dictionary: the extra
  keyword attributes first, then the fourteen canonical keys written over them. A `Record` holds
  the canonical attributes as fields and the extra ones by name; `AsDict` is that dictionary.
*/
module Messages {
  import opened PyValues

  /** The fourteen keys every record carries, whatever the caller supplied. */
  const CanonicalKeys: set<string> :=
    {"type", "sensor", "src_ip", "dest_ip", "src_port", "dest_port", "transport", "protocol",
     "vendor_product", "direction", "ids_type", "severity", "signature", "app"}

  /** A canonical event record; `Null` stands for an absent value, which is present as None. */
  datatype Record = Record(
    eventType: Value, sensor: Value,
    srcIp: Value, destIp: Value, srcPort: Value, destPort: Value,
    transport: Value, protocol: Value,
    vendorProduct: Value, direction: Value, idsType: Value, severity: Value,
    signature: Value, app: Value,
    extras: map<string, Value>)
  {
    /** No extra attribute is named like a canonical one. */
    predicate Valid()
    {
      extras.Keys !! CanonicalKeys
    }

    /** The extra attribute `name` is present and holds `v`. */
    predicate HasExtra(name: string, v: Value)
    {
      name in extras && extras[name] == v
    }

    /** The fourteen canonical attributes as dictionary entries. */
    function Canonical(): (m: map<string, Value>)
      ensures m.Keys == CanonicalKeys
      ensures m["type"] == eventType && m["sensor"] == sensor
      ensures m["src_ip"] == srcIp && m["dest_ip"] == destIp
      ensures m["src_port"] == srcPort && m["dest_port"] == destPort
      ensures m["transport"] == transport && m["protocol"] == protocol
      ensures m["vendor_product"] == vendorProduct && m["direction"] == direction
      ensures m["ids_type"] == idsType && m["severity"] == severity
      ensures m["signature"] == signature && m["app"] == app
    {
      map[
        "type" := eventType,
        "sensor" := sensor,
        "src_ip" := srcIp,
        "dest_ip" := destIp,
        "src_port" := srcPort,
        "dest_port" := destPort,
        "transport" := transport,
        "protocol" := protocol,
        "vendor_product" := vendorProduct,
        "direction" := direction,
        "ids_type" := idsType,
        "severity" := severity,
        "signature" := signature,
        "app" := app
      ]
    }

    /** The record as the Python dictionary: the extra attributes, overwritten by the canonical ones. */
    function AsDict(): (d: map<string, Value>)
      ensures d.Keys == extras.Keys + CanonicalKeys
      ensures forall k :: k in CanonicalKeys ==> d[k] == Canonical()[k]
      ensures forall k :: k in extras && k !in CanonicalKeys ==> d[k] == extras[k]
    {
      extras + Canonical()
    }
  }

  /** Assigning a key that the right operand of a union lacks commutes with the union. */
  lemma UpdateBelowUnion(a: map<string, Value>, c: map<string, Value>, k: string, v: Value)
    requires k !in c
    ensures a[k := v] + c == (a + c)[k := v]
  {
  }

  /** Assigning a key of the right operand of a union is assigning it in the union. */
  lemma UpdateAboveUnion(a: map<string, Value>, c: map<string, Value>, k: string, v: Value)
    requires k in c
    ensures a + c[k := v] == (a + c)[k := v]
  {
  }

  /**
    `create_message(event_type, identifier, src_ip, dst_ip, ..., **kwargs)`. The port, product,
    direction, classification, severity, signature and app parameters default to None, `transport`
    to "tcp" and `protocol` to "ip"; `extras` are the keyword arguments collected by `**kwargs`.
    Python binds a keyword named like a parameter (`event_type`, `identifier`, `dst_ip`, ...) to
    that parameter, so `extras` never holds a parameter name; every caller passes only other names.
  */
  function CreateMessage(
    eventType: Value, identifier: Value, srcIp: Value, dstIp: Value,
    srcPort: Value := Null, dstPort: Value := Null,
    transport: Value := Str("tcp"), protocol: Value := Str("ip"),
    vendorProduct: Value := Null, direction: Value := Null, idsType: Value := Null,
    severity: Value := Null, signature: Value := Null, app: Value := Null,
    extras: map<string, Value> := map[]): (msg: Record)
    ensures msg.Valid()
    ensures msg.extras.Keys == extras.Keys - CanonicalKeys
    ensures forall k :: k in msg.extras ==> msg.extras[k] == extras[k]
    ensures extras.Keys !! CanonicalKeys ==> msg.extras == extras
  {
    Record(eventType, identifier, srcIp, dstIp, srcPort, dstPort, transport, protocol,
           vendorProduct, direction, idsType, severity, signature, app, extras - CanonicalKeys)
  }

  /**
    The dictionary `create_message` returns holds all fourteen canonical keys with the values of
    their parameters, and every extra keyword attribute not named like a canonical key; where an
    extra attribute is named like one, the canonical value wins.
  */
  lemma {:induction false} CreateMessageDict(
    eventType: Value, identifier: Value, srcIp: Value, dstIp: Value,
    srcPort: Value, dstPort: Value, transport: Value, protocol: Value,
    vendorProduct: Value, direction: Value, idsType: Value,
    severity: Value, signature: Value, app: Value,
    extras: map<string, Value>)
    ensures var d := CreateMessage(eventType, identifier, srcIp, dstIp, srcPort, dstPort, transport, protocol,
                                   vendorProduct, direction, idsType, severity, signature, app, extras).AsDict();
      && d.Keys == extras.Keys + CanonicalKeys
      && d["type"] == eventType && d["sensor"] == identifier
      && d["src_ip"] == srcIp && d["dest_ip"] == dstIp
      && d["src_port"] == srcPort && d["dest_port"] == dstPort
      && d["transport"] == transport && d["protocol"] == protocol
      && d["vendor_product"] == vendorProduct && d["direction"] == direction
      && d["ids_type"] == idsType && d["severity"] == severity
      && d["signature"] == signature && d["app"] == app
      && (forall k :: k in extras && k !in CanonicalKeys ==> d[k] == extras[k])
  {
    var msg := CreateMessage(eventType, identifier, srcIp, dstIp, srcPort, dstPort, transport, protocol,
                             vendorProduct, direction, idsType, severity, signature, app, extras);
    var c := msg.Canonical();
    assert msg.AsDict() == (extras - CanonicalKeys) + c;
    assert forall k :: k in CanonicalKeys ==> msg.AsDict()[k] == c[k];
  }

  /** `msg['signature'] = v` on the dictionary is the update of the `signature` field. */
  lemma {:induction false} SignatureAssignment(r: Record, v: Value)
    requires r.Valid()
    ensures r.(signature := v).AsDict() == r.AsDict()["signature" := v]
  {
    var c := r.Canonical();
    assert r.(signature := v).Canonical() == c["signature" := v];
    UpdateAboveUnion(r.extras, c, "signature", v);
  }

  /** `msg[name] = v` for a name outside the canonical keys is the update of the extra attribute. */
  lemma {:induction false} ExtraAssignment(r: Record, name: string, v: Value)
    requires r.Valid() && name !in CanonicalKeys
    ensures r.(extras := r.extras[name := v]).Valid()
    ensures r.(extras := r.extras[name := v]).AsDict() == r.AsDict()[name := v]
  {
    UpdateBelowUnion(r.extras, r.Canonical(), name, v);
  }
}
