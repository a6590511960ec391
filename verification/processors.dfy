/**
  The per-sensor transforms of the normaliser. Each one takes the sensor identifier and the
  payload as `json.loads` decoded it (None when decoding failed, in which case no record comes
  out) and builds canonical records with `CreateMessage`. Payload fields are read through `Attr`,
  so a missing field reads as None.
*/
module Processors {
  import opened Wrappers
  import opened PyValues
  import opened Messages
  import opened UrlParsing

  // ---------------------------------------------------------------------------------------------
  // What the contracts say about a record
  // ---------------------------------------------------------------------------------------------

  /** The record's `type` and `sensor`. */
  predicate TypeAndSensor(rec: Record, eventType: string, identifier: string)
  {
    rec.eventType == Str(eventType) && rec.sensor == Str(identifier)
  }

  /** The record's source and destination addresses and ports. */
  predicate Endpoints(rec: Record, srcIp: Value, dstIp: Value, srcPort: Value, dstPort: Value)
  {
    rec.srcIp == srcIp && rec.destIp == dstIp && rec.srcPort == srcPort && rec.destPort == dstPort
  }

  /** The record's transport, and the protocol "ip" that no transform overrides. */
  predicate TransportAndProtocol(rec: Record, transport: Value)
  {
    rec.transport == transport && rec.protocol == Str("ip")
  }

  /**
    The sensor-identity constants a transform hardcodes: product, app, severity and signature,
    with the direction "inbound" and the classification "network" that every transform uses.
  */
  predicate Identity(rec: Record, vendor: string, app: string, severity: string, signature: Value)
  {
    && rec.vendorProduct == Str(vendor) && rec.app == Str(app)
    && rec.severity == Str(severity) && rec.signature == signature
    && rec.direction == Str("inbound") && rec.idsType == Str("network")
  }

  const HoneypotConnection := Str("Connection to Honeypot")

  // ---------------------------------------------------------------------------------------------
  // glastopf_event
  // ---------------------------------------------------------------------------------------------

  /** `dec.source[0]` and `dec.source[1]` are evaluated outside any `try` once the pattern filter passes. */
  predicate GlastopfShaped(d: Payload)
  {
    Attr(d, "pattern") != Str("unknown") ==> Index(Attr(d, "source"), 1).Some?
  }

  /** Web honeypot events: dropped when the pattern is "unknown", otherwise aimed at port 80. */
  function GlastopfEvent(identifier: string, decoded: Option<Payload>): (r: Option<Record>)
    requires decoded.Some? ==> GlastopfShaped(decoded.value)
    ensures r.None? <==> decoded.None? || Attr(decoded.value, "pattern") == Str("unknown")
    ensures r.Some? ==>
      var rec, source := r.value, Attr(decoded.value, "source");
      && rec.extras == map[]
      && TypeAndSensor(rec, "glastopf.events", identifier)
      && Endpoints(rec, Index(source, 0).value, Null, Index(source, 1).value, Num(80))
      && TransportAndProtocol(rec, Str("tcp"))
      && Identity(rec, "Glastopf", "glastopf", "high", HoneypotConnection)
  {
    if decoded.None? then None
    else
      var dec := decoded.value;
      if Attr(dec, "pattern") == Str("unknown") then None
      else
        var source := Attr(dec, "source");
        Some(CreateMessage(
          Str("glastopf.events"),
          Str(identifier),
          srcIp := Index(source, 0).value,
          srcPort := Index(source, 1).value,
          dstIp := Null,
          dstPort := Num(80),
          vendorProduct := Str("Glastopf"),
          app := Str("glastopf"),
          direction := Str("inbound"),
          idsType := Str("network"),
          severity := Str("high"),
          signature := HoneypotConnection))
  }

  // ---------------------------------------------------------------------------------------------
  // dionaea_capture, dionaea_connections, beeswarm_hive
  // ---------------------------------------------------------------------------------------------

  /** Malware captures: one record per decoded payload, carrying the capture's url, md5 and sha512. */
  function DionaeaCapture(identifier: string, decoded: Option<Payload>): (r: Option<Record>)
    ensures r.Some? <==> decoded.Some?
    ensures r.Some? ==>
      var rec, d := r.value, decoded.value;
      && rec.extras == map["url" := Attr(d, "url"), "md5" := Attr(d, "md5"), "sha512" := Attr(d, "sha512")]
      && TypeAndSensor(rec, "dionaea.capture", identifier)
      && Endpoints(rec, Attr(d, "saddr"), Attr(d, "daddr"), Attr(d, "sport"), Attr(d, "dport"))
      && TransportAndProtocol(rec, Str("tcp"))
      && Identity(rec, "Dionaea", "dionaea", "high", HoneypotConnection)
  {
    if decoded.None? then None
    else
      var dec := decoded.value;
      var extras := map["url" := Attr(dec, "url"), "md5" := Attr(dec, "md5"), "sha512" := Attr(dec, "sha512")];
      assert extras.Keys !! CanonicalKeys;
      Some(CreateMessage(
        Str("dionaea.capture"),
        Str(identifier),
        srcIp := Attr(dec, "saddr"),
        dstIp := Attr(dec, "daddr"),
        srcPort := Attr(dec, "sport"),
        dstPort := Attr(dec, "dport"),
        vendorProduct := Str("Dionaea"),
        app := Str("dionaea"),
        direction := Str("inbound"),
        idsType := Str("network"),
        severity := Str("high"),
        signature := HoneypotConnection,
        extras := extras))
  }

  /** Dionaea connections: the remote end is the source, the local end the destination. */
  function DionaeaConnections(identifier: string, decoded: Option<Payload>): (r: Option<Record>)
    ensures r.Some? <==> decoded.Some?
    ensures r.Some? ==>
      var rec, d := r.value, decoded.value;
      && rec.extras == map[]
      && TypeAndSensor(rec, "dionaea.connections", identifier)
      && Endpoints(rec, Attr(d, "remote_host"), Attr(d, "local_host"), Attr(d, "remote_port"), Attr(d, "local_port"))
      && TransportAndProtocol(rec, Str("tcp"))
      && Identity(rec, "Dionaea", "dionaea", "high", HoneypotConnection)
  {
    if decoded.None? then None
    else
      var dec := decoded.value;
      Some(CreateMessage(
        Str("dionaea.connections"),
        Str(identifier),
        srcIp := Attr(dec, "remote_host"),
        dstIp := Attr(dec, "local_host"),
        srcPort := Attr(dec, "remote_port"),
        dstPort := Attr(dec, "local_port"),
        vendorProduct := Str("Dionaea"),
        app := Str("dionaea"),
        direction := Str("inbound"),
        idsType := Str("network"),
        severity := Str("high"),
        signature := HoneypotConnection))
  }

  /** Beeswarm hive events: attacker to honeypot. */
  function BeeswarmHive(identifier: string, decoded: Option<Payload>): (r: Option<Record>)
    ensures r.Some? <==> decoded.Some?
    ensures r.Some? ==>
      var rec, d := r.value, decoded.value;
      && rec.extras == map[]
      && TypeAndSensor(rec, "beeswarm.hive", identifier)
      && Endpoints(rec, Attr(d, "attacker_ip"), Attr(d, "honey_ip"), Attr(d, "attacker_source_port"), Attr(d, "honey_port"))
      && TransportAndProtocol(rec, Str("tcp"))
      && Identity(rec, "Beeswarm", "beeswarm", "high", HoneypotConnection)
  {
    if decoded.None? then None
    else
      var dec := decoded.value;
      Some(CreateMessage(
        Str("beeswarm.hive"),
        Str(identifier),
        srcIp := Attr(dec, "attacker_ip"),
        dstIp := Attr(dec, "honey_ip"),
        srcPort := Attr(dec, "attacker_source_port"),
        dstPort := Attr(dec, "honey_port"),
        vendorProduct := Str("Beeswarm"),
        app := Str("beeswarm"),
        direction := Str("inbound"),
        idsType := Str("network"),
        severity := Str("high"),
        signature := HoneypotConnection))
  }

  // ---------------------------------------------------------------------------------------------
  // kippo_sessions
  // ---------------------------------------------------------------------------------------------

  const SessionSignature := "SSH session on kippo honeypot"
  const LoginSignature := "SSH login attempted on kippo honeypot"
  const UrlSignature := "URL download attempted on kippo honeypot"
  const CommandSignature := "command attempted on kippo honeypot"
  const UnknownCommandSignature := "unknown command attempted on kippo honeypot"

  /**
    The four loops run outside any `try`: each list field must be iterable, and every credential
    must unpack into a username and a password.
  */
  predicate KippoShaped(d: Payload)
  {
    && Iterable(Attr(d, "credentials"))
    && (forall k :: 0 <= k < |Items(Attr(d, "credentials"))| ==> IsPair(Items(Attr(d, "credentials"))[k]))
    && Iterable(Attr(d, "urls"))
    && Iterable(Attr(d, "commands"))
    && Iterable(Attr(d, "unknownCommands"))
  }

  /** The session record every expansion starts with; it also carries the client's `ssh_version`. */
  function KippoBase(identifier: string, d: Payload): (base: Record)
    ensures base.Valid() && base.extras.Keys == {"ssh_version"} && Expandable(base)
    ensures TypeAndSensor(base, "kippo.sessions", identifier)
    ensures Endpoints(base, Attr(d, "peerIP"), Attr(d, "hostIP"), Attr(d, "peerPort"), Attr(d, "hostPort"))
    ensures TransportAndProtocol(base, Str("tcp"))
    ensures Identity(base, "Kippo", "kippo", "high", Str(SessionSignature))
    ensures base.HasExtra("ssh_version", Attr(d, "version"))
  {
    CreateMessage(
      Str("kippo.sessions"),
      Str(identifier),
      srcIp := Attr(d, "peerIP"),
      dstIp := Attr(d, "hostIP"),
      srcPort := Attr(d, "peerPort"),
      dstPort := Attr(d, "hostPort"),
      vendorProduct := Str("Kippo"),
      app := Str("kippo"),
      direction := Str("inbound"),
      idsType := Str("network"),
      severity := Str("high"),
      signature := Str(SessionSignature),
      extras := map["ssh_version" := Attr(d, "version")])
  }

  /**
    `rec` is a copy of `base` in which only the signature was replaced and extra attributes were
    added: every other canonical attribute and every extra attribute of `base` is unchanged.
  */
  predicate CopyOfBase(rec: Record, base: Record)
  {
    && rec == base.(signature := rec.signature, extras := rec.extras)
    && base.extras.Keys <= rec.extras.Keys
    && forall k :: k in base.extras ==> rec.extras[k] == base.extras[k]
  }

  /** A copy of the session record for one login attempt. */
  function CredentialRecord(base: Record, credential: Value): (rec: Record)
    requires IsPair(credential) && "ssh_username" !in base.extras && "ssh_password" !in base.extras
    ensures CopyOfBase(rec, base)
    ensures rec.signature == Str(LoginSignature)
    ensures rec.extras.Keys == base.extras.Keys + {"ssh_username", "ssh_password"}
    ensures Index(credential, 0) == Some(rec.extras["ssh_username"])
    ensures Index(credential, 1) == Some(rec.extras["ssh_password"])
  {
    var (username, password) := Unpack(credential);
    base.(signature := Str(LoginSignature), extras := base.extras["ssh_username" := username]["ssh_password" := password])
  }

  /**
    A copy of the session record for one URL or command: the signature names the item's group
    and the item is stored under `key`.
  */
  function ItemRecord(base: Record, signature: string, key: string, item: Value): (rec: Record)
    requires key !in base.extras
    ensures CopyOfBase(rec, base)
    ensures rec.signature == Str(signature)
    ensures rec.extras.Keys == base.extras.Keys + {key} && rec.HasExtra(key, item)
  {
    base.(signature := Str(signature), extras := base.extras[key := item])
  }

  /**
    In dictionary terms a login copy is `dict(base)` with the signature, the username and the
    password assigned, in that order.
  */
  lemma CredentialRecordDict(base: Record, credential: Value)
    requires base.Valid() && IsPair(credential)
    requires "ssh_username" !in base.extras && "ssh_password" !in base.extras
    ensures var (username, password) := Unpack(credential);
      CredentialRecord(base, credential).AsDict()
      == base.AsDict()["signature" := Str(LoginSignature)]["ssh_username" := username]["ssh_password" := password]
  {
    var (username, password) := Unpack(credential);
    var signed := base.(signature := Str(LoginSignature));
    var named := signed.(extras := signed.extras["ssh_username" := username]);
    assert named.(extras := named.extras["ssh_password" := password]) == CredentialRecord(base, credential);
    assert "ssh_username" !in CanonicalKeys && "ssh_password" !in CanonicalKeys;
    SignatureAssignment(base, Str(LoginSignature));
    ExtraAssignment(signed, "ssh_username", username);
    ExtraAssignment(named, "ssh_password", password);
  }

  /** In dictionary terms a URL or command copy is `dict(base)` with the signature and the item assigned. */
  lemma ItemRecordDict(base: Record, signature: string, key: string, item: Value)
    requires base.Valid() && key !in base.extras && key !in CanonicalKeys
    ensures ItemRecord(base, signature, key, item).AsDict() == base.AsDict()["signature" := Str(signature)][key := item]
  {
    SignatureAssignment(base, Str(signature));
    ExtraAssignment(base.(signature := Str(signature)), key, item);
  }

  /** The copies for a list of credentials, one per pair, in order. */
  function CredentialRecords(base: Record, credentials: seq<Value>): (msgs: seq<Record>)
    requires "ssh_username" !in base.extras && "ssh_password" !in base.extras
    requires forall k :: 0 <= k < |credentials| ==> IsPair(credentials[k])
    ensures |msgs| == |credentials|
    ensures forall k :: 0 <= k < |credentials| ==> msgs[k] == CredentialRecord(base, credentials[k])
  {
    seq(|credentials|, k requires 0 <= k < |credentials| => CredentialRecord(base, credentials[k]))
  }

  /** The copies for a list of URLs or commands, one per item, in order. */
  function ItemRecords(base: Record, signature: string, key: string, items: seq<Value>): (msgs: seq<Record>)
    requires key !in base.extras
    ensures |msgs| == |items|
    ensures forall k :: 0 <= k < |items| ==> msgs[k] == ItemRecord(base, signature, key, items[k])
  {
    seq(|items|, k requires 0 <= k < |items| => ItemRecord(base, signature, key, items[k]))
  }

  /** None of the keys the per-item copies add is already an extra attribute of the session record. */
  predicate Expandable(base: Record)
  {
    base.extras.Keys !! {"ssh_username", "ssh_password", "url", "command"}
  }

  /**
    The expansion of one session: the session record, then one copy per credential, per URL, per
    command and per unknown command, each group in the payload's order.
  */
  function Expansion(base: Record, credentials: seq<Value>, urls: seq<Value>, commands: seq<Value>,
                     unknown: seq<Value>): seq<Record>
    requires Expandable(base) && forall k :: 0 <= k < |credentials| ==> IsPair(credentials[k])
  {
    [base] + CredentialRecords(base, credentials) + ItemRecords(base, UrlSignature, "url", urls)
    + ItemRecords(base, CommandSignature, "command", commands)
    + ItemRecords(base, UnknownCommandSignature, "command", unknown)
  }

  /** One iteration of the credentials loop per pair: append a login copy of `base` for each. */
  method AppendLogins(messages: seq<Record>, base: Record, credentials: seq<Value>) returns (out: seq<Record>)
    requires "ssh_username" !in base.extras && "ssh_password" !in base.extras
    requires forall k :: 0 <= k < |credentials| ==> IsPair(credentials[k])
    ensures out == messages + CredentialRecords(base, credentials)
  {
    out := messages;
    for i := 0 to |credentials|
      invariant out == messages + CredentialRecords(base, credentials[..i])
    {
      var (username, password) := Unpack(credentials[i]);
      var msg := base;
      msg := msg.(signature := Str(LoginSignature));
      msg := msg.(extras := msg.extras["ssh_username" := username]);
      msg := msg.(extras := msg.extras["ssh_password" := password]);
      assert credentials[..i + 1][..i] == credentials[..i];
      out := out + [msg];
    }
    assert credentials[..|credentials|] == credentials;
  }

  /**
    The URL, command and unknown-command loops: for each item, append a copy of `base` with the
    group's signature and the item under `key`.
  */
  method AppendCopies(messages: seq<Record>, base: Record, signature: string, key: string, items: seq<Value>)
    returns (out: seq<Record>)
    requires key !in base.extras
    ensures out == messages + ItemRecords(base, signature, key, items)
  {
    out := messages;
    for i := 0 to |items|
      invariant out == messages + ItemRecords(base, signature, key, items[..i])
    {
      var msg := base;
      msg := msg.(signature := Str(signature));
      msg := msg.(extras := msg.extras[key := items[i]]);
      assert items[..i + 1][..i] == items[..i];
      out := out + [msg];
    }
    assert items[..|items|] == items;
  }

  /**
    SSH sessions: one record for the session, then one per credential pair, URL, command and
    unknown command, in that order; an absent or empty list contributes nothing.
  */
  method KippoSessions(identifier: string, decoded: Option<Payload>) returns (r: Option<seq<Record>>)
    requires decoded.Some? ==> KippoShaped(decoded.value)
    ensures r.Some? <==> decoded.Some?
    ensures r.Some? ==>
      var d := decoded.value;
      r.value == Expansion(KippoBase(identifier, d), Items(Attr(d, "credentials")), Items(Attr(d, "urls")),
                           Items(Attr(d, "commands")), Items(Attr(d, "unknownCommands")))
  {
    if decoded.None? {
      return None;
    }
    var dec := decoded.value;
    var messages: seq<Record> := [];
    var base := KippoBase(identifier, dec);
    messages := messages + [base];
    assert messages == [base];
    messages := AppendLogins(messages, base, Items(Attr(dec, "credentials")));
    messages := AppendCopies(messages, base, UrlSignature, "url", Items(Attr(dec, "urls")));
    messages := AppendCopies(messages, base, CommandSignature, "command", Items(Attr(dec, "commands")));
    messages := AppendCopies(messages, base, UnknownCommandSignature, "command", Items(Attr(dec, "unknownCommands")));
    return Some(messages);
  }

  /**
    Every record of an expansion after the first is a copy of the first in which only the
    signature changed and item attributes were added, and the signature names the record's group,
    found from its position alone.
  */
  lemma {:induction false} ExpansionCopiesBase(base: Record, credentials: seq<Value>, urls: seq<Value>,
                                               commands: seq<Value>, unknown: seq<Value>)
    requires Expandable(base) && forall k :: 0 <= k < |credentials| ==> IsPair(credentials[k])
    ensures var msgs := Expansion(base, credentials, urls, commands, unknown);
      var c, u, m := |credentials|, |urls|, |commands|;
      && |msgs| == 1 + c + u + m + |unknown| && msgs[0] == base
      && (forall k :: 1 <= k < |msgs| ==> CopyOfBase(msgs[k], msgs[0]))
      && (forall k :: 1 <= k <= c ==> msgs[k].signature == Str(LoginSignature))
      && (forall k :: c < k <= c + u ==> msgs[k].signature == Str(UrlSignature))
      && (forall k :: c + u < k <= c + u + m ==> msgs[k].signature == Str(CommandSignature))
      && (forall k :: c + u + m < k < |msgs| ==> msgs[k].signature == Str(UnknownCommandSignature))
  {
    var logins := CredentialRecords(base, credentials);
    var downloads := ItemRecords(base, UrlSignature, "url", urls);
    var known := ItemRecords(base, CommandSignature, "command", commands);
    var unknownCopies := ItemRecords(base, UnknownCommandSignature, "command", unknown);
    var msgs := Expansion(base, credentials, urls, commands, unknown);
    var c, u, m := |credentials|, |urls|, |commands|;
    forall k | 1 <= k < |msgs|
      ensures CopyOfBase(msgs[k], msgs[0])
      ensures k <= c ==> msgs[k].signature == Str(LoginSignature)
      ensures c < k <= c + u ==> msgs[k].signature == Str(UrlSignature)
      ensures c + u < k <= c + u + m ==> msgs[k].signature == Str(CommandSignature)
      ensures c + u + m < k ==> msgs[k].signature == Str(UnknownCommandSignature)
    {
      if k <= c {
        assert msgs[k] == logins[k - 1];
      } else if k <= c + u {
        assert msgs[k] == downloads[k - 1 - c];
      } else if k <= c + u + m {
        assert msgs[k] == known[k - 1 - c - u];
      } else {
        assert msgs[k] == unknownCopies[k - 1 - c - u - m];
      }
    }
  }

  /**
    The expansion splits into its groups: after the session record come exactly the login copies,
    then the URL copies, the command copies and the unknown-command copies. With the contracts of
    `CredentialRecords` and `ItemRecords`, the k-th record of each group is the copy built from
    the k-th item of its list.
  */
  lemma ExpansionGroups(base: Record, credentials: seq<Value>, urls: seq<Value>,
                        commands: seq<Value>, unknown: seq<Value>)
    requires Expandable(base) && forall k :: 0 <= k < |credentials| ==> IsPair(credentials[k])
    ensures var msgs := Expansion(base, credentials, urls, commands, unknown);
      var c, u, m := |credentials|, |urls|, |commands|;
      && |msgs| == 1 + c + u + m + |unknown| && msgs[0] == base
      && msgs[1..1 + c] == CredentialRecords(base, credentials)
      && msgs[1 + c..1 + c + u] == ItemRecords(base, UrlSignature, "url", urls)
      && msgs[1 + c + u..1 + c + u + m] == ItemRecords(base, CommandSignature, "command", commands)
      && msgs[1 + c + u + m..] == ItemRecords(base, UnknownCommandSignature, "command", unknown)
  {
    GroupSlices(base, CredentialRecords(base, credentials), ItemRecords(base, UrlSignature, "url", urls),
                ItemRecords(base, CommandSignature, "command", commands),
                ItemRecords(base, UnknownCommandSignature, "command", unknown));
  }

  /**
    Each record after the first carries its own payload item. The k-th login copy is built from
    the k-th credential; ExpansionUrls, ExpansionCommands and ExpansionUnknown say the same of the
    URL, command and unknown-command copies.
  */
  lemma ExpansionLogins(base: Record, credentials: seq<Value>, urls: seq<Value>,
                        commands: seq<Value>, unknown: seq<Value>)
    requires Expandable(base) && forall k :: 0 <= k < |credentials| ==> IsPair(credentials[k])
    ensures var msgs := Expansion(base, credentials, urls, commands, unknown);
      && |msgs| == 1 + |credentials| + |urls| + |commands| + |unknown|
      && forall k :: 0 <= k < |credentials| ==> msgs[1 + k] == CredentialRecord(base, credentials[k])
  {
    ExpansionGroups(base, credentials, urls, commands, unknown);
    SliceItems(Expansion(base, credentials, urls, commands, unknown), 1, CredentialRecords(base, credentials));
  }

  /** The k-th URL copy is built from the k-th URL. */
  lemma ExpansionUrls(base: Record, credentials: seq<Value>, urls: seq<Value>,
                      commands: seq<Value>, unknown: seq<Value>)
    requires Expandable(base) && forall k :: 0 <= k < |credentials| ==> IsPair(credentials[k])
    ensures var msgs := Expansion(base, credentials, urls, commands, unknown); var c := |credentials|;
      && |msgs| == 1 + c + |urls| + |commands| + |unknown|
      && forall k :: 0 <= k < |urls| ==> msgs[1 + c + k] == ItemRecord(base, UrlSignature, "url", urls[k])
  {
    ExpansionGroups(base, credentials, urls, commands, unknown);
    SliceItems(Expansion(base, credentials, urls, commands, unknown), 1 + |credentials|,
               ItemRecords(base, UrlSignature, "url", urls));
  }

  /** The k-th command copy is built from the k-th command. */
  lemma ExpansionCommands(base: Record, credentials: seq<Value>, urls: seq<Value>,
                          commands: seq<Value>, unknown: seq<Value>)
    requires Expandable(base) && forall k :: 0 <= k < |credentials| ==> IsPair(credentials[k])
    ensures var msgs := Expansion(base, credentials, urls, commands, unknown); var c, u := |credentials|, |urls|;
      && |msgs| == 1 + c + u + |commands| + |unknown|
      && forall k :: 0 <= k < |commands| ==>
           msgs[1 + c + u + k] == ItemRecord(base, CommandSignature, "command", commands[k])
  {
    ExpansionGroups(base, credentials, urls, commands, unknown);
    SliceItems(Expansion(base, credentials, urls, commands, unknown), 1 + |credentials| + |urls|,
               ItemRecords(base, CommandSignature, "command", commands));
  }

  /** The k-th unknown-command copy is built from the k-th unknown command. */
  lemma ExpansionUnknown(base: Record, credentials: seq<Value>, urls: seq<Value>,
                         commands: seq<Value>, unknown: seq<Value>)
    requires Expandable(base) && forall k :: 0 <= k < |credentials| ==> IsPair(credentials[k])
    ensures var msgs := Expansion(base, credentials, urls, commands, unknown);
      var c, u, m := |credentials|, |urls|, |commands|;
      && |msgs| == 1 + c + u + m + |unknown|
      && forall k :: 0 <= k < |unknown| ==>
           msgs[1 + c + u + m + k] == ItemRecord(base, UnknownCommandSignature, "command", unknown[k])
  {
    ExpansionGroups(base, credentials, urls, commands, unknown);
    SliceItems(Expansion(base, credentials, urls, commands, unknown), 1 + |credentials| + |urls| + |commands|,
               ItemRecords(base, UnknownCommandSignature, "command", unknown));
  }

  /** A slice of `s` that equals `g` lines `g`'s items up with `s`'s from its start on. */
  lemma SliceItems<T>(s: seq<T>, lo: nat, g: seq<T>)
    requires lo + |g| <= |s| && s[lo..lo + |g|] == g
    ensures forall k :: 0 <= k < |g| ==> s[lo + k] == g[k]
  {
    forall k | 0 <= k < |g|
      ensures s[lo + k] == g[k]
    {
      assert s[lo..lo + |g|][k] == s[lo + k];
    }
  }

  /** The groups of `[first] + a + b + c + d` are its consecutive slices. */
  lemma GroupSlices<T>(first: T, a: seq<T>, b: seq<T>, c: seq<T>, d: seq<T>)
    ensures var s := [first] + a + b + c + d;
      && |s| == 1 + |a| + |b| + |c| + |d| && s[0] == first
      && s[1..1 + |a|] == a
      && s[1 + |a|..1 + |a| + |b|] == b
      && s[1 + |a| + |b|..1 + |a| + |b| + |c|] == c
      && s[1 + |a| + |b| + |c|..] == d
  {
    var s := [first] + a + b + c + d;
    assert s == [first] + (a + (b + (c + d)));
    assert s[1..] == a + (b + (c + d));
    assert s[1 + |a|..] == b + (c + d);
    assert s[1 + |a| + |b|..] == c + d;
  }

  // ---------------------------------------------------------------------------------------------
  // conpot_events
  // ---------------------------------------------------------------------------------------------

  /** The loopback address conpot's own HTTP front end uses when it queries SNMP. */
  const Loopback := Str("127.0.0.1")

  /** `dec.remote[0]` and `dec.remote[1]` both succeed (inside the `try`) and the address is not loopback. */
  predicate ConpotAccepts(d: Payload)
  {
    var remote := Attr(d, "remote");
    Index(remote, 1).Some? && Index(remote, 0).value != Loopback
  }

  /** `'conpot.events-' + dec.data_type` is evaluated after the `try`, so it must be a string. */
  predicate ConpotShaped(d: Payload)
  {
    ConpotAccepts(d) ==> Attr(d, "data_type").Str?
  }

  /**
    ICS/SCADA events: none when `remote` cannot be indexed twice or its address is loopback,
    otherwise a record whose type carries the payload's `data_type`, aimed at Modbus port 502.
  */
  function ConpotEvents(identifier: string, decoded: Option<Payload>): (r: Option<Record>)
    requires decoded.Some? ==> ConpotShaped(decoded.value)
    ensures r.Some? <==> decoded.Some? && ConpotAccepts(decoded.value)
    ensures decoded.Some? && Index(Attr(decoded.value, "remote"), 0) == Some(Loopback) ==> r.None?
    ensures r.Some? ==>
      var rec, d := r.value, decoded.value;
      var remote := Attr(d, "remote");
      && rec.extras == map[]
      && TypeAndSensor(rec, "conpot.events-" + Attr(d, "data_type").s, identifier)
      && Endpoints(rec, Index(remote, 0).value, Attr(d, "public_ip"), Index(remote, 1).value, Num(502))
      && TransportAndProtocol(rec, Str("tcp"))
      && Identity(rec, "Conpot", "conpot", "medium", HoneypotConnection)
  {
    if decoded.None? then None
    else
      var dec := decoded.value;
      var remoteField := Attr(dec, "remote");
      var first := Index(remoteField, 0);
      var second := Index(remoteField, 1);
      if first.None? || second.None? then None
      else
        var remote, port := first.value, second.value;
        if remote == Loopback then None
        else
          Some(CreateMessage(
            Str("conpot.events-" + Attr(dec, "data_type").s),
            Str(identifier),
            srcIp := remote,
            dstIp := Attr(dec, "public_ip"),
            srcPort := port,
            dstPort := Num(502),
            vendorProduct := Str("Conpot"),
            app := Str("conpot"),
            direction := Str("inbound"),
            idsType := Str("network"),
            severity := Str("medium"),
            signature := HoneypotConnection))
  }

  // ---------------------------------------------------------------------------------------------
  // snort_alerts, suricata_events
  // ---------------------------------------------------------------------------------------------

  /** Snort alerts: transport and signature are the alert's own, None when the alert lacks them. */
  function SnortAlerts(identifier: string, decoded: Option<Payload>): (r: Option<Record>)
    ensures r.Some? <==> decoded.Some?
    ensures r.Some? ==>
      var rec, d := r.value, decoded.value;
      && rec.extras == map[]
      && TypeAndSensor(rec, "snort.alerts", identifier)
      && Endpoints(rec, Attr(d, "source_ip"), Attr(d, "destination_ip"), Attr(d, "source_port"), Attr(d, "destination_port"))
      && TransportAndProtocol(rec, Attr(d, "protocol"))
      && Identity(rec, "Snort", "snort", "high", Attr(d, "signature"))
  {
    if decoded.None? then None
    else
      var dec := decoded.value;
      Some(CreateMessage(
        Str("snort.alerts"),
        Str(identifier),
        srcIp := Attr(dec, "source_ip"),
        dstIp := Attr(dec, "destination_ip"),
        srcPort := Attr(dec, "source_port"),
        dstPort := Attr(dec, "destination_port"),
        transport := Attr(dec, "protocol"),
        vendorProduct := Str("Snort"),
        app := Str("snort"),
        direction := Str("inbound"),
        idsType := Str("network"),
        severity := Str("high"),
        signature := Attr(dec, "signature")))
  }

  /** Suricata events: the same field table as Snort under Suricata's own name and product. */
  function SuricataEvents(identifier: string, decoded: Option<Payload>): (r: Option<Record>)
    ensures r.Some? <==> decoded.Some?
    ensures r.Some? ==>
      var rec, d := r.value, decoded.value;
      && rec.extras == map[]
      && TypeAndSensor(rec, "suricata.events", identifier)
      && Endpoints(rec, Attr(d, "source_ip"), Attr(d, "destination_ip"), Attr(d, "source_port"), Attr(d, "destination_port"))
      && TransportAndProtocol(rec, Attr(d, "protocol"))
      && Identity(rec, "Suricata", "suricata", "high", Attr(d, "signature"))
  {
    if decoded.None? then None
    else
      var dec := decoded.value;
      Some(CreateMessage(
        Str("suricata.events"),
        Str(identifier),
        srcIp := Attr(dec, "source_ip"),
        dstIp := Attr(dec, "destination_ip"),
        srcPort := Attr(dec, "source_port"),
        dstPort := Attr(dec, "destination_port"),
        transport := Attr(dec, "protocol"),
        vendorProduct := Str("Suricata"),
        app := Str("suricata"),
        direction := Str("inbound"),
        idsType := Str("network"),
        severity := Str("high"),
        signature := Attr(dec, "signature")))
  }

  // ---------------------------------------------------------------------------------------------
  // p0f_events, amun_events, wordpot_event
  // ---------------------------------------------------------------------------------------------

  /**
    Passive fingerprints: informational, client to server, with the observed remote's app, link,
    os and uptime under `p0f_` names so that they do not collide with the record's own `app`.
  */
  function P0fEvents(identifier: string, decoded: Option<Payload>): (r: Option<Record>)
    ensures r.Some? <==> decoded.Some?
    ensures r.Some? ==>
      var rec, d := r.value, decoded.value;
      && rec.extras == map["p0f_app" := Attr(d, "app"), "p0f_link" := Attr(d, "link"),
                           "p0f_os" := Attr(d, "os"), "p0f_uptime" := Attr(d, "uptime")]
      && TypeAndSensor(rec, "p0f.events", identifier)
      && Endpoints(rec, Attr(d, "client_ip"), Attr(d, "server_ip"), Attr(d, "client_port"), Attr(d, "server_port"))
      && TransportAndProtocol(rec, Str("tcp"))
      && Identity(rec, "p0f", "p0f", "informational", Str("Packet Observed by p0f"))
  {
    if decoded.None? then None
    else
      var dec := decoded.value;
      var extras := map["p0f_app" := Attr(dec, "app"), "p0f_link" := Attr(dec, "link"),
                        "p0f_os" := Attr(dec, "os"), "p0f_uptime" := Attr(dec, "uptime")];
      assert extras.Keys !! CanonicalKeys;
      Some(CreateMessage(
        Str("p0f.events"),
        Str(identifier),
        srcIp := Attr(dec, "client_ip"),
        dstIp := Attr(dec, "server_ip"),
        srcPort := Attr(dec, "client_port"),
        dstPort := Attr(dec, "server_port"),
        vendorProduct := Str("p0f"),
        app := Str("p0f"),
        direction := Str("inbound"),
        idsType := Str("network"),
        severity := Str("informational"),
        signature := Str("Packet Observed by p0f"),
        extras := extras))
  }

  /** Amun events: attacker to victim. */
  function AmunEvents(identifier: string, decoded: Option<Payload>): (r: Option<Record>)
    ensures r.Some? <==> decoded.Some?
    ensures r.Some? ==>
      var rec, d := r.value, decoded.value;
      && rec.extras == map[]
      && TypeAndSensor(rec, "amun.events", identifier)
      && Endpoints(rec, Attr(d, "attackerIP"), Attr(d, "victimIP"), Attr(d, "attackerPort"), Attr(d, "victimPort"))
      && TransportAndProtocol(rec, Str("tcp"))
      && Identity(rec, "Amun", "amun", "high", HoneypotConnection)
  {
    if decoded.None? then None
    else
      var dec := decoded.value;
      Some(CreateMessage(
        Str("amun.events"),
        Str(identifier),
        srcIp := Attr(dec, "attackerIP"),
        dstIp := Attr(dec, "victimIP"),
        srcPort := Attr(dec, "attackerPort"),
        dstPort := Attr(dec, "victimPort"),
        vendorProduct := Str("Amun"),
        app := Str("amun"),
        direction := Str("inbound"),
        idsType := Str("network"),
        severity := Str("high"),
        signature := HoneypotConnection))
  }

  /** Wordpot alerts: WordPress exploit, scan or enumeration attempts. */
  function WordpotEvent(identifier: string, decoded: Option<Payload>): (r: Option<Record>)
    ensures r.Some? <==> decoded.Some?
    ensures r.Some? ==>
      var rec, d := r.value, decoded.value;
      && rec.extras == map[]
      && TypeAndSensor(rec, "wordpot.alerts", identifier)
      && Endpoints(rec, Attr(d, "source_ip"), Attr(d, "dest_ip"), Attr(d, "source_port"), Attr(d, "dest_port"))
      && TransportAndProtocol(rec, Str("tcp"))
      && Identity(rec, "Wordpot", "wordpot", "high", Str("Wordpress Exploit, Scan, or Enumeration Attempted"))
  {
    if decoded.None? then None
    else
      var dec := decoded.value;
      Some(CreateMessage(
        Str("wordpot.alerts"),
        Str(identifier),
        srcIp := Attr(dec, "source_ip"),
        dstIp := Attr(dec, "dest_ip"),
        srcPort := Attr(dec, "source_port"),
        dstPort := Attr(dec, "dest_port"),
        vendorProduct := Str("Wordpot"),
        app := Str("wordpot"),
        direction := Str("inbound"),
        idsType := Str("network"),
        severity := Str("high"),
        signature := Str("Wordpress Exploit, Scan, or Enumeration Attempted")))
  }

  // ---------------------------------------------------------------------------------------------
  // shockpot_event
  // ---------------------------------------------------------------------------------------------

  /** The hashlib constructors the Shellshock transform uses. */
  datatype HashAlgorithm = Md5 | Sha1 | Sha256 | Sha512

  /** The keys under which the four digests of `command_data` are stored. */
  const HashKeys: set<string> := {"md5", "sha1", "sha256", "sha512"}

  /**
    The digests and the URL group never collide with a canonical key, so they all survive as
    extras. Stated once here, because proving it inside the transform is expensive.
  */
  lemma NonCanonicalExtras()
    ensures HashKeys !! CanonicalKeys && "url" !in CanonicalKeys
  {
  }

  /** The four digests of `data` under their algorithm names. */
  function Digests(data: string, digest: (HashAlgorithm, string) -> string): (m: map<string, Value>)
    ensures m.Keys == HashKeys
  {
    map["md5" := Str(digest(Md5, data)), "sha1" := Str(digest(Sha1, data)),
        "sha256" := Str(digest(Sha256, data)), "sha512" := Str(digest(Sha512, data))]
  }

  /** The named group of the first URL in a true `command`, nothing when there is none. */
  function UrlGroup(command: Value): (m: map<string, Value>)
    requires Truthy(command) ==> command.Str?
    ensures m.Keys <= {"url"}
    ensures "url" in m <==> Truthy(command) && Search(command.s).Some?
    ensures "url" in m ==> m["url"] == Str(command.s[Search(command.s).value.0..Search(command.s).value.1])
  {
    if Truthy(command) && Search(command.s).Some? then
      var (start, end) := Search(command.s).value;
      map["url" := Str(command.s[start..end])]
    else map[]
  }

  /** Python 2 encodes a unicode string as ASCII before hashing it, and raises on anything else. */
  predicate IsAscii(s: string)
  {
    forall k :: 0 <= k < |s| ==> s[k] < '\U{80}'
  }

  /**
    Hashing and the regular-expression search run outside any `try`: a true `command_data` must be
    an ASCII string, and a true `command` a string.
  */
  predicate ShockpotShaped(d: Payload)
  {
    var data, command := Attr(d, "command_data"), Attr(d, "command");
    && (Truthy(data) ==> data.Str? && IsAscii(data.s))
    && (Truthy(command) ==> command.Str?)
  }

  /**
    The destination `try` block: the host part of `urlparse(url).netloc` when `inet_aton` accepts
    it, None when it does not, when `url` is not a string, or when urlparse raises.
  */
  function DestinationIp(url: Value, inetAton: string -> bool): (ip: Value)
    ensures ip != Null <==> url.Str? && Netloc(url.s).Some? && inetAton(HostOf(Netloc(url.s).value))
    ensures ip != Null ==> ip == Str(HostOf(Netloc(url.s).value)) && ':' !in ip.s
  {
    if !url.Str? then Null
    else
      match Netloc(url.s)
      case None => Null
      case Some(netloc) =>
        var host := HostOf(netloc);
        if inetAton(host) then Str(host) else Null
  }

  /** For a URL scheme://host:port/..., the destination is `host` exactly when inet_aton accepts it. */
  lemma DestinationIpOfSchemeUrl(scheme: string, host: string, port: string, tail: string, inetAton: string -> bool)
    requires IsSchemeName(scheme)
    requires Avoids(host, {'/', '?', '#', ':', '[', ']'}) && Avoids(port, {'/', '?', '#', '[', ']'})
    requires tail == [] || tail[0] in {'/', '?', '#'}
    ensures DestinationIp(Str(scheme + "://" + host + ":" + port + tail), inetAton)
         == if inetAton(host) then Str(host) else Null
  {
    NetlocOfHostPortUrl(scheme, host, port, tail);
  }

  /** For a URL scheme://host/... without a port, the destination is `host` exactly when inet_aton accepts it. */
  lemma DestinationIpOfHostUrl(scheme: string, host: string, tail: string, inetAton: string -> bool)
    requires IsSchemeName(scheme)
    requires Avoids(host, {'/', '?', '#', ':', '[', ']'})
    requires tail == [] || tail[0] in {'/', '?', '#'}
    ensures DestinationIp(Str(scheme + "://" + host + tail), inetAton)
         == if inetAton(host) then Str(host) else Null
  {
    NetlocOfHostUrl(scheme, host, tail);
  }

  /**
    Shellshock attempts: the four digests of `command_data` are added exactly when it is true, the
    first URL in `command` exactly when there is one, the destination is derived from the payload's
    `url`, and the source port is always 0.
  */
  method ShockpotEvent(identifier: string, decoded: Option<Payload>,
                       digest: (HashAlgorithm, string) -> string, inetAton: string -> bool)
    returns (r: Option<Record>)
    requires decoded.Some? ==> ShockpotShaped(decoded.value)
    ensures r.Some? <==> decoded.Some?
    ensures r.Some? ==>
      var rec, d := r.value, decoded.value;
      var data := Attr(d, "command_data");
      && rec.extras == (if Truthy(data) then Digests(data.s, digest) else map[]) + UrlGroup(Attr(d, "command"))
      && TypeAndSensor(rec, "shockpot.events", identifier)
      && Endpoints(rec, Attr(d, "source_ip"), DestinationIp(Attr(d, "url"), inetAton), Num(0), Attr(d, "dest_port"))
      && TransportAndProtocol(rec, Str("tcp"))
      && Identity(rec, "ThreatStream Shockpot", "shockpot", "high", Str("Shellshock Exploit Attempted"))
  {
    if decoded.None? {
      return None;
    }
    var dec := decoded.value;
    NonCanonicalExtras();

    var kwargs: map<string, Value> := map[];
    var data := Attr(dec, "command_data");
    if Truthy(data) {
      kwargs := kwargs["md5" := Str(digest(Md5, data.s))];
      kwargs := kwargs["sha1" := Str(digest(Sha1, data.s))];
      kwargs := kwargs["sha256" := Str(digest(Sha256, data.s))];
      kwargs := kwargs["sha512" := Str(digest(Sha512, data.s))];
    }
    ghost var hashes := if Truthy(data) then Digests(data.s, digest) else map[];
    assert kwargs == hashes;

    var command := Attr(dec, "command");
    if Truthy(command) {
      var m := Search(command.s);
      if m.Some? {
        var (start, end) := m.value;
        kwargs := kwargs["url" := Str(command.s[start..end])];
      }
    }
    assert kwargs == hashes + UrlGroup(command);
    assert kwargs.Keys !! CanonicalKeys;

    var destIp := DestinationIp(Attr(dec, "url"), inetAton);

    r := Some(CreateMessage(
      Str("shockpot.events"),
      Str(identifier),
      srcIp := Attr(dec, "source_ip"),
      dstIp := destIp,
      srcPort := Num(0),
      dstPort := Attr(dec, "dest_port"),
      vendorProduct := Str("ThreatStream Shockpot"),
      app := Str("shockpot"),
      direction := Str("inbound"),
      idsType := Str("network"),
      severity := Str("high"),
      signature := Str("Shellshock Exploit Attempted"),
      extras := kwargs));
  }
}
