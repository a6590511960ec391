# hpfeeds-logger event normaliser in Dafny

This project models `processors.py` of the hpfeeds logger. It is the layer that turns a honeypot
or IDS payload, published on an hpfeeds channel, into canonical event records.

Each per-sensor transform takes a sensor identifier and a JSON payload. It reads payload fields
through `ezdict`, where a missing field reads as None, and builds records with `create_message`.

- Most sensors map one payload to one record with a fixed field table.
- glastopf drops events whose pattern is "unknown".
- conpot drops probes from the loopback address and builds its event type from the payload's
  `data_type`.
- kippo expands one SSH session into a base record followed by one copy per login attempt, URL,
  command and unknown command.
- shockpot adds digests of the command data, takes the first URL it finds in the command, and
  derives the destination address from the host part of the payload's URL.

The modules are:

- `Wrappers`: an `Option` type.
- `PyValues`: decoded JSON values and the Python semantics the transforms rely on. That covers
  `ezdict` lookup, truthiness, `v[i]`, `for x in v` behind `if v:`, and `a, b = v`.
- `Messages`: the canonical record and `create_message`. A record has fourteen canonical
  attributes plus the extra keyword attributes. `Record.AsDict` is the dictionary the Python
  code returns.
- `UrlParsing`: two library behaviours. One is `re.search` of `https?://[^\s;]+` as a leftmost,
  longest match. The other is the network location that Python 2.7's `urlparse` yields, with its
  host part before the first ':'.
- `Processors`: the twelve transforms.

The transforms are modelled in the source's own form:

- The single-record transforms are pure functions.
- `kippo_sessions` and `shockpot_event` build their result step by step, so they are methods.
  - `KippoSessions` grows a sequence of records in its loops. It is proved equal to the
    specification function `Expansion`. `ExpansionCopiesBase` states what every copy keeps from
    the session record. `ExpansionGroups` and the four per-group lemmas state which payload item
    each copy carries.
  - `ShockpotEvent` fills a keyword map step by step. It is proved equal to the digests, the URL
    group and the other fields.

Foreign calls are parameters. The digest function stands in for `hashlib`, and a predicate
saying which hosts are accepted stands in for `socket.inet_aton`.

Where the code lets an exception escape a transform, the model turns the condition that avoids
the exception into a precondition: `GlastopfShaped`, `ConpotShaped`, `KippoShaped` and
`ShockpotShaped`. Outside its `try` blocks the code raises on indexing `source` in glastopf, on
concatenating `data_type` in conpot, in the four kippo loops, and on hashing or searching a
non-string in shockpot. A missing field is not rejected: it reads as None and is copied into
the record.

## Model

| member | source | states |
|---|---|---|
| PyValues.Lookup | processors.py:12-13 | `d.get(name)` finds a value exactly when the key is present, and then it is the stored value |
| PyValues.Attr | processors.py:9-13 | an `ezdict` attribute is None exactly when the field is missing or holds null; otherwise it is the field's value |
| PyValues.Truthy | processors.py:365 | `if v:` is false exactly for None, False, 0, the empty string, the empty list and the empty object |
| PyValues.Chars | processors.py:160-161 | iterating a string yields its characters as one-character strings, one per position |
| PyValues.Index | processors.py:51-52 | `v[i]` succeeds exactly on a list or a string with more than `i` elements; it yields the list element or the one-character string |
| PyValues.Items | processors.py:160-161 | `if v: for x in v` visits nothing for a false value, the elements of a list, and the characters of a string |
| PyValues.Unpack | processors.py:161 | `username, password = credential` yields element 0 and element 1 of the pair |
| Messages.Record.Canonical | processors.py:19-34 | the update dictionary has exactly the fourteen canonical keys, each holding its parameter |
| Messages.Record.AsDict | processors.py:18-35 | the dictionary holds the extra keys and the fourteen canonical keys; canonical keys hold the record's canonical values and the others their extra values |
| Messages.CreateMessage | processors.py:15-35 | the record is well formed; its extra attributes are exactly the keyword arguments not named like a canonical key, with their values; with no clash they are all kept |
| Messages.CreateMessageDict | processors.py:15-35 | the returned dictionary has the keyword keys plus all fourteen canonical keys; each canonical key holds its parameter, and each other keyword keeps its value, so canonical values win over keyword arguments |
| Messages.SignatureAssignment | processors.py:163 | `msg['signature'] = v` on the dictionary is replacing the record's signature |
| Messages.ExtraAssignment | processors.py:164-165 | assigning a non-canonical key on the dictionary is adding or replacing that extra attribute, and the record stays well formed |
| Processors.GlastopfEvent | processors.py:37-61 | no record exactly when decoding failed or the pattern is "unknown"; otherwise one record from `source[0]` port `source[1]` to no address on port 80, with Glastopf's constants and no extras |
| Processors.DionaeaCapture | processors.py:63-86 | one record exactly when decoding succeeded: saddr/sport to daddr/dport, Dionaea's constants, and extras exactly url, md5 and sha512 from the payload |
| Processors.DionaeaConnections | processors.py:88-108 | one record exactly when decoding succeeded: remote host and port to local host and port, Dionaea's constants, no extras |
| Processors.BeeswarmHive | processors.py:110-130 | one record exactly when decoding succeeded: attacker address and source port to honeypot address and port, Beeswarm's constants, no extras |
| Processors.KippoBase | processors.py:142-156 | the session record: peer to host addresses and ports, Kippo's session signature, and only `ssh_version` as extra, so no per-item key is present yet |
| Processors.CredentialRecord | processors.py:160-166 | a login copy equals the session record except for the login signature and the added `ssh_username`/`ssh_password`, which are the pair's two elements |
| Processors.ItemRecord | processors.py:168-187 | a URL or command copy equals the session record except for the group's signature and the item added under its key; all base extras are kept |
| Processors.CredentialRecordDict | processors.py:160-166 | as dictionaries, a login copy is `dict(base)` with the signature, username and password assigned in order |
| Processors.ItemRecordDict | processors.py:168-187 | as dictionaries, a URL or command copy is `dict(base)` with the signature and the item assigned |
| Processors.CredentialRecords | processors.py:160-166 | one login copy per credential pair, in the payload's order |
| Processors.ItemRecords | processors.py:168-187 | one copy per URL or command, in the payload's order |
| Processors.AppendLogins | processors.py:160-166 | the credentials loop appends exactly the login copies, in order, to the messages so far |
| Processors.AppendCopies | processors.py:168-187 | each URL, command or unknown-command loop appends exactly the item copies, in order, to the messages so far |
| Processors.KippoSessions | processors.py:132-189 | records exactly when decoding succeeded; then they are the session record followed by the credential, URL, command and unknown-command copies, each group in payload order, and an absent or empty list adds nothing |
| Processors.ExpansionCopiesBase | processors.py:158-187 | an expansion has 1 + credentials + urls + commands + unknown records; the first is the session record; every later one keeps all of its attributes except the signature, which is fixed by the record's position group |
| Processors.ExpansionGroups | processors.py:158-187 | an expansion is the session record followed by exactly the login copies, the URL copies, the command copies and the unknown-command copies, as four consecutive slices |
| Processors.ExpansionLogins | processors.py:160-166 | the k-th record after the session record is the login copy built from the k-th credential pair |
| Processors.ExpansionUrls | processors.py:168-173 | the k-th record after the login copies is the URL copy of the k-th URL |
| Processors.ExpansionCommands | processors.py:175-180 | the k-th record after the URL copies is the command copy of the k-th command |
| Processors.ExpansionUnknown | processors.py:182-187 | the k-th record after the command copies is the unknown-command copy of the k-th unknown command |
| Processors.ConpotEvents | processors.py:191-219 | a record exactly when decoding succeeded, `remote` can be indexed twice and `remote[0]` is not 127.0.0.1; then its type is "conpot.events-" + data_type, from `remote[0]`/`remote[1]` to public_ip port 502, severity "medium", no extras |
| Processors.SnortAlerts | processors.py:221-251 | one record exactly when decoding succeeded: the alert's addresses and ports, its protocol as transport and its signature, Snort's constants, no extras |
| Processors.SuricataEvents | processors.py:253-283 | one record exactly when decoding succeeded: the alert's addresses and ports, its protocol as transport and its signature, Suricata's constants, no extras |
| Processors.P0fEvents | processors.py:285-309 | one record exactly when decoding succeeded: client to server, informational, and extras exactly p0f_app, p0f_link, p0f_os and p0f_uptime from the payload's app, link, os and uptime |
| Processors.AmunEvents | processors.py:311-331 | one record exactly when decoding succeeded: attacker to victim addresses and ports, Amun's constants, no extras |
| Processors.WordpotEvent | processors.py:333-354 | one record exactly when decoding succeeded: source to destination addresses and ports, Wordpot's signature, no extras |
| Processors.Digests | processors.py:364-380 | the hashes are stored under exactly md5, sha1, sha256 and sha512 |
| Processors.UrlGroup | processors.py:382-385 | the only key the search adds is `url`; it is added exactly when the command is true and contains a match, and holds the text of that match |
| Processors.DestinationIp | processors.py:387-393 | the destination is non-None exactly when `url` is a string, urlparse does not raise and inet_aton accepts the netloc's host; it is then that host, which has no ':' |
| Processors.DestinationIpOfSchemeUrl | processors.py:387-393 | for `scheme://host:port/...` the destination is `host` when inet_aton accepts it, and None otherwise |
| Processors.DestinationIpOfHostUrl | processors.py:387-393 | for `scheme://host/...` without a port the destination is `host` when inet_aton accepts it, and None otherwise |
| Processors.ShockpotEvent | processors.py:356-409 | a record exactly when decoding succeeded; its extras are the four digests exactly when command_data is true, plus the URL group; destination from the payload's `url`, source port 0, Shockpot's constants |
| UrlParsing.Search | processors.py:383 | a match is a span matching `https?://[^\s;]+`; no span starting earlier matches and no longer span at the same start matches; None exactly when no span of the command matches |
| UrlParsing.TakeUntil | processors.py:388-389 | the longest prefix that holds no stop character: what follows it is a stop character or nothing |
| UrlParsing.TakeUntilConcat | processors.py:388-389 | a stop-free prefix followed by a stop character or by nothing is exactly what TakeUntil returns |
| UrlParsing.HostOf | processors.py:389 | `netloc.split(':')[0]` is a colon-free prefix of the netloc, followed by ':' when it is shorter |
| UrlParsing.HostOfHostPort | processors.py:389 | the host of "host:port" is `host`, and a colon-free netloc is its own host |
| UrlParsing.AfterScheme | processors.py:388 | urlsplit leaves a suffix of the URL. It strips exactly the text up to and including the first ':' when that text is "http" (the fast path, whatever follows) or a non-empty run of scheme characters whose rest is empty or not all digits; otherwise it strips nothing |
| UrlParsing.Netloc | processors.py:388 | without "//" after the scheme the netloc is empty; with it, the netloc is the text after "//" up to the first '/', '?' or '#' or the end, with balanced brackets; None exactly when that text has a '[' without a ']' or the reverse |
| UrlParsing.AfterSchemeOfHttp | processors.py:388 | urlsplit's fast path: a URL starting with "http:" loses exactly that prefix, even when a port-like text such as "80" follows |
| UrlParsing.AfterSchemeOfOtherUrl | processors.py:388 | off the fast path, a scheme followed by ':' and a path starting with '/' loses exactly the scheme and the colon |
| UrlParsing.AfterSchemeOfUrl | processors.py:388 | urlsplit strips exactly `scheme:` from a URL whose path starts with '/' |
| UrlParsing.NetlocOfSchemeUrl | processors.py:388 | `scheme://authority` followed by nothing, '/', '?' or '#' has the authority as netloc, when the authority has balanced brackets and no '/', '?' or '#' |
| UrlParsing.NetlocOfHostUrl | processors.py:388-389 | `scheme://host/...` without a port has netloc `host`, whose host part is `host` |
| UrlParsing.NetlocOfHostPortUrl | processors.py:388-389 | `scheme://host:port/...` has netloc "host:port", whose host part is `host` |

## Left out

- JSON decoding (`json.loads(str(payload))`) is a library call. Each transform takes the decoded
  object as an `Option`, and None stands for a decoding failure, which yields no record. A
  payload that decodes to something other than an object (a list, a string, a number or null)
  has no `get`. In `conpot_events` the first field access, `dec.remote[0]`, is inside the `try`,
  so such a payload yields no record there and is the model's `decoded == None`. Every other
  transform reads its first field outside the `try` and raises, so the `Payload` type excludes
  that case.
- The diagnostics printed on failure (`print`, `traceback.print_exc()`) are output with no effect
  on the result and are left out.
- JSON floating-point numbers are not modelled; `Value` has integers only.
- Payload dictionaries are modelled as maps, so iterating a dict (`for x in v` over an object) is
  excluded by `KippoShaped`. Python's dict order there is unspecified.
- For the same reason `IsPair` excludes a credential that is a two-key object. Python's
  `for username, password in credentials` would unpack such an object into its two keys, in an
  unspecified order.
- Processors.Digests: `hashlib`'s md5, sha1, sha256 and sha512 are a parameter. The model states
  under which keys the digests go and when they are present, never the digest values.
- Processors.DestinationIp: `socket.inet_aton` is a parameter. The model does not say which hosts
  it accepts; the real function also accepts short forms such as "127.1".
- UrlParsing.Netloc: urlparse is modelled only as far as the netloc goes. That covers the scheme
  rule with its fast path for "http", "//", the '/', '?' and '#' delimiters and the bracket check. The Unicode NFKC check of
  `_checknetloc` in later 2.7 releases is not modelled, nor are the other parts of the parse.
- Processors.ShockpotEvent: the `re` module's Unicode handling is not modelled. `\s` is taken as
  the six ASCII whitespace characters, which is what a pattern compiled without the UNICODE flag
  matches.
- A `unicode` and a `str` holding the same text compare equal in Python 2, and the model does not
  tell the two apart. The hashing precondition asks for ASCII text, because Python 2 encodes
  unicode text as ASCII before hashing and raises otherwise.
- Messages.CreateMessage is a function: the Python code builds the dictionary from the keyword
  arguments and updates it with the canonical keys in one call. The pure transforms call it, so
  it cannot be a method. `Record.AsDict` gives that dictionary, and `CreateMessageDict` states it.
- Processors.KippoSessions: the four `for` loops are written as one helper method per loop
  (`AppendLogins`, and `AppendCopies` used three times). Each copy of the session record is a
  value, so the aliasing-free `dict(base_message)` copies are not modelled as separate objects.
- The file has no dispatcher or sensor registry, and none is modelled.
