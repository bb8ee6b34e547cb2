/** Cache identity of a provider operation: which operations share a hash preimage. Strings are Go
    strings, that is bytes; only the preimage is text. */
module CacheKey {
  import opened Wrappers
  import opened CanonicalJson
  import opened ByteText
  import opened RawJson

  // ---- operations ----

  datatype Endpoint = Endpoint(identity: string, verb: string, path: string)

  datatype Projection = Projection(provider: string, kind: string, version: string)

  datatype Operation<J> = Operation(
    schemaVersion: string, cacheDomain: string, protocol: string, endpoint: Endpoint, model: string,
    payload: J, semanticHeaders: Option<map<string, J>>, projection: Projection)

  const SCHEMA_VERSION := "utility-llm.operation.v1"
  const DEFAULT_VERSION := "operation-v2"

  /** What normalization takes from its libraries: upper-casing and the credential pattern. */
  datatype Rules = Rules(upper: string -> string, forbidden: string -> bool)

  datatype CacheError =
    | UnsupportedSchema | Incomplete | ForbiddenHeader | UnsafePayload | UnsafeHeaders | UnsafeValue
    | NotEncodable | TooDeep

  /** What is accepted: the headers are present, and both they and the payload passed the check. */
  predicate Checked(n: Operation<Raw>) {
    n.semanticHeaders.Some? && Safe(n.payload) && Safe(RawMap(n.semanticHeaders.value))
  }

  predicate Complete(n: Operation<Raw>) {
    "" !in {n.protocol, n.model, n.endpoint.identity, n.endpoint.verb, n.endpoint.path, n.projection.provider,
            n.projection.kind, n.projection.version}
  }

  function Trimmed(rules: Rules, op: Operation<Raw>): Operation<Raw> {
    Operation(
      SCHEMA_VERSION, TrimBytes(op.cacheDomain), TrimBytes(op.protocol),
      Endpoint(TrimBytes(op.endpoint.identity), rules.upper(TrimBytes(op.endpoint.verb)), TrimBytes(op.endpoint.path)),
      TrimBytes(op.model), op.payload, Some(if op.semanticHeaders.Some? then op.semanticHeaders.value else map[]),
      Projection(TrimBytes(op.projection.provider), TrimBytes(op.projection.kind), TrimBytes(op.projection.version)))
  }

  function Normalize(rules: Rules, op: Operation<Raw>): (r: Result<Operation<Raw>, CacheError>)
    ensures r.Ok? ==>
              && Checked(r.value) && Complete(r.value)
              && forall h :: h in r.value.semanticHeaders.value ==> !rules.forbidden(h)
    ensures r.Ok? <==>
              && TrimBytes(op.schemaVersion) == SCHEMA_VERSION
              && Complete(Trimmed(rules, op)) && Checked(Trimmed(rules, op))
              && forall h :: h in Trimmed(rules, op).semanticHeaders.value ==> !rules.forbidden(h)
  {
    if TrimBytes(op.schemaVersion) != SCHEMA_VERSION then Err(UnsupportedSchema)
    else
      var n := Trimmed(rules, op);
      var headers := n.semanticHeaders.value;
      if || n.protocol == "" || n.endpoint.identity == "" || n.endpoint.verb == "" || n.endpoint.path == ""
         || n.model == "" || n.projection.provider == "" || n.projection.kind == "" || n.projection.version == ""
      then Err(Incomplete)
      else if exists h :: h in headers && rules.forbidden(h) then Err(ForbiddenHeader)
      else if !Safe(n.payload) then Err(UnsafePayload)
      else if !Safe(RawMap(headers)) then Err(UnsafeHeaders)
      else Ok(n)
  }

  function EffectiveVersion(version: string): string {
    var v := TrimBytes(version);
    if v == "" then DEFAULT_VERSION else v
  }

  // ---- the preimage ----

  function EndpointRaw(e: Endpoint): Raw {
    RawMap(map["identity" := RawText(e.identity), "method" := RawText(e.verb), "path" := RawText(e.path)])
  }

  function ProjectionRaw(p: Projection): Raw {
    RawMap(map["provider" := RawText(p.provider), "kind" := RawText(p.kind), "version" := RawText(p.version)])
  }

  /** A normalized operation as it is encoded; an empty cache domain is omitted. */
  function OperationRaw(n: Operation<Raw>): Raw
    requires n.semanticHeaders.Some?
  {
    var domain: map<string, Raw> := if n.cacheDomain == "" then map[] else map["cacheDomain" := RawText(n.cacheDomain)];
    RawMap(map["schemaVersion" := RawText(n.schemaVersion), "protocol" := RawText(n.protocol),
               "endpoint" := EndpointRaw(n.endpoint), "model" := RawText(n.model), "payload" := n.payload,
               "semanticHeaders" := RawMap(n.semanticHeaders.value),
               "responseProjection" := ProjectionRaw(n.projection)] + domain)
  }

  function Envelope(operation: Raw, version: string): Raw {
    RawMap(map["operation" := operation, "cacheVersion" := RawText(version)])
  }

  function EnvelopeRaw(n: Operation<Raw>, version: string): Raw
    requires n.semanticHeaders.Some?
  {
    Envelope(OperationRaw(n), version)
  }

  lemma EnvelopeSafe(n: Operation<Raw>, version: string)
    requires Checked(n)
    ensures Safe(OperationRaw(n)) && Safe(EnvelopeRaw(n, version))
  {
    OperationSafe(n);
    SafeTable(EnvelopeRaw(n, version).fields);
  }

  lemma OperationSafe(n: Operation<Raw>)
    requires Checked(n)
    ensures Safe(OperationRaw(n))
  {
    SafeTable(EndpointRaw(n.endpoint).fields);
    SafeTable(ProjectionRaw(n.projection).fields);
    SafeTable(OperationRaw(n).fields);
  }

  lemma SafeTable(fields: map<string, Raw>)
    requires forall k :: k in fields ==> Safe(fields[k])
    ensures Safe(RawMap(fields))
  {
  }

  /** The text that is hashed. */
  ghost function Preimage(n: Operation<Raw>, version: string): string
    requires Checked(n)
  {
    EnvelopeSafe(n, version);
    Canon(JsonOf(EnvelopeRaw(n, version)))
  }

  // ---- tables with plain keys ----

  predicate Ascii(s: string) { forall i :: 0 <= i < |s| ==> (s[i] as int) < 0x80 }

  predicate PlainKeys(fields: map<string, Raw>) { forall k :: k in fields ==> Ascii(k) }

  lemma Field(v: Raw, k: string)
    requires v.RawMap? && Safe(v) && PlainKeys(v.fields)
    ensures k in JsonOf(v).fields <==> k in v.fields
    ensures k in v.fields ==> JsonOf(v).fields[k] == JsonOf(v.fields[k])
  {
    DecodedKeys(v, k);
    forall x | x in v.fields ensures Repair(x) == x { AsciiIsItself(x); }
    if k in v.fields { MemberSurvives(v, k); }
  }

  /** Two tables show the same under a key. */
  ghost predicate SameAt(a: Raw, b: Raw, k: string)
    requires a.RawMap? && Safe(a) && b.RawMap? && Safe(b)
  {
    (k in a.fields <==> k in b.fields) && (k in a.fields ==> JsonOf(a.fields[k]) == JsonOf(b.fields[k]))
  }

  /** Tables with plain keys decode to the same object exactly when they show the same under every key. */
  lemma SameTables(a: Raw, b: Raw)
    requires a.RawMap? && Safe(a) && PlainKeys(a.fields) && b.RawMap? && Safe(b) && PlainKeys(b.fields)
    ensures JsonOf(a) == JsonOf(b) <==> forall k :: SameAt(a, b, k)
  {
    var x, y := JsonOf(a).fields, JsonOf(b).fields;
    if JsonOf(a) == JsonOf(b) {
      forall k ensures SameAt(a, b, k) {
        Field(a, k);
        Field(b, k);
      }
    }
    if forall k :: SameAt(a, b, k) {
      forall k ensures (k in x <==> k in y) && (k in x ==> x[k] == y[k]) {
        assert SameAt(a, b, k);
        Field(a, k);
        Field(b, k);
      }
      assert x == y;
    }
  }

  lemma SameTextAt(a: Raw, b: Raw, k: string)
    requires a.RawMap? && Safe(a) && b.RawMap? && Safe(b) && k in a.fields && k in b.fields
    requires a.fields[k].RawText? && b.fields[k].RawText?
    ensures SameAt(a, b, k) <==> Repair(a.fields[k].bytes) == Repair(b.fields[k].bytes)
  {
  }

  /** The same for tables of three texts. */
  lemma SameThree(a: Raw, b: Raw, i: string, j: string, k: string)
    requires a.RawMap? && b.RawMap? && a.fields.Keys == {i, j, k} == b.fields.Keys && Ascii(i) && Ascii(j) && Ascii(k)
    requires forall l :: l in a.fields ==> a.fields[l].RawText? && b.fields[l].RawText?
    ensures Safe(a) && Safe(b)
    ensures JsonOf(a) == JsonOf(b) <==>
              && Repair(a.fields[i].bytes) == Repair(b.fields[i].bytes)
              && Repair(a.fields[j].bytes) == Repair(b.fields[j].bytes)
              && Repair(a.fields[k].bytes) == Repair(b.fields[k].bytes)
  {
    SafeTable(a.fields);
    SafeTable(b.fields);
    SameTables(a, b);
    SameTextAt(a, b, i);
    SameTextAt(a, b, j);
    SameTextAt(a, b, k);
    if SameAt(a, b, i) && SameAt(a, b, j) && SameAt(a, b, k) { OnlyThree(a, b, i, j, k); }
  }

  lemma OnlyThree(a: Raw, b: Raw, i: string, j: string, k: string)
    requires a.RawMap? && b.RawMap? && a.fields.Keys == {i, j, k} == b.fields.Keys && Safe(a) && Safe(b)
    requires SameAt(a, b, i) && SameAt(a, b, j) && SameAt(a, b, k)
    ensures forall l :: SameAt(a, b, l)
  {
    forall l ensures SameAt(a, b, l) {
      if l !in {i, j, k} { assert l !in a.fields && l !in b.fields; }
    }
  }

  // ---- what the preimage determines ----

  /** An operation as its JSON shows it: all strings repaired, the values decoded. */
  ghost function Visible(n: Operation<Raw>): Operation<Json>
    requires Checked(n)
  {
    Operation(
      Repair(n.schemaVersion), Repair(n.cacheDomain), Repair(n.protocol),
      VisibleEndpoint(n.endpoint), Repair(n.model), JsonOf(n.payload),
      Some(JsonOf(RawMap(n.semanticHeaders.value)).fields), VisibleProjection(n.projection))
  }

  function VisibleEndpoint(e: Endpoint): Endpoint { Endpoint(Repair(e.identity), Repair(e.verb), Repair(e.path)) }

  function VisibleProjection(p: Projection): Projection {
    Projection(Repair(p.provider), Repair(p.kind), Repair(p.version))
  }

  lemma EndpointFields(e: Endpoint)
    ensures var f := EndpointRaw(e).fields;
            && f.Keys == {"identity", "method", "path"} && f["identity"] == RawText(e.identity)
            && f["method"] == RawText(e.verb) && f["path"] == RawText(e.path)
    ensures Ascii("identity") && Ascii("method") && Ascii("path")
  {
  }

  lemma EndpointVisible(a: Endpoint, b: Endpoint)
    ensures Safe(EndpointRaw(a)) && Safe(EndpointRaw(b))
    ensures JsonOf(EndpointRaw(a)) == JsonOf(EndpointRaw(b)) <==> VisibleEndpoint(a) == VisibleEndpoint(b)
  {
    EndpointFields(a);
    EndpointFields(b);
    SameThree(EndpointRaw(a), EndpointRaw(b), "identity", "method", "path");
  }

  lemma ProjectionFields(p: Projection)
    ensures var f := ProjectionRaw(p).fields;
            && f.Keys == {"provider", "kind", "version"} && f["provider"] == RawText(p.provider)
            && f["kind"] == RawText(p.kind) && f["version"] == RawText(p.version)
    ensures Ascii("provider") && Ascii("kind") && Ascii("version")
  {
  }

  lemma ProjectionVisible(a: Projection, b: Projection)
    ensures Safe(ProjectionRaw(a)) && Safe(ProjectionRaw(b))
    ensures JsonOf(ProjectionRaw(a)) == JsonOf(ProjectionRaw(b)) <==> VisibleProjection(a) == VisibleProjection(b)
  {
    ProjectionFields(a);
    ProjectionFields(b);
    SameThree(ProjectionRaw(a), ProjectionRaw(b), "provider", "kind", "version");
  }

  const NAMES: set<string> := {
    "schemaVersion", "protocol", "endpoint", "model", "payload", "semanticHeaders", "responseProjection"}

  /** A table with the fields of an operation. */
  predicate Shows(x: Raw, n: Operation<Raw>)
    requires n.semanticHeaders.Some?
  {
    && x.RawMap? && x.fields.Keys == NAMES + (if n.cacheDomain == "" then {} else {"cacheDomain"})
    && x.fields["schemaVersion"] == RawText(n.schemaVersion)
    && x.fields["protocol"] == RawText(n.protocol)
    && x.fields["endpoint"] == EndpointRaw(n.endpoint)
    && x.fields["model"] == RawText(n.model)
    && x.fields["payload"] == n.payload
    && x.fields["semanticHeaders"] == RawMap(n.semanticHeaders.value)
    && x.fields["responseProjection"] == ProjectionRaw(n.projection)
    && ("cacheDomain" in x.fields <==> n.cacheDomain != "")
    && ("cacheDomain" in x.fields ==> x.fields["cacheDomain"] == RawText(n.cacheDomain))
  }

  lemma OperationFields(n: Operation<Raw>)
    requires n.semanticHeaders.Some?
    ensures Shows(OperationRaw(n), n)
  {
    assert "protocol"[0] != "endpoint"[0];
  }

  lemma NamesArePlain(k: string)
    requires k in NAMES || k == "cacheDomain"
    ensures Ascii(k)
  {
  }

  lemma OperationIsPlain(x: Raw, n: Operation<Raw>)
    requires n.semanticHeaders.Some? && Shows(x, n)
    ensures PlainKeys(x.fields)
  {
    forall k | k in x.fields ensures Ascii(k) { NamesArePlain(k); }
  }

  lemma RepairEmpty(s: string)
    ensures Repair(s) == "" <==> s == ""
  {
  }

  /** The JSON of an operation determines what is visible of it, and conversely. */
  lemma OperationVisible(a: Operation<Raw>, b: Operation<Raw>)
    requires Checked(a) && Checked(b)
    ensures Safe(OperationRaw(a)) && Safe(OperationRaw(b))
    ensures JsonOf(OperationRaw(a)) == JsonOf(OperationRaw(b)) <==> Visible(a) == Visible(b)
  {
    EnvelopeSafe(a, "");
    EnvelopeSafe(b, "");
    OperationFields(a);
    OperationFields(b);
    TablesVisible(OperationRaw(a), a, OperationRaw(b), b);
  }

  lemma TablesVisible(x: Raw, a: Operation<Raw>, y: Raw, b: Operation<Raw>)
    requires Checked(a) && Checked(b) && Shows(x, a) && Shows(y, b) && Safe(x) && Safe(y)
    ensures JsonOf(x) == JsonOf(y) <==> Visible(a) == Visible(b)
  {
    OperationIsPlain(x, a);
    OperationIsPlain(y, b);
    SameTables(x, y);
    if JsonOf(x) == JsonOf(y) { MembersShow(x, a, y, b); }
    if Visible(a) == Visible(b) { ShownMembers(x, a, y, b); }
  }

  lemma ShownMembers(x: Raw, a: Operation<Raw>, y: Raw, b: Operation<Raw>)
    requires Checked(a) && Checked(b) && Shows(x, a) && Shows(y, b) && Safe(x) && Safe(y) && Visible(a) == Visible(b)
    ensures forall k :: SameAt(x, y, k)
  {
    ShownTexts(x, a, y, b);
    ShownValues(x, a, y, b);
    ShownParts(x, a, y, b);
    NamedOnly(x, y);
  }

  lemma NamedOnly(x: Raw, y: Raw)
    requires x.RawMap? && y.RawMap? && Safe(x) && Safe(y)
    requires x.fields.Keys <= NAMES + {"cacheDomain"} && y.fields.Keys <= NAMES + {"cacheDomain"}
    requires SameAt(x, y, "schemaVersion") && SameAt(x, y, "protocol") && SameAt(x, y, "endpoint")
    requires SameAt(x, y, "model") && SameAt(x, y, "payload") && SameAt(x, y, "semanticHeaders")
    requires SameAt(x, y, "responseProjection") && SameAt(x, y, "cacheDomain")
    ensures forall k :: SameAt(x, y, k)
  {
    forall k ensures SameAt(x, y, k) {
      if k !in NAMES + {"cacheDomain"} { assert k !in x.fields && k !in y.fields; }
    }
  }

  lemma MembersShow(x: Raw, a: Operation<Raw>, y: Raw, b: Operation<Raw>)
    requires Checked(a) && Checked(b) && Shows(x, a) && Shows(y, b) && Safe(x) && Safe(y)
    requires forall k :: SameAt(x, y, k)
    ensures Visible(a) == Visible(b)
  {
    TextsShow(x, a, y, b);
    ValuesShow(x, a, y, b);
    PartsShow(x, a, y, b);
  }

  lemma TextsShow(x: Raw, a: Operation<Raw>, y: Raw, b: Operation<Raw>)
    requires Checked(a) && Checked(b) && Shows(x, a) && Shows(y, b) && Safe(x) && Safe(y)
    requires forall k :: SameAt(x, y, k)
    ensures Repair(a.schemaVersion) == Repair(b.schemaVersion) && Repair(a.protocol) == Repair(b.protocol)
    ensures Repair(a.model) == Repair(b.model) && Repair(a.cacheDomain) == Repair(b.cacheDomain)
  {
    SameTextAt(x, y, "schemaVersion");
    SameTextAt(x, y, "protocol");
    SameTextAt(x, y, "model");
    assert SameAt(x, y, "cacheDomain");
    if "cacheDomain" in x.fields { SameTextAt(x, y, "cacheDomain"); }
  }

  lemma ValuesShow(x: Raw, a: Operation<Raw>, y: Raw, b: Operation<Raw>)
    requires Checked(a) && Checked(b) && Shows(x, a) && Shows(y, b) && Safe(x) && Safe(y)
    requires forall k :: SameAt(x, y, k)
    ensures JsonOf(a.payload) == JsonOf(b.payload)
    ensures JsonOf(RawMap(a.semanticHeaders.value)) == JsonOf(RawMap(b.semanticHeaders.value))
  {
    assert SameAt(x, y, "payload") && SameAt(x, y, "semanticHeaders");
  }

  lemma PartsShow(x: Raw, a: Operation<Raw>, y: Raw, b: Operation<Raw>)
    requires Checked(a) && Checked(b) && Shows(x, a) && Shows(y, b) && Safe(x) && Safe(y)
    requires forall k :: SameAt(x, y, k)
    ensures VisibleEndpoint(a.endpoint) == VisibleEndpoint(b.endpoint)
    ensures VisibleProjection(a.projection) == VisibleProjection(b.projection)
  {
    assert SameAt(x, y, "endpoint") && SameAt(x, y, "responseProjection");
    EndpointVisible(a.endpoint, b.endpoint);
    ProjectionVisible(a.projection, b.projection);
  }

  lemma ShownParts(x: Raw, a: Operation<Raw>, y: Raw, b: Operation<Raw>)
    requires Checked(a) && Checked(b) && Shows(x, a) && Shows(y, b) && Safe(x) && Safe(y)
    requires VisibleEndpoint(a.endpoint) == VisibleEndpoint(b.endpoint)
    requires VisibleProjection(a.projection) == VisibleProjection(b.projection)
    ensures SameAt(x, y, "endpoint") && SameAt(x, y, "responseProjection")
  {
    EndpointVisible(a.endpoint, b.endpoint);
    ProjectionVisible(a.projection, b.projection);
  }

  lemma ShownTexts(x: Raw, a: Operation<Raw>, y: Raw, b: Operation<Raw>)
    requires Checked(a) && Checked(b) && Shows(x, a) && Shows(y, b) && Safe(x) && Safe(y)
    requires Repair(a.schemaVersion) == Repair(b.schemaVersion) && Repair(a.protocol) == Repair(b.protocol)
    requires Repair(a.model) == Repair(b.model) && Repair(a.cacheDomain) == Repair(b.cacheDomain)
    ensures SameAt(x, y, "schemaVersion") && SameAt(x, y, "protocol") && SameAt(x, y, "model")
    ensures SameAt(x, y, "cacheDomain")
  {
    SameTextAt(x, y, "schemaVersion");
    SameTextAt(x, y, "protocol");
    SameTextAt(x, y, "model");
    RepairEmpty(a.cacheDomain);
    RepairEmpty(b.cacheDomain);
  }

  lemma ShownValues(x: Raw, a: Operation<Raw>, y: Raw, b: Operation<Raw>)
    requires Checked(a) && Checked(b) && Shows(x, a) && Shows(y, b) && Safe(x) && Safe(y)
    requires JsonOf(a.payload) == JsonOf(b.payload)
    requires JsonOf(RawMap(a.semanticHeaders.value)) == JsonOf(RawMap(b.semanticHeaders.value))
    ensures SameAt(x, y, "payload") && SameAt(x, y, "semanticHeaders")
  {
  }

  /** Two normalized operations share a preimage exactly when they and their effective versions look the
      same once invalid UTF-8 is replaced and colliding keys are resolved. */
  lemma PreimageDetermines(a: Operation<Raw>, va: string, b: Operation<Raw>, vb: string)
    requires Checked(a) && Checked(b) && Encodable(EnvelopeRaw(a, va)) && Encodable(EnvelopeRaw(b, vb))
    ensures Preimage(a, va) == Preimage(b, vb) <==> Visible(a) == Visible(b) && Repair(va) == Repair(vb)
  {
    EnvelopeSafe(a, va);
    EnvelopeSafe(b, vb);
    JsonWellFormed(EnvelopeRaw(a, va));
    JsonWellFormed(EnvelopeRaw(b, vb));
    CanonInjective(JsonOf(EnvelopeRaw(a, va)), JsonOf(EnvelopeRaw(b, vb)));
    EnvelopeVisible(OperationRaw(a), va, OperationRaw(b), vb);
    OperationVisible(a, b);
  }

  lemma EnvelopeVisible(p: Raw, va: string, q: Raw, vb: string)
    requires Safe(p) && Safe(q)
    ensures Safe(Envelope(p, va)) && Safe(Envelope(q, vb))
    ensures JsonOf(Envelope(p, va)) == JsonOf(Envelope(q, vb)) <==> JsonOf(p) == JsonOf(q) && Repair(va) == Repair(vb)
  {
    EnvelopeFields(p, va);
    EnvelopeFields(q, vb);
    var x, y := Envelope(p, va), Envelope(q, vb);
    TwoFields(x, y, "operation", "cacheVersion");
    SameValueAt(x, y, "operation", p, q);
    SameTextAt(x, y, "cacheVersion");
  }

  lemma TwoFields(x: Raw, y: Raw, i: string, j: string)
    requires x.RawMap? && y.RawMap? && x.fields.Keys == {i, j} == y.fields.Keys && Safe(x) && Safe(y)
    requires PlainKeys(x.fields) && PlainKeys(y.fields)
    ensures JsonOf(x) == JsonOf(y) <==> SameAt(x, y, i) && SameAt(x, y, j)
  {
    SameTables(x, y);
    if SameAt(x, y, i) && SameAt(x, y, j) { OnlyTwo(x, y, i, j); }
  }

  lemma SameValueAt(x: Raw, y: Raw, k: string, p: Raw, q: Raw)
    requires x.RawMap? && Safe(x) && y.RawMap? && Safe(y) && k in x.fields && k in y.fields
    requires p == x.fields[k] && q == y.fields[k] && Safe(p) && Safe(q)
    ensures SameAt(x, y, k) <==> JsonOf(p) == JsonOf(q)
  {
  }

  lemma EnvelopeFields(p: Raw, version: string)
    requires Safe(p)
    ensures var f := Envelope(p, version).fields;
            && f.Keys == {"operation", "cacheVersion"} && f["operation"] == p && f["cacheVersion"] == RawText(version)
    ensures Safe(Envelope(p, version)) && PlainKeys(Envelope(p, version).fields)
  {
    SafeTable(Envelope(p, version).fields);
    assert Ascii("operation") && Ascii("cacheVersion");
  }

  lemma OnlyTwo(a: Raw, b: Raw, i: string, j: string)
    requires a.RawMap? && b.RawMap? && a.fields.Keys == {i, j} == b.fields.Keys && Safe(a) && Safe(b)
    requires SameAt(a, b, i) && SameAt(a, b, j)
    ensures forall l :: SameAt(a, b, l)
  {
    forall l ensures SameAt(a, b, l) {
      if l !in {i, j} { assert l !in a.fields && l !in b.fields; }
    }
  }

  /** Every string of the operation, its payload and its headers is valid. */
  predicate ValidText(n: Operation<Raw>)
    requires n.semanticHeaders.Some?
  {
    && ValidUtf8(n.schemaVersion) && ValidUtf8(n.cacheDomain) && ValidUtf8(n.protocol)
    && ValidUtf8(n.endpoint.identity) && ValidUtf8(n.endpoint.verb) && ValidUtf8(n.endpoint.path)
    && ValidUtf8(n.model)
    && ValidUtf8(n.projection.provider) && ValidUtf8(n.projection.kind) && ValidUtf8(n.projection.version)
    && ValidRaw(n.payload) && ValidRaw(RawMap(n.semanticHeaders.value))
  }

  lemma VisibleInjective(a: Operation<Raw>, b: Operation<Raw>)
    requires Checked(a) && Checked(b) && ValidText(a) && ValidText(b) && Visible(a) == Visible(b)
    ensures a == b
  {
    JsonOfInjective(a.payload, b.payload);
    JsonOfInjective(RawMap(a.semanticHeaders.value), RawMap(b.semanticHeaders.value));
    assert a.endpoint == b.endpoint && a.projection == b.projection;
  }

  /** On valid text the preimage is injective: distinct normalized operations, or distinct effective
      versions, never share one. */
  lemma PreimageInjectiveOnValidText(a: Operation<Raw>, va: string, b: Operation<Raw>, vb: string)
    requires Checked(a) && Checked(b) && Encodable(EnvelopeRaw(a, va)) && Encodable(EnvelopeRaw(b, vb))
    requires ValidText(a) && ValidText(b) && ValidUtf8(va) && ValidUtf8(vb)
    ensures Preimage(a, va) == Preimage(b, vb) <==> a == b && va == vb
  {
    PreimageDetermines(a, va, b, vb);
    RepairInjective(va, vb);
    if Visible(a) == Visible(b) { VisibleInjective(a, b); }
  }

  /** Off valid text it is not: two models that differ in one invalid byte collide. */
  lemma InvalidBytesCollide(n: Operation<Raw>, version: string)
    requires Checked(n) && Encodable(EnvelopeRaw(n, version))
    ensures var a, b := n.(model := [Byte(0x80)]), n.(model := [Byte(0x81)]);
            a != b && Preimage(a, version) == Preimage(b, version)
  {
    var a, b := n.(model := [Byte(0x80)]), n.(model := [Byte(0x81)]);
    assert a.model[0] != b.model[0];
    KeysCollide();
    OperationVisible(a, b);
    EnvelopeSafe(a, version);
    EnvelopeSafe(b, version);
    EnvelopeVisible(OperationRaw(a), version, OperationRaw(b), version);
  }

  // ---- the hash ----

  method StableJSON(value: Raw) returns (r: Result<string, CacheError>)
    ensures !Safe(value) ==> r == Err(UnsafeValue)
    ensures Safe(value) && !Encodable(value) ==> r == Err(NotEncodable)
    ensures Safe(value) && Encodable(value) && !WithinDepth(value, MAX_DEPTH) ==> r == Err(TooDeep)
    ensures Safe(value) && Encodable(value) && WithinDepth(value, MAX_DEPTH) ==> r == Ok(Canon(JsonOf(value)))
  {
    if !Safe(value) { return Err(UnsafeValue); }
    if !Encodable(value) { return Err(NotEncodable); }
    if !WithinDepth(value, MAX_DEPTH) { return Err(TooDeep); }
    var decoded := EncodeAndDecode(value);
    var buffer := new Buffer();
    WriteCanonical(buffer, decoded);
    assert buffer.contents == Canon(JsonOf(value));
    r := Ok(buffer.contents);
  }

  /** Hashes the preimage of the normalized operation, or tells why there is none. */
  method Hash(rules: Rules, digest: string -> string, op: Operation<Raw>, version: string)
    returns (r: Result<string, CacheError>)
    ensures var n, v := Normalize(rules, op), EffectiveVersion(version);
            if n.Err? then r == Err(n.error)
            else if !Encodable(EnvelopeRaw(n.value, v)) then r == Err(NotEncodable)
            else if !WithinDepth(EnvelopeRaw(n.value, v), MAX_DEPTH) then r == Err(TooDeep)
            else r == Ok(digest(Encode(Preimage(n.value, v))))
  {
    var n := Normalize(rules, op);
    if n.Err? { return Err(n.error); }
    var v := TrimBytes(version);
    if v == "" { v := DEFAULT_VERSION; }
    EnvelopeSafe(n.value, v);
    var payload := StableJSON(EnvelopeRaw(n.value, v));
    if payload.Err? { return payload; }
    r := Ok(digest(Encode(payload.value)));
  }
}
