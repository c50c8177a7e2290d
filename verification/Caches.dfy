/** Validated caches: canonical requests, provenance bound to one snapshot, and reuse after an unchanged answer. */
module Caches {
  import opened Base
  import opened Snapshots

  datatype Mode =
    | ExactIds(ids: seq<string>)
    | FirstSorted(limit: int)
    | FirstUnique(limit: int)
    | ExactTag(resource: string, tag: string)

  /** What of a source is asked for, with the fields that the source prescribes. */
  datatype Selection = Selection(mode: Mode, prescribed: map<string, Json>)

  datatype Spec = Spec(selects: Selection -> bool, kinds: set<string>, revisionNullable: bool, revisionless: bool)

  datatype Context = Context(domain: string, partition: string, representation: string)

  datatype Request = Request(
    source: string, selection: Selection, resources: seq<string>, context: Context, revisions: map<string, Option<string>>)

  datatype Origin = Synthetic | Controlled | HistoricalUnknown

  /** Digests and attestations are free constructors. */
  datatype SnapshotSum = SumOf(data: Snapshot)
  datatype Manifest = Manifest(
    origin: Origin, snapshot: SnapshotId, sum: SnapshotSum, scope: Json, context: Context, issuer: Option<string>)
  datatype Attestation = MacOf(manifest: Manifest, key: Bytes)
  datatype Provenance = Provenance(manifest: Manifest, attestation: Option<Attestation>)

  datatype Validators = Validators(etag: Option<string>, lastModified: Option<string>)

  datatype Cache = Cache(
    request: Request, snapshot: Snapshot, sum: SnapshotSum, provenance: Provenance, validators: Validators)

  datatype Objection =
    | BadSelection | BadResources | OtherResources | BadRevisions | BadContext | NotCanonical | BadObservation
    | OtherRevisions | BadProvenance | OtherContext | BadValidators | Tampered | NoBaseline | OtherRequest
    | OtherValidators

  /** The registered sources, the accepted names, the orders that sorting uses, and the issuers' keys. */
  datatype Rules = Rules(
    specs: map<string, Spec>, identifier: string -> bool, alias: string -> bool, order: string -> int, rank: Rank,
    issuers: map<string, Bytes>)

  ghost predicate Ordered(rules: Rules) {
    Injective(rules.order) && Injective(rules.rank)
  }

  // ----- Requests -----

  predicate Distinct(texts: seq<string>) {
    forall i, j | 0 <= i < j < |texts| :: texts[i] != texts[j]
  }

  function Members(texts: seq<string>): set<string> {
    set text | text in texts
  }

  predicate SelectionOk(rules: Rules, source: string, selection: Selection) {
    && source in rules.specs && rules.specs[source].selects(selection)
    && match selection.mode
       case ExactIds(ids) => ids != [] && Distinct(ids) && forall id <- ids :: rules.identifier(id)
       case ExactTag(resource, _) => rules.identifier(resource)
       case _ => selection.mode.limit >= 0
  }

  predicate ContextOk(rules: Rules, c: Context) {
    rules.alias(c.domain) && rules.alias(c.partition) && rules.alias(c.representation)
  }

  predicate RevisionsOk(revisions: map<string, Option<string>>, ids: set<string>) {
    revisions.Keys == ids && forall id <- revisions :: revisions[id].Some? ==> 0 < |revisions[id].value| <= 256
  }

  /** A selection that names its resources must name the requested ones. */
  predicate SelectsAll(mode: Mode, ids: set<string>) {
    match mode
    case ExactIds(named) => ids == Members(named)
    case ExactTag(resource, _) => ids == {resource}
    case _ => true
  }

  /** The request for some resources, which are listed in order whatever order they come in. */
  function MakeRequest(
    rules: Rules, source: string, selection: Selection, resources: seq<string>, context: Context,
    revisions: map<string, Option<string>>): Result<Request, Objection>
    requires Ordered(rules)
  {
    if !SelectionOk(rules, source, selection) then Refused(BadSelection)
    else if resources == [] || !Distinct(resources) || exists id <- resources :: !rules.identifier(id) then
      Refused(BadResources)
    else if !SelectsAll(selection.mode, Members(resources)) then Refused(OtherResources)
    else if !RevisionsOk(revisions, Members(resources)) then Refused(BadRevisions)
    else if !ContextOk(rules, context) then Refused(BadContext)
    else Ok(Request(source, selection, SortKeys(rules.order, Members(resources)), context, revisions))
  }

  /** A received request must be the one that rebuilding it gives. */
  function CheckRequest(rules: Rules, r: Request): Result<Request, Objection>
    requires Ordered(rules)
  {
    match MakeRequest(rules, r.source, r.selection, r.resources, r.context, r.revisions)
    case Refused(objection) => Refused(objection)
    case Ok(expected) => if expected == r then Ok(expected) else Refused(NotCanonical)
  }

  lemma SortedMembers(order: string -> int, texts: set<string>)
    requires Injective(order)
    ensures Members(SortKeys(order, texts)) == texts && Distinct(SortKeys(order, texts))
    ensures texts != {} ==> SortKeys(order, texts) != []
  {
    SortedHasKeys(order, texts);
  }

  /** Rebuilding a request that was built changes nothing. */
  lemma RequestIsFixed(
    rules: Rules, source: string, selection: Selection, resources: seq<string>, context: Context,
    revisions: map<string, Option<string>>)
    requires Ordered(rules)
    ensures var made := MakeRequest(rules, source, selection, resources, context, revisions);
            made.Ok? ==> CheckRequest(rules, made.value) == made
  {
    hide SelectionOk, SelectsAll, RevisionsOk, ContextOk;
    SortedMembers(rules.order, Members(resources));
    if resources != [] {
      assert resources[0] in Members(resources);
    }
    forall id <- SortKeys(rules.order, Members(resources))
      ensures id in resources
    {
      assert id in Members(SortKeys(rules.order, Members(resources)));
    }
  }

  /** The order in which the resources are named does not matter. */
  lemma RequestIgnoresOrder(
    rules: Rules, source: string, selection: Selection, resources: seq<string>, others: seq<string>, context: Context,
    revisions: map<string, Option<string>>)
    requires Ordered(rules) && Distinct(resources) && Distinct(others) && forall id :: id in resources <==> id in others
    ensures MakeRequest(rules, source, selection, resources, context, revisions)
            == MakeRequest(rules, source, selection, others, context, revisions)
  {
    hide SelectionOk, SelectsAll, RevisionsOk, ContextOk;
    assert Members(resources) == Members(others);
    assert resources == [] <==> others == [] by {
      assert |resources| > 0 ==> resources[0] in resources;
      assert |others| > 0 ==> others[0] in others;
    }
  }

  /** A request of this source: what its mode allows, for resources without repetition, each with a revision or none. */
  ghost predicate GoodRequest(
    rules: Rules, source: string, selection: Selection, resources: seq<string>, context: Context,
    revisions: map<string, Option<string>>) {
    && source in rules.specs && rules.specs[source].selects(selection)
    && resources != [] && (forall i, j | 0 <= i < j < |resources| :: resources[i] != resources[j])
    && (forall id <- resources :: rules.identifier(id))
    && (match selection.mode
        case ExactIds(ids) =>
          (forall i, j | 0 <= i < j < |ids| :: ids[i] != ids[j]) && (forall id :: id in ids <==> id in resources)
        case FirstSorted(limit) => limit >= 0
        case FirstUnique(limit) => limit >= 0
        case ExactTag(resource, _) => resources == [resource])
    && (forall id :: id in revisions <==> id in resources)
    && (forall id <- revisions :: revisions[id] == None || 1 <= |revisions[id].value| <= 256)
    && rules.alias(context.domain) && rules.alias(context.partition) && rules.alias(context.representation)
  }

  lemma OneMember(resources: seq<string>, resource: string)
    requires Distinct(resources) && resources != []
    ensures Members(resources) == {resource} <==> resources == [resource]
  {
    if Members(resources) == {resource} {
      assert resources[0] in Members(resources) && resources[|resources| - 1] in Members(resources);
    }
  }

  /** What the two sides of the mode say about the resources comes to the same. */
  lemma ModeMeans(rules: Rules, source: string, selection: Selection, resources: seq<string>)
    requires resources != [] && Distinct(resources) && forall id <- resources :: rules.identifier(id)
    ensures SelectionOk(rules, source, selection) && SelectsAll(selection.mode, Members(resources)) <==>
            && source in rules.specs && rules.specs[source].selects(selection)
            && match selection.mode
               case ExactIds(ids) =>
                 (forall i, j | 0 <= i < j < |ids| :: ids[i] != ids[j]) && (forall id :: id in ids <==> id in resources)
               case FirstSorted(limit) => limit >= 0
               case FirstUnique(limit) => limit >= 0
               case ExactTag(resource, _) => resources == [resource]
  {
    match selection.mode
    case ExactIds(ids) =>
      if forall id :: id in ids <==> id in resources {
        assert resources[0] in ids;
        assert Members(resources) == Members(ids);
      }
      if Members(resources) == Members(ids) {
        forall id
          ensures id in ids <==> id in resources
        {
          assert id in Members(ids) <==> id in Members(resources);
        }
      }
    case ExactTag(resource, _) => OneMember(resources, resource);
    case _ =>
  }

  /** A request is made exactly from good parts, and has those parts, with the resources in ascending order. */
  lemma RequestMadeIff(
    rules: Rules, source: string, selection: Selection, resources: seq<string>, context: Context,
    revisions: map<string, Option<string>>)
    requires Ordered(rules)
    ensures var made := MakeRequest(rules, source, selection, resources, context, revisions);
            && (made.Ok? <==> GoodRequest(rules, source, selection, resources, context, revisions))
            && (made.Ok? ==>
                  && made.value.source == source && made.value.selection == selection
                  && made.value.context == context && made.value.revisions == revisions
                  && (forall id :: id in made.value.resources <==> id in resources)
                  && (forall i, j | 0 <= i < j < |made.value.resources| ::
                        rules.order(made.value.resources[i]) < rules.order(made.value.resources[j])))
  {
    hide SelectionOk, SelectsAll;
    SortedHasKeys(rules.order, Members(resources));
    if resources != [] && Distinct(resources) && forall id <- resources :: rules.identifier(id) {
      ModeMeans(rules, source, selection, resources);
    }
    assert Members(resources) == revisions.Keys <==> forall id :: id in revisions <==> id in resources;
  }

  // ----- Observations and their provenance -----

  function SelectionText(selection: Selection): Json {
    var mode :=
      match selection.mode
      case ExactIds(ids) =>
        map["mode" := JText("exact_ids"), "ids" := JList(seq(|ids|, i requires 0 <= i < |ids| => JText(ids[i])))]
      case FirstSorted(limit) => map["mode" := JText("first_n_sorted"), "limit" := JNumber(limit as real)]
      case FirstUnique(limit) => map["mode" := JText("first_n_unique"), "limit" := JNumber(limit as real)]
      case ExactTag(resource, tag) =>
        map["mode" := JText("exact_tag"), "resource_id" := JText(resource), "tag" := JText(tag)];
    JObject(selection.prescribed + mode)
  }

  /** The revision of each resource; of several records of one resource the last one counts. */
  function RevisionsOf(records: seq<Entry>): map<string, Option<string>> {
    if records == [] then map[]
    else
      var last := records[|records| - 1].payload;
      RevisionsOf(records[..|records| - 1])[last.sourceId := last.revision]
  }

  /** A valid snapshot of exactly this selection and exactly these resources. */
  predicate Observes(rules: Rules, source: string, selection: Selection, ids: set<string>, data: Snapshot)
    requires Ordered(rules)
  {
    && Valid(rules.rank, data) && source in rules.specs
    && data.scope == JObject(map[source := SelectionText(selection)])
    && (forall e <- data.records ::
          && e.payload.source == source && e.payload.kind in rules.specs[source].kinds
          && (e.payload.revision == None ==> rules.specs[source].revisionNullable)
          && (e.payload.revision.Some? ==> !rules.specs[source].revisionless)
          && (selection.mode.ExactTag? ==> e.payload.revision == Some(selection.mode.tag)))
    && (set e | e in data.records :: e.payload.sourceId) == ids
  }

  /** A scope that is marked as synthetic is never attested. */
  predicate SyntheticScope(scope: Json) {
    scope.JObject?
    && exists k <- scope.fields ::
         scope.fields[k].JObject? && "input" in scope.fields[k].fields
         && scope.fields[k].fields["input"] == JText("synthetic_fixture")
  }

  function ManifestOf(data: Snapshot, origin: Origin, context: Context, issuer: Option<string>): Manifest {
    Manifest(origin, data.id, SumOf(data), data.scope, context, issuer)
  }

  function MakeProvenance(
    rules: Rules, data: Snapshot, origin: Origin, context: Context, issuer: Option<string>, key: Option<Bytes>):
    Result<Provenance, Objection>
    requires Ordered(rules)
  {
    if !Valid(rules.rank, data) || !ContextOk(rules, context) then Refused(BadProvenance)
    else if origin == Controlled then
      if issuer == None || !rules.alias(issuer.value) || key == None || |key.value| < 32 || SyntheticScope(data.scope) then
        Refused(BadProvenance)
      else
        var manifest := ManifestOf(data, origin, context, issuer);
        Ok(Provenance(manifest, Some(MacOf(manifest, key.value))))
    else if issuer.Some? || key.Some? then Refused(BadProvenance)
    else Ok(Provenance(ManifestOf(data, origin, context, None), None))
  }

  function CheckProvenance(rules: Rules, data: Snapshot, p: Provenance): Result<Provenance, Objection>
    requires Ordered(rules)
  {
    var m := p.manifest;
    if !Valid(rules.rank, data) || !ContextOk(rules, m.context) then Refused(BadProvenance)
    else if m.snapshot != data.id || m.sum != SumOf(data) || m.scope != data.scope then Refused(BadProvenance)
    else if m.origin == Controlled then
      if m.issuer == None || !rules.alias(m.issuer.value) || m.issuer.value !in rules.issuers then Refused(BadProvenance)
      else
        match MakeProvenance(rules, data, Controlled, m.context, m.issuer, Some(rules.issuers[m.issuer.value]))
        case Refused(objection) => Refused(objection)
        case Ok(expected) => if p.attestation == expected.attestation then Ok(p) else Refused(BadProvenance)
    else if m.issuer.Some? || p.attestation.Some? then Refused(BadProvenance)
    else Ok(p)
  }

  /** What was made is accepted, unless it was attested with a key that is not the enrolled key of its issuer. */
  lemma MadeIsAcceptedIff(
    rules: Rules, data: Snapshot, origin: Origin, context: Context, issuer: Option<string>, key: Option<Bytes>)
    requires Ordered(rules) && MakeProvenance(rules, data, origin, context, issuer, key).Ok?
    ensures var p := MakeProvenance(rules, data, origin, context, issuer, key).value;
            CheckProvenance(rules, data, p).Ok? <==>
            (origin == Controlled ==> issuer.value in rules.issuers && rules.issuers[issuer.value] == key.value)
  {
    hide Valid, ContextOk, SyntheticScope;
  }

  /**
   * A provenance is accepted for one snapshot only. An accepted attestation was made with the enrolled key of its issuer
   * for exactly this snapshot, and never for a synthetic scope.
   */
  lemma ProvenanceBinds(rules: Rules, data: Snapshot, other: Snapshot, p: Provenance)
    requires Ordered(rules) && CheckProvenance(rules, data, p).Ok?
    ensures CheckProvenance(rules, other, p).Ok? ==> other == data
    ensures p.manifest.origin == Controlled ==>
              && p.manifest.issuer.Some? && p.manifest.issuer.value in rules.issuers
              && p.attestation == Some(MacOf(ManifestOf(data, Controlled, p.manifest.context, p.manifest.issuer),
                                             rules.issuers[p.manifest.issuer.value]))
              && !SyntheticScope(data.scope)
    ensures p.manifest.origin != Controlled ==> p.attestation == None
  {
    hide Valid, ContextOk, SyntheticScope;
  }

  /**
   * A provenance is accepted exactly when it names the snapshot, its content and its scope, in a context of aliases; and
   * when a controlled origin is attested with the enrolled key of its issuer, of at least 32 bytes, for a scope that is not
   * synthetic, while any other origin has neither an issuer nor an attestation.
   */
  lemma ProvenanceAcceptedIff(rules: Rules, data: Snapshot, p: Provenance)
    requires Ordered(rules)
    ensures CheckProvenance(rules, data, p).Ok? <==>
            var m := p.manifest;
            && Valid(rules.rank, data)
            && rules.alias(m.context.domain) && rules.alias(m.context.partition) && rules.alias(m.context.representation)
            && m.snapshot == data.id && m.sum.data == data && m.scope == data.scope
            && if m.origin == Controlled then
                 && m.issuer.Some? && m.issuer.value in rules.issuers && rules.alias(m.issuer.value)
                 && |rules.issuers[m.issuer.value]| >= 32 && !SyntheticScope(data.scope)
                 && p.attestation == Some(MacOf(m, rules.issuers[m.issuer.value]))
               else m.issuer == None && p.attestation == None
  {
    hide Valid, SyntheticScope;
  }

  /** The revision of a resource is that of its last record. */
  lemma {:induction false} RevisionIsLast(records: seq<Entry>, i: nat)
    requires i < |records| && forall j | i < j < |records| :: records[j].payload.sourceId != records[i].payload.sourceId
    ensures records[i].payload.sourceId in RevisionsOf(records)
    ensures RevisionsOf(records)[records[i].payload.sourceId] == records[i].payload.revision
  {
    if i < |records| - 1 {
      RevisionIsLast(records[..|records| - 1], i);
    }
  }

  /** Only resources with a record have a revision. */
  lemma {:induction false} RevisionsAreOfRecords(records: seq<Entry>, id: string)
    ensures id in RevisionsOf(records) <==> exists e <- records :: e.payload.sourceId == id
  {
    if records != [] {
      var front, last := records[..|records| - 1], records[|records| - 1];
      RevisionsAreOfRecords(front, id);
      assert records == front + [last] && last in records;
    }
  }

  // ----- Caches -----

  predicate Printable(text: string) {
    0 < |text| <= 256 && forall c <- text :: 32 <= c as int <= 126
  }

  predicate Quoted(etag: string) {
    |etag| > 0 && etag[|etag| - 1] == '"' && (etag[0] == '"' || (|etag| >= 3 && etag[..3] == "W/\""))
  }

  predicate ValidatorsOk(v: Validators) {
    && (v.etag.Some? ==> Printable(v.etag.value) && Quoted(v.etag.value))
    && (v.lastModified.Some? ==> Printable(v.lastModified.value))
  }

  function MakeCache(rules: Rules, request: Request, data: Snapshot, p: Provenance, v: Validators):
    Result<Cache, Objection>
    requires Ordered(rules)
  {
    match CheckRequest(rules, request)
    case Refused(objection) => Refused(objection)
    case Ok(r) =>
      if !Observes(rules, r.source, r.selection, Members(r.resources), data) then Refused(BadObservation)
      else if RevisionsOf(data.records) != r.revisions then Refused(OtherRevisions)
      else
        match CheckProvenance(rules, data, p)
        case Refused(objection) => Refused(objection)
        case Ok(accepted) =>
          if accepted.manifest.context != r.context then Refused(OtherContext)
          else if !ValidatorsOk(v) then Refused(BadValidators)
          else Ok(Cache(r, data, SumOf(data), accepted, v))
  }

  /** An entity tag or a date that may be sent back: short, printable, and an entity tag in quotes, weak or strong. */
  ghost predicate Sendable(v: Validators) {
    && (v.etag.Some? ==>
          && 1 <= |v.etag.value| <= 256 && (forall c <- v.etag.value :: ' ' <= c <= '~')
          && v.etag.value[|v.etag.value| - 1] == '"'
          && (v.etag.value[0] == '"' || (v.etag.value[0] == 'W' && |v.etag.value| >= 3 && v.etag.value[1..3] == "/\"")))
    && (v.lastModified.Some? ==>
          1 <= |v.lastModified.value| <= 256 && forall c <- v.lastModified.value :: ' ' <= c <= '~')
  }

  lemma SendableIsOk(v: Validators)
    ensures ValidatorsOk(v) <==> Sendable(v)
  {
    if v.etag.Some? && |v.etag.value| >= 3 {
      var text := v.etag.value;
      assert text[..3] == [text[0]] + text[1..3];
      assert "W/\"" == ['W'] + "/\"";
      assert text[..3] == "W/\"" ==> text[..3][0] == 'W' && text[..3][1..] == "/\"";
      assert text[..3][1..] == text[1..3];
    }
  }

  /** A snapshot of this request: valid, of its scope, and with records of its source for exactly its resources. */
  ghost predicate Answers(rules: Rules, r: Request, data: Snapshot)
    requires Ordered(rules)
  {
    && Valid(rules.rank, data) && r.source in rules.specs
    && data.scope == JObject(map[r.source := SelectionText(r.selection)])
    && (forall id :: id in r.resources <==> exists e <- data.records :: e.payload.sourceId == id)
    && forall e <- data.records ::
         && e.payload.source == r.source && e.payload.kind in rules.specs[r.source].kinds
         && (match e.payload.revision
             case None => rules.specs[r.source].revisionNullable && !r.selection.mode.ExactTag?
             case Some(revision) =>
               !rules.specs[r.source].revisionless && (r.selection.mode.ExactTag? ==> revision == r.selection.mode.tag))
  }

  lemma AnswersIsObserved(rules: Rules, r: Request, data: Snapshot)
    requires Ordered(rules)
    ensures Observes(rules, r.source, r.selection, Members(r.resources), data) <==> Answers(rules, r, data)
  {
    hide Valid, SelectionText;
    var ids := set e | e in data.records :: e.payload.sourceId;
    forall id
      ensures id in ids <==> exists e <- data.records :: e.payload.sourceId == id
      ensures id in Members(r.resources) <==> id in r.resources
    {
    }
    if ids == Members(r.resources) {
      assert forall id :: id in ids <==> id in Members(r.resources);
    }
    if forall id :: id in r.resources <==> exists e <- data.records :: e.payload.sourceId == id {
      assert forall id :: id in ids <==> id in Members(r.resources);
      assert ids == Members(r.resources);
    }
  }

  /** A cache is made exactly of parts that belong together, and it has just these parts. */
  lemma CacheMadeIff(rules: Rules, request: Request, data: Snapshot, p: Provenance, v: Validators)
    requires Ordered(rules)
    ensures var made := MakeCache(rules, request, data, p, v);
            && (made.Ok? <==>
                  && CheckRequest(rules, request).Ok? && Answers(rules, request, data)
                  && RevisionsOf(data.records) == request.revisions
                  && CheckProvenance(rules, data, p).Ok? && p.manifest.context == request.context && Sendable(v))
            && (made.Ok? ==> made.value == Cache(request, data, SumOf(data), p, v))
  {
    hide Observes, Answers, CheckProvenance, MakeRequest, ValidatorsOk, Sendable, RevisionsOf;
    AnswersIsObserved(rules, request, data);
    SendableIsOk(v);
    CheckedIsSame(rules, data, p);
  }

  /** A received cache must be the one that rebuilding it gives. */
  function CheckCache(rules: Rules, e: Cache): Result<Cache, Objection>
    requires Ordered(rules)
  {
    match MakeCache(rules, e.request, e.snapshot, e.provenance, e.validators)
    case Refused(objection) => Refused(objection)
    case Ok(rebuilt) => if rebuilt == e then Ok(rebuilt) else Refused(Tampered)
  }

  /** The check accepts exactly the caches that can be made, and changes none of them. */
  lemma CacheIffMade(rules: Rules, e: Cache)
    requires Ordered(rules)
    ensures CheckCache(rules, e).Ok? <==> exists r, data, p, v :: MakeCache(rules, r, data, p, v) == Ok(e)
    ensures CheckCache(rules, e).Ok? ==> CheckCache(rules, e).value == e
  {
    hide Observes, CheckProvenance, MakeRequest, ValidatorsOk;
    if r, data, p, v :| MakeCache(rules, r, data, p, v) == Ok(e) {
      CheckedIsSame(rules, data, p);
      assert MakeCache(rules, e.request, e.snapshot, e.provenance, e.validators) == Ok(e);
    }
    if CheckCache(rules, e).Ok? {
      assert MakeCache(rules, e.request, e.snapshot, e.provenance, e.validators) == Ok(e);
    }
  }

  lemma CheckedIsSame(rules: Rules, data: Snapshot, p: Provenance)
    requires Ordered(rules)
    ensures CheckProvenance(rules, data, p).Ok? ==> CheckProvenance(rules, data, p).value == p
  {
    hide Valid, ContextOk, MakeProvenance;
  }

  /** After an unchanged answer: the stored snapshot, when the cache and the conditional request belong together. */
  function Reuse(rules: Rules, e: Cache, request: Request, sent: Validators): Result<Snapshot, Objection>
    requires Ordered(rules)
  {
    match CheckCache(rules, e)
    case Refused(objection) => Refused(objection)
    case Ok(cached) =>
      if cached.provenance.manifest.origin == HistoricalUnknown then Refused(NoBaseline)
      else
        match CheckRequest(rules, request)
        case Refused(objection) => Refused(objection)
        case Ok(r) =>
          if !ValidatorsOk(sent) then Refused(BadValidators)
          else if cached.request != r then Refused(OtherRequest)
          else if (sent.etag == None && sent.lastModified == None) || sent != cached.validators then Refused(OtherValidators)
          else Ok(cached.snapshot)
  }

  /**
   * A cache that was made for some resources answers the request for the same resources in any order, exactly when its
   * origin is known and the validators that were sent are its own and say something; it then answers with its snapshot.
   */
  lemma MadeIsReused(
    rules: Rules, source: string, selection: Selection, resources: seq<string>, others: seq<string>, context: Context,
    data: Snapshot, p: Provenance, v: Validators, sent: Validators)
    requires Ordered(rules) && Distinct(resources) && Distinct(others) && forall id :: id in resources <==> id in others
    requires MakeRequest(rules, source, selection, resources, context, RevisionsOf(data.records)).Ok?
    requires MakeCache(rules, MakeRequest(rules, source, selection, resources, context, RevisionsOf(data.records)).value,
                       data, p, v).Ok?
    ensures MakeRequest(rules, source, selection, others, context, RevisionsOf(data.records)).Ok?
    ensures var request := MakeRequest(rules, source, selection, resources, context, RevisionsOf(data.records)).value;
            var again := MakeRequest(rules, source, selection, others, context, RevisionsOf(data.records)).value;
            var reply := Reuse(rules, MakeCache(rules, request, data, p, v).value, again, sent);
            && (reply.Ok? <==> p.manifest.origin != HistoricalUnknown && sent == v && (v.etag.Some? || v.lastModified.Some?))
            && (reply.Ok? ==> reply.value == data)
  {
    hide Observes, CheckProvenance, MakeRequest, ValidatorsOk, CheckRequest, Distinct;
    RequestIsFixed(rules, source, selection, resources, context, RevisionsOf(data.records));
    RequestIgnoresOrder(rules, source, selection, resources, others, context, RevisionsOf(data.records));
    CheckedIsSame(rules, data, p);
    var request := MakeRequest(rules, source, selection, resources, context, RevisionsOf(data.records)).value;
    var e := MakeCache(rules, request, data, p, v).value;
    CacheIffMade(rules, e);
  }
}
