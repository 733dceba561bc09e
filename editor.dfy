/** getChemicalEditorData of cts_rest.py: the identity cascade that turns a
    chemical the user typed or drew into a CTS molecule record, consulting a
    type classifier, a drawing converter, an identity service (gsid) and a
    substance registry (dsstox), and the envelope the answer is wrapped in. */
module ChemicalEditor {
  import opened PyValues
  import opened Molecules
  import CtsRestModel

  /** The collaborators the view calls, as their outcomes: a value, or the
      exception they raise. They are deterministic: the same call gives the
      same outcome. */
  datatype Services = Services(
    chemicalType: Value -> Result<Value>,     // Calculator().getChemicalType
    convertToSmiles: Value -> Result<Value>,    // Calculator().convertToSMILES
    chemId: Value -> Result<Value>,             // ACTORWS().get_chemid_results
    dsstox: (Value, string) -> Result<Value>,   // ACTORWS().get_dsstox_results
    filterSmiles: Value -> Result<Value>,       // smilesfilter.filterSMILES
    chemDetails: Value -> Result<Value>,        // Calculator().getChemDetails
    nodeImage: Value -> Result<Value>,          // Calculator().nodeWrapper, with the tree image settings
    popupImage: (Value, Value) -> Result<Value>) // Calculator().popupBuilder, with the metabolite keys

  /** A call the cascade makes into the services, with its argument. */
  datatype Call =
    | TypeQuery(chemical: Value)
    | Conversion(request: Value)
    | IdentityQuery(chemical: Value)
    | RegistryQuery(key: Value, idType: string)

  /** How the registry lookup is keyed for a CAS# input without a gsid: as the
      code is written (the key variable is never bound), or as intended (the
      CAS number itself, with id type 'CAS#'). */
  datatype CasRule = AsWritten | Intended

  /** The outcome of the identification steps: the chemical's type, the SMILES
      of a converted drawing (None otherwise), the gsid (None when not looked
      up), the registry results gathered (`_actor_results`) and the calls made,
      in order. */
  datatype Identified = Identified(kind: Value, drawn: Value, gsid: Value, actor: map<string, Value>, calls: seq<Call>)

  /** The argument of the drawing conversion. */
  function ConversionRequest(chemical: Value): Value {
    Obj(map["chemical" := chemical])
  }

  /** `calc.convertToSMILES({'chemical': chemical})['structure']`. */
  function DrawnSmiles(s: Services, chemical: Value): Result<Value> {
    var response :- s.convertToSmiles(ConversionRequest(chemical));
    Subscript(response, "structure")
  }

  /** `actorws.get_chemid_results(chemical)['data']['gsid']`. */
  function Gsid(s: Services, chemical: Value): Result<Value> {
    var results :- s.chemId(chemical);
    var data :- Subscript(results, "data");
    Subscript(data, "gsid")
  }

  /** The key and id type of the registry lookup. With a gsid, the gsid;
      without one, `chem_id` was never assigned as written, and is the CAS
      number as intended. */
  function RegistryKey(gsid: Value, chemical: Value, rule: CasRule): Result<(Value, string)> {
    if Truthy(gsid) then Success((gsid, "gsid"))
    else match rule
      case AsWritten => Failure(NameError("chem_id"))
      case Intended => Success((chemical, "CAS#"))
  }

  /** `actor.update(results)`: the registry answer's entries over the ones
      gathered so far. */
  function Updated(actor: map<string, Value>, results: Value): Result<map<string, Value>> {
    match results
    case Obj(m) => Success(actor + m)
    case _ => Failure(TypeError)
  }

  /** Whether the gsid lookup runs: for a name or a SMILES, or a drawing whose
      conversion gave a SMILES. */
  predicate IdentityGate(kind: Value, drawn: Value) {
    kind == Str("name") || kind == Str("smiles") || Truthy(drawn)
  }

  /** Whether the registry lookup runs: a gsid was obtained, or the input is a CAS#. */
  predicate RegistryGate(kind: Value, gsid: Value) {
    Truthy(gsid) || kind == Str("CAS#")
  }

  /** Steps 1 and 2 of the cascade: classify, convert a drawing, look up the
      gsid, look up the registry. */
  function Identify(s: Services, chemical: Value, rule: CasRule): Result<Identified> {
    var chemType :- s.chemicalType(chemical);
    var kind :- Subscript(chemType, "type");
    var drawn :- if kind == Str("mrv") then DrawnSmiles(s, chemical) else Success(Null);
    var lookup := IdentityGate(kind, drawn);
    var gsid :- if lookup then Gsid(s, chemical) else Success(Null);
    var actor: map<string, Value> := if lookup then map["gsid" := gsid] else map[];
    var calls := [TypeQuery(chemical)]
                 + (if kind == Str("mrv") then [Conversion(ConversionRequest(chemical))] else [])
                 + (if lookup then [IdentityQuery(chemical)] else []);
    if RegistryGate(kind, gsid) then
      var key :- RegistryKey(gsid, chemical, rule);
      var results :- s.dsstox(key.0, key.1);
      var gathered :- Updated(actor, results);
      Success(Identified(kind, drawn, gsid, gathered, calls + [RegistryQuery(key.0, key.1)]))
    else Success(Identified(kind, drawn, gsid, actor, calls))
  }

  /** The SMILES handed to the filter: the input itself when it is a SMILES,
      else the registry's SMILES when there is one, else ChemAxon's conversion
      of the input. */
  function OrigSmilesFor(s: Services, chemical: Value, kind: Value, actor: map<string, Value>): Result<Value> {
    if kind == Str("smiles") then Success(chemical)
    else if "smiles" in actor then Success(actor["smiles"])
    else
      var response :- s.convertToSmiles(ConversionRequest(chemical));
      DictGet(response, "structure")
  }

  /** The state of the view once the molecule is built: the identification,
      the original and filtered SMILES, and the molecule dictionary. */
  datatype Prepared = Prepared(ident: Identified, orig: Value, filtered: Value, molecule: map<string, Value>)

  /** The view up to createMolecule. */
  function Prepare(s: Services, post: Request, rule: CasRule): Result<Prepared> {
    var chemical := Get(post, "chemical");
    var ident :- Identify(s, chemical, rule);
    var orig :- OrigSmilesFor(s, chemical, ident.kind, ident.actor);
    var filtered :- CtsRestModel.Filtered(s.filterSmiles, orig);
    var details :- s.chemDetails(Obj(map["chemical" := filtered]));
    var attrs :- Created(MoleculeAttrs, chemical, orig, details, Get(post, "get_structure_data"), InitialAttrs()).1;
    Success(Prepared(ident, orig, filtered, AsDict(attrs)))
  }

  /** The molecule dictionary with the registry's `data` entries written over
      it; the registry's `casrn` goes to `cas`. */
  function Merged(molecule: map<string, Value>, data: map<string, Value>): map<string, Value> {
    var m := molecule + (data - {"casrn"});
    if "casrn" in data then m["cas" := data["casrn"]] else m
  }

  /** What the merge does to each entry: a registry entry other than `casrn`
      wins, `casrn` replaces `cas`, and every other molecule entry stays. */
  lemma MergedEntries(molecule: map<string, Value>, data: map<string, Value>)
    ensures var m := Merged(molecule, data);
            && m.Keys == molecule.Keys + (data.Keys - {"casrn"}) + (if "casrn" in data then {"cas"} else {})
            && ("casrn" in data ==> m["cas"] == data["casrn"])
            && (forall k :: k in data && k != "casrn" && !(k == "cas" && "casrn" in data) ==> m[k] == data[k])
            && (forall k :: k in molecule && k !in data && !(k == "cas" && "casrn" in data) ==> m[k] == molecule[k])
  {
  }

  /** The merge loop: every `(key, val)` of the registry data is stored into
      the molecule dictionary, `casrn` under `cas`. The keys are visited in an
      unspecified order, `casrn` last. */
  method MergeRegistry(molecule: map<string, Value>, data: map<string, Value>) returns (m: map<string, Value>)
    ensures m == Merged(molecule, data)
  {
    m := molecule;
    var remaining := data.Keys - {"casrn"};
    while remaining != {}
      invariant remaining <= data.Keys - {"casrn"}
      invariant m == molecule + (data - ({"casrn"} + remaining))
      decreases remaining
    {
      var key :| key in remaining;
      m := m[key := data[key]];
      remaining := remaining - {key};
    }
    assert data - ({"casrn"} + remaining) == data - {"casrn"};
    if "casrn" in data {
      m := m["cas" := data["casrn"]];
    }
  }

  /** `_actor_results['data']`, whose `items()` the merge loop iterates. */
  function RegistryData(actor: map<string, Value>): Result<map<string, Value>> {
    if "data" !in actor then Failure(KeyError("data"))
    else match actor["data"]
      case Obj(fields) => Success(fields)
      case _ => Failure(AttributeError)
  }

  /** The view from createMolecule on: the registry data merged over the
      molecule, and for a tree node its images. A missing `data` entry raises
      KeyError, and `data` without `items()` AttributeError. */
  function Finish(s: Services, post: Request, p: Prepared): Result<map<string, Value>> {
    var fields :- RegistryData(p.ident.actor);
    var merged := Merged(p.molecule, fields);
    if Truthy(Get(post, "is_node")) then
      var node :- s.nodeImage(p.filtered);
      var popup :- s.popupImage(p.filtered, Get(post, "id"));
      Success(merged["node_image" := node]["popup_image" := popup])
    else Success(merged)
  }

  /** The body of the view's `try`: the chemical's record, or the exception raised. */
  function EditorData(s: Services, post: Request, rule: CasRule): Result<map<string, Value>> {
    var p :- Prepare(s, post, rule);
    Finish(s, post, p)
  }

  /** The view's three answers: the record with the request echoed; the
      validation error for a KeyError; any other exception. */
  datatype Envelope =
    | Resolved(data: map<string, Value>, requestPost: Value)
    | Invalid(chemical: Value)
    | Failed(error: Exc)

  /** The request as `json.dumps` writes it. A QueryDict is encoded through
      its `items()`, which give each key's last value, and an empty list for a
      key whose list is empty. */
  function RequestJson(post: Request): Value {
    match post
    case PyDict(m) => Obj(m)
    case FrozenQueryDict(l) => Obj(map k | k in l :: if |l[k]| == 0 then Arr([]) else Str(l[k][|l[k]| - 1]))
  }

  /** The echoed request holds exactly the request's keys, each with the value
      `request_post[key]` gives: the last of a QueryDict's values, not the
      whole list. */
  lemma RequestEcho(post: Request)
    ensures RequestJson(post).Obj?
    ensures forall k :: k in RequestJson(post).fields <==> Index(post, k).Success?
    ensures forall k :: k in RequestJson(post).fields ==> Index(post, k) == Success(RequestJson(post).fields[k])
    ensures post.FrozenQueryDict? ==>
              forall k :: k in post.lists && |post.lists[k]| > 0 ==>
                RequestJson(post).fields[k] == Get(post, k) == Str(post.lists[k][|post.lists[k]| - 1])
  {
  }

  /** getChemicalEditorData's answer. */
  function EditorEnvelope(s: Services, post: Request, rule: CasRule): Envelope {
    match EditorData(s, post, rule)
    case Success(d) => Resolved(d, RequestJson(post))
    case Failure(KeyError(_)) => Invalid(Get(post, "chemical"))
    case Failure(e) => Failed(e)
  }

  /** The JSON document sent back; the generic error envelope holds the
      exception object itself, which JSON cannot encode, so it has none. */
  function Reply(env: Envelope): Option<Value> {
    match env
    case Resolved(data, post) =>
      Some(Obj(map["status" := Bool(true), "data" := Obj(data), "request_post" := post]))
    case Invalid(chemical) =>
      Some(Obj(map["status" := Bool(false), "error" := Str("Error validating chemical"), "chemical" := chemical]))
    case Failed(_) => None
  }

  // ---------------------------------------------------------------------
  // The cascade's gating and order.

  /** The classifier is called first, on the raw input, and a drawing's
      conversion comes right after it, before any lookup; nothing else is
      converted. */
  lemma DrawingConvertedFirst(s: Services, chemical: Value, rule: CasRule)
    requires Identify(s, chemical, rule).Success?
    ensures var id := Identify(s, chemical, rule).value;
            && |id.calls| >= 1 && id.calls[0] == TypeQuery(chemical)
            && (id.kind == Str("mrv") <==> |id.calls| >= 2 && id.calls[1].Conversion?)
            && (id.kind == Str("mrv") ==> id.calls[1] == Conversion(ConversionRequest(chemical))
                                          && DrawnSmiles(s, chemical) == Success(id.drawn))
            && (id.kind != Str("mrv") ==> id.drawn == Null)
            && (forall i :: 1 < i < |id.calls| ==> !id.calls[i].Conversion?)
  {
  }

  /** The gsid lookup runs exactly when the input is a name or a SMILES or a
      drawing that converted to a SMILES, always on the raw input and never on
      the converted SMILES; its answer's `gsid` is the gsid used. */
  lemma IdentityLookupGate(s: Services, chemical: Value, rule: CasRule)
    requires Identify(s, chemical, rule).Success?
    ensures var id := Identify(s, chemical, rule).value;
            && ((exists i :: 0 <= i < |id.calls| && id.calls[i].IdentityQuery?) <==> IdentityGate(id.kind, id.drawn))
            && (forall i :: 0 <= i < |id.calls| && id.calls[i].IdentityQuery? ==> id.calls[i].chemical == chemical)
            && (IdentityGate(id.kind, id.drawn) ==> Gsid(s, chemical) == Success(id.gsid))
            && (!IdentityGate(id.kind, id.drawn) ==> id.gsid == Null)
  {
    var id := Identify(s, chemical, rule).value;
    if IdentityGate(id.kind, id.drawn) {
      var i := if id.kind == Str("mrv") then 2 else 1;
      assert id.calls[i].IdentityQuery?;
    }
  }

  /** The registry lookup runs exactly when a gsid was obtained or the input is
      a CAS#; it is the last call, keyed by the gsid with id type 'gsid'
      whenever there is one, and its answer is merged into the results. */
  lemma RegistryLookupGate(s: Services, chemical: Value, rule: CasRule)
    requires Identify(s, chemical, rule).Success?
    ensures var id := Identify(s, chemical, rule).value;
            && ((exists i :: 0 <= i < |id.calls| && id.calls[i].RegistryQuery?) <==> RegistryGate(id.kind, id.gsid))
            && (RegistryGate(id.kind, id.gsid) ==> id.calls[|id.calls| - 1].RegistryQuery?)
            && (Truthy(id.gsid) ==> id.calls[|id.calls| - 1] == RegistryQuery(id.gsid, "gsid"))
            && (!RegistryGate(id.kind, id.gsid) ==> "data" !in id.actor)
  {
  }

  /** The registry's answer is what the view gathers: its entries over the
      gsid, which is recorded only when it was looked up. */
  lemma RegistryResultsGathered(s: Services, chemical: Value, rule: CasRule)
    requires Identify(s, chemical, rule).Success?
    requires RegistryGate(Identify(s, chemical, rule).value.kind, Identify(s, chemical, rule).value.gsid)
    ensures var id := Identify(s, chemical, rule).value;
            var q := id.calls[|id.calls| - 1];
            && q.RegistryQuery?
            && s.dsstox(q.key, q.idType).Success? && s.dsstox(q.key, q.idType).value.Obj?
            && id.actor == (if IdentityGate(id.kind, id.drawn) then map["gsid" := id.gsid] else map[])
                           + s.dsstox(q.key, q.idType).value.fields
  {
  }

  // ---------------------------------------------------------------------
  // The CAS# input (see README, Findings).

  /** As written, a CAS# input never reaches the registry: the type is not a
      name, SMILES or drawing, so there is no gsid, and the key variable of the
      lookup is unbound. Every CAS# input ends in the generic error. */
  lemma CasInputUnbound(s: Services, post: Request)
    requires s.chemicalType(Get(post, "chemical")).Success?
    requires Subscript(s.chemicalType(Get(post, "chemical")).value, "type") == Success(Str("CAS#"))
    ensures Identify(s, Get(post, "chemical"), AsWritten) == Failure(NameError("chem_id"))
    ensures EditorEnvelope(s, post, AsWritten) == Failed(NameError("chem_id"))
  {
  }

  /** As intended, a CAS# input is looked up in the registry by the CAS number
      itself, and the registry's answer is all the view gathers. */
  lemma CasInputLookedUp(s: Services, chemical: Value)
    requires s.chemicalType(chemical).Success?
    requires Subscript(s.chemicalType(chemical).value, "type") == Success(Str("CAS#"))
    requires s.dsstox(chemical, "CAS#").Success? && s.dsstox(chemical, "CAS#").value.Obj?
    ensures Identify(s, chemical, Intended)
         == Success(Identified(Str("CAS#"), Null, Null, s.dsstox(chemical, "CAS#").value.fields,
                               [TypeQuery(chemical), RegistryQuery(chemical, "CAS#")]))
  {
    var m: map<string, Value> := map[];
    assert Str("CAS#") != Str("mrv") && Str("CAS#") != Str("name") && Str("CAS#") != Str("smiles");
    assert !IdentityGate(Str("CAS#"), Null);
    assert m + s.dsstox(chemical, "CAS#").value.fields == s.dsstox(chemical, "CAS#").value.fields;
    assert [TypeQuery(chemical)] + [] + [] + [RegistryQuery(chemical, "CAS#")]
        == [TypeQuery(chemical), RegistryQuery(chemical, "CAS#")];
  }

  // ---------------------------------------------------------------------
  // The record and the envelope.

  /** A successful Prepare identifies the raw input and picks its SMILES. */
  lemma PrepareIdentifies(s: Services, post: Request, rule: CasRule)
    requires Prepare(s, post, rule).Success?
    ensures var p := Prepare(s, post, rule).value;
            && Identify(s, Get(post, "chemical"), rule) == Success(p.ident)
            && OrigSmilesFor(s, Get(post, "chemical"), p.ident.kind, p.ident.actor) == Success(p.orig)
  {
  }

  /** A successful Prepare filters the SMILES it picked. */
  lemma PrepareFilters(s: Services, post: Request, rule: CasRule)
    requires Prepare(s, post, rule).Success?
    ensures var p := Prepare(s, post, rule).value;
            CtsRestModel.Filtered(s.filterSmiles, p.orig) == Success(p.filtered)
  {
  }

  /** A successful Prepare holds the dictionary createMolecule returns for the
      details of the filtered SMILES. */
  lemma PrepareBuilds(s: Services, post: Request, rule: CasRule)
    requires Prepare(s, post, rule).Success?
    ensures var p := Prepare(s, post, rule).value;
            && s.chemDetails(Obj(map["chemical" := p.filtered])).Success?
            && var c := Created(MoleculeAttrs, Get(post, "chemical"), p.orig, s.chemDetails(Obj(map["chemical" := p.filtered])).value,
                                Get(post, "get_structure_data"), InitialAttrs());
               c.1.Success? && p.molecule == AsDict(c.1.value)
  {
  }

  /** The steps of Finish, when it succeeds: the merged record, with the two
      images added for a tree node. */
  lemma FinishSteps(s: Services, post: Request, p: Prepared)
    requires Finish(s, post, p).Success?
    ensures RegistryData(p.ident.actor).Success?
    ensures var merged := Merged(p.molecule, RegistryData(p.ident.actor).value);
            var r := Finish(s, post, p).value;
            && r.Keys == merged.Keys + (if Truthy(Get(post, "is_node")) then {"node_image", "popup_image"} else {})
            && (forall k :: k in merged && k != "node_image" && k != "popup_image" ==> r[k] == merged[k])
            && (Truthy(Get(post, "is_node")) ==>
                  s.nodeImage(p.filtered).Success? && r["node_image"] == s.nodeImage(p.filtered).value
                  && s.popupImage(p.filtered, Get(post, "id")).Success?
                  && r["popup_image"] == s.popupImage(p.filtered, Get(post, "id")).value)
  {
  }

  /** The molecule a successful Prepare holds has createMolecule's entries
      `chemical` (the raw input) and `orig_smiles` (the chosen SMILES). */
  lemma PreparedMolecule(s: Services, post: Request, rule: CasRule, p: Prepared)
    requires Prepare(s, post, rule) == Success(p)
    ensures "chemical" in p.molecule && p.molecule["chemical"] == Get(post, "chemical")
    ensures "orig_smiles" in p.molecule && p.molecule["orig_smiles"] == p.orig
  {
    PrepareBuilds(s, post, rule);
    CreatedDict(Get(post, "chemical"), p.orig, s.chemDetails(Obj(map["chemical" := p.filtered])).value,
                Get(post, "get_structure_data"));
  }

  /** The view's try body is Prepare followed by Finish. */
  lemma EditorDataSplit(s: Services, post: Request, rule: CasRule)
    ensures EditorData(s, post, rule).Success? <==>
              Prepare(s, post, rule).Success? && Finish(s, post, Prepare(s, post, rule).value).Success?
    ensures EditorData(s, post, rule).Success? ==>
              EditorData(s, post, rule).value == Finish(s, post, Prepare(s, post, rule).value).value
  {
  }

  /** For a record the view returns (prepared as `p`, finished as `r`): the
      SMILES filtered is chosen by precedence (the input for a SMILES, else
      the registry's SMILES, else ChemAxon's conversion), the filtered SMILES
      is the filter's last result, and the record's `orig_smiles` and
      `chemical` are the chosen SMILES and the raw input unless the registry
      data overrides them. */
  lemma EditorOrigSmiles(s: Services, post: Request, rule: CasRule, p: Prepared, r: map<string, Value>)
    requires Prepare(s, post, rule) == Success(p)
    requires Finish(s, post, p) == Success(r)
    ensures p.ident.kind == Str("smiles") ==> p.orig == Get(post, "chemical")
    ensures p.ident.kind != Str("smiles") && "smiles" in p.ident.actor ==> p.orig == p.ident.actor["smiles"]
    ensures p.ident.kind != Str("smiles") && "smiles" !in p.ident.actor ==>
              s.convertToSmiles(ConversionRequest(Get(post, "chemical"))).Success?
              && DictGet(s.convertToSmiles(ConversionRequest(Get(post, "chemical"))).value, "structure") == Success(p.orig)
    ensures CtsRestModel.Filtered(s.filterSmiles, p.orig) == Success(p.filtered)
    ensures RegistryData(p.ident.actor).Success?
    ensures "orig_smiles" in r && "chemical" in r
    ensures var data := RegistryData(p.ident.actor).value;
            && r["orig_smiles"] == (if "orig_smiles" in data then data["orig_smiles"] else p.orig)
            && r["chemical"] == (if "chemical" in data then data["chemical"] else Get(post, "chemical"))
  {
    PrepareIdentifies(s, post, rule);
    PrepareFilters(s, post, rule);
    PreparedMolecule(s, post, rule, p);
    FinishSteps(s, post, p);
    MergedEntries(p.molecule, RegistryData(p.ident.actor).value);
  }

  /** For a record the view returns, every `(key, val)` of the registry's
      `data` is in it, `casrn` under `cas`, except where a tree node's images
      take the key. */
  lemma SuccessCarriesRegistryData(s: Services, post: Request, rule: CasRule, p: Prepared, r: map<string, Value>)
    requires Prepare(s, post, rule) == Success(p)
    requires Finish(s, post, p) == Success(r)
    ensures RegistryData(p.ident.actor).Success?
    ensures var data := RegistryData(p.ident.actor).value;
            var image := Truthy(Get(post, "is_node"));
            && (forall k ::
                  (k in data && k != "casrn" && !(k == "cas" && "casrn" in data)
                   && !(image && (k == "node_image" || k == "popup_image"))) ==> k in r && r[k] == data[k])
            && ("casrn" in data ==> "cas" in r && r["cas"] == data["casrn"])
  {
    FinishSteps(s, post, p);
    MergedEntries(p.molecule, RegistryData(p.ident.actor).value);
  }

  /** Without registry `data` the view answers with the validation error,
      whatever else succeeded. */
  lemma MissingRegistryDataIsInvalid(s: Services, post: Request, rule: CasRule)
    requires Prepare(s, post, rule).Success?
    requires "data" !in Prepare(s, post, rule).value.ident.actor
    ensures EditorEnvelope(s, post, rule) == Invalid(Get(post, "chemical"))
  {
  }

  /** In particular, an input that reaches no registry lookup (no gsid and not
      a CAS#) is reported as invalid. */
  lemma NoRegistryLookupIsInvalid(s: Services, post: Request, rule: CasRule)
    requires Prepare(s, post, rule).Success?
    requires !RegistryGate(Prepare(s, post, rule).value.ident.kind, Prepare(s, post, rule).value.ident.gsid)
    ensures EditorEnvelope(s, post, rule) == Invalid(Get(post, "chemical"))
  {
    PrepareIdentifies(s, post, rule);
    RegistryLookupGate(s, Get(post, "chemical"), rule);
    MissingRegistryDataIsInvalid(s, post, rule);
  }

  /** The document sent back: `status` True with the record and the request
      on success; `status` False with the validation message and the chemical
      for a KeyError; for any other exception no JSON document can be made. */
  lemma ReplyStatus(s: Services, post: Request, rule: CasRule)
    ensures var reply := Reply(EditorEnvelope(s, post, rule));
            var d := EditorData(s, post, rule);
            && (d.Success? ==>
                  reply == Some(Obj(map["status" := Bool(true), "data" := Obj(d.value), "request_post" := RequestJson(post)])))
            && (d.Failure? && d.error.KeyError? ==>
                  reply == Some(Obj(map["status" := Bool(false), "error" := Str("Error validating chemical"),
                                        "chemical" := Get(post, "chemical")])))
            && (reply.None? <==> d.Failure? && !d.error.KeyError?)
  {
  }

  // ---------------------------------------------------------------------
  // The view, statement by statement.

  /** Steps 1 and 2 as the view runs them, building `_actor_results` entry by
      entry; the calls are recorded as they are made. Under `AsWritten` the key
      `chem_id` is bound only when there is a gsid; under `Intended` it starts
      as the CAS number. */
  method IdentifyChemical(s: Services, chemical: Value, rule: CasRule) returns (r: Result<Identified>)
    ensures r == Identify(s, chemical, rule)
  {
    var chemType := s.chemicalType(chemical);
    if chemType.Failure? {
      return Failure(chemType.error);
    }
    var kind := Subscript(chemType.value, "type");
    if kind.Failure? {
      return Failure(kind.error);
    }
    var calls := [TypeQuery(chemical)];
    var gsid := Null;
    var jchemSmiles := Null;
    var nameOrSmiles := kind.value == Str("name") || kind.value == Str("smiles");
    var actorResults: map<string, Value> := map[];
    if kind.value == Str("mrv") {
      calls := calls + [Conversion(ConversionRequest(chemical))];
      var response := s.convertToSmiles(ConversionRequest(chemical));
      if response.Failure? {
        return Failure(response.error);
      }
      var structure := Subscript(response.value, "structure");
      if structure.Failure? {
        return Failure(structure.error);
      }
      jchemSmiles := structure.value;
    }
    if nameOrSmiles || Truthy(jchemSmiles) {
      calls := calls + [IdentityQuery(chemical)];
      var chemidResults := s.chemId(chemical);
      if chemidResults.Failure? {
        return Failure(chemidResults.error);
      }
      var data := Subscript(chemidResults.value, "data");
      if data.Failure? {
        return Failure(data.error);
      }
      var g := Subscript(data.value, "gsid");
      if g.Failure? {
        return Failure(g.error);
      }
      gsid := g.value;
      actorResults := actorResults["gsid" := gsid];
    }
    assert calls == [TypeQuery(chemical)]
                    + (if kind.value == Str("mrv") then [Conversion(ConversionRequest(chemical))] else [])
                    + (if IdentityGate(kind.value, jchemSmiles) then [IdentityQuery(chemical)] else []);
    if Truthy(gsid) || kind.value == Str("CAS#") {
      var chemId: Option<Value> := if rule == Intended then Some(chemical) else None;
      var idType := "CAS#";
      if Truthy(gsid) {
        chemId := Some(gsid);
        idType := "gsid";
      }
      if chemId.None? {
        return Failure(NameError("chem_id"));
      }
      calls := calls + [RegistryQuery(chemId.value, idType)];
      var dsstoxResults := s.dsstox(chemId.value, idType);
      if dsstoxResults.Failure? {
        return Failure(dsstoxResults.error);
      }
      if !dsstoxResults.value.Obj? {
        return Failure(TypeError);
      }
      actorResults := actorResults + dsstoxResults.value.fields;
    }
    return Success(Identified(kind.value, jchemSmiles, gsid, actorResults, calls));
  }

  /** The view up to createMolecule, under either CAS# rule. */
  method PrepareChemical(post: Request, s: Services, rule: CasRule) returns (r: Result<Prepared>)
    ensures r == Prepare(s, post, rule)
  {
    var chemical := Get(post, "chemical");
    var getSd := Get(post, "get_structure_data");
    var ident := IdentifyChemical(s, chemical, rule);
    if ident.Failure? {
      return Failure(ident.error);
    }
    var actorResults := ident.value.actor;
    var origSmiles := Null;
    if ident.value.kind == Str("smiles") {
      origSmiles := chemical;
    } else if "smiles" in actorResults {
      origSmiles := actorResults["smiles"];
    } else {
      var response := s.convertToSmiles(ConversionRequest(chemical));
      if response.Failure? {
        return Failure(response.error);
      }
      var structure := DictGet(response.value, "structure");
      if structure.Failure? {
        return Failure(structure.error);
      }
      origSmiles := structure.value;
    }
    var filtered := CtsRestModel.Filtered(s.filterSmiles, origSmiles);
    if filtered.Failure? {
      return Failure(filtered.error);
    }
    var details := s.chemDetails(Obj(map["chemical" := filtered.value]));
    if details.Failure? {
      return Failure(details.error);
    }
    var molecule := new Molecule();
    var created := molecule.CreateMolecule(chemical, origSmiles, details.value, getSd);
    if created.Failure? {
      return Failure(created.error);
    }
    return Success(Prepared(ident.value, origSmiles, filtered.value, AsDict(created.value)));
  }

  /** The body of the view's `try`, under either CAS# rule: the registry data
      merged over the molecule, and a tree node's images. */
  method ResolveChemical(post: Request, s: Services, rule: CasRule) returns (r: Result<map<string, Value>>)
    ensures r == EditorData(s, post, rule)
  {
    var prepared := PrepareChemical(post, s, rule);
    if prepared.Failure? {
      return Failure(prepared.error);
    }
    var p := prepared.value;
    var actorResults := p.ident.actor;
    if "data" !in actorResults {
      return Failure(KeyError("data"));
    }
    var data := actorResults["data"];
    if !data.Obj? {
      return Failure(AttributeError);
    }
    var moleculeObj := MergeRegistry(p.molecule, data.fields);
    if Truthy(Get(post, "is_node")) {
      var node := s.nodeImage(p.filtered);
      if node.Failure? {
        return Failure(node.error);
      }
      var popup := s.popupImage(p.filtered, Get(post, "id"));
      if popup.Failure? {
        return Failure(popup.error);
      }
      moleculeObj := moleculeObj["node_image" := node.value];
      moleculeObj := moleculeObj["popup_image" := popup.value];
    }
    return Success(moleculeObj);
  }

  /** getChemicalEditorData: the view's answer, a KeyError anywhere giving the
      validation error and any other exception the generic one. `AsWritten`
      runs the code as it stands, `Intended` the corrected CAS# lookup. */
  method GetChemicalEditorData(post: Request, s: Services, rule: CasRule) returns (env: Envelope)
    ensures env == EditorEnvelope(s, post, rule)
  {
    var r := ResolveChemical(post, s, rule);
    match r
    case Success(d) =>
      env := Resolved(d, RequestJson(post));
    case Failure(e) =>
      if e.KeyError? {
        env := Invalid(Get(post, "chemical"));
      } else {
        env := Failed(e);
      }
  }
}
