/** The CTS REST layer (class CTS_REST of cts_rest.py): which calculator
    adapter a name selects, the inputs and links a calculator advertises, and
    runCalc, which shapes a request, hands it to a backend and wraps the
    answer in the layer's metadata. */
module CtsRestModel {
  import opened PyValues
  import opened CalcLinks
  import opened Measured

  /** The REST adapter classes getCalcObject can return. */
  datatype Adapter = Cts | Chemaxon | Epi | Test | Sparc | MeasuredRest | Metabolizer

  /** `getCalcObject(name)`: the adapter for a calculator name, None for others.
      `test` and `testws` share the TEST adapter. */
  function CalcObject(name: string): Option<Adapter> {
    if name == "cts" then Some(Cts)
    else if name == "chemaxon" then Some(Chemaxon)
    else if name == "epi" then Some(Epi)
    else if name == "test" then Some(Test)
    else if name == "testws" then Some(Test)
    else if name == "sparc" then Some(Sparc)
    else if name == "measured" then Some(MeasuredRest)
    else if name == "metabolizer" then Some(Metabolizer)
    else None
  }

  /** The canonical name of each adapter. */
  function AdapterName(a: Adapter): string {
    match a
    case Cts => "cts"
    case Chemaxon => "chemaxon"
    case Epi => "epi"
    case Test => "test"
    case Sparc => "sparc"
    case MeasuredRest => "measured"
    case Metabolizer => "metabolizer"
  }

  /** The names getCalcObject knows. */
  const AdapterNames: seq<string> := ["cts", "chemaxon", "epi", "test", "testws", "sparc", "measured", "metabolizer"]

  /** getCalcObject finds an adapter exactly for the names it knows, finds
      every adapter under its canonical name, and gives `testws` the adapter
      of `test`. */
  lemma CalcObjectNames(name: string, a: Adapter)
    ensures CalcObject(name).Some? <==> name in AdapterNames
    ensures CalcObject(AdapterName(a)) == Some(a)
    ensures CalcObject("testws") == CalcObject("test") == Some(Test)
  {
  }

  /** The calculators with a pchem REST endpoint (`self.calcs`). */
  const Calcs: seq<string> := ["chemaxon", "epi", "test", "sparc", "measured"]

  /** The inputs of a pchem calculator (`self.pchem_inputs`, which
      getCalcInputs does not read; its dict has the same keys). */
  const PchemInputs: seq<string> := ["chemical", "calc", "prop", "run_type"]

  /** The inputs of the metabolizer (`self.metabolizer_inputs`, which
      getCalcInputs does not read; the adapter's `inputs` have the same keys). */
  const MetabolizerInputs: seq<string> := ["structure", "generationLimit", "transformationLibraries"]

  /** Every pchem calculator has an adapter; the metabolizer and `testws`
      have no pchem endpoint; no calculator name has a brace. */
  lemma CalcsFacts()
    ensures forall c :: c in Calcs ==> CalcObject(c).Some? && NoBraces(c)
    ensures "metabolizer" !in Calcs && "testws" !in Calcs && "cts" !in Calcs
  {
    assert NoBraces("chemaxon") && NoBraces("epi") && NoBraces("test");
    assert NoBraces("sparc") && NoBraces("measured");
  }

  /** The default inputs of the metabolizer adapter (`Metabolizer_CTS_REST.inputs`). */
  function MetabolizerDefaults(): Value {
    Obj(map["structure" := Str(""), "generationLimit" := Num(1),
            "transformationLibraries" := Arr([Str("hydrolysis"), Str("abiotic_reduction"), Str("human_biotransformation")])])
  }

  /** getCalcInputs: the adapter's metadata (from `adapterMeta`, the adapters'
      static tables), and the inputs a calculator takes. An unknown name has no
      adapter, whose `meta_info` raises AttributeError. */
  function CalcInputs(adapterMeta: Adapter -> Value, chemical: Value, name: string, prop: Value): Result<Value> {
    match CalcObject(name)
    case None => Failure(AttributeError)
    case Some(a) =>
      var response := map["metaInfo" := adapterMeta(a)];
      if name in Calcs then Success(Obj(response["inputs" := Obj(PchemInputsFor(chemical, name, prop))]))
      else if name == "metabolizer" then Success(Obj(response["inputs" := MetabolizerDefaults()]))
      else Success(Obj(response))
  }

  /** The fresh inputs dict getCalcInputs builds for a pchem calculator. */
  function PchemInputsFor(chemical: Value, name: string, prop: Value): map<string, Value> {
    map["chemical" := chemical, "prop" := prop, "calc" := Str(name), "run_type" := Str("rest")]
  }

  /** The pchem inputs dict has the keys of `pchem_inputs`. */
  lemma PchemInputsKeys(chemical: Value, name: string, prop: Value)
    ensures PchemInputsFor(chemical, name, prop).Keys == set k | k in PchemInputs
  {
    assert (set k | k in PchemInputs) == {"chemical", "calc", "prop", "run_type"};
  }

  /** The metabolizer's default inputs have the keys of `metabolizer_inputs`. */
  lemma MetabolizerDefaultsKeys()
    ensures MetabolizerDefaults().Obj? && MetabolizerDefaults().fields.Keys == set k | k in MetabolizerInputs
  {
    assert (set k | k in MetabolizerInputs) == {"structure", "generationLimit", "transformationLibraries"};
  }

  /** The inputs getCalcInputs advertises: for a pchem calculator a fresh dict
      of the request's chemical and prop, the name and run type "rest"; for the
      metabolizer the adapter's default inputs; for `cts` and `testws` none.
      Unknown names fail. */
  lemma CalcInputsShape(adapterMeta: Adapter -> Value, chemical: Value, name: string, prop: Value)
    ensures CalcInputs(adapterMeta, chemical, name, prop).Success? <==> CalcObject(name).Some?
    ensures var r := CalcInputs(adapterMeta, chemical, name, prop);
            r.Success? ==> r.value.Obj? && "metaInfo" in r.value.fields
                           && r.value.fields["metaInfo"] == adapterMeta(CalcObject(name).value)
    ensures var r := CalcInputs(adapterMeta, chemical, name, prop);
            r.Success? && name in Calcs ==>
              && "inputs" in r.value.fields && r.value.fields["inputs"].Obj?
              && var inputs := r.value.fields["inputs"].fields;
              && "chemical" in inputs && inputs["chemical"] == chemical
              && "prop" in inputs && inputs["prop"] == prop
              && "calc" in inputs && inputs["calc"] == Str(name)
              && "run_type" in inputs && inputs["run_type"] == Str("rest")
              && inputs.Keys == set k | k in PchemInputs
    ensures var r := CalcInputs(adapterMeta, chemical, name, prop);
            r.Success? && name == "metabolizer" ==>
              && "inputs" in r.value.fields && r.value.fields["inputs"].Obj?
              && r.value.fields["inputs"].fields.Keys == set k | k in MetabolizerInputs
              && r.value.fields["inputs"] == MetabolizerDefaults()
    ensures var r := CalcInputs(adapterMeta, chemical, name, prop);
            r.Success? && (name == "cts" || name == "testws") ==> "inputs" !in r.value.fields
  {
    CalcsFacts();
    PchemInputsKeys(chemical, name, prop);
    MetabolizerDefaultsKeys();
  }

  /** The metabolizer request runCalc builds from the request's structure,
      generation limit and transformation libraries; `len` of the libraries
      raises TypeError unless they are a string, list or dict. */
  function MetabolizerRequest(structure: Value, genLimit: Value, libs: Value): Result<map<string, Value>> {
    var request := map["structure" := structure, "generationLimit" := genLimit, "populationLimit" := Num(0),
                       "likelyLimit" := Real(0.001), "excludeCondition" := Str("")];
    var n :- PyLen(libs);
    if n > 0 then
      var human :- PyIn("human_biotransformation", libs);
      if !human then Success(request["transformationLibraries" := libs]) else Success(request)
    else Success(request)
  }

  /** The metabolizer request always has population limit 0, likely limit
      0.001 and an empty exclude condition, passes structure and generation
      limit through, and has the libraries exactly when they are non-empty and
      do not name human biotransformation. */
  lemma MetabolizerRequestShape(structure: Value, genLimit: Value, libs: Value)
    ensures MetabolizerRequest(structure, genLimit, libs).Success? <==> PyLen(libs).Success?
    ensures var r := MetabolizerRequest(structure, genLimit, libs);
            r.Success? ==>
              && "populationLimit" in r.value && r.value["populationLimit"] == Num(0)
              && "likelyLimit" in r.value && r.value["likelyLimit"] == Real(0.001)
              && "excludeCondition" in r.value && r.value["excludeCondition"] == Str("")
              && "structure" in r.value && r.value["structure"] == structure
              && "generationLimit" in r.value && r.value["generationLimit"] == genLimit
    ensures var r := MetabolizerRequest(structure, genLimit, libs);
            r.Success? ==>
              ("transformationLibraries" in r.value
               <==> PyLen(libs).value > 0 && !PyIn("human_biotransformation", libs).value)
    ensures var r := MetabolizerRequest(structure, genLimit, libs);
            r.Success? && "transformationLibraries" in r.value ==> r.value["transformationLibraries"] == libs
  {
  }

  /** The pchem backends runCalc can call. */
  datatype PchemBackend = JchemCalc | EpiCalc | TestCalc | TestWSCalc | SparcCalc | MeasuredCalc

  function BackendFor(name: string): Option<PchemBackend> {
    if name == "chemaxon" then Some(JchemCalc)
    else if name == "epi" then Some(EpiCalc)
    else if name == "test" then Some(TestCalc)
    else if name == "testws" then Some(TestWSCalc)
    else if name == "sparc" then Some(SparcCalc)
    else if name == "measured" then Some(MeasuredCalc)
    else None
  }

  /** The collaborators runCalc calls, as their outcomes: a value, or the
      exception they raise. */
  datatype Backends = Backends(
    filterSmiles: Value -> Result<Value>,                  // smilesfilter.filterSMILES
    dataRequest: (PchemBackend, Request) -> Result<Value>, // <Backend>().data_request_handler
    propMap: map<string, Value>,                           // MeasuredCalc().propMap
    transProducts: map<string, Value> -> Result<Value>,    // MetabolizerCalc().getTransProducts
    progenyTree: (Value, int) -> Result<Value>,            // json.loads(MetabolizerCalc().recursive(...))
    chemspec: Request -> Result<Value>)                    // chemspecOutputPage(...).run_data

  /** `smilesfilter.filterSMILES(s)['results'][-1]`. */
  function Filtered(filter: Value -> Result<Value>, s: Value): Result<Value> {
    var response :- filter(s);
    var results :- Subscript(response, "results");
    Last(results)
  }

  /** A filter failure never comes from the subscripts, only from the filter. */
  lemma FilteredAttributeError(filter: Value -> Result<Value>, s: Value)
    ensures Filtered(filter, s) == Failure(AttributeError) ==> filter(s) == Failure(AttributeError)
  {
  }

  /** `dict(query_dict)` with every list replaced by its first element; an
      empty list raises IndexError. */
  function Unwrapped(lists: map<string, seq<string>>): Result<map<string, Value>> {
    if exists k :: k in lists && |lists[k]| == 0 then Failure(IndexError)
    else Success(map k | k in lists :: Str(lists[k][0]))
  }

  /** The request the pchem backend receives. When filtering succeeds, the
      filtered SMILES replaces `chemical` and the input is kept as
      `orig_smiles`; an immutable QueryDict refuses the update
      (AttributeError) and is first copied to a dict of single values. When
      the filter raises AttributeError the handler reaches `_filtered_smiles`
      unbound; any other exception skips the filter. */
  function ShapePchemRequest(req: Request, filter: Value -> Result<Value>): Result<Request> {
    var orig := Get(req, "chemical");
    match Filtered(filter, orig)
    case Failure(e) => if e == AttributeError then Failure(NameError("_filtered_smiles")) else Success(req)
    case Success(filtered) =>
      match req
      case PyDict(m) => Success(PyDict(m["orig_smiles" := orig]["chemical" := filtered]))
      case FrozenQueryDict(lists) =>
        var m :- Unwrapped(lists);
        Success(PyDict(m["orig_smiles" := orig]["chemical" := filtered]))
  }

  /** Filter substitution: on success, `chemical` is the last filter result
      and `orig_smiles` the request's chemical, every other key keeps its value
      (the first of a QueryDict list); on an exception other than
      AttributeError the request goes on unchanged. */
  lemma FilterSubstitution(req: Request, filter: Value -> Result<Value>)
    ensures var f := Filtered(filter, Get(req, "chemical"));
            var r := ShapePchemRequest(req, filter);
            f.Success? && r.Success? ==>
              && r.value.PyDict?
              && "chemical" in r.value.entries && r.value.entries["chemical"] == f.value
              && "orig_smiles" in r.value.entries && r.value.entries["orig_smiles"] == Get(req, "chemical")
    ensures var f := Filtered(filter, Get(req, "chemical"));
            f.Success? && req.PyDict? ==>
              ShapePchemRequest(req, filter).Success?
              && forall k :: k in req.entries && k != "chemical" && k != "orig_smiles" ==>
                   k in ShapePchemRequest(req, filter).value.entries
                   && ShapePchemRequest(req, filter).value.entries[k] == req.entries[k]
    ensures var f := Filtered(filter, Get(req, "chemical"));
            f.Success? && req.FrozenQueryDict? ==>
              (ShapePchemRequest(req, filter).Success? <==> forall k :: k in req.lists ==> |req.lists[k]| > 0)
    ensures var f := Filtered(filter, Get(req, "chemical"));
            var r := ShapePchemRequest(req, filter);
            f.Success? && req.FrozenQueryDict? && r.Success? ==>
              forall k :: k in req.lists && k != "chemical" && k != "orig_smiles" ==>
                k in r.value.entries && r.value.entries[k] == Str(req.lists[k][0])
    ensures var f := Filtered(filter, Get(req, "chemical"));
            f.Failure? && f.error != AttributeError ==> ShapePchemRequest(req, filter) == Success(req)
    ensures var f := Filtered(filter, Get(req, "chemical"));
            f == Failure(AttributeError) ==> ShapePchemRequest(req, filter).Failure?
  {
  }

  /** Replaces every list of a QueryDict copy by its first element, key by
      key, as the AttributeError handler of runCalc does. */
  method UnwrapQueryDict(lists: map<string, seq<string>>) returns (r: Result<map<string, Value>>)
    ensures r == Unwrapped(lists)
  {
    var remaining := lists.Keys;
    var done: map<string, Value> := map[];
    while remaining != {}
      invariant remaining <= lists.Keys
      invariant done.Keys == lists.Keys - remaining
      invariant forall k :: k in done ==> |lists[k]| > 0 && done[k] == Str(lists[k][0])
      decreases remaining
    {
      var k :| k in remaining;
      if |lists[k]| == 0 {
        return Failure(IndexError);
      }
      done := done[k := Str(lists[k][0])];
      remaining := remaining - {k};
    }
    assert done == map k | k in lists :: Str(lists[k][0]);
    r := Success(done);
  }

  /** The metabolizer branch: the products of the request, then the progeny
      tree to `int(generationLimit)` generations. A backend failure is
      re-raised before the generation limit is converted. */
  function Metabolize(req: Request, b: Backends): Result<Value> {
    var genLimit := Get(req, "generationLimit");
    var request :- MetabolizerRequest(Get(req, "structure"), genLimit, Get(req, "transformationLibraries"));
    var products :- b.transProducts(request);
    var n :- PyInt(genLimit);
    b.progenyTree(products, n)
  }

  /** The order of the metabolizer branch: the products call comes before the
      conversion of the generation limit, whose failure comes before the tree. */
  lemma MetabolizeOrder(req: Request, b: Backends)
    requires MetabolizerRequest(Get(req, "structure"), Get(req, "generationLimit"), Get(req, "transformationLibraries")).Success?
    ensures var request := MetabolizerRequest(Get(req, "structure"), Get(req, "generationLimit"),
                                              Get(req, "transformationLibraries")).value;
            && (b.transProducts(request).Failure? ==> Metabolize(req, b) == Failure(b.transProducts(request).error))
            && (b.transProducts(request).Success? && PyInt(Get(req, "generationLimit")).Failure? ==>
                  Metabolize(req, b) == Failure(PyInt(Get(req, "generationLimit")).error))
            && (b.transProducts(request).Success? && PyInt(Get(req, "generationLimit")).Success? ==>
                  Metabolize(req, b)
                  == b.progenyTree(b.transProducts(request).value, PyInt(Get(req, "generationLimit")).value))
  {
  }

  /** The pchem payload: the shaped request handed to the calculator's
      backend, an empty dict for names without one, and for measured data
      only the requested property. */
  function PchemData(name: string, req: Request, b: Backends): Result<Value> {
    var shaped :- ShapePchemRequest(req, b.filterSmiles);
    match BackendFor(name)
    case None => Success(Obj(map[]))
    case Some(backend) =>
      var data :- b.dataRequest(backend, shaped);
      if backend == MeasuredCalc then MeasuredSelection(data, shaped, b.propMap) else Success(data)
  }

  /** A name without a pchem backend gets an empty payload once the request
      is shaped; a pchem calculator other than measured gets its backend's
      answer as it is. */
  lemma PchemDataDispatch(name: string, req: Request, b: Backends)
    requires ShapePchemRequest(req, b.filterSmiles).Success?
    ensures BackendFor(name).None? ==> PchemData(name, req, b) == Success(Obj(map[]))
    ensures name in Calcs && name != "measured" ==>
              PchemData(name, req, b) == b.dataRequest(BackendFor(name).value, ShapePchemRequest(req, b.filterSmiles).value)
    ensures name == "testws" ==> BackendFor(name) == Some(TestWSCalc) && CalcObject(name) == Some(Test)
  {
  }

  /** The speciation request: `chemical` replaced by the last filter result;
      an immutable QueryDict refuses the assignment. */
  function SpeciationRequest(req: Request, filter: Value -> Result<Value>): Result<Request> {
    var filtered :- Filtered(filter, Get(req, "chemical"));
    match req
    case PyDict(m) => Success(PyDict(m["chemical" := filtered]))
    case FrozenQueryDict(_) => Failure(AttributeError)
  }

  /** getChemicalSpeciationData: the chemspec model's data in a `status: True`
      envelope, or a text error when anything raises. */
  function Speciation(req: Request, b: Backends): Body {
    var data := SpeciationRequest(req, b.filterSmiles);
    if data.Failure? then TextBody("Error getting speciation data")
    else
      match b.chemspec(data.value)
      case Failure(_) => TextBody("Error getting speciation data")
      case Success(d) => JsonBody(Obj(map["status" := Bool(true), "data" := d]))
  }

  /** Speciation runs on the filtered SMILES: a JSON answer carries the
      chemspec data of a request whose `chemical` is the last filter result;
      a failure anywhere gives the text error. */
  lemma SpeciationFiltersFirst(req: Request, b: Backends)
    ensures Speciation(req, b).JsonBody? <==>
              SpeciationRequest(req, b.filterSmiles).Success? && b.chemspec(SpeciationRequest(req, b.filterSmiles).value).Success?
    ensures Speciation(req, b).JsonBody? ==>
              var shaped := SpeciationRequest(req, b.filterSmiles).value;
              && shaped.PyDict? && "chemical" in shaped.entries
              && Filtered(b.filterSmiles, Get(req, "chemical")) == Success(shaped.entries["chemical"])
              && Speciation(req, b).json == Obj(map["status" := Bool(true), "data" := b.chemspec(shaped).value])
    ensures Speciation(req, b).TextBody? ==> Speciation(req, b).text == "Error getting speciation data"
  {
  }

  /** runCalc: the metadata dict afterwards (the response is the metadata dict
      itself, so the payload is stored into it), and the response or the
      exception raised. */
  function RunCalcSpec(meta: map<string, Value>, name: string, req: Request, b: Backends)
    : (map<string, Value>, Result<Body>)
  {
    if name == "metabolizer" then
      match Metabolize(req, b)
      case Failure(e) => (meta, Failure(e))
      case Success(tree) => (meta["data" := tree], Success(JsonBody(Obj(meta["data" := tree]))))
    else if name == "speciation" then (meta, Success(Speciation(req, b)))
    else
      match PchemData(name, req, b)
      case Failure(e) => (meta, Failure(e))
      case Success(p) => (meta["data" := p], Success(JsonBody(Obj(meta["data" := p]))))
  }

  /** The response of runCalc is the metadata with the payload under `data`,
      and is kept as the object's metadata; a raised exception or the
      speciation branch leaves the metadata as it was. */
  lemma RunCalcAliasesMeta(meta: map<string, Value>, name: string, req: Request, b: Backends)
    ensures var s := RunCalcSpec(meta, name, req, b);
            s.1.Success? && name != "speciation" ==>
              && "data" in s.0 && s.0 == meta["data" := s.0["data"]]
              && s.1.value == JsonBody(Obj(s.0))
    ensures var s := RunCalcSpec(meta, name, req, b);
            s.1.Failure? || name == "speciation" ==> s.0 == meta
    ensures var s := RunCalcSpec(meta, name, req, b);
            name == "metabolizer" && s.1.Success? ==> Success(s.0["data"]) == Metabolize(req, b)
    ensures var s := RunCalcSpec(meta, name, req, b);
            name != "metabolizer" && name != "speciation" && s.1.Success? ==> Success(s.0["data"]) == PchemData(name, req, b)
  {
  }

  /** A CTS_REST object: its metadata (`meta_info`, which the static tables
      fill in) and its calculator links. */
  class CtsRest {
    var metaInfo: map<string, Value>
    var calcLinks: seq<Link>

    constructor (meta: map<string, Value>)
      ensures metaInfo == meta && calcLinks == CalcLinkTemplates()
    {
      metaInfo := meta;
      calcLinks := CalcLinkTemplates();
    }

    /** getCalcLinks: formats every href of the object's own links with the
        calculator's name, in place, and returns the links; names without a
        pchem endpoint get None. */
    method GetCalcLinks(name: string) returns (r: Result<Option<seq<Link>>>)
      modifies this
      ensures metaInfo == old(metaInfo)
      ensures name !in Calcs ==> r == Success(None) && calcLinks == old(calcLinks)
      ensures name in Calcs ==>
                var f := FormatLinks(old(calcLinks), name);
                calcLinks == f.0 && r == (if f.1.Some? then Failure(f.1.value) else Success(Some(f.0)))
    {
      if name !in Calcs {
        return Success(None);
      }
      var links, err := RewriteHrefs(calcLinks, name);
      calcLinks := links;
      if err.Some? {
        return Failure(err.value);
      }
      r := Success(Some(links));
    }

    /** runCalc: dispatches on the calculator name and stores the payload
        into the object's metadata, which it returns as the response. */
    method RunCalc(name: string, req: Request, b: Backends) returns (r: Result<Body>)
      modifies this
      ensures (metaInfo, r) == RunCalcSpec(old(metaInfo), name, req, b)
      ensures calcLinks == old(calcLinks)
    {
      if name == "metabolizer" {
        var tree := RunMetabolizer(req, b);
        if tree.Failure? {
          return Failure(tree.error);
        }
        metaInfo := metaInfo["data" := tree.value];
      } else if name == "speciation" {
        return Success(Speciation(req, b));
      } else {
        var shaped := ShapeRequest(req, b.filterSmiles);
        if shaped.Failure? {
          return Failure(shaped.error);
        }
        var pchem: Value := Obj(map[]);
        var backend := BackendFor(name);
        if backend.Some? {
          var data := b.dataRequest(backend.value, shaped.value);
          if data.Failure? {
            return Failure(data.error);
          }
          pchem := data.value;
          if backend.value == MeasuredCalc {
            var selected := SelectMeasured(pchem, shaped.value, b.propMap);
            if selected.Failure? {
              return Failure(selected.error);
            }
            pchem := selected.value;
          }
        }
        metaInfo := metaInfo["data" := pchem];
      }
      r := Success(JsonBody(Obj(metaInfo)));
    }
  }

  /** The loop of getCalcLinks: formats each href in turn, stopping at the
      first that raises, with the links before it already rewritten. */
  method RewriteHrefs(links0: seq<Link>, name: string) returns (links: seq<Link>, err: Option<Exc>)
    ensures (links, err) == FormatLinks(links0, name)
  {
    links, err := [], None;
    var i := 0;
    assert links0[0..] == links0;
    assert [] + FormatLinks(links0, name).0 == FormatLinks(links0, name).0;
    while i < |links0| && err.None?
      invariant 0 <= i <= |links0|
      invariant err.None? ==> FormatLinks(links0, name) == Resumed(links, links0[i..], name)
      invariant err.Some? ==> (links, err) == FormatLinks(links0, name)
      decreases |links0| - i, if err.None? then 1 else 0
    {
      var x := FormatHref(links0[i], name);
      RewriteStep(links0, i, links, name);
      if x.Failure? {
        links, err := links + links0[i..], Some(x.error);
      } else {
        links := links + [x.value];
        i := i + 1;
      }
    }
    if err.None? {
      assert links0[i..] == [];
      assert links + [] == links;
    }
  }

  /** The rewrite of `todo` after the links `done` were rewritten already. */
  function Resumed(done: seq<Link>, todo: seq<Link>, name: string): (seq<Link>, Option<Exc>) {
    var rest := FormatLinks(todo, name);
    (done + rest.0, rest.1)
  }

  /** One step of the rewrite loop: link `i` is rewritten, or its failure
      leaves it and the links after it as they were. */
  lemma RewriteStep(links0: seq<Link>, i: nat, done: seq<Link>, name: string)
    requires i < |links0|
    ensures match FormatHref(links0[i], name)
            case Success(x) => Resumed(done, links0[i..], name) == Resumed(done + [x], links0[i + 1..], name)
            case Failure(e) => Resumed(done, links0[i..], name) == (done + links0[i..], Some(e))
  {
    FormatLinksAt(links0, i, name);
    if FormatHref(links0[i], name).Success? {
      var x := FormatHref(links0[i], name).value;
      var rest := FormatLinks(links0[i + 1..], name).0;
      assert done + ([x] + rest) == (done + [x]) + rest;
    }
  }

  /** The metabolizer branch of runCalc, statement by statement. */
  method RunMetabolizer(req: Request, b: Backends) returns (r: Result<Value>)
    ensures r == Metabolize(req, b)
  {
    var structure := Get(req, "structure");
    var genLimit := Get(req, "generationLimit");
    var libs := Get(req, "transformationLibraries");
    var request := map["structure" := structure, "generationLimit" := genLimit, "populationLimit" := Num(0),
                       "likelyLimit" := Real(0.001), "excludeCondition" := Str("")];
    var n := PyLen(libs);
    if n.Failure? {
      return Failure(n.error);
    }
    if n.value > 0 {
      var human := PyIn("human_biotransformation", libs);
      if human.Failure? {
        return Failure(human.error);
      }
      if !human.value {
        request := request["transformationLibraries" := libs];
      }
    }
    var products := b.transProducts(request);
    if products.Failure? {
      return Failure(products.error);
    }
    var generations := PyInt(genLimit);
    if generations.Failure? {
      return Failure(generations.error);
    }
    r := b.progenyTree(products.value, generations.value);
  }

  /** The filter substitution of runCalc, with its two exception handlers. */
  method ShapeRequest(req: Request, filter: Value -> Result<Value>) returns (r: Result<Request>)
    ensures r == ShapePchemRequest(req, filter)
  {
    var orig := Get(req, "chemical");
    var filtered := Filtered(filter, orig);
    if filtered.Failure? {
      if filtered.error == AttributeError {
        return Failure(NameError("_filtered_smiles"));
      }
      return Success(req);
    }
    match req
    case PyDict(m) =>
      r := Success(PyDict(m["orig_smiles" := orig]["chemical" := filtered.value]));
    case FrozenQueryDict(lists) =>
      var m := UnwrapQueryDict(lists);
      if m.Failure? {
        return Failure(m.error);
      }
      r := Success(PyDict(m.value["orig_smiles" := orig]["chemical" := filtered.value]));
  }

  /** Two getCalcLinks calls on one CTS_REST object: the second returns the
      links the first formatted for the first name, whatever name it is given. */
  method RepeatedCalcLinks(meta: map<string, Value>, first: string, second: string)
    returns (links1: Result<Option<seq<Link>>>, links2: Result<Option<seq<Link>>>)
    requires first in Calcs && second in Calcs
    ensures links1 == Success(Some(FormatLinks(CalcLinkTemplates(), first).0))
    ensures links2 == links1
    ensures links1.value.value[0]["href"] == Href(first, "inputs")
    ensures links1.value.value[1]["href"] == Href(first, "outputs")
    ensures links1.value.value[2]["href"] == Href(first, "run")
  {
    var api := new CtsRest(meta);
    FormatTemplates(first);
    CalcsFacts();
    FormattedTemplates(first);
    links1 := api.GetCalcLinks(first);
    FormatLinksFormatted(api.calcLinks, second);
    links2 := api.GetCalcLinks(second);
  }
}
