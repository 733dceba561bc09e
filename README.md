# CTS REST layer — a Dafny model

This project models the REST layer of the Chemical Transformation System
(CTS), `cts_rest.py`. It takes a chemical and a calculator name, shapes the
request, calls out to the chemistry services, and wraps their answers. The
model covers:

- `Molecule.createMolecule`, which fills the CTS molecule record from a
  ChemAxon chemical-details response (`molecule.dfy`, class
  `Molecules.Molecule`);
- `CTS_REST.getCalcObject`, `getCalcLinks` and `getCalcInputs`
  (`rest.dfy`, `links.dfy`). `getCalcLinks` formats each hyperlink's
  `href` in place with `str.format`. That call is modelled as far as the
  link templates use it: `{}`, `{{`, `}}`, the IndexError of a second `{}`
  and the ValueError of a lone brace;
- `CTS_REST.runCalc` (`rest.dfy`, class `CtsRestModel.CtsRest`):
  - the metabolizer request;
  - the SMILES filter substitution, with the handler that copies an
    immutable QueryDict into a dict of its lists' first elements;
  - the dispatch to the pchem backends;
  - the selection loop that keeps only the requested property from the
    measured backend's data (`measured.dfy`);
  - the speciation branch;
- `getChemicalEditorData` (`editor.dfy`):
  - the identity cascade: the type classifier, the drawing conversion, the
    gsid lookup, then the dsstox registry lookup;
  - the precedence that picks the SMILES handed to the filter;
  - createMolecule;
  - the loop that merges the registry data over the molecule;
  - the three answer envelopes;
- `getChemicalSpeciationData`: filter, take the last result, substitute it
  (`rest.dfy`).

Python values are the datatype `PyValues.Value`. Raised exceptions are
`PyValues.Exc`. A computation is a `Result`: a value or the exception it
raised. Every collaborator the layer calls is a parameter (`Backends`,
`Services`) that gives a value or raises:
- the SMILES filter, the calculators and the metabolizer;
- the chemspec model;
- ChemAxon's services and the ACToR/dsstox web services.

Code that works step by step is imperative Dafny, and each method is proved
equal to a specification function:
- createMolecule's loop;
- the unwrap loop and the in-place href rewrite;
- runCalc and its measured selection loop;
- the editor's cascade and merge loop.

The properties the source promises are proved as lemmas about those
functions.

## Model

| member | source | states |
|---|---|---|
| Molecules.Molecule.constructor | cts_rest.py:35-48 | A new Molecule has the nine attributes in `__init__` order, each the empty string. |
| Molecules.InitialAttrsComplete | cts_rest.py:35-48 | Every attribute of a new Molecule is present and is the empty string. |
| Molecules.Molecule.CreateMolecule | cts_rest.py:50-84 | The object's attributes afterwards, and the dict returned or the KeyError raised, are `Created`, the specification of createMolecule: the loop over `__dict__`'s keys followed by setting chemical and orig_smiles. An exception leaves the attributes set so far. |
| Molecules.CopyDetails | cts_rest.py:59-77 | Running the loop over the given keys is the specification `Fill`. chemical and orig_smiles are skipped, and so is structureData when no structure data was asked for. A dict CAS# is stored as "N/A". The first missing detail stops the loop. |
| Molecules.FillOutcome | cts_rest.py:59-77 | For any key list, the loop runs to the end exactly when every attribute it does not skip has a detail. Otherwise it raises the exception of the first such attribute whose detail is missing. |
| Molecules.FillContents | cts_rest.py:59-77 | A loop that runs to the end stores each non-skipped attribute's detail ("N/A" for a dict CAS#) and leaves every other entry unchanged. |
| Molecules.WantedMoleculeAttrs | cts_rest.py:59-69 | The attributes the loop copies, in order, are smiles, formula, iupac, cas, mass, structureData only when asked for, and exactMass. |
| Molecules.CopiedMembers | cts_rest.py:66-69 | An attribute is copied if and only if the loop does not skip it. |
| Molecules.CreateMoleculeOutcome | cts_rest.py:50-84 | createMolecule on a new Molecule succeeds exactly when every copied attribute's detail exists. Otherwise it raises the exception of the first copied attribute whose detail is missing. |
| Molecules.CreateMoleculeRecord | cts_rest.py:59-82 | A successful createMolecule returns the object's own dictionary. That dictionary has every attribute, chemical and orig_smiles from the arguments, and an empty structureData unless it was asked for. |
| Molecules.CreatedDict | cts_rest.py:79-82 | The returned `__dict__`, keyed by name, holds the `chemical` and `orig_smiles` arguments. |
| Molecules.CreateMoleculeCopies | cts_rest.py:66-77 | Every copied attribute other than cas holds the details response's `data[0][key]`. cas holds it too, or "N/A" when it is a dict. |
| Molecules.FilledMolecule | cts_rest.py:59-77 | On a new Molecule, a complete loop gives every non-skipped attribute its detail and leaves every skipped one empty. |
| CalcLinks.FormatBraceFree | cts_rest.py:189 | `str.format` returns a brace-free string unchanged. |
| CalcLinks.FormatPlaceholder | cts_rest.py:189 | Formatting `p + "{}" + s` with brace-free `p` and `s` puts the argument in place of `{}`. |
| CalcLinks.FormatLinksFormatted | cts_rest.py:184-190 | Once no href has a brace, rewriting the links again, with any name, changes nothing and cannot fail. |
| CalcLinks.FormatTemplate | cts_rest.py:137-159 | Each link template's href formats to `http://qedinternal.epa.gov/cts/rest/<name>/<rel>`. |
| CalcLinks.FormatTemplates | cts_rest.py:137-159 | Rewriting the three templates cannot fail. The result is the templates with the name in their hrefs, everything else unchanged. |
| CalcLinks.FormattedTemplates | cts_rest.py:137-159 | After rewriting the templates with a brace-free name, no href has a brace left. |
| CtsRestModel.CalcObjectNames | cts_rest.py:163-182 | `CalcObject`, the model of getCalcObject, returns an adapter exactly for its eight names. It finds each adapter under its canonical name, and `testws` gets the TEST adapter. |
| CtsRestModel.CalcsFacts | cts_rest.py:94 | Every pchem calculator has an adapter and a brace-free name. metabolizer, testws and cts are not pchem calculators. |
| CtsRestModel.CalcInputsShape | cts_rest.py:208-227 | `CalcInputs`, the model of getCalcInputs, fails exactly for unknown names (AttributeError on None) and always puts the adapter's meta_info under `metaInfo`. A pchem calculator gets a fresh inputs dict: the request's chemical and prop, the calculator's name under `calc`, and `run_type` "rest". The metabolizer gets its adapter's `inputs` (lines 617-621): structure "", generationLimit 1 and the three transformation libraries. cts and testws get no inputs. The two dicts have the keys of `pchem_inputs` and `metabolizer_inputs`, which the code does not read. |
| CtsRestModel.MetabolizerRequestShape | cts_rest.py:240-253 | `MetabolizerRequest`, the request runCalc builds, always has population limit 0, likely limit 0.001 and an empty exclude condition. It passes structure and generation limit through. It holds the libraries exactly when they are non-empty and do not name human biotransformation. `len` failing is the only way it fails. |
| CtsRestModel.FilteredAttributeError | cts_rest.py:280 | An AttributeError out of `filterSMILES(...)['results'][-1]` can only come from the filter itself. |
| CtsRestModel.FilterSubstitution | cts_rest.py:278-297 | When filtering succeeds: `chemical` is the last filter result; `orig_smiles` is the request's chemical; every other key keeps its value, the first element of its list for a QueryDict. A QueryDict with an empty list raises. Any exception other than AttributeError leaves the request unchanged, and an AttributeError from the filter raises. |
| CtsRestModel.ShapeRequest | cts_rest.py:278-297 | The filter substitution with its two handlers, rendered statement by statement as `RunCalc` runs it, equals `ShapePchemRequest`. It calls the `UnwrapQueryDict` loop. |
| CtsRestModel.UnwrapQueryDict | cts_rest.py:287-289 | The key-by-key loop gives each key its list's first element, or raises IndexError for an empty list. |
| CtsRestModel.MetabolizeOrder | cts_rest.py:255-262 | A products failure is re-raised before `int(generationLimit)` is evaluated. A failing conversion comes before the tree. Otherwise the answer is the progeny tree of the products to that many generations. |
| CtsRestModel.RunMetabolizer | cts_rest.py:234-262 | The metabolizer branch, rendered statement by statement as `RunCalc` runs it, equals `Metabolize`. |
| CtsRestModel.PchemDataDispatch | cts_rest.py:299-320 | `PchemData` is the pchem payload. Once the request is shaped, a name without a backend gets an empty payload, and a pchem calculator other than measured gets its backend's answer as it is. testws has a backend but shares TEST's adapter. |
| CtsRestModel.SpeciationFiltersFirst | cts_rest.py:804-831 | Speciation gives a JSON answer exactly when the speciation request shapes and chemspec succeeds. That answer is `status: True` with chemspec's data for a request whose `chemical` is the last filter result. Any failure gives the text "Error getting speciation data". |
| CtsRestModel.RunCalcAliasesMeta | cts_rest.py:229-322 | runCalc's response is the metadata dict with the payload under `data`, and that dict stays as the object's metadata. The payload is the metabolizer tree or the pchem data. An exception, or the speciation branch, leaves the metadata as it was. |
| CtsRestModel.CtsRest.constructor | cts_rest.py:137-159 | A new CTS_REST holds the given metadata and the three link templates. |
| CtsRestModel.CtsRest.GetCalcLinks | cts_rest.py:184-192 | A pchem calculator's name rewrites the object's own links in place and returns them; an exception leaves the earlier links rewritten. Other names return None and change nothing. The metadata never changes. |
| CtsRestModel.RewriteHrefs | cts_rest.py:187-189 | The href loop equals `FormatLinks`: each href formatted in turn, stopping at the first exception with the rest untouched. |
| CtsRestModel.CtsRest.RunCalc | cts_rest.py:229-322 | The object's metadata afterwards and the response are `RunCalcSpec` of the old metadata. The links are unchanged. |
| CtsRestModel.RepeatedCalcLinks | cts_rest.py:184-192 | Two getCalcLinks calls on one object: the second returns the links the first formatted, whatever name it gets, with hrefs `.../<first>/inputs`, `/outputs` and `/run`. |
| Measured.LastMatchBounds | cts_rest.py:314-318 | `LastMatch` is the last entry whose `prop` is the requested name, or None when there is none. |
| Measured.SelectFromEffect | cts_rest.py:314-318 | The selection loop succeeds exactly when every entry has a `prop` and every matching entry has `data`. With no match the payload is unchanged. Otherwise its `data` is the last match's data, its `prop` the CTS property, and every other field is unchanged. |
| Measured.NoMatchUnchanged | cts_rest.py:311-318 | Without a matching entry, the measured payload is returned as the backend gave it. |
| Measured.LastMatchWins | cts_rest.py:311-318 | With several matching entries, the last one's data is kept, under the CTS property name. |
| Measured.SelectMeasured | cts_rest.py:311-318 | The loop as runCalc runs it equals `MeasuredSelection`. It handles a non-dict payload, a non-iterable `data`, and the property name looked up on each pass. |
| ChemicalEditor.DrawingConvertedFirst | cts_rest.py:678-692 | The classifier is called first, on the raw input. A drawing (`mrv`), and only a drawing, is converted, right after. |
| ChemicalEditor.IdentityLookupGate | cts_rest.py:684-699 | The gsid lookup runs exactly for a name, a SMILES, or a drawing that converted to a truthy SMILES. It runs on the raw input, and its `data.gsid` is the gsid used. |
| ChemicalEditor.RegistryLookupGate | cts_rest.py:705-713 | The registry lookup runs exactly when there is a truthy gsid or the input is a CAS#. It is the last call, keyed by the gsid with id type `gsid` when there is one. Without it there is no `data`. |
| ChemicalEditor.RegistryResultsGathered | cts_rest.py:699-713 | The gathered results are the recorded gsid (when it was looked up) with the registry answer's entries over it. |
| ChemicalEditor.CasInputUnbound | cts_rest.py:705-712 | As written, every CAS# input raises NameError on `chem_id` and ends in the generic error envelope. |
| ChemicalEditor.CasInputLookedUp | cts_rest.py:705-713 | As intended, a CAS# input is looked up in the registry by the CAS number with id type `CAS#`, and the registry answer is all that is gathered. |
| ChemicalEditor.IdentifyChemical | cts_rest.py:678-713 | Steps 1 and 2, rendered statement by statement with `_actor_results` and the calls built up, equal `Identify` under the CAS# rule given. Under `AsWritten`, `chem_id` is bound only when there is a gsid. |
| ChemicalEditor.PrepareIdentifies | cts_rest.py:724-731 | A successful run up to createMolecule identified the raw input. It picked its SMILES with `OrigSmilesFor`, the precedence of lines 724-731. |
| ChemicalEditor.PrepareFilters | cts_rest.py:738-739 | The filtered SMILES is the last filter result for the chosen SMILES. |
| ChemicalEditor.PrepareBuilds | cts_rest.py:743-745 | The molecule is the `__dict__` createMolecule returns for the details of the filtered SMILES. |
| ChemicalEditor.PreparedMolecule | cts_rest.py:745 | That molecule's `chemical` is the raw input, and its `orig_smiles` is the chosen SMILES. |
| ChemicalEditor.PrepareChemical | cts_rest.py:655-745 | The view up to createMolecule, with a fresh Molecule object, equals `Prepare` under the CAS# rule given. |
| ChemicalEditor.MergedEntries | cts_rest.py:748-755 | After the merge: a registry entry other than `casrn` wins; `casrn` replaces `cas`; every other molecule entry stays. The keys are the molecule's, the registry's other than `casrn`, and `cas` when `casrn` is present. |
| ChemicalEditor.MergeRegistry | cts_rest.py:748-755 | The merge loop equals `Merged`. |
| ChemicalEditor.FinishSteps | cts_rest.py:748-765 | `Finish` is the view from createMolecule on. A successful finish is the merged record, plus node and popup images of the filtered SMILES for a tree node. |
| ChemicalEditor.EditorDataSplit | cts_rest.py:655-765 | The view's try body succeeds exactly when both the run up to createMolecule and the finish succeed. |
| ChemicalEditor.EditorOrigSmiles | cts_rest.py:724-755 | For a returned record, the filtered SMILES is chosen by precedence: the input for a SMILES, else the registry's SMILES, else ChemAxon's conversion. It is then filtered. The record's `orig_smiles` and `chemical` are the chosen SMILES and the raw input unless the registry data overrides them. |
| ChemicalEditor.SuccessCarriesRegistryData | cts_rest.py:748-765 | A returned record holds every registry `data` entry, with `casrn` under `cas`, except where a tree node's images take the key. |
| ChemicalEditor.MissingRegistryDataIsInvalid | cts_rest.py:748-785 | Without registry `data`, the answer is the validation error for the chemical. |
| ChemicalEditor.NoRegistryLookupIsInvalid | cts_rest.py:705-785 | An input that reaches no registry lookup is reported as invalid. |
| ChemicalEditor.ResolveChemical | cts_rest.py:655-765 | The view's try body, statement by statement, equals `EditorData` under the CAS# rule given. |
| ChemicalEditor.RequestEcho | cts_rest.py:767-772 | `RequestJson`, the `request_post` that `json.dumps` writes, has exactly the request's keys. Each holds `request_post[key]`: for a QueryDict the list's last value, or an empty list for an empty list. |
| ChemicalEditor.ReplyStatus | cts_rest.py:767-789 | `Reply` is the document sent back. It is one of: `status` True with the record and the request as `RequestJson` echoes it on success; `status` False with "Error validating chemical" and the chemical for a KeyError; none for any other exception. |
| ChemicalEditor.GetChemicalEditorData | cts_rest.py:644-789 | The view's answer equals `EditorEnvelope` under the CAS# rule given, `AsWritten` for the code as it stands: a KeyError gives the validation envelope, any other exception the generic one. |

## Left out

- I/O: HTTP responses, `json.dumps` and `json.loads` (the progeny tree
  backend returns the parsed tree), logging, `gen_jid` and its clock. The
  `message` field of a stress-test POST is not unwrapped: the request
  dictionary is a parameter.
- The static tables are parameters: the adapters' `meta_info`
  (`adapterMeta`), `MeasuredCalc().propMap` and the image settings. So are
  the collaborators, which are treated as deterministic.
- `getCTSREST`, `getCalcEndpoints`, `showSwaggerPage` and the adapter
  subclasses' own endpoints are not modelled, because they only serialise
  tables. They still have effects the model leaves out:
  - `getCalcEndpoints` calls `getCalcLinks` (cts_rest.py:204), which
    rewrites `calc_links` in place;
  - `getCTSREST` stores `links` into `meta_info` (cts_rest.py:196), which a later `runCalc`
    on the same object returns;
  - the adapter subclasses (cts_rest.py:326-621) never call
    `CTS_REST.__init__`, so they have no `calcs` or `calc_links`.
    `CtsRest` models a plain CTS_REST object only.
- Python dicts are unordered maps. Dict order matters only in the
  editor's merge loop, when the registry data has both `cas` and `casrn`;
  the model applies `casrn` last.
- Python's cross-type equality (`1 == True`, `1 == 1.0`) is not modelled:
  comparing Values is structural.
- `str.format` fields other than `{}` (named or numbered fields, format
  specs) are not modelled; a template holding one raises ValueError in the
  model.
- `int()` of a string ignores surrounding whitespace and underscores in
  Python; the model accepts only an optional sign and ASCII digits.
- GetCalcLinks: the links are a `seq` field, so the aliasing of the
  returned list with `self.calc_links` is not modelled; the in-place
  rewrite is modelled on the field's value.
- RunCalc: the caller's own request dict, which `request_dict.update`
  mutates, is not modelled; the shaped request is a value passed to the
  backend.
- ShapePchemRequest: when the filter itself raises AttributeError, the
  model reports the unbound `_filtered_smiles` (NameError). The handler's
  element loop could raise first (TypeError, IndexError or KeyError on a
  value), and that is not distinguished.
- MeasuredPropName: a `prop` that is not a string, a list or a dict is
  reported as a KeyError with an empty key.
- Updated: `_actor_results.update(x)` for an `x` that is not a dict
  raises TypeError in the model; Python also accepts an iterable of pairs.
- The `str()` of the request's `id` and the image builders' other
  arguments are folded into the popup and node image collaborators.
- The generic error envelope holds the exception object, which
  `json.dumps` cannot encode; the model's `Reply` has no document for it.
- The workflow comments at cts_rest.py:660-671 and the note at 701-702
  treat the identity lookups as best-effort, with ChemAxon as the
  fallback. The code makes any KeyError end in the validation envelope and
  needs registry `data` for a successful answer. The model follows the
  code.

## Findings

| source | as written | input that shows it | evidently intended | confidence | as-written member | corrected member |
|---|---|---|---|---|---|---|
| cts_rest.py:705-712 | For a CAS# input no gsid is fetched, so `chem_id` is only assigned inside `if _gsid:`. The registry call then reads an unbound local: UnboundLocalError, the generic error envelope. | any chemical whose type is `CAS#`, e.g. `50-00-0` | look the CAS number up in dsstox with id type `CAS#` | not executed | ChemicalEditor.CasInputUnbound | ChemicalEditor.CasInputLookedUp |
