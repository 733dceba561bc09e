/** The CTS Molecule record and `createMolecule`, which fills the record from a
    ChemAxon chemical-details response (class Molecule of cts_rest.py). */
module Molecules {
  import opened PyValues

  /** The attributes of a Molecule. */
  datatype Attr = Chemical | OrigSmiles | Smiles | Formula | Iupac | Cas | Mass | StructureData | ExactMass

  /** The attribute's name: its key in `__dict__` and in the details response. */
  function Name(a: Attr): string {
    match a
    case Chemical => "chemical"
    case OrigSmiles => "orig_smiles"
    case Smiles => "smiles"
    case Formula => "formula"
    case Iupac => "iupac"
    case Cas => "cas"
    case Mass => "mass"
    case StructureData => "structureData"
    case ExactMass => "exactMass"
  }

  lemma NameInjective(a: Attr, b: Attr)
    ensures Name(a) == Name(b) ==> a == b
  {
  }

  /** The attributes in the order `__init__` creates them, which is the order
      createMolecule's loop visits them in. */
  const MoleculeAttrs: seq<Attr> :=
    [Chemical, OrigSmiles, Smiles, Formula, Iupac, Cas, Mass, StructureData, ExactMass]

  /** Every attribute of a new Molecule starts as the empty string. */
  function InitialAttrs(): map<Attr, Value> {
    map a | a in MoleculeAttrs :: Str("")
  }

  /** The attribute dictionary as the Python dict `__dict__`, keyed by name. */
  function AsDict(attrs: map<Attr, Value>): map<string, Value> {
    map a | a in attrs :: Name(a) := attrs[a]
  }

  /** The attributes createMolecule copies from the details response, in loop
      order: all but chemical and orig_smiles, and structureData only when the
      caller asked for it. */
  function CopiedAttrs(requested: bool): seq<Attr> {
    [Smiles, Formula, Iupac, Cas, Mass]
    + (if requested then [StructureData] else [])
    + [ExactMass]
  }

  /** `chem_details_response['data'][0][key]`. */
  function Detail(details: Value, key: string): Result<Value> {
    var data :- Subscript(details, "data");
    var row :- First(data);
    Subscript(row, key)
  }

  /** The value stored for a copied attribute: a CAS# that is an error object
      (a dict) is stored as "N/A". */
  function Copied(a: Attr, v: Value): Value {
    if a == Cas && v.Obj? then Str("N/A") else v
  }

  /** The attributes the loop leaves alone; `requested` says whether the
      caller asked for the structure data (`get_structure_data != None`). */
  predicate Skipped(a: Attr, requested: bool) {
    a == OrigSmiles || a == Chemical || (a == StructureData && !requested)
  }

  /** The detail of each attribute in a details response. */
  function Lookup(details: Value): Attr -> Result<Value> {
    a => Detail(details, Name(a))
  }

  /** One pass of the loop's body, for attribute `a`: a skipped attribute is
      left alone, a missing detail raises, and otherwise the detail is stored. */
  function FillStep(a: Attr, look: Attr -> Result<Value>, requested: bool, dict: map<Attr, Value>)
    : (map<Attr, Value>, Option<Exc>)
  {
    if Skipped(a, requested) then (dict, None)
    else match look(a)
      case Failure(e) => (dict, Some(e))
      case Success(v) => (dict[a := Copied(a, v)], None)
  }

  /** The attribute loop run over `attrs` from the dictionary `dict`, where
      `look` gives each attribute's detail: the dictionary afterwards and the
      exception that stopped the loop, if any. */
  function Fill(attrs: seq<Attr>, look: Attr -> Result<Value>, requested: bool, dict: map<Attr, Value>)
    : (map<Attr, Value>, Option<Exc>)
    decreases |attrs|
  {
    if attrs == [] then (dict, None)
    else
      var step := FillStep(attrs[0], look, requested, dict);
      if step.1.Some? then step else Fill(attrs[1..], look, requested, step.0)
  }

  /** One step of the attribute loop, at position `i` of `attrs`. */
  lemma FillAt(attrs: seq<Attr>, i: nat, look: Attr -> Result<Value>, requested: bool, dict: map<Attr, Value>)
    requires i < |attrs|
    ensures var step := FillStep(attrs[i], look, requested, dict);
            Fill(attrs[i..], look, requested, dict)
            == if step.1.Some? then step else Fill(attrs[i + 1..], look, requested, step.0)
  {
    assert attrs[i..][0] == attrs[i] && attrs[i..][1..] == attrs[i + 1..];
  }

  /** createMolecule as a whole: the object's attribute dictionary afterwards,
      and the returned `__dict__` or the exception raised. */
  function Created(keys: seq<Attr>, chemical: Value, origSmiles: Value, details: Value, gsd: Value, dict: map<Attr, Value>)
    : (map<Attr, Value>, Result<map<Attr, Value>>)
  {
    var filled := Fill(keys, Lookup(details), gsd != Null, dict);
    if filled.1.Some? then (filled.0, Failure(filled.1.value))
    else
      var m := filled.0[Chemical := chemical][OrigSmiles := origSmiles];
      (m, Success(m))
  }

  /** The attributes of `attrs` the loop does not skip, in order. */
  function Wanted(attrs: seq<Attr>, requested: bool): seq<Attr>
    decreases |attrs|
  {
    if attrs == [] then []
    else if Skipped(attrs[0], requested) then Wanted(attrs[1..], requested)
    else [attrs[0]] + Wanted(attrs[1..], requested)
  }

  /** The first of `attrs` whose detail cannot be read fails with `e`. */
  ghost predicate FirstFailure(attrs: seq<Attr>, look: Attr -> Result<Value>, e: Exc) {
    exists i ::
      0 <= i < |attrs| && look(attrs[i]) == Failure(e)
      && forall j :: 0 <= j < i ==> look(attrs[j]).Success?
  }

  /** Every attribute of `attrs` has a detail. */
  ghost predicate AllPresent(attrs: seq<Attr>, look: Attr -> Result<Value>) {
    forall a :: a in attrs ==> look(a).Success?
  }

  /** How the attribute loop ends, for any attribute list: it runs to the end
      exactly when every wanted attribute has a detail, and otherwise stops at
      the first wanted attribute whose detail is missing. */
  lemma {:induction false} FillOutcome(attrs: seq<Attr>, look: Attr -> Result<Value>, requested: bool, dict: map<Attr, Value>)
    ensures var f := Fill(attrs, look, requested, dict);
            var w := Wanted(attrs, requested);
            && (f.1.None? <==> AllPresent(w, look))
            && (f.1.Some? ==> FirstFailure(w, look, f.1.value))
    decreases |attrs|
  {
    if attrs == [] {
    } else if Skipped(attrs[0], requested) {
      FillOutcome(attrs[1..], look, requested, dict);
    } else {
      var a0 := attrs[0];
      var w := Wanted(attrs, requested);
      var w' := Wanted(attrs[1..], requested);
      assert w == [a0] + w';
      match look(a0)
      case Failure(e) =>
        assert look(w[0]) == Failure(e);
      case Success(v) =>
        var dict' := dict[a0 := Copied(a0, v)];
        FillOutcome(attrs[1..], look, requested, dict');
        var f := Fill(attrs[1..], look, requested, dict');
        if f.1.Some? {
          var i :| 0 <= i < |w'| && look(w'[i]) == Failure(f.1.value)
                   && forall j :: 0 <= j < i ==> look(w'[j]).Success?;
          assert look(w[i + 1]) == Failure(f.1.value);
          assert forall j :: 0 <= j < i + 1 ==> look(w[j]).Success? by {
            forall j | 0 <= j < i + 1 ensures look(w[j]).Success? {
              if j > 0 { assert w[j] == w'[j - 1]; }
            }
          }
        }
    }
  }

  /** What the attribute loop stores when it runs to the end, for any
      attribute list: every wanted attribute's detail, and every other entry
      as it was. */
  lemma {:induction false} FillContents(attrs: seq<Attr>, look: Attr -> Result<Value>, requested: bool, dict: map<Attr, Value>)
    requires Fill(attrs, look, requested, dict).1.None?
    ensures var f := Fill(attrs, look, requested, dict);
            var w := Wanted(attrs, requested);
            && (forall a :: a in w ==> a in f.0 && look(a).Success? && f.0[a] == Copied(a, look(a).value))
            && (forall a :: a in dict && a !in w ==> a in f.0 && f.0[a] == dict[a])
    decreases |attrs|
  {
    if attrs != [] {
      var a0 := attrs[0];
      var step := FillStep(a0, look, requested, dict);
      assert step.1.None?;
      FillContents(attrs[1..], look, requested, step.0);
      if !Skipped(a0, requested) {
        assert Wanted(attrs, requested) == [a0] + Wanted(attrs[1..], requested);
      }
    }
  }

  lemma {:induction false} WantedConcat(a: seq<Attr>, b: seq<Attr>, requested: bool)
    ensures Wanted(a + b, requested) == Wanted(a, requested) + Wanted(b, requested)
    decreases |a|
  {
    if a != [] {
      assert (a + b)[0] == a[0] && (a + b)[1..] == a[1..] + b;
      WantedConcat(a[1..], b, requested);
      if !Skipped(a[0], requested) {
        var wa, wb := Wanted(a[1..], requested), Wanted(b, requested);
        assert [a[0]] + (wa + wb) == ([a[0]] + wa) + wb;
      }
    } else {
      assert a + b == b;
    }
  }

  lemma {:induction false} WantedNoneSkipped(attrs: seq<Attr>, requested: bool)
    requires forall i :: 0 <= i < |attrs| ==> !Skipped(attrs[i], requested)
    ensures Wanted(attrs, requested) == attrs
    decreases |attrs|
  {
    if attrs != [] {
      assert forall i :: 0 <= i < |attrs[1..]| ==> attrs[1..][i] == attrs[i + 1];
      WantedNoneSkipped(attrs[1..], requested);
      assert [attrs[0]] + attrs[1..] == attrs;
    }
  }

  /** The loop over `front + middle + back` where everything in `front` is
      skipped and nothing in `middle` or `back` is. */
  lemma WantedSplit(attrs: seq<Attr>, front: seq<Attr>, middle: seq<Attr>, opt: seq<Attr>, back: seq<Attr>, requested: bool)
    requires attrs == front + middle + opt + back
    requires Wanted(front, requested) == []
    requires forall i :: 0 <= i < |middle| ==> !Skipped(middle[i], requested)
    requires forall i :: 0 <= i < |back| ==> !Skipped(back[i], requested)
    ensures Wanted(attrs, requested) == middle + Wanted(opt, requested) + back
  {
    WantedConcat(front + middle + opt, back, requested);
    WantedConcat(front + middle, opt, requested);
    WantedConcat(front, middle, requested);
    WantedNoneSkipped(middle, requested);
    WantedNoneSkipped(back, requested);
    assert [] + middle == middle;
  }

  lemma MoleculeAttrsParts()
    ensures MoleculeAttrs == [Chemical, OrigSmiles] + [Smiles, Formula, Iupac, Cas, Mass] + [StructureData] + [ExactMass]
  {
  }

  lemma WantedIdentity(requested: bool)
    ensures Wanted([Chemical, OrigSmiles], requested) == []
  {
    assert [Chemical, OrigSmiles][1..] == [OrigSmiles];
  }

  lemma WantedStructureData(requested: bool)
    ensures Wanted([StructureData], requested) == if requested then [StructureData] else []
  {
  }

  /** The copied attributes, in loop order. */
  lemma WantedMoleculeAttrs(requested: bool)
    ensures Wanted(MoleculeAttrs, requested) == CopiedAttrs(requested)
  {
    MoleculeAttrsParts();
    WantedIdentity(requested);
    WantedStructureData(requested);
    WantedSplit(MoleculeAttrs, [Chemical, OrigSmiles], [Smiles, Formula, Iupac, Cas, Mass],
                [StructureData], [ExactMass], requested);
  }

  /** createMolecule on a fresh Molecule succeeds exactly when every copied
      attribute has a detail, and otherwise raises the exception of the first
      copied attribute whose detail is missing. */
  lemma CreateMoleculeOutcome(chemical: Value, origSmiles: Value, details: Value, gsd: Value)
    ensures var r := Created(MoleculeAttrs, chemical, origSmiles, details, gsd, InitialAttrs()).1;
            && (r.Success? <==> AllPresent(CopiedAttrs(gsd != Null), Lookup(details)))
            && (r.Failure? ==> FirstFailure(CopiedAttrs(gsd != Null), Lookup(details), r.error))
  {
    WantedMoleculeAttrs(gsd != Null);
    FillOutcome(MoleculeAttrs, Lookup(details), gsd != Null, InitialAttrs());
  }

  /** A molecule createMolecule builds has every attribute, takes chemical and
      orig_smiles from the arguments and leaves structureData empty unless it
      was requested; the object holds the dictionary returned. */
  lemma CreateMoleculeRecord(chemical: Value, origSmiles: Value, details: Value, gsd: Value)
    requires Created(MoleculeAttrs, chemical, origSmiles, details, gsd, InitialAttrs()).1.Success?
    ensures var c := Created(MoleculeAttrs, chemical, origSmiles, details, gsd, InitialAttrs());
            var m := c.0;
            && c.1.value == m
            && (forall a: Attr :: a in m)
            && m[Chemical] == chemical && m[OrigSmiles] == origSmiles
            && (gsd == Null ==> m[StructureData] == Str(""))
  {
    FilledMolecule(Lookup(details), gsd != Null);
  }

  /** The dictionary createMolecule returns, keyed by name, holds the
      chemical and the original SMILES it was given. */
  lemma CreatedDict(chemical: Value, origSmiles: Value, details: Value, gsd: Value)
    requires Created(MoleculeAttrs, chemical, origSmiles, details, gsd, InitialAttrs()).1.Success?
    ensures var d := AsDict(Created(MoleculeAttrs, chemical, origSmiles, details, gsd, InitialAttrs()).1.value);
            && "chemical" in d && d["chemical"] == chemical
            && "orig_smiles" in d && d["orig_smiles"] == origSmiles
  {
    CreateMoleculeRecord(chemical, origSmiles, details, gsd);
    var m := Created(MoleculeAttrs, chemical, origSmiles, details, gsd, InitialAttrs()).1.value;
    AsDictEntry(m, Chemical);
    AsDictEntry(m, OrigSmiles);
  }

  /** Each attribute is found in the dictionary under its name. */
  lemma AsDictEntry(m: map<Attr, Value>, a: Attr)
    requires a in m
    ensures Name(a) in AsDict(m) && AsDict(m)[Name(a)] == m[a]
  {
    forall b | b in m && Name(b) == Name(a) ensures b == a {
      NameInjective(a, b);
    }
  }

  /** Every other attribute of a molecule createMolecule builds comes from the
      details response, except that a CAS# that is an error object reads "N/A". */
  lemma CreateMoleculeCopies(chemical: Value, origSmiles: Value, details: Value, gsd: Value)
    requires Created(MoleculeAttrs, chemical, origSmiles, details, gsd, InitialAttrs()).1.Success?
    ensures var m := Created(MoleculeAttrs, chemical, origSmiles, details, gsd, InitialAttrs()).0;
            && (forall a :: a in CopiedAttrs(gsd != Null) && a != Cas ==>
                  a in m && Detail(details, Name(a)).Success? && m[a] == Detail(details, Name(a)).value)
            && Cas in m && Detail(details, "cas").Success?
            && m[Cas] == (var cas := Detail(details, "cas").value; if cas.Obj? then Str("N/A") else cas)
  {
    var look := Lookup(details);
    FilledMolecule(look, gsd != Null);
    CopiedMembers(gsd != Null);
    assert look(Cas) == Detail(details, "cas");
    forall a | a in CopiedAttrs(gsd != Null)
      ensures look(a) == Detail(details, Name(a))
    {
    }
  }

  /** The attribute loop on a new Molecule, when it runs to the end: every
      attribute not skipped holds its detail, every skipped one is still empty. */
  lemma FilledMolecule(look: Attr -> Result<Value>, requested: bool)
    requires Fill(MoleculeAttrs, look, requested, InitialAttrs()).1.None?
    ensures var m := Fill(MoleculeAttrs, look, requested, InitialAttrs()).0;
            && (forall a: Attr :: a in m)
            && (forall a :: !Skipped(a, requested) ==> look(a).Success? && m[a] == Copied(a, look(a).value))
            && (forall a :: Skipped(a, requested) ==> m[a] == Str(""))
  {
    WantedMoleculeAttrs(requested);
    InitialAttrsComplete();
    FilledFrom(MoleculeAttrs, look, requested, InitialAttrs());
  }

  /** The attribute loop over keys whose wanted ones are the copied
      attributes, run to the end from a dictionary of empty strings. */
  lemma FilledFrom(keys: seq<Attr>, look: Attr -> Result<Value>, requested: bool, dict: map<Attr, Value>)
    requires Wanted(keys, requested) == CopiedAttrs(requested)
    requires forall a: Attr :: a in dict && dict[a] == Str("")
    requires Fill(keys, look, requested, dict).1.None?
    ensures var m := Fill(keys, look, requested, dict).0;
            && (forall a: Attr :: a in m)
            && (forall a :: !Skipped(a, requested) ==> look(a).Success? && m[a] == Copied(a, look(a).value))
            && (forall a :: Skipped(a, requested) ==> m[a] == Str(""))
  {
    var m := Fill(keys, look, requested, dict).0;
    var w := Wanted(keys, requested);
    FillContents(keys, look, requested, dict);
    CopiedMembers(requested);
    forall a | !Skipped(a, requested)
      ensures look(a).Success? && m[a] == Copied(a, look(a).value)
    {
      assert a in w;
    }
    forall a | Skipped(a, requested)
      ensures m[a] == Str("")
    {
      assert a !in w;
    }
  }

  /** The attributes copied are exactly those the loop does not skip. */
  lemma CopiedMembers(requested: bool)
    ensures forall a :: a in CopiedAttrs(requested) <==> !Skipped(a, requested)
  {
    forall a ensures a in CopiedAttrs(requested) <==> !Skipped(a, requested) {
      match a
      case StructureData =>
        assert requested ==> CopiedAttrs(requested)[5] == StructureData;
      case _ =>
    }
  }

  /** A new Molecule has every attribute. */
  lemma InitialAttrsComplete()
    ensures forall a: Attr :: a in InitialAttrs() && InitialAttrs()[a] == Str("")
  {
    forall a: Attr ensures a in InitialAttrs() {
      assert a in MoleculeAttrs by {
        match a
        case Chemical => assert MoleculeAttrs[0] == a;
        case OrigSmiles => assert MoleculeAttrs[1] == a;
        case Smiles => assert MoleculeAttrs[2] == a;
        case Formula => assert MoleculeAttrs[3] == a;
        case Iupac => assert MoleculeAttrs[4] == a;
        case Cas => assert MoleculeAttrs[5] == a;
        case Mass => assert MoleculeAttrs[6] == a;
        case StructureData => assert MoleculeAttrs[7] == a;
        case ExactMass => assert MoleculeAttrs[8] == a;
      }
    }
  }

  /** A Molecule; `attrs` is its attribute dictionary (`self.__dict__`). */
  class Molecule {
    var attrs: map<Attr, Value>
    /** The keys of `__dict__` in insertion order, fixed by `__init__`. */
    const keys: seq<Attr>

    constructor ()
      ensures attrs == InitialAttrs() && keys == MoleculeAttrs
    {
      attrs := InitialAttrs();
      keys := MoleculeAttrs;
    }

    /** Fills the attributes from the details response, then sets chemical
        and orig_smiles from the arguments; a missing detail raises and leaves
        the attributes set so far. */
    method CreateMolecule(chemical: Value, origSmiles: Value, details: Value, getStructureData: Value)
      returns (r: Result<map<Attr, Value>>)
      modifies this
      ensures (attrs, r) == Created(keys, chemical, origSmiles, details, getStructureData, old(attrs))
    {
      var filled, err := CopyDetails(keys, details, getStructureData, attrs);
      if err.Some? {
        attrs := filled;
        r := Failure(err.value);
      } else {
        attrs := filled[Chemical := chemical][OrigSmiles := origSmiles];
        r := Success(attrs);
      }
    }
  }

  /** The loop over the attribute names `keys` (`self.__dict__.keys()`) on
      the attribute dictionary `dict0`, copying each from the details
      response until a detail is missing. */
  method CopyDetails(keys: seq<Attr>, details: Value, getStructureData: Value, dict0: map<Attr, Value>)
    returns (dict: map<Attr, Value>, err: Option<Exc>)
    ensures (dict, err) == Fill(keys, Lookup(details), getStructureData != Null, dict0)
  {
    ghost var look := Lookup(details);
    ghost var requested := getStructureData != Null;
    dict := dict0;
    var i := 0;
    while i < |keys|
      invariant 0 <= i <= |keys|
      invariant Fill(keys, look, requested, dict0) == Fill(keys[i..], look, requested, dict)
    {
      FillAt(keys, i, look, requested, dict);
      var a := keys[i];
      if a != OrigSmiles && a != Chemical {
        if a == StructureData && getStructureData == Null {
        } else {
          var v := Detail(details, Name(a));
          assert v == look(a);
          if v.Failure? {
            return dict, Some(v.error);
          }
          if a == Cas && v.value.Obj? {
            dict := dict[a := Str("N/A")];
          } else {
            dict := dict[a := v.value];
          }
        }
      }
      i := i + 1;
    }
    assert keys[i..] == [];
    err := None;
  }
}
