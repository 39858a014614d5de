/** The sequence entities of an AlphaFold3 input document (`af3cli/sequence.py`):
    the sequence and template type tags, structural templates, residue and
    nucleotide modifications, multiple sequence alignments, and the sequence
    itself, each with its dictionary projection. */
module Sequences {
  import opened Wrappers
  import opened Json

  /** The three polymer kinds; `Value` is the tag the output document uses. */
  datatype SequenceType = Protein | Rna | Dna {
    function Value(): string {
      match this
      case Protein => "protein"
      case Rna => "rna"
      case Dna => "dna"
    }
  }

  /** Looking a sequence type up by its value, as `SequenceType(value)` does. */
  function SequenceTypeFromValue(v: string): (r: Option<SequenceType>)
    ensures r.Some? ==> r.value.Value() == v
    ensures r.None? ==> forall t: SequenceType :: t.Value() != v
  {
    if v == "protein" then Some(Protein)
    else if v == "rna" then Some(Rna)
    else if v == "dna" then Some(Dna)
    else None
  }

  lemma SequenceTypeRoundTrip(t: SequenceType)
    ensures SequenceTypeFromValue(t.Value()) == Some(t)
  {
  }

  lemma SequenceTypeValueInjective(a: SequenceType, b: SequenceType)
    ensures a.Value() == b.Value() <==> a == b
  {
    SequenceTypeRoundTrip(a);
    SequenceTypeRoundTrip(b);
  }

  /** How a template's mmCIF text is given: `File` is a path to an mmCIF
      file, `String` the inline mmCIF text. `Value` is the key the template
      is written under; `Name` is the enumeration member's name. */
  datatype TemplateType = File | String {
    function Value(): string {
      match this
      case File => "mmcifPath"
      case String => "mmcif"
    }

    function Name(): string {
      match this
      case File => "FILE"
      case String => "STRING"
    }
  }

  /** Looking a template type up by its value, as `TemplateType(value)` does. */
  function TemplateTypeFromValue(v: string): (r: Option<TemplateType>)
    ensures r.Some? ==> r.value.Value() == v
    ensures r.None? ==> forall t: TemplateType :: t.Value() != v
  {
    if v == "mmcifPath" then Some(File)
    else if v == "mmcif" then Some(String)
    else None
  }

  lemma TemplateTypeRoundTrip(t: TemplateType)
    ensures TemplateTypeFromValue(t.Value()) == Some(t)
  {
  }

  /** The keys of a template dictionary besides the mmCIF key. */
  const QueryIndicesKey := "queryIndices"
  const TemplateIndicesKey := "templateIndices"

  /** A structural template: the mmCIF text or path, and the query and
      template residue indices it aligns. */
  datatype Template = Template(templateType: TemplateType, mmcif: string, qidx: seq<int>, tidx: seq<int>)
  {
    /** The projection: the mmCIF text under the type's value, the two index
        lists under their own keys, and nothing else. */
    function ToDict(): (d: map<string, Value>)
      ensures d.Keys == {templateType.Value(), QueryIndicesKey, TemplateIndicesKey}
      ensures |d| == 3
      ensures d[templateType.Value()] == Str(mmcif)
      ensures AsIntArray(d[QueryIndicesKey]) == Some(qidx)
      ensures AsIntArray(d[TemplateIndicesKey]) == Some(tidx)
    {
      IntArrayRoundTrip(qidx);
      IntArrayRoundTrip(tidx);
      map[templateType.Value() := Str(mmcif),
          QueryIndicesKey := IntArray(qidx),
          TemplateIndicesKey := IntArray(tidx)]
    }

    /** `str(template)`: the type's value between `Template(` and `)`. */
    function ToString(): (r: string)
      ensures |r| == 10 + |templateType.Value()|
      ensures r[..9] == "Template(" && r[|r| - 1] == ')'
      ensures TemplateTypeFromValue(r[9..|r| - 1]) == Some(templateType)
    {
      "Template(" + templateType.Value() + ")"
    }

    /** `repr(template)`: the type's member name between `<Template(` and `)>`. */
    function Repr(): (r: string)
      ensures |r| == 12 + |templateType.Name()|
      ensures r[..10] == "<Template(" && r[|r| - 2..] == ")>"
      ensures r[10..|r| - 2] == templateType.Name()
    {
      "<Template(" + templateType.Name() + ")>"
    }
  }

  /** Reads a template dictionary back; `None` when it is not one. */
  function TemplateFromDict(d: map<string, Value>): (r: Option<Template>)
    ensures r.Some? ==> SubMap(r.value.ToDict(), d)
  {
    if QueryIndicesKey !in d || TemplateIndicesKey !in d then None
    else
      var q := AsIntArray(d[QueryIndicesKey]);
      var t := AsIntArray(d[TemplateIndicesKey]);
      if q.None? || t.None? then None
      else if File.Value() in d && d[File.Value()].Str? then
        Some(Template(File, d[File.Value()].s, q.value, t.value))
      else if String.Value() in d && d[String.Value()].Str? then
        Some(Template(String, d[String.Value()].s, q.value, t.value))
      else None
  }

  lemma TemplateRoundTrip(t: Template)
    ensures TemplateFromDict(t.ToDict()) == Some(t)
  {
  }

  /** The two spellings of a template never carry each other's key. */
  lemma TemplateKeyByType(t: Template)
    ensures t.templateType == File ==> "mmcifPath" in t.ToDict() && "mmcif" !in t.ToDict()
    ensures t.templateType == String ==> "mmcif" in t.ToDict() && "mmcifPath" !in t.ToDict()
  {
  }

  lemma TemplateStringsDistinguishType(a: Template, b: Template)
    ensures a.ToString() == b.ToString() <==> a.templateType == b.templateType
    ensures a.Repr() == b.Repr() <==> a.templateType == b.templateType
  {
    if a.Repr() == b.Repr() {
      assert a.Repr()[10..|a.Repr()| - 2] == b.Repr()[10..|b.Repr()| - 2];
    }
  }

  /** A chemical modification at one position: `ResidueModification` for a
      protein residue, `NucleotideModification` for an RNA or DNA base.
      `modStr` is the CCD code of the modification. */
  datatype Modification =
    | ResidueModification(modStr: string, modPos: int)
    | NucleotideModification(modStr: string, modPos: int)
  {
    function TypeKey(): string {
      if ResidueModification? then "ptmType" else "modificationType"
    }

    function PositionKey(): string {
      if ResidueModification? then "ptmPosition" else "basePosition"
    }

    /** The projection: the code and the position under the two keys of
        the modification's kind, and nothing else. */
    function ToDict(): (d: map<string, Value>)
      ensures d.Keys == {TypeKey(), PositionKey()} && |d| == 2
      ensures d[TypeKey()] == Str(modStr) && d[PositionKey()] == Num(modPos)
    {
      map[TypeKey() := Str(modStr), PositionKey() := Num(modPos)]
    }
  }

  /** Reads a modification dictionary back; `None` when it is not one. */
  function ModificationFromDict(d: map<string, Value>): (r: Option<Modification>)
    ensures r.Some? ==> SubMap(r.value.ToDict(), d)
  {
    if "ptmType" in d && "ptmPosition" in d && d["ptmType"].Str? && d["ptmPosition"].Num? then
      Some(ResidueModification(d["ptmType"].s, d["ptmPosition"].n))
    else if "modificationType" in d && "basePosition" in d
         && d["modificationType"].Str? && d["basePosition"].Num? then
      Some(NucleotideModification(d["modificationType"].s, d["basePosition"].n))
    else None
  }

  lemma ModificationRoundTrip(m: Modification)
    ensures ModificationFromDict(m.ToDict()) == Some(m)
  {
  }

  /** Residue and nucleotide modifications share no key, so the kind of a
      modification can be told from its dictionary alone. */
  lemma ModificationKindsDisjoint(a: Modification, b: Modification)
    requires a.ResidueModification? && b.NucleotideModification?
    ensures a.ToDict().Keys !! b.ToDict().Keys
  {
  }

  /** The four keys a multiple sequence alignment can contribute. */
  const MsaKeys: set<string> := {"pairedMsa", "pairedMsaPath", "unpairedMsa", "unpairedMsaPath"}

  /** The paired and unpaired alignment of a sequence, each either inline
      text or a path (when its `...IsPath` flag is set). */
  datatype Msa = Msa(
    paired: Option<string> := None,
    unpaired: Option<string> := None,
    pairedIsPath: bool := false,
    unpairedIsPath: bool := false)
  {
    /** The projection: each present alignment under its path key or its
        inline key according to its flag; absent alignments contribute no
        key. */
    function ToDict(): (d: map<string, Value>)
      ensures d.Keys <= MsaKeys
      ensures "pairedMsaPath" in d <==> paired.Some? && pairedIsPath
      ensures "pairedMsa" in d <==> paired.Some? && !pairedIsPath
      ensures "unpairedMsaPath" in d <==> unpaired.Some? && unpairedIsPath
      ensures "unpairedMsa" in d <==> unpaired.Some? && !unpairedIsPath
      ensures paired.Some? ==> d[if pairedIsPath then "pairedMsaPath" else "pairedMsa"] == Str(paired.value)
      ensures unpaired.Some? ==> d[if unpairedIsPath then "unpairedMsaPath" else "unpairedMsa"] == Str(unpaired.value)
    {
      var p := if paired.Some? then
        map[(if pairedIsPath then "pairedMsaPath" else "pairedMsa") := Str(paired.value)]
      else map[];
      var u := if unpaired.Some? then
        map[(if unpairedIsPath then "unpairedMsaPath" else "unpairedMsa") := Str(unpaired.value)]
      else map[];
      p + u
    }

    /** The same alignment with the flag of an absent side cleared: the
        flag of a side that is `None` does not reach the dictionary. */
    function Normalized(): Msa {
      Msa(paired, unpaired, paired.Some? && pairedIsPath, unpaired.Some? && unpairedIsPath)
    }
  }

  /** Reads one side of an alignment back from its two possible keys. */
  function MsaSideFromDict(d: map<string, Value>, inlineKey: string, pathKey: string): (r: (Option<string>, bool))
    ensures r.0.Some? ==> (if r.1 then pathKey else inlineKey) in d
  {
    if pathKey in d && d[pathKey].Str? then (Some(d[pathKey].s), true)
    else if inlineKey in d && d[inlineKey].Str? then (Some(d[inlineKey].s), false)
    else (None, false)
  }

  /** Reads an alignment dictionary back. */
  function MsaFromDict(d: map<string, Value>): (r: Msa)
    ensures r.paired.Some? ==> "pairedMsa" in d || "pairedMsaPath" in d
    ensures r.unpaired.Some? ==> "unpairedMsa" in d || "unpairedMsaPath" in d
  {
    var (p, pPath) := MsaSideFromDict(d, "pairedMsa", "pairedMsaPath");
    var (u, uPath) := MsaSideFromDict(d, "unpairedMsa", "unpairedMsaPath");
    Msa(p, u, pPath, uPath)
  }

  /** The projection loses only the flags of absent sides. */
  lemma MsaRoundTrip(m: Msa)
    ensures MsaFromDict(m.ToDict()) == m.Normalized()
  {
  }

  /** The base keys of a sequence's detail dictionary. */
  const SequenceKeys: set<string> := {"id", "sequence", "modifications", "templates"}

  lemma SequenceKeysDisjointFromMsaKeys()
    ensures SequenceKeys !! MsaKeys
  {
  }

  /** The `id` field: the identifier strings, or `null` when none are set. */
  function IdValue(seqId: Option<seq<string>>): Value {
    if seqId.Some? then StrArray(seqId.value) else Null
  }

  /** A list of records as a JSON array of their dictionaries. */
  function DictArray<T>(xs: seq<T>, toDict: T -> map<string, Value>): (v: Value)
    ensures v.Arr? && |v.items| == |xs|
    ensures forall i :: 0 <= i < |xs| ==> v.items[i] == Obj(toDict(xs[i]))
  {
    Arr(seq(|xs|, i requires 0 <= i < |xs| => Obj(toDict(xs[i]))))
  }


  /** The base keys of a sequence's detail dictionary: identifiers and
      sequence string, modifications and templates only when there are
      some. */
  function SequenceBase(seqStr: string, seqId: Option<seq<string>>, seqMod: seq<Modification>,
                        templates: seq<Template>): (b: map<string, Value>)
    ensures b.Keys <= SequenceKeys
    ensures "id" in b && b["id"] == IdValue(seqId)
    ensures "sequence" in b && b["sequence"] == Str(seqStr)
    ensures "modifications" in b <==> |seqMod| > 0
    ensures "templates" in b <==> |templates| > 0
    ensures |seqMod| > 0 ==> b["modifications"].Arr? && |b["modifications"].items| == |seqMod|
    ensures |seqMod| > 0 ==> forall i :: 0 <= i < |seqMod| ==> b["modifications"].items[i] == Obj(seqMod[i].ToDict())
    ensures |templates| > 0 ==> b["templates"].Arr? && |b["templates"].items| == |templates|
    ensures |templates| > 0 ==> forall i :: 0 <= i < |templates| ==> b["templates"].items[i] == Obj(templates[i].ToDict())
  {
    var base := map["id" := IdValue(seqId), "sequence" := Str(seqStr)];
    var withMods := if |seqMod| > 0 then base["modifications" := DictArray(seqMod, (m: Modification) => m.ToDict())] else base;
    if |templates| > 0 then withMods["templates" := DictArray(templates, (t: Template) => t.ToDict())] else withMods
  }

  /** The detail dictionary of a sequence: its base keys with the keys of
      its alignment merged in. */
  function SequenceDetail(seqStr: string, seqId: Option<seq<string>>, seqMod: seq<Modification>,
                          templates: seq<Template>, msa: Option<Msa>): (d: map<string, Value>)
    ensures d.Keys <= SequenceKeys + MsaKeys
    ensures SubMap(SequenceBase(seqStr, seqId, seqMod, templates), d)
    ensures forall k :: k in SequenceKeys ==> (k in d <==> k in SequenceBase(seqStr, seqId, seqMod, templates))
    ensures forall k :: k in MsaKeys ==> (k in d <==> msa.Some? && k in msa.value.ToDict())
    ensures msa.Some? ==> SubMap(msa.value.ToDict(), d)
  {
    var base := SequenceBase(seqStr, seqId, seqMod, templates);
    SequenceKeysDisjointFromMsaKeys();
    if msa.Some? then base + msa.value.ToDict() else base
  }

  /** One polymer chain entity, present `num` times in the complex. */
  class Sequence {
    var seqType: SequenceType
    var seqStr: string
    var seqId: Option<seq<string>>
    var num: nat
    var seqMod: seq<Modification>
    var templates: seq<Template>
    var msa: Option<Msa>

    /** The number of copies is the number of identifiers given, else the
        count given, else one. A count that disagrees with the identifiers
        given is a construction error, left to the caller here. No
        identifier is generated: `GetId` returns exactly what was given. */
    constructor (seqType: SequenceType, seqStr: string, seqId: Option<seq<string>> := None,
                 seqMod: seq<Modification> := [], templates: seq<Template> := [],
                 msa: Option<Msa> := None, num: Option<nat> := None)
      requires num.None? || seqId.None? || num.value == |seqId.value|
      ensures this.seqType == seqType && this.seqStr == seqStr && this.seqId == seqId
      ensures this.seqMod == seqMod && this.templates == templates && this.msa == msa
      ensures this.num == (if seqId.Some? then |seqId.value| else if num.Some? then num.value else 1)
      ensures GetId() == seqId
    {
      this.seqType := seqType;
      this.seqStr := seqStr;
      this.seqId := seqId;
      this.num := if seqId.Some? then |seqId.value| else if num.Some? then num.value else 1;
      this.seqMod := seqMod;
      this.templates := templates;
      this.msa := msa;
    }

    /** The identifiers the sequence holds, `None` when it has none yet. */
    function GetId(): (r: Option<seq<string>>)
      reads this
    {
      seqId
    }

    /** The projection: the detail dictionary under the single key naming
        the sequence's type. */
    function ToDict(): (d: map<string, Value>)
      reads this
      ensures d.Keys == {seqType.Value()}
      ensures forall k :: k in d ==> SequenceTypeFromValue(k) == Some(seqType)
      ensures d[seqType.Value()] == Obj(SequenceDetail(seqStr, seqId, seqMod, templates, msa))
    {
      SequenceTypeRoundTrip(seqType);
      map[seqType.Value() := Obj(SequenceDetail(seqStr, seqId, seqMod, templates, msa))]
    }
  }

  /** Without an alignment the detail dictionary has no alignment key; with
      one, each flag decides between the path key and the inline key. */
  lemma SequenceDictAlignmentKeys(s: Sequence)
    ensures var detail := s.ToDict()[s.seqType.Value()].fields;
      && (s.msa.None? ==> detail.Keys !! MsaKeys)
      && (s.msa.Some? && s.msa.value.paired.Some? && s.msa.value.pairedIsPath ==>
            "pairedMsaPath" in detail && "pairedMsa" !in detail)
      && (s.msa.Some? && s.msa.value.unpaired.Some? && s.msa.value.unpairedIsPath ==>
            "unpairedMsaPath" in detail && "unpairedMsa" !in detail)
  {
  }

  /** The alignment given to a sequence can be read back from its
      projection, up to the flags of absent sides. */
  lemma SequenceDictAlignmentRoundTrip(s: Sequence)
    requires s.msa.Some?
    ensures MsaFromDict(s.ToDict()[s.seqType.Value()].fields) == s.msa.value.Normalized()
  {
  }

  /** The rest of the detail dictionary reads back too: the identifiers
      (`null` reading back as "none"), the sequence string, and each
      modification and template from its entry in the arrays. */
  lemma SequenceDictBaseRoundTrip(s: Sequence)
    ensures var detail := s.ToDict()[s.seqType.Value()].fields;
      && "id" in detail && AsStrArray(detail["id"]) == s.seqId
      && "sequence" in detail && detail["sequence"] == Str(s.seqStr)
      && (|s.seqMod| > 0 ==>
            "modifications" in detail && detail["modifications"].Arr?
            && |detail["modifications"].items| == |s.seqMod|
            && forall i :: 0 <= i < |s.seqMod| ==>
                 detail["modifications"].items[i].Obj?
                 && ModificationFromDict(detail["modifications"].items[i].fields) == Some(s.seqMod[i]))
      && (|s.templates| > 0 ==>
            "templates" in detail && detail["templates"].Arr?
            && |detail["templates"].items| == |s.templates|
            && forall i :: 0 <= i < |s.templates| ==>
                 detail["templates"].items[i].Obj?
                 && TemplateFromDict(detail["templates"].items[i].fields) == Some(s.templates[i]))
  {
    if s.seqId.Some? {
      StrArrayRoundTrip(s.seqId.value);
    }
    forall i | 0 <= i < |s.seqMod| {
      ModificationRoundTrip(s.seqMod[i]);
    }
    forall i | 0 <= i < |s.templates| {
      TemplateRoundTrip(s.templates[i]);
    }
  }
}
