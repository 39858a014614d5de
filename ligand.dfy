/** Ligand entities of an AlphaFold3 input document (`af3cli/ligand.py`). */
module Ligands {
  import opened Wrappers

  /** How a ligand is written: as a SMILES string or as CCD codes. `Value`
      is the key the ligand's text goes under in the output document. */
  datatype LigandType = Smiles | Ccd {
    function Value(): string {
      match this
      case Smiles => "smiles"
      case Ccd => "ccdCodes"
    }
  }

  /** Looking a ligand type up by its value, as `LigandType(value)` does. */
  function LigandTypeFromValue(v: string): (r: Option<LigandType>)
    ensures r.Some? ==> r.value.Value() == v
    ensures r.None? ==> forall t: LigandType :: t.Value() != v
  {
    if v == "smiles" then Some(Smiles)
    else if v == "ccdCodes" then Some(Ccd)
    else None
  }

  lemma LigandTypeRoundTrip(t: LigandType)
    ensures LigandTypeFromValue(t.Value()) == Some(t)
  {
  }

  /** The ligand text: one string, or a list of strings. */
  datatype LigandStr = Single(text: string) | Several(texts: seq<string>)

  /** A ligand entry: its text and how that text is to be read. */
  datatype Ligand = Ligand(ligandType: LigandType, ligandStr: LigandStr)
}
