/** The top-level input document of an AlphaFold3 job (`af3cli/input.py`). */
module Input {
  import opened Wrappers
  import opened Ligands

  /** The seed list a document starts with: the seeds given, or the single
      seed 1 when none are given. */
  function SeedsOrDefault(seeds: Option<seq<int>>): (r: seq<int>)
    ensures seeds.Some? ==> r == seeds.value
    ensures seeds.None? ==> r == [1]
  {
    if seeds.None? then [1] else seeds.value
  }

  /** A document has at least one seed unless its caller gives an empty
      list explicitly. */
  lemma SeedsNonEmpty(seeds: Option<seq<int>>)
    ensures SeedsOrDefault(seeds) == [] <==> seeds == Some([])
  {
  }

  /** The job's metadata, seeds and ligand entries. */
  class InputFile {
    var name: string
    var version: int
    var dialect: string
    var seeds: seq<int>
    var userCcd: Option<string>
    var ligands: seq<Ligand>

    /** A new document keeps the metadata it is given, falls back to the
        job name "job", format version 1, dialect "alphafold3", no
        user-supplied CCD data and the seed rule of `SeedsOrDefault`, and
        holds no ligands. */
    constructor (name: string := "job", version: int := 1, dialect: string := "alphafold3",
                 seeds: Option<seq<int>> := None, userCcd: Option<string> := None)
      ensures this.name == name && this.version == version && this.dialect == dialect
      ensures this.userCcd == userCcd
      ensures this.seeds == SeedsOrDefault(seeds)
      ensures this.ligands == []
    {
      this.name := name;
      this.version := version;
      this.dialect := dialect;
      this.userCcd := userCcd;
      this.seeds := SeedsOrDefault(seeds);
      this.ligands := [];
    }
  }
}
