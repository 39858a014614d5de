# af3cli core in Dafny

af3cli builds AlphaFold3 job input documents. This project models three parts of it:

- **Chain identifiers** (`seqid.dfy`, module `SeqId`):
  - `num_to_letters` is the spreadsheet-column encoding: 1 → "A", 26 → "Z", 27 → "AA". It is bijective base 26 with no zero digit.
  - `IDRegister` holds the set of taken identifiers and a counter.
    - `generate` steps the counter past every taken candidate, then takes the first free one and returns it.
    - `register` takes any string and leaves the counter alone.
- **Sequence entities** (`sequence.dfy`, module `Sequences`):
  - the `SequenceType` and `TemplateType` enumerations and their string values;
  - structural templates, with `str` and `repr`;
  - residue and nucleotide modifications;
  - multiple sequence alignments;
  - the `Sequence` entity.

  Each entity has its dictionary projection into JSON-like values (`json.dfy`, modules `Wrappers` and `Json`).
- **Job document** (`input.dfy`, module `Input`): the `InputFile` constructor, with its defaults and the seed rule.

`ligand.dfy` (module `Ligands`) holds the `LigandType` enumeration and the ligand record that the document's ligand list holds.

The code of the identifier module (`af3cli/seqid.py`) is unavailable; it is not part of this model. Its behaviour is fixed by the vectors and call sequences in tests/test_seqid.py, and it is modelled from those.

- The encoding is the recursive `NumToLetters`, proved to be a bijection onto the non-empty strings over 'A'..'Z'.
- The stopping point of `generate`'s skip loop is the function `FirstFree`. It terminates because each skipped candidate is a taken identifier the counter had not yet passed.
- `GenerateRun` is the sequence of identifiers that successive `generate` calls return.
- `IDRegister` is a class. `Generate` runs the skip loop (`SkipTaken`) and is proved to agree with `FirstFree`. Its invariant `Valid()` says every candidate the counter has passed is taken. It follows that `Generate` hands out the smallest free encoding overall.
- `SharedRegisterReplay` replays the calls of tests/test_seqid.py on one register object.

Dictionaries are `map<string, Value>`. The template, modification and alignment projections each have a reading-back function and a round-trip lemma. A sequence's projection is read back piece by piece: identifiers, sequence string, each modification and template, and the alignment.

The `Template`, `Modification` and `Msa` records are datatypes. Their constructors store their arguments unchanged (src/af3cli/sequence.py:61-64, tests/test_sequence.py:58-60 and 145-149). `Sequence` and `InputFile` are classes, because their constructors assign fields and derive some of them.

## Model

| member | source | states |
|---|---|---|
| SeqId.NumToLetters | tests/test_seqid.py:6-12 | the encoding of a number ≥ 1 is a non-empty string |
| SeqId.NumToLettersIsLetters | tests/test_seqid.py:6-12 | encodings use only the letters 'A'..'Z' |
| SeqId.LettersToNumOfNumToLetters | tests/test_seqid.py:6-12 | reading an encoding back as bijective base 26 gives the number encoded |
| SeqId.NumToLettersOfLettersToNum | tests/test_seqid.py:6-12 | every non-empty string of capital letters is the encoding of the number it reads as, so the encoding is onto |
| SeqId.NumToLettersInjective | tests/test_seqid.py:6-12 | two numbers have the same encoding if and only if they are equal |
| SeqId.TwoLetterVectors | tests/test_seqid.py:8 | 27, 28, 52, 53 encode to AA, AB, AZ, BA |
| SeqId.ThreeLetterVectors | tests/test_seqid.py:9 | 703, 704 encode to AAA, AAB |
| SeqId.NumToLettersVectors | tests/test_seqid.py:6-12 | 1, 2, 3, 26, 27, 28, 52, 53, 703, 704 encode to A, B, C, Z, AA, AB, AZ, BA, AAA, AAB |
| SeqId.FirstFree | tests/test_seqid.py:36-40 | where `generate` stops from counter c: a value above c whose encoding is not taken |
| SeqId.FirstFreeSkipsOnlyTaken | tests/test_seqid.py:36-40 | every candidate strictly between the counter and the stopping point is taken |
| SeqId.FirstFreeBound | tests/test_seqid.py:36-40 | the skip loop tries at most one more candidate than there are taken identifiers the counter has not passed, hence at most `|registered| + 1` |
| SeqId.SkipTaken | tests/test_seqid.py:36-40 | the skip loop stops at `FirstFree` and yields that value's encoding |
| SeqId.GenerateKeepsCandidatesTaken | tests/test_seqid.py:36-40 | after a generation every candidate up to the new counter is taken |
| SeqId.GenerateRun | tests/test_seqid.py:36-40 | k successive generations return k pairwise distinct identifiers, none of them taken beforehand |
| SeqId.NoSkipWithoutManualRegistration | tests/test_seqid.py:15-24 | when exactly the passed candidates are taken, `generate` advances the counter by one, and the taken set stays "the encodings up to the counter" |
| SeqId.SequentialRun | tests/test_seqid.py:15-24 | without manual registrations, successive generations return the encodings of c+1, c+2, … in order |
| SeqId.FreshRegisterRun | tests/test_seqid.py:15-24 | a fresh register generates "A", "B", "C", "D" |
| SeqId.IDRegister.constructor | tests/test_seqid.py:15-17 | a new register has nothing taken and its counter at 0 |
| SeqId.IDRegister.Register | tests/test_seqid.py:27-48 | `register` adds any string to the taken set, multi-letter ones such as "NN" included. It leaves the counter unchanged and keeps the invariant |
| SeqId.IDRegister.Generate | tests/test_seqid.py:36-40 | `generate` moves the counter to `FirstFree` and returns that value's encoding, which was not taken before the call. It adds the encoding to the taken set and keeps the invariant. Every smaller number's encoding was already taken |
| SeqId.ValidStopIsSmallestFree | tests/test_seqid.py:36-40 | under the register's invariant, every number below the stopping point has its encoding taken, so the stop is the smallest free encoding, not only the smallest beyond the counter |
| SeqId.GenerateSequentially | tests/test_seqid.py:20-24 | on a register holding only its own generations, n calls return the next n encodings in order and keep that shape |
| SeqId.FillRegister | tests/test_seqid.py:27-33 | registering "F".."I" by hand adds the encodings of 6..9 and leaves the counter at 4 |
| SeqId.GenerateOnFilledRegister | tests/test_seqid.py:36-40 | on that filled register, five calls return "E", "J", "K", "L", "M" and leave the counter at 13 with exactly the encodings of 1..13 taken |
| SeqId.SharedRegisterReplay | tests/test_seqid.py:15-48 | on one register object: "A".."D", then "E", "J", "K", "L", "M" after F..I were registered; the counter ends at 13; the taken set ends as the encodings of 1..13 plus "N", "NN", "NNN", "NNNN" |
| SeqId.FilledRegisterLetters | tests/test_seqid.py:36-40 | 5..13 encode to the single letters E..M |
| SeqId.FilledRegisterFirstStop | tests/test_seqid.py:36-40 | with A..D generated and F..I registered by hand, the next call stops at 5 ("E"), after which the encodings 1..9 are all taken |
| SeqId.FilledRegisterSecondStop | tests/test_seqid.py:36-40 | the call after that skips 6..9 and stops at 10 ("J") |
| SeqId.FilledRegisterStops | tests/test_seqid.py:36-40 | the five calls on the filled register stop at 5, 10, 11, 12, 13 |
| SeqId.FilledRegisterRun | tests/test_seqid.py:27-40 | after A..D generated and F..I registered with the counter at 4, five calls return "E", "J", "K", "L", "M" |
| Sequences.SequenceTypeFromValue | src/af3cli/sequence.py:6-15 | looking up a value gives the sequence type with that value, and fails only for strings that are no type's value |
| Sequences.SequenceTypeRoundTrip | src/af3cli/sequence.py:13-15 | each sequence type is found again from its value |
| Sequences.SequenceTypeValueInjective | src/af3cli/sequence.py:13-15 | distinct sequence types have distinct values |
| Sequences.TemplateTypeFromValue | src/af3cli/sequence.py:18-33 | looking up a value gives the template type with that value, and fails only for strings that are no type's value |
| Sequences.TemplateTypeRoundTrip | src/af3cli/sequence.py:32-33 | FILE and STRING are found again from "mmcifPath" and "mmcif" |
| Sequences.Template.ToDict | src/af3cli/sequence.py:79-83 | exactly three keys: the mmCIF text under the type's value, and the query and template index lists, both readable back unchanged |
| Sequences.TemplateFromDict | src/af3cli/sequence.py:79-83 | a template read back from a dictionary has its projection contained in that dictionary |
| Sequences.TemplateRoundTrip | src/af3cli/sequence.py:79-83 | reading a template's projection back gives the same template |
| Sequences.TemplateKeyByType | src/af3cli/sequence.py:80 | FILE templates carry "mmcifPath" and not "mmcif"; STRING templates carry "mmcif" and not "mmcifPath" |
| Sequences.Template.ToString | src/af3cli/sequence.py:85-86 | `str` is "Template(" and ")" around a string that looks up to the template's type |
| Sequences.Template.Repr | src/af3cli/sequence.py:88-89 | `repr` is "<Template(" and ")>" around the type's member name |
| Sequences.TemplateStringsDistinguishType | src/af3cli/sequence.py:85-89 | two templates have the same `str`, and the same `repr`, if and only if they have the same type |
| Sequences.Modification.ToDict | tests/test_sequence.py:66-95 | exactly two keys, each kind with its own: a residue modification has "ptmType" (the code) and "ptmPosition" (the position); a nucleotide modification has "modificationType" and "basePosition" |
| Sequences.ModificationFromDict | tests/test_sequence.py:66-95 | a modification read back from a dictionary has its projection contained in that dictionary |
| Sequences.ModificationRoundTrip | tests/test_sequence.py:66-95 | reading a modification's projection back gives the same modification, kind included |
| Sequences.ModificationKindsDisjoint | tests/test_sequence.py:66-95 | residue and nucleotide projections share no key |
| Sequences.Msa.ToDict | tests/test_sequence.py:160-177 | for each side: the path key is present if and only if that side is present with its path flag set, and the inline key if and only if it is present without the flag; each holds that side's text, and no other keys appear |
| Sequences.MsaFromDict | tests/test_sequence.py:160-177 | a side is read back only when one of its two keys is present |
| Sequences.MsaRoundTrip | tests/test_sequence.py:160-177 | reading an alignment's projection back gives the alignment, with the flag of an absent side cleared |
| Sequences.SequenceKeysDisjointFromMsaKeys | tests/test_sequence.py:206-217 | a sequence's own detail keys and the alignment keys are disjoint, so merging the alignment overwrites nothing |
| Sequences.SequenceBase | tests/test_sequence.py:206 | the detail always has "id" (the identifiers) and "sequence" (the string). It has "modifications" only when there are some, as the array of each modification's dictionary in order; "templates" works the same way |
| Sequences.SequenceDetail | tests/test_sequence.py:206-217 | the detail keeps every base entry and has no other sequence key, so "modifications" and "templates" stay absent for empty lists. It carries an alignment key if and only if the alignment's projection has it, with the same value |
| Sequences.Sequence.constructor | tests/test_sequence.py:107-133 | a sequence keeps its type, string, identifiers, modifications and templates as given, so the template count is preserved. `num` is the number of identifiers given, else the count given, else 1. `get_id` returns exactly the identifiers given, so none is generated |
| Sequences.Sequence.ToDict | tests/test_sequence.py:206 | the projection has the single key `seq_type.value`, which looks up to the sequence's type, and the detail dictionary under it |
| Sequences.SequenceDictAlignmentKeys | tests/test_sequence.py:206-217 | with no alignment the detail has no alignment key; when a present side's path flag is set, the detail has that side's path key and not its inline key |
| Sequences.SequenceDictBaseRoundTrip | tests/test_sequence.py:205-206 | the identifiers (none when `null`), the sequence string, and every modification and template read back from the sequence's detail dictionary |
| Sequences.SequenceDictAlignmentRoundTrip | tests/test_sequence.py:212-217 | the alignment can be read back from the sequence's detail dictionary, up to the flags of absent sides |
| Ligands.LigandTypeFromValue | src/af3cli/ligand.py:6-18 | looking up a value gives the ligand type with that value, and fails only for strings that are no type's value |
| Ligands.LigandTypeRoundTrip | src/af3cli/ligand.py:17-18 | SMILES and CCD are found again from "smiles" and "ccdCodes" |
| Input.SeedsOrDefault | src/af3cli/input.py:38-40 | a missing seed list becomes [1]; a supplied one is kept as given |
| Input.SeedsNonEmpty | src/af3cli/input.py:38-40 | the seed list is empty if and only if the caller supplied an empty list |
| Input.InputFile.constructor | src/af3cli/input.py:25-42 | defaults are name "job", version 1, dialect "alphafold3" and no user CCD data; the arguments given are stored; seeds follow `SeedsOrDefault`; the ligand list starts empty |

## Left out

- The code of `af3cli/seqid.py` is unavailable, so its exact statements are not modelled. The counter and skip loop here reproduce the behaviour that tests/test_seqid.py fixes.
- `IDRegister.reset`, document-level identifier reconciliation and `reset_ids` are not modelled. Their code is unavailable, and no test exercises them, so nothing fixes their exact behaviour.
- `InputFile.to_dict` and `Ligand.to_dict` are stubs in the source (src/af3cli/input.py:44-45, src/af3cli/ligand.py:41-42), so the document projection is not modelled.
- The template and alignment errors (`AFTemplateError`, `AFMSAError`) are not modelled. src/af3cli/exception.py only declares them, the code that raises them is unavailable, and no test pins when they are raised.
- Sequences.Sequence.constructor: requires an explicit copy count to agree with the identifiers given. The construction error raised on a mismatch is not modelled, because the code that raises it is unavailable and no test pins it. The constructor takes identifiers only as a list. The bare-string `seq_id` some tests pass (tests/test_sequence.py:181) is not modelled.
- Sequences.SequenceBase: the detail keys beyond the alignment keys ("id", "sequence", "modifications", "templates") follow the documented output format. The code of `Sequence.to_dict` is unavailable, and tests/test_sequence.py:206-217 pins only the wrapping key and the alignment keys. A sequence without identifiers projects `"id": null`.
- Sequences.MsaRoundTrip: a path flag set on an absent side contributes no key in this model. The source is not pinned on that case: tests/test_sequence.py:212-217 checks the path key on the flag alone, but every test input that sets a flag also supplies that side.
- The modelled `IDRegister.Generate` factors its skip loop into `SkipTaken`. Within one call the counter is shown only at the call's end, not after each step.
- Dictionary key order is not modelled: dictionaries are maps.
- File output (`af3cli/io.py`), the builder API, atoms and bonds, and the example scripts are not modelled. They are I/O or code outside this model.
