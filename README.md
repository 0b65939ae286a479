# seq: small-variant classification and the draft sequence type, in Dafny

This project models the core of `seq`, a Rust library for nucleotide
sequences, and proves properties of that model.

- **Variant classification** (`src/mutations.rs`). A `SmallMutation` records a
  chromosome name, a 1-based position, reference and alternative alleles,
  a multiallelic flag and an optional context sequence. It is classified as
  SNV, DOUBLET, MNV, INSERTION or DELETION from the two allele lengths. An SNV
  is further classified as a transition or a transversion from the chemical
  classes of its two bases. `add_context` is the record's only mutator.
- **Draft sequence type** (`src/sequences.rs`). `Seq` is a text tagged with an
  alphabet (DNA or RNA). `Alphabet::is_valid_char` accepts A, C, G, N plus T
  (DNA) or U (RNA), upper case only.

Files:

- `wrappers.dfy`: `Option` and `Result`.
- `machine_ints.dfy`: `usize`, `u64` and `i64` as integer ranges. The `as i64`
  cast and wrapping `i64` subtraction are written out as two's-complement
  wrap-around.
- `bases.dfy`: the types `mutations.rs` imports but that are not part of this
  model. `Base` carries its symbol and its `ChemClass` as given, and no
  symbol table is assumed. `ChemClass` is `Purine | Pyrimidine | Ambiguous`.
  `DnaSeq` is a sequence of bases no longer than `isize::MAX`, which is the
  most a Rust vector of non-zero-sized elements can hold.
- `mutations.rs` → `mutations.dfy`, module `Mutations`. The pure parts are
  functions and lemmas. `SmallMutation` is a class whose `AddContext` method
  updates `context` in place.
- `sequences.rs` → `sequences.dfy`, module `Sequences`. Everything there is
  pure, so it uses datatypes and functions. The Rust field `seq` is called
  `text`, because `seq` is a Dafny keyword.

Three facts about the code that the model keeps:

- `Seq::new` validates nothing and always returns `Ok`.
- `Seq::len` counts UTF-8 bytes (`String::len`), not symbols. `Seq.Len` is
  the UTF-8 byte count. It equals the number of characters exactly when the
  text is ASCII.
- `delta()` is computed by casting both `usize` lengths to `i64`. The model
  keeps the cast. `Delta` is proved to be the exact difference only because
  allele vectors cannot exceed `isize::MAX` elements.
  `LengthDeltaWrapsBeyondI64` shows the bound is needed.

## Model

| member | source | states |
|---|---|---|
| MachineInts.WrapI64 | src/mutations.rs:126 | the result lies in the i64 range, is congruent to the input modulo 2^64, and is the input itself when that already fits in i64 |
| MachineInts.UsizeAsI64 | src/mutations.rs:126 | `usize as i64` keeps values up to i64::MAX and turns larger ones into their negative two's-complement reading (x − 2^64) |
| MachineInts.WrappingSubI64 | src/mutations.rs:126 | i64 subtraction is exact when the difference fits, and otherwise is off by exactly 2^64 in the direction that brings it back into range |
| Mutations.TypeName | src/mutations.rs:73-79 | every variant kind is displayed as a non-empty upper-case word |
| Mutations.TypeNameInjective | src/mutations.rs:73-79 | distinct kinds have distinct display names, so a name identifies its kind |
| Mutations.FromLengths | src/mutations.rs:85-96 | each kind's exact set of length pairs: INSERTION iff altlen > reflen; DELETION iff altlen < reflen; SNV iff both are 1; DOUBLET iff both are 2; MNV iff the lengths are equal and neither 1 nor 2, so two zero-length alleles classify as MNV and are not an error |
| Mutations.FromChemicalClass | src/mutations.rs:106-114 | Transition iff both classes are the same resolved class (Purine or Pyrimidine); Transversion iff both are resolved and differ; None iff either class is unresolved |
| Mutations.FromChemicalClassSymmetric | src/mutations.rs:106-114 | swapping reference and alternative classes does not change the verdict |
| Mutations.LengthDelta | src/mutations.rs:125-127 | `altlen as i64 - reflen as i64` is the exact difference altlen − reflen whenever both lengths fit in i64 |
| Mutations.LengthDeltaWrapsBeyondI64 | src/mutations.rs:125-127 | past i64::MAX the cast wraps: lengths (0, 2^63) classify as INSERTION yet have a negative delta, so the i64 bound is needed |
| Mutations.First | src/mutations.rs:138-139 | `first()` gives a value iff the allele is non-empty, and that value is its first base |
| Mutations.SmallMutation.constructor | src/mutations.rs:39-55 | every argument is stored as given, with no validation |
| Mutations.SmallMutation.AddContext | src/mutations.rs:57-59 | context becomes `Some(s)`; chromosome, position, alleles and multiallelic flag are unchanged, and so are the class, delta and Ti/Tv |
| Mutations.SmallMutation.RefLen | src/mutations.rs:118-120 | the number of reference bases, never above isize::MAX |
| Mutations.SmallMutation.AltLen | src/mutations.rs:121-123 | the number of alternative bases, never above isize::MAX |
| Mutations.SmallMutation.Delta | src/mutations.rs:125-127 | the i64 delta is always the exact difference \|alternative\| − \|reference\| (no wrap-around can occur) |
| Mutations.SmallMutation.Class | src/mutations.rs:129-131 | the class agrees in sign with the delta: INSERTION iff delta > 0, DELETION iff delta < 0, SNV/DOUBLET/MNV iff delta = 0; SNV iff both alleles are single bases |
| Mutations.SmallMutation.Titv | src/mutations.rs:133-142 | no Ti/Tv verdict for anything but an SNV |
| Mutations.TitvOfSnv | src/mutations.rs:133-142 | for an SNV both alleles have length 1, so neither `first()?` short-circuits, and the verdict is `from_chemical_class` of the two bases' classes |
| Sequences.Alphabet.IsValidChar | src/sequences.rs:37-42 | only upper-case ASCII letters are accepted: exactly A, C, G and N for both alphabets, plus T for DNA and U for RNA |
| Sequences.AlphabetsDifferOnlyOnTAndU | src/sequences.rs:39-40 | the alphabets disagree exactly on T and U, and T is the one DNA-only symbol |
| Sequences.LowerCaseRejected | src/sequences.rs:37-42 | validation is case-sensitive: both alphabets reject every lower-case letter |
| Sequences.Utf8Width | src/sequences.rs:17-19 | each character takes 1 to 4 bytes, and takes 1 exactly when it is ASCII |
| Sequences.Utf8Length | src/sequences.rs:17-19 | a string's byte length is between 1 and 4 bytes per character, and equals its character count exactly when every character is ASCII |
| Sequences.Seq.Len | src/sequences.rs:17-19 | `len()` is the UTF-8 byte length: between \|text\| and 4·\|text\|, and exactly \|text\| for ASCII text |
| Sequences.Seq.IsEmpty | src/sequences.rs:21-23 | `is_empty()` holds iff `len() == 0` |
| Sequences.Seq.Render | src/sequences.rs:10-13 | the rendered text is exactly the stored text, with no metadata added, and so is exactly `len()` bytes long |
| Sequences.New | src/sequences.rs:25-27 | construction always returns `Ok` and stores the text and alphabet unchanged |
| Sequences.RenderRoundTrip | src/sequences.rs:10-13 | rendering a newly built sequence gives back exactly the text it was built from |
| Sequences.NewDoesNotValidate | src/sequences.rs:25-27 | construction does not call the symbol check: "AGXCT" is stored as DNA although 'X' is not a DNA symbol |

## Left out

- `SmallMutation`'s `Display` template (src/mutations.rs:20-36): it needs decimal formatting of `u64`/`i64` and the `Display` of `DnaSeq`, which is not part of this model. Only the variant-kind names are modelled.
- `Base`, `ChemClass` and `DnaSeq` (`crate::base`, `crate::sequences::DnaSeq`) are not part of this model. The symbol table, IUPAC codes, chemical classification, complement, reverse and slicing, and their in-place variants, are not modelled. A base's chemical class is taken as given.
- src/errors.rs: it only declares error variants and their messages. No modelled operation returns them.
- examples/modify_in_place.rs: an example program that prints. It relies on `DnaSeq` operations that are not part of this model.
- Mutations.LengthDelta: models the release build, where `i64` subtraction wraps. A build with overflow checks would panic instead. Neither happens for real alleles, because their lengths fit in i64 (`SmallMutation.Delta`).
- The derived `Debug` output of `Seq`, `Alphabet`, `SmallMutation` and the enums is not modelled.
