/**
 * The nucleotide types the variant model is built on. Their definitions
 * (the symbol table, the chemical class of each IUPAC code, complements)
 * are not part of this model: a base carries its symbol and its chemical
 * class as given, and nothing here assumes which symbol has which class.
 */
module Bases {
  import opened MachineInts

  /** Chemical class of a base; `Ambiguous` stands for every class other than the two resolved ones. */
  datatype ChemClass = Purine | Pyrimidine | Ambiguous {
    predicate IsResolved() {
      Purine? || Pyrimidine?
    }
  }

  /** One DNA base: its canonical symbol and its chemical class. */
  datatype Base = Base(symbol: char, chemClass: ChemClass)

  /**
   * A DNA sequence, owned as a vector of bases. A Rust vector of
   * non-zero-sized elements never holds more than `isize::MAX` of them.
   */
  type DnaSeq = s: seq<Base> | |s| <= ISIZE_MAX
}
