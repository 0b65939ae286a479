/**
 * Small genomic variants (src/mutations.rs): a variant record, its
 * classification by allele lengths, and transition/transversion
 * classification by the chemical classes of the two alleles.
 */
module Mutations {
  import opened Wrappers
  import opened MachineInts
  import opened Bases

  /** Length-based kind of a small variant. */
  datatype SmallMutationType = SNV | DOUBLET | MNV | INSERTION | DELETION

  /** Is `s` a non-empty word of upper-case ASCII letters? */
  predicate IsUpperWord(s: string) {
    |s| > 0 && forall i :: 0 <= i < |s| ==> 'A' <= s[i] <= 'Z'
  }

  /** The name `Display` writes for a variant kind. */
  function TypeName(t: SmallMutationType): (s: string)
    ensures IsUpperWord(s)
  {
    match t
    case SNV => "SNV"
    case DOUBLET => "DOUBLET"
    case MNV => "MNV"
    case INSERTION => "INSERTION"
    case DELETION => "DELETION"
  }

  /** Distinct kinds are displayed under distinct names, so the name identifies the kind. */
  lemma TypeNameInjective(a: SmallMutationType, b: SmallMutationType)
    requires TypeName(a) == TypeName(b)
    ensures a == b
  {
  }

  /**
   * Classifies a variant from its reference and alternative allele lengths.
   * Equal lengths of zero fall through to MNV rather than being refused.
   */
  function FromLengths(reflen: Usize, altlen: Usize): (r: SmallMutationType)
    ensures r == INSERTION <==> altlen > reflen
    ensures r == DELETION <==> altlen < reflen
    ensures r == SNV <==> reflen == 1 && altlen == 1
    ensures r == DOUBLET <==> reflen == 2 && altlen == 2
    ensures r == MNV <==> reflen == altlen && reflen != 1 && reflen != 2
  {
    if altlen > reflen then INSERTION
    else if altlen < reflen then DELETION
    else
      match reflen
      case 0 => MNV
      case 1 => SNV
      case 2 => DOUBLET
      case _ => MNV
  }

  /** Transition or transversion of a single-base substitution. */
  datatype TiTv = Transition | Transversion

  /**
   * Transition when both classes are the same resolved class, transversion when
   * they are the two different resolved classes, nothing when either is unresolved.
   */
  function FromChemicalClass(reference: ChemClass, alternative: ChemClass): (r: Option<TiTv>)
    ensures r == Some(Transition) <==> reference.IsResolved() && reference == alternative
    ensures r == Some(Transversion) <==>
              reference.IsResolved() && alternative.IsResolved() && reference != alternative
    ensures r == None <==> !reference.IsResolved() || !alternative.IsResolved()
  {
    match (reference, alternative)
    case (Purine, Purine) => Some(Transition)
    case (Pyrimidine, Pyrimidine) => Some(Transition)
    case (Purine, Pyrimidine) => Some(Transversion)
    case (Pyrimidine, Purine) => Some(Transversion)
    case _ => None
  }

  /** Swapping reference and alternative does not change the Ti/Tv verdict. */
  lemma FromChemicalClassSymmetric(x: ChemClass, y: ChemClass)
    ensures FromChemicalClass(x, y) == FromChemicalClass(y, x)
  {
  }

  /**
   * `altlen as i64 - reflen as i64` as the source computes it: each length is
   * cast to i64 and the difference is taken in i64, both with wrap-around.
   */
  function LengthDelta(reflen: Usize, altlen: Usize): (r: I64)
    ensures reflen <= I64_MAX && altlen <= I64_MAX ==> r == altlen - reflen
  {
    WrappingSubI64(UsizeAsI64(altlen), UsizeAsI64(reflen))
  }

  /**
   * Beyond `i64::MAX` the cast wraps and the sign of the delta no longer agrees
   * with the class: an insertion of 2^63 bases would have a negative delta.
   * Vectors of bases never get that long (see `DnaSeq`).
   */
  lemma LengthDeltaWrapsBeyondI64()
    ensures FromLengths(0, TWO_TO_THE_63) == INSERTION
    ensures LengthDelta(0, TWO_TO_THE_63) < 0
  {
  }

  /** First element of a slice, as `as_slice().first()`. */
  function First(s: DnaSeq): (r: Option<Base>)
    ensures r.Some? <==> |s| > 0
    ensures r.Some? ==> r.value == s[0]
  {
    if |s| == 0 then None else Some(s[0])
  }

  /**
   * One small variant: a 1-based start position on a chromosome, the reference
   * and alternative alleles, whether the site is multiallelic, and an optional
   * context sequence that may be attached after construction.
   */
  class SmallMutation {
    var chromosome: string
    var position: U64
    var reference: DnaSeq
    var alternative: DnaSeq
    var multiallelic: bool
    var context: Option<DnaSeq>

    /** Stores every argument as given; nothing is validated. */
    constructor (chromosome: string, position: U64, reference: DnaSeq, alternative: DnaSeq,
                 multiallelic: bool, context: Option<DnaSeq>)
      ensures this.chromosome == chromosome && this.position == position
      ensures this.reference == reference && this.alternative == alternative
      ensures this.multiallelic == multiallelic && this.context == context
    {
      this.chromosome := chromosome;
      this.position := position;
      this.reference := reference;
      this.alternative := alternative;
      this.multiallelic := multiallelic;
      this.context := context;
    }

    /** Attaches (or replaces) the context sequence; the variant itself is untouched. */
    method AddContext(s: DnaSeq)
      modifies this
      ensures context == Some(s)
      ensures chromosome == old(chromosome) && position == old(position)
      ensures reference == old(reference) && alternative == old(alternative)
      ensures multiallelic == old(multiallelic)
      ensures Class() == old(Class()) && Delta() == old(Delta()) && Titv() == old(Titv())
    {
      context := Some(s);
    }

    /** Number of bases in the reference allele. */
    function RefLen(): (n: Usize)
      reads this
      ensures n == |reference| && n <= ISIZE_MAX
    {
      |reference|
    }

    /** Number of bases in the alternative allele. */
    function AltLen(): (n: Usize)
      reads this
      ensures n == |alternative| && n <= ISIZE_MAX
    {
      |alternative|
    }

    /** Net change in length: positive for a net insertion, negative for a net deletion. */
    function Delta(): (d: I64)
      reads this
      ensures d == |alternative| - |reference|
    {
      LengthDelta(RefLen(), AltLen())
    }

    /** Kind of the variant, which agrees in sign with `Delta`. */
    function Class(): (r: SmallMutationType)
      reads this
      ensures r == INSERTION <==> Delta() > 0
      ensures r == DELETION <==> Delta() < 0
      ensures r in {SNV, DOUBLET, MNV} <==> Delta() == 0
      ensures r == SNV <==> |reference| == 1 && |alternative| == 1
    {
      FromLengths(RefLen(), AltLen())
    }

    /**
     * Ti/Tv of the variant: only an SNV has one. The two early returns on an
     * empty allele (`first()?`) are kept; `TitvOfSnv` shows they never fire.
     */
    function Titv(): (r: Option<TiTv>)
      reads this
      ensures Class() != SNV ==> r == None
    {
      if Class() != SNV then None
      else if First(reference).None? || First(alternative).None? then None
      else FromChemicalClass(First(reference).value.chemClass, First(alternative).value.chemClass)
    }
  }

  /**
   * For an SNV both alleles hold exactly one base, so neither early return on an
   * empty allele fires and the verdict is that of the two single bases.
   */
  lemma TitvOfSnv(m: SmallMutation)
    requires m.Class() == SNV
    ensures |m.reference| == 1 && |m.alternative| == 1
    ensures m.Titv() == FromChemicalClass(m.reference[0].chemClass, m.alternative[0].chemClass)
  {
  }
}
