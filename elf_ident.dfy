/**
  The container-format decision of `ELFAnalysis`, which exists twice in the
  program with the same body (in the main package and in the utilities
  package).

  `ELFAnalysis` opens the file with Go's ELF reader and panics when the
  reader fails. It then reads the 16-byte identifier at offset 0 and tests
  it: when bytes 0..3 are not 7F 'E' 'L' 'F', and bytes 0..2 are not
  'M' 'M' 'Z' (the first byte is written as 0x4D, which is 'M'), it calls
  `PEAnalysis` and throws the result away. Whatever the branch, it returns
  the imported libraries and symbols of the ELF reader.

  The ELF reader is a foreign library and is a parameter here: a function
  from the file's bytes to its imported libraries and symbols, or `None`
  when it cannot parse the file.
*/
module ElfIdent {
  import opened Wrappers

  /** The length of the identifier array `ident [16]uint8`. */
  const IdentSize: nat := 16

  /** 0x7F 'E' 'L' 'F' */
  const ElfMagic: seq<bv8> := [0x7F, 0x45, 0x4C, 0x46]

  /** 'M' 'M' 'Z': what the second test compares bytes 0..2 against. */
  const MmzPrefix: seq<bv8> := [0x4D, 0x4D, 0x5A]

  /** 'M' 'Z': the DOS header that a PE file starts with. */
  const MzMagic: seq<bv8> := [0x4D, 0x5A]

  /**
    `f.ReadAt(ident[0:], 0)`: the first 16 bytes of the file. A shorter file
    fills only its own length; the rest of the array keeps Go's zero value,
    and the read error is not looked at.
  */
  function ReadIdent(file: seq<bv8>): (ident: seq<bv8>)
    ensures |ident| == IdentSize
    ensures forall i :: 0 <= i < IdentSize ==> ident[i] == if i < |file| then file[i] else 0
  {
    if |file| >= IdentSize then file[..IdentSize] else file + seq(IdentSize - |file|, _ => 0 as bv8)
  }

  /**
    The nested test that decides whether `PEAnalysis` is called: neither the
    ELF magic at bytes 0..3 nor "MMZ" at bytes 0..2.
  */
  predicate CallsPE(ident: seq<bv8>)
    requires |ident| == IdentSize
    ensures CallsPE(ident) <==> ident[..4] != ElfMagic && ident[..3] != MmzPrefix
  {
    (ident[0] != 0x7F || ident[1] != 0x45 || ident[2] != 0x4C || ident[3] != 0x46)
    && (ident[0] != 0x4D || ident[1] != 0x4D || ident[2] != 0x5A)
  }

  /** The three branches of the decision, stated on the prefixes. */
  lemma PEDecision(ident: seq<bv8>)
    requires |ident| == IdentSize
    ensures ident[..4] == ElfMagic ==> !CallsPE(ident)
    ensures ident[..4] != ElfMagic && ident[..3] == MmzPrefix ==> !CallsPE(ident)
    ensures ident[..4] != ElfMagic && ident[..3] != MmzPrefix ==> CallsPE(ident)
  {
  }

  /** Only bytes 0..3 take part in the decision; bytes 4..15 never matter. */
  lemma OnlyFirstFourBytesMatter(a: seq<bv8>, b: seq<bv8>)
    requires |a| == IdentSize && |b| == IdentSize
    requires a[..4] == b[..4]
    ensures CallsPE(a) == CallsPE(b)
  {
  }

  /** A file of fewer than four bytes never carries the ELF magic, so only "MMZ" keeps it from `PEAnalysis`. */
  lemma ShortFile(file: seq<bv8>)
    requires |file| < 4
    ensures ReadIdent(file)[..4] != ElfMagic
    ensures CallsPE(ReadIdent(file)) <==> file != MmzPrefix
  {
    assert ReadIdent(file)[..4][3] == 0;
  }

  /** A symbol as `debug/elf` reports it: its name, version and library. */
  datatype ImportedSymbol = ImportedSymbol(name: string, version: string, library: string)

  /** What the ELF reader yields for a file it could parse. */
  datatype ElfFile = ElfFile(libraries: seq<string>, symbols: seq<ImportedSymbol>)

  /** The outcome of `ELFAnalysis`: a panic, or its two results and whether `PEAnalysis` ran. */
  datatype Analysis =
    | Panicked
    | Returned(imp: seq<string>, sym: seq<ImportedSymbol>, calledPE: bool)

  /** `PEAnalysis` returns its two named results untouched: nil slices. */
  function PEAnalysis(): (r: (seq<string>, seq<ImportedSymbol>))
    ensures |r.0| == 0 && |r.1| == 0
  {
    ([], [])
  }

  /** `ELFAnalysis`, with the ELF reader given as `newFile`. */
  function ELFAnalysis(file: seq<bv8>, newFile: seq<bv8> -> Option<ElfFile>): (r: Analysis)
    ensures newFile(file).None? <==> r.Panicked?
    ensures r.Returned? ==> r.imp == newFile(file).value.libraries
    ensures r.Returned? ==> r.sym == newFile(file).value.symbols
    ensures r.Returned? ==> (r.calledPE <==> CallsPE(ReadIdent(file)))
  {
    match newFile(file)
    case None => Panicked
    case Some(elf) =>
      var calledPE := CallsPE(ReadIdent(file));
      Returned(elf.libraries, elf.symbols, calledPE)
  }

  /**
    Go's ELF reader rejects every file whose first four bytes are not the ELF
    magic. Given a reader that does so, the `PEAnalysis` branch is never
    reached: every file that gets past the reader takes the ELF path.
  */
  lemma PEBranchUnreachable(file: seq<bv8>, newFile: seq<bv8> -> Option<ElfFile>)
    requires forall f :: newFile(f).Some? ==> ReadIdent(f)[..4] == ElfMagic
    ensures ELFAnalysis(file, newFile).Returned? ==> !ELFAnalysis(file, newFile).calledPE
  {
  }

  /**
    The formats the test tells apart. `PEAnalysis` is documented as the
    function responsible for PE handling, and the 0x4D ('M') that the
    second test starts with is the first byte of the DOS header "MZ" that
    opens every PE file.
  */
  datatype ContainerFormat = Elf | Pe | Unknown

  /**
    The corrected test: the ELF magic at 0..3, else "MZ" at 0..1 (a PE
    file, for `PEAnalysis`), else unknown.
  */
  function Classify(ident: seq<bv8>): (f: ContainerFormat)
    requires |ident| == IdentSize
  {
    if ident[0] == 0x7F && ident[1] == 0x45 && ident[2] == 0x4C && ident[3] == 0x46 then Elf
    else if ident[0] == 0x4D && ident[1] == 0x5A then Pe
    else Unknown
  }

  /** The intended classification, stated on the prefixes; a file with fewer than two bytes is unknown. */
  lemma ClassifyByMagic(ident: seq<bv8>)
    requires |ident| == IdentSize
    ensures Classify(ident) == Elf <==> ident[..4] == ElfMagic
    ensures Classify(ident) == Pe <==> ident[..4] != ElfMagic && ident[..2] == MzMagic
    ensures Classify(ident) == Unknown <==> ident[..4] != ElfMagic && ident[..2] != MzMagic
  {
  }

  /** Too short a file cannot be classified. */
  lemma ShortFileUnknown(file: seq<bv8>)
    requires |file| < 2
    ensures Classify(ReadIdent(file)) == Unknown
  {
  }

  /**
    How the test as written relates to the corrected one: it selects
    `PEAnalysis` for every PE file, and also for every unknown file that
    does not start with "MMZ".
  */
  lemma CallsPEVersusClassify(ident: seq<bv8>)
    requires |ident| == IdentSize
    ensures CallsPE(ident) <==> Classify(ident) == Pe || (Classify(ident) == Unknown && ident[..3] != MmzPrefix)
  {
  }

  /** Sixteen zero bytes are neither ELF nor PE, yet the test selects `PEAnalysis` for them. */
  lemma ZeroIdentReachesPE()
    ensures var zeros := seq(IdentSize, _ => 0 as bv8);
            CallsPE(zeros) && Classify(zeros) == Unknown
  {
  }

  /**
    The slip is masked: with a reader that rejects files without the ELF
    magic, as Go's does, a file of sixteen zero bytes panics at the reader
    before the test is made.
  */
  lemma ZeroFilePanicsFirst(newFile: seq<bv8> -> Option<ElfFile>)
    requires forall f :: newFile(f).Some? ==> ReadIdent(f)[..4] == ElfMagic
    ensures ELFAnalysis(seq(IdentSize, _ => 0 as bv8), newFile).Panicked?
  {
  }
}
