# inMediasRes triage dashboard — verified model of its core logic

inMediasRes is a terminal dashboard for a first look at an executable. It
hashes the file, shows its size and type, and offers a command line from
which the analyst can open the file's page on VirusTotal, Hybrid-Analysis or
Malshare. This project models the parts of the program that are logic rather
than library calls or screen layout. Every property below is proved by Dafny.

- `Dispatch` (`dispatch.dfy`): `processCommand`. It matches the whole
  command-line text exactly against `": vt"`, `": ha"` and `": ms"`. A match
  opens the service's fixed URL prefix followed by the SHA-256 text, with no
  escaping. Anything else shows the "Command not recognized" message box.
  Both side effects are returned as an `Action` value.
- `CommandLine` (`command_line.dfy`): the text of the command-line paragraph
  and the `switch e.ID` of the event loop that edits it. `CommandBox` is the
  paragraph. Its `text` field starts as `": "`, and its `Step` method performs
  one pass of the switch. `EventLoop` runs the loop over a finite run of
  events. Both methods are proved against `NextText`, `EffectOf` and
  `Replay`, the pure functions that specify them. The lemmas about those
  functions show that every reachable text, and every submitted command,
  starts with the prompt.
- `ElfIdent` (`elf_ident.dfy`): `ELFAnalysis`, which appears twice with the
  same body (`inMediasRes.go:46-69` and `utilities/elf.go:22-45`), together
  with its decision on the 16-byte identifier and `PEAnalysis`. The ELF
  reader is a parameter.
- `FileInfo` (`file_info.dfy`): the size line of the "File" panel, with the
  KiB figure computed as Go's truncating `int64` division and both numbers
  printed as `strconv.FormatInt` prints them.
- `Wrappers` (`wrappers.dfy`): the `Option` type.

Go strings are byte strings: `len` counts bytes and Backspace drops one byte.
Here a Dafny `char` stands for one byte. File contents are `seq<bv8>`. The
file size is an `int64` newtype.

What the code does, as the model states it:
- A lookup URL is the service's prefix followed by the hash, unescaped
  (`inMediasRes.go:76`, `:82`, `:88`).
- Commands are matched on the raw text of the command line, prompt
  included, with nothing trimmed, so `": vt "` is not recognised
  (`Dispatch.NearMissesUnrecognized`).
- `ELFAnalysis` calls `PEAnalysis` for every identifier that is neither ELF
  nor "MMZ", discards its result, and always returns the ELF reader's
  imports and symbols (`ElfIdent.ELFAnalysis`,
  `ElfIdent.CallsPEVersusClassify`). The source's own comment calls
  `PEAnalysis` "responsible for PE handling" (inMediasRes.go:39), and the
  second test starts with 0x4D, the 'M' of the DOS header "MZ" that opens
  every PE file. `ElfIdent.Classify` is that test corrected: ELF, PE ("MZ"
  at bytes 0..1) or Unknown. See "## Findings".
- `ELFAnalysis` opens the file with the ELF reader before it looks at the
  identifier, and panics when the reader fails (inMediasRes.go:49-50,
  utilities/elf.go:25-26). Go's `debug/elf` rejects any file without the
  ELF magic. So, given a reader that behaves that way, the `PEAnalysis`
  branch can never run (`ElfIdent.PEBranchUnreachable`,
  `ElfIdent.ZeroFilePanicsFirst`).

## Model

| member | source | states |
|---|---|---|
| `Dispatch.ProcessCommand` | inMediasRes.go:71-98 | opens a URL exactly when the text is one of the three registered commands, and that URL is the command's prefix followed by the hash; any other text gives `Unrecognized`, carrying that text and the fixed message |
| `Dispatch.RecognisedCommands` | inMediasRes.go:73-90 | `": vt"`, `": ha"` and `": ms"` open the VirusTotal, Hybrid-Analysis and Malshare URLs, each spelled out in full with the hash appended unescaped |
| `Dispatch.NearMissesUnrecognized` | inMediasRes.go:92-96 | `": vs"`, `": help"`, `": vt "` (trailing blank), `"vt"` (no prompt) and `": VT"` (upper case) are all unrecognised |
| `Dispatch.AdvertisedButUnserved` | inMediasRes.go:258-263 | of the four services in the "Analysis Services" panel, only `vs` (VirusShare) has no command that opens it |
| `Dispatch.UrlCarriesHash` | inMediasRes.go:76-88 | dropping the service prefix from an opened URL gives back exactly the hash |
| `Dispatch.PrefixCharNamesService` | inMediasRes.go:76-88 | each of the three URL prefixes has more than 8 characters, and the character at index 8 tells them apart |
| `Dispatch.OpenUrlInjective` | inMediasRes.go:73-90 | two submissions open the same URL only when they are the same command with the same hash |
| `Dispatch.UnrecognizedIndependentOfHash` | inMediasRes.go:92-96 | the reply to an unrecognised command does not depend on the hash |
| `CommandLine.NextText` | inMediasRes.go:320-349 | no event can remove the `": "` prompt from the start of the text |
| `CommandLine.EffectOf` | inMediasRes.go:327-343 | only `<C-q>` ends the loop; only `<Enter>` submits, and it submits the current text to `processCommand` with the hash |
| `CommandLine.EventEffectsOnText` | inMediasRes.go:321-348 | mouse events, `<Escape>` and `<C-q>` leave the text unchanged; `<Space>` appends one blank; `<Enter>` resets the text to the prompt; any ID without a case of its own (`Typed`) is appended verbatim |
| `CommandLine.BackspaceOnPromptIsNoOp` | inMediasRes.go:334-338 | Backspace on the bare prompt changes nothing |
| `CommandLine.BackspaceUndoesOneByte` | inMediasRes.go:331-338 | after the prompt, Backspace undoes a `<Space>` or a one-byte key |
| `CommandLine.Replay` | inMediasRes.go:317-349 | the fold of the event loop: it quits exactly when some event is `<C-q>` and submits at most one command per event; `ReplayKeepsPrompt`, `TypedKeysThenEnter` and `QuitEndsLoop` characterise its text and commands |
| `CommandLine.ReplayKeepsPrompt` | inMediasRes.go:306-349 | from a text that starts with the prompt, every text reached by any run of events, and every command submitted along the way, starts with the prompt |
| `CommandLine.TypedKeysThenEnter` | inMediasRes.go:340-348 | keys that reach the default case, followed by `<Enter>`, submit exactly the text followed by those keys and leave the bare prompt |
| `CommandLine.VtFromStart` | inMediasRes.go:340-343 | from the start, the keys `v`, `t`, `<Enter>` submit `": vt"` and open `https://virustotal.com/gui/file/` followed by the hash |
| `CommandLine.QuitEndsLoop` | inMediasRes.go:327-328 | `<C-q>` stops the loop: the text stays as it is, nothing is submitted, and later events are ignored |
| `CommandLine.CommandBox.constructor` | inMediasRes.go:303-306 | the command line starts as `": "` |
| `CommandLine.CommandBox.Step` | inMediasRes.go:319-349 | one event updates `text` to `NextText` of the old text and returns `EffectOf`; the prompt invariant is kept |
| `CommandLine.CommandBox.EventLoop` | inMediasRes.go:317-353 | over a run of events, the final text, the actions performed and whether `<C-q>` ended the loop agree with `Replay` |
| `ElfIdent.ReadIdent` | utilities/elf.go:29-30 | the identifier has 16 bytes: byte i of the file where the file is long enough, and 0 past its end |
| `ElfIdent.CallsPE` | utilities/elf.go:33-35 | the decision `CallsPE` selects `PEAnalysis` exactly when bytes 0..3 are not the ELF magic and bytes 0..2 are not "MMZ"; `PEDecision` and `CallsPEVersusClassify` characterise it |
| `ElfIdent.PEDecision` | utilities/elf.go:33-37 | with the ELF magic at bytes 0..3, `PEAnalysis` is not called; without it but with "MMZ" at bytes 0..2, it is not called; with neither, it is called |
| `ElfIdent.OnlyFirstFourBytesMatter` | utilities/elf.go:33-35 | identifiers that agree on bytes 0..3 get the same decision, whatever bytes 4..15 hold |
| `ElfIdent.ShortFile` | utilities/elf.go:29-35 | a file of fewer than 4 bytes never carries the ELF magic, and the decision `CallsPE` selects `PEAnalysis` for it unless it is exactly "MMZ" |
| `ElfIdent.PEAnalysis` | inMediasRes.go:40-43 | returns empty import and symbol lists |
| `ElfIdent.ELFAnalysis` | inMediasRes.go:46-69 | panics exactly when the ELF reader fails; otherwise returns the reader's libraries and symbols whichever branch the decision takes, and calls `PEAnalysis` exactly when the decision says so |
| `ElfIdent.PEBranchUnreachable` | inMediasRes.go:48-61 | if the reader rejects every file without the ELF magic, as Go's reader does, then no call that returns has run `PEAnalysis` |
| `ElfIdent.ClassifyByMagic` | utilities/elf.go:33-37 | the intended classifier: ELF exactly when bytes 0..3 are the ELF magic; PE exactly when they are not and bytes 0..1 are "MZ"; Unknown otherwise |
| `ElfIdent.ShortFileUnknown` | utilities/elf.go:29-30 | a file of fewer than 2 bytes is classified Unknown |
| `ElfIdent.CallsPEVersusClassify` | utilities/elf.go:33-37 | the code calls `PEAnalysis` exactly for PE files and for Unknown files that do not start with "MMZ" |
| `ElfIdent.ZeroIdentReachesPE` | inMediasRes.go:57-61 | sixteen zero bytes are neither ELF nor PE, yet the decision `CallsPE` selects `PEAnalysis` for them |
| `ElfIdent.ZeroFilePanicsFirst` | inMediasRes.go:48-50 | with a reader that rejects files without the ELF magic, a file of sixteen zero bytes panics at the reader before the identifier is tested |
| `FileInfo.KiB` | inMediasRes.go:228 | the KiB figure is the quotient truncated toward zero: `k*1024 <= size < (k+1)*1024` for a non-negative size, and `(k-1)*1024 < size <= k*1024` for a negative one |
| `FileInfo.KiBExamples` | inMediasRes.go:228 | 1023 bytes show 0 KiB, 1024 bytes show 1 KiB, -1023 shows 0, and any whole number of KiB is shown exactly |
| `FileInfo.Digits` | inMediasRes.go:228 | a number is printed as at least one decimal digit, with no leading zero |
| `FileInfo.FormatInt` | inMediasRes.go:228 | a printed number contains no blank |
| `FileInfo.FormatIntRoundTrip` | inMediasRes.go:228 | reading back any printed `int` gives that same number |
| `FileInfo.SizeLine` | inMediasRes.go:228 | the line starts with the "Size:" label; the text after it up to the first blank reads back as the size itself; right after that number comes " (", and the text after it up to the next blank reads back as the KiB figure `KiB(size)`, and the line ends with `" KiB)"` and a newline; `SizeLineDeterminesSize` follows |
| `FileInfo.SizeLineDeterminesSize` | inMediasRes.go:228 | two sizes produce the same size line exactly when they are equal, so the line determines the size |

## Left out

- The hashes (`hashfilemd5`, `hashfilesha1`, `hashfilesha256` at inMediasRes.go:100-170, `ssdeep.FuzzyFilename`, and utilities/basic.go) are calls into Go's crypto, hex and ssdeep libraries. The SHA-256 text is an opaque `string` parameter of the dispatcher.
- `elf.NewFile`, `ImportedLibraries` and `ImportedSymbols` belong to Go's `debug/elf`. The reader is the parameter `newFile`. The source ignores the errors of the last two, so an `ElfFile` holds whatever they return, and the empty list stands for Go's nil.
- `os.Open`, `ReadAt`, `os.Stat`, `ioutil.ReadFile` and `filetype.Match`, together with the early exit on an unknown file type (inMediasRes.go:221-226), are I/O and a foreign sniffer. The file's bytes and its size are parameters.
- `browser.OpenURL` and `dialog.Msgbox` are external side effects. They are returned as `Action` values, and whether they succeed is not modelled.
- The termui widgets, layout, colours, `ui.Render`, the header and hash text, the other lines of the "File" panel (type, compiler, `time.Format` date), `ui.PollEvents`, the ticker and the `select` are presentation or channel concurrency. The ticker branch only increments a counter that nothing reads.
- `CommandLine.CommandBox.EventLoop`: it takes a finite sequence of events in place of the endless event channel.
- The `check`/`panic` error handling is modelled only where it decides an outcome: `Panicked` when the ELF reader fails. The `check(err)` after `ReadAt` tests the reader's earlier error, not the read's, so a short read is modelled as zero padding.
- UTF-8 is not modelled. A key whose ID has several bytes stands here as several `char`s, one per byte.
- `utilities/elf.go` calls `PEAnalysis`, but that function is defined only in the main package (inMediasRes.go:40-43). Both copies of `ELFAnalysis` are modelled by the single `ElfIdent.ELFAnalysis`, using that definition.

## Findings

| source | as written | input that shows it | evidently intended | confidence | as-written member | corrected member |
|---|---|---|---|---|---|---|
| utilities/elf.go:35 (also inMediasRes.go:59) | `ident[0] != '\x4D' \|\| ident[1] != 'M' \|\| ident[2] != 'Z'` tests for "MMZ" at bytes 0..2, and the decision `CallsPE` selects `PEAnalysis` for every identifier that is neither ELF nor "MMZ". The slip is latent: the panic after `elf.NewFile` (inMediasRes.go:49-50, utilities/elf.go:25-26) comes first for every non-ELF file, and neither file has a caller of `ELFAnalysis` | sixteen zero bytes: not ELF, not "MZ", yet `CallsPE` selects `PEAnalysis` (`ZeroFilePanicsFirst` shows the reader panics first) | select the PE analyser exactly for files that start with "MZ" and lack the ELF magic; classify everything else that is not ELF as Unknown | not executed; high that the test is a slip, and the fix needs both "MMZ" changed to "MZ" and the inner test inverted (it calls `PEAnalysis` when the bytes are NOT the magic) | `ElfIdent.ZeroIdentReachesPE` | `ElfIdent.ClassifyByMagic` |
