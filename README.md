# UTR extraction from GFF3 annotations, modelled in Dafny

The two scripts `UTR_Extractor.py` and `UTR_Extractor_Bed.py` read a GFF3
annotation file line by line. They collect the exons and coding segments
(CDS) of the current transcript. When the next `gene` or `mRNA` line arrives,
and once more after the last line, they "flush" that transcript. The flush
clips every exon against the coding span `[Point1, Point2]`
(`Point1 = min(CDS_Start)`, `Point2 = max(CDS_End)`). Each exon gives at most
one upstream piece and at most one downstream piece. The sequence script
fetches the genome text of each piece and splices the pieces into one
upstream string and one downstream string. It then prints them as the 5' or
3' UTR, depending on the strand. The interval script prints one row per
piece instead.

The project has four modules:

- `Gff` (`gff.dfy`): GFF records, and the Python helpers the scripts use
  (`min`, `max`, `str.index`, slicing, substring `in`). It also holds the
  per-transcript context and how one line changes it (`Ingest`).
- `Geometry` (`geometry.dfy`): the clipping of exons against the coding
  span, the lists of pieces in file order, how much of the exons they cover,
  and the strand-dependent 5'/3' label.
- `SequenceExtractor` (`utr_extractor.dfy`): `GetSeq`, the splicing loops
  (two independent `if`s in the line loop, one `if/elif` chain in the
  trailing flush), and `Printing`. The class `Extractor` holds the script's
  module-level variables, and its `output` field records every printed row.
- `BedExtractor` (`utr_extractor_bed.dfy`): `Printing` with its per-side
  coordinate shifts, and the per-exon emit loop. The class `BedAggregator`
  holds the script's module-level variables and its output.

The genome is a map from contig name to sequence text. The reverse
complement is a function that the caller passes in. Output rows are values
of `SeqRow` and `BedRow`, not text.

The model follows the code as written, including where it departs from a
cleaner design. Gene names and transcript ids come from fixed-offset slices
(`attr[8:...]`, `attr[7:...]`) up to the first `;`. Exons and CDS lines
are matched to the transcript by substring, so an empty id matches every
line, and the id `T1` read from `ID=rna-T1;...` also matches a line whose
parent is `rna-T10` (`Gff.ShorterIdMatchesLongerParent`).
Comparisons against `Point1` and `Point2` are strict. So the pieces plus
the coding span do not always cover the exons: an exon that ends exactly at
`Point1` contributes nothing (`Geometry.BoundaryExonIsLost`). On the minus
strand, each piece is reverse-complemented on its own, but the pieces are
joined in file order. The trailing flush of the sequence script uses one
`if/elif` chain, so a straddling exon in the last transcript gives only its
upstream piece (`Geometry.StraddlingExon`).

`GetSeq` looks the contig up only on `+` and `-`. A lookup of a contig
that the genome lacks raises `KeyError` and ends the script. A flush makes
such a lookup only when some exon yields a piece. So the model of the
sequence script records that outcome in an `aborted` flag, and the whole
run returns whether it completed.

## Model

| member | source | states |
|---|---|---|
| Gff.IsComment | UTR_Extractor.py:108 | a line is skipped as a comment iff its first column starts with `#` |
| Gff.IsBoundary | UTR_Extractor.py:112 | a `gene` or `mRNA` line is where the open transcript is flushed and a new one begins (also UTR_Extractor_Bed.py:74) |
| Gff.Contains | UTR_Extractor.py:153 | Python's substring test `needle in hay`: some suffix of `hay` starts with `needle` |
| Gff.ShouldFlush | UTR_Extractor.py:115 | the flush test: a transcript id, at least one CDS, and a coding span that differs from the transcript span at one end or the other |
| Gff.SeqMin | UTR_Extractor.py:116 | `Point1`, the minimum of the CDS starts: a member of the list that no member is below |
| Gff.SeqMax | UTR_Extractor.py:117 | `Point2`, the maximum of the CDS ends: a member of the list that no member is above |
| Gff.Point1 | UTR_Extractor.py:116 | `Point1 = min(CDS_Start)` of a transcript with at least one CDS, by `SeqMin` |
| Gff.Point2 | UTR_Extractor.py:117 | `Point2 = max(CDS_End)` of a transcript with at least one CDS, by `SeqMax` |
| Gff.IndexOf | UTR_Extractor.py:135 | `str.index(";")` returns the position of the first `;`: no `;` comes before it |
| Gff.Slice | UTR_Extractor.py:22 | Python slicing: the length and characters of `s[lo:hi]`, with negative bounds counted from the end and bounds clamped to the string |
| Gff.GeneNameOf | UTR_Extractor.py:135 | the gene name `attr[8:attr.index(";")]` holds no `;`, and when it is not empty the first `;` follows it directly |
| Gff.TranscriptIdOf | UTR_Extractor.py:143 | the transcript id `attr[7:attr.index(";")]` holds no `;`, and when it is not empty the first `;` follows it directly |
| Gff.SliceToSeparator | UTR_Extractor.py:135-143 | slicing from a fixed offset to the first `;` gives the text between a prefix of that length and the separator |
| Gff.GeneNameOfRoundTrip | UTR_Extractor.py:135 | the gene name read from `<8-character prefix><name>;...` is `<name>` |
| Gff.TranscriptIdOfRoundTrip | UTR_Extractor.py:143 | the transcript id read from `<7-character prefix><id>;...` is `<id>` |
| Gff.ShortAttributeGivesEmptyId | UTR_Extractor.py:135-143 | when the first `;` falls inside the fixed offset, the gene name and the transcript id are both empty |
| Gff.EmptyIdMatchesEveryLine | UTR_Extractor.py:153 | the empty transcript id occurs in every attribute column, so before the first `mRNA` line every exon and CDS line is taken |
| Gff.ShorterIdMatchesLongerParent | UTR_Extractor.py:143-153 | the parent test is textual: the id `T1`, read from `ID=rna-T1;...`, accepts an exon line whose parent is `rna-T10` |
| Gff.Ingest | UTR_Extractor.py:107-160 | one line's effect on the context keeps the CDS start and end lists paired |
| Gff.IngestEffect | UTR_Extractor.py:107-160 | comments and other types change nothing; after a `gene` or `mRNA` line the lists are empty; `gene` sets only the name; `mRNA` sets id, contig, strand and the span minus 1; exon and CDS lines only append their interval minus 1, and only when the id occurs in column 9 |
| Gff.ForeignLineIgnored | UTR_Extractor_Bed.py:109-116 | a line whose column 9 does not contain the current id leaves the context unchanged |
| Geometry.UpPiece | UTR_Extractor.py:121-124 | an exon gives an upstream piece iff it starts before `Point1` and does not end at `Point1`; the piece holds exactly the exon's positions before `Point1` |
| Geometry.DownPiece | UTR_Extractor.py:126-129 | an exon gives a downstream piece iff it ends after `Point2` and does not start at `Point2`; the piece holds exactly the exon's positions after `Point2` |
| Geometry.UpstreamPieces | UTR_Extractor.py:118-124 | at most one upstream piece per exon, each ending before `Point1` |
| Geometry.DownstreamPieces | UTR_Extractor.py:118-129 | at most one downstream piece per exon, each starting after `Point2` |
| Geometry.UpstreamPiecesEmpty | UTR_Extractor.py:118-124 | there are no upstream pieces iff no exon yields one |
| Geometry.DownstreamPiecesEmpty | UTR_Extractor.py:118-129 | there are no downstream pieces iff no exon yields one |
| Geometry.ChainedDownstreamPiecesEmpty | UTR_Extractor.py:169-179 | the `if/elif` chain yields no downstream piece iff every exon has an upstream piece or no downstream piece |
| Geometry.SkippedFlushLosesNothing | UTR_Extractor.py:115 | when the flush test fails only because the coding span reaches both ends of the transcript, and the exons lie inside the transcript, no exon yields a piece on either side, in either loop |
| Geometry.PairedPieces | UTR_Extractor_Bed.py:79-89 | at most two pieces per exon; every upstream piece ends before `Point1` and every downstream piece starts after `Point2` |
| Geometry.ExonPieces | UTR_Extractor_Bed.py:81-89 | one exon's pieces under two independent tests: its upstream piece, if any, then its downstream piece, if any (their shape is `ExonPiecesShape`) |
| Geometry.ChainedDownstreamPieces | UTR_Extractor.py:169-179 | the `if/elif` chain gives at most one downstream piece per exon, each starting after `Point2` |
| Geometry.ExonPiecesShape | UTR_Extractor_Bed.py:81-89 | one exon gives at most an upstream piece followed by a downstream piece, and each is that exon's clipped part on its side |
| Geometry.ExonPiecesSplit | UTR_Extractor_Bed.py:81-89 | split by side, one exon's pieces are its upstream piece and its downstream piece |
| Geometry.PairedPiecesSplit | UTR_Extractor_Bed.py:79-89 | split by side, the interleaved pieces are exactly the upstream pieces and the downstream pieces that the sequence script splices |
| Geometry.UpstreamCoverage | UTR_Extractor.py:121-124 | a position lies in some upstream piece iff it lies in an exon, before `Point1`, and that exon does not end at `Point1` |
| Geometry.DownstreamCoverage | UTR_Extractor.py:126-129 | a position lies in some downstream piece iff it lies in an exon, after `Point2`, and that exon does not start at `Point2` |
| Geometry.CodingExonGivesNothing | UTR_Extractor_Bed.py:81-89 | an exon inside `[Point1, Point2]` gives no piece |
| Geometry.UpPieceLength | UTR_Extractor.py:121-124 | an upstream piece is `EE - ES + 1` long when the exon lies before `Point1`, and `Point1 - ES` long when it straddles `Point1` |
| Geometry.StraddlingExon | UTR_Extractor.py:172-179 | an exon around the whole coding span gives an upstream and a downstream piece in the line loop, but only the upstream piece in the trailing `if/elif` chain |
| Geometry.ChainedAgreesWithoutStraddle | UTR_Extractor.py:172-179 | when no exon has pieces on both sides, the `if/elif` chain gives the same downstream pieces as the two independent `if`s |
| Geometry.BoundaryExonIsLost | UTR_Extractor.py:121-124 | exon `(0, 10)` with `Point1 = 10` holds position 5, and no upstream piece does |
| Geometry.WorkedExample | UTR_Extractor.py:118-129 | exons `(0,19)` and `(40,79)` with coding span `(10,70)` give upstream `[0,9]` and downstream `[71,79]` |
| Geometry.Label | UTR_Extractor_Bed.py:25-34 | a label exists iff the strand is `+` or `-`; the table itself (on `+` upstream is 5' and downstream 3', on `-` the other way round) is the reference both `Printing` functions are proved to follow |
| SequenceExtractor.Upper | UTR_Extractor.py:25 | upper-casing keeps the length |
| SequenceExtractor.UpperPointwise | UTR_Extractor.py:25 | upper-casing maps each character on its own |
| SequenceExtractor.Fetchable | UTR_Extractor.py:20-24 | `genes[Chr]` is read only on `+` and `-`, so only there must the contig be in the genome |
| SequenceExtractor.GetSeq | UTR_Extractor.py:18-25 | on `+` the result is as long as the slice `[Start, End)`; on `-` it is the upper-cased reverse complement of that slice; on any other strand it is empty, whatever the genome holds |
| SequenceExtractor.ForwardFetch | UTR_Extractor.py:20-22 | on `+` each character of the result is the upper-cased character of the genome slice |
| SequenceExtractor.Spliced | UTR_Extractor.py:121-129 | the `+=` of `GetSeq` over the pieces: each piece's sequence in file order, each reverse-complemented on its own on `-` |
| SequenceExtractor.UpstreamStep | UTR_Extractor.py:121-124 | one more exon extends the splice of the upstream pieces by the sequence of that exon's upstream piece, and by nothing when it has none |
| SequenceExtractor.DownstreamStep | UTR_Extractor.py:126-129 | one more exon extends the splice of the downstream pieces by the sequence of that exon's downstream piece, and by nothing when it has none |
| SequenceExtractor.ChainedDownstreamStep | UTR_Extractor.py:172-179 | in the `if/elif` chain, an exon with an upstream piece adds nothing downstream; any other exon adds its downstream piece's sequence |
| SequenceExtractor.AppendUpstream | UTR_Extractor.py:121-124 | the two upstream branches append `GetSeq` of exactly the exon's upstream piece, and nothing when it has none |
| SequenceExtractor.AppendDownstream | UTR_Extractor.py:126-129 | the two downstream branches append `GetSeq` of exactly the exon's downstream piece, and nothing when it has none |
| SequenceExtractor.AppendChained | UTR_Extractor.py:172-179 | the four-armed chain appends the upstream piece's sequence to the 5' string when there is one, and otherwise the downstream piece's sequence to the 3' string |
| SequenceExtractor.NoPiecesAt | UTR_Extractor.py:118-129 | when the exons yield no pieces, no exon feeds either string, so the loop never calls `GetSeq` |
| SequenceExtractor.NoChainedPiecesAt | UTR_Extractor.py:169-179 | the same for the `if/elif` chain |
| SequenceExtractor.SplicedLength | UTR_Extractor.py:121-129 | on `+`, with pieces inside the contig, the spliced string is as long as the pieces together |
| SequenceExtractor.SplicedOtherStrand | UTR_Extractor.py:18-25 | on a strand other than `+` or `-` the spliced strings are empty, and the genome is never consulted |
| SequenceExtractor.Printing | UTR_Extractor.py:48-65 | a flag of 0 comes back as 1 and any other flag unchanged; the header comes first iff the flag was 0; every data row carries the given gene, transcript and locus and a non-empty sequence; one row per non-empty side, and none on other strands |
| SequenceExtractor.PrintingCoordinates | UTR_Extractor.py:54-63 | the upstream string is printed over one-based `[GS+1, CS]` and the downstream one over `[CE+2, GE+1]`, low-to-high on `+` and high-to-low on `-`, labelled by strand |
| SequenceExtractor.PrintingFivePrimeFirst | UTR_Extractor.py:54-63 | when both sides print, the 5' row comes before the 3' row |
| SequenceExtractor.PrintingStrandSymmetry | UTR_Extractor.py:54-63 | the `-` rows are the `+` rows in reverse order, with labels and coordinate order swapped |
| SequenceExtractor.PrintingKeepsHeaderOnce | UTR_Extractor.py:49-51 | appending one `Printing` output keeps exactly one header at the front, and every data row names a transcript |
| SequenceExtractor.IngestKeepsContigKnown | UTR_Extractor.py:139-143 | a line whose contig is in the genome keeps the stored contig in the genome once an id is set |
| SequenceExtractor.KnownContigNeverFails | UTR_Extractor.py:20-24 | a transcript whose contig is in the genome never makes its flush raise |
| SequenceExtractor.FlushFails | UTR_Extractor.py:118-129 | a flush raises iff some exon yields a piece and the strand is `+` or `-` on a contig the genome lacks |
| SequenceExtractor.SpliceExon | UTR_Extractor.py:121-129 | one pass of the line-loop flush extends both strings to the splice of one more exon, and calls `GetSeq` only for pieces that exist |
| SequenceExtractor.SpliceExonChained | UTR_Extractor.py:172-179 | one pass of the trailing flush extends both strings to the `if/elif` splice of one more exon |
| SequenceExtractor.SpliceUtrs | UTR_Extractor.py:116-129 | the line-loop flush builds `UTR_5_Seq` and `UTR_3_Seq` as the splices of the upstream and downstream pieces, in file order |
| SequenceExtractor.SpliceUtrsChained | UTR_Extractor.py:167-179 | the trailing flush builds `UTR_5_Seq` from the upstream pieces and `UTR_3_Seq` from the `if/elif` chain's downstream pieces |
| SequenceExtractor.FlushTranscript | UTR_Extractor.py:115-132 | a flush prints `Printing` of the transcript's own name, id, contig, span, coding span and spliced UTRs after the earlier output, keeping the header single |
| SequenceExtractor.Utrs | UTR_Extractor.py:118-129 | the two UTR strings a flush builds: the splice of the upstream pieces, and the splice of the downstream pieces of the independent `if`s or of the `if/elif` chain |
| SequenceExtractor.FlushPrint | UTR_Extractor.py:132 | what a flush prints: `Printing` of the transcript's own name, id, contig, span, coding span and `Utrs` |
| SequenceExtractor.LineStep | UTR_Extractor.py:107-160 | one line of the loop as a state change: a `gene` or `mRNA` line first flushes a transcript that passes the test, aborting when the flush raises and otherwise appending its rows; every line is then ingested, the CDS lists stay paired, and an aborted run stays as it is |
| SequenceExtractor.Run | UTR_Extractor.py:107-160 | the state after the loop has read a prefix of the file, line by line from empty variables and no output; the CDS lists stay paired |
| SequenceExtractor.FinalFlush | UTR_Extractor.py:164-182 | the trailing flush keeps the transcript, only appends to the output, and does nothing once the run has aborted |
| SequenceExtractor.Finished | UTR_Extractor.py:100-182 | the state at the end of the script: the loop over every line, then the trailing flush |
| SequenceExtractor.RunStaysAborted | UTR_Extractor.py:20-24 | once a lookup has raised after a prefix, the rest of the file changes nothing |
| SequenceExtractor.RunWithoutCds | UTR_Extractor.py:115-160 | on a file without CDS lines the loop prints nothing, never raises and leaves no CDS open |
| SequenceExtractor.RunOnKnownContigs | UTR_Extractor.py:139-143 | when every `mRNA` line names a contig of the genome, the loop never raises and the stored contig stays in the genome |
| SequenceExtractor.FinishedOutcomes | UTR_Extractor.py:164-182 | a file without CDS lines ends with no output and no abort; a file whose `mRNA` lines all name contigs of the genome never aborts |
| SequenceExtractor.Extractor.constructor | UTR_Extractor.py:72-85 | all variables start empty or 0 and nothing is printed |
| SequenceExtractor.Extractor.Flush | UTR_Extractor.py:115-132 | the run aborts iff the flush test holds and a fetch raises; otherwise, when the test holds, the UTR strings become the spliced pieces, the output grows by the flush's rows and the flag becomes 1; when it does not, strings, output and flag are unchanged |
| SequenceExtractor.Extractor.StartFeature | UTR_Extractor.py:134-148 | a `gene` line sets only the gene name, an `mRNA` line the id, contig, strand and the span minus 1; both empty the three lists |
| SequenceExtractor.Extractor.Begin | UTR_Extractor.py:134-150 | after the flush, a `gene` or `mRNA` line makes the context `Ingest` of it and empties both UTR strings |
| SequenceExtractor.Extractor.Boundary | UTR_Extractor.py:112-150 | on a `gene` or `mRNA` line the flush runs on the previous context before the new fields are stored, so its rows carry the previous identity; if it raises, the run aborts with the context unchanged, and otherwise the new context is `Ingest` of the line |
| SequenceExtractor.Extractor.Step | UTR_Extractor.py:107-160 | one line: it aborts the run iff it is a `gene` or `mRNA` line whose flush raises; otherwise the new context is `Ingest` of it, and the output grows only on a `gene` or `mRNA` line whose previous transcript passes the flush test, by that transcript's rows; the new context, flag, output and abort flag are `LineStep` of the old ones |
| SequenceExtractor.Extractor.Finish | UTR_Extractor.py:164-182 | the trailing flush aborts iff the test holds and a fetch raises; otherwise, when the test holds, the UTR strings become the `if/elif` splices, the output grows by their rows and the flag becomes 1; when it does not, strings, output and flag are unchanged; the new state is `FinalFlush` of the old one |
| SequenceExtractor.Extractor.Conclude | UTR_Extractor.py:164-182 | once the loop stops, after the last line or at an abort, the output and the abort flag become those of `Finished` of the whole file |
| SequenceExtractor.ExtractUtrSequences | UTR_Extractor.py:100-182 | the whole run prints exactly the output of `Finished` of the file, and completes iff `Finished` does not abort; it prints the header at most once and first, every data row names a transcript, a file without CDS lines prints nothing and completes, and a file whose `mRNA` lines all name contigs of the genome completes |
| BedExtractor.Printing | UTR_Extractor_Bed.py:20-36 | a flag of 0 comes back as 1 and any other flag unchanged; the header comes first iff the flag was 0; exactly one data row on `+` or `-` and none otherwise, labelled by strand and side and carrying the given identity |
| BedExtractor.PrintArgs | UTR_Extractor_Bed.py:82-89 | the bounds each branch passes to `Printing`: the zero-based span upstream, the end moved one past it downstream |
| BedExtractor.PieceRow | UTR_Extractor_Bed.py:82-89 | a piece's row names the transcript, carries the strand's label for the piece's side, and is exactly as long as the piece |
| BedExtractor.UtrRows | UTR_Extractor_Bed.py:79-89 | one row per piece on `+` or `-`, none otherwise, every row naming the transcript |
| BedExtractor.PrintingPiece | UTR_Extractor_Bed.py:81-89 | with the bounds each branch passes, `Printing` prints every piece as its one-based span `[lo+1, hi+1]`: `(ES+1, EE+1)`, `(ES+1, Point1)`, `(ES+1, EE+1)`, `(Point2+2, EE+1)` |
| BedExtractor.Emitted | UTR_Extractor_Bed.py:79-89 | printing pieces one by one only appends to the output, at least one row per piece on `+` or `-` |
| BedExtractor.EmitOne | UTR_Extractor_Bed.py:81-89 | printing one more piece extends the emitted rows by that piece's row, after the header if none was printed yet |
| BedExtractor.EmitUp | UTR_Extractor_Bed.py:81-84 | the upstream branches print the exon's upstream piece, if any |
| BedExtractor.EmitDown | UTR_Extractor_Bed.py:86-89 | the downstream branches print the exon's downstream piece, if any |
| BedExtractor.EmitUtrs | UTR_Extractor_Bed.py:76-89 | the flush prints the header before the first piece if needed, then one row per piece of every exon in file order, upstream before downstream |
| BedExtractor.UtrRowsPointwise | UTR_Extractor_Bed.py:79-89 | the `k`-th row is the one-based row of the `k`-th piece |
| BedExtractor.RowsAvoidCodingSpan | UTR_Extractor_Bed.py:81-89 | every row stops at or before one-based `Point1` or starts at or after `Point2 + 2`, so no row overlaps the coding span |
| BedExtractor.RowSpansOfPieces | UTR_Extractor_Bed.py:25-34 | the rows carrying a side's label are exactly that side's pieces, shifted back to zero-based |
| BedExtractor.RowsAreTheUtrPieces | UTR_Extractor_Bed.py:79-89 | on `+` the 5' rows are the upstream pieces and the 3' rows the downstream pieces, and on `-` the other way round |
| BedExtractor.EmitsKeepsHeaderOnce | UTR_Extractor_Bed.py:20-23 | emitting keeps exactly one header at the front, and the flag is 0 exactly while nothing has been printed |
| BedExtractor.FlushState | UTR_Extractor_Bed.py:76-89 | a flush keeps the transcript and only appends to the output: the rows of its pieces when it passes the test, nothing otherwise |
| BedExtractor.FlushRows | UTR_Extractor_Bed.py:76-89 | the flush test and exon loop give `FlushState`: the pieces' rows when the test holds, the output and flag unchanged when it does not, and a single leading header kept either way |
| BedExtractor.LineStep | UTR_Extractor_Bed.py:64-116 | one line of the loop as a state change: a `gene` or `mRNA` line first flushes the open transcript, then every line is ingested, and the CDS lists stay paired |
| BedExtractor.Run | UTR_Extractor_Bed.py:64-116 | the state after the loop has read a prefix of the file, from empty variables and no output; the CDS lists stay paired |
| BedExtractor.Finished | UTR_Extractor_Bed.py:62-134 | the state at the end of the script: the loop over every line, then the last flush |
| BedExtractor.RunWithoutCds | UTR_Extractor_Bed.py:76-116 | on a file without CDS lines the loop prints nothing, keeps the flag at 0 and leaves no CDS open |
| BedExtractor.FinishedWithoutCds | UTR_Extractor_Bed.py:120-134 | on a file without CDS lines the last flush prints nothing either |
| BedExtractor.BedAggregator.constructor | UTR_Extractor_Bed.py:43-54 | all variables start empty or 0 and nothing is printed |
| BedExtractor.BedAggregator.Flush | UTR_Extractor_Bed.py:76-89 | output grows by the transcript's piece rows iff the flush test holds; otherwise output and flag are unchanged; the new flag and output are `FlushState` of the old ones |
| BedExtractor.BedAggregator.StartFeature | UTR_Extractor_Bed.py:92-106 | after a `gene` or `mRNA` line the context is `Ingest` of it |
| BedExtractor.BedAggregator.Step | UTR_Extractor_Bed.py:64-116 | one line: the previous transcript is flushed before the new fields are stored; the new context is `Ingest` of the line; the new context, flag and output are `LineStep` of the old ones |
| BedExtractor.ExtractUtrIntervals | UTR_Extractor_Bed.py:62-134 | the whole run prints exactly the output of `Finished` of the file; it prints the header at most once and first, every data row names a transcript, and a file without CDS lines prints nothing |

## Left out

- Loading the genome with `pyfaidx` (`UTR_Extractor.py:14`, `:96-97`): the genome is a map from contig name to sequence, passed in.
- The reverse complement, pyfaidx's unary `-`: it is a function parameter, and nothing is claimed about it.
- Command-line arguments and opening the GFF file: the model takes a sequence of already-split records.
- Text formatting: the header and data rows are values, not tab-separated text. Column values are not parsed from text; coordinates are integers.
- The `GetUTRs` function (`UTR_Extractor.py:28-42`) sits inside a string literal and never runs.
- Python exceptions on malformed lines become preconditions (`Gff.WellFormed`): the first column is non-empty, and a `gene` or `mRNA` line has a `;` in column 9.
- SequenceExtractor.Upper: upper-cases ASCII letters only. Python's `str.upper` also maps other letters.
- SequenceExtractor.GetSeq: slices follow Python's rules for `str`. How `pyfaidx` itself treats negative or out-of-range bounds is not modelled.
- Of the script's exceptions, only the `KeyError` of a missing contig is an outcome (`aborted`); the traceback text is not modelled.
