/** The sequence-emitting script: for each flushed transcript it splices the
    genome slices of the upstream pieces into one string and those of the
    downstream pieces into another, and prints one row per non-empty side.
    The reference genome is a map from contig name to sequence, and the
    reverse complement is a function handed in by the caller. */
module SequenceExtractor {
  import opened Gff
  import opened Geometry

  function UpperChar(c: char): char
  {
    if 'a' <= c <= 'z' then (c as int - 32) as char else c
  }

  /** `str.upper()` on ASCII text. */
  function Upper(s: string): (r: string)
    ensures |r| == |s|
  {
    if s == [] then [] else [UpperChar(s[0])] + Upper(s[1..])
  }

  /** Upper-casing works character by character. */
  lemma {:induction false} UpperPointwise(s: string)
    ensures forall k :: 0 <= k < |s| ==> Upper(s)[k] == UpperChar(s[k])
  {
    if s != [] {
      UpperPointwise(s[1..]);
    }
  }

  /** `GetSeq` can fetch from contig `chr` on strand `dir`: the lookup
      `genes[Chr]` happens only on `+` and `-`, and raises for a contig the
      genome does not have. */
  predicate Fetchable(genome: map<string, string>, chr: string, dir: string)
  {
    dir == "+" || dir == "-" ==> chr in genome
  }

  /** The upper-cased slice `[start, end)` of contig `chr` on `+`, the
      upper-cased reverse complement of that slice on `-`, and nothing on
      any other strand, where the genome is not consulted. */
  function GetSeq(genome: map<string, string>, revComp: string -> string,
                  chr: string, start: int, end: int, dir: string): (r: string)
    requires Fetchable(genome, chr, dir)
    ensures dir == "+" ==> |r| == |Slice(genome[chr], start, end)|
    ensures dir == "-" ==> r == Upper(revComp(Slice(genome[chr], start, end)))
    ensures dir != "+" && dir != "-" ==> r == ""
  {
    if dir == "+" then Upper(Slice(genome[chr], start, end))
    else if dir == "-" then Upper(revComp(Slice(genome[chr], start, end)))
    else ""
  }

  /** On `+` the fetched text is the genome slice, upper-cased character
      by character. */
  lemma ForwardFetch(genome: map<string, string>, revComp: string -> string,
                     chr: string, start: int, end: int)
    requires chr in genome
    ensures var w := Slice(genome[chr], start, end);
      var r := GetSeq(genome, revComp, chr, start, end, "+");
      |r| == |w| && forall k :: 0 <= k < |r| ==> r[k] == UpperChar(w[k])
  {
    UpperPointwise(Slice(genome[chr], start, end));
  }

  /** The sequence of the zero-based inclusive span `s`: the slice `[lo, hi + 1)`. */
  function FetchSpan(genome: map<string, string>, revComp: string -> string,
                     chr: string, dir: string, s: Span): string
    requires Fetchable(genome, chr, dir)
  {
    GetSeq(genome, revComp, chr, s.lo, s.hi + 1, dir)
  }

  /** The fetched pieces concatenated in the order given: on `-` each piece
      is reverse-complemented on its own and the pieces keep file order. */
  function Spliced(genome: map<string, string>, revComp: string -> string,
                   chr: string, dir: string, ps: seq<Span>): string
    requires ps == [] || Fetchable(genome, chr, dir)
  {
    if ps == [] then ""
    else Spliced(genome, revComp, chr, dir, ps[..|ps| - 1]) + FetchSpan(genome, revComp, chr, dir, ps[|ps| - 1])
  }

  /** The sequence of an optional piece: nothing when there is no piece. */
  function FetchOpt(genome: map<string, string>, revComp: string -> string,
                    chr: string, dir: string, o: Option<Span>): string
    requires Fetchable(genome, chr, dir)
  {
    if o.Some? then FetchSpan(genome, revComp, chr, dir, o.value) else ""
  }

  /** A `GetSeq` call whose bounds are those of the span `s`. */
  lemma FetchAt(genome: map<string, string>, revComp: string -> string,
                chr: string, dir: string, s: Span, start: int, end: int)
    requires Fetchable(genome, chr, dir) && start == s.lo && end == s.hi + 1
    ensures FetchSpan(genome, revComp, chr, dir, s) == GetSeq(genome, revComp, chr, start, end, dir)
  {
  }

  /** Appending at most one piece appends its sequence. */
  lemma SplicedPush(genome: map<string, string>, revComp: string -> string,
                    chr: string, dir: string, ps: seq<Span>, o: Option<Span>)
    requires Fetchable(genome, chr, dir)
    ensures Spliced(genome, revComp, chr, dir, ps + AsSeq(o)) ==
      Spliced(genome, revComp, chr, dir, ps) + FetchOpt(genome, revComp, chr, dir, o)
    ensures o.None? ==> Spliced(genome, revComp, chr, dir, ps + AsSeq(o)) == Spliced(genome, revComp, chr, dir, ps)
  {
    if o.Some? {
      assert (ps + AsSeq(o))[..|ps + AsSeq(o)| - 1] == ps;
    } else {
      assert ps + AsSeq(o) == ps;
    }
  }

  /** One more exon adds the sequence of its upstream piece. */
  lemma UpstreamStep(genome: map<string, string>, revComp: string -> string, chr: string, dir: string,
                     es: seq<Exon>, i: nat, p1: int)
    requires Fetchable(genome, chr, dir) && i < |es|
    ensures Spliced(genome, revComp, chr, dir, UpstreamPieces(es[..i + 1], p1)) ==
      Spliced(genome, revComp, chr, dir, UpstreamPieces(es[..i], p1)) +
      FetchOpt(genome, revComp, chr, dir, UpPiece(es[i], p1))
    ensures UpPiece(es[i], p1).None? ==>
      Spliced(genome, revComp, chr, dir, UpstreamPieces(es[..i + 1], p1)) ==
      Spliced(genome, revComp, chr, dir, UpstreamPieces(es[..i], p1))
  {
    assert es[..i + 1][..i] == es[..i];
    assert UpstreamPieces(es[..i + 1], p1) == UpstreamPieces(es[..i], p1) + AsSeq(UpPiece(es[i], p1));
    SplicedPush(genome, revComp, chr, dir, UpstreamPieces(es[..i], p1), UpPiece(es[i], p1));
  }

  /** One more exon adds the sequence of its downstream piece. */
  lemma DownstreamStep(genome: map<string, string>, revComp: string -> string, chr: string, dir: string,
                       es: seq<Exon>, i: nat, p2: int)
    requires Fetchable(genome, chr, dir) && i < |es|
    ensures Spliced(genome, revComp, chr, dir, DownstreamPieces(es[..i + 1], p2)) ==
      Spliced(genome, revComp, chr, dir, DownstreamPieces(es[..i], p2)) +
      FetchOpt(genome, revComp, chr, dir, DownPiece(es[i], p2))
    ensures DownPiece(es[i], p2).None? ==>
      Spliced(genome, revComp, chr, dir, DownstreamPieces(es[..i + 1], p2)) ==
      Spliced(genome, revComp, chr, dir, DownstreamPieces(es[..i], p2))
  {
    assert es[..i + 1][..i] == es[..i];
    assert DownstreamPieces(es[..i + 1], p2) == DownstreamPieces(es[..i], p2) + AsSeq(DownPiece(es[i], p2));
    SplicedPush(genome, revComp, chr, dir, DownstreamPieces(es[..i], p2), DownPiece(es[i], p2));
  }

  /** In the `if/elif` chain, an exon with an upstream piece adds nothing
      downstream; any other exon adds the sequence of its downstream piece. */
  lemma ChainedDownstreamStep(genome: map<string, string>, revComp: string -> string, chr: string, dir: string,
                              es: seq<Exon>, i: nat, p1: int, p2: int)
    requires Fetchable(genome, chr, dir) && i < |es|
    ensures Spliced(genome, revComp, chr, dir, ChainedDownstreamPieces(es[..i + 1], p1, p2)) ==
      Spliced(genome, revComp, chr, dir, ChainedDownstreamPieces(es[..i], p1, p2)) +
      (if UpPiece(es[i], p1).Some? then "" else FetchOpt(genome, revComp, chr, dir, DownPiece(es[i], p2)))
    ensures UpPiece(es[i], p1).Some? || DownPiece(es[i], p2).None? ==>
      Spliced(genome, revComp, chr, dir, ChainedDownstreamPieces(es[..i + 1], p1, p2)) ==
      Spliced(genome, revComp, chr, dir, ChainedDownstreamPieces(es[..i], p1, p2))
  {
    var prev := ChainedDownstreamPieces(es[..i], p1, p2);
    assert es[..i + 1][..i] == es[..i];
    if UpPiece(es[i], p1).Some? {
      assert ChainedDownstreamPieces(es[..i + 1], p1, p2) == prev + AsSeq<Span>(None);
      SplicedPush(genome, revComp, chr, dir, prev, None);
    } else {
      assert ChainedDownstreamPieces(es[..i + 1], p1, p2) == prev + AsSeq(DownPiece(es[i], p2));
      SplicedPush(genome, revComp, chr, dir, prev, DownPiece(es[i], p2));
    }
  }

  /** Sum of the lengths of zero-based inclusive spans. */
  function TotalLength(ps: seq<Span>): int
  {
    if ps == [] then 0 else TotalLength(ps[..|ps| - 1]) + (ps[|ps| - 1].hi - ps[|ps| - 1].lo + 1)
  }

  /** On `+`, when every piece lies inside the contig, the spliced sequence
      is exactly as long as the pieces together. */
  lemma {:induction false} SplicedLength(genome: map<string, string>, revComp: string -> string,
                                         chr: string, ps: seq<Span>)
    requires chr in genome
    requires forall k :: 0 <= k < |ps| ==> 0 <= ps[k].lo <= ps[k].hi + 1 <= |genome[chr]|
    ensures |Spliced(genome, revComp, chr, "+", ps)| == TotalLength(ps)
  {
    if ps != [] {
      SplicedLength(genome, revComp, chr, ps[..|ps| - 1]);
    }
  }

  /** On a strand other than `+` or `-` nothing is fetched. */
  lemma {:induction false} SplicedOtherStrand(genome: map<string, string>, revComp: string -> string,
                                              chr: string, dir: string, ps: seq<Span>)
    requires dir != "+" && dir != "-"
    ensures Spliced(genome, revComp, chr, dir, ps) == ""
  {
    if ps != [] {
      SplicedOtherStrand(genome, revComp, chr, dir, ps[..|ps| - 1]);
    }
  }

  /** One output line: the header or a UTR of one side of one transcript. */
  datatype SeqRow =
    | SeqHeader
    | SeqLine(gene: string, transcript: string, utrType: UtrType, locus: string,
              startPos: int, endPos: int, sequence: string)

  /** The pair `(a, b)` on `+`, `(b, a)` otherwise. */
  function Oriented(dir: string, a: int, b: int): (int, int)
  {
    if dir == "+" then (a, b) else (b, a)
  }

  /** The rows `Printing` adds after the header, if any. */
  function DataRows(r: (int, seq<SeqRow>), flag: int): seq<SeqRow>
  {
    if flag == 0 && |r.1| > 0 then r.1[1..] else r.1
  }

  /** Prints the header when `flag` is 0, then the rows of the non-empty
      sides, and returns the new flag.  `u5s` is the upstream sequence and
      `u3s` the downstream one; the strand decides their labels. */
  function Printing(name: string, transSc: string, chr: string, gs: int, ge: int, cs: int, ce: int,
                    u5s: string, u3s: string, dir: string, flag: int): (r: (int, seq<SeqRow>))
    // a flag of 0 comes back as 1, any other flag unchanged
    ensures r.0 == 1 || r.0 == flag
    ensures r.0 != 0 && (flag != 0 ==> r.0 == flag)
    ensures flag == 0 <==> |r.1| > 0 && r.1[0] == SeqHeader
    // every data row belongs to the transcript given and carries a sequence
    ensures forall row <- DataRows(r, flag) :: row.SeqLine? && row.gene == name && row.transcript == transSc &&
                                               row.locus == chr && row.sequence != ""
    // one row per non-empty side, and only on `+` or `-`
    ensures |DataRows(r, flag)| ==
      (if dir == "+" || dir == "-" then (if u5s != "" then 1 else 0) + (if u3s != "" then 1 else 0) else 0)
  {
    var head := if flag == 0 then [SeqHeader] else [];
    var rows :=
      if dir == "+" then
        (if |u5s| >= 1 then [SeqLine(name, transSc, FivePrime, chr, gs + 1, (cs - 1) + 1, u5s)] else []) +
        (if |u3s| >= 1 then [SeqLine(name, transSc, ThreePrime, chr, (ce + 1) + 1, ge + 1, u3s)] else [])
      else if dir == "-" then
        (if |u3s| >= 1 then [SeqLine(name, transSc, FivePrime, chr, ge + 1, (ce + 1) + 1, u3s)] else []) +
        (if |u5s| >= 1 then [SeqLine(name, transSc, ThreePrime, chr, (cs - 1) + 1, gs + 1, u5s)] else [])
      else [];
    assert (head + rows)[|head|..] == rows;
    (if flag == 0 then 1 else flag, head + rows)
  }

  /** The upstream side spans one-based `[gs + 1, cs]` and the downstream
      side `[ce + 2, ge + 1]`, written low-to-high on `+` and high-to-low on
      `-`; the strand decides which side is 5' and which 3'. */
  lemma PrintingCoordinates(name: string, transSc: string, chr: string, gs: int, ge: int, cs: int, ce: int,
                            u5s: string, u3s: string, dir: string, flag: int)
    ensures forall row <- DataRows(Printing(name, transSc, chr, gs, ge, cs, ce, u5s, u3s, dir, flag), flag) ::
      (row.sequence == u5s && Label(dir, Up) == Some(row.utrType) &&
       (row.startPos, row.endPos) == Oriented(dir, gs + 1, cs)) ||
      (row.sequence == u3s && Label(dir, Down) == Some(row.utrType) &&
       (row.startPos, row.endPos) == Oriented(dir, ce + 2, ge + 1))
  {
  }

  /** When both sides are printed, the 5' row comes first. */
  lemma PrintingFivePrimeFirst(name: string, transSc: string, chr: string, gs: int, ge: int, cs: int, ce: int,
                               u5s: string, u3s: string, dir: string, flag: int)
    ensures var rows := DataRows(Printing(name, transSc, chr, gs, ge, cs, ce, u5s, u3s, dir, flag), flag);
      |rows| == 2 ==> rows[0].utrType == FivePrime && rows[1].utrType == ThreePrime
  {
  }

  /** The same row for the other strand: label and coordinate order swapped. */
  function Flip(row: SeqRow): SeqRow
  {
    if row.SeqHeader? then row
    else row.(utrType := if row.utrType == FivePrime then ThreePrime else FivePrime,
              startPos := row.endPos, endPos := row.startPos)
  }

  /** The rows printed for `-` are those printed for `+`, in reverse order,
      with labels and coordinate order swapped. */
  lemma PrintingStrandSymmetry(name: string, transSc: string, chr: string, gs: int, ge: int, cs: int, ce: int,
                               u5s: string, u3s: string)
    ensures var plus := Printing(name, transSc, chr, gs, ge, cs, ce, u5s, u3s, "+", 1).1;
      var minus := Printing(name, transSc, chr, gs, ge, cs, ce, u5s, u3s, "-", 1).1;
      |minus| == |plus| && forall k :: 0 <= k < |plus| ==> minus[k] == Flip(plus[|plus| - 1 - k])
  {
  }

  /** The header, if present, is the first row and appears nowhere else. */
  predicate HeaderOnce(rows: seq<SeqRow>)
  {
    rows == [] || (rows[0] == SeqHeader && SeqHeader !in rows[1..])
  }

  /** Every data row names a transcript and carries a sequence. */
  predicate RowsNamed(rows: seq<SeqRow>)
  {
    forall row <- rows :: row.SeqLine? ==> row.transcript != "" && row.sequence != ""
  }

  /** Appending one `Printing` output keeps the header single, provided the
      flag is 0 exactly when nothing has been printed yet. */
  lemma PrintingKeepsHeaderOnce(out: seq<SeqRow>, name: string, transSc: string, chr: string,
                                                   gs: int, ge: int, cs: int, ce: int,
                                                   u5s: string, u3s: string, dir: string, flag: int)
    requires HeaderOnce(out) && (flag == 0 <==> out == [])
    requires RowsNamed(out) && transSc != ""
    ensures var r := Printing(name, transSc, chr, gs, ge, cs, ce, u5s, u3s, dir, flag);
      HeaderOnce(out + r.1) && RowsNamed(out + r.1) && out + r.1 != []
  {
    var r := Printing(name, transSc, chr, gs, ge, cs, ce, u5s, u3s, dir, flag);
    var rows := DataRows(r, flag);
    assert SeqHeader !in rows;
    if flag == 0 {
      assert out + r.1 == [SeqHeader] + rows;
      assert (out + r.1)[1..] == rows;
    } else {
      assert (out + r.1)[1..] == out[1..] + r.1;
    }
  }

  /** What a line needs beyond being well formed: the contig of an `mRNA`
      line is in the genome (the lookup `genes[Chr]` raises otherwise). */
  predicate Locatable(r: Record, genome: map<string, string>)
    requires WellFormed(r)
  {
    !IsComment(r) && r.kind == "mRNA" ==> r.seqid in genome
  }

  /** Once a transcript id has been read, its contig is in the genome. */
  predicate ContigKnown(genome: map<string, string>, t: Transcript)
  {
    t.transcriptId != "" ==> t.contig in genome
  }

  /** The downstream pieces a flush fetches.  With `chained`, they follow
      the `if/elif` chain of the trailing flush. */
  function DownstreamSide(t: Transcript, chained: bool): seq<Span>
    requires |t.cdsStart| > 0 && |t.cdsEnd| > 0
  {
    if chained then ChainedDownstreamPieces(t.exons, Point1(t), Point2(t)) else DownstreamPieces(t.exons, Point2(t))
  }

  /** The flush raises: some exon yields a piece, so `GetSeq` is called,
      and the strand is `+` or `-` on a contig the genome does not have. */
  predicate FlushFails(genome: map<string, string>, t: Transcript, chained: bool)
    requires Paired(t) && ShouldFlush(t)
  {
    && !Fetchable(genome, t.contig, t.strand)
    && (UpstreamPieces(t.exons, Point1(t)) != [] || DownstreamSide(t, chained) != [])
  }

  /** A line whose contig is in the genome keeps the current contig known. */
  lemma IngestKeepsContigKnown(genome: map<string, string>, t: Transcript, r: Record)
    requires WellFormed(r) && Locatable(r, genome) && ContigKnown(genome, t)
    ensures ContigKnown(genome, Ingest(t, r))
  {
    IngestEffect(t, r);
  }

  /** A transcript whose contig is known never makes its flush raise. */
  lemma KnownContigNeverFails(genome: map<string, string>, t: Transcript, chained: bool)
    requires Paired(t) && ShouldFlush(t) && ContigKnown(genome, t)
    ensures !FlushFails(genome, t, chained)
  {
  }

  /** The two spliced UTR strings of a flushed transcript. */
  function Utrs(genome: map<string, string>, revComp: string -> string, t: Transcript, chained: bool): (string, string)
    requires Paired(t) && ShouldFlush(t) && !FlushFails(genome, t, chained)
  {
    (Spliced(genome, revComp, t.contig, t.strand, UpstreamPieces(t.exons, Point1(t))),
     Spliced(genome, revComp, t.contig, t.strand, DownstreamSide(t, chained)))
  }

  /** What a flush prints: `Printing` on the transcript's own identity,
      span, coding span and spliced UTRs. */
  function FlushPrint(genome: map<string, string>, revComp: string -> string,
                      t: Transcript, flag: int, chained: bool): (int, seq<SeqRow>)
    requires Paired(t) && ShouldFlush(t) && !FlushFails(genome, t, chained)
  {
    var u := Utrs(genome, revComp, t, chained);
    Printing(t.geneName, t.transcriptId, t.contig, t.geneStart, t.geneEnd, Point1(t), Point2(t),
             u.0, u.1, t.strand, flag)
  }

  /** When the exons yield no pieces at all, the first `i + 1` of them
      yield none either, and exon `i` feeds neither side. */
  lemma NoPiecesAt(es: seq<Exon>, i: nat, p1: int, p2: int)
    requires i < |es| && UpstreamPieces(es, p1) == [] && DownstreamPieces(es, p2) == []
    ensures UpPiece(es[i], p1).None? && DownPiece(es[i], p2).None?
    ensures UpstreamPieces(es[..i + 1], p1) == [] && DownstreamPieces(es[..i + 1], p2) == []
  {
    UpstreamPiecesEmpty(es, p1);
    DownstreamPiecesEmpty(es, p2);
    UpstreamPiecesEmpty(es[..i + 1], p1);
    DownstreamPiecesEmpty(es[..i + 1], p2);
  }

  /** The same for the `if/elif` chain of the trailing flush. */
  lemma NoChainedPiecesAt(es: seq<Exon>, i: nat, p1: int, p2: int)
    requires i < |es| && UpstreamPieces(es, p1) == [] && ChainedDownstreamPieces(es, p1, p2) == []
    ensures UpPiece(es[i], p1).None? && DownPiece(es[i], p2).None?
    ensures UpstreamPieces(es[..i + 1], p1) == [] && ChainedDownstreamPieces(es[..i + 1], p1, p2) == []
  {
    UpstreamPiecesEmpty(es, p1);
    ChainedDownstreamPiecesEmpty(es, p1, p2);
    UpstreamPiecesEmpty(es[..i + 1], p1);
    ChainedDownstreamPiecesEmpty(es[..i + 1], p1, p2);
  }

  /** The two upstream tests of the loop body: they append exactly the
      sequence of the exon's upstream piece. */
  method AppendUpstream(genome: map<string, string>, revComp: string -> string, chr: string, dir: string,
                        utr5: string, e: Exon, point1: int) returns (r: string)
    requires UpPiece(e, point1).Some? ==> Fetchable(genome, chr, dir)
    ensures UpPiece(e, point1).Some? ==> r == utr5 + FetchSpan(genome, revComp, chr, dir, UpPiece(e, point1).value)
    ensures UpPiece(e, point1).None? ==> r == utr5
  {
    r := utr5;
    if e.start < point1 && e.end < point1 {
      FetchAt(genome, revComp, chr, dir, Span(e.start, e.end), e.start, e.end + 1);
      r := r + GetSeq(genome, revComp, chr, e.start, e.end + 1, dir);
    } else if e.start < point1 && e.end > point1 {
      FetchAt(genome, revComp, chr, dir, Span(e.start, point1 - 1), e.start, point1);
      r := r + GetSeq(genome, revComp, chr, e.start, point1, dir);
    }
  }

  /** The two downstream tests of the loop body: they append exactly the
      sequence of the exon's downstream piece. */
  method AppendDownstream(genome: map<string, string>, revComp: string -> string, chr: string, dir: string,
                          utr3: string, e: Exon, point2: int) returns (r: string)
    requires DownPiece(e, point2).Some? ==> Fetchable(genome, chr, dir)
    ensures DownPiece(e, point2).Some? ==> r == utr3 + FetchSpan(genome, revComp, chr, dir, DownPiece(e, point2).value)
    ensures DownPiece(e, point2).None? ==> r == utr3
  {
    r := utr3;
    if e.start > point2 && e.end > point2 {
      FetchAt(genome, revComp, chr, dir, Span(e.start, e.end), e.start, e.end + 1);
      r := r + GetSeq(genome, revComp, chr, e.start, e.end + 1, dir);
    } else if e.start < point2 && e.end > point2 {
      FetchAt(genome, revComp, chr, dir, Span(point2 + 1, e.end), point2 + 1, e.end + 1);
      r := r + GetSeq(genome, revComp, chr, point2 + 1, e.end + 1, dir);
    }
  }

  /** The four-armed `if/elif` chain of the trailing flush: an exon with an
      upstream piece feeds only the upstream string. */
  method AppendChained(genome: map<string, string>, revComp: string -> string, chr: string, dir: string,
                       utr5: string, utr3: string, e: Exon, point1: int, point2: int) returns (r5: string, r3: string)
    requires UpPiece(e, point1).Some? || DownPiece(e, point2).Some? ==> Fetchable(genome, chr, dir)
    ensures UpPiece(e, point1).Some? ==> r5 == utr5 + FetchSpan(genome, revComp, chr, dir, UpPiece(e, point1).value)
    ensures UpPiece(e, point1).None? ==> r5 == utr5
    ensures UpPiece(e, point1).None? && DownPiece(e, point2).Some? ==>
      r3 == utr3 + FetchSpan(genome, revComp, chr, dir, DownPiece(e, point2).value)
    ensures UpPiece(e, point1).Some? || DownPiece(e, point2).None? ==> r3 == utr3
  {
    r5, r3 := utr5, utr3;
    if e.start < point1 && e.end < point1 {
      FetchAt(genome, revComp, chr, dir, Span(e.start, e.end), e.start, e.end + 1);
      r5 := r5 + GetSeq(genome, revComp, chr, e.start, e.end + 1, dir);
    } else if e.start < point1 && e.end > point1 {
      FetchAt(genome, revComp, chr, dir, Span(e.start, point1 - 1), e.start, point1);
      r5 := r5 + GetSeq(genome, revComp, chr, e.start, point1, dir);
    } else if e.start > point2 && e.end > point2 {
      FetchAt(genome, revComp, chr, dir, Span(e.start, e.end), e.start, e.end + 1);
      r3 := r3 + GetSeq(genome, revComp, chr, e.start, e.end + 1, dir);
    } else if e.start < point2 && e.end > point2 {
      FetchAt(genome, revComp, chr, dir, Span(point2 + 1, e.end), point2 + 1, e.end + 1);
      r3 := r3 + GetSeq(genome, revComp, chr, point2 + 1, e.end + 1, dir);
    }
  }

  /** One pass of the flush loop inside the line loop, on exon `i`: both
      strings grow to the splice of the first `i + 1` exons. */
  method SpliceExon(genome: map<string, string>, revComp: string -> string, chr: string, dir: string,
                    exons: seq<Exon>, i: nat, point1: int, point2: int, utr5: string, utr3: string)
    returns (r5: string, r3: string)
    requires i < |exons|
    requires Fetchable(genome, chr, dir) ||
             (UpstreamPieces(exons, point1) == [] && DownstreamPieces(exons, point2) == [])
    requires Fetchable(genome, chr, dir) ||
             (UpstreamPieces(exons[..i], point1) == [] && DownstreamPieces(exons[..i], point2) == [])
    requires utr5 == Spliced(genome, revComp, chr, dir, UpstreamPieces(exons[..i], point1))
    requires utr3 == Spliced(genome, revComp, chr, dir, DownstreamPieces(exons[..i], point2))
    ensures Fetchable(genome, chr, dir) ||
            (UpstreamPieces(exons[..i + 1], point1) == [] && DownstreamPieces(exons[..i + 1], point2) == [])
    ensures r5 == Spliced(genome, revComp, chr, dir, UpstreamPieces(exons[..i + 1], point1))
    ensures r3 == Spliced(genome, revComp, chr, dir, DownstreamPieces(exons[..i + 1], point2))
  {
    if Fetchable(genome, chr, dir) {
      UpstreamStep(genome, revComp, chr, dir, exons, i, point1);
      DownstreamStep(genome, revComp, chr, dir, exons, i, point2);
    } else {
      NoPiecesAt(exons, i, point1, point2);
    }
    r5 := AppendUpstream(genome, revComp, chr, dir, utr5, exons[i], point1);
    r3 := AppendDownstream(genome, revComp, chr, dir, utr3, exons[i], point2);
  }

  /** One pass of the flush loop after the line loop, on exon `i`. */
  method SpliceExonChained(genome: map<string, string>, revComp: string -> string, chr: string, dir: string,
                           exons: seq<Exon>, i: nat, point1: int, point2: int, utr5: string, utr3: string)
    returns (r5: string, r3: string)
    requires i < |exons|
    requires Fetchable(genome, chr, dir) ||
             (UpstreamPieces(exons, point1) == [] && ChainedDownstreamPieces(exons, point1, point2) == [])
    requires Fetchable(genome, chr, dir) ||
             (UpstreamPieces(exons[..i], point1) == [] && ChainedDownstreamPieces(exons[..i], point1, point2) == [])
    requires utr5 == Spliced(genome, revComp, chr, dir, UpstreamPieces(exons[..i], point1))
    requires utr3 == Spliced(genome, revComp, chr, dir, ChainedDownstreamPieces(exons[..i], point1, point2))
    ensures Fetchable(genome, chr, dir) ||
            (UpstreamPieces(exons[..i + 1], point1) == [] && ChainedDownstreamPieces(exons[..i + 1], point1, point2) == [])
    ensures r5 == Spliced(genome, revComp, chr, dir, UpstreamPieces(exons[..i + 1], point1))
    ensures r3 == Spliced(genome, revComp, chr, dir, ChainedDownstreamPieces(exons[..i + 1], point1, point2))
  {
    if Fetchable(genome, chr, dir) {
      UpstreamStep(genome, revComp, chr, dir, exons, i, point1);
      ChainedDownstreamStep(genome, revComp, chr, dir, exons, i, point1, point2);
    } else {
      NoChainedPiecesAt(exons, i, point1, point2);
    }
    r5, r3 := AppendChained(genome, revComp, chr, dir, utr5, utr3, exons[i], point1, point2);
  }

  /** The flush loop inside the line loop: the upstream and downstream
      checks are independent, so an exon may feed both strings. */
  method SpliceUtrs(genome: map<string, string>, revComp: string -> string, chr: string, dir: string,
                    exons: seq<Exon>, point1: int, point2: int) returns (utr5: string, utr3: string)
    requires Fetchable(genome, chr, dir) ||
             (UpstreamPieces(exons, point1) == [] && DownstreamPieces(exons, point2) == [])
    ensures utr5 == Spliced(genome, revComp, chr, dir, UpstreamPieces(exons, point1))
    ensures utr3 == Spliced(genome, revComp, chr, dir, DownstreamPieces(exons, point2))
  {
    utr5, utr3 := "", "";
    var i := 0;
    while i < |exons|
      invariant 0 <= i <= |exons|
      invariant Fetchable(genome, chr, dir) ||
                (UpstreamPieces(exons[..i], point1) == [] && DownstreamPieces(exons[..i], point2) == [])
      invariant utr5 == Spliced(genome, revComp, chr, dir, UpstreamPieces(exons[..i], point1))
      invariant utr3 == Spliced(genome, revComp, chr, dir, DownstreamPieces(exons[..i], point2))
    {
      utr5, utr3 := SpliceExon(genome, revComp, chr, dir, exons, i, point1, point2, utr5, utr3);
      i := i + 1;
    }
    assert exons[..i] == exons;
  }

  /** The flush loop after the line loop, one `if/elif` chain per exon. */
  method SpliceUtrsChained(genome: map<string, string>, revComp: string -> string, chr: string, dir: string,
                           exons: seq<Exon>, point1: int, point2: int) returns (utr5: string, utr3: string)
    requires Fetchable(genome, chr, dir) ||
             (UpstreamPieces(exons, point1) == [] && ChainedDownstreamPieces(exons, point1, point2) == [])
    ensures utr5 == Spliced(genome, revComp, chr, dir, UpstreamPieces(exons, point1))
    ensures utr3 == Spliced(genome, revComp, chr, dir, ChainedDownstreamPieces(exons, point1, point2))
  {
    utr5, utr3 := "", "";
    var i := 0;
    while i < |exons|
      invariant 0 <= i <= |exons|
      invariant Fetchable(genome, chr, dir) ||
                (UpstreamPieces(exons[..i], point1) == [] && ChainedDownstreamPieces(exons[..i], point1, point2) == [])
      invariant utr5 == Spliced(genome, revComp, chr, dir, UpstreamPieces(exons[..i], point1))
      invariant utr3 == Spliced(genome, revComp, chr, dir, ChainedDownstreamPieces(exons[..i], point1, point2))
    {
      utr5, utr3 := SpliceExonChained(genome, revComp, chr, dir, exons, i, point1, point2, utr5, utr3);
      i := i + 1;
    }
    assert exons[..i] == exons;
  }

  /** The body of the flush on a snapshot of the context: splice the two
      UTR strings, print them after `out`, and return the new flag. */
  method FlushTranscript(genome: map<string, string>, revComp: string -> string,
                         t: Transcript, flag: int, out: seq<SeqRow>, chained: bool)
    returns (utr5: string, utr3: string, newFlag: int, newOut: seq<SeqRow>)
    requires Paired(t) && ShouldFlush(t) && !FlushFails(genome, t, chained)
    requires HeaderOnce(out) && RowsNamed(out) && (flag == 0 <==> out == [])
    ensures (utr5, utr3) == Utrs(genome, revComp, t, chained)
    ensures newFlag == 1 || newFlag == flag
    ensures newFlag != 0 && (flag != 0 ==> newFlag == flag)
    ensures newOut == out + FlushPrint(genome, revComp, t, flag, chained).1
    ensures HeaderOnce(newOut) && RowsNamed(newOut) && newOut != []
  {
    var point1 := SeqMin(t.cdsStart);
    var point2 := SeqMax(t.cdsEnd);
    if chained {
      utr5, utr3 := SpliceUtrsChained(genome, revComp, t.contig, t.strand, t.exons, point1, point2);
    } else {
      utr5, utr3 := SpliceUtrs(genome, revComp, t.contig, t.strand, t.exons, point1, point2);
    }
    PrintingKeepsHeaderOnce(out, t.geneName, t.transcriptId, t.contig, t.geneStart, t.geneEnd, point1, point2,
                            utr5, utr3, t.strand, flag);
    var printed := Printing(t.geneName, t.transcriptId, t.contig, t.geneStart, t.geneEnd, point1, point2,
                            utr5, utr3, t.strand, flag);
    newFlag := printed.0;
    newOut := out + printed.1;
  }

  /** What the script holds after some of the lines: the context, the
      header flag, everything printed, and whether a lookup has raised. */
  datatype RunState = RunState(t: Transcript, header: int, output: seq<SeqRow>, aborted: bool)

  /** One pass of the line loop on state `s`: a `gene` or `mRNA` line
      first flushes the open transcript, then every line is ingested; once
      a lookup has raised, nothing more happens. */
  function LineStep(genome: map<string, string>, revComp: string -> string, s: RunState, r: Record): (u: RunState)
    requires WellFormed(r) && Paired(s.t)
    ensures Paired(u.t)
  {
    if s.aborted then s
    else if !IsComment(r) && IsBoundary(r) && ShouldFlush(s.t) then
      if FlushFails(genome, s.t, false) then s.(aborted := true)
      else
        var printed := FlushPrint(genome, revComp, s.t, s.header, false);
        RunState(Ingest(s.t, r), printed.0, s.output + printed.1, false)
    else s.(t := Ingest(s.t, r))
  }

  /** The state after the line loop has read `records`. */
  function Run(genome: map<string, string>, revComp: string -> string, records: seq<Record>): (s: RunState)
    requires forall i :: 0 <= i < |records| ==> WellFormed(records[i])
    ensures Paired(s.t)
  {
    if records == [] then RunState(Initial, 0, [], false)
    else LineStep(genome, revComp, Run(genome, revComp, records[..|records| - 1]), records[|records| - 1])
  }

  /** The trailing flush with its `if/elif` chain, unless a lookup has
      already raised. */
  function FinalFlush(genome: map<string, string>, revComp: string -> string, s: RunState): (u: RunState)
    requires Paired(s.t)
    ensures u.t == s.t && s.output <= u.output
    ensures s.aborted ==> u == s
  {
    if s.aborted || !ShouldFlush(s.t) then s
    else if FlushFails(genome, s.t, true) then s.(aborted := true)
    else
      var printed := FlushPrint(genome, revComp, s.t, s.header, true);
      s.(header := printed.0, output := s.output + printed.1)
  }

  /** The state at the end of the script: the line loop, then the trailing flush. */
  function Finished(genome: map<string, string>, revComp: string -> string, records: seq<Record>): RunState
    requires forall i :: 0 <= i < |records| ==> WellFormed(records[i])
  {
    FinalFlush(genome, revComp, Run(genome, revComp, records))
  }

  /** Once a lookup has raised, the remaining lines change nothing. */
  lemma {:induction false} RunStaysAborted(genome: map<string, string>, revComp: string -> string,
                                           records: seq<Record>, i: nat)
    requires forall k :: 0 <= k < |records| ==> WellFormed(records[k])
    requires i <= |records| && Run(genome, revComp, records[..i]).aborted
    ensures Run(genome, revComp, records) == Run(genome, revComp, records[..i])
  {
    if i == |records| {
      assert records[..i] == records;
    } else {
      var init := records[..|records| - 1];
      assert init[..i] == records[..i];
      RunStaysAborted(genome, revComp, init, i);
    }
  }

  /** A file without CDS lines never flushes: nothing is printed, no
      lookup is made, and no CDS is open at the end. */
  lemma {:induction false} RunWithoutCds(genome: map<string, string>, revComp: string -> string, records: seq<Record>)
    requires forall i :: 0 <= i < |records| ==> WellFormed(records[i]) && records[i].kind != "CDS"
    ensures var s := Run(genome, revComp, records);
      s.output == [] && s.header == 0 && !s.aborted && s.t.cdsStart == []
  {
    if records != [] {
      var init := records[..|records| - 1];
      RunWithoutCds(genome, revComp, init);
      IngestEffect(Run(genome, revComp, init).t, records[|records| - 1]);
    }
  }

  /** When every `mRNA` line names a contig of the genome, the line loop
      never raises and the stored contig stays in the genome. */
  lemma {:induction false} RunOnKnownContigs(genome: map<string, string>, revComp: string -> string,
                                             records: seq<Record>)
    requires forall i :: 0 <= i < |records| ==> WellFormed(records[i]) && Locatable(records[i], genome)
    ensures var s := Run(genome, revComp, records);
      !s.aborted && ContigKnown(genome, s.t)
  {
    if records != [] {
      var init := records[..|records| - 1];
      RunOnKnownContigs(genome, revComp, init);
      var s := Run(genome, revComp, init);
      IngestKeepsContigKnown(genome, s.t, records[|records| - 1]);
      if ShouldFlush(s.t) {
        KnownContigNeverFails(genome, s.t, false);
      }
    }
  }

  /** A file without CDS lines prints nothing and completes; a file whose
      `mRNA` lines all name contigs of the genome completes. */
  lemma FinishedOutcomes(genome: map<string, string>, revComp: string -> string, records: seq<Record>)
    requires forall i :: 0 <= i < |records| ==> WellFormed(records[i])
    ensures (forall i :: 0 <= i < |records| ==> records[i].kind != "CDS") ==>
      Finished(genome, revComp, records).output == [] && !Finished(genome, revComp, records).aborted
    ensures (forall i :: 0 <= i < |records| ==> Locatable(records[i], genome)) ==>
      !Finished(genome, revComp, records).aborted
  {
    if forall i :: 0 <= i < |records| ==> records[i].kind != "CDS" {
      RunWithoutCds(genome, revComp, records);
    }
    if forall i :: 0 <= i < |records| ==> Locatable(records[i], genome) {
      RunOnKnownContigs(genome, revComp, records);
      var s := Run(genome, revComp, records);
      if ShouldFlush(s.t) {
        KnownContigNeverFails(genome, s.t, true);
      }
    }
  }

  /** The script's module-level state. */
  class Extractor {
    const genome: map<string, string>
    const revComp: string -> string

    var geneName: string
    var transcriptId: string
    var geneStart: int
    var geneEnd: int
    var contig: string
    var strand: string
    var exons: seq<Exon>
    var cdsStart: seq<int>
    var cdsEnd: seq<int>
    var utr5: string
    var utr3: string
    var header: int
    /** Everything printed so far. */
    var output: seq<SeqRow>
    /** A `genes[Chr]` lookup has raised `KeyError`: the script stops there. */
    var aborted: bool

    function Context(): Transcript
      reads this`geneName, this`transcriptId, this`geneStart, this`geneEnd, this`contig, this`strand,
            this`exons, this`cdsStart, this`cdsEnd
    {
      Transcript(geneName, transcriptId, geneStart, geneEnd, contig, strand, exons, cdsStart, cdsEnd)
    }

    ghost predicate Valid()
      reads this
    {
      && Paired(Context())
      && utr5 == "" && utr3 == ""
      && (header == 0 || header == 1)
      && (header == 0 <==> output == [])
      && HeaderOnce(output)
      && RowsNamed(output)
    }

    constructor (genome: map<string, string>, revComp: string -> string)
      ensures Valid() && !aborted
      ensures this.genome == genome && this.revComp == revComp
      ensures Context() == Initial && output == [] && header == 0
    {
      this.genome := genome;
      this.revComp := revComp;
      geneName, transcriptId, geneStart, geneEnd, contig, strand := "", "", 0, 0, "", "";
      exons, cdsStart, cdsEnd := [], [], [];
      utr5, utr3 := "", "";
      header := 0;
      output := [];
      aborted := false;
    }

    /** The flush: when the open transcript passes the flush test, splice
        its UTRs and print them.  `chained` selects the `if/elif` exon loop
        of the trailing flush.  When a piece has to be fetched from a contig
        the genome lacks, the first `GetSeq` call raises before `Printing`
        is reached, so the flush prints nothing and the run is aborted. */
    method Flush(chained: bool)
      requires Valid() && !aborted
      modifies this`utr5, this`utr3, this`header, this`output, this`aborted
      ensures aborted == (ShouldFlush(old(Context())) && FlushFails(genome, old(Context()), chained))
      ensures ShouldFlush(old(Context())) && !aborted ==>
        && (utr5, utr3) == Utrs(genome, revComp, old(Context()), chained)
        && output == old(output) + FlushPrint(genome, revComp, old(Context()), old(header), chained).1
        && header == 1
      ensures !ShouldFlush(old(Context())) || aborted ==>
        utr5 == old(utr5) && utr3 == old(utr3) && output == old(output) && header == old(header)
      ensures (header == 0 || header == 1) && (header == 0 <==> output == [])
      ensures HeaderOnce(output) && RowsNamed(output)
    {
      if transcriptId != "" && |cdsStart| != 0 && (SeqMin(cdsStart) - geneStart != 0 || geneEnd - SeqMax(cdsEnd) != 0) {
        if FlushFails(genome, Context(), chained) {
          aborted := true;
        } else {
          assert header == 0 || header == 1;
          utr5, utr3, header, output := FlushTranscript(genome, revComp, Context(), header, output, chained);
        }
      }
    }

    /** The assignments of a `gene` or `mRNA` line, after the flush: the
        gene name, or the transcript's identity and zero-based span, then
        the lists are emptied. */
    method StartFeature(r: Record)
      requires WellFormed(r) && !IsComment(r) && IsBoundary(r)
      modifies this`geneName, this`geneStart, this`geneEnd, this`contig, this`strand, this`transcriptId,
               this`cdsStart, this`cdsEnd, this`exons
      ensures r.kind == "gene" ==>
        Context() == old(Context()).(geneName := GeneNameOf(r.attributes), exons := [], cdsStart := [], cdsEnd := [])
      ensures r.kind == "mRNA" ==>
        Context() == old(Context()).(geneStart := r.start - 1, geneEnd := r.end - 1, contig := r.seqid,
                                     strand := r.strand, transcriptId := TranscriptIdOf(r.attributes),
                                     exons := [], cdsStart := [], cdsEnd := [])
    {
      if r.kind == "gene" {
        geneName := GeneNameOf(r.attributes);
      } else if r.kind == "mRNA" {
        geneStart := r.start - 1;
        geneEnd := r.end - 1;
        contig := r.seqid;
        strand := r.strand;
        transcriptId := TranscriptIdOf(r.attributes);
      }
      cdsStart := [];
      cdsEnd := [];
      exons := [];
    }

    /** Everything a `gene` or `mRNA` line does after the flush: the
        assignments, then the lists and the UTR strings are emptied. */
    method Begin(r: Record)
      requires WellFormed(r) && !IsComment(r) && IsBoundary(r)
      modifies this`geneName, this`geneStart, this`geneEnd, this`contig, this`strand, this`transcriptId,
               this`cdsStart, this`cdsEnd, this`exons, this`utr5, this`utr3
      ensures Context() == Ingest(old(Context()), r)
      ensures utr5 == "" && utr3 == ""
    {
      StartFeature(r);
      utr5, utr3 := "", "";
    }

    /** A `gene` or `mRNA` line: the previous transcript is flushed first,
        so its rows carry its own identity; then, unless the flush raised,
        the new fields are stored and the UTR strings emptied. */
    method Boundary(r: Record)
      requires Valid() && !aborted && WellFormed(r) && !IsComment(r) && IsBoundary(r)
      modifies this`geneName, this`geneStart, this`geneEnd, this`contig, this`strand, this`transcriptId,
               this`cdsStart, this`cdsEnd, this`exons, this`utr5, this`utr3, this`header, this`output, this`aborted
      ensures Valid()
      ensures aborted == (ShouldFlush(old(Context())) && FlushFails(genome, old(Context()), false))
      ensures aborted ==> Context() == old(Context())
      ensures !aborted ==> Context() == Ingest(old(Context()), r)
      ensures ShouldFlush(old(Context())) && !aborted ==>
        output == old(output) + FlushPrint(genome, revComp, old(Context()), old(header), false).1 && header == 1
      ensures !ShouldFlush(old(Context())) || aborted ==> output == old(output) && header == old(header)
    {
      Flush(false);
      assert Context() == old(Context());
      if !aborted {
        Begin(r);
      }
    }

    /** One pass of the line loop. */
    method Step(r: Record)
      requires Valid() && !aborted && WellFormed(r)
      modifies this
      ensures Valid()
      ensures aborted ==
        (!IsComment(r) && IsBoundary(r) && ShouldFlush(old(Context())) && FlushFails(genome, old(Context()), false))
      ensures aborted ==> Context() == old(Context())
      ensures !aborted ==> Context() == Ingest(old(Context()), r)
      ensures !IsComment(r) && IsBoundary(r) && ShouldFlush(old(Context())) && !aborted ==>
        output == old(output) + FlushPrint(genome, revComp, old(Context()), old(header), false).1 && header == 1
      ensures !(!IsComment(r) && IsBoundary(r) && ShouldFlush(old(Context()))) || aborted ==>
        output == old(output) && header == old(header)
      ensures RunState(Context(), header, output, aborted) ==
        LineStep(genome, revComp, RunState(old(Context()), old(header), old(output), false), r)
    {
      if IsComment(r) {
      } else if r.kind == "mRNA" || r.kind == "gene" {
        Boundary(r);
      } else if r.kind == "exon" && Contains(r.attributes, transcriptId) {
        exons := exons + [Exon(r.start - 1, r.end - 1)];
      } else if r.kind == "CDS" && Contains(r.attributes, transcriptId) {
        cdsStart := cdsStart + [r.start - 1];
        cdsEnd := cdsEnd + [r.end - 1];
      }
    }

    /** The flush after the last line, with the `if/elif` chain. */
    method Finish()
      requires Valid() && !aborted
      modifies this`utr5, this`utr3, this`header, this`output, this`aborted
      ensures aborted == (ShouldFlush(Context()) && FlushFails(genome, Context(), true))
      ensures ShouldFlush(Context()) && !aborted ==>
        && (utr5, utr3) == Utrs(genome, revComp, Context(), true)
        && output == old(output) + FlushPrint(genome, revComp, Context(), old(header), true).1
      ensures header == (if ShouldFlush(Context()) && !aborted then 1 else old(header))
      ensures !ShouldFlush(Context()) || aborted ==> utr5 == old(utr5) && utr3 == old(utr3) && output == old(output)
      ensures HeaderOnce(output) && RowsNamed(output)
      ensures RunState(Context(), header, output, aborted) ==
        FinalFlush(genome, revComp, RunState(Context(), old(header), old(output), false))
    {
      Flush(true);
    }

    /** The end of the script once the line loop has stopped, after the last
        line or at a raised lookup: the state is then `Finished` of the lines. */
    method Conclude(ghost records: seq<Record>, ghost i: nat)
      requires forall j :: 0 <= j < |records| ==> WellFormed(records[j])
      requires Valid() && i <= |records| && (i == |records| || aborted)
      requires RunState(Context(), header, output, aborted) == Run(genome, revComp, records[..i])
      modifies this`utr5, this`utr3, this`header, this`output, this`aborted
      ensures output == Finished(genome, revComp, records).output
      ensures aborted == Finished(genome, revComp, records).aborted
      ensures HeaderOnce(output) && RowsNamed(output)
    {
      if aborted {
        RunStaysAborted(genome, revComp, records, i);
      } else {
        assert records[..i] == records;
        Finish();
      }
    }
  }

  /** The whole script on a file of lines: the line loop, then the last
      flush, unless a flush has raised on a contig missing from the genome.
      What it prints, and whether it completes, is `Finished` of the lines;
      the header is printed at most once and comes first, every data row
      names a transcript, a file without CDS lines prints nothing, and the
      run completes whenever every `mRNA` line names a contig of the genome. */
  method ExtractUtrSequences(genome: map<string, string>, revComp: string -> string, records: seq<Record>)
    returns (output: seq<SeqRow>, completed: bool)
    requires forall i :: 0 <= i < |records| ==> WellFormed(records[i])
    ensures output == Finished(genome, revComp, records).output
    ensures completed == !Finished(genome, revComp, records).aborted
    ensures HeaderOnce(output) && RowsNamed(output)
    ensures (forall i :: 0 <= i < |records| ==> records[i].kind != "CDS") ==> output == [] && completed
    ensures (forall i :: 0 <= i < |records| ==> Locatable(records[i], genome)) ==> completed
  {
    var extractor := new Extractor(genome, revComp);
    var i := 0;
    while i < |records| && !extractor.aborted
      invariant 0 <= i <= |records|
      invariant extractor.Valid() && extractor.genome == genome && extractor.revComp == revComp
      invariant RunState(extractor.Context(), extractor.header, extractor.output, extractor.aborted) ==
        Run(genome, revComp, records[..i])
    {
      assert records[..i + 1][..i] == records[..i];
      extractor.Step(records[i]);
      i := i + 1;
    }
    extractor.Conclude(records, i);
    output, completed := extractor.output, !extractor.aborted;
    FinishedOutcomes(genome, revComp, records);
  }
}
