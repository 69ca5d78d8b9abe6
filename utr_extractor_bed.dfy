/** The interval-emitting script: for each flushed transcript it prints one
    BED-like row per upstream or downstream piece, in one-based inclusive
    coordinates, instead of fetching sequence. */
module BedExtractor {
  import opened Gff
  import opened Geometry

  /** One output line: the header or one UTR piece. */
  datatype BedRow =
    | BedHeader
    | BedLine(chrom: string, start: int, stop: int, strand: string, gene: string, transcript: string,
              utrType: UtrType)

  /** The rows a `Printing` call adds after the header, if any. */
  function DataRows(r: (int, seq<BedRow>), flag: int): seq<BedRow>
  {
    if flag == 0 && |r.1| > 0 then r.1[1..] else r.1
  }

  /** Prints the header when `flag` is 0, then one row for the piece whose
      bounds the caller passes as `gs` and `ge`, and returns the new flag.
      An upstream piece is printed as `[gs + 1, ge + 1]`, a downstream one
      as `[gs + 1, ge]`; on a strand other than `+` or `-` only the header
      can be printed. */
  function Printing(name: string, transSc: string, chr: string, gs: int, ge: int, dir: string,
                    flag: int, orientation: Orientation): (r: (int, seq<BedRow>))
    // a flag of 0 comes back as 1, any other flag unchanged
    ensures r.0 == 1 || r.0 == flag
    ensures r.0 != 0 && (flag != 0 ==> r.0 == flag)
    ensures flag == 0 <==> |r.1| > 0 && r.1[0] == BedHeader
    ensures |DataRows(r, flag)| == (if dir == "+" || dir == "-" then 1 else 0)
    // the row is labelled by strand and side and belongs to the transcript given
    ensures forall row <- DataRows(r, flag) ::
      row.BedLine? && Label(dir, orientation) == Some(row.utrType) &&
      row.chrom == chr && row.strand == dir && row.gene == name && row.transcript == transSc
  {
    var head := if flag == 0 then [BedHeader] else [];
    var rows :=
      if dir == "+" then
        (if orientation == Up then [BedLine(chr, gs + 1, ge + 1, dir, name, transSc, FivePrime)]
         else [BedLine(chr, gs + 1, ge, dir, name, transSc, ThreePrime)])
      else if dir == "-" then
        (if orientation == Up then [BedLine(chr, gs + 1, ge + 1, dir, name, transSc, ThreePrime)]
         else [BedLine(chr, gs + 1, ge, dir, name, transSc, FivePrime)])
      else [];
    assert (head + rows)[|head|..] == rows;
    (if flag == 0 then 1 else flag, head + rows)
  }

  /** The bounds the exon loop passes to `Printing` for a piece: the
      zero-based span itself upstream, and the end moved one past it
      downstream. */
  function PrintArgs(p: Piece): (int, int)
  {
    if p.orientation == Up then (p.span.lo, p.span.hi) else (p.span.lo, p.span.hi + 1)
  }

  /** The row of a piece: its zero-based span printed one-based, labelled
      by strand and side. */
  function PieceRow(name: string, transSc: string, chr: string, dir: string, p: Piece): (row: BedRow)
    requires dir == "+" || dir == "-"
    ensures row.BedLine? && row.transcript == transSc && Label(dir, p.orientation) == Some(row.utrType)
    ensures row.stop - row.start == p.span.hi - p.span.lo
  {
    BedLine(chr, p.span.lo + 1, p.span.hi + 1, dir, name, transSc, Label(dir, p.orientation).value)
  }

  /** The rows of the pieces, in order; none on a strand other than `+` or `-`. */
  function UtrRows(name: string, transSc: string, chr: string, dir: string, ps: seq<Piece>): (rows: seq<BedRow>)
    ensures |rows| == (if dir == "+" || dir == "-" then |ps| else 0)
    ensures forall row <- rows :: row.BedLine? && row.transcript == transSc
  {
    if ps == [] then []
    else UtrRows(name, transSc, chr, dir, ps[..|ps| - 1]) +
         (if dir == "+" || dir == "-" then [PieceRow(name, transSc, chr, dir, ps[|ps| - 1])] else [])
  }

  /** Whatever the side, the offsets the exon loop and `Printing` add
      together print the piece's zero-based span as one-based `[lo + 1, hi + 1]`. */
  lemma PrintingPiece(name: string, transSc: string, chr: string, dir: string, flag: int, p: Piece)
    ensures var args := PrintArgs(p);
      Printing(name, transSc, chr, args.0, args.1, dir, flag, p.orientation) ==
      (if flag == 0 then 1 else flag, (if flag == 0 then [BedHeader] else []) +
          (if dir == "+" || dir == "-" then [PieceRow(name, transSc, chr, dir, p)] else []))
  {
  }

  /** `out` followed by what printing the pieces `ps` one by one adds: the
      header before the first piece when nothing was printed yet, then one
      row per piece; `f` is the flag afterwards. */
  function Emitted(out: seq<BedRow>, flag: int, name: string, transSc: string, chr: string, dir: string,
                   ps: seq<Piece>): (r: (int, seq<BedRow>))
    ensures out <= r.1 && |r.1| >= |out| + |UtrRows(name, transSc, chr, dir, ps)|
  {
    (if flag == 0 && ps != [] then 1 else flag,
     out + (if flag == 0 && ps != [] then [BedHeader] else []) + UtrRows(name, transSc, chr, dir, ps))
  }

  /** `(f, o)` is the flag and output after printing the pieces `ps`. */
  predicate Emits(out: seq<BedRow>, flag: int, name: string, transSc: string, chr: string, dir: string,
                  ps: seq<Piece>, f: int, o: seq<BedRow>)
  {
    var e := Emitted(out, flag, name, transSc, chr, dir, ps);
    f == e.0 && o == e.1
  }

  /** Printing one more piece extends what has been emitted by that piece. */
  lemma EmitOne(out: seq<BedRow>, flag: int, name: string, transSc: string, chr: string, dir: string,
                ps: seq<Piece>, f: int, o: seq<BedRow>, p: Piece, lo: int, hi: int)
    requires Emits(out, flag, name, transSc, chr, dir, ps, f, o)
    requires (lo, hi) == PrintArgs(p)
    ensures var printed := Printing(name, transSc, chr, lo, hi, dir, f, p.orientation);
      Emits(out, flag, name, transSc, chr, dir, ps + [p], printed.0, o + printed.1)
  {
    PrintingPiece(name, transSc, chr, dir, f, p);
    assert (ps + [p])[..|ps + [p]| - 1] == ps;
  }

  /** The upstream tests of the exon loop for exon `e`. */
  method EmitUp(out: seq<BedRow>, flag: int, name: string, transSc: string, chr: string, dir: string,
                ghost done: seq<Piece>, f: int, o: seq<BedRow>, e: Exon, point1: int)
    returns (f': int, o': seq<BedRow>)
    requires Emits(out, flag, name, transSc, chr, dir, done, f, o)
    ensures Emits(out, flag, name, transSc, chr, dir, done + UpPieces(e, point1), f', o')
  {
    f', o' := f, o;
    if e.start < point1 && e.end < point1 {
      assert UpPieces(e, point1) == [Piece(Up, Span(e.start, e.end))];
      EmitOne(out, flag, name, transSc, chr, dir, done, f, o, Piece(Up, Span(e.start, e.end)), e.start, e.end);
      var printed := Printing(name, transSc, chr, e.start, e.end, dir, f, Up);
      f', o' := printed.0, o + printed.1;
    } else if e.start < point1 && e.end > point1 {
      assert UpPieces(e, point1) == [Piece(Up, Span(e.start, point1 - 1))];
      EmitOne(out, flag, name, transSc, chr, dir, done, f, o, Piece(Up, Span(e.start, point1 - 1)), e.start, point1 - 1);
      var printed := Printing(name, transSc, chr, e.start, point1 - 1, dir, f, Up);
      f', o' := printed.0, o + printed.1;
    } else {
      assert done + UpPieces(e, point1) == done;
    }
  }

  /** The downstream tests of the exon loop for exon `e`. */
  method EmitDown(out: seq<BedRow>, flag: int, name: string, transSc: string, chr: string, dir: string,
                  ghost done: seq<Piece>, f: int, o: seq<BedRow>, e: Exon, point2: int)
    returns (f': int, o': seq<BedRow>)
    requires Emits(out, flag, name, transSc, chr, dir, done, f, o)
    ensures Emits(out, flag, name, transSc, chr, dir, done + DownPieces(e, point2), f', o')
  {
    f', o' := f, o;
    if e.start > point2 && e.end > point2 {
      assert DownPieces(e, point2) == [Piece(Down, Span(e.start, e.end))];
      EmitOne(out, flag, name, transSc, chr, dir, done, f, o, Piece(Down, Span(e.start, e.end)), e.start, e.end + 1);
      var printed := Printing(name, transSc, chr, e.start, e.end + 1, dir, f, Down);
      f', o' := printed.0, o + printed.1;
    } else if e.start < point2 && e.end > point2 {
      assert DownPieces(e, point2) == [Piece(Down, Span(point2 + 1, e.end))];
      EmitOne(out, flag, name, transSc, chr, dir, done, f, o, Piece(Down, Span(point2 + 1, e.end)), point2 + 1, e.end + 1);
      var printed := Printing(name, transSc, chr, point2 + 1, e.end + 1, dir, f, Down);
      f', o' := printed.0, o + printed.1;
    } else {
      assert done + DownPieces(e, point2) == done;
    }
  }

  /** The flush loop, on a snapshot of the transcript: each exon prints its
      upstream piece, then (independently) its downstream piece. */
  method EmitUtrs(t: Transcript, flag: int, out: seq<BedRow>) returns (newFlag: int, newOut: seq<BedRow>)
    requires Paired(t) && ShouldFlush(t)
    ensures Emits(out, flag, t.geneName, t.transcriptId, t.contig, t.strand,
                  PairedPieces(t.exons, Point1(t), Point2(t)), newFlag, newOut)
    ensures RunState(t, newFlag, newOut) == FlushState(RunState(t, flag, out))
  {
    var point1 := SeqMin(t.cdsStart);
    var point2 := SeqMax(t.cdsEnd);
    var exons := t.exons;
    newFlag, newOut := flag, out;
    var i := 0;
    assert exons[..0] == [];
    assert out + [] + UtrRows(t.geneName, t.transcriptId, t.contig, t.strand, []) == out;
    while i < |exons|
      invariant 0 <= i <= |exons|
      invariant Emits(out, flag, t.geneName, t.transcriptId, t.contig, t.strand,
                      PairedPieces(exons[..i], point1, point2), newFlag, newOut)
    {
      PairedPiecesStep(exons, i, point1, point2);
      newFlag, newOut := EmitUp(out, flag, t.geneName, t.transcriptId, t.contig, t.strand,
                                PairedPieces(exons[..i], point1, point2), newFlag, newOut, exons[i], point1);
      newFlag, newOut := EmitDown(out, flag, t.geneName, t.transcriptId, t.contig, t.strand,
                                  PairedPieces(exons[..i], point1, point2) + UpPieces(exons[i], point1),
                                  newFlag, newOut, exons[i], point2);
      i := i + 1;
    }
    assert exons[..i] == exons;
  }

  /** The `k`-th row is the row of the `k`-th piece. */
  lemma {:induction false} UtrRowsPointwise(name: string, transSc: string, chr: string, dir: string, ps: seq<Piece>)
    requires dir == "+" || dir == "-"
    ensures forall k :: 0 <= k < |ps| ==> UtrRows(name, transSc, chr, dir, ps)[k] == PieceRow(name, transSc, chr, dir, ps[k])
  {
    if ps != [] {
      var init := ps[..|ps| - 1];
      UtrRowsPointwise(name, transSc, chr, dir, init);
      forall k | 0 <= k < |ps|
        ensures UtrRows(name, transSc, chr, dir, ps)[k] == PieceRow(name, transSc, chr, dir, ps[k])
      {
        if k < |init| {
          assert ps[k] == init[k];
        }
      }
    }
  }

  /** No row of a flushed transcript reaches into its coding span
      `[Point1, Point2]`: in one-based terms every row stops at or before
      `Point1` or starts at or after `Point2 + 2`. */
  lemma RowsAvoidCodingSpan(name: string, transSc: string, chr: string, dir: string, es: seq<Exon>, p1: int, p2: int)
    ensures forall row <- UtrRows(name, transSc, chr, dir, PairedPieces(es, p1, p2)) ::
      row.stop <= p1 || row.start >= p2 + 2
  {
    var ps := PairedPieces(es, p1, p2);
    if dir == "+" || dir == "-" {
      UtrRowsPointwise(name, transSc, chr, dir, ps);
      forall row | row in UtrRows(name, transSc, chr, dir, ps)
        ensures row.stop <= p1 || row.start >= p2 + 2
      {
        var k :| 0 <= k < |ps| && UtrRows(name, transSc, chr, dir, ps)[k] == row;
        assert row == PieceRow(name, transSc, chr, dir, ps[k]);
      }
    }
  }

  /** The zero-based spans of the rows with label `u`, in order. */
  function RowSpans(rows: seq<BedRow>, u: UtrType): seq<Span>
  {
    if rows == [] then []
    else
      var row := rows[|rows| - 1];
      RowSpans(rows[..|rows| - 1], u) +
      (if row.BedLine? && row.utrType == u then [Span(row.start - 1, row.stop - 1)] else [])
  }

  /** On `+` or `-`, the rows labelled as side `o` are exactly the spans of
      the pieces of that side. */
  lemma {:induction false} RowSpansOfPieces(name: string, transSc: string, chr: string, dir: string,
                                            ps: seq<Piece>, o: Orientation)
    requires dir == "+" || dir == "-"
    ensures RowSpans(UtrRows(name, transSc, chr, dir, ps), Label(dir, o).value) == SpansOf(ps, o)
  {
    if ps != [] {
      var rows := UtrRows(name, transSc, chr, dir, ps);
      assert rows[..|rows| - 1] == UtrRows(name, transSc, chr, dir, ps[..|ps| - 1]);
      RowSpansOfPieces(name, transSc, chr, dir, ps[..|ps| - 1], o);
    }
  }

  /** The rows printed for a transcript are the same UTR pieces the
      sequence script splices: on `+` the 5' rows are the upstream pieces
      and the 3' rows the downstream ones, and on `-` the other way round. */
  lemma RowsAreTheUtrPieces(name: string, transSc: string, chr: string, dir: string,
                            es: seq<Exon>, p1: int, p2: int)
    requires dir == "+" || dir == "-"
    ensures var rows := UtrRows(name, transSc, chr, dir, PairedPieces(es, p1, p2));
      && RowSpans(rows, if dir == "+" then FivePrime else ThreePrime) == UpstreamPieces(es, p1)
      && RowSpans(rows, if dir == "+" then ThreePrime else FivePrime) == DownstreamPieces(es, p2)
  {
    var ps := PairedPieces(es, p1, p2);
    RowSpansOfPieces(name, transSc, chr, dir, ps, Up);
    RowSpansOfPieces(name, transSc, chr, dir, ps, Down);
    PairedPiecesSplit(es, p1, p2);
  }

  /** The header, if present, is the first row and appears nowhere else. */
  predicate HeaderOnce(rows: seq<BedRow>)
  {
    rows == [] || (rows[0] == BedHeader && BedHeader !in rows[1..])
  }

  /** Every data row names a transcript. */
  predicate RowsNamed(rows: seq<BedRow>)
  {
    forall row <- rows :: row.BedLine? ==> row.transcript != ""
  }

  /** Emitting pieces after `out` keeps the header single, provided the flag
      is 0 exactly when nothing has been printed yet. */
  lemma EmitsKeepsHeaderOnce(out: seq<BedRow>, flag: int, name: string, transSc: string, chr: string, dir: string,
                             ps: seq<Piece>, f: int, o: seq<BedRow>)
    requires Emits(out, flag, name, transSc, chr, dir, ps, f, o)
    requires HeaderOnce(out) && RowsNamed(out) && (flag == 0 || flag == 1) && (flag == 0 <==> out == [])
    requires transSc != ""
    ensures HeaderOnce(o) && RowsNamed(o) && (f == 0 || f == 1) && (f == 0 <==> o == [])
  {
    var rows := UtrRows(name, transSc, chr, dir, ps);
    assert BedHeader !in rows;
    if flag == 0 && ps != [] {
      assert o == [BedHeader] + rows;
      assert o[1..] == rows;
    } else if out != [] {
      assert o[1..] == out[1..] + rows;
    }
  }

  /** The state the script carries from line to line: the open transcript,
      the header flag and everything printed so far. */
  datatype RunState = RunState(t: Transcript, header: int, output: seq<BedRow>)

  /** What a flush of the open transcript leaves: the rows of its pieces
      after the output when it passes the flush test, the state itself
      otherwise. */
  function FlushState(s: RunState): (u: RunState)
    requires Paired(s.t)
    ensures u.t == s.t && s.output <= u.output
  {
    if ShouldFlush(s.t) then
      var e := Emitted(s.output, s.header, s.t.geneName, s.t.transcriptId, s.t.contig, s.t.strand,
                       PairedPieces(s.t.exons, Point1(s.t), Point2(s.t)));
      RunState(s.t, e.0, e.1)
    else s
  }

  /** One pass of the line loop: a `gene` or `mRNA` line flushes the open
      transcript first; then the line is ingested. */
  function LineStep(s: RunState, r: Record): (u: RunState)
    requires WellFormed(r) && Paired(s.t)
    ensures Paired(u.t)
  {
    var f := if !IsComment(r) && IsBoundary(r) then FlushState(s) else s;
    f.(t := Ingest(s.t, r))
  }

  /** The state after the line loop has read `records`. */
  function Run(records: seq<Record>): (s: RunState)
    requires forall i :: 0 <= i < |records| ==> WellFormed(records[i])
    ensures Paired(s.t)
  {
    if records == [] then RunState(Initial, 0, [])
    else LineStep(Run(records[..|records| - 1]), records[|records| - 1])
  }

  /** The state at the end of the script: the line loop, then the last flush. */
  function Finished(records: seq<Record>): RunState
    requires forall i :: 0 <= i < |records| ==> WellFormed(records[i])
  {
    FlushState(Run(records))
  }

  /** Without CDS lines no transcript ever has a coding span, so the line
      loop prints nothing and keeps the header flag at 0. */
  lemma {:induction false} RunWithoutCds(records: seq<Record>)
    requires forall i :: 0 <= i < |records| ==> WellFormed(records[i]) && records[i].kind != "CDS"
    ensures var s := Run(records); s.output == [] && s.header == 0 && s.t.cdsStart == []
  {
    if records != [] {
      RunWithoutCds(records[..|records| - 1]);
    }
  }

  /** A file without CDS lines prints nothing at all, the last flush included. */
  lemma FinishedWithoutCds(records: seq<Record>)
    requires forall i :: 0 <= i < |records| ==> WellFormed(records[i]) && records[i].kind != "CDS"
    ensures Finished(records).output == []
  {
    RunWithoutCds(records);
  }

  /** The flush test and, when it passes, the exon loop, on a snapshot of
      the transcript, the header flag and the output: the result is
      `FlushState`, and a single leading header and named rows survive it. */
  method FlushRows(t: Transcript, flag: int, out: seq<BedRow>) returns (f: int, o: seq<BedRow>)
    requires Paired(t) && (flag == 0 || flag == 1) && (flag == 0 <==> out == [])
    requires HeaderOnce(out) && RowsNamed(out)
    ensures RunState(t, f, o) == FlushState(RunState(t, flag, out))
    ensures ShouldFlush(t) ==>
      Emits(out, flag, t.geneName, t.transcriptId, t.contig, t.strand,
            PairedPieces(t.exons, Point1(t), Point2(t)), f, o)
    ensures !ShouldFlush(t) ==> f == flag && o == out
    ensures (f == 0 || f == 1) && (f == 0 <==> o == []) && HeaderOnce(o) && RowsNamed(o)
  {
    f, o := flag, out;
    if t.transcriptId != "" && |t.cdsStart| != 0 &&
       (SeqMin(t.cdsStart) - t.geneStart != 0 || t.geneEnd - SeqMax(t.cdsEnd) != 0) {
      f, o := EmitUtrs(t, flag, out);
      EmitsKeepsHeaderOnce(out, flag, t.geneName, t.transcriptId, t.contig, t.strand,
                           PairedPieces(t.exons, Point1(t), Point2(t)), f, o);
    }
  }

  /** The script's module-level state. */
  class BedAggregator {
    var geneName: string
    var transcriptId: string
    var geneStart: int
    var geneEnd: int
    var contig: string
    var strand: string
    var exons: seq<Exon>
    var cdsStart: seq<int>
    var cdsEnd: seq<int>
    var header: int
    /** Everything printed so far. */
    var output: seq<BedRow>

    function Context(): Transcript
      reads this`geneName, this`transcriptId, this`geneStart, this`geneEnd, this`contig, this`strand,
            this`exons, this`cdsStart, this`cdsEnd
    {
      Transcript(geneName, transcriptId, geneStart, geneEnd, contig, strand, exons, cdsStart, cdsEnd)
    }

    ghost predicate Valid()
      reads this
    {
      && Paired(Context())
      && (header == 0 || header == 1)
      && (header == 0 <==> output == [])
      && HeaderOnce(output)
      && RowsNamed(output)
    }

    constructor ()
      ensures Valid()
      ensures Context() == Initial && output == [] && header == 0
    {
      geneName, transcriptId, geneStart, geneEnd, contig, strand := "", "", 0, 0, "", "";
      exons, cdsStart, cdsEnd := [], [], [];
      header := 0;
      output := [];
    }

    /** The flush, in the line loop and after it alike: when the open
        transcript passes the flush test, print one row per piece. */
    method Flush()
      requires Valid()
      modifies this`header, this`output
      ensures ShouldFlush(old(Context())) ==>
        Emits(old(output), old(header), geneName, transcriptId, contig, strand,
              PairedPieces(exons, Point1(Context()), Point2(Context())), header, output)
      ensures !ShouldFlush(old(Context())) ==> output == old(output) && header == old(header)
      ensures RunState(Context(), header, output) == FlushState(RunState(Context(), old(header), old(output)))
      ensures Valid()
    {
      header, output := FlushRows(Context(), header, output);
    }

    /** The assignments of a `gene` or `mRNA` line, after the flush. */
    method StartFeature(r: Record)
      requires WellFormed(r) && !IsComment(r) && IsBoundary(r)
      modifies this`geneName, this`geneStart, this`geneEnd, this`contig, this`strand, this`transcriptId,
               this`cdsStart, this`cdsEnd, this`exons
      ensures Context() == Ingest(old(Context()), r)
    {
      if r.kind == "gene" {
        geneName := GeneNameOf(r.attributes);
      } else if r.kind == "mRNA" {
        geneStart := r.start - 1;
        geneEnd := r.end - 1;
        contig := r.seqid;
        strand := r.strand;
        transcriptId := TranscriptIdOf(r.attributes);
      }
      cdsStart := [];
      cdsEnd := [];
      exons := [];
    }

    /** One pass of the line loop.  On a `gene` or `mRNA` line the previous
        transcript is flushed first, so its rows carry its own identity;
        then the line is ingested. */
    method Step(r: Record)
      requires Valid() && WellFormed(r)
      modifies this
      ensures Valid()
      ensures Context() == Ingest(old(Context()), r)
      ensures !IsComment(r) && IsBoundary(r) && ShouldFlush(old(Context())) ==>
        var t := old(Context());
        Emits(old(output), old(header), t.geneName, t.transcriptId, t.contig, t.strand,
              PairedPieces(t.exons, Point1(t), Point2(t)), header, output)
      ensures !(!IsComment(r) && IsBoundary(r) && ShouldFlush(old(Context()))) ==>
        output == old(output) && header == old(header)
      ensures RunState(Context(), header, output) == LineStep(RunState(old(Context()), old(header), old(output)), r)
    {
      if IsComment(r) {
      } else if r.kind == "mRNA" || r.kind == "gene" {
        Flush();
        assert Context() == old(Context());
        StartFeature(r);
      } else if r.kind == "exon" && Contains(r.attributes, transcriptId) {
        exons := exons + [Exon(r.start - 1, r.end - 1)];
      } else if r.kind == "CDS" && Contains(r.attributes, transcriptId) {
        cdsStart := cdsStart + [r.start - 1];
        cdsEnd := cdsEnd + [r.end - 1];
      }
    }
  }

  /** The whole script on a file of lines: the line loop, then the last
      flush, which here runs the same exon loop as the one inside.  What it
      prints is `Finished` of the lines; the header is printed at most once
      and comes first, every data row names a transcript, and a file without
      CDS lines prints nothing. */
  method ExtractUtrIntervals(records: seq<Record>) returns (output: seq<BedRow>)
    requires forall i :: 0 <= i < |records| ==> WellFormed(records[i])
    ensures output == Finished(records).output
    ensures HeaderOnce(output) && RowsNamed(output)
    ensures (forall i :: 0 <= i < |records| ==> records[i].kind != "CDS") ==> output == []
  {
    var aggregator := new BedAggregator();
    var i := 0;
    while i < |records|
      invariant 0 <= i <= |records|
      invariant aggregator.Valid()
      invariant RunState(aggregator.Context(), aggregator.header, aggregator.output) == Run(records[..i])
    {
      assert records[..i + 1][..i] == records[..i];
      aggregator.Step(records[i]);
      i := i + 1;
    }
    assert records[..i] == records;
    aggregator.Flush();
    output := aggregator.output;
    if forall i :: 0 <= i < |records| ==> records[i].kind != "CDS" {
      FinishedWithoutCds(records);
    }
  }
}
