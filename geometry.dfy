/** The UTR geometry shared by both scripts: each exon of a flushed
    transcript is clipped against the coding span [Point1, Point2] with
    strict comparisons, giving at most one upstream and at most one
    downstream piece, and the pieces are labelled 5' or 3' by strand. */
module Geometry {
  import opened Gff

  /** A zero-based inclusive stretch [lo, hi] of the genome. */
  datatype Span = Span(lo: int, hi: int)

  /** Which side of the coding span a piece lies on, in genomic terms. */
  datatype Orientation = Up | Down

  /** A clipped piece together with the side it came from. */
  datatype Piece = Piece(orientation: Orientation, span: Span)

  /** The biological label of a UTR. */
  datatype UtrType = FivePrime | ThreePrime

  predicate InSpan(s: Span, x: int)
  {
    s.lo <= x <= s.hi
  }

  predicate InExon(e: Exon, x: int)
  {
    e.start <= x <= e.end
  }

  /** The upstream piece of exon `e`: the whole exon when it lies before
      `p1`, the part before `p1` when it straddles `p1`.  An exon that ends
      exactly at `p1` gives nothing. */
  function UpPiece(e: Exon, p1: int): (r: Option<Span>)
    ensures r.Some? <==> e.start < p1 && e.end != p1
    ensures r.Some? ==> r.value.lo == e.start && r.value.hi < p1 && r.value.hi <= e.end
    // the piece holds exactly the positions of the exon before p1
    ensures forall x :: r.Some? && InSpan(r.value, x) <==> InExon(e, x) && x < p1 && e.end != p1
  {
    if e.start < p1 && e.end < p1 then Some(Span(e.start, e.end))
    else if e.start < p1 && e.end > p1 then Some(Span(e.start, p1 - 1))
    else None
  }

  /** The downstream piece of exon `e`: the whole exon when it lies after
      `p2`, the part after `p2` when it straddles `p2`.  An exon that starts
      exactly at `p2` gives nothing. */
  function DownPiece(e: Exon, p2: int): (r: Option<Span>)
    ensures r.Some? <==> e.end > p2 && e.start != p2
    ensures r.Some? ==> r.value.hi == e.end && r.value.lo > p2 && r.value.lo >= e.start
    // the piece holds exactly the positions of the exon after p2
    ensures forall x :: r.Some? && InSpan(r.value, x) <==> InExon(e, x) && x > p2 && e.start != p2
  {
    if e.start > p2 && e.end > p2 then Some(Span(e.start, e.end))
    else if e.start < p2 && e.end > p2 then Some(Span(p2 + 1, e.end))
    else None
  }

  function AsSeq<T>(o: Option<T>): seq<T>
  {
    if o.Some? then [o.value] else []
  }

  /** The upstream pieces of the exons, in file order. */
  function UpstreamPieces(es: seq<Exon>, p1: int): (r: seq<Span>)
    ensures |r| <= |es|
    ensures forall k :: 0 <= k < |r| ==> r[k].hi < p1
  {
    if es == [] then []
    else UpstreamPieces(es[..|es| - 1], p1) + AsSeq(UpPiece(es[|es| - 1], p1))
  }

  /** The downstream pieces of the exons, in file order. */
  function DownstreamPieces(es: seq<Exon>, p2: int): (r: seq<Span>)
    ensures |r| <= |es|
    ensures forall k :: 0 <= k < |r| ==> r[k].lo > p2
  {
    if es == [] then []
    else DownstreamPieces(es[..|es| - 1], p2) + AsSeq(DownPiece(es[|es| - 1], p2))
  }

  /** The upstream piece of `e`, if any, tagged with its side. */
  function UpPieces(e: Exon, p1: int): seq<Piece>
  {
    if UpPiece(e, p1).Some? then [Piece(Up, UpPiece(e, p1).value)] else []
  }

  /** The downstream piece of `e`, if any, tagged with its side. */
  function DownPieces(e: Exon, p2: int): seq<Piece>
  {
    if DownPiece(e, p2).Some? then [Piece(Down, DownPiece(e, p2).value)] else []
  }

  /** The pieces of one exon with two independent checks: the upstream
      piece, if any, then the downstream piece, if any. */
  function ExonPieces(e: Exon, p1: int, p2: int): seq<Piece>
  {
    UpPieces(e, p1) + DownPieces(e, p2)
  }

  /** Every exon's pieces in file order, upstream before downstream. */
  function PairedPieces(es: seq<Exon>, p1: int, p2: int): (r: seq<Piece>)
    ensures |r| <= 2 * |es|
    ensures forall k :: 0 <= k < |r| ==>
      (r[k].orientation == Up ==> r[k].span.hi < p1) &&
      (r[k].orientation == Down ==> r[k].span.lo > p2)
  {
    if es == [] then []
    else PairedPieces(es[..|es| - 1], p1, p2) + ExonPieces(es[|es| - 1], p1, p2)
  }

  /** One more exon appends its upstream piece, then its downstream piece. */
  lemma PairedPiecesStep(es: seq<Exon>, i: nat, p1: int, p2: int)
    requires i < |es|
    ensures PairedPieces(es[..i + 1], p1, p2) == PairedPieces(es[..i], p1, p2) + UpPieces(es[i], p1) + DownPieces(es[i], p2)
  {
    assert es[..i + 1][..i] == es[..i];
  }

  /** The downstream pieces of an `if/elif` chain that tries the upstream
      tests first: an exon that has an upstream piece gives no downstream one. */
  function ChainedDownstreamPieces(es: seq<Exon>, p1: int, p2: int): (r: seq<Span>)
    ensures |r| <= |es|
    ensures forall k :: 0 <= k < |r| ==> r[k].lo > p2
  {
    if es == [] then []
    else
      var e := es[|es| - 1];
      ChainedDownstreamPieces(es[..|es| - 1], p1, p2) +
      (if UpPiece(e, p1).Some? then [] else AsSeq(DownPiece(e, p2)))
  }
  /** No exon yields an upstream piece exactly when there are no upstream pieces. */
  lemma {:induction false} UpstreamPiecesEmpty(es: seq<Exon>, p1: int)
    ensures UpstreamPieces(es, p1) == [] <==> forall i :: 0 <= i < |es| ==> UpPiece(es[i], p1).None?
  {
    if es != [] {
      var init := es[..|es| - 1];
      UpstreamPiecesEmpty(init, p1);
      assert forall i :: 0 <= i < |init| ==> init[i] == es[i];
    }
  }

  /** No exon yields a downstream piece exactly when there are no downstream pieces. */
  lemma {:induction false} DownstreamPiecesEmpty(es: seq<Exon>, p2: int)
    ensures DownstreamPieces(es, p2) == [] <==> forall i :: 0 <= i < |es| ==> DownPiece(es[i], p2).None?
  {
    if es != [] {
      var init := es[..|es| - 1];
      DownstreamPiecesEmpty(init, p2);
      assert forall i :: 0 <= i < |init| ==> init[i] == es[i];
    }
  }

  /** In the `if/elif` chain, no exon feeds the downstream side exactly when
      every exon either has an upstream piece or no downstream piece. */
  lemma {:induction false} ChainedDownstreamPiecesEmpty(es: seq<Exon>, p1: int, p2: int)
    ensures ChainedDownstreamPieces(es, p1, p2) == [] <==>
      forall i :: 0 <= i < |es| ==> UpPiece(es[i], p1).Some? || DownPiece(es[i], p2).None?
  {
    if es != [] {
      var init := es[..|es| - 1];
      ChainedDownstreamPiecesEmpty(init, p1, p2);
      assert forall i :: 0 <= i < |init| ==> init[i] == es[i];
    }
  }


  /** The spans of the pieces on one side, in order. */
  function SpansOf(ps: seq<Piece>, o: Orientation): seq<Span>
  {
    if ps == [] then []
    else SpansOf(ps[..|ps| - 1], o) + (if ps[|ps| - 1].orientation == o then [ps[|ps| - 1].span] else [])
  }

  lemma {:induction false} SpansOfAppend(a: seq<Piece>, b: seq<Piece>, o: Orientation)
    ensures SpansOf(a + b, o) == SpansOf(a, o) + SpansOf(b, o)
    decreases |b|
  {
    if b == [] {
      assert a + b == a;
    } else {
      var n := |b| - 1;
      assert (a + b)[..|a + b| - 1] == a + b[..n];
      SpansOfAppend(a, b[..n], o);
    }
  }

  /** Split by side, one exon's pieces are its upstream and its downstream piece. */
  lemma ExonPiecesSplit(e: Exon, p1: int, p2: int)
    ensures SpansOf(ExonPieces(e, p1, p2), Up) == AsSeq(UpPiece(e, p1))
    ensures SpansOf(ExonPieces(e, p1, p2), Down) == AsSeq(DownPiece(e, p2))
  {
    var ps := ExonPieces(e, p1, p2);
    if |ps| == 2 {
      assert ps[..1][..0] == [] && ps[..1] == [ps[0]];
      assert SpansOf(ps[..1], Down) == [];
      assert SpansOf(ps[..1], Up) == [ps[0].span];
    } else if |ps| == 1 {
      assert ps[..0] == [];
    }
  }

  /** Split by side, the interleaved pieces are the upstream pieces and the
      downstream pieces, each in file order. */
  lemma {:induction false} PairedPiecesSplit(es: seq<Exon>, p1: int, p2: int)
    ensures SpansOf(PairedPieces(es, p1, p2), Up) == UpstreamPieces(es, p1)
    ensures SpansOf(PairedPieces(es, p1, p2), Down) == DownstreamPieces(es, p2)
  {
    if es != [] {
      var init, e := es[..|es| - 1], es[|es| - 1];
      PairedPiecesSplit(init, p1, p2);
      SpansOfAppend(PairedPieces(init, p1, p2), ExonPieces(e, p1, p2), Up);
      SpansOfAppend(PairedPieces(init, p1, p2), ExonPieces(e, p1, p2), Down);
      ExonPiecesSplit(e, p1, p2);
    }
  }

  /** Some piece of the list holds position `x`. */
  predicate Covered(ps: seq<Span>, x: int)
  {
    exists k | 0 <= k < |ps| :: InSpan(ps[k], x)
  }

  lemma CoveredAppend(a: seq<Span>, b: seq<Span>, x: int)
    ensures Covered(a + b, x) <==> Covered(a, x) || Covered(b, x)
  {
    if Covered(a + b, x) {
      var k :| 0 <= k < |a + b| && InSpan((a + b)[k], x);
      if k >= |a| {
        assert InSpan(b[k - |a|], x);
      }
    }
    if Covered(a, x) {
      var k :| 0 <= k < |a| && InSpan(a[k], x);
      assert (a + b)[k] == a[k];
    }
    if Covered(b, x) {
      var k :| 0 <= k < |b| && InSpan(b[k], x);
      assert (a + b)[|a| + k] == b[k];
    }
  }

  /** The upstream pieces cover exactly the exon positions before `p1`,
      except those of exons that end exactly at `p1`. */
  lemma {:induction false} UpstreamCoverage(es: seq<Exon>, p1: int, x: int)
    ensures Covered(UpstreamPieces(es, p1), x) <==>
      exists i | 0 <= i < |es| :: InExon(es[i], x) && x < p1 && es[i].end != p1
  {
    if es != [] {
      var init, e := es[..|es| - 1], es[|es| - 1];
      UpstreamCoverage(init, p1, x);
      CoveredAppend(UpstreamPieces(init, p1), AsSeq(UpPiece(e, p1)), x);
      if exists i | 0 <= i < |es| :: InExon(es[i], x) && x < p1 && es[i].end != p1 {
        var i :| 0 <= i < |es| && InExon(es[i], x) && x < p1 && es[i].end != p1;
        if i < |init| {
          assert init[i] == es[i];
        } else {
          assert InSpan(AsSeq(UpPiece(e, p1))[0], x);
        }
      }
      if exists i | 0 <= i < |init| :: InExon(init[i], x) && x < p1 && init[i].end != p1 {
        var i :| 0 <= i < |init| && InExon(init[i], x) && x < p1 && init[i].end != p1;
        assert es[i] == init[i];
      }
      if Covered(AsSeq(UpPiece(e, p1)), x) {
        assert InExon(es[|es| - 1], x);
      }
    }
  }

  /** The downstream pieces cover exactly the exon positions after `p2`,
      except those of exons that start exactly at `p2`. */
  lemma {:induction false} DownstreamCoverage(es: seq<Exon>, p2: int, x: int)
    ensures Covered(DownstreamPieces(es, p2), x) <==>
      exists i | 0 <= i < |es| :: InExon(es[i], x) && x > p2 && es[i].start != p2
  {
    if es != [] {
      var init, e := es[..|es| - 1], es[|es| - 1];
      DownstreamCoverage(init, p2, x);
      CoveredAppend(DownstreamPieces(init, p2), AsSeq(DownPiece(e, p2)), x);
      if exists i | 0 <= i < |es| :: InExon(es[i], x) && x > p2 && es[i].start != p2 {
        var i :| 0 <= i < |es| && InExon(es[i], x) && x > p2 && es[i].start != p2;
        if i < |init| {
          assert init[i] == es[i];
        } else {
          assert InSpan(AsSeq(DownPiece(e, p2))[0], x);
        }
      }
      if exists i | 0 <= i < |init| :: InExon(init[i], x) && x > p2 && init[i].start != p2 {
        var i :| 0 <= i < |init| && InExon(init[i], x) && x > p2 && init[i].start != p2;
        assert es[i] == init[i];
      }
      if Covered(AsSeq(DownPiece(e, p2)), x) {
        assert InExon(es[|es| - 1], x);
      }
    }
  }

  /** Each exon gives at most one upstream piece followed by at most one
      downstream piece. */
  lemma ExonPiecesShape(e: Exon, p1: int, p2: int)
    ensures var ps := ExonPieces(e, p1, p2);
      && |ps| <= 2
      && (|ps| == 2 ==> ps[0].orientation == Up && ps[1].orientation == Down)
      && (forall k :: 0 <= k < |ps| ==>
            Some(ps[k].span) == (if ps[k].orientation == Up then UpPiece(e, p1) else DownPiece(e, p2)))
  {
  }

  /** An exon lying within [p1, p2] gives no piece at all. */
  lemma CodingExonGivesNothing(e: Exon, p1: int, p2: int)
    requires p1 <= e.start && e.end <= p2
    ensures ExonPieces(e, p1, p2) == []
  {
  }

  /** The length of an upstream piece of a well-formed exon is the exon
      length when the exon lies before `p1`, and `p1 - start` when it
      straddles `p1`. */
  lemma UpPieceLength(e: Exon, p1: int)
    requires UpPiece(e, p1).Some?
    ensures var s := UpPiece(e, p1).value;
      s.hi - s.lo + 1 == (if e.end < p1 then e.end - e.start + 1 else p1 - e.start)
  {
  }

  /** An exon that contains the whole coding span with room on both sides
      gives an upstream and a downstream piece under independent checks,
      but only the upstream piece under the `if/elif` chain. */
  lemma StraddlingExon(e: Exon, p1: int, p2: int)
    requires e.start < p1 <= p2 < e.end
    ensures UpstreamPieces([e], p1) == [Span(e.start, p1 - 1)]
    ensures DownstreamPieces([e], p2) == [Span(p2 + 1, e.end)]
    ensures PairedPieces([e], p1, p2) == [Piece(Up, Span(e.start, p1 - 1)), Piece(Down, Span(p2 + 1, e.end))]
    ensures ChainedDownstreamPieces([e], p1, p2) == []
  {
    assert [e][..0] == [];
  }

  /** With no exon that has pieces on both sides, the `if/elif` chain gives
      the same downstream pieces as the independent checks. */
  lemma {:induction false} ChainedAgreesWithoutStraddle(es: seq<Exon>, p1: int, p2: int)
    requires forall i :: 0 <= i < |es| ==> UpPiece(es[i], p1).None? || DownPiece(es[i], p2).None?
    ensures ChainedDownstreamPieces(es, p1, p2) == DownstreamPieces(es, p2)
  {
    if es != [] {
      ChainedAgreesWithoutStraddle(es[..|es| - 1], p1, p2);
    }
  }

  /** The flush test only skips a transcript with a CDS when the coding span
      reaches both ends of the transcript; if its exons lie inside the
      transcript, no exon then yields a piece on either side, so nothing
      is lost by skipping it. */
  lemma SkippedFlushLosesNothing(t: Transcript)
    requires Paired(t) && t.transcriptId != "" && |t.cdsStart| != 0 && !ShouldFlush(t)
    requires forall e <- t.exons :: t.geneStart <= e.start && e.end <= t.geneEnd
    ensures UpstreamPieces(t.exons, Point1(t)) == []
    ensures DownstreamPieces(t.exons, Point2(t)) == []
    ensures ChainedDownstreamPieces(t.exons, Point1(t), Point2(t)) == []
  {
    UpstreamPiecesEmpty(t.exons, Point1(t));
    DownstreamPiecesEmpty(t.exons, Point2(t));
    ChainedDownstreamPiecesEmpty(t.exons, Point1(t), Point2(t));
    assert forall i :: 0 <= i < |t.exons| ==> t.exons[i] in t.exons;
  }

  /** An exon that ends exactly at `p1` has positions before `p1` that no
      piece holds: the exons minus the coding span are not always covered. */
  lemma BoundaryExonIsLost()
    ensures InExon(Exon(0, 10), 5) && 5 < 10
    ensures !Covered(UpstreamPieces([Exon(0, 10)], 10), 5)
  {
    UpstreamCoverage([Exon(0, 10)], 10, 5);
  }

  /** A two-exon transcript, exons (0,19) and (40,79) with coding span
      (10,70): one upstream piece (0,9) and one downstream piece (71,79). */
  lemma WorkedExample()
    ensures UpstreamPieces([Exon(0, 19), Exon(40, 79)], 10) == [Span(0, 9)]
    ensures DownstreamPieces([Exon(0, 19), Exon(40, 79)], 70) == [Span(71, 79)]
  {
    var es := [Exon(0, 19), Exon(40, 79)];
    assert es[..1] == [Exon(0, 19)];
    assert es[..1][..0] == [];
  }

  /** The label of a side: on `+` upstream is the 5' UTR, on `-` it is the
      3' UTR; any other strand has no label. */
  function Label(strand: string, o: Orientation): (r: Option<UtrType>)
    ensures r.Some? <==> strand == "+" || strand == "-"
  {
    if strand == "+" then Some(if o == Up then FivePrime else ThreePrime)
    else if strand == "-" then Some(if o == Up then ThreePrime else FivePrime)
    else None
  }
}
