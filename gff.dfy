/** GFF3 lines as the two UTR extractor scripts read them, the helpers they
    use on the attribute column, and the per-transcript context that both
    scripts accumulate in module-level variables. */
module Gff {

  datatype Option<T> = None | Some(value: T)

  /** One annotation line after `split('\t')`, with columns 4 and 5 already
      converted by `int()`.  Only the columns the scripts read are kept:
      1 (seqid), 3 (feature type), 4 and 5 (one-based inclusive start and
      end), 7 (strand) and 9 (attributes).  A comment line keeps its text in
      `seqid`; its other columns are never read. */
  datatype Record = Record(seqid: string, kind: string, start: int, end: int, strand: string, attributes: string)

  /** The first character of the first column is `#`. */
  predicate IsComment(r: Record)
    requires r.seqid != ""
  {
    r.seqid[0] == '#'
  }

  /** A `gene` or `mRNA` line: the point where the open transcript may be flushed. */
  predicate IsBoundary(r: Record)
  {
    r.kind == "mRNA" || r.kind == "gene"
  }

  /** What the line loop needs of a line so that none of its column accesses
      and none of its `index(";")` calls raises. */
  predicate WellFormed(r: Record)
  {
    && r.seqid != ""
    && (!IsComment(r) && IsBoundary(r) ==> ';' in r.attributes)
  }

  /** Python's `needle in hay` on strings: some suffix of `hay` starts with `needle`. */
  predicate Contains(hay: string, needle: string)
  {
    exists i | 0 <= i <= |hay| :: needle <= hay[i..]
  }

  /** An empty transcript id occurs in every attribute column, so before the
      first `mRNA` line every exon and CDS line is accepted. */
  lemma EmptyIdMatchesEveryLine(hay: string)
    ensures Contains(hay, "")
  {
    assert "" <= hay[0..];
  }

  /** The parent test is textual: the id `T1`, read from `ID=rna-T1;...`,
      matches an exon line whose parent is `rna-T10`. */
  lemma ShorterIdMatchesLongerParent()
    ensures ';' in "ID=rna-T1;Parent=gene-G" && TranscriptIdOf("ID=rna-T1;Parent=gene-G") == "T1"
    ensures Contains("ID=exon-1;Parent=rna-T10", "T1")
  {
    TranscriptIdOfRoundTrip("ID=rna-", "T1", "Parent=gene-G");
    assert "ID=rna-" + "T1" + ";" + "Parent=gene-G" == "ID=rna-T1;Parent=gene-G";
    var hay := "ID=exon-1;Parent=rna-T10";
    assert "T1" <= hay[21..];
  }

  /** Python's `min` on a non-empty list. */
  function SeqMin(s: seq<int>): (m: int)
    requires |s| > 0
    ensures m in s
    ensures forall x :: x in s ==> m <= x
  {
    if |s| == 1 then s[0]
    else
      var rest := SeqMin(s[1..]);
      assert forall x :: x in s ==> x == s[0] || x in s[1..];
      if s[0] <= rest then s[0] else rest
  }

  /** Python's `max` on a non-empty list. */
  function SeqMax(s: seq<int>): (m: int)
    requires |s| > 0
    ensures m in s
    ensures forall x :: x in s ==> x <= m
  {
    if |s| == 1 then s[0]
    else
      var rest := SeqMax(s[1..]);
      assert forall x :: x in s ==> x == s[0] || x in s[1..];
      if s[0] >= rest then s[0] else rest
  }

  /** `s.index(c)`: the position of the first occurrence of `c`. */
  function IndexOf(s: string, c: char): (i: nat)
    requires c in s
    ensures i < |s| && s[i] == c
    ensures c !in s[..i]
  {
    if s[0] == c then 0
    else
      var j := IndexOf(s[1..], c);
      assert s[..j + 1] == [s[0]] + s[1..][..j];
      1 + j
  }

  /** How Python reads a slice bound on a sequence of length `n`: a
      negative bound counts from the end, and the result is cut back to
      `[0, n]`. */
  function SliceBound(i: int, n: nat): (b: nat)
    ensures b <= n
    ensures 0 <= i <= n ==> b == i
  {
    if i < 0 then (if i + n < 0 then 0 else i + n)
    else if i > n then n
    else i
  }

  /** Python's slice `s[lo:hi]`: empty when the bounds cross. */
  function Slice(s: string, lo: int, hi: int): (r: string)
    ensures var a, b := SliceBound(lo, |s|), SliceBound(hi, |s|);
      |r| == (if a < b then b - a else 0) &&
      forall k :: 0 <= k < |r| ==> r[k] == s[a + k]
  {
    var a, b := SliceBound(lo, |s|), SliceBound(hi, |s|);
    if a < b then s[a..b] else []
  }

  /** `attr[8:attr.index(";")]`, the gene name of a `gene` line
      (meant to drop an `ID=gene-` prefix). */
  function GeneNameOf(attr: string): (r: string)
    requires ';' in attr
    ensures ';' !in r
    ensures r != "" ==> 8 + |r| < |attr| && attr[8 + |r|] == ';'
  {
    Slice(attr, 8, IndexOf(attr, ';'))
  }

  /** `attr[7:attr.index(";")]`, the transcript id of an `mRNA` line
      (meant to drop an `ID=rna-` prefix). */
  function TranscriptIdOf(attr: string): (r: string)
    requires ';' in attr
    ensures ';' !in r
    ensures r != "" ==> 7 + |r| < |attr| && attr[7 + |r|] == ';'
  {
    Slice(attr, 7, IndexOf(attr, ';'))
  }

  /** Slicing from a fixed offset to the first `;` returns what lies between
      a prefix of that length and the first separator. */
  lemma SliceToSeparator(prefix: string, value: string, rest: string)
    requires ';' !in prefix && ';' !in value
    ensures var attr := prefix + value + ";" + rest;
      ';' in attr && IndexOf(attr, ';') == |prefix| + |value| &&
      Slice(attr, |prefix|, IndexOf(attr, ';')) == value
  {
    var attr := prefix + value + ";" + rest;
    var n := |prefix| + |value|;
    assert attr[n] == ';';
    var i := IndexOf(attr, ';');
    assert attr[..n] == prefix + value;
    assert i == n;
    var r := Slice(attr, |prefix|, i);
    assert |r| == |value|;
    forall k | 0 <= k < |value| ensures r[k] == value[k] {
      assert attr[|prefix| + k] == value[k];
    }
  }

  /** The transcript id of `ID=rna-<id>;...` is `<id>`. */
  lemma TranscriptIdOfRoundTrip(prefix: string, id: string, rest: string)
    requires |prefix| == 7 && ';' !in prefix && ';' !in id
    ensures TranscriptIdOf(prefix + id + ";" + rest) == id
  {
    SliceToSeparator(prefix, id, rest);
  }

  /** The gene name of `ID=gene-<name>;...` is `<name>`. */
  lemma GeneNameOfRoundTrip(prefix: string, name: string, rest: string)
    requires |prefix| == 8 && ';' !in prefix && ';' !in name
    ensures GeneNameOf(prefix + name + ";" + rest) == name
  {
    SliceToSeparator(prefix, name, rest);
  }

  /** When the first `;` comes at or before the offset, the id is empty. */
  lemma ShortAttributeGivesEmptyId(attr: string)
    requires |attr| >= 8 && ';' in attr[..8]
    ensures TranscriptIdOf(attr) == "" && GeneNameOf(attr) == ""
  {
    var j :| 0 <= j < 8 && attr[j] == ';';
    var i := IndexOf(attr, ';');
    assert i <= j;
  }

  /** An exon or CDS interval, stored zero-based inclusive. */
  datatype Exon = Exon(start: int, end: int)

  /** The module-level variables that describe the transcript being
      accumulated.  `geneStart` and `geneEnd` are the span of the `mRNA`
      line, not of the `gene` line. */
  datatype Transcript = Transcript(
    geneName: string,
    transcriptId: string,
    geneStart: int,
    geneEnd: int,
    contig: string,
    strand: string,
    exons: seq<Exon>,
    cdsStart: seq<int>,
    cdsEnd: seq<int>)

  /** The values the scripts assign before reading the file. */
  const Initial := Transcript("", "", 0, 0, "", "", [], [], [])

  /** `CDS_Start` and `CDS_End` are always appended together. */
  predicate Paired(t: Transcript)
  {
    |t.cdsStart| == |t.cdsEnd|
  }

  /** The flush test: a transcript id, at least one CDS, and a coding span
      that differs from the transcript span at one end or the other. */
  predicate ShouldFlush(t: Transcript)
    requires Paired(t)
  {
    && t.transcriptId != ""
    && |t.cdsStart| != 0
    && (SeqMin(t.cdsStart) - t.geneStart != 0 || t.geneEnd - SeqMax(t.cdsEnd) != 0)
  }

  /** `Point1 = min(CDS_Start)`. */
  function Point1(t: Transcript): int
    requires |t.cdsStart| > 0
  {
    SeqMin(t.cdsStart)
  }

  /** `Point2 = max(CDS_End)`. */
  function Point2(t: Transcript): int
    requires |t.cdsEnd| > 0
  {
    SeqMax(t.cdsEnd)
  }

  /** How one line changes the accumulated context, apart from any flush
      (which both scripts run first, on the context before the line). */
  function Ingest(t: Transcript, r: Record): (u: Transcript)
    requires WellFormed(r)
    ensures Paired(t) ==> Paired(u)
  {
    if IsComment(r) then t
    else if IsBoundary(r) then
      var v := if r.kind == "gene" then t.(geneName := GeneNameOf(r.attributes))
               else t.(geneStart := r.start - 1, geneEnd := r.end - 1, contig := r.seqid,
                       strand := r.strand, transcriptId := TranscriptIdOf(r.attributes));
      v.(exons := [], cdsStart := [], cdsEnd := [])
    else if r.kind == "exon" && Contains(r.attributes, t.transcriptId) then
      t.(exons := t.exons + [Exon(r.start - 1, r.end - 1)])
    else if r.kind == "CDS" && Contains(r.attributes, t.transcriptId) then
      t.(cdsStart := t.cdsStart + [r.start - 1], cdsEnd := t.cdsEnd + [r.end - 1])
    else t
  }

  /** What one line does to the context, clause by clause. */
  lemma IngestEffect(t: Transcript, r: Record)
    requires WellFormed(r)
    ensures var u := Ingest(t, r);
      // comment lines and lines of other types change nothing
      && (IsComment(r) || (r.kind != "gene" && r.kind != "mRNA" && r.kind != "exon" && r.kind != "CDS") ==> u == t)
      // after every gene or mRNA line the lists are empty
      && (!IsComment(r) && IsBoundary(r) ==> u.exons == [] && u.cdsStart == [] && u.cdsEnd == [])
      // a gene line sets only the gene name
      && (!IsComment(r) && r.kind == "gene" ==>
            u == t.(geneName := GeneNameOf(r.attributes), exons := [], cdsStart := [], cdsEnd := []))
      // an mRNA line sets the identity and the zero-based span, keeps the gene name
      && (!IsComment(r) && r.kind == "mRNA" ==>
            u.transcriptId == TranscriptIdOf(r.attributes) && u.contig == r.seqid && u.strand == r.strand &&
            u.geneStart == r.start - 1 && u.geneEnd == r.end - 1 && u.geneName == t.geneName)
      // other lines keep the identity and only extend the lists, in file order
      && (!IsComment(r) && !IsBoundary(r) ==>
            u.(exons := t.exons, cdsStart := t.cdsStart, cdsEnd := t.cdsEnd) == t &&
            t.exons <= u.exons && t.cdsStart <= u.cdsStart && t.cdsEnd <= u.cdsEnd)
      // an interval is recorded only when the current id occurs in column 9, zero-based
      && (!IsComment(r) && !IsBoundary(r) && u != t ==>
            Contains(r.attributes, t.transcriptId) &&
            ((r.kind == "exon" && u.exons == t.exons + [Exon(r.start - 1, r.end - 1)] && u.cdsStart == t.cdsStart) ||
             (r.kind == "CDS" && u.exons == t.exons &&
              u.cdsStart == t.cdsStart + [r.start - 1] && u.cdsEnd == t.cdsEnd + [r.end - 1])))
  {
  }

  /** A line whose column 9 does not contain the current id leaves the lists
      as they are, whatever its type. */
  lemma ForeignLineIgnored(t: Transcript, r: Record)
    requires WellFormed(r) && !IsComment(r) && !IsBoundary(r)
    requires !Contains(r.attributes, t.transcriptId)
    ensures Ingest(t, r) == t
  {
  }
}
