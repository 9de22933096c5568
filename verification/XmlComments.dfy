/** A comment changes nothing, wherever content may stand. */
module XmlComments {
  import opened Protocol
  import opened XmlConfig
  import opened XmlPieces
  import opened XmlMeaning

  function CommentOf(body: string): string {
    "<!--" + body + "-->"
  }

  /** A position of the scan, or one inside text: not inside markup. */
  predicate ContentAt(xml: string, p: nat)
    requires p <= |xml|
    decreases |xml|
  {
    || p == 0
    || (Head(xml).Ok?
        && var cut := Head(xml).value;
           if p < cut.length then cut.piece.Text? else ContentAt(xml[cut.length..], p - cut.length))
  }

  function Inserted(xml: string, p: nat, body: string): string
    requires p <= |xml|
  {
    xml[..p] + CommentOf(body) + xml[p..]
  }

  // ---------------------------------------------------------------- insertion

  /** A body without the closing sequence is ended by the one that follows it. */
  lemma CommentEnds(body: string, rest: string)
    requires Find(body, "-->").None?
    ensures Find(body + "-->" + rest, "-->") == Some(|body|)
  {
    hide Find;
    var t := body + "-->" + rest;
    FindIs(body, "-->", 0);
    FindIs(t, "-->", |body|);
    OccursThree(t, '-', '-', '>', |body|);
    forall i | 0 <= i < |body| ensures !OccursAt(t, "-->", i) {
      NoEarlierEnd(body, rest, i);
    }
  }

  lemma NoEarlierEnd(body: string, rest: string, i: nat)
    requires i < |body| && !OccursAt(body, "-->", i)
    ensures !OccursAt(body + "-->" + rest, "-->", i)
  {
    var t := body + "-->" + rest;
    OccursThree(t, '-', '-', '>', i);
    OccursThree(body, '-', '-', '>', i);
    assert t[i + 2] == if i + 2 < |body| then body[i + 2] else '-';
  }

  lemma CommentParts(body: string, rest: string)
    ensures var s := CommentOf(body) + rest;
            |s| >= 7 && s[0] == '<' && "<!--" <= s && s[4..] == body + "-->" + rest && s[|body| + 7..] == rest
  {
    var s := CommentOf(body) + rest;
    assert s == "<!--" + (body + "-->" + rest);
    assert s == ("<!--" + body + "-->") + rest;
  }

  lemma CommentHead(body: string, rest: string)
    requires Find(body, "-->").None?
    ensures Head(CommentOf(body) + rest) == Ok(Cut(Comment, |body| + 7))
  {
    hide Find, TagEnd, TagPiece, CommentOf;
    CommentEnds(body, rest);
    CommentParts(body, rest);
  }

  lemma CommentFirst(s: Scan, body: string, rest: string)
    requires s.Valid() && Find(body, "-->").None?
    ensures ScanAll(s, CommentOf(body) + rest) == ScanAll(s, rest)
  {
    hide Head, Find, CommentOf;
    CommentHead(body, rest);
    CommentParts(body, rest);
  }

  lemma ScanTextUpTo(s: Scan, xml: string, n: nat)
    requires s.Valid() && TextUpTo(xml, n)
    ensures n <= |xml| && ScanAll(s, xml) == ScanAll(AppendText(s, xml[..n]), xml[n..])
  {
    hide ScanAll, AppendText, Find;
    TextEnds(xml, n);
    ScanText(s, xml, n);
  }

  lemma TextRest(xml: string, p: nat, n: nat)
    requires p <= n && TextUpTo(xml, n)
    ensures p <= |xml| && TextUpTo(xml[p..], n - p)
  {
  }

  lemma SliceParts(xml: string, p: nat, n: nat)
    requires p <= n <= |xml|
    ensures xml[..p] + xml[p..][..n - p] == xml[..n] && xml[p..][n - p..] == xml[n..]
  {
  }

  /** Text may be cut in two. */
  lemma ScanSplit(s: Scan, xml: string, p: nat, n: nat)
    requires s.Valid() && p <= n && TextUpTo(xml, n)
    ensures p <= |xml| && ScanAll(s, xml) == ScanAll(AppendText(s, xml[..p]), xml[p..])
  {
    hide ScanAll, AppendText, TextUpTo;
    ScanTextUpTo(s, xml, n);
    TextRest(xml, p, n);
    ScanTextUpTo(AppendText(s, xml[..p]), xml[p..], n - p);
    AppendTwice(s, xml[..p], xml[p..][..n - p]);
    SliceParts(xml, p, n);
  }

  lemma CommentInText(s: Scan, xml: string, p: nat, body: string)
    requires s.Valid() && Find(body, "-->").None?
    requires xml != [] && xml[0] != '<' && p < Head(xml).value.length
    ensures ScanAll(s, Inserted(xml, p, body)) == ScanAll(s, xml)
  {
    hide Head, Find, ScanAll, AppendText, Inserted, TextUpTo;
    TextIs(xml);
    InsertedInText(xml, p, Head(xml).value.length, body);
    ScanSplit(s, Inserted(xml, p, body), p, p);
    CommentFirst(AppendText(s, xml[..p]), body, xml[p..]);
    ScanSplit(s, xml, p, Head(xml).value.length);
  }

  lemma InsertedInText(xml: string, p: nat, n: nat, body: string)
    requires p < n && TextUpTo(xml, n)
    ensures var xml' := Inserted(xml, p, body);
            TextUpTo(xml', p) && xml'[..p] == xml[..p] && xml'[p..] == CommentOf(body) + xml[p..]
    ensures p <= |xml|
  {
    InsertedAt(xml, p, p, body);
    hide CommentOf;
  }

  lemma {:induction false} CommentsDoNotMatter(s: Scan, xml: string, p: nat, body: string)
    requires s.Valid() && p <= |xml| && ContentAt(xml, p) && Find(body, "-->").None?
    ensures ScanAll(s, Inserted(xml, p, body)) == ScanAll(s, xml)
    decreases |xml|
  {
    hide Head, Find, Take;
    if p == 0 {
      assert Inserted(xml, p, body) == CommentOf(body) + xml;
      CommentFirst(s, body, xml);
    } else if p < Head(xml).value.length {
      TextHead(xml);
      CommentInText(s, xml, p, body);
    } else {
      var n := Head(xml).value.length;
      InsertedLater(xml, p, body);
      var next := Take(s, Head(xml).value.piece);
      if next.Ok? {
        CommentsDoNotMatter(next.value, xml[n..], p - n, body);
      }
    }
  }

  lemma SliceLater(a: string, c: string, b: string, n: nat)
    requires n <= |a|
    ensures (a + c + b)[n..] == a[n..] + c + b
  {
  }

  lemma SliceSlices(xml: string, n: nat, p: nat)
    requires n <= p <= |xml|
    ensures xml[..p][n..] == xml[n..][..p - n] && xml[p..] == xml[n..][p - n..]
  {
  }

  lemma InsertedFrom(xml: string, p: nat, n: nat, body: string)
    requires n <= p <= |xml|
    ensures var xml' := Inserted(xml, p, body);
            n <= |xml'| && xml'[n..] == Inserted(xml[n..], p - n, body)
  {
    hide CommentOf;
    SliceLater(xml[..p], CommentOf(body), xml[p..], n);
    SliceSlices(xml, n, p);
  }

  lemma InsertedAt(xml: string, p: nat, n: nat, body: string)
    requires n <= p <= |xml|
    ensures var xml' := Inserted(xml, p, body);
            Agree(xml, xml', n) && n < |xml'| && xml'[n] == if n < p then xml[n] else '<'
  {
    assert CommentOf(body)[0] == '<';
    hide CommentOf;
  }

  /** Behind the first piece, insertion leaves that piece alone. */
  lemma InsertedLater(xml: string, p: nat, body: string)
    requires xml != [] && Head(xml).Ok? && Head(xml).value.length <= p <= |xml|
    ensures var n, xml' := Head(xml).value.length, Inserted(xml, p, body);
            xml' != [] && Head(xml') == Head(xml) && xml'[n..] == Inserted(xml[n..], p - n, body)
  {
    hide Head, Find, Inserted, Agree;
    var n := Head(xml).value.length;
    TextHead(xml);
    InsertedAt(xml, p, n, body);
    InsertedFrom(xml, p, n, body);
    HeadLocal(xml, Inserted(xml, p, body));
  }

  lemma TextHead(xml: string)
    requires xml != []
    ensures Head(xml).Ok? && Head(xml).value.piece.Text? ==>
              xml[0] != '<' && TextUpTo(xml, Head(xml).value.length)
  {
    if xml[0] != '<' {
      TextIs(xml);
    }
  }

  /** Inserting a comment at any content position changes neither the fields nor whether, and why, the scan fails. */
  lemma CommentInvariance(xml: string, p: nat, body: string)
    requires p <= |xml| && ContentAt(xml, p) && Find(body, "-->").None?
    ensures Extract(Inserted(xml, p, body)) == Extract(xml)
  {
    CommentsDoNotMatter(BEGIN, xml, p, body);
  }
}
