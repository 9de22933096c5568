/** How the pieces of a document are spelled, in characters: the scanner cuts a document exactly there. */
module XmlSpelling {
  import opened Protocol
  import opened XmlConfig
  import opened XmlPieces

  /** A string ends with the first occurrence of `close` in it. */
  predicate EndsFirst(s: string, close: string) {
    && |close| <= |s|
    && OccursAt(s, close, |s| - |close|)
    && forall i :: 0 <= i < |s| - |close| ==> !OccursAt(s, close, i)
  }

  /** The quotation mark that is open at the end of a string, if `open` was before it. */
  function OpenQuote(open: Option<char>, s: string): Option<char> {
    if s == [] then open
    else
      var before, c := OpenQuote(open, s[..|s| - 1]), s[|s| - 1];
      if before.Some? then (if c == before.value then None else before)
      else if c == '"' || c == '\'' then Some(c)
      else None
  }

  /** Quotes are closed, and every `>` stands inside them. */
  predicate ClosedTag(inner: string) {
    && OpenQuote(None, inner).None?
    && forall i :: 0 <= i < |inner| ==> inner[i] == '>' ==> OpenQuote(None, inner[..i]).Some?
  }

  /** White space around a middle that has none at its ends. */
  predicate Surrounded(inner: string, left: string, middle: string, right: string) {
    && inner == left + middle + right
    && AllSpace(left) && AllSpace(right)
    && middle != [] && !IsSpace(middle[0]) && !IsSpace(middle[|middle| - 1])
  }

  predicate NoSpace(name: string) {
    forall i :: 0 <= i < |name| ==> !IsSpace(name[i])
  }

  /** A name, and whatever follows it behind white space. */
  predicate Named(tag: string, name: string) {
    && name <= tag && NoSpace(name)
    && (|name| < |tag| ==> IsSpace(tag[|name|]))
  }

  /** What stands between the brackets of a tag. */
  ghost predicate SpellsTag(p: Piece, inner: string) {
    match p
    case CloseTag(name) =>
      && name != [] && NoSpace(name) && (forall i :: 0 <= i < |name| ==> name[i] != '/')
      && exists left, gap, right :: inner == left + "/" + gap + name + right
                                    && AllSpace(left) && AllSpace(gap) && AllSpace(right)
    case OpenTag(name, true) =>
      && name != [] && name[0] != '/'
      && exists left, tag, right :: Surrounded(inner, left, tag + "/", right) && Named(tag, name)
    case OpenTag(name, false) =>
      && name != [] && name[0] != '/'
      && exists left, tag, right :: Surrounded(inner, left, tag, right) && Named(tag, name) && tag[|tag| - 1] != '/'
    case _ => false
  }

  /** The characters of a piece. */
  ghost predicate Spells(p: Piece, s: string) {
    match p
    case Text(text) => s == text && text != [] && forall i :: 0 <= i < |text| ==> text[i] != '<'
    case Comment => "<!--" <= s && EndsFirst(s[4..], "-->")
    case Cdata(text) => s == "<![CDATA[" + text + "]]>" && EndsFirst(text + "]]>", "]]>")
    case Instruction => "<?" <= s && EndsFirst(s[2..], "?>")
    case _ =>
      && |s| >= 2 && s[0] == '<' && s[|s| - 1] == '>'
      && (var inner := s[1..|s| - 1];
          ClosedTag(inner) && (inner != [] ==> inner[0] !in {'!', '?'}) && SpellsTag(p, inner))
  }

  // ---------------------------------------------------------------- the ends

  lemma FindsEnd(s: string, close: string, k: nat)
    requires k + |close| == |s|
    ensures Find(s, close) == Some(k) <==> EndsFirst(s, close)
  {
    hide OccursAt, Find;
    FindIs(s, close, k);
  }

  lemma QuoteStep(open: Option<char>, c: char, s: string)
    ensures OpenQuote(open, [c] + s) == OpenQuote(QuoteAfter(open, c), s)
    decreases |s|
  {
    if s == [] {
      assert [c] + s == [c] && [c][..0] == [];
      assert OpenQuote(open, []) == open;
    } else {
      var n := |s| - 1;
      QuoteStep(open, c, s[..n]);
      assert ([c] + s)[..n + 1] == [c] + s[..n];
    }
  }

  /** The first `>` outside quotes. */
  predicate EndsTagAt(s: string, open: Option<char>, k: nat) {
    && k < |s| && s[k] == '>' && OpenQuote(open, s[..k]).None?
    && forall i :: 0 <= i < k && s[i] == '>' ==> OpenQuote(open, s[..i]).Some?
  }

  lemma EndsTagFirst(s: string, open: Option<char>)
    requires s != []
    ensures EndsTagAt(s, open, 0) <==> open.None? && s[0] == '>'
  {
    assert s[..0] == [];
  }

  lemma EndsTagLater(s: string, open: Option<char>, k: nat)
    requires s != [] && !(open.None? && s[0] == '>')
    ensures EndsTagAt(s, open, k + 1) <==> EndsTagAt(s[1..], QuoteAfter(open, s[0]), k)
  {
    var c, rest := s[0], s[1..];
    forall i: nat | i <= |rest| ensures OpenQuote(open, s[..i + 1]) == OpenQuote(QuoteAfter(open, c), rest[..i]) {
      assert s[..i + 1] == [c] + rest[..i];
      QuoteStep(open, c, rest[..i]);
    }
    assert s[..0] == [] && OpenQuote(open, s[..0]) == open;
    hide OpenQuote, QuoteAfter;
    if EndsTagAt(s, open, k + 1) {
      forall i | 0 <= i < k && rest[i] == '>' ensures OpenQuote(QuoteAfter(open, c), rest[..i]).Some? {
        assert s[i + 1] == '>';
      }
    }
    if EndsTagAt(rest, QuoteAfter(open, c), k) {
      forall i | 0 <= i < k + 1 && s[i] == '>' ensures OpenQuote(open, s[..i]).Some? {
        if i > 0 {
          assert rest[i - 1] == '>';
        }
      }
    }
  }

  lemma {:induction false} TagEndIs(s: string, open: Option<char>, k: nat)
    ensures TagEnd(s, open) == Some(k) <==> EndsTagAt(s, open, k)
  {
    if s != [] {
      hide EndsTagAt, QuoteAfter;
      EndsTagFirst(s, open);
      if open.None? && s[0] == '>' {
        if k > 0 {
          OnlyOneEnd(s, open, 0, k);
        }
      } else if k > 0 {
        TagEndIs(s[1..], QuoteAfter(open, s[0]), k - 1);
        EndsTagLater(s, open, k - 1);
      }
    }
  }

  lemma OnlyOneEnd(s: string, open: Option<char>, i: nat, k: nat)
    requires EndsTagAt(s, open, i) && i < k
    ensures !EndsTagAt(s, open, k)
  {
  }

  // ---------------------------------------------------------------- the middle of a tag

  lemma {:induction false} TrimLeftSkips(left: string, s: string)
    requires AllSpace(left) && (s == [] || !IsSpace(s[0]))
    ensures TrimLeft(left + s) == s
  {
    hide IsSpace;
    if left == [] {
      assert left + s == s;
    } else {
      TrimLeftSkips(left[1..], s);
      assert (left + s)[1..] == left[1..] + s;
    }
  }

  lemma {:induction false} TrimRightSkips(s: string, right: string)
    requires AllSpace(right) && (s == [] || !IsSpace(s[|s| - 1]))
    ensures TrimRight(s + right) == s
  {
    hide IsSpace;
    if right == [] {
      assert s + right == s;
    } else {
      var n := |right| - 1;
      TrimRightSkips(s, right[..n]);
      assert (s + right)[..|s| + n] == s + right[..n];
    }
  }

  lemma TrimTo(inner: string, left: string, middle: string, right: string)
    requires Surrounded(inner, left, middle, right)
    ensures Trim(inner) == middle
  {
    hide IsSpace, AllSpace, TrimLeft, TrimRight;
    assert inner == left + (middle + right);
    assert (middle + right)[0] == middle[0];
    TrimLeftSkips(left, middle + right);
    TrimRightSkips(middle, right);
  }

  lemma TrimFrom(inner: string) returns (left: string, right: string)
    requires Trim(inner) != []
    ensures Surrounded(inner, left, Trim(inner), right)
  {
    hide IsSpace, AllSpace, Trim;
    left, right := TrimIs(inner);
  }

  lemma {:induction false} NameIs(tag: string, name: string)
    ensures NameOf(tag) == name <==> Named(tag, name)
  {
    hide IsSpace;
    NameStarts(tag, name);
    if !(tag == [] || IsSpace(tag[0])) {
      NameIs(tag[1..], NameOf(tag[1..]));
      if Named(tag, name) {
        NamedRest(tag, name);
        NameIs(tag[1..], name[1..]);
        assert name == [tag[0]] + name[1..];
      }
      NamedMore(tag, NameOf(tag[1..]));
    }
  }

  lemma NamedRest(tag: string, name: string)
    requires tag != [] && !IsSpace(tag[0]) && Named(tag, name)
    ensures name != [] && name[0] == tag[0] && Named(tag[1..], name[1..])
  {
    hide IsSpace;
    assert name != [];
    assert name[0] == tag[0];
    assert tag[..|name|] == name;
    assert tag[1..][..|name| - 1] == name[1..];
  }

  lemma NamedMore(tag: string, rest: string)
    requires tag != [] && !IsSpace(tag[0]) && Named(tag[1..], rest)
    ensures Named(tag, [tag[0]] + rest)
  {
    hide IsSpace;
    assert tag == [tag[0]] + tag[1..];
    assert tag[..|rest| + 1] == [tag[0]] + tag[1..][..|rest|];
  }

  // ----- a closing tag

  lemma CloseReads(inner: string, name: string, left: string, gap: string, right: string)
    requires name != [] && NoSpace(name) && inner == left + "/" + gap + name + right
    requires AllSpace(left) && AllSpace(gap) && AllSpace(right)
    ensures var tag := Trim(inner); tag != [] && tag[0] == '/' && Trim(tag[1..]) == name
  {
    var tag := "/" + gap + name;
    assert tag[0] == '/' && tag[|tag| - 1] == name[|name| - 1];
    assert !IsSpace('/') && !IsSpace(name[|name| - 1]) && !IsSpace(name[0]);
    hide IsSpace;
    assert inner == left + tag + right;
    TrimTo(inner, left, tag, right);
    assert tag[1..] == gap + name + [];
    TrimTo(tag[1..], gap, name, []);
  }

  lemma CloseIs(inner: string, name: string)
    ensures TagPiece(inner) == Ok(CloseTag(name)) <==> SpellsTag(CloseTag(name), inner)
  {
    hide Trim, NameOf, IsSpace;
    if TagPiece(inner) == Ok(CloseTag(name)) {
      var tag := Trim(inner);
      var left, right := TrimFrom(inner);
      var gap, none := TrimFrom(tag[1..]);
      TrailingNone(tag, gap, name, none);
      assert tag == "/" + tag[1..];
      assert inner == left + "/" + gap + name + right;
    }
    if SpellsTag(CloseTag(name), inner) {
      var left, gap, right :| inner == left + "/" + gap + name + right && AllSpace(left) && AllSpace(gap) && AllSpace(right);
      CloseReads(inner, name, left, gap, right);
    }
  }

  /** A trimmed tag has no white space left behind its name. */
  lemma TrailingNone(tag: string, gap: string, name: string, none: string)
    requires tag != [] && !IsSpace(tag[|tag| - 1]) && tag[1..] == gap + name + none && AllSpace(none) && name != []
    ensures none == []
  {
    hide IsSpace;
    LastIs(tag, gap, name, none);
  }

  lemma LastIs(tag: string, gap: string, name: string, none: string)
    requires tag != [] && tag[1..] == gap + name + none
    ensures none != [] ==> tag[|tag| - 1] == none[|none| - 1]
  {
    if none != [] {
      assert tag[|tag| - 1] == tag[1..][|tag| - 2];
    }
  }

  // ----- an opening tag

  lemma OpenIs(inner: string, name: string)
    ensures TagPiece(inner) == Ok(OpenTag(name, false)) <==> SpellsTag(OpenTag(name, false), inner)
  {
    hide Trim, NameOf, IsSpace, Named;
    NameIs(Trim(inner), name);
    if TagPiece(inner) == Ok(OpenTag(name, false)) {
      var left, right := TrimFrom(inner);
      assert Surrounded(inner, left, Trim(inner), right) && Named(Trim(inner), name);
    }
    if SpellsTag(OpenTag(name, false), inner) {
      var left, tag, right :| Surrounded(inner, left, tag, right) && Named(tag, name) && tag[|tag| - 1] != '/';
      TrimTo(inner, left, tag, right);
      NameIs(tag, name);
      NameStarts(tag, name);
    }
  }

  lemma NameStarts(tag: string, name: string)
    ensures Named(tag, name) && name != [] ==> tag != [] && tag[0] == name[0] && !IsSpace(tag[0])
  {
  }

  /** A name is that of a tag whether or not white space is trimmed behind it. */
  lemma NamedTrimmed(tag: string, name: string)
    requires tag != [] && !IsSpace(tag[0])
    ensures Named(Trim(tag), name) <==> Named(tag, name)
  {
    var before, after := TrimIs(tag);
    BeforeNothing(tag, before, Trim(tag), after);
    hide Trim, IsSpace;
    NamedLonger(Trim(tag), after, name);
  }

  lemma BeforeNothing(tag: string, before: string, middle: string, after: string)
    requires tag != [] && !IsSpace(tag[0]) && tag == before + middle + after && AllSpace(before) && AllSpace(after)
    ensures before == [] && middle != [] && tag == middle + after
  {
    assert tag == before + (middle + after);
    hide IsSpace;
    JoinStarts(before, middle + after);
    assert tag == middle + after;
  }

  lemma JoinStarts(a: string, b: string)
    ensures a != [] ==> (a + b)[0] == a[0]
  {
  }

  lemma StartsLike(pattern: string, s: string)
    ensures pattern != [] && pattern <= s ==> s[0] == pattern[0]
  {
  }

  lemma NamedLonger(tag: string, after: string, name: string)
    requires AllSpace(after) && tag != []
    ensures Named(tag, name) <==> Named(tag + after, name)
  {
    hide IsSpace;
    var all := tag + after;
    if Named(tag, name) {
      assert name <= all;
      if |name| == |tag| < |all| {
        assert all[|name|] == after[0];
      }
    }
    if Named(all, name) {
      NameStops(tag, after, name);
      assert name == all[..|name|] == tag[..|name|];
    }
  }

  lemma NameStops(tag: string, after: string, name: string)
    requires AllSpace(after) && NoSpace(name) && name <= tag + after
    ensures |name| <= |tag|
  {
    hide IsSpace;
    FirstBehind(tag, after, name);
  }

  lemma FirstBehind(tag: string, after: string, name: string)
    requires name <= tag + after
    ensures |name| > |tag| ==> after != [] && name[|tag|] == after[0]
  {
  }

  lemma SelfClosingIs(inner: string, name: string)
    ensures TagPiece(inner) == Ok(OpenTag(name, true)) <==> SpellsTag(OpenTag(name, true), inner)
  {
    hide Trim, NameOf, IsSpace, Named;
    if TagPiece(inner) == Ok(OpenTag(name, true)) {
      var left, right := TrimFrom(inner);
      var all := Trim(inner);
      var tag := all[..|all| - 1];
      assert all == tag + "/";
      SlashAlone(all);
      assert tag[0] == all[0];
      NameIs(Trim(tag), name);
      NamedTrimmed(tag, name);
      assert Surrounded(inner, left, tag + "/", right) && Named(tag, name);
    }
    if SpellsTag(OpenTag(name, true), inner) {
      var left, tag, right :| Surrounded(inner, left, tag + "/", right) && Named(tag, name);
      TrimTo(inner, left, tag + "/", right);
      NameStarts(tag, name);
      assert (tag + "/")[0] == tag[0] && (tag + "/")[..|tag|] == tag;
      NamedTrimmed(tag, name);
      NameIs(Trim(tag), name);
    }
  }

  lemma SlashAlone(all: string)
    requires all != [] && all[0] != '/' && all[|all| - 1] == '/'
    ensures |all| > 1
  {
  }

  lemma TagIs(inner: string, p: Piece)
    ensures TagPiece(inner) == Ok(p) <==> SpellsTag(p, inner)
  {
    hide Trim, NameOf, SpellsTag;
    match p
    case CloseTag(name) => CloseIs(inner, name);
    case OpenTag(name, selfClosing) =>
      if selfClosing {
        SelfClosingIs(inner, name);
      } else {
        OpenIs(inner, name);
      }
    case _ => NoTagSpelling(p, inner);
  }

  lemma NoTagSpelling(p: Piece, inner: string)
    requires !p.OpenTag? && !p.CloseTag?
    ensures !SpellsTag(p, inner) && TagPiece(inner) != Ok(p)
  {
  }

  // ---------------------------------------------------------------- whole pieces

  /** The piece a string is, if it is one. */
  ghost predicate Whole(p: Piece, s: string) {
    s != [] && Head(s) == Ok(Cut(p, |s|))
  }

  lemma TextWhole(p: Piece, s: string)
    requires s != [] && s[0] != '<'
    ensures Whole(p, s) <==> Spells(p, s)
  {
    hide Find, TagEnd, TagPiece, EndsFirst, SpellsTag, ClosedTag;
    TextIs(s);
    if p.Text? {
      assert s[..|s|] == s;
    } else {
      StartsLike("<!--", s);
      StartsLike("<?", s);
    }
  }

  lemma CommentWhole(p: Piece, s: string)
    requires "<!--" <= s
    ensures Whole(p, s) <==> Spells(p, s)
  {
    hide Find, TagEnd, TagPiece, EndsFirst, SpellsTag, ClosedTag;
    assert s[0] == '<' && s[1] == '!' && s[2] == '-';
    if |s| >= 7 {
      FindsEnd(s[4..], "-->", |s| - 7);
    } else {
      TooShort(s[4..], "-->");
    }
  }

  lemma TooShort(s: string, close: string)
    requires |s| < |close|
    ensures !EndsFirst(s, close)
  {
  }

  lemma CdataWhole(p: Piece, s: string)
    requires "<![CDATA[" <= s
    ensures Whole(p, s) <==> Spells(p, s)
  {
    hide Find, TagEnd, TagPiece, EndsFirst, SpellsTag, ClosedTag;
    assert s[0] == '<' && s[1] == '!' && s[2] == '[';
    if |s| >= 12 {
      var text := s[9..|s| - 3];
      FindsEnd(s[9..], "]]>", |s| - 12);
      CdataParts(s, text);
      if p.Cdata? && Spells(p, s) {
        CdataTextIs(s, p.text);
      }
    } else {
      if p.Cdata? {
        CdataStarts(p.text);
      }
    }
  }

  lemma CdataStarts(text: string)
    ensures var s := "<![CDATA[" + text + "]]>"; |s| >= 12 && "<![CDATA[" <= s
  {
  }

  lemma CdataTextIs(s: string, text: string)
    requires s == "<![CDATA[" + text + "]]>"
    ensures s[9..|s| - 3] == text && s[9..] == text + "]]>"
  {
    assert s == "<![CDATA[" + (text + "]]>");
  }

  lemma CdataParts(s: string, text: string)
    requires "<![CDATA[" <= s && |s| >= 12 && text == s[9..|s| - 3]
    ensures EndsFirst(s[9..], "]]>") ==> s == "<![CDATA[" + text + "]]>" && s[9..] == text + "]]>"
  {
    if EndsFirst(s[9..], "]]>") {
      OccursThree(s[9..], ']', ']', '>', |s| - 12);
      assert s[9..] == text + "]]>";
      assert s == s[..9] + s[9..];
    }
  }

  lemma InstructionWhole(p: Piece, s: string)
    requires "<?" <= s
    ensures Whole(p, s) <==> Spells(p, s)
  {
    hide Find, TagEnd, TagPiece, EndsFirst, SpellsTag, ClosedTag;
    assert s[0] == '<' && s[1] == '?';
    assert !("<!--" <= s) && !("<![CDATA[" <= s);
    if |s| >= 4 {
      FindsEnd(s[2..], "?>", |s| - 4);
    } else {
      TooShort(s[2..], "?>");
    }
  }

  lemma UnsupportedWhole(p: Piece, s: string)
    requires s != [] && s[0] == '<' && "<!" <= s && !("<!--" <= s) && !("<![CDATA[" <= s)
    ensures !Whole(p, s) && !Spells(p, s)
  {
    hide Find, TagEnd, TagPiece, EndsFirst, SpellsTag, ClosedTag;
    assert s[1] == '!';
    if p.Cdata? {
      CdataStarts(p.text);
    }
  }

  lemma TagWhole(p: Piece, s: string)
    requires s != [] && s[0] == '<' && !("<!" <= s) && !("<?" <= s)
    ensures Whole(p, s) <==> Spells(p, s)
  {
    hide Find, TagEnd, TagPiece, EndsFirst, SpellsTag, ClosedTag;
    PrefixTwo(s, '<', '!');
    PrefixTwo(s, '<', '?');
    NoBang(p, s);
    if |s| >= 2 {
      var inner := s[1..|s| - 1];
      TagEndIs(s[1..], None, |s| - 2);
      ClosedIs(s);
      TagIs(inner, p);
      if !p.OpenTag? && !p.CloseTag? {
        NoTagSpelling(p, inner);
      }
    }
  }

  lemma NoBang(p: Piece, s: string)
    requires !("<!" <= s) && !("<?" <= s)
    ensures p.Comment? || p.Cdata? || p.Instruction? ==> !Spells(p, s)
  {
  }

  lemma ClosedIs(s: string)
    requires |s| >= 2
    ensures EndsTagAt(s[1..], None, |s| - 2) <==> s[|s| - 1] == '>' && ClosedTag(s[1..|s| - 1])
  {
    hide OpenQuote;
    var t, inner := s[1..], s[1..|s| - 1];
    assert t[..|s| - 2] == inner;
    forall i: nat | i < |inner| ensures t[..i] == inner[..i] && t[i] == inner[i] {
    }
  }

  /** A string is cut as one piece exactly when it is a spelling of that piece. */
  lemma WholeIsSpelled(p: Piece, s: string)
    requires s != []
    ensures Head(s) == Ok(Cut(p, |s|)) <==> Spells(p, s)
  {
    hide Head, Spells;
    if s[0] != '<' {
      TextWhole(p, s);
    } else if "<!--" <= s {
      CommentWhole(p, s);
    } else if "<![CDATA[" <= s {
      CdataWhole(p, s);
    } else if "<?" <= s {
      InstructionWhole(p, s);
    } else if "<!" <= s {
      UnsupportedWhole(p, s);
    } else {
      TagWhole(p, s);
    }
  }

  /** Text goes on to the next markup or to the end. */
  predicate Maximal(p: Piece, xml: string, n: nat)
    requires n <= |xml|
  {
    p.Text? ==> n == |xml| || xml[n] == '<'
  }

  /** A document is cut after `n` characters into a piece exactly when these spell that piece, and text goes as far as it
      can. */
  lemma CutsExactly(xml: string, p: Piece, n: nat)
    requires xml != [] && 0 < n <= |xml|
    ensures Head(xml) == Ok(Cut(p, n)) <==> Spells(p, xml[..n]) && Maximal(p, xml, n)
  {
    hide Head, Spells;
    var s := xml[..n];
    WholeIsSpelled(p, s);
    if Head(xml) == Ok(Cut(p, n)) {
      HeadIsMaximal(xml);
      HeadLocal(xml, s);
    }
    if Spells(p, s) && Maximal(p, xml, n) {
      HeadLocal(s, xml);
    }
  }

  lemma HeadIsMaximal(xml: string)
    requires xml != [] && Head(xml).Ok?
    ensures Maximal(Head(xml).value.piece, xml, Head(xml).value.length)
  {
    hide Find, TagEnd, TagPiece;
    if xml[0] != '<' {
      TextIs(xml);
    } else {
      NoTextTag(xml);
    }
  }

  lemma NoTextTag(xml: string)
    requires xml != [] && Head(xml).Ok? && xml[0] == '<'
    ensures !Head(xml).value.piece.Text?
  {
    hide Find, TagEnd, Trim, NameOf;
  }

  // ---------------------------------------------------------------- documents

  /** A document spelled by a list of pieces, one after the other. */
  ghost predicate SpelledBy(xml: string, ps: seq<Piece>)
    decreases |ps|
  {
    if ps == [] then xml == []
    else exists n :: 0 < n <= |xml| && Spells(ps[0], xml[..n]) && Maximal(ps[0], xml, n) && SpelledBy(xml[n..], ps[1..])
  }

  // ---------------------------------------------------------------- what is no piece

  predicate Occurs(s: string, pattern: string) {
    exists k :: 0 <= k <= |s| && OccursAt(s, pattern, k)
  }

  lemma FindsNone(s: string, pattern: string)
    ensures Find(s, pattern).None? <==> !Occurs(s, pattern)
  {
    hide OccursAt, Find;
    FindSound(s, pattern);
  }

  /** A `>` outside quotes. */
  predicate HasTagEnd(s: string) {
    exists k :: 0 <= k < |s| && EndsTagAt(s, None, k)
  }

  lemma TagEndsSomewhere(s: string)
    ensures TagEnd(s, None).Some? <==> HasTagEnd(s)
  {
    hide EndsTagAt;
    if TagEnd(s, None).Some? {
      TagEndIs(s, None, TagEnd(s, None).value);
    }
    if HasTagEnd(s) {
      var k :| 0 <= k < |s| && EndsTagAt(s, None, k);
      TagEndIs(s, None, k);
    }
  }

  /** Where no piece can be cut, and why: the first characters decide, then whether the end is there, then the tag. */
  lemma FailsExactly(xml: string)
    requires xml != []
    ensures var head := Head(xml);
            var comment, cdata, instruction := "<!--" <= xml, "<![CDATA[" <= xml, "<?" <= xml;
            var tag := xml[0] == '<' && !("<!" <= xml) && !instruction;
            && (head == Err(UnterminatedComment) <==> comment && !Occurs(xml[4..], "-->"))
            && (head == Err(UnterminatedCdata) <==> cdata && !Occurs(xml[9..], "]]>"))
            && (head == Err(UnsupportedMarkup) <==> "<!" <= xml && !comment && !cdata)
            && (head == Err(UnterminatedMarkup)
                <==> (instruction && !Occurs(xml[2..], "?>")) || (tag && !HasTagEnd(xml[1..])))
            && (head.Err? && head.error !in {UnterminatedComment, UnterminatedCdata, UnsupportedMarkup,
                                             UnterminatedMarkup}
                ==> tag && HasTagEnd(xml[1..]) && head.error in {MalformedMarkup, MalformedNesting})
  {
    hide Find, TagEnd, Occurs, HasTagEnd, Trim, NameOf;
    StartsLike("<!--", xml);
    StartsLike("<![CDATA[", xml);
    StartsLike("<!", xml);
    StartsLike("<?", xml);
    Distinct(xml);
    if "<!--" <= xml {
      FindsNone(xml[4..], "-->");
    } else if "<![CDATA[" <= xml {
      FindsNone(xml[9..], "]]>");
    } else if "<?" <= xml {
      FindsNone(xml[2..], "?>");
    } else {
      TagEndsSomewhere(xml[1..]);
    }
  }

  lemma Distinct(xml: string)
    ensures "<!--" <= xml ==> "<!" <= xml && !("<![CDATA[" <= xml) && !("<?" <= xml)
    ensures "<![CDATA[" <= xml ==> "<!" <= xml && !("<?" <= xml)
    ensures "<?" <= xml ==> !("<!" <= xml)
  {
    if "<!--" <= xml {
      assert xml[1] == '!' && xml[2] == '-';
      assert xml[..2] == "<!";
    } else if "<![CDATA[" <= xml {
      assert xml[1] == '!' && xml[2] == '[';
      assert xml[..2] == "<!";
    } else if "<?" <= xml {
      assert xml[1] == '?';
    }
  }
}
