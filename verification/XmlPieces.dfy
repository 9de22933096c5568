/** What a piece of a document depends on: its own characters, and for text what ends it. */
module XmlPieces {
  import opened Protocol
  import opened XmlConfig

  predicate OccursAt(s: string, pattern: string, k: nat) {
    k + |pattern| <= |s| && forall j :: 0 <= j < |pattern| ==> s[k + j] == pattern[j]
  }

  lemma OccursIs(s: string, pattern: string, k: nat)
    requires k <= |s|
    ensures pattern <= s[k..] <==> OccursAt(s, pattern, k)
  {
    if OccursAt(s, pattern, k) {
      assert s[k..][..|pattern|] == pattern;
    }
    if pattern <= s[k..] {
      assert forall j :: 0 <= j < |pattern| ==> s[k + j] == s[k..][j] == pattern[j];
    }
  }

  lemma FindSound(s: string, pattern: string)
    ensures var at := Find(s, pattern);
            && (at.Some? ==> at.value <= |s| && OccursAt(s, pattern, at.value))
            && (forall i: nat :: (at.Some? ==> i < at.value) && i <= |s| ==> !OccursAt(s, pattern, i))
  {
    hide OccursAt;
    var at := Find(s, pattern);
    forall i: nat | (at.Some? ==> i < at.value) && i <= |s| ensures !OccursAt(s, pattern, i) {
      OccursIs(s, pattern, i);
    }
    if at.Some? {
      assert s[at.value..][..|pattern|] == s[at.value..at.value + |pattern|];
      OccursIs(s, pattern, at.value);
    }
  }

  lemma OccursInside(s: string, pattern: string, k: nat)
    requires OccursAt(s, pattern, k)
    ensures k <= |s|
  {
  }

  lemma FindIs(s: string, pattern: string, k: nat)
    ensures Find(s, pattern) == Some(k) <==> OccursAt(s, pattern, k) && forall i :: 0 <= i < k ==> !OccursAt(s, pattern, i)
    ensures Find(s, pattern).None? ==> forall i :: 0 <= i ==> !OccursAt(s, pattern, i)
  {
    hide OccursAt, Find;
    FindSound(s, pattern);
    forall i: nat ensures OccursAt(s, pattern, i) ==> i <= |s| {
      if OccursAt(s, pattern, i) {
        OccursInside(s, pattern, i);
      }
    }
  }

  lemma OccursOne(s: string, c: char, k: nat)
    ensures OccursAt(s, [c], k) <==> k < |s| && s[k] == c
  {
    assert [c][0] == c;
    if OccursAt(s, [c], k) {
      assert s[k + 0] == [c][0];
    }
  }

  lemma OccursThree(s: string, a: char, b: char, c: char, k: nat)
    ensures OccursAt(s, [a, b, c], k) <==> k + 3 <= |s| && s[k] == a && s[k + 1] == b && s[k + 2] == c
  {
    var p := [a, b, c];
    if OccursAt(s, p, k) {
      assert s[k + 0] == p[0] && s[k + 1] == p[1] && s[k + 2] == p[2];
    }
  }

  lemma FindLocal(s: string, s': string, pattern: string)
    requires Find(s, pattern).Some?
    requires var m := Find(s, pattern).value + |pattern|; m <= |s'| && forall i :: 0 <= i < m ==> s[i] == s'[i]
    ensures Find(s', pattern) == Find(s, pattern)
  {
    hide Find;
    var k := Find(s, pattern).value;
    FindIs(s, pattern, k);
    FindIs(s', pattern, k);
    forall i | 0 <= i < k ensures !OccursAt(s', pattern, i) {
      assert !OccursAt(s, pattern, i);
    }
  }

  lemma {:induction false} TagEndLocal(s: string, s': string, quote: Option<char>)
    requires TagEnd(s, quote).Some?
    requires var m := TagEnd(s, quote).value + 1; m <= |s'| && forall i :: 0 <= i < m ==> s[i] == s'[i]
    ensures TagEnd(s', quote) == TagEnd(s, quote)
  {
    if !(quote.None? && s[0] == '>') {
      TagEndLocal(s[1..], s'[1..], QuoteAfter(quote, s[0]));
    }
  }

  predicate Agree(s: string, s': string, n: nat) {
    n <= |s| && n <= |s'| && forall i :: 0 <= i < n ==> s[i] == s'[i]
  }

  lemma PrefixLocal(s: string, s': string, n: nat, pattern: string)
    requires Agree(s, s', n) && |pattern| <= n
    ensures pattern <= s <==> pattern <= s'
  {
    assert s[..|pattern|] == s'[..|pattern|];
  }

  lemma PrefixTwo(s: string, a: char, b: char)
    ensures [a, b] <= s <==> |s| >= 2 && s[0] == a && s[1] == b
  {
    if |s| >= 2 && s[0] == a && s[1] == b {
      assert s[..2] == [a, b];
    }
  }

  /** The first piece is decided by its own characters, text also by what ends it. */
  lemma HeadLocal(s: string, s': string)
    requires s != [] && Head(s).Ok?
    requires var cut := Head(s).value;
             Agree(s, s', cut.length) && (cut.piece.Text? ==> cut.length == |s'| || s'[cut.length] == '<')
    ensures s' != [] && Head(s') == Head(s)
  {
    hide Head;
    if s[0] != '<' {
      TextIs(s);
      TextLocal(s, s');
    } else if "<!--" <= s {
      CommentLocal(s, s');
    } else if "<![CDATA[" <= s {
      CdataLocal(s, s');
    } else if "<?" <= s {
      InstructionLocal(s, s');
    } else {
      NotBang(s);
      TagLocal(s, s');
    }
  }

  lemma NotBang(s: string)
    requires s != [] && Head(s).Ok? && s[0] == '<' && !("<!--" <= s) && !("<![CDATA[" <= s) && !("<?" <= s)
    ensures !("<!" <= s)
  {
  }

  lemma CommentLocal(s: string, s': string)
    requires "<!--" <= s && Head(s).Ok? && Agree(s, s', Head(s).value.length)
    ensures s' != [] && Head(s') == Head(s)
  {
    hide Find, TagEnd, TagPiece;
    PrefixLocal(s, s', Head(s).value.length, "<!--");
    FindLocal(s[4..], s'[4..], "-->");
  }

  lemma CdataLocal(s: string, s': string)
    requires "<![CDATA[" <= s && Head(s).Ok? && Agree(s, s', Head(s).value.length)
    ensures s' != [] && Head(s') == Head(s)
  {
    hide Find, TagEnd, TagPiece;
    assert s[2] == '[';
    var n := Head(s).value.length;
    PrefixLocal(s, s', n, "<![CDATA[");
    PrefixLocal(s, s', n, "<!--");
    FindLocal(s[9..], s'[9..], "]]>");
    assert s[9..n - 3] == s'[9..n - 3];
  }

  lemma InstructionLocal(s: string, s': string)
    requires "<?" <= s && Head(s).Ok? && Agree(s, s', Head(s).value.length)
    ensures s' != [] && Head(s') == Head(s)
  {
    hide Find, TagEnd, TagPiece;
    assert s[1] == '?';
    PrefixLocal(s, s', Head(s).value.length, "<?");
    assert s'[1] == '?';
    FindLocal(s[2..], s'[2..], "?>");
  }

  lemma TagLocal(s: string, s': string)
    requires s != [] && s[0] == '<' && !("<!" <= s) && !("<?" <= s) && Head(s).Ok? && Agree(s, s', Head(s).value.length)
    ensures s' != [] && Head(s') == Head(s)
  {
    hide Find, TagEnd, TagPiece;
    PrefixTwo(s, '<', '!');
    PrefixTwo(s, '<', '?');
    PrefixTwo(s', '<', '!');
    PrefixTwo(s', '<', '?');
    var n := Head(s).value.length;
    assert s'[0] == s[0] && s'[1] == s[1];
    TagEndLocal(s[1..], s'[1..], None);
    assert s[1..n - 1] == s'[1..n - 1];
  }

  /** Text of `n` characters comes first, be it none. */
  predicate TextUpTo(s: string, n: nat) {
    n <= |s| && (n == |s| || s[n] == '<') && forall i :: 0 <= i < n ==> s[i] != '<'
  }

  /** Where text ends. */
  lemma TextEnds(s: string, n: nat)
    requires TextUpTo(s, n)
    ensures Find(s, "<") == if n == |s| then None else Some(n)
  {
    hide Find;
    forall k: nat ensures OccursAt(s, "<", k) <==> k < |s| && s[k] == '<' {
      OccursOne(s, '<', k);
    }
    FindIs(s, "<", n);
    if Find(s, "<").Some? {
      FindIs(s, "<", Find(s, "<").value);
    }
  }

  lemma TextIs(s: string)
    requires s != [] && s[0] != '<'
    ensures var n := Head(s).value.length;
            Head(s) == Ok(Cut(Text(s[..n]), n)) && 0 < n && TextUpTo(s, n)
  {
    var n := Head(s).value.length;
    FindIs(s, "<", n);
    OccursOne(s, '<', n);
    forall i | 0 <= i < n ensures s[i] != '<' {
      OccursOne(s, '<', i);
    }
  }

  lemma TextLocal(s: string, s': string)
    requires s != [] && s[0] != '<'
    requires var n := Head(s).value.length; Agree(s, s', n) && (n == |s'| || s'[n] == '<')
    ensures s' != [] && Head(s') == Head(s)
  {
    TextIs(s);
    var n := Head(s).value.length;
    TextEnds(s', n);
    assert s'[..n] == s[..n];
  }
}
