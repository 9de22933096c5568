/** What an accepted document is: a properly nested forest in which each calibration tag occurs once. */
module XmlMeaning {
  import opened XmlConfig
  import opened XmlSpelling

  // ---------------------------------------------------------------- pieces first, then the scan

  /** All pieces of a document. */
  function Pieces(xml: string): Result<seq<Piece>>
    decreases |xml|
  {
    if xml == [] then Ok([])
    else
      var cut := Head(xml);
      if cut.Err? then Err(cut.error)
      else
        var rest := Pieces(xml[cut.value.length..]);
        if rest.Err? then rest else Ok([cut.value.piece] + rest.value)
  }

  /** The pieces of a document are those that spell it. */
  lemma {:induction false} PiecesExactly(xml: string, ps: seq<Piece>)
    ensures Pieces(xml) == Ok(ps) <==> SpelledBy(xml, ps)
    decreases |xml|
  {
    hide Head, Spells, Maximal;
    if xml == [] {
      if ps != [] {
        assert !SpelledBy(xml, ps);
      }
    } else if ps != [] {
      if Head(xml).Ok? {
        var cut := Head(xml).value;
        CutsExactly(xml, cut.piece, cut.length);
        PiecesExactly(xml[cut.length..], ps[1..]);
        if Pieces(xml) == Ok(ps) {
          assert ps[1..] == Pieces(xml[cut.length..]).value;
          assert Spells(ps[0], xml[..cut.length]) && Maximal(ps[0], xml, cut.length) && SpelledBy(xml[cut.length..], ps[1..]);
        }
      }
      if SpelledBy(xml, ps) {
        var n :| 0 < n <= |xml| && Spells(ps[0], xml[..n]) && Maximal(ps[0], xml, n) && SpelledBy(xml[n..], ps[1..]);
        CutsExactly(xml, ps[0], n);
        PiecesExactly(xml[n..], ps[1..]);
        assert ps == [ps[0]] + ps[1..];
      }
    }
  }

  function Run(s: Scan, ps: seq<Piece>): (r: Result<Scan>)
    requires s.Valid()
    ensures r.Ok? ==> r.value.Valid()
    decreases ps
  {
    if ps == [] then Ok(s)
    else
      var next := Take(s, ps[0]);
      if next.Err? then next else Run(next.value, ps[1..])
  }

  lemma {:induction false} ScanIsRun(s: Scan, xml: string)
    requires s.Valid()
    ensures Pieces(xml).Ok? ==> ScanAll(s, xml) == Run(s, Pieces(xml).value)
    ensures Pieces(xml).Err? ==> ScanAll(s, xml).Err?
    decreases |xml|
  {
    if xml != [] && Head(xml).Ok? {
      var next := Take(s, Head(xml).value.piece);
      if next.Ok? {
        ScanIsRun(next.value, xml[Head(xml).value.length..]);
      }
    }
  }

  // ---------------------------------------------------------------- forests

  datatype Forest =
    | Nil
    | Leaf(piece: Piece, rest: Forest)
    | Element(name: string, body: Forest, rest: Forest)

  predicate LeafPiece(p: Piece) {
    !p.CloseTag? && (p.OpenTag? ==> p.selfClosing)
  }

  function Flatten(f: Forest): seq<Piece> {
    match f
    case Nil => []
    case Leaf(p, rest) => [p] + Flatten(rest)
    case Element(name, body, rest) => [OpenTag(name, false)] + Flatten(body) + [CloseTag(name)] + Flatten(rest)
  }

  /** How often a required tag occurs, self-closing or not, at any depth. */
  function Occurrences(f: Forest, i: nat): nat
    requires i < |REQUIRED_TAGS|
  {
    match f
    case Nil => 0
    case Leaf(p, rest) => (if p.OpenTag? && p.name == REQUIRED_TAGS[i] then 1 else 0) + Occurrences(rest, i)
    case Element(name, body, rest) =>
      (if name == REQUIRED_TAGS[i] then 1 else 0) + Occurrences(body, i) + Occurrences(rest, i)
  }

  function TextOf(p: Piece): string {
    if p.Text? || p.Cdata? then p.text else ""
  }

  /** The text and character data directly inside an element. */
  function OwnText(body: Forest): string {
    match body
    case Nil => ""
    case Leaf(p, rest) => TextOf(p) + OwnText(rest)
    case Element(_, _, rest) => OwnText(rest)
  }

  /** The text of a required tag's elements, in document order. */
  function FieldText(f: Forest, i: nat): string
    requires i < |REQUIRED_TAGS|
  {
    match f
    case Nil => ""
    case Leaf(_, rest) => FieldText(rest, i)
    case Element(name, body, rest) =>
      (if name == REQUIRED_TAGS[i] then OwnText(body) else FieldText(body, i)) + FieldText(rest, i)
  }

  /** No tags. */
  predicate PlainText(f: Forest) {
    match f
    case Nil => true
    case Leaf(p, rest) => LeafPiece(p) && !p.OpenTag? && PlainText(rest)
    case Element(_, _, _) => false
  }

  /** Required elements hold text only. */
  predicate TextBodies(f: Forest) {
    match f
    case Nil => true
    case Leaf(p, rest) => LeafPiece(p) && TextBodies(rest)
    case Element(name, body, rest) =>
      && (if name in REQUIRED_TAGS then PlainText(body) else TextBodies(body))
      && TextBodies(rest)
  }

  ghost predicate AtMostOnce(f: Forest, seen: seq<bool>)
    requires |seen| == |REQUIRED_TAGS|
  {
    forall i :: 0 <= i < |REQUIRED_TAGS| ==> Occurrences(f, i) + (if seen[i] then 1 else 0) <= 1
  }

  // ---------------------------------------------------------------- the scan of a forest

  function Effect(s: Scan, f: Forest): (s': Scan)
    requires s.Valid()
    ensures s'.Valid() && s'.stack == s.stack
  {
    s.(fields := seq(|REQUIRED_TAGS|, i requires 0 <= i < |REQUIRED_TAGS| => s.fields[i] + FieldText(f, i)),
       seen := seq(|REQUIRED_TAGS|, i requires 0 <= i < |REQUIRED_TAGS| => s.seen[i] || Occurrences(f, i) > 0))
  }

  lemma RunStep(s: Scan, p: Piece, ps: seq<Piece>)
    requires s.Valid()
    ensures Run(s, [p] + ps) == (var next := Take(s, p); if next.Err? then next else Run(next.value, ps))
  {
    assert ([p] + ps)[1..] == ps;
  }

  /** Inside a required element text is collected. */
  lemma {:induction false} RunText(s: Scan, body: Forest, rest: seq<Piece>)
    requires s.Valid() && s.Field() >= 0 && PlainText(body)
    ensures Run(s, Flatten(body) + rest) == Run(AppendText(s, OwnText(body)), rest)
    decreases body
  {
    match body
    case Nil =>
      assert Flatten(body) + rest == rest;
      assert s.fields[s.Field()] + "" == s.fields[s.Field()];
      assert AppendText(s, "").fields == s.fields;
    case Leaf(p, more) =>
      assert Flatten(body) + rest == [p] + (Flatten(more) + rest);
      RunStep(s, p, Flatten(more) + rest);
      var next := Take(s, p).value;
      assert s.fields[s.Field()] + "" == s.fields[s.Field()];
      assert next == AppendText(s, TextOf(p));
      RunText(next, more, rest);
      AppendTwice(s, TextOf(p), OwnText(more));
  }

  lemma AppendTwice(s: Scan, a: string, b: string)
    requires s.Valid()
    ensures AppendText(AppendText(s, a), b) == AppendText(s, a + b)
  {
    if s.Field() >= 0 {
      assert s.fields[s.Field()] + a + b == s.fields[s.Field()] + (a + b);
    }
  }

  /** Outside one, a forest adds its fields and marks its tags. */
  lemma {:induction false} RunForest(s: Scan, f: Forest, rest: seq<Piece>)
    requires s.Valid() && s.Field() < 0 && TextBodies(f) && AtMostOnce(f, s.seen)
    ensures Run(s, Flatten(f) + rest) == Run(Effect(s, f), rest)
    decreases f
  {
    hide Run, Take, Effect, AppendText, Occurrences, AtMostOnce, FieldText, OwnText, Scan.Field;
    match f
    case Nil =>
      assert Flatten(f) + rest == rest;
      EffectNil(s);
    case Leaf(p, more) =>
      assert Flatten(f) + rest == [p] + (Flatten(more) + rest);
      RunStep(s, p, Flatten(more) + rest);
      TakeLeaf(s, p, more);
      RunForest(Take(s, p).value, more, rest);
    case Element(name, body, more) =>
      var tail := [CloseTag(name)] + (Flatten(more) + rest);
      assert Flatten(f) + rest == [OpenTag(name, false)] + (Flatten(body) + tail);
      RunStep(s, OpenTag(name, false), Flatten(body) + tail);
      TakeOpen(s, name, body, more);
      var inside := Take(s, OpenTag(name, false)).value;
      var after := Inside(s, name, body);
      if name in REQUIRED_TAGS {
        RunText(inside, body, tail);
      } else {
        RunForest(inside, body, tail);
      }
      RunStep(after, CloseTag(name), Flatten(more) + rest);
      CloseElement(s, name, body, more);
      RunForest(Take(after, CloseTag(name)).value, more, rest);
  }

  /** The scan just before an element's closing tag. */
  function Inside(s: Scan, name: string, body: Forest): (s': Scan)
    requires s.Valid() && Take(s, OpenTag(name, false)).Ok?
    ensures s'.Valid()
  {
    var inside := Take(s, OpenTag(name, false)).value;
    if name in REQUIRED_TAGS then AppendText(inside, OwnText(body)) else Effect(inside, body)
  }

  lemma EffectNil(s: Scan)
    requires s.Valid()
    ensures Effect(s, Nil) == s
  {
    assert forall i :: 0 <= i < |REQUIRED_TAGS| ==> s.fields[i] + "" == s.fields[i];
    assert Effect(s, Nil).fields == s.fields;
    assert Effect(s, Nil).seen == s.seen;
  }

  /** Outside the required elements a leaf at most marks its tag. */
  lemma LeafMarks(s: Scan, p: Piece)
    requires s.Valid() && s.Field() < 0 && LeafPiece(p)
    requires p.OpenTag? && TagIndex(p.name) >= 0 ==> !s.seen[TagIndex(p.name)]
    ensures Take(s, p)
            == Ok(if p.OpenTag? && TagIndex(p.name) >= 0 then s.(seen := s.seen[TagIndex(p.name) := true]) else s)
  {
    hide TagIndex, Scan.Field;
  }

  lemma LeafOccurs(p: Piece, more: Forest, i: nat)
    requires LeafPiece(p) && i < |REQUIRED_TAGS|
    ensures Occurrences(Leaf(p, more), i) == Occurrences(more, i) + (if p.OpenTag? && TagIndex(p.name) == i then 1 else 0)
    ensures FieldText(Leaf(p, more), i) == FieldText(more, i)
  {
    TagsDiffer(i);
  }

  lemma TakeLeaf(s: Scan, p: Piece, more: Forest)
    requires s.Valid() && s.Field() < 0 && LeafPiece(p) && AtMostOnce(Leaf(p, more), s.seen)
    ensures Take(s, p).Ok?
    ensures var s' := Take(s, p).value;
            s'.Field() < 0 && AtMostOnce(more, s'.seen) && Effect(s', more) == Effect(s, Leaf(p, more))
  {
    hide Take, TagIndex, Occurrences, FieldText;
    var f := Leaf(p, more);
    if p.OpenTag? && TagIndex(p.name) >= 0 {
      LeafOccurs(p, more, TagIndex(p.name));
      assert Occurrences(f, TagIndex(p.name)) + (if s.seen[TagIndex(p.name)] then 1 else 0) <= 1;
    }
    LeafMarks(s, p);
    var s' := Take(s, p).value;
    forall i | 0 <= i < |REQUIRED_TAGS|
      ensures Occurrences(more, i) + (if s'.seen[i] then 1 else 0) <= 1
      ensures Effect(s', more).fields[i] == Effect(s, f).fields[i] && Effect(s', more).seen[i] == Effect(s, f).seen[i]
    {
      assert Occurrences(f, i) + (if s.seen[i] then 1 else 0) <= 1;
      LeafOccurs(p, more, i);
    }
    assert Effect(s', more).fields == Effect(s, f).fields;
    assert Effect(s', more).seen == Effect(s, f).seen;
  }

  lemma TagsDiffer(i: nat)
    requires i < |REQUIRED_TAGS|
    ensures TagIndex(REQUIRED_TAGS[i]) == i
  {
  }

  lemma TakeOpen(s: Scan, name: string, body: Forest, more: Forest)
    requires s.Valid() && s.Field() < 0 && AtMostOnce(Element(name, body, more), s.seen)
    ensures Take(s, OpenTag(name, false)).Ok?
    ensures var inside := Take(s, OpenTag(name, false)).value;
            && (inside.Field() >= 0 <==> name in REQUIRED_TAGS)
            && AtMostOnce(body, inside.seen)
  {
    var f := Element(name, body, more);
    if TagIndex(name) >= 0 {
      assert Occurrences(f, TagIndex(name)) >= 1;
    }
    var inside := Take(s, OpenTag(name, false)).value;
    forall i | 0 <= i < |REQUIRED_TAGS|
      ensures Occurrences(body, i) + (if inside.seen[i] then 1 else 0) <= 1
    {
      assert Occurrences(f, i) + (if s.seen[i] then 1 else 0) <= 1;
      TagsDiffer(i);
    }
  }

  /** Two scans on which two forests have the same effect. */
  ghost predicate Matches(s': Scan, more: Forest, s: Scan, f: Forest)
    requires s.Valid() && s'.Valid()
  {
    s'.stack == s.stack && forall i :: 0 <= i < |REQUIRED_TAGS| ==> MatchesAt(s', more, s, f, i)
  }

  predicate MatchesAt(s': Scan, more: Forest, s: Scan, f: Forest, i: nat)
    requires s.Valid() && s'.Valid() && i < |REQUIRED_TAGS|
  {
    && s'.fields[i] + FieldText(more, i) == s.fields[i] + FieldText(f, i)
    && (s'.seen[i] || Occurrences(more, i) > 0 <==> s.seen[i] || Occurrences(f, i) > 0)
    && Occurrences(more, i) + (if s'.seen[i] then 1 else 0) <= 1
  }

  lemma SameEffect(s': Scan, more: Forest, s: Scan, f: Forest)
    requires s.Valid() && s'.Valid() && Matches(s', more, s, f)
    ensures Effect(s', more) == Effect(s, f) && AtMostOnce(more, s'.seen)
  {
    hide FieldText, Occurrences;
    forall i: nat | i < |REQUIRED_TAGS|
      ensures Effect(s', more).fields[i] == Effect(s, f).fields[i] && Effect(s', more).seen[i] == Effect(s, f).seen[i]
      ensures Occurrences(more, i) + (if s'.seen[i] then 1 else 0) <= 1
    {
      assert MatchesAt(s', more, s, f, i);
    }
    assert Effect(s', more).fields == Effect(s, f).fields;
    assert Effect(s', more).seen == Effect(s, f).seen;
  }

  lemma TakeClose(after: Scan, name: string, stack: seq<string>)
    requires after.Valid() && after.stack == stack + [name]
    ensures Take(after, CloseTag(name)) == Ok(after.(stack := stack))
  {
    assert (stack + [name])[..|stack|] == stack;
  }

  lemma OnceAt(f: Forest, seen: seq<bool>, i: nat)
    requires |seen| == |REQUIRED_TAGS| && AtMostOnce(f, seen) && i < |REQUIRED_TAGS|
    ensures Occurrences(f, i) + (if seen[i] then 1 else 0) <= 1
  {
    hide Occurrences;
  }

  /** What an element leaves behind when it is closed. */
  lemma CloseElement(s: Scan, name: string, body: Forest, more: Forest)
    requires s.Valid() && s.Field() < 0 && TextBodies(Element(name, body, more))
    requires AtMostOnce(Element(name, body, more), s.seen) && Take(s, OpenTag(name, false)).Ok?
    ensures Take(Inside(s, name, body), CloseTag(name)).Ok?
    ensures var s' := Take(Inside(s, name, body), CloseTag(name)).value;
            s'.Field() < 0 && AtMostOnce(more, s'.seen) && Effect(s', more) == Effect(s, Element(name, body, more))
  {
    hide Inside, Effect, MatchesAt, Occurrences, AtMostOnce, TextBodies, Take;
    var f, after := Element(name, body, more), Inside(s, name, body);
    var s' := after.(stack := s.stack);
    forall i: nat | i < |REQUIRED_TAGS|
      ensures MatchesAt(s', more, s, f, i)
    {
      OnceAt(f, s.seen, i);
      CloseField(s, name, body, more, i);
    }
    OnceAt(f, s.seen, 0);
    CloseField(s, name, body, more, 0);
    TakeClose(after, name, s.stack);
    SameEffect(s', more, s, f);
  }

  lemma CloseField(s: Scan, name: string, body: Forest, more: Forest, i: nat)
    requires s.Valid() && s.Field() < 0 && TextBodies(Element(name, body, more)) && i < |REQUIRED_TAGS|
    requires Take(s, OpenTag(name, false)).Ok?
    requires Occurrences(Element(name, body, more), i) + (if s.seen[i] then 1 else 0) <= 1
    ensures var after := Inside(s, name, body);
            after.stack == s.stack + [name] && MatchesAt(after.(stack := s.stack), more, s, Element(name, body, more), i)
  {
    hide AtMostOnce, Flatten, Inside;
    TagsDiffer(i);
    InsideIs(s, name, body, i);
    if name in REQUIRED_TAGS {
      PlainTextHasNoTags(body, i);
      assert s.fields[i] + ("" + FieldText(more, i)) == s.fields[i] + FieldText(more, i);
      Regroup(s.fields[i], OwnText(body), FieldText(more, i));
    } else {
      Regroup(s.fields[i], FieldText(body, i), FieldText(more, i));
    }
  }

  lemma InsideIs(s: Scan, name: string, body: Forest, i: nat)
    requires s.Valid() && s.Field() < 0 && i < |REQUIRED_TAGS| && Take(s, OpenTag(name, false)).Ok?
    ensures var after := Inside(s, name, body);
            && after.stack == s.stack + [name]
            && (name in REQUIRED_TAGS && name == REQUIRED_TAGS[i] ==>
                  after.fields[i] == s.fields[i] + OwnText(body) && after.seen[i])
            && (name in REQUIRED_TAGS && name != REQUIRED_TAGS[i] ==>
                  after.fields[i] == s.fields[i] && after.seen[i] == s.seen[i])
            && (name !in REQUIRED_TAGS ==> after.fields[i] == s.fields[i] + FieldText(body, i)
                                           && (after.seen[i] <==> s.seen[i] || Occurrences(body, i) > 0))
  {
    hide FieldText, Occurrences, OwnText, TagIndex;
    TagsDiffer(i);
  }

  lemma Regroup(a: string, b: string, c: string)
    ensures (a + b) + c == a + (b + c)
  {
  }

  lemma {:induction false} PlainTextHasNoTags(f: Forest, i: nat)
    requires PlainText(f) && i < |REQUIRED_TAGS|
    ensures Occurrences(f, i) == 0 && FieldText(f, i) == ""
  {
    match f
    case Nil =>
    case Leaf(_, rest) => PlainTextHasNoTags(rest, i);
  }

  // ---------------------------------------------------------------- a successful scan saw a forest

  /** Where a forest ends: at the end of the document, or at the closing tag of the element it is in. */
  predicate EndsForest(s: Scan, rest: seq<Piece>) {
    if s.stack == [] then rest == [] else rest != [] && rest[0] == CloseTag(s.stack[|s.stack| - 1])
  }

  predicate Succeeds(s: Scan, ps: seq<Piece>)
    requires s.Valid()
  {
    Run(s, ps).Ok? && Run(s, ps).value.stack == []
  }

  lemma SucceedsStep(s: Scan, ps: seq<Piece>)
    requires s.Valid() && Succeeds(s, ps)
    ensures ps == [] ==> s.stack == []
    ensures ps != [] ==> Take(s, ps[0]).Ok? && Succeeds(Take(s, ps[0]).value, ps[1..])
    ensures ps != [] && ps[0].CloseTag? ==> EndsForest(s, ps)
    ensures ps != [] && ps[0].OpenTag? ==> s.Field() < 0
  {
  }

  lemma {:induction false} ParseText(s: Scan, ps: seq<Piece>) returns (body: Forest, rest: seq<Piece>)
    requires s.Valid() && s.Field() >= 0 && Succeeds(s, ps)
    ensures ps == Flatten(body) + rest && PlainText(body) && EndsForest(s, rest)
    decreases |ps|
  {
    hide Run, OpenElement;
    SucceedsStep(s, ps);
    if ps[0].CloseTag? {
      body, rest := Nil, ps;
    } else {
      var more;
      more, rest := ParseText(Take(s, ps[0]).value, ps[1..]);
      body := Leaf(ps[0], more);
      assert ps == [ps[0]] + ps[1..];
    }
  }

  lemma {:induction false} ParseForest(s: Scan, ps: seq<Piece>) returns (f: Forest, rest: seq<Piece>)
    requires s.Valid() && s.Field() < 0 && Succeeds(s, ps)
    ensures ps == Flatten(f) + rest && TextBodies(f) && AtMostOnce(f, s.seen) && EndsForest(s, rest)
    decreases |ps|
  {
    hide Run, Take, Effect, Inside, AppendText, Occurrences, AtMostOnce, Scan.Field, EndsForest, TextBodies, PlainText;
    SucceedsStep(s, ps);
    if ps == [] {
      f, rest := Nil, [];
      EmptyForest(s, ps);
    } else if ps[0].CloseTag? {
      f, rest := Nil, ps;
      EmptyForest(s, ps);
    } else if LeafPiece(ps[0]) {
      var more;
      LeafKeeps(s, ps[0]);
      more, rest := ParseForest(Take(s, ps[0]).value, ps[1..]);
      f := Leaf(ps[0], more);
      LeafForest(s, ps[0], more, rest);
      assert ps == [ps[0]] + ps[1..];
    } else {
      f, rest := ParseElement(s, ps);
    }
  }

  lemma EmptyForest(s: Scan, ps: seq<Piece>)
    requires s.Valid() && (ps == [] ==> s.stack == [])
    ensures ps == Flatten(Nil) + ps && TextBodies(Nil) && AtMostOnce(Nil, s.seen)
    ensures ps == [] ==> EndsForest(s, ps)
  {
  }

  lemma LeafKeeps(s: Scan, p: Piece)
    requires s.Valid() && s.Field() < 0 && LeafPiece(p) && Take(s, p).Ok?
    ensures Take(s, p).value.Field() < 0 && Take(s, p).value.stack == s.stack
  {
  }

  lemma LeafForest(s: Scan, p: Piece, more: Forest, rest: seq<Piece>)
    requires s.Valid() && s.Field() < 0 && LeafPiece(p) && Take(s, p).Ok?
    requires TextBodies(more) && AtMostOnce(more, Take(s, p).value.seen) && EndsForest(Take(s, p).value, rest)
    ensures TextBodies(Leaf(p, more)) && AtMostOnce(Leaf(p, more), s.seen) && EndsForest(s, rest)
  {
    forall i: nat | i < |REQUIRED_TAGS| ensures Occurrences(Leaf(p, more), i) + (if s.seen[i] then 1 else 0) <= 1 {
      assert Occurrences(more, i) + (if Take(s, p).value.seen[i] then 1 else 0) <= 1;
      TagsDiffer(i);
    }
  }

  lemma {:induction false} ParseElement(s: Scan, ps: seq<Piece>) returns (f: Forest, rest: seq<Piece>)
    requires s.Valid() && s.Field() < 0 && Succeeds(s, ps)
    requires ps != [] && ps[0].OpenTag? && !ps[0].selfClosing
    ensures ps == Flatten(f) + rest && TextBodies(f) && AtMostOnce(f, s.seen) && EndsForest(s, rest)
    decreases |ps|, 0
  {
    hide Flatten, Run, Take, Effect, Inside, AppendText, Occurrences, AtMostOnce, Scan.Field, EndsForest, PlainText,
         Succeeds;
    SucceedsStep(s, ps);
    var name := ps[0].name;
    var inside := Take(s, ps[0]).value;
    OpenKeeps(s, name);
    var body, tail;
    if name in REQUIRED_TAGS {
      body, tail := ParseText(inside, ps[1..]);
      RunText(inside, body, tail);
    } else {
      body, tail := ParseForest(inside, ps[1..]);
      RunForest(inside, body, tail);
    }
    var after := Inside(s, name, body);
    InsideFacts(s, name, body);
    SameRun(inside, ps[1..], after, tail);
    EndsWithClose(inside, tail);
    SucceedsStep(after, tail);
    var more;
    more, rest := ParseForest(Take(after, tail[0]).value, tail[1..]);
    f := Element(name, body, more);
    ElementForest(s, name, body, more, rest);
    FlattenElement(ps, name, body, tail, more, rest);
  }

  lemma Nested(open: seq<Piece>, body: seq<Piece>, close: seq<Piece>, more: seq<Piece>, rest: seq<Piece>)
    ensures open + (body + (close + (more + rest))) == open + body + close + more + rest
  {
  }

  lemma FlattenElement(ps: seq<Piece>, name: string, body: Forest, tail: seq<Piece>, more: Forest, rest: seq<Piece>)
    requires ps != [] && ps[0] == OpenTag(name, false) && ps[1..] == Flatten(body) + tail
    requires tail != [] && tail[0] == CloseTag(name) && tail[1..] == Flatten(more) + rest
    ensures ps == Flatten(Element(name, body, more)) + rest
  {
    var f := Element(name, body, more);
    assert Flatten(f) == [OpenTag(name, false)] + Flatten(body) + [CloseTag(name)] + Flatten(more);
    hide Flatten;
    assert ps == [ps[0]] + ps[1..] && tail == [tail[0]] + tail[1..];
    Nested([OpenTag(name, false)], Flatten(body), [CloseTag(name)], Flatten(more), rest);
  }

  lemma SameRun(s: Scan, ps: seq<Piece>, s': Scan, ps': seq<Piece>)
    requires s.Valid() && s'.Valid() && Run(s, ps) == Run(s', ps') && Succeeds(s, ps)
    ensures Succeeds(s', ps')
  {
  }

  lemma OpenKeeps(s: Scan, name: string)
    requires s.Valid() && s.Field() < 0 && Take(s, OpenTag(name, false)).Ok?
    ensures var inside := Take(s, OpenTag(name, false)).value;
            inside.stack == s.stack + [name] && (inside.Field() >= 0 <==> name in REQUIRED_TAGS)
  {
  }

  lemma EndsWithClose(s: Scan, rest: seq<Piece>)
    requires EndsForest(s, rest) && s.stack != []
    ensures rest != [] && rest[0] == CloseTag(s.stack[|s.stack| - 1])
  {
  }

  lemma InsideFacts(s: Scan, name: string, body: Forest)
    requires s.Valid() && s.Field() < 0 && Take(s, OpenTag(name, false)).Ok?
    ensures var inside, after := Take(s, OpenTag(name, false)).value, Inside(s, name, body);
            && after == (if name in REQUIRED_TAGS then AppendText(inside, OwnText(body)) else Effect(inside, body))
            && after.stack == s.stack + [name]
            && Take(after, CloseTag(name)).Ok? && Take(after, CloseTag(name)).value.stack == s.stack
            && Take(after, CloseTag(name)).value.Field() < 0 && Take(after, CloseTag(name)).value.seen == after.seen
  {
    hide Take, Effect, AppendText;
    InsideIs(s, name, body, 0);
    OpenKeeps(s, name);
    ClosesTo(Inside(s, name, body), s, name);
  }

  /** Closing the innermost element leads back to the stack before it. */
  lemma ClosesTo(after: Scan, s: Scan, name: string)
    requires after.Valid() && after.stack == s.stack + [name]
    ensures var closed := Take(after, CloseTag(name));
            closed.Ok? && closed.value.stack == s.stack && closed.value.seen == after.seen
            && closed.value.Field() == s.Field()
  {
    assert (s.stack + [name])[..|s.stack|] == s.stack;
  }

  lemma ElementForest(s: Scan, name: string, body: Forest, more: Forest, rest: seq<Piece>)
    requires s.Valid() && s.Field() < 0 && Take(s, OpenTag(name, false)).Ok?
    requires if name in REQUIRED_TAGS then PlainText(body)
             else TextBodies(body) && AtMostOnce(body, Take(s, OpenTag(name, false)).value.seen)
    requires Take(Inside(s, name, body), CloseTag(name)).Ok? && TextBodies(more)
    requires var s' := Take(Inside(s, name, body), CloseTag(name)).value;
             AtMostOnce(more, s'.seen) && EndsForest(s', rest)
    ensures TextBodies(Element(name, body, more)) && AtMostOnce(Element(name, body, more), s.seen)
            && EndsForest(s, rest)
  {
    hide Inside, Effect, AppendText, FieldText, Flatten;
    InsideFacts(s, name, body);
    var inside, s' := Take(s, OpenTag(name, false)).value, Take(Inside(s, name, body), CloseTag(name)).value;
    forall i: nat | i < |REQUIRED_TAGS|
      ensures Occurrences(Element(name, body, more), i) + (if s.seen[i] then 1 else 0) <= 1
    {
      InsideIs(s, name, body, i);
      TagsDiffer(i);
      assert Occurrences(more, i) + (if s'.seen[i] then 1 else 0) <= 1;
      if name in REQUIRED_TAGS {
        PlainTextHasNoTags(body, i);
      } else {
        assert Occurrences(body, i) + (if inside.seen[i] then 1 else 0) <= 1;
      }
    }
  }

  // ---------------------------------------------------------------- the accepted documents

  /** Required elements hold text only, and none occurs twice. */
  ghost predicate Document(f: Forest) {
    TextBodies(f) && AtMostOnce(f, BEGIN.seen)
  }

  /** A field of a forest: trimmed, not empty and not too long; only the display name may be missing. */
  predicate ReadsAt(f: Forest, i: nat, value: string)
    requires i < |REQUIRED_TAGS|
  {
    if Occurrences(f, i) == 0 then i == 0 && value == DEFAULT_NAME
    else value == Trim(FieldText(f, i)) && 0 < |value| <= MAXIMUM_FIELD_LENGTH
  }

  predicate Reads(f: Forest, fields: seq<string>) {
    |fields| == |REQUIRED_TAGS| && forall i :: 0 <= i < |REQUIRED_TAGS| ==> ReadsAt(f, i, fields[i])
  }

  lemma SettledStep(s: Scan, n: nat, fields: seq<string>)
    requires s.Valid() && 0 < n <= |REQUIRED_TAGS| && |fields| == n
    ensures Settled(s, n) == Ok(fields) <==>
            Settled(s, n - 1) == Ok(fields[..n - 1]) && Settle(s, n - 1) == Ok(fields[n - 1])
  {
    hide Settle;
    assert fields == fields[..n - 1] + [fields[n - 1]];
  }

  predicate SettlesTo(s: Scan, n: nat, fields: seq<string>)
    requires s.Valid() && n <= |REQUIRED_TAGS|
  {
    |fields| == n && forall i :: 0 <= i < n ==> Settle(s, i) == Ok(fields[i])
  }

  lemma SettlesToStep(s: Scan, n: nat, fields: seq<string>)
    requires s.Valid() && 0 < n <= |REQUIRED_TAGS| && |fields| == n
    ensures SettlesTo(s, n, fields) <==> SettlesTo(s, n - 1, fields[..n - 1]) && Settle(s, n - 1) == Ok(fields[n - 1])
  {
    hide Settle;
    var front := fields[..n - 1];
    if SettlesTo(s, n - 1, front) && Settle(s, n - 1) == Ok(fields[n - 1]) {
      forall i | 0 <= i < n ensures Settle(s, i) == Ok(fields[i]) {
        if i < n - 1 {
          assert Settle(s, i) == Ok(front[i]);
        }
      }
    }
  }

  lemma {:induction false} SettledIs(s: Scan, n: nat, fields: seq<string>)
    requires s.Valid() && n <= |REQUIRED_TAGS|
    ensures Settled(s, n) == Ok(fields) <==> SettlesTo(s, n, fields)
  {
    if n > 0 && |fields| == n {
      hide Settled, SettlesTo, Settle;
      SettledIs(s, n - 1, fields[..n - 1]);
      SettledStep(s, n, fields);
      SettlesToStep(s, n, fields);
    }
  }

  lemma SettleIs(f: Forest, i: nat, value: string)
    requires i < |REQUIRED_TAGS|
    ensures Settle(Effect(BEGIN, f), i) == Ok(value) <==> ReadsAt(f, i, value)
  {
    hide FieldText, Occurrences, Trim;
    assert "" + FieldText(f, i) == FieldText(f, i);
  }

  lemma ReadsIsSettled(f: Forest, fields: seq<string>)
    ensures Settled(Effect(BEGIN, f), |REQUIRED_TAGS|) == Ok(fields) <==> Reads(f, fields)
  {
    hide FieldText, Occurrences, Trim, Effect, Settle, ReadsAt, Settled;
    SettledIs(Effect(BEGIN, f), |REQUIRED_TAGS|, fields);
    if |fields| == |REQUIRED_TAGS| {
      forall i: nat | i < |REQUIRED_TAGS|
        ensures Settle(Effect(BEGIN, f), i) == Ok(fields[i]) <==> ReadsAt(f, i, fields[i])
      {
        SettleIs(f, i, fields[i]);
      }
    }
  }

  /** A document is accepted exactly when it is spelled by the tags and texts of such a forest, and then the fields are
      those of the forest. */
  lemma AcceptsExactlyForests(xml: string, fields: seq<string>)
    ensures Extract(xml) == Ok(fields) <==>
            exists f :: SpelledBy(xml, Flatten(f)) && Document(f) && Reads(f, fields)
  {
    hide Extract, Document, Reads, Flatten, Pieces, SpelledBy;
    AcceptsPieces(xml, fields);
    if Extract(xml) == Ok(fields) {
      var f :| Flatten(f) == Pieces(xml).value && Document(f) && Reads(f, fields);
      PiecesExactly(xml, Flatten(f));
    }
    if exists f :: SpelledBy(xml, Flatten(f)) && Document(f) && Reads(f, fields) {
      var f :| SpelledBy(xml, Flatten(f)) && Document(f) && Reads(f, fields);
      PiecesExactly(xml, Flatten(f));
    }
  }

  lemma AcceptsPieces(xml: string, fields: seq<string>)
    ensures Extract(xml) == Ok(fields) <==>
            Pieces(xml).Ok? && exists f :: Flatten(f) == Pieces(xml).value && Document(f) && Reads(f, fields)
  {
    hide Run, Effect, Settled, Reads, Flatten, Pieces, TextBodies, AtMostOnce, ScanAll;
    ScanIsRun(BEGIN, xml);
    if Extract(xml) == Ok(fields) {
      var f, rest := ParseForest(BEGIN, Pieces(xml).value);
      assert Flatten(f) + rest == Flatten(f) + [] == Flatten(f);
      ForestReads(f, fields);
    }
    if Pieces(xml).Ok? && exists f :: Flatten(f) == Pieces(xml).value && Document(f) && Reads(f, fields) {
      var f :| Flatten(f) == Pieces(xml).value && Document(f) && Reads(f, fields);
      ForestReads(f, fields);
    }
  }

  // ---------------------------------------------------------------- why a document is refused

  /** A piece is refused for an element inside a required one, for a required tag seen before, or for a closing tag that
      is not that of the innermost element. */
  lemma RefusesExactly(s: Scan, p: Piece)
    requires s.Valid()
    ensures var inField := s.stack != [] && s.stack[|s.stack| - 1] in REQUIRED_TAGS;
            && (Take(s, p) == Err(TextOnly) <==> p.OpenTag? && inField)
            && (forall i: nat :: Take(s, p) == Err(NotOnce(i))
                                 <==> p.OpenTag? && !inField && i < |REQUIRED_TAGS| && p.name == REQUIRED_TAGS[i] && s.seen[i])
            && (Take(s, p) == Err(MalformedNesting)
                <==> p.CloseTag? && (s.stack == [] || s.stack[|s.stack| - 1] != p.name))
            && (Take(s, p).Err? ==> Take(s, p).error.TextOnly? || Take(s, p).error.NotOnce?
                                    || Take(s, p).error.MalformedNesting?)
  {
    hide AppendText;
    if p.OpenTag? {
      forall i: nat | i < |REQUIRED_TAGS| && p.name == REQUIRED_TAGS[i] ensures TagIndex(p.name) == i {
        TagsDiffer(i);
      }
    }
  }

  /** A field is refused when its tag is missing, or its trimmed text is empty or longer than 128. */
  lemma RefusesField(s: Scan, i: nat)
    requires s.Valid() && i < |REQUIRED_TAGS|
    ensures Settle(s, i) == Err(NotOnce(i)) <==> !s.seen[i] && i > 0
    ensures Settle(s, i) == Err(EmptyField(i)) <==> s.seen[i] && Trim(s.fields[i]) == []
    ensures Settle(s, i) == Err(TooLong(i)) <==> s.seen[i] && |Trim(s.fields[i])| > 128
    ensures Settle(s, i).Err? ==> Settle(s, i).error in {NotOnce(i), EmptyField(i), TooLong(i)}
  {
    hide Trim;
  }

  lemma ForestReads(f: Forest, fields: seq<string>)
    requires Document(f)
    ensures Run(BEGIN, Flatten(f)) == Ok(Effect(BEGIN, f)) && Effect(BEGIN, f).stack == []
    ensures Settled(Effect(BEGIN, f), |REQUIRED_TAGS|) == Ok(fields) <==> Reads(f, fields)
  {
    hide Effect, Settled, Reads, TextBodies, AtMostOnce, Flatten;
    RunForest(BEGIN, f, []);
    assert Flatten(f) + [] == Flatten(f);
    ReadsIsSettled(f, fields);
  }
}
