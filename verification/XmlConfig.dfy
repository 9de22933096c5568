/** The calibration scanner of src/core/src/detail/xml_config.cpp: a position that moves through the document, a stack
    of open elements, and the text collected for five required elements. Characters are single bytes. */
module XmlConfig {
  import opened Protocol

  const MAXIMUM_FIELD_LENGTH: nat := 128
  const REQUIRED_TAGS: seq<string> := ["prodname", "cfgcpf", "cfgcpt", "scfgfu", "scfgtu"]
  const DEFAULT_NAME: string := "ATI Net F/T"

  datatype Error =
    | UnterminatedMarkup | UnterminatedComment | UnterminatedCdata | UnsupportedMarkup
    | MalformedMarkup | MalformedNesting | TextOnly
    | NotOnce(field: nat) | EmptyField(field: nat) | TooLong(field: nat)

  datatype Result<T> = Ok(value: T) | Err(error: Error)

  // ---------------------------------------------------------------- strings

  predicate IsSpace(c: char) {
    c == ' ' || c == '\t' || c == '\n' || c == '\r' || c == '\U{000C}' || c == '\U{000B}'
  }

  predicate AllSpace(s: string) {
    forall i :: 0 <= i < |s| ==> IsSpace(s[i])
  }

  function TrimLeft(s: string): string {
    if s != [] && IsSpace(s[0]) then TrimLeft(s[1..]) else s
  }

  function TrimRight(s: string): string {
    if s != [] && IsSpace(s[|s| - 1]) then TrimRight(s[..|s| - 1]) else s
  }

  function Trim(s: string): string {
    TrimRight(TrimLeft(s))
  }

  /** Trimming removes white space at both ends and nothing else. */
  lemma {:induction false} TrimIs(s: string) returns (before: string, after: string)
    ensures s == before + Trim(s) + after && AllSpace(before) && AllSpace(after)
    ensures Trim(s) != [] ==> !IsSpace(Trim(s)[0]) && !IsSpace(Trim(s)[|Trim(s)| - 1])
  {
    before := TrimLeftIs(s);
    after := TrimRightIs(TrimLeft(s));
    var middle := TrimLeft(s);
    assert s == before + (Trim(s) + after);
    assert before + (Trim(s) + after) == before + Trim(s) + after;
    assert Trim(s) <= middle;
  }

  lemma ThreeParts(a: string, b: string, c: string)
    ensures a + (b + c) == a + b + c
  {
  }

  lemma {:induction false} TrimLeftIs(s: string) returns (before: string)
    ensures s == before + TrimLeft(s) && AllSpace(before)
    ensures TrimLeft(s) != [] ==> !IsSpace(TrimLeft(s)[0])
  {
    hide IsSpace;
    if s != [] && IsSpace(s[0]) {
      var rest := TrimLeftIs(s[1..]);
      before := [s[0]] + rest;
      assert s == [s[0]] + s[1..];
      ThreeParts([s[0]], rest, TrimLeft(s[1..]));
    } else {
      before := [];
    }
  }

  lemma {:induction false} TrimRightIs(s: string) returns (after: string)
    ensures s == TrimRight(s) + after && AllSpace(after)
    ensures TrimRight(s) != [] ==> !IsSpace(TrimRight(s)[|TrimRight(s)| - 1])
  {
    hide IsSpace;
    if s != [] && IsSpace(s[|s| - 1]) {
      var front, last := s[..|s| - 1], [s[|s| - 1]];
      var rest := TrimRightIs(front);
      after := rest + last;
      assert s == front + last;
      ThreeParts(TrimRight(front), rest, last);
    } else {
      after := [];
    }
  }

  /** Where a pattern first occurs. */
  function Find(s: string, pattern: string): (at: Option<nat>)
    ensures at.Some? ==> at.value + |pattern| <= |s| && s[at.value..at.value + |pattern|] == pattern
    ensures at.Some? ==> forall i :: 0 <= i < at.value ==> !(pattern <= s[i..])
    ensures at.None? ==> forall i :: 0 <= i <= |s| ==> !(pattern <= s[i..])
  {
    if pattern <= s then Some(0)
    else if s == [] then None
    else
      var later := Find(s[1..], pattern);
      assert forall i :: 1 <= i <= |s| ==> s[i..] == s[1..][i - 1..];
      if later.Some? then Some(later.value + 1) else None
  }

  /** The first `>` outside quotes; `quote` is the one that is open, if any. */
  function TagEnd(s: string, quote: Option<char>): (at: Option<nat>)
    ensures at.Some? ==> at.value < |s| && s[at.value] == '>'
  {
    if s == [] then None
    else if quote.None? && s[0] == '>' then Some(0)
    else
      var rest := TagEnd(s[1..], QuoteAfter(quote, s[0]));
      if rest.Some? then Some(rest.value + 1) else None
  }

  function QuoteAfter(quote: Option<char>, c: char): Option<char> {
    if quote.Some? then (if c == quote.value then None else quote)
    else if c == '\'' || c == '"' then Some(c)
    else None
  }

  /** The part of a tag before its first white space. */
  function NameOf(tag: string): (name: string)
    ensures name <= tag && forall i :: 0 <= i < |name| ==> !IsSpace(name[i])
  {
    if tag == [] || IsSpace(tag[0]) then [] else [tag[0]] + NameOf(tag[1..])
  }

  predicate CleanName(name: string) {
    name != [] && forall i :: 0 <= i < |name| ==> !IsSpace(name[i]) && name[i] != '/'
  }

  // ---------------------------------------------------------------- pieces of a document

  datatype Piece =
    | Text(text: string) | Comment | Cdata(text: string) | Instruction
    | OpenTag(name: string, selfClosing: bool) | CloseTag(name: string)

  /** One piece and how many characters it takes. */
  datatype Cut = Cut(piece: Piece, length: nat)

  function TagPiece(inner: string): Result<Piece> {
    var tag := Trim(inner);
    if tag == [] then Err(MalformedMarkup)
    else if tag[0] == '/' then
      var name := Trim(tag[1..]);
      if CleanName(name) then Ok(CloseTag(name)) else Err(MalformedNesting)
    else
      var selfClosing := tag[|tag| - 1] == '/';
      var name := NameOf(if selfClosing then Trim(tag[..|tag| - 1]) else tag);
      if name == [] || name[0] == '/' then Err(MalformedMarkup) else Ok(OpenTag(name, selfClosing))
  }

  /** The piece a document starts with. */
  function Head(s: string): (r: Result<Cut>)
    requires s != []
    ensures r.Ok? ==> 0 < r.value.length <= |s|
  {
    if s[0] != '<' then
      var markup := Find(s, "<");
      var n := if markup.Some? then markup.value else |s|;
      Ok(Cut(Text(s[..n]), n))
    else if "<!--" <= s then
      var end := Find(s[4..], "-->");
      if end.None? then Err(UnterminatedComment) else Ok(Cut(Comment, end.value + 7))
    else if "<![CDATA[" <= s then
      var end := Find(s[9..], "]]>");
      if end.None? then Err(UnterminatedCdata) else Ok(Cut(Cdata(s[9..9 + end.value]), end.value + 12))
    else if "<?" <= s then
      var end := Find(s[2..], "?>");
      if end.None? then Err(UnterminatedMarkup) else Ok(Cut(Instruction, end.value + 4))
    else if "<!" <= s then Err(UnsupportedMarkup)
    else
      var end := TagEnd(s[1..], None);
      if end.None? then Err(UnterminatedMarkup)
      else
        var tag := TagPiece(s[1..1 + end.value]);
        if tag.Err? then Err(tag.error) else Ok(Cut(tag.value, end.value + 2))
  }

  // ---------------------------------------------------------------- scanning

  function TagIndex(name: string): (i: int)
    ensures -1 <= i < |REQUIRED_TAGS|
    ensures i >= 0 ==> REQUIRED_TAGS[i] == name
    ensures i < 0 ==> name !in REQUIRED_TAGS
  {
    if name == REQUIRED_TAGS[0] then 0
    else if name == REQUIRED_TAGS[1] then 1
    else if name == REQUIRED_TAGS[2] then 2
    else if name == REQUIRED_TAGS[3] then 3
    else if name == REQUIRED_TAGS[4] then 4
    else -1
  }

  datatype Scan = Scan(stack: seq<string>, fields: seq<string>, seen: seq<bool>)
  {
    predicate Valid() {
      |fields| == |REQUIRED_TAGS| && |seen| == |REQUIRED_TAGS|
    }

    /** The required element whose text is being collected, if one is open. */
    function Field(): (i: int)
      ensures -1 <= i < |REQUIRED_TAGS|
    {
      if stack == [] then -1 else TagIndex(stack[|stack| - 1])
    }
  }

  const BEGIN: Scan := Scan([], ["", "", "", "", ""], [false, false, false, false, false])

  function AppendText(s: Scan, text: string): (s': Scan)
    requires s.Valid()
    ensures s'.Valid()
  {
    if s.Field() >= 0 then s.(fields := s.fields[s.Field() := s.fields[s.Field()] + text]) else s
  }

  function OpenElement(s: Scan, name: string, selfClosing: bool): (r: Result<Scan>)
    requires s.Valid()
    ensures r.Ok? ==> r.value.Valid()
  {
    var i := TagIndex(name);
    if s.Field() >= 0 then Err(TextOnly)
    else if i >= 0 && s.seen[i] then Err(NotOnce(i))
    else
      Ok(s.(seen := if i >= 0 then s.seen[i := true] else s.seen,
            stack := if selfClosing then s.stack else s.stack + [name]))
  }

  function Take(s: Scan, p: Piece): (r: Result<Scan>)
    requires s.Valid()
    ensures r.Ok? ==> r.value.Valid()
  {
    match p
    case Text(t) => Ok(AppendText(s, t))
    case Cdata(t) => Ok(AppendText(s, t))
    case Comment => Ok(s)
    case Instruction => Ok(s)
    case OpenTag(name, selfClosing) => OpenElement(s, name, selfClosing)
    case CloseTag(name) =>
      if s.stack == [] || s.stack[|s.stack| - 1] != name then Err(MalformedNesting)
      else Ok(s.(stack := s.stack[..|s.stack| - 1]))
  }

  /** The scan of the rest of a document, piece by piece. */
  function ScanAll(s: Scan, xml: string): (r: Result<Scan>)
    requires s.Valid()
    ensures r.Ok? ==> r.value.Valid()
    decreases |xml|
  {
    if xml == [] then Ok(s)
    else
      var cut := Head(xml);
      if cut.Err? then Err(cut.error)
      else
        var next := Take(s, cut.value.piece);
        if next.Err? then next else ScanAll(next.value, xml[cut.value.length..])
  }

  /** A field after the scan: trimmed, with the default for a missing display name. */
  function Settle(s: Scan, i: nat): Result<string>
    requires s.Valid() && i < |REQUIRED_TAGS|
  {
    var value := Trim(s.fields[i]);
    if !s.seen[i] then (if i == 0 then Ok(DEFAULT_NAME) else Err(NotOnce(i)))
    else if value == [] then Err(EmptyField(i))
    else if |value| > MAXIMUM_FIELD_LENGTH then Err(TooLong(i))
    else Ok(value)
  }

  /** The fields up to `n`, or the first thing wrong with them. */
  function Settled(s: Scan, n: nat): (r: Result<seq<string>>)
    requires s.Valid() && n <= |REQUIRED_TAGS|
    ensures r.Ok? ==> |r.value| == n
  {
    if n == 0 then Ok([])
    else
      var before := Settled(s, n - 1);
      if before.Err? then before
      else
        var last := Settle(s, n - 1);
        if last.Err? then Err(last.error) else Ok(before.value + [last.value])
  }

  function Extract(xml: string): Result<seq<string>> {
    var s := ScanAll(BEGIN, xml);
    if s.Err? then Err(s.error)
    else if s.value.stack != [] then Err(MalformedNesting)
    else Settled(s.value, |REQUIRED_TAGS|)
  }

  // ---------------------------------------------------------------- the loops of the source

  method TrimAsciiWhitespace(value: string) returns (r: string)
    ensures r == Trim(value)
  {
    r := value;
    while r != [] && IsSpace(r[0])
      invariant TrimLeft(r) == TrimLeft(value)
    {
      r := r[1..];
    }
    while r != [] && IsSpace(r[|r| - 1])
      invariant TrimRight(r) == Trim(value)
    {
      r := r[..|r| - 1];
    }
  }

  method RequiredTagIndex(name: string) returns (index: int)
    ensures index == TagIndex(name)
  {
    for i := 0 to |REQUIRED_TAGS|
      invariant forall j :: 0 <= j < i ==> REQUIRED_TAGS[j] != name
    {
      if name == REQUIRED_TAGS[i] {
        return i;
      }
    }
    return -1;
  }

  method FindTagEnd(xml: string, start: nat) returns (end: Option<nat>)
    requires start <= |xml|
    ensures var at := TagEnd(xml[start..], None); end == if at.Some? then Some(start + at.value) else None
  {
    var quote: Option<char> := None;
    var position := start;
    ghost var all := TagEnd(xml[start..], None);
    while position < |xml|
      invariant start <= position <= |xml|
      invariant var left := TagEnd(xml[position..], quote);
                left.Some? == all.Some? && (all.Some? ==> position + left.value == start + all.value)
    {
      var character := xml[position];
      assert xml[position..][1..] == xml[position + 1..];
      if quote.Some? {
        if character == quote.value {
          quote := None;
        }
      } else if character == '\'' || character == '"' {
        quote := Some(character);
      } else if character == '>' {
        return Some(position);
      }
      position := position + 1;
    }
    return None;
  }

  /** The markup at a position: its piece and where it ends. */
  method ReadMarkup(xml: string, markup: nat) returns (r: Result<Cut>)
    requires markup < |xml| && xml[markup] == '<'
    ensures r == Head(xml[markup..])
  {
    hide Find, TagEnd, TagPiece;
    var s := xml[markup..];
    if "<!--" <= s {
      var end := Find(s[4..], "-->");
      return if end.None? then Err(UnterminatedComment) else Ok(Cut(Comment, end.value + 7));
    }
    if "<![CDATA[" <= s {
      var end := Find(s[9..], "]]>");
      return if end.None? then Err(UnterminatedCdata) else Ok(Cut(Cdata(s[9..9 + end.value]), end.value + 12));
    }
    if "<?" <= s {
      var end := Find(s[2..], "?>");
      return if end.None? then Err(UnterminatedMarkup) else Ok(Cut(Instruction, end.value + 4));
    }
    if "<!" <= s {
      return Err(UnsupportedMarkup);
    }
    var end := FindTagEnd(xml, markup + 1);
    assert s[1..] == xml[markup + 1..];
    if end.None? {
      return Err(UnterminatedMarkup);
    }
    assert xml[markup + 1..end.value] == s[1..end.value - markup];
    var tag := ReadTag(xml[markup + 1..end.value]);
    return if tag.Err? then Err(tag.error) else Ok(Cut(tag.value, end.value - markup + 1));
  }

  method ReadTag(inner: string) returns (r: Result<Piece>)
    ensures r == TagPiece(inner)
  {
    var tag := TrimAsciiWhitespace(inner);
    if tag == [] {
      return Err(MalformedMarkup);
    }
    if tag[0] == '/' {
      var name := TrimAsciiWhitespace(tag[1..]);
      return if CleanName(name) then Ok(CloseTag(name)) else Err(MalformedNesting);
    }
    var selfClosing := false;
    if tag[|tag| - 1] == '/' {
      selfClosing := true;
      tag := TrimAsciiWhitespace(tag[..|tag| - 1]);
    }
    var name := NameOf(tag);
    if name == [] || name[0] == '/' {
      return Err(MalformedMarkup);
    }
    return Ok(OpenTag(name, selfClosing));
  }

  /** Text up to the next markup. */
  lemma ScanText(s: Scan, xml: string, n: nat)
    requires s.Valid() && n <= |xml|
    requires var markup := Find(xml, "<"); n == if markup.Some? then markup.value else |xml|
    ensures ScanAll(s, xml) == ScanAll(AppendText(s, xml[..n]), xml[n..])
  {
    if n == 0 {
      assert xml[..0] == "" && xml[0..] == xml;
      if s.Field() >= 0 {
        assert s.fields[s.Field()] + "" == s.fields[s.Field()];
      }
      assert AppendText(s, "") == s;
    } else {
      assert !("<" <= xml[0..]);
    }
  }

  /** One piece of markup. */
  lemma ScanMarkup(s: Scan, xml: string)
    requires s.Valid() && xml != [] && xml[0] == '<'
    ensures Head(xml).Ok? ==> !Head(xml).value.piece.Text?
    ensures var cut := Head(xml);
            if cut.Err? then ScanAll(s, xml) == Err(cut.error)
            else
              var next := Take(s, cut.value.piece);
              if next.Err? then ScanAll(s, xml) == next
              else ScanAll(s, xml) == ScanAll(next.value, xml[cut.value.length..])
  {
  }

  /** `append_required_text`, for what the stack and the fields are here. */
  method AppendRequiredText(elements: seq<string>, fields: seq<string>, ghost seen: seq<bool>, text: string)
    returns (appended: seq<string>)
    requires Scan(elements, fields, seen).Valid()
    ensures Scan(elements, appended, seen) == AppendText(Scan(elements, fields, seen), text)
  {
    appended := fields;
    if elements != [] {
      var index := RequiredTagIndex(elements[|elements| - 1]);
      if index >= 0 {
        appended := fields[index := fields[index] + text];
      }
    }
  }

  lemma SliceOfRest(s: string, p: nat, m: nat)
    requires p <= m <= |s|
    ensures s[p..][..m - p] == s[p..m] && s[p..][m - p..] == s[m..]
  {
  }

  /** `extract_required_fields`. */
  method ExtractRequiredFields(xml: string) returns (r: Result<seq<string>>)
    ensures r == Extract(xml)
  {
    hide Head, Find, AppendText, ScanAll;
    var fields := BEGIN.fields;
    var seen := BEGIN.seen;
    var elements: seq<string> := [];
    var position := 0;
    while position < |xml|
      invariant position <= |xml| && Scan(elements, fields, seen).Valid()
      invariant ScanAll(BEGIN, xml) == ScanAll(Scan(elements, fields, seen), xml[position..])
    {
      var found := Find(xml[position..], "<");
      var markup := if found.Some? then position + found.value else |xml|;
      ScanText(Scan(elements, fields, seen), xml[position..], markup - position);
      SliceOfRest(xml, position, markup);
      fields := AppendRequiredText(elements, fields, seen, xml[position..markup]);
      if found.None? {
        position := |xml|;
        break;
      }
      ScanMarkup(Scan(elements, fields, seen), xml[markup..]);
      var cut := ReadMarkup(xml, markup);
      if cut.Err? {
        return Err(cut.error);
      }
      SliceOfRest(xml, markup, markup + cut.value.length);
      match cut.value.piece {
        case Cdata(text) =>
          fields := AppendRequiredText(elements, fields, seen, text);
        case OpenTag(name, selfClosing) =>
          if Scan(elements, fields, seen).Field() >= 0 {
            return Err(TextOnly);
          }
          var index := RequiredTagIndex(name);
          if index >= 0 {
            if seen[index] {
              return Err(NotOnce(index));
            }
            seen := seen[index := true];
          }
          if !selfClosing {
            elements := elements + [name];
          }
        case CloseTag(name) =>
          if elements == [] || elements[|elements| - 1] != name {
            return Err(MalformedNesting);
          }
          elements := elements[..|elements| - 1];
        case _ =>
      }
      position := markup + cut.value.length;
    }
    ScanDone(Scan(elements, fields, seen), xml[position..]);
    if elements != [] {
      return Err(MalformedNesting);
    }
    r := SettleFields(fields, seen);
  }

  lemma ScanDone(s: Scan, xml: string)
    requires s.Valid() && xml == []
    ensures ScanAll(s, xml) == Ok(s)
  {
  }

  /** The last loop of `extract_required_fields`. */
  method SettleFields(fields: seq<string>, seen: seq<bool>) returns (r: Result<seq<string>>)
    requires Scan([], fields, seen).Valid()
    ensures r == Settled(Scan([], fields, seen), |REQUIRED_TAGS|)
  {
    var settled := [];
    for index := 0 to |REQUIRED_TAGS|
      invariant Settled(Scan([], fields, seen), index) == Ok(settled)
    {
      FirstFailure(Scan([], fields, seen), index + 1);
      if !seen[index] {
        if index == 0 {
          settled := settled + [DEFAULT_NAME];
          continue;
        }
        return Err(NotOnce(index));
      }
      var value := TrimAsciiWhitespace(fields[index]);
      if value == [] {
        return Err(EmptyField(index));
      }
      if |value| > MAXIMUM_FIELD_LENGTH {
        return Err(TooLong(index));
      }
      settled := settled + [value];
    }
    return Ok(settled);
  }

  /** The first field that fails decides. */
  lemma {:induction false} FirstFailure(s: Scan, n: nat)
    requires s.Valid() && n <= |REQUIRED_TAGS|
    ensures Settled(s, n).Err? ==> Settled(s, |REQUIRED_TAGS|) == Settled(s, n)
    decreases |REQUIRED_TAGS| - n
  {
    if n < |REQUIRED_TAGS| {
      FirstFailure(s, n + 1);
    }
  }
}
