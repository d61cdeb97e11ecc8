/** Finding the JSON object in a model's answer, and putting the answer together from a stream. */
module JsonScan {
  import opened Wrappers
  import opened Text

  // ----- the scanner -----

  /** Brace depth, and whether the position is inside a string or right after a backslash in one. */
  datatype State = State(depth: int, inString: bool, escaped: bool)

  function Out(depth: int): State {
    State(depth, false, false)
  }

  function Step(st: State, c: char): State {
    if st.inString then
      if st.escaped then st.(escaped := false)
      else if c == '\\' then st.(escaped := true)
      else if c == '"' then st.(inString := false)
      else st
    else if c == '"' then st.(inString := true)
    else if c == '{' then st.(depth := st.depth + 1)
    else if c == '}' then st.(depth := st.depth - 1)
    else st
  }

  function Walk(s: string, st: State): State {
    if s == "" then st else Walk(s[1..], Step(st, s[0]))
  }

  /** Every brace outside of strings is matched, and no string is open. */
  predicate Closed(s: string) {
    s != "" && Walk(s, Out(0)).depth == 0 && !Walk(s, Out(0)).inString
  }

  /** The first brace of a text. */
  function FirstBrace(s: string): (i: nat)
    ensures i <= |s| && forall k :: 0 <= k < i ==> s[k] != '{'
    ensures i < |s| ==> s[i] == '{'
  {
    if s == "" || s[0] == '{' then 0 else 1 + FirstBrace(s[1..])
  }

  /** The piece between two positions is closed. */
  predicate ClosesAt(content: string, start: nat, end: nat)
    requires start <= end <= |content|
  {
    Closed(content[start..end])
  }

  /** The shortest closed piece of content that starts at its first brace; empty if none closes. */
  predicate IsFirstObject(content: string, r: string) {
    var start := FirstBrace(content);
    if r == "" then forall end :: start < end <= |content| ==> !ClosesAt(content, start, end)
    else
      && start + |r| <= |content| && r == content[start..start + |r|] && ClosesAt(content, start, start + |r|)
      && forall end :: start < end < start + |r| ==> !ClosesAt(content, start, end)
  }

  lemma {:induction false} WalkConcat(a: string, b: string, st: State)
    ensures Walk(a + b, st) == Walk(b, Walk(a, st))
  {
    if a == "" {
      assert a + b == b;
    } else {
      assert (a + b)[1..] == a[1..] + b;
      WalkConcat(a[1..], b, Step(st, a[0]));
    }
  }

  lemma WalkNext(s: string, start: nat, i: nat)
    requires start <= i < |s|
    ensures Walk(s[start..i + 1], Out(0)) == Step(Walk(s[start..i], Out(0)), s[i])
  {
    assert s[start..i + 1] == s[start..i] + [s[i]];
    WalkConcat(s[start..i], [s[i]], Out(0));
    assert [s[i]][1..] == "";
  }

  method FirstJSONObject(content: string) returns (r: string)
    ensures IsFirstObject(content, r)
  {
    var start := FirstBrace(content);
    if start == |content| {
      return "";
    }
    var depth, inString, escaped := 0, false, false;
    for i := start to |content|
      invariant Walk(content[start..i], Out(0)) == State(depth, inString, escaped)
      invariant escaped ==> inString
      invariant i > start ==> depth > 0
      invariant forall end :: start < end <= i ==> !ClosesAt(content, start, end)
    {
      WalkNext(content, start, i);
      var c := content[i];
      if inString {
        if escaped {
          escaped := false;
          continue;
        }
        if c == '\\' {
          escaped := true;
        } else if c == '"' {
          inString := false;
        }
        continue;
      }
      if c == '"' {
        inString := true;
      } else if c == '{' {
        depth := depth + 1;
      } else if c == '}' {
        depth := depth - 1;
        if depth == 0 {
          return content[start..i + 1];
        }
      }
    }
    r := "";
  }

  lemma NoneEarlier(content: string, r: string, n: nat)
    requires IsFirstObject(content, r) && 0 < n <= |content| - FirstBrace(content)
    requires ClosesAt(content, FirstBrace(content), FirstBrace(content) + n)
    ensures r != "" && |r| <= n
  {}

  /** There is only one such piece. */
  lemma FirstObjectUnique(content: string, r: string, q: string)
    requires IsFirstObject(content, r) && IsFirstObject(content, q)
    ensures r == q
  {
    if r != "" {
      NoneEarlier(content, q, |r|);
    }
    if q != "" {
      NoneEarlier(content, r, |q|);
    }
  }

  // ----- JSON texts (RFC 8259, sections 2 to 7) -----

  /** A character of a string, section 7: as it is, after a backslash, or as four hexadecimal digits. */
  datatype Piece = Plain(c: char) | Escape(c: char) | Unicode(a: char, b: char, c2: char, d: char)

  predicate HexDigit(c: char) {
    '0' <= c <= '9' || 'a' <= c <= 'f' || 'A' <= c <= 'F'
  }

  predicate LegalPiece(p: Piece) {
    match p
    case Plain(c) => c != '"' && c != '\\' && c as int >= 0x20
    case Escape(c) => c in "\"\\/bfnrt"
    case Unicode(a, b, c, d) => HexDigit(a) && HexDigit(b) && HexDigit(c) && HexDigit(d)
  }

  function PieceText(p: Piece): string {
    match p
    case Plain(c) => [c]
    case Escape(c) => ['\\', c]
    case Unicode(a, b, c, d) => ['\\', 'u', a, b, c, d]
  }

  function PiecesText(ps: seq<Piece>): string {
    if ps == [] then "" else PieceText(ps[0]) + PiecesText(ps[1..])
  }

  predicate LegalPieces(ps: seq<Piece>) {
    ps != [] ==> LegalPiece(ps[0]) && LegalPieces(ps[1..])
  }

  /** A value with all the white space its text has. */
  datatype Value =
    | Literal(text: string)
    | String(pieces: seq<Piece>)
    | Array(items: Items, space: string)
    | Object(members: Members, space: string)

  datatype Items = NoItems | Item(before: string, value: Value, after: string, rest: Items)

  datatype Members = NoMembers
                   | Member(before: string, name: seq<Piece>, colon: string, space: string, value: Value, after: string,
                            rest: Members)

  predicate WhiteSpace(s: string) {
    forall i :: 0 <= i < |s| ==> s[i] in " \t\n\r"
  }

  /** The characters of numbers and of true, false and null. */
  predicate LiteralText(s: string) {
    s != "" && forall i :: 0 <= i < |s| ==> 'a' <= s[i] <= 'z' || s[i] in "0123456789+-.E"
  }

  predicate Legal(v: Value) {
    match v
    case Literal(text) => LiteralText(text)
    case String(pieces) => LegalPieces(pieces)
    case Array(items, space) => LegalItems(items) && WhiteSpace(space)
    case Object(members, space) => LegalMembers(members) && WhiteSpace(space)
  }

  predicate LegalItems(items: Items) {
    match items
    case NoItems => true
    case Item(before, value, after, rest) => WhiteSpace(before) && Legal(value) && WhiteSpace(after) && LegalItems(rest)
  }

  predicate LegalMembers(members: Members) {
    match members
    case NoMembers => true
    case Member(before, name, colon, space, value, after, rest) =>
      && WhiteSpace(before) && LegalPieces(name) && WhiteSpace(colon) && WhiteSpace(space) && Legal(value)
      && WhiteSpace(after) && LegalMembers(rest)
  }

  function StringText(pieces: seq<Piece>): string {
    "\"" + PiecesText(pieces) + "\""
  }

  function Render(v: Value): string {
    match v
    case Literal(text) => text
    case String(pieces) => StringText(pieces)
    case Array(items, space) => "[" + (ItemsText(items) + (space + "]"))
    case Object(members, space) => "{" + (MembersText(members) + (space + "}"))
  }

  function ItemsText(items: Items): string {
    match items
    case NoItems => ""
    case Item(before, value, after, rest) =>
      before + (Render(value) + (after + ((if rest.NoItems? then "" else ",") + ItemsText(rest))))
  }

  function MembersText(members: Members): string {
    match members
    case NoMembers => ""
    case Member(before, name, colon, space, value, after, rest) =>
      before + (StringText(name) + (colon + (":" + (space + (Render(value) + (after
      + ((if rest.NoMembers? then "" else ",") + MembersText(rest))))))))
  }

  // ----- a JSON text is neutral to the scanner -----

  /** From the given state on, the depth never falls below the limit. */
  predicate Above(s: string, st: State, limit: int) {
    st.depth >= limit && (s == "" || Above(s[1..], Step(st, s[0]), limit))
  }

  /** The text leaves the scanner where it was, and never below. */
  predicate Neutral(s: string, depth: int) {
    Walk(s, Out(depth)) == Out(depth) && Above(s, Out(depth), depth)
  }

  lemma {:induction false} AboveConcat(a: string, b: string, st: State, limit: int)
    requires Above(a, st, limit) && Above(b, Walk(a, st), limit)
    ensures Above(a + b, st, limit)
  {
    if a == "" {
      assert a + b == b;
    } else {
      assert (a + b)[1..] == a[1..] + b;
      AboveConcat(a[1..], b, Step(st, a[0]), limit);
    }
  }

  lemma NeutralConcat(a: string, b: string, depth: int)
    requires Neutral(a, depth) && Neutral(b, depth)
    ensures Neutral(a + b, depth)
  {
    WalkConcat(a, b, Out(depth));
    AboveConcat(a, b, Out(depth), depth);
  }

  predicate Inert(s: string) {
    forall i :: 0 <= i < |s| ==> s[i] != '"' && s[i] != '{' && s[i] != '}'
  }

  lemma {:induction false} InertNeutral(s: string, depth: int)
    requires Inert(s)
    ensures Neutral(s, depth)
  {
    if s != "" {
      InertNeutral(s[1..], depth);
    }
  }

  lemma PieceStays(p: Piece, depth: int)
    requires LegalPiece(p)
    ensures Walk(PieceText(p), State(depth, true, false)) == State(depth, true, false)
    ensures Above(PieceText(p), State(depth, true, false), depth)
  {
    var st := State(depth, true, false);
    match p {
      case Plain(c) =>
        assert [c][1..] == "";
      case Escape(c) =>
        assert ['\\', c][1..] == [c] && [c][1..] == "";
        assert Walk([c], st.(escaped := true)) == Walk("", st);
        assert Above([c], st.(escaped := true), depth);
      case Unicode(a, b, c, d) =>
        var t := ['u', a, b, c, d];
        assert ['\\', 'u', a, b, c, d][1..] == t;
        assert t[1..] == [a, b, c, d];
        HexStays([a, b, c, d], depth);
        assert Step(st.(escaped := true), 'u') == st;
        assert Walk(t, st.(escaped := true)) == Walk([a, b, c, d], st);
        assert Above(t, st.(escaped := true), depth);
    }
  }

  lemma {:induction false} HexStays(s: string, depth: int)
    requires forall i :: 0 <= i < |s| ==> HexDigit(s[i])
    ensures Walk(s, State(depth, true, false)) == State(depth, true, false)
    ensures Above(s, State(depth, true, false), depth)
  {
    if s != "" {
      HexStays(s[1..], depth);
    }
  }

  lemma {:induction false} PiecesStay(ps: seq<Piece>, depth: int)
    requires LegalPieces(ps)
    ensures Walk(PiecesText(ps), State(depth, true, false)) == State(depth, true, false)
    ensures Above(PiecesText(ps), State(depth, true, false), depth)
  {
    if ps != [] {
      PieceStays(ps[0], depth);
      PiecesStay(ps[1..], depth);
      WalkConcat(PieceText(ps[0]), PiecesText(ps[1..]), State(depth, true, false));
      AboveConcat(PieceText(ps[0]), PiecesText(ps[1..]), State(depth, true, false), depth);
    }
  }

  /** A text between two characters that bring the scanner into a state and back. */
  lemma Enclosed(open: char, s: string, close: char, depth: int, inner: State)
    requires Step(Out(depth), open) == inner && inner.depth >= depth && !inner.escaped
    requires Walk(s, inner) == inner && Above(s, inner, depth) && Step(inner, close) == Out(depth)
    ensures Neutral([open] + s + [close], depth)
  {
    var all := [open] + s + [close];
    assert all == [open] + (s + [close]);
    assert all[1..] == s + [close] && [close][1..] == "";
    WalkConcat(s, [close], inner);
    AboveConcat(s, [close], inner, depth);
  }

  lemma StringNeutral(pieces: seq<Piece>, depth: int)
    requires LegalPieces(pieces)
    ensures Neutral(StringText(pieces), depth)
  {
    PiecesStay(pieces, depth);
    Enclosed('"', PiecesText(pieces), '"', depth, State(depth, true, false));
  }

  lemma {:induction false} AboveLower(s: string, st: State, limit: int, lower: int)
    requires Above(s, st, limit) && lower <= limit
    ensures Above(s, st, lower)
  {
    if s != "" {
      AboveLower(s[1..], Step(st, s[0]), limit, lower);
    }
  }

  lemma ValueNeutral(v: Value, depth: int)
    requires Legal(v)
    ensures Neutral(Render(v), depth)
    decreases v
  {
    match v {
      case Literal(text) => InertNeutral(text, depth);
      case String(pieces) => StringNeutral(pieces, depth);
      case Array(items, space) =>
        ItemsNeutral(items, depth);
        InertNeutral("[", depth);
        InertNeutral(space + "]", depth);
        NeutralConcat(ItemsText(items), space + "]", depth);
        NeutralConcat("[", ItemsText(items) + (space + "]"), depth);
      case Object(members, space) =>
        ObjectBody(members, space, depth + 1);
        Braced(MembersText(members), space, depth);
    }
  }

  lemma Braced(members: string, space: string, depth: int)
    requires Neutral(members + space, depth + 1)
    ensures Neutral("{" + (members + (space + "}")), depth)
  {
    AboveLower(members + space, Out(depth + 1), depth + 1, depth);
    Enclosed('{', members + space, '}', depth, Out(depth + 1));
    assert "{" + (members + (space + "}")) == "{" + (members + space) + "}";
  }

  lemma ObjectBody(members: Members, space: string, depth: int)
    requires LegalMembers(members) && WhiteSpace(space)
    ensures Neutral(MembersText(members) + space, depth)
    decreases members, 1
  {
    MembersNeutral(members, depth);
    InertNeutral(space, depth);
    NeutralConcat(MembersText(members), space, depth);
  }

  lemma {:induction false} ItemsNeutral(items: Items, depth: int)
    requires LegalItems(items)
    ensures Neutral(ItemsText(items), depth)
    decreases items
  {
    match items {
      case NoItems =>
      case Item(before, value, after, rest) =>
        var comma := if rest.NoItems? then "" else ",";
        InertNeutral(before, depth);
        ValueNeutral(value, depth);
        InertNeutral(after, depth);
        InertNeutral(comma, depth);
        ItemsNeutral(rest, depth);
        NeutralConcat(comma, ItemsText(rest), depth);
        NeutralConcat(after, comma + ItemsText(rest), depth);
        NeutralConcat(Render(value), after + (comma + ItemsText(rest)), depth);
        NeutralConcat(before, Render(value) + (after + (comma + ItemsText(rest))), depth);
    }
  }

  lemma {:induction false} MembersNeutral(members: Members, depth: int)
    requires LegalMembers(members)
    ensures Neutral(MembersText(members), depth)
    decreases members, 0
  {
    match members {
      case NoMembers =>
      case Member(before, name, colon, space, value, after, rest) =>
        var comma := if rest.NoMembers? then "" else ",";
        InertNeutral(before, depth);
        StringNeutral(name, depth);
        InertNeutral(colon, depth);
        InertNeutral(":", depth);
        InertNeutral(space, depth);
        ValueNeutral(value, depth);
        InertNeutral(after, depth);
        InertNeutral(comma, depth);
        MembersNeutral(rest, depth);
        var t5 := comma + MembersText(rest);
        NeutralConcat(comma, MembersText(rest), depth);
        var t4 := after + t5;
        NeutralConcat(after, t5, depth);
        var t3 := Render(value) + t4;
        NeutralConcat(Render(value), t4, depth);
        var t2 := space + t3;
        NeutralConcat(space, t3, depth);
        var t1 := ":" + t2;
        NeutralConcat(":", t2, depth);
        var t0 := colon + t1;
        NeutralConcat(colon, t1, depth);
        NeutralConcat(StringText(name), t0, depth);
        NeutralConcat(before, StringText(name) + t0, depth);
    }
  }

  // ----- finding it again -----

  lemma {:induction false} FirstBraceIs(prefix: string, t: string)
    requires t != "" && t[0] == '{' && forall i :: 0 <= i < |prefix| ==> prefix[i] != '{'
    ensures FirstBrace(prefix + t) == |prefix|
  {
    if prefix == "" {
      assert prefix + t == t;
    } else {
      assert (prefix + t)[1..] == prefix[1..] + t;
      FirstBraceIs(prefix[1..], t);
    }
  }

  lemma {:induction false} AboveAt(s: string, st: State, limit: int, n: nat)
    requires Above(s, st, limit) && n <= |s|
    ensures Walk(s[..n], st).depth >= limit
  {
    if n > 0 {
      assert s[..n][1..] == s[1..][..n - 1];
      AboveAt(s[1..], Step(st, s[0]), limit, n - 1);
    }
  }

  /** Before its last brace an object is not closed; with it, it is. */
  lemma ObjectCloses(v: Value, n: nat)
    requires v.Object? && Legal(v) && 0 < n <= |Render(v)|
    ensures Closed(Render(v)[..n]) <==> n == |Render(v)|
  {
    var text := Render(v);
    var body := MembersText(v.members) + v.space;
    ConcatAssoc("{", MembersText(v.members), v.space + "}");
    assert text == "{" + body + "}";
    ObjectBody(v.members, v.space, 1);
    if n == |text| {
      ValueNeutral(v, 0);
      assert text[..n] == text;
    } else {
      AboveAt(body, Out(1), 1, n - 1);
      assert text[..n] == "{" + body[..n - 1];
      WalkConcat("{", body[..n - 1], Out(0));
      assert Walk("{", Out(0)) == Out(1) by { assert "{"[1..] == ""; }
    }
  }

  /** For every object text, every prefix without an opening brace and every suffix, the object comes out. */
  lemma ObjectIsFound(v: Value, prefix: string, suffix: string, r: string)
    requires v.Object? && Legal(v) && forall i :: 0 <= i < |prefix| ==> prefix[i] != '{'
    requires IsFirstObject(prefix + Render(v) + suffix, r)
    ensures r == Render(v)
  {
    var text := Render(v);
    var content := prefix + text + suffix;
    assert text[0] == '{';
    ConcatAssoc(prefix, text, suffix);
    FirstBraceIs(prefix, text + suffix);
    forall end | |prefix| < end <= |prefix| + |text|
      ensures ClosesAt(content, |prefix|, end) <==> end == |prefix| + |text|
    {
      assert content[|prefix|..end] == text[..end - |prefix|];
      ObjectCloses(v, end - |prefix|);
    }
    assert text == content[|prefix|..|prefix| + |text|];
    FirstObjectUnique(content, r, text);
  }

  // ----- the stream -----

  /** One choice of a response: a whole message, a further piece, or both. */
  datatype Choice = Choice(message: string, delta: string)

  datatype Response = Missing | Failure(message: string) | Choices(choices: seq<Choice>)

  predicate Blank(s: string) {
    TrimSpace(s) == ""
  }

  function AfterChoice(content: string, c: Choice): string {
    (if Blank(c.message) then content else c.message) + (if Blank(c.delta) then "" else c.delta)
  }

  function Collect(content: string, cs: seq<Choice>): string
    decreases cs
  {
    if cs == [] then content else AfterChoice(Collect(content, cs[..|cs| - 1]), cs[|cs| - 1])
  }

  /** The content after a stream, or its first error. */
  function Streamed(rs: seq<Response>): Result<string> {
    if rs == [] then Ok("")
    else
      match Streamed(rs[..|rs| - 1])
      case Err(message) => Err(message)
      case Ok(content) =>
        match rs[|rs| - 1]
        case Missing => Ok(content)
        case Failure(message) => Err(message)
        case Choices(choices) => Ok(Collect(content, choices))
  }

  lemma {:induction false} ErrorStays(rs: seq<Response>, i: nat)
    requires i <= |rs| && Streamed(rs[..i]).Err?
    ensures Streamed(rs) == Streamed(rs[..i])
  {
    if i < |rs| {
      assert rs[..|rs| - 1][..i] == rs[..i];
      ErrorStays(rs[..|rs| - 1], i);
    } else {
      assert rs[..i] == rs;
    }
  }

  method ReadChoices(start: string, choices: seq<Choice>) returns (content: string)
    ensures content == Collect(start, choices)
  {
    content := start;
    for k := 0 to |choices|
      invariant content == Collect(start, choices[..k])
    {
      assert choices[..k + 1][..k] == choices[..k];
      if !Blank(choices[k].message) {
        content := choices[k].message;
      }
      ConcatNil(content);
      if !Blank(choices[k].delta) {
        content := content + choices[k].delta;
      }
    }
    assert choices[..|choices|] == choices;
  }

  method ReadStream(responses: seq<Response>) returns (r: Result<string>)
    ensures r == Streamed(responses)
  {
    var content := "";
    for i := 0 to |responses|
      invariant Streamed(responses[..i]) == Ok(content)
    {
      assert responses[..i + 1][..i] == responses[..i];
      if responses[i].Missing? {
        continue;
      }
      if responses[i].Failure? {
        ErrorStays(responses, i + 1);
        return Err(responses[i].message);
      }
      content := ReadChoices(content, responses[i].choices);
    }
    assert responses[..|responses|] == responses;
    r := Ok(content);
  }

  function Joined(ds: seq<string>): string {
    if ds == [] then "" else Joined(ds[..|ds| - 1]) + ds[|ds| - 1]
  }

  /** Choices that carry only deltas. */
  function Deltas(ds: seq<string>): seq<Choice> {
    if ds == [] then [] else Deltas(ds[..|ds| - 1]) + [Choice("", ds[|ds| - 1])]
  }

  predicate NoneLost(ds: seq<string>) {
    forall i :: 0 <= i < |ds| && Blank(ds[i]) ==> ds[i] == ""
  }

  lemma {:induction false} CollectShrinks(ds: seq<string>)
    ensures |Collect("", Deltas(ds))| <= |Joined(ds)|
    ensures |Collect("", Deltas(ds))| == |Joined(ds)| ==> NoneLost(ds)
    ensures NoneLost(ds) ==> Collect("", Deltas(ds)) == Joined(ds)
  {
    if ds != [] {
      var init, last := ds[..|ds| - 1], ds[|ds| - 1];
      CollectShrinks(init);
      CollectSnoc(Deltas(init), last);
      NoneLostSnoc(init, last);
      LastSplits(ds);
    }
  }

  lemma CollectSnoc(cs: seq<Choice>, last: string)
    ensures Collect("", cs + [Choice("", last)]) == Collect("", cs) + if Blank(last) then "" else last
  {
    assert (cs + [Choice("", last)])[..|cs|] == cs;
    assert TrimSpace("") == "";
  }

  lemma NoneLostSnoc(init: seq<string>, last: string)
    ensures NoneLost(init + [last]) <==> NoneLost(init) && (Blank(last) ==> last == "")
  {
    assert forall i :: 0 <= i < |init| ==> (init + [last])[i] == init[i];
    assert (init + [last])[|init|] == last;
  }

  /** A text cut into deltas is put together again exactly when no delta of nothing but white space is lost; so
      the way it is cut into other deltas makes no difference. */
  lemma StreamJoins(ds: seq<string>)
    ensures Collect("", Deltas(ds)) == Joined(ds) <==> NoneLost(ds)
  {
    CollectShrinks(ds);
  }

  /** A lone blank between two words is such a loss. */
  lemma BlankDeltaLost(first: string, last: string)
    ensures Collect("", Deltas([first, " ", last])) != Joined([first, " ", last])
  {
    var ds := [first, " ", last];
    assert Blank(" ") && ds[1] == " ";
    StreamJoins(ds);
  }

  // ----- decoding -----

  /** The first candidate that decodes; if none does, the last error. */
  function FirstDecoded<T>(decode: string -> Result<T>, candidates: seq<string>): Result<T>
    requires candidates != []
  {
    if decode(candidates[0]).Ok? || |candidates| == 1 then decode(candidates[0])
    else FirstDecoded(decode, candidates[1..])
  }

  function Candidates(trimmed: string, fenced: seq<string>, found: string): seq<string> {
    [trimmed] + fenced + (if found == "" then [] else [found])
  }

  lemma {:induction false} DecodedStep<T>(decode: string -> Result<T>, candidates: seq<string>, i: nat)
    requires i < |candidates|
    ensures decode(candidates[i]).Ok? || i == |candidates| - 1
            ==> FirstDecoded(decode, candidates[i..]) == decode(candidates[i])
    ensures decode(candidates[i]).Err? && i < |candidates| - 1
            ==> FirstDecoded(decode, candidates[i..]) == FirstDecoded(decode, candidates[i + 1..])
  {
    assert candidates[i..][0] == candidates[i] && candidates[i..][1..] == candidates[i + 1..];
  }

  method DecodeOutput<T>(content: string, decode: string -> Result<T>, fences: string -> seq<string>, nothing: T)
    returns (r: Result<T>, found: string)
    ensures IsFirstObject(TrimSpace(content), found)
    ensures r == if TrimSpace(content) == "" then Ok(nothing)
                 else FirstDecoded(decode, Candidates(TrimSpace(content), fences(TrimSpace(content)), found))
  {
    var trimmed := TrimSpace(content);
    found := FirstJSONObject(trimmed);
    if trimmed == "" {
      return Ok(nothing), found;
    }
    var candidates := [trimmed] + fences(trimmed);
    ConcatNil(candidates);
    if found != "" {
      candidates := candidates + [found];
    }
    var last := decode(candidates[0]);
    for i := 0 to |candidates|
      invariant i > 0 ==> last.Err? && last == decode(candidates[i - 1])
      invariant i < |candidates| ==> FirstDecoded(decode, candidates) == FirstDecoded(decode, candidates[i..])
      invariant i == |candidates| ==> FirstDecoded(decode, candidates) == last
    {
      last := decode(candidates[i]);
      DecodedStep(decode, candidates, i);
      if last.Ok? {
        return last, found;
      }
    }
    r := last;
  }

  lemma SkipsFailures<T>(decode: string -> Result<T>, failing: seq<string>, last: string)
    requires forall i :: 0 <= i < |failing| ==> decode(failing[i]).Err?
    ensures FirstDecoded(decode, failing + [last]) == decode(last)
  {
    if failing == [] {
      assert failing + [last] == [last];
    } else {
      assert (failing + [last])[1..] == failing[1..] + [last];
      SkipsFailures(decode, failing[1..], last);
    }
  }

  lemma {:induction false} TrimLeftBefore(prefix: string, x: string)
    requires x != "" && !IsSpace(x[0])
    ensures TrimLeft(prefix + x) == TrimLeft(prefix) + x
  {
    if prefix == "" {
      assert prefix + x == x;
    } else {
      assert (prefix + x)[1..] == prefix[1..] + x;
      if IsSpace(prefix[0]) {
        TrimLeftBefore(prefix[1..], x);
      }
    }
  }

  lemma {:induction false} TrimRightBehind(x: string, suffix: string)
    requires x != "" && !IsSpace(x[|x| - 1])
    ensures TrimRight(x + suffix) == x + TrimRight(suffix)
  {
    if suffix == "" {
      assert x + suffix == x;
    } else {
      assert (x + suffix)[..|x + suffix| - 1] == x + suffix[..|suffix| - 1];
      if IsSpace(suffix[|suffix| - 1]) {
        TrimRightBehind(x, suffix[..|suffix| - 1]);
      }
    }
  }

  lemma {:induction false} TrimLeftKeeps(prefix: string)
    requires forall i :: 0 <= i < |prefix| ==> prefix[i] != '{'
    ensures forall i :: 0 <= i < |TrimLeft(prefix)| ==> TrimLeft(prefix)[i] != '{'
  {
    if prefix != "" && IsSpace(prefix[0]) {
      TrimLeftKeeps(prefix[1..]);
    }
  }

  lemma TrimAround(prefix: string, x: string, suffix: string)
    requires x != "" && !IsSpace(x[0]) && !IsSpace(x[|x| - 1])
    ensures TrimSpace(prefix + x + suffix) == TrimLeft(prefix) + x + TrimRight(suffix)
  {
    ConcatAssoc(prefix, x, suffix);
    TrimLeftBefore(prefix, x + suffix);
    ConcatAssoc(TrimLeft(prefix), x, suffix);
    var front := TrimLeft(prefix) + x;
    assert front[|front| - 1] == x[|x| - 1];
    TrimRightBehind(front, suffix);
  }

  /** An object in a model's prose is what gets decoded, when neither the whole answer nor a fenced block is. */
  lemma {:induction false} EmbeddedObjectDecodes<T>(v: Value, prefix: string, suffix: string,
                                                    decode: string -> Result<T>, fences: string -> seq<string>,
                                                    found: string)
    requires v.Object? && Legal(v) && forall i :: 0 <= i < |prefix| ==> prefix[i] != '{'
    requires var trimmed := TrimSpace(prefix + Render(v) + suffix);
             && IsFirstObject(trimmed, found) && decode(trimmed).Err?
             && forall i :: 0 <= i < |fences(trimmed)| ==> decode(fences(trimmed)[i]).Err?
    ensures var trimmed := TrimSpace(prefix + Render(v) + suffix);
            trimmed != "" && FirstDecoded(decode, Candidates(trimmed, fences(trimmed), found)) == decode(Render(v))
  {
    var text := Render(v);
    assert text[0] == '{' && text[|text| - 1] == '}';
    TrimAround(prefix, text, suffix);
    TrimLeftKeeps(prefix);
    ObjectIsFound(v, TrimLeft(prefix), TrimRight(suffix), found);
    var trimmed := TrimSpace(prefix + text + suffix);
    SkipsFailures(decode, [trimmed] + fences(trimmed), text);
  }
}
