/** The log pattern parser: a pattern is text with directives %name or %name{format}; %% is a percent
    sign. */
module LogPattern {
  /** What the scan finds, and what a formatter prints: text, or one of the known directives. */
  datatype Token = Text(s: string) | Conv(name: string, fmt: string)
  datatype Item = StringItem(s: string) | FormatItem(name: string, fmt: string)
  datatype Scanned = Scanned(tokens: seq<Token>, error: bool)

  const ERROR := Text("<pattern_error>")

  predicate IsAlpha(c: char) { 'a' <= c <= 'z' || 'A' <= c <= 'Z' }

  predicate IsKnown(name: string)
  {
    name in {"m", "p", "r", "c", "t", "n", "d", "f", "l", "T", "F", "N"}
  }

  // ---- what a pattern means --------------------------------------------------------------------------

  /** The first position from k on that is no letter. */
  function NameEnd(p: string, k: nat): (n: nat)
    requires k <= |p|
    ensures k <= n <= |p| && (forall j :: k <= j < n ==> IsAlpha(p[j])) && (n < |p| ==> !IsAlpha(p[n]))
    decreases |p| - k
  {
    if k < |p| && IsAlpha(p[k]) then NameEnd(p, k + 1) else k
  }

  /** The first position of c from k on. */
  function Find(p: string, c: char, k: nat): (n: nat)
    requires k <= |p|
    ensures k <= n <= |p| && (forall j :: k <= j < n ==> p[j] != c) && (n < |p| ==> p[n] == c)
    decreases |p| - k
  {
    if k < |p| && p[k] != c then Find(p, c, k + 1) else k
  }

  /** The last opening brace before q, given that there is one at n. */
  function LastOpen(p: string, n: nat, q: nat): (o: nat)
    requires n < q <= |p| && p[n] == '{'
    ensures n <= o < q && p[o] == '{' && forall j :: o < j < q ==> p[j] != '{'
    decreases q
  {
    if p[q - 1] == '{' then q - 1 else LastOpen(p, n, q - 1)
  }

  datatype Directive = Directive(token: Token, used: nat, error: bool)

  /** The directive at the start of p: the token it gives and how much of p it uses. An open brace that
      is never closed uses up all the rest. */
  function DirectiveOf(p: string): (d: Directive)
    requires |p| > 1 && p[0] == '%' && IsAlpha(p[1])
    ensures 1 < d.used <= |p|
  {
    var n := NameEnd(p, 1);
    if n < |p| && p[n] == '{' then
      var q := Find(p, '}', n);
      if q == |p| then Directive(ERROR, |p|, true)
      else Directive(Conv(p[1..LastOpen(p, n, q)], p[LastOpen(p, n, q) + 1..q]), q + 1, false)
    else Directive(Conv(p[1..n], ""), n, false)
  }

  function Flush(text: string): seq<Token>
  {
    if text == "" then [] else [Text(text)]
  }

  function Then(tokens: seq<Token>, error: bool, rest: Scanned): Scanned
  {
    Scanned(tokens + rest.tokens, error || rest.error)
  }

  /** The tokens of p, text being what has been read of a literal so far. */
  function Scan(p: string, text: string): Scanned
    decreases |p|
  {
    if p == "" then Scanned(Flush(text), false)
    else if p[0] != '%' then Scan(p[1..], text + [p[0]])
    else if |p| == 1 then Scanned(Flush(text) + [ERROR], true)
    else if p[1] == '%' then Then(Flush(text), false, Scan(p[2..], "%"))
    else if !IsAlpha(p[1]) then Then(Flush(text) + [ERROR], true, Scan(p[1..], ""))
    else
      var d := DirectiveOf(p);
      Then(Flush(text) + [d.token], d.error, Scan(p[d.used..], ""))
  }

  // How the tokens found so far grow along the pattern.

  lemma StepPercent(vec: seq<Token>, error: bool, p: string, text: string)
    requires |p| > 1 && p[0] == '%' && p[1] == '%'
    ensures Then(vec, error, Scan(p, text)) == Then(vec + Flush(text), error, Scan(p[2..], "%"))
  {
  }

  lemma StepBad(vec: seq<Token>, error: bool, p: string, text: string)
    requires |p| > 1 && p[0] == '%' && p[1] != '%' && !IsAlpha(p[1])
    ensures Then(vec, error, Scan(p, text)) == Then(vec + Flush(text) + [ERROR], true, Scan(p[1..], ""))
  {
  }

  lemma StepDirective(vec: seq<Token>, error: bool, p: string, text: string)
    requires |p| > 1 && p[0] == '%' && IsAlpha(p[1])
    ensures var d := DirectiveOf(p);
      Then(vec, error, Scan(p, text)) == Then(vec + Flush(text) + [d.token], error || d.error, Scan(p[d.used..], ""))
  {
    hide DirectiveOf, Flush;
    var d := DirectiveOf(p);
    var rest := Scan(p[d.used..], "");
    assert vec + (Flush(text) + [d.token] + rest.tokens) == vec + Flush(text) + [d.token] + rest.tokens;
  }

  lemma StepEnd(vec: seq<Token>, error: bool, text: string)
    ensures Then(vec, error, Scan("%", text)) == Then(vec + Flush(text) + [ERROR], true, Scan("", ""))
    ensures Then(vec, error, Scan("", text)) == Scanned(vec + Flush(text), error)
  {
  }

  lemma LastOpenStep(p: string, n: nat, q: nat)
    requires n <= q < |p| && p[n] == '{'
    ensures LastOpen(p, n, q + 1) == if p[q] == '{' then q else LastOpen(p, n, q)
  {
  }

  lemma ClosedDirective(p: string, n: nat, q: nat, begin: nat)
    requires |p| > 1 && p[0] == '%' && IsAlpha(p[1]) && n == NameEnd(p, 1) && n < q < |p|
    requires p[n] == '{' && begin == LastOpen(p, n, q)
    requires p[q] == '}' && forall j :: n <= j < q ==> p[j] != '}'
    ensures DirectiveOf(p) == Directive(Conv(p[1..begin], p[begin + 1..q]), q + 1, false)
  {
    assert Find(p, '}', n) == q;
  }

  lemma PlainDirective(p: string, n: nat)
    requires |p| > 1 && p[0] == '%' && IsAlpha(p[1]) && 1 < n <= |p|
    requires forall j :: 1 <= j < n ==> IsAlpha(p[j])
    requires n < |p| ==> !IsAlpha(p[n]) && p[n] != '{'
    ensures NameEnd(p, 1) == n && DirectiveOf(p) == Directive(Conv(p[1..n], ""), n, false)
  {
  }

  lemma OpenDirective(p: string, n: nat)
    requires |p| > 1 && p[0] == '%' && IsAlpha(p[1]) && n == NameEnd(p, 1) && n < |p| && p[n] == '{'
    requires forall j :: n <= j < |p| ==> p[j] != '}'
    ensures DirectiveOf(p) == Directive(ERROR, |p|, true)
  {
    assert Find(p, '}', n) == |p|;
  }

  function ItemOf(t: Token): Item
  {
    match t
    case Text(s) => StringItem(s)
    case Conv(name, fmt) =>
      if IsKnown(name) then FormatItem(name, fmt) else StringItem("<<error_format  %" + name + ">>")
  }

  predicate IsUnknown(t: Token) { t.Conv? && !IsKnown(t.name) }

  // ---- the formatter ---------------------------------------------------------------------------------

  class LogFormatter {
    const pattern: string
    var items: seq<Item>
    var error: bool

    constructor (pattern: string)
      ensures this.pattern == pattern
      ensures |items| == |Scan(pattern, "").tokens|
      ensures forall i :: 0 <= i < |items| ==> items[i] == ItemOf(Scan(pattern, "").tokens[i])
      ensures error == (Scan(pattern, "").error || exists t :: t in Scan(pattern, "").tokens && IsUnknown(t))
    {
      this.pattern, items, error := pattern, [], false;
      new;
      Init();
    }

    method Init()
      requires items == [] && !error
      modifies this
      ensures |items| == |Scan(pattern, "").tokens|
      ensures forall i :: 0 <= i < |items| ==> items[i] == ItemOf(Scan(pattern, "").tokens[i])
      ensures error == (Scan(pattern, "").error || exists t :: t in Scan(pattern, "").tokens && IsUnknown(t))
    {
      var vec := ScanPattern();
      var k := 0;
      while k < |vec|
        invariant 0 <= k <= |vec| && |items| == k
        invariant forall j :: 0 <= j < k ==> items[j] == ItemOf(vec[j])
        invariant error == (Scan(pattern, "").error || exists j :: 0 <= j < k && IsUnknown(vec[j]))
      {
        match vec[k] {
          case Text(s) => items := items + [StringItem(s)];
          case Conv(name, fmt) =>
            if IsKnown(name) {
              items := items + [FormatItem(name, fmt)];
            } else {
              items := items + [StringItem("<<error_format  %" + name + ">>")];
              error := true;
            }
        }
        k := k + 1;
      }
    }

    method ScanPattern() returns (vec: seq<Token>)
      requires !error
      modifies `error
      ensures vec == Scan(pattern, "").tokens && error == Scan(pattern, "").error
    {
      vec := [];
      var nstr, i := "", 0;
      while i < |pattern|
        invariant 0 <= i <= |pattern|
        invariant Then(vec, error, Scan(pattern[i..], nstr)) == Scan(pattern, "")
      {
        var p := pattern[i..];
        ghost var found, failed, text := vec, error, nstr;
        if pattern[i] != '%' {
          assert p[1..] == pattern[i + 1..];
          nstr := nstr + [pattern[i]];
          i := i + 1;
          continue;
        }
        vec := vec + Flush(nstr);
        nstr := "";
        var next := i + 1;
        if next >= |pattern| {
          assert p == "%";
          hide Scan, Then;
          StepEnd(found, failed, text);
          vec, error := vec + [ERROR], true;
          i := i + 1;
          break;
        }
        if pattern[next] == '%' {
          hide Scan, Then;
          StepPercent(found, failed, p, text);
          nstr := [pattern[i]];
          i := next + 1;
          continue;
        }
        if !IsAlpha(pattern[next]) {
          hide Scan, Then;
          StepBad(found, failed, p, text);
          vec, error := vec + [ERROR], true;
          i := i + 1;
          continue;
        }
        hide Scan, Then, DirectiveOf;
        StepDirective(found, failed, p, text);
        var token, used, bad := ScanDirective(p, i);
        assert p[used..] == pattern[i + used..];
        vec, error := vec + [token], error || bad;
        i := i + used;
      }
      StepEnd(vec, error, nstr);
      vec := vec + Flush(nstr);
    }

    /** The inner loop: reads the directive at position i, p being the pattern from there on. */
    method ScanDirective(p: string, i: nat) returns (token: Token, used: nat, bad: bool)
      requires |p| > 1 && p[0] == '%' && IsAlpha(p[1])
      ensures Directive(token, used, bad) == DirectiveOf(p)
    {
      ghost var n := NameEnd(p, 1);
      hide DirectiveOf, NameEnd, LastOpen;
      var next, status, begin := 1, 0, 0;
      var str := "";
      while next < |p|
        invariant 0 < next <= |p| && (status == 0 || status == 1)
        invariant status == 0 ==> next < |p| && next <= n
        invariant status == 1 ==>
          && n < next && p[n] == '{' && (forall j :: n <= j < next ==> p[j] != '}')
          && begin == LastOpen(p, n, next) && str == p[1..begin]
      {
        if status == 1 || p[next] == '{' {
          LastOpenStep(p, n, next);
        }
        if p[next] == '{' {
          str := p[1..next];
          begin := next;
          status := 1;
        }
        if status == 1 && p[next] == '}' {
          ClosedDirective(p, n, next, begin);
          return Conv(str, p[begin + 1..next]), next + 1, false;
        }
        if status == 0 {
          if !IsAlpha(p[next]) {
            PlainDirective(p, next);
            return Conv(p[1..next], ""), next, false;
          }
          if next + 1 >= |p| {
            PlainDirective(p, next + 1);
            assert p[1..next + 1] == Substr(p, 1, i + next);
            return Conv(Substr(p, 1, i + next), ""), next + 1, false;
          }
        }
        next := next + 1;
      }
      OpenDirective(p, n);
      return ERROR, next, true;
    }

    /** Prints the items one after another. */
    method Format(render: (string, string) -> string) returns (out: string)
      ensures out == Print(items, render)
    {
      out := "";
      var k := 0;
      while k < |items|
        invariant 0 <= k <= |items| && out + Print(items[k..], render) == Print(items, render)
      {
        out := out + match items[k] case StringItem(s) => s case FormatItem(name, fmt) => render(name, fmt);
        k := k + 1;
      }
    }
  }

  /** std::string::substr: from pos, at most count characters. */
  function Substr(s: string, pos: nat, count: nat): string
    requires pos <= |s|
  {
    if pos + count <= |s| then s[pos..pos + count] else s[pos..]
  }

  function Print(items: seq<Item>, render: (string, string) -> string): string
  {
    if items == [] then "" else
      (match items[0] case StringItem(s) => s case FormatItem(name, fmt) => render(name, fmt))
      + Print(items[1..], render)
  }

  // ---- patterns that mean what they were written for -----------------------------------------------------

  /** What one wants to print: literal text, and directives. A directive without a format may be written
      without braces. */
  datatype Piece = Lit(s: string) | Dir(name: string, fmt: string, braced: bool)

  function Escape(s: string): string
  {
    if s == "" then "" else EscapeChar(s[0]) + Escape(s[1..])
  }

  function EscapeChar(c: char): string { if c == '%' then "%%" else [c] }

  function Write(pieces: seq<Piece>): string
  {
    if pieces == [] then "" else WritePiece(pieces[0]) + Write(pieces[1..])
  }

  function WritePiece(piece: Piece): string
  {
    match piece
    case Lit(s) => Escape(s)
    case Dir(name, fmt, braced) => if braced then "%" + name + "{" + fmt + "}" else "%" + name
  }

  /** Names are letters, formats have no braces, and what follows a directive without braces must not run
      into its name. */
  predicate Writable(pieces: seq<Piece>)
  {
    pieces != [] ==> Writable(pieces[1..]) && PieceWritable(pieces[0], Write(pieces[1..]))
  }

  predicate PieceWritable(piece: Piece, rest: string)
  {
    piece.Dir? ==>
      && piece.name != "" && (forall c :: c in piece.name ==> IsAlpha(c)) && '{' !in piece.fmt && '}' !in piece.fmt
      && (!piece.braced ==> piece.fmt == "" && (rest != "" ==> !IsAlpha(rest[0]) && rest[0] != '{'))
  }

  /** A pattern's meaning, one mark per character of text or directive: adjacent literals do not show. */
  datatype Mark = Char(c: char) | Directed(name: string, fmt: string)

  function Chars(s: string): (r: seq<Mark>)
    ensures |r| == |s| && forall i :: 0 <= i < |s| ==> r[i] == Char(s[i])
  {
    seq(|s|, i requires 0 <= i < |s| => Char(s[i]))
  }

  function Marks(tokens: seq<Token>): seq<Mark>
  {
    if tokens == [] then [] else TokenMarks(tokens[0]) + Marks(tokens[1..])
  }

  function TokenMarks(t: Token): seq<Mark>
  {
    match t case Text(s) => Chars(s) case Conv(name, fmt) => [Directed(name, fmt)]
  }

  function Meaning(pieces: seq<Piece>): seq<Mark>
  {
    if pieces == [] then [] else PieceMeaning(pieces[0]) + Meaning(pieces[1..])
  }

  function PieceMeaning(piece: Piece): seq<Mark>
  {
    match piece case Lit(s) => Chars(s) case Dir(name, fmt, _) => [Directed(name, fmt)]
  }

  lemma Regroup<T>(a: seq<T>, b: seq<T>, c: seq<T>)
    ensures a + (b + c) == (a + b) + c
  {
  }

  lemma MarksStep(tokens: seq<Token>)
    requires tokens != []
    ensures Marks(tokens) == TokenMarks(tokens[0]) + Marks(tokens[1..])
  {
  }

  lemma NoMarks(b: seq<Token>)
    ensures Marks([] + b) == Marks([]) + Marks(b)
  {
    assert [] + b == b;
  }

  lemma {:induction false} MarksSplit(a: seq<Token>, b: seq<Token>)
    ensures Marks(a + b) == Marks(a) + Marks(b)
  {
    hide TokenMarks, Marks;
    if a == [] {
      NoMarks(b);
    } else {
      assert (a + b)[0] == a[0] && (a + b)[1..] == a[1..] + b;
      MarksStep(a);
      MarksStep(a + b);
      MarksSplit(a[1..], b);
      Regroup(TokenMarks(a[0]), Marks(a[1..]), Marks(b));
    }
  }

  lemma FlushMarks(text: string)
    ensures Marks(Flush(text)) == Chars(text)
  {
    if text != "" { assert Flush(text)[1..] == []; }
  }

  lemma TextStep(p: string, text: string)
    requires p != "" && p[0] != '%'
    ensures Scan(p, text) == Scan(p[1..], text + [p[0]]) && Scan(p, "") == Scan(p[1..], [p[0]])
    ensures Chars(text + [p[0]]) == Chars(text) + Chars([p[0]])
  {
    assert "" + [p[0]] == [p[0]];
  }

  lemma PendingAtEnd(text: string)
    ensures Marks(Scan("", text).tokens) == Chars(text) + Marks(Scan("", "").tokens)
  {
    FlushMarks(text);
    FlushMarks("");
  }

  /** Text read but not yet flushed comes first, wherever it is flushed. */
  lemma {:induction false} Pending(p: string, text: string)
    ensures Marks(Scan(p, text).tokens) == Chars(text) + Marks(Scan(p, "").tokens)
    ensures Scan(p, text).error == Scan(p, "").error
    decreases |p|
  {
    if p == "" {
      PendingAtEnd(text);
    } else if p[0] != '%' {
      hide Scan, Marks, Chars;
      TextStep(p, text);
      Pending(p[1..], text + [p[0]]);
      Pending(p[1..], [p[0]]);
      Regroup(Chars(text), Chars([p[0]]), Marks(Scan(p[1..], "").tokens));
    } else {
      hide Scan, Marks, Chars;
      FlushFirst(p, text);
    }
  }

  lemma FlushShape(p: string, text: string)
    requires p != "" && p[0] == '%'
    ensures Scan(p, text).tokens == Flush(text) + Scan(p, "").tokens && Scan(p, text).error == Scan(p, "").error
  {
    hide Marks, Chars, DirectiveOf, IsAlpha;
    assert Flush("") == [];
    hide Flush;
    if |p| > 1 && p[1] != '%' && IsAlpha(p[1]) {
      var d := DirectiveOf(p);
      Regroup(Flush(text), [d.token], Scan(p[d.used..], "").tokens);
    }
  }

  lemma FlushFirst(p: string, text: string)
    requires p != "" && p[0] == '%'
    ensures Scan(p, text).tokens == Flush(text) + Scan(p, "").tokens && Scan(p, text).error == Scan(p, "").error
    ensures Marks(Scan(p, text).tokens) == Chars(text) + Marks(Scan(p, "").tokens)
  {
    FlushShape(p, text);
    hide Scan;
    MarksSplit(Flush(text), Scan(p, "").tokens);
    FlushMarks(text);
  }

  ghost predicate Means(p: string, marks: seq<Mark>, rest: string)
  {
    Marks(Scan(p, "").tokens) == marks + Marks(Scan(rest, "").tokens) && Scan(p, "").error == Scan(rest, "").error
  }

  lemma MeansThen(p: string, marks: seq<Mark>, q: string, more: seq<Mark>, rest: string)
    requires Means(p, marks, q) && Means(q, more, rest)
    ensures Means(p, marks + more, rest)
  {
    hide Marks, Scan;
    Regroup(marks, more, Marks(Scan(rest, "").tokens));
  }

  lemma OneChar(c: char, rest: string)
    requires c != '%'
    ensures Means([c] + rest, [Char(c)], rest)
  {
    var p := [c] + rest;
    assert p[0] == c && p[1..] == rest && "" + [c] == [c];
    assert Scan(p, "") == Scan(rest, [c]);
    Pending(rest, [c]);
    assert Chars([c]) == [Char(c)];
  }

  lemma OnePercent(rest: string)
    ensures Means("%%" + rest, [Char('%')], rest)
  {
    var p := "%%" + rest;
    assert |p| > 1 && p[0] == '%' && p[1] == '%' && p[2..] == rest;
    assert Scan(p, "") == Then([], false, Scan(rest, "%"));
    assert Scan(p, "").tokens == Scan(rest, "%").tokens;
    Pending(rest, "%");
    assert Chars("%") == [Char('%')];
  }

  lemma CharMeans(c: char, rest: string)
    ensures Means(EscapeChar(c) + rest, [Char(c)], rest)
  {
    hide Means;
    if c == '%' { OnePercent(rest); } else { OneChar(c, rest); }
  }

  lemma NothingMeans(p: string)
    ensures Means("" + p, [], p)
  {
    hide Scan, Marks;
    assert "" + p == p;
  }

  lemma EscapeStep(s: string)
    requires s != ""
    ensures Escape(s) == EscapeChar(s[0]) + Escape(s[1..]) && Chars(s) == [Char(s[0])] + Chars(s[1..])
  {
    hide EscapeChar;
  }

  lemma {:induction false} LiteralMeans(s: string, rest: string)
    ensures Means(Escape(s) + rest, Chars(s), rest)
  {
    if s == "" {
      NothingMeans(rest);
      assert Chars(s) == [];
    } else {
      EscapeStep(s);
      hide *;
      var more := Escape(s[1..]) + rest;
      CharMeans(s[0], more);
      LiteralMeans(s[1..], rest);
      MeansThen(EscapeChar(s[0]) + more, [Char(s[0])], more, Chars(s[1..]), rest);
      Regroup(EscapeChar(s[0]), Escape(s[1..]), rest);
    }
  }

  lemma DirectiveMeans(p: string, name: string, fmt: string, rest: string)
    requires |p| > 1 && p[0] == '%' && IsAlpha(p[1]) && |rest| <= |p|
    requires var d := DirectiveOf(p); d == Directive(Conv(name, fmt), |p| - |rest|, false) && p[d.used..] == rest
    ensures Means(p, [Directed(name, fmt)], rest)
  {
    assert [Conv(name, fmt)][1..] == [];
    MarksSplit([Conv(name, fmt)], Scan(rest, "").tokens);
    assert Flush("") + [Conv(name, fmt)] == [Conv(name, fmt)];
  }

  lemma BracedMeans(name: string, fmt: string, rest: string)
    requires name != "" && (forall c :: c in name ==> IsAlpha(c)) && '{' !in fmt && '}' !in fmt
    ensures Means("%" + name + "{" + fmt + "}" + rest, [Directed(name, fmt)], rest)
  {
    var p := "%" + name + "{" + fmt + "}" + rest;
    var n, q := 1 + |name|, 2 + |name| + |fmt|;
    assert p[1..n] == name && p[n] == '{' && p[n + 1..q] == fmt && p[q] == '}' && p[q + 1..] == rest;
    assert forall j :: 1 <= j < n ==> p[j] == name[j - 1] && IsAlpha(p[j]);
    assert forall j :: n < j < q ==> p[j] == fmt[j - n - 1];
    assert NameEnd(p, 1) == n && LastOpen(p, n, q) == n;
    ClosedDirective(p, n, q, n);
    DirectiveMeans(p, name, fmt, rest);
  }

  lemma BareMeans(name: string, rest: string)
    requires name != "" && (forall c :: c in name ==> IsAlpha(c))
    requires rest != "" ==> !IsAlpha(rest[0]) && rest[0] != '{'
    ensures Means("%" + name + rest, [Directed(name, "")], rest)
  {
    var p := "%" + name + rest;
    var n := 1 + |name|;
    assert p[1..n] == name && p[n..] == rest;
    assert forall j :: 1 <= j < n ==> p[j] == name[j - 1] && IsAlpha(p[j]);
    PlainDirective(p, n);
    DirectiveMeans(p, name, "", rest);
  }

  lemma PieceMeans(piece: Piece, rest: string)
    requires PieceWritable(piece, rest)
    ensures Means(WritePiece(piece) + rest, PieceMeaning(piece), rest)
  {
    hide Means, Escape, Chars;
    match piece
    case Lit(s) => LiteralMeans(s, rest);
    case Dir(name, fmt, braced) =>
      if braced { BracedMeans(name, fmt, rest); } else { BareMeans(name, rest); }
  }

  lemma {:induction false} WriteMeans(pieces: seq<Piece>)
    requires Writable(pieces)
    ensures Means(Write(pieces), Meaning(pieces), "")
  {
    hide Means, WritePiece, PieceMeaning, PieceWritable;
    if pieces == [] {
      NothingMeans("");
      assert "" + "" == "";
    } else {
      var rest := Write(pieces[1..]);
      PieceMeans(pieces[0], rest);
      WriteMeans(pieces[1..]);
      MeansThen(Write(pieces), PieceMeaning(pieces[0]), rest, Meaning(pieces[1..]), "");
    }
  }

  /** The scan inverts writing: the pattern written for a list of pieces is read back without error as that
      list, up to merging adjacent literals. */
  lemma ScanRecoversPieces(pieces: seq<Piece>)
    requires Writable(pieces)
    ensures Marks(Scan(Write(pieces), "").tokens) == Meaning(pieces) && !Scan(Write(pieces), "").error
  {
    WriteMeans(pieces);
    assert Scan("", "").tokens == [];
    hide Scan, Write, Meaning;
  }

  // ---- what is printed -----------------------------------------------------------------------------------

  /** What the marks print; an unknown directive prints an error text in its place. */
  function Render(marks: seq<Mark>, render: (string, string) -> string): string
  {
    if marks == [] then "" else RenderMark(marks[0], render) + Render(marks[1..], render)
  }

  function RenderMark(m: Mark, render: (string, string) -> string): string
  {
    match m
    case Char(c) => [c]
    case Directed(name, fmt) => if IsKnown(name) then render(name, fmt) else "<<error_format  %" + name + ">>"
  }

  lemma RenderStep(marks: seq<Mark>, render: (string, string) -> string)
    requires marks != []
    ensures Render(marks, render) == RenderMark(marks[0], render) + Render(marks[1..], render)
  {
  }

  lemma RenderNone(b: seq<Mark>, render: (string, string) -> string)
    ensures Render([] + b, render) == Render([], render) + Render(b, render)
  {
    assert [] + b == b;
  }

  lemma {:induction false} RenderSplit(a: seq<Mark>, b: seq<Mark>, render: (string, string) -> string)
    ensures Render(a + b, render) == Render(a, render) + Render(b, render)
  {
    hide RenderMark, Render;
    if a == [] {
      RenderNone(b, render);
    } else {
      assert (a + b)[0] == a[0] && (a + b)[1..] == a[1..] + b;
      RenderStep(a, render);
      RenderStep(a + b, render);
      RenderSplit(a[1..], b, render);
      Regroup(RenderMark(a[0], render), Render(a[1..], render), Render(b, render));
    }
  }

  lemma {:induction false} RenderChars(s: string, render: (string, string) -> string)
    ensures Render(Chars(s), render) == s
  {
    if s != "" {
      RenderChars(s[1..], render);
      assert Chars(s)[1..] == Chars(s[1..]);
    }
  }

  /** Printing the items prints the marks: only the meaning of a pattern matters. */
  lemma {:induction false} PrintIsRender(tokens: seq<Token>, items: seq<Item>, render: (string, string) -> string)
    requires |items| == |tokens| && forall i :: 0 <= i < |items| ==> items[i] == ItemOf(tokens[i])
    ensures Print(items, render) == Render(Marks(tokens), render)
  {
    if tokens != [] {
      PrintIsRender(tokens[1..], items[1..], render);
      var first := TokenMarks(tokens[0]);
      RenderSplit(first, Marks(tokens[1..]), render);
      match tokens[0]
      case Text(s) => RenderChars(s, render);
      case Conv(name, fmt) => assert first[1..] == [];
    }
  }

  /** A formatter made from a written pattern prints exactly what its pieces say. */
  method WrittenPatternPrints(pieces: seq<Piece>, render: (string, string) -> string) returns (out: string)
    requires Writable(pieces)
    ensures out == Render(Meaning(pieces), render)
  {
    ScanRecoversPieces(pieces);
    var formatter := new LogFormatter(Write(pieces));
    out := formatter.Format(render);
    PrintIsRender(Scan(Write(pieces), "").tokens, formatter.items, render);
  }

  /** The twelve names there are, a letter each; any other one prints an error text. */
  lemma KnownNames(name: string, fmt: string)
    ensures ItemOf(Conv(name, fmt)) == FormatItem(name, fmt) <==> |name| == 1 && name[0] in "mprctndflTFN"
    ensures ItemOf(Conv(name, fmt)) == FormatItem(name, fmt) ||
            ItemOf(Conv(name, fmt)) == StringItem("<<error_format  %" + name + ">>")
    ensures IsUnknown(Conv(name, fmt)) <==> !(|name| == 1 && name[0] in "mprctndflTFN")
  {
    if |name| == 1 { assert name == [name[0]]; }
  }

  // ---- patterns that are not written right -----------------------------------------------------------------

  lemma {:induction false} PlainText(lit: string, rest: string, text: string)
    requires '%' !in lit
    ensures Scan(lit + rest, text) == Scan(rest, text + lit)
  {
    if lit == "" {
      assert lit + rest == rest && text + lit == text;
    } else {
      assert (lit + rest)[0] == lit[0] && (lit + rest)[1..] == lit[1..] + rest;
      PlainText(lit[1..], rest, text + [lit[0]]);
      assert text + [lit[0]] + lit[1..] == text + lit;
    }
  }

  /** A percent sign at the very end. */
  lemma TrailingPercent(lit: string)
    requires '%' !in lit
    ensures Scan(lit + "%", "") == Scanned(Flush(lit) + [Text("<pattern_error>")], true)
  {
    PlainText(lit, "%", "");
    assert "" + lit == lit;
  }

  /** A percent sign before what is neither a letter nor another one: an error there, and scanning goes on
      behind the percent sign. */
  lemma PercentAlone(lit: string, c: char, rest: string)
    requires '%' !in lit && c != '%' && !('a' <= c <= 'z') && !('A' <= c <= 'Z')
    ensures var tail := Scan([c] + rest, "");
      Scan(lit + ("%" + [c] + rest), "") == Scanned(Flush(lit) + [Text("<pattern_error>")] + tail.tokens, true)
  {
    var p := "%" + [c] + rest;
    PlainText(lit, p, "");
    assert "" + lit == lit && p[0] == '%' && p[1] == c && p[1..] == [c] + rest;
  }

  /** A brace that is never closed: an error, and all that follows is lost. */
  lemma NeverClosed(lit: string, name: string, rest: string)
    requires '%' !in lit && name != "" && (forall c :: c in name ==> IsAlpha(c)) && '}' !in rest
    ensures Scan(lit + ("%" + name + "{" + rest), "") == Scanned(Flush(lit) + [Text("<pattern_error>")], true)
  {
    var p, n := "%" + name + "{" + rest, 1 + |name|;
    PlainText(lit, p, "");
    assert "" + lit == lit && p[0] == '%' && p[1] == name[0] && p[n] == '{';
    assert forall j :: 1 <= j < n ==> p[j] == name[j - 1] && IsAlpha(p[j]);
    assert forall j :: n < j < |p| ==> p[j] == rest[j - n - 1];
    assert NameEnd(p, 1) == n;
    OpenDirective(p, n);
    assert p[|p|..] == "";
  }

  /** A second opening brace takes over: what stands before it counts as the name, which then is none. */
  lemma SecondBrace(name: string, mid: string, fmt: string, rest: string)
    requires name != "" && (forall c :: c in name ==> IsAlpha(c)) && '}' !in mid && '{' !in fmt && '}' !in fmt
    ensures var p := "%" + name + "{" + mid + "{" + fmt + "}" + rest;
      |p| > 1 && p[0] == '%' && IsAlpha(p[1]) &&
      DirectiveOf(p) == Directive(Conv(name + "{" + mid, fmt), |p| - |rest|, false)
    ensures IsUnknown(Conv(name + "{" + mid, fmt))
  {
    var p := "%" + name + "{" + mid + "{" + fmt + "}" + rest;
    var n, o := 1 + |name|, 2 + |name| + |mid|;
    var q := o + 1 + |fmt|;
    assert p[1..o] == name + "{" + mid && p[n] == '{' && p[o] == '{' && p[o + 1..q] == fmt && p[q] == '}';
    assert forall j :: 1 <= j < n ==> p[j] == name[j - 1] && IsAlpha(p[j]);
    assert forall j :: n < j < o ==> p[j] == mid[j - n - 1];
    assert forall j :: o < j < q ==> p[j] == fmt[j - o - 1];
    assert NameEnd(p, 1) == n && LastOpen(p, n, q) == o;
    ClosedDirective(p, n, q, o);
    KnownNames(name + "{" + mid, fmt);
  }
}
