/** The text side of the Wavefront OBJ importer: how a file is cut into
    lines, how a line is trimmed and tokenised, how `atoi` reads an index,
    how a face reference `p`, `p/t`, `p//n` or `p/t/n` is split, and which
    statements a sequence of lines amounts to. */
module ObjFormat {
  import opened Wrappers
  import opened Geometry

  /** The characters `trim_string` removes. */
  predicate IsTrimSpace(c: char)
  {
    c == ' ' || c == '\t' || c == '\n' || c == '\r'
  }

  /** `isspace` in the "C" locale: what `>>` and `atoi` skip. */
  predicate IsSpace(c: char)
  {
    IsTrimSpace(c) || c == '\U{000B}' || c == '\U{000C}'
  }

  predicate IsDigit(c: char) { '0' <= c <= '9' }

  // ---------------------------------------------------------------- find

  /** `std::string::find(c, from)`; `None` stands for `npos`. */
  function Find(s: string, c: char, from: nat): (r: Option<nat>)
    ensures r.Some? ==> from <= r.value < |s| && s[r.value] == c
    ensures r.Some? ==> forall j :: from <= j < r.value ==> s[j] != c
    ensures r.None? ==> forall j :: from <= j < |s| ==> s[j] != c
    decreases |s| - from
  {
    if from >= |s| then None
    else if s[from] == c then Some(from)
    else Find(s, c, from + 1)
  }

  /** `k` is where `find` stops when it is the first `c` from `from` on. */
  lemma FindAt(s: string, c: char, from: nat, k: nat)
    requires from <= k < |s| && s[k] == c
    requires forall j :: from <= j < k ==> s[j] != c
    ensures Find(s, c, from) == Some(k)
  {
    var r := Find(s, c, from);
  }

  /** With no `c` from `from` on, `find` gives `npos`. */
  lemma {:induction false} FindAbsent(s: string, c: char, from: nat)
    requires forall j :: from <= j < |s| ==> s[j] != c
    ensures Find(s, c, from) == None
    decreases |s| - from
  {
    if from < |s| {
      FindAbsent(s, c, from + 1);
    }
  }

  // ---------------------------------------------------------------- lines

  /** The lines the `getline` / `eof` loop processes: every line that is
      terminated by a newline.  A last line without one is read, but the
      loop stops before processing it. */
  function CompleteLines(text: string): (lines: seq<string>)
    decreases |text|
  {
    match Find(text, '\n', 0)
    case None => []
    case Some(k) => [text[..k]] + CompleteLines(text[k + 1..])
  }

  /** What follows the last newline: read by `getline` but never processed. */
  function UnterminatedTail(text: string): (tail: string)
    ensures '\n' !in tail
    decreases |text|
  {
    match Find(text, '\n', 0)
    case None => text
    case Some(k) => UnterminatedTail(text[k + 1..])
  }

  /** The processed lines, each with its newline, followed by the
      unterminated tail, make up the whole text. */
  lemma {:induction false} CompleteLinesCover(text: string)
    ensures text == Join(CompleteLines(text)) + UnterminatedTail(text)
    decreases |text|
  {
    match Find(text, '\n', 0)
    case None =>
      assert CompleteLines(text) == [] && UnterminatedTail(text) == text;
      assert Join([]) == "";
    case Some(k) =>
      var lines, tail := CompleteLines(text[k + 1..]), UnterminatedTail(text[k + 1..]);
      assert CompleteLines(text) == [text[..k]] + lines;
      assert UnterminatedTail(text) == tail;
      CompleteLinesCover(text[k + 1..]);
      CoverStep(text, k, lines, tail);
  }

  lemma CoverStep(text: string, k: nat, lines: seq<string>, tail: string)
    requires k < |text| && text[k] == '\n'
    requires text[k + 1..] == Join(lines) + tail
    ensures text == Join([text[..k]] + lines) + tail
  {
    JoinCons(text[..k], lines);
    assert text == text[..k] + "\n" + text[k + 1..];
  }

  /** Each line followed by a newline. */
  function Join(lines: seq<string>): string
  {
    if |lines| == 0 then "" else lines[0] + "\n" + Join(lines[1..])
  }

  lemma JoinCons(line: string, lines: seq<string>)
    ensures Join([line] + lines) == line + "\n" + Join(lines)
  {
    assert ([line] + lines)[1..] == lines;
  }

  // ---------------------------------------------------------------- trim_string

  /** Removing the leading characters of `trim_string`'s set. */
  function TrimLeft(s: string): string
    decreases |s|
  {
    if |s| > 0 && IsTrimSpace(s[0]) then TrimLeft(s[1..]) else s
  }

  /** Removing the trailing characters of `trim_string`'s set. */
  function TrimRight(s: string): string
    decreases |s|
  {
    if |s| > 0 && IsTrimSpace(s[|s| - 1]) then TrimRight(s[..|s| - 1]) else s
  }

  /** `TrimLeft` removes a prefix of trim characters and nothing more. */
  lemma {:induction false} TrimLeftSpec(s: string)
    ensures |TrimLeft(s)| <= |s| && TrimLeft(s) == s[|s| - |TrimLeft(s)|..]
    ensures forall i :: 0 <= i < |s| - |TrimLeft(s)| ==> IsTrimSpace(s[i])
    ensures |TrimLeft(s)| == 0 || !IsTrimSpace(TrimLeft(s)[0])
    decreases |s|
  {
    if |s| > 0 && IsTrimSpace(s[0]) {
      TrimLeftSpec(s[1..]);
    }
  }

  /** `TrimRight` removes a suffix of trim characters and nothing more. */
  lemma {:induction false} TrimRightSpec(s: string)
    ensures |TrimRight(s)| <= |s| && TrimRight(s) == s[..|TrimRight(s)|]
    ensures forall i :: |TrimRight(s)| <= i < |s| ==> IsTrimSpace(s[i])
    ensures |TrimRight(s)| == 0 || !IsTrimSpace(TrimRight(s)[|TrimRight(s)| - 1])
    decreases |s|
  {
    if |s| > 0 && IsTrimSpace(s[|s| - 1]) {
      TrimRightSpec(s[..|s| - 1]);
    }
  }

  /** What `trim_string` leaves of `s`. */
  function Trimmed(s: string): string
  {
    TrimRight(TrimLeft(s))
  }

  /** `trim_string` keeps a contiguous part of `s` that neither starts nor
      ends with a trim character, and removes only trim characters around it. */
  lemma TrimmedSpec(s: string)
    ensures exists lo: nat, hi: nat ::
              (lo <= hi <= |s| && Trimmed(s) == s[lo..hi] &&
               (forall i :: 0 <= i < lo ==> IsTrimSpace(s[i])) &&
               (forall i :: hi <= i < |s| ==> IsTrimSpace(s[i])))
    ensures |Trimmed(s)| == 0 || (!IsTrimSpace(Trimmed(s)[0]) && !IsTrimSpace(Trimmed(s)[|Trimmed(s)| - 1]))
  {
    var l := TrimLeft(s);
    TrimLeftSpec(s);
    TrimRightSpec(l);
    var lo := |s| - |l|;
    var hi := lo + |Trimmed(s)|;
    assert Trimmed(s) == s[lo..hi];
    forall i | hi <= i < |s| ensures IsTrimSpace(s[i]) {
      assert s[i] == l[i - lo];
    }
  }

  /** A string that neither starts nor ends with a trim character is its
      own trimming. */
  lemma TrimFixedPoint(s: string)
    requires |s| == 0 || (!IsTrimSpace(s[0]) && !IsTrimSpace(s[|s| - 1]))
    ensures Trimmed(s) == s
  {
  }

  /** Trimming twice is trimming once. */
  lemma TrimmedIdempotent(s: string)
    ensures Trimmed(Trimmed(s)) == Trimmed(s)
  {
    TrimmedSpec(s);
    TrimFixedPoint(Trimmed(s));
  }

  /** Trimming leaves nothing exactly when every character is a trim character. */
  lemma TrimmedEmptyIff(s: string)
    ensures Trimmed(s) == "" <==> forall i :: 0 <= i < |s| ==> IsTrimSpace(s[i])
  {
    var l := TrimLeft(s);
    TrimLeftSpec(s);
    TrimRightSpec(l);
    if forall i :: 0 <= i < |s| ==> IsTrimSpace(s[i]) {
      assert |l| == 0;
    }
    if Trimmed(s) == "" {
      assert |l| == 0;
    }
  }

  // Steps of an in-place trimming loop over a cursor.

  lemma TrimLeftSkip(s: string, i: nat)
    requires i < |s| && IsTrimSpace(s[i])
    ensures TrimLeft(s[i..]) == TrimLeft(s[i + 1..])
  {
    assert s[i..][1..] == s[i + 1..];
  }

  lemma TrimLeftStops(s: string, i: nat)
    requires i <= |s| && (i == |s| || !IsTrimSpace(s[i]))
    ensures TrimLeft(s[i..]) == s[i..]
  {
  }

  lemma TrimRightSkip(t: string, last: nat)
    requires 0 < last <= |t| && IsTrimSpace(t[last - 1])
    ensures TrimRight(t[..last]) == TrimRight(t[..last - 1])
  {
    assert t[..last][..last - 1] == t[..last - 1];
  }

  lemma TrimRightStops(t: string, last: nat)
    requires last <= |t| && (last == 0 || !IsTrimSpace(t[last - 1]))
    ensures TrimRight(t[..last]) == t[..last]
  {
  }

  // ---------------------------------------------------------------- words

  /** Leading `isspace` characters removed. */
  function SkipSpaces(s: string): (r: string)
    ensures |r| <= |s|
    ensures |r| == 0 || !IsSpace(r[0])
    decreases |s|
  {
    if |s| > 0 && IsSpace(s[0]) then SkipSpaces(s[1..]) else s
  }

  /** `SkipSpaces` drops a prefix made of spaces only. */
  lemma {:induction false} SkipSpacesDropsSpaces(s: string)
    ensures SkipSpaces(s) == s[|s| - |SkipSpaces(s)|..]
    ensures forall i :: 0 <= i < |s| - |SkipSpaces(s)| ==> IsSpace(s[i])
    decreases |s|
  {
    if |s| > 0 && IsSpace(s[0]) {
      SkipSpacesDropsSpaces(s[1..]);
    }
  }

  /** The longest prefix without `isspace` characters. */
  function WordPrefix(s: string): (w: string)
    ensures |w| <= |s|
    ensures |s| > 0 && !IsSpace(s[0]) ==> |w| > 0
    decreases |s|
  {
    if |s| > 0 && !IsSpace(s[0]) then [s[0]] + WordPrefix(s[1..]) else []
  }

  /** `stream >> word` on the input `s`: the word read ("" when the input
      holds only spaces) and the input left after it. */
  function ReadWord(s: string): (r: (string, string))
    ensures |r.1| <= |s|
    ensures |r.0| == 0 <==> |SkipSpaces(s)| == 0
    ensures |r.0| > 0 ==> |r.1| < |s|
  {
    var t := SkipSpaces(s);
    var w := WordPrefix(t);
    (w, t[|w|..])
  }

  /** All whitespace-separated words of `s`, in order. */
  function Words(s: string): (ws: seq<string>)
    decreases |s|
  {
    var r := ReadWord(s);
    if |r.0| == 0 then [] else [r.0] + Words(r.1)
  }

  /** The tokens the face loop `while (line_stream.good()) line_stream >> tok`
      reads from what follows the `f` keyword.  The loop runs while the
      stream has not reached its end, so input that ends in spaces the
      trimming kept (vertical tab, form feed) yields a final empty token. */
  function FaceTokens(s: string): seq<string>
    decreases |s|
  {
    if |s| == 0 then []
    else
      var t := SkipSpaces(s);
      if |t| == 0 then [""]
      else
        var w := WordPrefix(t);
        [w] + FaceTokens(t[|w|..])
  }

  /** With no space at the end, the face loop reads exactly the words. */
  lemma {:induction false} FaceTokensAreWords(s: string)
    requires |s| == 0 || !IsSpace(s[|s| - 1])
    ensures FaceTokens(s) == Words(s)
    decreases |s|
  {
    if |s| > 0 {
      var t := SkipSpaces(s);
      SkipSpacesDropsSpaces(s);
      assert t[|t| - 1] == s[|s| - 1];
      var w := WordPrefix(t);
      var rest := t[|w|..];
      assert |rest| == 0 || rest[|rest| - 1] == s[|s| - 1];
      FaceTokensAreWords(rest);
    }
  }

  // ---------------------------------------------------------------- atoi

  /** The longest prefix of decimal digits. */
  function LeadingDigits(s: string): (d: string)
    ensures |d| <= |s|
    ensures forall i :: 0 <= i < |d| ==> IsDigit(d[i])
    decreases |s|
  {
    if |s| > 0 && IsDigit(s[0]) then [s[0]] + LeadingDigits(s[1..]) else []
  }

  /** The value of a string of decimal digits. */
  function DigitsValue(d: string): nat
    requires forall i :: 0 <= i < |d| ==> IsDigit(d[i])
  {
    if |d| == 0 then 0
    else
      var last := d[|d| - 1];
      assert IsDigit(last);
      DigitsValue(d[..|d| - 1]) * 10 + (last as int - '0' as int)
  }

  /** `atoi`: skip spaces, read an optional sign, then as many digits as
      follow; no digits reads as 0.  (Overflow, undefined in C, is not
      modelled: the value is unbounded.) */
  function Atoi(s: string): int
  {
    var r := SkipSpaces(s);
    if |r| > 0 && r[0] == '-' then -(DigitsValue(LeadingDigits(r[1..])) as int)
    else if |r| > 0 && r[0] == '+' then DigitsValue(LeadingDigits(r[1..]))
    else DigitsValue(LeadingDigits(r))
  }

  /** A character at which `atoi` stops reading, wherever it stands. */
  predicate StopsAtoi(c: char)
  {
    !IsSpace(c) && !IsDigit(c) && c != '-' && c != '+'
  }

  lemma {:induction false} SkipSpacesAppend(p: string, q: string)
    requires |q| > 0 && !IsSpace(q[0])
    ensures SkipSpaces(p + q) == SkipSpaces(p) + q
    decreases |p|
  {
    if |p| > 0 && IsSpace(p[0]) {
      assert (p + q)[1..] == p[1..] + q;
      SkipSpacesAppend(p[1..], q);
    } else if |p| == 0 {
      assert p + q == q;
    }
  }

  lemma {:induction false} LeadingDigitsAppend(p: string, q: string)
    requires |q| > 0 && !IsDigit(q[0])
    ensures LeadingDigits(p + q) == LeadingDigits(p)
    decreases |p|
  {
    if |p| > 0 && IsDigit(p[0]) {
      assert (p + q)[1..] == p[1..] + q;
      LeadingDigitsAppend(p[1..], q);
    } else if |p| == 0 {
      assert p + q == q;
    }
  }

  /** `atoi` reads nothing past a character that stops it: appending text
      that starts with such a character does not change the value. */
  lemma AtoiIgnoresTail(p: string, q: string)
    requires |q| > 0 && StopsAtoi(q[0])
    ensures Atoi(p + q) == Atoi(p)
  {
    SkipSpacesAppend(p, q);
    var r := SkipSpaces(p);
    if |r| > 0 {
      assert (r + q)[0] == r[0];
      assert (r + q)[1..] == r[1..] + q;
      LeadingDigitsAppend(r[1..], q);
      LeadingDigitsAppend(r, q);
    } else {
      assert r + q == q;
      LeadingDigitsAppend(r, q);
    }
  }

  // ---------------------------------------------------------------- face references

  /** One vertex reference of a face: position, texture-coordinate and
      normal indices as read (1-based; -1 where absent). */
  datatype FaceRef = FaceRef(p: int, t: int, n: int)

  function Min(a: int, b: int): int { if a < b then a else b }

  /** `std::string::substr(pos, count)` with `pos <= |s|`; a `None` count is `npos`. */
  function Substr(s: string, pos: nat, count: Option<nat>): string
    requires pos <= |s|
  {
    match count
    case None => s[pos..]
    case Some(c) => s[pos..Min(pos + c, |s|)]
  }

  /** The splitting of one face token, as the importer does it: the
      position index is `atoi` of the part before the first '/'; the
      texture index is read when a second '/' is absent or not directly
      after the first, taking `substr(slash1 + 1, slash2)`; the normal index
      is `atoi` of `substr(slash2 + 1)`, which for a missing second '/'
      (`npos + 1 == 0`) is the whole token. */
  function ParseFaceRef(tok: string): FaceRef
  {
    match Find(tok, '/', 0)
    case None => FaceRef(Atoi(tok), -1, -1)
    case Some(slash1) => SplitFaceRef(tok, slash1, Find(tok, '/', slash1 + 1))
  }

  /** The indices of a token whose first '/' is at `slash1` and whose
      second, if any, is at `slash2`. */
  function SplitFaceRef(tok: string, slash1: nat, slash2: Option<nat>): FaceRef
    requires slash1 < |tok| && (slash2.Some? ==> slash1 < slash2.value < |tok|)
  {
    var p := Atoi(tok[..slash1]);
    var t := if slash2.None? || slash2.value > slash1 + 1
             then Atoi(Substr(tok, slash1 + 1, slash2)) else -1;
    var n := if slash2.None? then Atoi(tok) else Atoi(Substr(tok, slash2.value + 1, Some(|tok|)));
    FaceRef(p, t, n)
  }

  /** A reference without '/' gives only the position index. */
  lemma FaceRefPositionOnly(a: string)
    requires '/' !in a
    ensures ParseFaceRef(a) == FaceRef(Atoi(a), -1, -1)
  {
  }

  /** How a token with two '/' is split. */
  lemma ParseTwoSlashes(tok: string, s1: nat, s2: nat)
    requires s1 < s2 < |tok| && Find(tok, '/', 0) == Some(s1) && Find(tok, '/', s1 + 1) == Some(s2)
    ensures ParseFaceRef(tok) ==
      FaceRef(Atoi(tok[..s1]),
              if s2 > s1 + 1 then Atoi(Substr(tok, s1 + 1, Some(s2))) else -1,
              Atoi(Substr(tok, s2 + 1, Some(|tok|))))
  {
    SplitTwoSlashes(tok, s1, s2);
  }

  /** The split at two known '/' positions. */
  lemma SplitTwoSlashes(tok: string, s1: nat, s2: nat)
    requires s1 < s2 < |tok|
    ensures SplitFaceRef(tok, s1, Some(s2)) ==
      FaceRef(Atoi(tok[..s1]),
              if s2 > s1 + 1 then Atoi(Substr(tok, s1 + 1, Some(s2))) else -1,
              Atoi(Substr(tok, s2 + 1, Some(|tok|))))
  {
  }

  /** How a token with a single '/' is split. */
  lemma ParseOneSlash(tok: string, s1: nat)
    requires s1 < |tok| && Find(tok, '/', 0) == Some(s1) && Find(tok, '/', s1 + 1) == None
    ensures ParseFaceRef(tok) == FaceRef(Atoi(tok[..s1]), Atoi(tok[s1 + 1..]), Atoi(tok))
  {
  }

  /** No '/' in `a`: the first '/' of `a + q` is the first '/' of `q`, shifted. */
  lemma SlashAfter(a: string, q: string, from: nat)
    requires '/' !in a && |q| > 0 && q[0] == '/' && from <= |a|
    ensures Find(a + q, '/', from) == Some(|a|)
  {
    var tok := a + q;
    forall j | from <= j < |a| ensures tok[j] != '/' { assert tok[j] == a[j]; }
    FindAt(tok, '/', from, |a|);
  }

  /** Where the two '/' of `p/t/n` are. */
  lemma FullSlashes(a: string, b: string, c: string)
    requires '/' !in a && '/' !in b
    ensures Find(a + "/" + b + "/" + c, '/', 0) == Some(|a|)
    ensures Find(a + "/" + b + "/" + c, '/', |a| + 1) == Some(|a| + 1 + |b|)
  {
    var tok := a + "/" + b + "/" + c;
    SlashAfter(a, "/" + b + "/" + c, 0);
    assert tok == a + ("/" + b + "/" + c);
    var s1, s2 := |a|, |a| + 1 + |b|;
    assert tok[s2] == '/';
    forall j | s1 + 1 <= j < s2 ensures tok[j] != '/' { assert tok[j] == b[j - s1 - 1]; }
    FindAt(tok, '/', s1 + 1, s2);
  }

  /** The texture part `substr(slash1 + 1, slash2)` of `p/t/n` reads as `t`. */
  lemma FullMiddle(a: string, b: string, c: string)
    requires '/' !in b && |b| > 0
    ensures Atoi(Substr(a + "/" + b + "/" + c, |a| + 1, Some(|a| + 1 + |b|))) == Atoi(b)
  {
    var tok := a + "/" + b + "/" + c;
    var mid := Substr(tok, |a| + 1, Some(|a| + 1 + |b|));
    assert mid == tok[|a| + 1..Min(|a| + 1 + |a| + 1 + |b|, |tok|)];
    assert mid == b + mid[|b|..] && mid[|b|] == '/';
    AtoiIgnoresTail(b, mid[|b|..]);
  }

  /** `p/t/n` gives the three indices. */
  lemma FaceRefFull(a: string, b: string, c: string)
    requires '/' !in a && '/' !in b && '/' !in c && |b| > 0
    ensures ParseFaceRef(a + "/" + b + "/" + c) == FaceRef(Atoi(a), Atoi(b), Atoi(c))
  {
    var tok := a + "/" + b + "/" + c;
    var s1, s2 := |a|, |a| + 1 + |b|;
    FullSlashes(a, b, c);
    ParseTwoSlashes(tok, s1, s2);
    FullMiddle(a, b, c);
    assert tok[..s1] == a;
    assert Substr(tok, s2 + 1, Some(|tok|)) == c;
  }

  /** `p//n` gives no texture index. */
  lemma FaceRefNoTexture(a: string, c: string)
    requires '/' !in a && '/' !in c
    ensures ParseFaceRef(a + "//" + c) == FaceRef(Atoi(a), -1, Atoi(c))
  {
    var tok := a + "//" + c;
    var s1 := |a|;
    SlashAfter(a, "//" + c, 0);
    assert tok == a + ("//" + c);
    assert tok[s1 + 1] == '/';
    FindAt(tok, '/', s1 + 1, s1 + 1);
    ParseTwoSlashes(tok, s1, s1 + 1);
    assert tok[..s1] == a;
    assert Substr(tok, s1 + 2, Some(|tok|)) == c;
  }

  /** `p/t` (no second '/') repeats the position index as the normal
      index, because the whole token is read again by `atoi`. */
  lemma FaceRefNoNormal(a: string, b: string)
    requires '/' !in a && '/' !in b
    ensures ParseFaceRef(a + "/" + b) == FaceRef(Atoi(a), Atoi(b), Atoi(a))
  {
    var tok := a + "/" + b;
    var s1 := |a|;
    SlashAfter(a, "/" + b, 0);
    assert tok == a + ("/" + b);
    forall j | s1 + 1 <= j < |tok| ensures tok[j] != '/' { assert tok[j] == b[j - s1 - 1]; }
    FindAbsent(tok, '/', s1 + 1);
    ParseOneSlash(tok, s1);
    assert tok[..s1] == a;
    assert tok[s1 + 1..] == b;
    AtoiIgnoresTail(a, "/" + b);
  }

  /** The references the importer keeps from a face: those whose position
      index is not -1 (the others are reported and dropped). */
  function AcceptedRefs(tokens: seq<string>): (refs: seq<FaceRef>)
    ensures |refs| <= |tokens|
    ensures forall i :: 0 <= i < |refs| ==> refs[i].p != -1
  {
    if |tokens| == 0 then []
    else
      var r := ParseFaceRef(tokens[0]);
      (if r.p == -1 then [] else [r]) + AcceptedRefs(tokens[1..])
  }

  lemma AcceptedRefsCons(tok: string, toks: seq<string>)
    ensures AcceptedRefs([tok] + toks) ==
      (if ParseFaceRef(tok).p == -1 then [] else [ParseFaceRef(tok)]) + AcceptedRefs(toks)
  {
    assert ([tok] + toks)[1..] == toks;
  }

  // ---------------------------------------------------------------- statements

  /** What one OBJ line amounts to. */
  datatype Statement =
    | PositionLine(v: Vec3)        // "v x y z"
    | TexCoordLine(uv: Vec2)       // "vt s t"
    | NormalLine(n: Vec3)          // "vn x y z"
    | FaceLine(refs: seq<FaceRef>) // "f r1 r2 ...", the accepted references
    | Ignored                      // empty, comment or any other keyword

  /** The i-th number after the keyword, read with the number-conversion
      oracle `num`; a missing number is `num("")`. */
  function NumberAt(words: seq<string>, i: nat, num: string -> real): real
  {
    if i < |words| then num(words[i]) else num("")
  }

  /** The keyword in `token` after a trimmed line, given the one it held
      before.  `token` lives across lines: an empty or comment line does
      not read it, and a line made only of vertical tabs and form feeds
      (which the trimming keeps) fails the read, leaving it unchanged. */
  function LineKeyword(line: string, prev: string): string
  {
    if |line| == 0 || line[0] == '#' then prev
    else
      var word := ReadWord(line).0;
      if |word| == 0 then prev else word
  }

  /** The keyword in `token` when line n is read, after the lines before
      it, each trimmed; empty before the first line. */
  function KeywordBefore(lines: seq<string>, n: nat): string
    requires n <= |lines|
  {
    if n == 0 then "" else LineKeyword(Trimmed(lines[n - 1]), KeywordBefore(lines, n - 1))
  }

  /** The statement of a trimmed line, read while `token` holds `prev`.
      When the keyword read fails the stream is left failed, so no number
      and no face reference follows: the numbers are `num("")` and the
      face loop does not run. */
  function ParseStatement(line: string, prev: string, num: string -> real): (r: Statement)
    ensures r.FaceLine? ==> forall j :: 0 <= j < |r.refs| ==> r.refs[j].p != -1
  {
    if |line| == 0 || line[0] == '#' then Ignored
    else
      var (word, rest) := ReadWord(line);
      var failed := |word| == 0;
      var keyword := if failed then prev else word;
      var words := if failed then [] else Words(rest);
      if keyword == "v" then
        PositionLine(Vec3(NumberAt(words, 0, num), NumberAt(words, 1, num), NumberAt(words, 2, num)))
      else if keyword == "vt" then
        TexCoordLine(Vec2(NumberAt(words, 0, num), NumberAt(words, 1, num)))
      else if keyword == "vn" then
        NormalLine(Vec3(NumberAt(words, 0, num), NumberAt(words, 1, num), NumberAt(words, 2, num)))
      else if keyword == "f" then
        FaceLine(if failed then [] else AcceptedRefs(FaceTokens(rest)))
      else Ignored
  }

  /** A string of whitespace only has no word. */
  lemma {:induction false} NoWordInSpaces(s: string)
    requires forall i :: 0 <= i < |s| ==> IsSpace(s[i])
    ensures ReadWord(s).0 == ""
  {
    SkipSpacesDropsSpaces(s);
  }

  /** A processed line of vertical tabs and form feeds repeats the
      statement kind of the last keyword, with no numbers read and no face
      reference: after a `v` line it adds one more position. */
  lemma BlankLineRepeatsKeyword(line: string, prev: string, num: string -> real)
    requires |line| > 0 && forall i :: 0 <= i < |line| ==> IsSpace(line[i])
    ensures LineKeyword(line, prev) == prev
    ensures prev == "v" ==> ParseStatement(line, prev, num) == PositionLine(Vec3(num(""), num(""), num("")))
    ensures prev == "vt" ==> ParseStatement(line, prev, num) == TexCoordLine(Vec2(num(""), num("")))
    ensures prev == "vn" ==> ParseStatement(line, prev, num) == NormalLine(Vec3(num(""), num(""), num("")))
    ensures prev == "f" ==> ParseStatement(line, prev, num) == FaceLine([])
    ensures prev !in {"v", "vt", "vn", "f"} ==> ParseStatement(line, prev, num) == Ignored
  {
    NoWordInSpaces(line);
  }

  /** The statements of the lines the importer processes, each line
      trimmed first and read with the keyword the lines before it left. */
  function Statements(text: string, num: string -> real): (stmts: seq<Statement>)
    ensures |stmts| == |CompleteLines(text)|
  {
    var lines := CompleteLines(text);
    seq(|lines|, i requires 0 <= i < |lines| => ParseStatement(Trimmed(lines[i]), KeywordBefore(lines, i), num))
  }

  /** A line and its newline are the first processed line. */
  lemma LinesCons(l: string, r: string)
    requires '\n' !in l
    ensures CompleteLines(l + "\n" + r) == [l] + CompleteLines(r)
  {
    var text := l + "\n" + r;
    forall j | 0 <= j < |l| ensures text[j] != '\n' { assert text[j] == l[j]; }
    FindAt(text, '\n', 0, |l|);
    assert text[..|l|] == l && text[|l| + 1..] == r;
  }

  /** A file of a bare `v` line and a vertical-tab line gives two
      positions: the second line repeats the `v` kept in `token`. */
  lemma BlankLineAfterPosition(num: string -> real)
    ensures Statements("v\n\U{000B}\n", num) ==
      [PositionLine(Vec3(num(""), num(""), num(""))), PositionLine(Vec3(num(""), num(""), num("")))]
  {
    var l0, l1 := "v", "\U{000B}";
    assert "v\n\U{000B}\n" == l0 + "\n" + (l1 + "\n" + "");
    LinesCons(l1, "");
    LinesCons(l0, l1 + "\n" + "");
    var lines := CompleteLines("v\n\U{000B}\n");
    assert lines == [l0, l1];
    TrimFixedPoint(l0);
    TrimFixedPoint(l1);
    assert SkipSpaces(l0) == l0 && l0[1..] == "";
    assert WordPrefix("") == [];
    assert WordPrefix(l0) == ['v'] + WordPrefix(l0[1..]) == l0;
    assert ReadWord(l0) == ("v", "");
    assert KeywordBefore(lines, 1) == "v";
    BlankLineRepeatsKeyword(l1, "v", num);
  }

  /** The importer rejects a face with more than three accepted references. */
  predicate Unsupported(s: Statement)
  {
    s.FaceLine? && |s.refs| > 3
  }

  /** The data gathered from the statements before the face expansion. */
  datatype ObjData = ObjData(positions: seq<Vec3>, uvs: seq<Vec2>, normals: seq<Vec3>, refs: seq<FaceRef>)

  const EmptyObj: ObjData := ObjData([], [], [], [])

  /** The effect of one statement; `None` aborts the import. */
  function Apply(d: ObjData, s: Statement): Option<ObjData>
  {
    match s
    case PositionLine(v) => Some(d.(positions := d.positions + [v]))
    case TexCoordLine(uv) => Some(d.(uvs := d.uvs + [uv]))
    case NormalLine(n) => Some(d.(normals := d.normals + [n]))
    case FaceLine(refs) => if |refs| > 3 then None else Some(d.(refs := d.refs + refs))
    case Ignored => Some(d)
  }

  /** The statements processed in order; `None` once one aborts. */
  function Accumulate(stmts: seq<Statement>): Option<ObjData>
  {
    if |stmts| == 0 then Some(EmptyObj)
    else match Accumulate(stmts[..|stmts| - 1])
      case None => None
      case Some(d) => Apply(d, stmts[|stmts| - 1])
  }

  /** One more statement processed. */
  lemma AccumulateNext(stmts: seq<Statement>, i: nat)
    requires i < |stmts|
    ensures Accumulate(stmts[..i + 1]) ==
      match Accumulate(stmts[..i])
      case None => None
      case Some(d) => Apply(d, stmts[i])
  {
    assert stmts[..i + 1][..i] == stmts[..i];
  }

  /** One more line read by the statement loop: its statement is parsed
      with the keyword the earlier lines left, and it leaves the keyword
      for the next line. */
  lemma StatementStep(text: string, num: string -> real, i: nat, d: ObjData)
    requires i < |CompleteLines(text)|
    requires Accumulate(Statements(text, num)[..i]) == Some(d)
    ensures Statements(text, num)[i] ==
      ParseStatement(Trimmed(CompleteLines(text)[i]), KeywordBefore(CompleteLines(text), i), num)
    ensures Accumulate(Statements(text, num)[..i + 1]) == Apply(d, Statements(text, num)[i])
    ensures KeywordBefore(CompleteLines(text), i + 1) ==
      LineKeyword(Trimmed(CompleteLines(text)[i]), KeywordBefore(CompleteLines(text), i))
  {
    AccumulateNext(Statements(text, num), i);
  }

  // Reference definitions: each kind of statement collected on its own.
  function PositionsOf(stmts: seq<Statement>): seq<Vec3>
  {
    if |stmts| == 0 then []
    else PositionsOf(stmts[..|stmts| - 1]) + (if stmts[|stmts| - 1].PositionLine? then [stmts[|stmts| - 1].v] else [])
  }

  function UvsOf(stmts: seq<Statement>): seq<Vec2>
  {
    if |stmts| == 0 then []
    else UvsOf(stmts[..|stmts| - 1]) + (if stmts[|stmts| - 1].TexCoordLine? then [stmts[|stmts| - 1].uv] else [])
  }

  function NormalsOf(stmts: seq<Statement>): seq<Vec3>
  {
    if |stmts| == 0 then []
    else NormalsOf(stmts[..|stmts| - 1]) + (if stmts[|stmts| - 1].NormalLine? then [stmts[|stmts| - 1].n] else [])
  }

  function RefsOf(stmts: seq<Statement>): seq<FaceRef>
  {
    if |stmts| == 0 then []
    else RefsOf(stmts[..|stmts| - 1]) + (if stmts[|stmts| - 1].FaceLine? then stmts[|stmts| - 1].refs else [])
  }

  /** The import aborts exactly when some face has more than three accepted
      references; otherwise it collects every position, texture coordinate,
      normal and face reference in file order. */
  lemma {:induction false} AccumulateSpec(stmts: seq<Statement>)
    ensures Accumulate(stmts).None? <==> exists i :: 0 <= i < |stmts| && Unsupported(stmts[i])
    ensures Accumulate(stmts).Some? ==>
      Accumulate(stmts).value == ObjData(PositionsOf(stmts), UvsOf(stmts), NormalsOf(stmts), RefsOf(stmts))
  {
    if |stmts| > 0 {
      var init := stmts[..|stmts| - 1];
      AccumulateSpec(init);
      assert forall i :: 0 <= i < |init| ==> init[i] == stmts[i];
      if exists i :: 0 <= i < |stmts| && Unsupported(stmts[i]) {
        var i :| 0 <= i < |stmts| && Unsupported(stmts[i]);
        if i < |init| { assert Unsupported(init[i]); }
      }
    }
  }

  /** A face the importer rejects aborts the whole import. */
  lemma AbortIsFinal(stmts: seq<Statement>, i: nat)
    requires i < |stmts| && Unsupported(stmts[i])
    ensures Accumulate(stmts) == None
  {
    AccumulateSpec(stmts);
  }

  /** The repeated keyword reaches the gathered data: the text `v`, a line
      holding only a vertical tab, gives two positions. */
  lemma BlankLineTwoPositions(num: string -> real)
    ensures Accumulate(Statements("v\n\U{000B}\n", num)) ==
      Some(ObjData([Vec3(num(""), num(""), num("")), Vec3(num(""), num(""), num(""))], [], [], []))
  {
    BlankLineAfterPosition(num);
    var q := Vec3(num(""), num(""), num(""));
    var stmts := [PositionLine(q), PositionLine(q)];
    var first := stmts[..1];
    assert first[..0] == [] && first[0] == PositionLine(q);
    assert EmptyObj.positions + [q] == [q];
    assert Accumulate(first) == Some(ObjData([q], [], [], []));
    assert first == stmts[..|stmts| - 1];
    assert [q] + [q] == [q, q];
  }

  /** Every collected face reference has a position index other than -1. */
  lemma {:induction false} RefsHavePositions(stmts: seq<Statement>)
    requires forall i :: 0 <= i < |stmts| ==> stmts[i].FaceLine? ==> forall j :: 0 <= j < |stmts[i].refs| ==> stmts[i].refs[j].p != -1
    ensures forall j :: 0 <= j < |RefsOf(stmts)| ==> RefsOf(stmts)[j].p != -1
  {
    if |stmts| > 0 {
      RefsHavePositions(stmts[..|stmts| - 1]);
    }
  }
}
