/**
 * The JavaScript values and record shapes that flow between the services of
 * the document pipeline, and the string primitives (`trim`, `\s+` collapsing,
 * `includes`, number-to-text) the services apply to them.
 */
module Values {

  datatype Option<+T> = None | Some(value: T)

  datatype Result<+T, +E> = Ok(value: T) | Err(error: E)

  /**
   * A JavaScript value as the services see it.  Arrays and objects that the
   * core only carries along are opaque; they keep the text `String(v)` gives.
   */
  datatype Value =
    | Undefined
    | Null
    | Bool(b: bool)
    | Num(n: real)
    | NaN
    | Str(s: string)
    | Composite(text: string)

  /** JavaScript truthiness (`if (v)`, `!v`, `a || b`). */
  predicate Truthy(v: Value)
  {
    match v
    case Undefined => false
    case Null => false
    case Bool(b) => b
    case Num(n) => n != 0.0
    case NaN => false
    case Str(s) => s != ""
    case Composite(_) => true
  }

  /** `typeof v === 'number'` */
  predicate IsNumber(v: Value)
  {
    v.Num? || v.NaN?
  }

  /** A plain object: a missing key reads as `undefined`. */
  type Fields = map<string, Value>

  function Get(m: Fields, key: string): Value
  {
    if key in m then m[key] else Undefined
  }

  /** `String(v)`; the decimal rendering of numbers is JavaScript's own, given as a parameter. */
  function JsString(v: Value, numberToString: real -> string): string
  {
    match v
    case Undefined => "undefined"
    case Null => "null"
    case Bool(b) => if b then "true" else "false"
    case Num(n) => numberToString(n)
    case NaN => "NaN"
    case Str(s) => s
    case Composite(t) => t
  }

  /**
   * The JavaScript number primitives the services lean on, whose exact
   * decimal behaviour is the engine's: `parseFloat` (None stands for NaN)
   * and the text `String(n)` gives for a number.
   */
  datatype Primitives = Primitives(parseFloat: string -> Option<real>, numberToString: real -> string)

  /** `parseFloat(s)` as a value: NaN when no number can be read. */
  function ParseNumber(prims: Primitives, s: string): (r: Value)
    ensures IsNumber(r)
  {
    match prims.parseFloat(s)
    case None => NaN
    case Some(n) => Num(n)
  }

  /** An optional string property: present and non-empty is truthy. */
  predicate TruthyText(s: Option<string>)
  {
    s.Some? && s.value != ""
  }

  /** A template literal `${s}` of an optional string property. */
  function ShowText(s: Option<string>): string
  {
    if s.Some? then s.value else "undefined"
  }

  /** The validation engine's verdict on one field. */
  datatype ValidationResult = ValidationResult(
    valid: bool,
    error: Option<string>,
    warning: Option<string>,
    numericValue: Option<real>)

  type ValidationMap = map<string, ValidationResult>

  /** A per-field confidence score, from the scoring agent or the fallback scorer. */
  datatype Score = Score(confidence: real, reasoning: string)

  type ScoreMap = map<string, Score>

  // ---------------------------------------------------------------------
  // Strings

  /** The characters of the regular-expression class `\s`, which are also the ones `trim` removes. */
  predicate IsSpace(c: char)
  {
    || c == ' ' || c == '\t' || c == '\n' || c == '\r' || c == '\U{B}' || c == '\U{C}'
    || c == '\U{A0}' || c == '\U{1680}' || ('\U{2000}' <= c <= '\U{200A}')
    || c == '\U{2028}' || c == '\U{2029}' || c == '\U{202F}' || c == '\U{205F}'
    || c == '\U{3000}' || c == '\U{FEFF}'
  }

  predicate OccursAt(s: string, sub: string, i: nat)
  {
    i + |sub| <= |s| && s[i..i + |sub|] == sub
  }

  /** `s.includes(sub)` */
  predicate Contains(s: string, sub: string)
  {
    exists i: nat :: i <= |s| && OccursAt(s, sub, i)
  }

  lemma ContainsSuffix(prefix: string, sub: string)
    ensures Contains(prefix + sub, sub)
  {
    assert OccursAt(prefix + sub, sub, |prefix|);
  }

  function TrimStart(s: string): (r: string)
    ensures r == [] || !IsSpace(r[0])
    ensures |r| <= |s|
  {
    if s != [] && IsSpace(s[0]) then TrimStart(s[1..]) else s
  }

  function TrimEnd(s: string): (r: string)
    ensures r == [] || !IsSpace(r[|r| - 1])
    ensures r <= s
  {
    if s != [] && IsSpace(s[|s| - 1]) then TrimEnd(s[..|s| - 1]) else s
  }

  /**
   * `s.trim()`: a contiguous slice of `s`, with only white space cut off
   * before and after it and none left at either of its ends.
   */
  function Trim(s: string): (r: string)
    ensures r == [] || (!IsSpace(r[0]) && !IsSpace(r[|r| - 1]))
    ensures exists i, j :: SliceBetweenSpaces(s, r, i, j)
  {
    var t := TrimStart(s);
    var r := TrimEnd(t);
    assert r <= t;
    assert r != [] ==> r[0] == t[0];
    TrimBetweenSpaces(s);
    r
  }

  /** `s.replace(/\s+/g, ' ')`: every run of white space becomes one blank. */
  function CollapseSpaces(s: string): string
    decreases |s|
  {
    if s == [] then []
    else if IsSpace(s[0]) then [' '] + CollapseSpaces(TrimStart(s[1..]))
    else [s[0]] + CollapseSpaces(s[1..])
  }

  /** The characters of `s` that are not white space, in order. */
  function Visible(s: string): string
  {
    if s == [] then [] else (if IsSpace(s[0]) then [] else [s[0]]) + Visible(s[1..])
  }

  /** `s.replace(/[,$\s]/g, '')` */
  function StripAmountText(s: string): (r: string)
    ensures forall i :: 0 <= i < |r| ==> r[i] != ',' && r[i] != '$' && !IsSpace(r[i])
  {
    if s == [] then []
    else (if s[0] == ',' || s[0] == '$' || IsSpace(s[0]) then [] else [s[0]]) + StripAmountText(s[1..])
  }

  /** Decimal text of a whole number, as a template literal renders it. */
  function NatToString(n: nat): (s: string)
    ensures |s| >= 1
  {
    if n < 10 then ["0123456789"[n]] else NatToString(n / 10) + ["0123456789"[n % 10]]
  }

  // ---------------------------------------------------------------------
  // Facts about white-space normalisation

  lemma {:induction false} VisibleAppend(a: string, b: string)
    ensures Visible(a + b) == Visible(a) + Visible(b)
  {
    if a == [] {
      assert a + b == b;
    } else {
      assert (a + b)[0] == a[0];
      assert (a + b)[1..] == a[1..] + b;
      VisibleAppend(a[1..], b);
    }
  }

  lemma {:induction false} TrimStartVisible(s: string)
    ensures Visible(TrimStart(s)) == Visible(s)
  {
    if s != [] && IsSpace(s[0]) {
      TrimStartVisible(s[1..]);
    }
  }

  lemma {:induction false} TrimEndVisible(s: string)
    ensures Visible(TrimEnd(s)) == Visible(s)
  {
    if s != [] && IsSpace(s[|s| - 1]) {
      var p := s[..|s| - 1];
      assert s == p + [s[|s| - 1]];
      VisibleAppend(p, [s[|s| - 1]]);
      TrimEndVisible(p);
    }
  }

  lemma TrimVisible(s: string)
    ensures Visible(Trim(s)) == Visible(s)
  {
    TrimStartVisible(s);
    TrimEndVisible(TrimStart(s));
  }

  /** The first character survives collapsing unless it is white space, which becomes a blank. */
  lemma CollapseHead(s: string)
    ensures |CollapseSpaces(s)| > 0 <==> |s| > 0
    ensures |s| > 0 ==> CollapseSpaces(s)[0] == (if IsSpace(s[0]) then ' ' else s[0])
  {
  }

  /** The last character of a collapsed text is white space only if the text ended in white space. */
  lemma {:induction false} CollapseLast(s: string)
    requires s != [] && !IsSpace(s[|s| - 1])
    ensures CollapseSpaces(s) != [] && !IsSpace(CollapseSpaces(s)[|CollapseSpaces(s)| - 1])
    decreases |s|
  {
    if IsSpace(s[0]) {
      var t := TrimStart(s[1..]);
      TrimStartKeepsLast(s[1..]);
      CollapseLast(t);
    } else if |s| > 1 {
      CollapseLast(s[1..]);
    }
  }

  lemma {:induction false} TrimStartKeepsLast(s: string)
    requires s != [] && !IsSpace(s[|s| - 1])
    ensures TrimStart(s) != [] && TrimStart(s)[|TrimStart(s)| - 1] == s[|s| - 1]
  {
    if IsSpace(s[0]) {
      TrimStartKeepsLast(s[1..]);
    }
  }

  /** Every white-space character of `r` is a blank. */
  predicate OnlyBlanks(r: string)
  {
    forall i :: 0 <= i < |r| && IsSpace(r[i]) ==> r[i] == ' '
  }

  /** No two white-space characters of `r` are adjacent. */
  predicate NoSpaceRuns(r: string)
  {
    forall i :: 0 <= i < |r| - 1 ==> !(IsSpace(r[i]) && IsSpace(r[i + 1]))
  }

  lemma {:induction false} CollapseShape(s: string)
    ensures OnlyBlanks(CollapseSpaces(s)) && NoSpaceRuns(CollapseSpaces(s))
    decreases |s|
  {
    if s != [] {
      var r := CollapseSpaces(s);
      var t, c;
      if IsSpace(s[0]) {
        t := TrimStart(s[1..]);
        c := ' ';
        CollapseHead(t);
      } else {
        t := s[1..];
        c := s[0];
      }
      var rest := CollapseSpaces(t);
      CollapseShape(t);
      assert r == [c] + rest;
      assert rest != [] && IsSpace(c) ==> !IsSpace(rest[0]);
      forall i | 0 <= i < |r|
        ensures IsSpace(r[i]) ==> r[i] == ' '
        ensures i < |r| - 1 ==> !(IsSpace(r[i]) && IsSpace(r[i + 1]))
      {
        if i > 0 {
          assert r[i] == rest[i - 1];
          if i < |r| - 1 {
            assert r[i + 1] == rest[i];
          }
        }
      }
    }
  }

  lemma {:induction false} CollapseVisible(s: string)
    ensures Visible(CollapseSpaces(s)) == Visible(s)
    decreases |s|
  {
    if s != [] {
      if IsSpace(s[0]) {
        var t := TrimStart(s[1..]);
        CollapseVisible(t);
        TrimStartVisible(s[1..]);
        VisibleAppend([' '], CollapseSpaces(t));
      } else {
        CollapseVisible(s[1..]);
        VisibleAppend([s[0]], CollapseSpaces(s[1..]));
      }
    }
  }

  // ---------------------------------------------------------------------
  // Exact characterisations

  /** Every character of `s` is white space. */
  predicate AllSpace(s: string)
  {
    forall k :: 0 <= k < |s| ==> IsSpace(s[k])
  }

  lemma AllSpaceAppend(a: string, b: string)
    requires AllSpace(a) && AllSpace(b)
    ensures AllSpace(a + b)
  {
    forall k | 0 <= k < |a + b|
      ensures IsSpace((a + b)[k])
    {
      if k < |a| {
        assert (a + b)[k] == a[k];
      } else {
        assert (a + b)[k] == b[k - |a|];
      }
    }
  }

  /** `r` is `s[i..j]`, and everything `s` holds before `i` and from `j` on is white space. */
  predicate SliceBetweenSpaces(s: string, r: string, i: int, j: int)
  {
    0 <= i <= j <= |s| && r == s[i..j] && AllSpace(s[..i]) && AllSpace(s[j..])
  }

  lemma {:induction false} TrimStartSlice(s: string)
    ensures |TrimStart(s)| <= |s|
    ensures TrimStart(s) == s[|s| - |TrimStart(s)|..] && AllSpace(s[..|s| - |TrimStart(s)|])
  {
    if s != [] && IsSpace(s[0]) {
      var t := TrimStart(s[1..]);
      TrimStartSlice(s[1..]);
      var i := |s| - |t|;
      assert s[1..][i - 1..] == s[i..];
      assert s[..i] == [s[0]] + s[1..][..i - 1];
      AllSpaceAppend([s[0]], s[1..][..i - 1]);
    } else {
      assert s[..0] == [];
    }
  }

  lemma {:induction false} TrimEndSlice(s: string)
    ensures TrimEnd(s) == s[..|TrimEnd(s)|] && AllSpace(s[|TrimEnd(s)|..])
  {
    if s != [] && IsSpace(s[|s| - 1]) {
      var p := s[..|s| - 1];
      var r := TrimEnd(p);
      TrimEndSlice(p);
      assert s[|r|..] == p[|r|..] + [s[|s| - 1]];
      AllSpaceAppend(p[|r|..], [s[|s| - 1]]);
    } else {
      assert s[|s|..] == [];
    }
  }

  lemma TrimBetweenSpaces(s: string)
    ensures SliceBetweenSpaces(s, TrimEnd(TrimStart(s)), |s| - |TrimStart(s)|, |s| - |TrimStart(s)| + |TrimEnd(TrimStart(s))|)
  {
    var t := TrimStart(s);
    var r := TrimEnd(t);
    TrimStartSlice(s);
    TrimEndSlice(t);
    var i := |s| - |t|;
    var j := i + |r|;
    assert r == s[i..][..|r|] == s[i..j];
    assert s[j..] == t[|r|..];
  }

  /** The longest prefix of `s` that holds no white space. */
  function FirstWord(s: string): (w: string)
    ensures w <= s
    ensures forall k :: 0 <= k < |w| ==> !IsSpace(w[k])
    ensures |w| < |s| ==> IsSpace(s[|w|])
    ensures s != [] && !IsSpace(s[0]) ==> |w| >= 1
  {
    if s == [] || IsSpace(s[0]) then [] else [s[0]] + FirstWord(s[1..])
  }

  /** The words of `s`: its maximal runs of characters that are not white space, in order. */
  function Words(s: string): (words: seq<string>)
    ensures forall i :: 0 <= i < |words| ==> words[i] != []
    ensures forall i, k :: 0 <= i < |words| && 0 <= k < |words[i]| ==> !IsSpace(words[i][k])
    decreases |s|
  {
    if s == [] then []
    else if IsSpace(s[0]) then Words(s[1..])
    else
      var w := FirstWord(s);
      [w] + Words(s[|w|..])
  }

  /** `words.join(' ')` */
  function JoinWords(words: seq<string>): string
  {
    if words == [] then []
    else if |words| == 1 then words[0]
    else words[0] + " " + JoinWords(words[1..])
  }

  lemma {:induction false} CollapseAfterWord(w: string, r: string)
    requires forall k :: 0 <= k < |w| ==> !IsSpace(w[k])
    ensures CollapseSpaces(w + r) == w + CollapseSpaces(r)
    decreases |w|
  {
    if w != [] {
      assert (w + r)[0] == w[0];
      assert (w + r)[1..] == w[1..] + r;
      CollapseAfterWord(w[1..], r);
      assert w == [w[0]] + w[1..];
    } else {
      assert w + r == r;
    }
  }

  lemma {:induction false} WordsSkipSpaces(s: string)
    ensures Words(TrimStart(s)) == Words(s)
  {
    if s != [] && IsSpace(s[0]) {
      WordsSkipSpaces(s[1..]);
    }
  }

  lemma {:induction false} FirstWordBeforeSpaces(x: string, sp: string)
    requires AllSpace(sp)
    ensures FirstWord(x + sp) == FirstWord(x)
  {
    if x == [] {
      assert x + sp == sp;
    } else {
      assert (x + sp)[0] == x[0];
      if !IsSpace(x[0]) {
        assert (x + sp)[1..] == x[1..] + sp;
        FirstWordBeforeSpaces(x[1..], sp);
      }
    }
  }

  lemma {:induction false} NoWordsInSpaces(sp: string)
    requires AllSpace(sp)
    ensures Words(sp) == []
  {
    if sp != [] {
      NoWordsInSpaces(sp[1..]);
    }
  }

  lemma {:induction false} WordsBeforeSpaces(x: string, sp: string)
    requires AllSpace(sp)
    ensures Words(x + sp) == Words(x)
    decreases |x|
  {
    if x == [] {
      assert x + sp == sp;
      NoWordsInSpaces(sp);
    } else {
      assert (x + sp)[0] == x[0];
      if IsSpace(x[0]) {
        assert (x + sp)[1..] == x[1..] + sp;
        WordsBeforeSpaces(x[1..], sp);
      } else {
        var w := FirstWord(x);
        FirstWordBeforeSpaces(x, sp);
        assert (x + sp)[|w|..] == x[|w|..] + sp;
        WordsBeforeSpaces(x[|w|..], sp);
      }
    }
  }

  lemma WordsOfTrim(s: string)
    ensures Words(Trim(s)) == Words(s)
  {
    var t := TrimStart(s);
    WordsSkipSpaces(s);
    TrimEndSlice(t);
    var r := TrimEnd(t);
    assert t == r + t[|r|..];
    WordsBeforeSpaces(r, t[|r|..]);
  }

  lemma WordsFromWord(u: string)
    requires u != [] && !IsSpace(u[0])
    ensures Words(u) == [FirstWord(u)] + Words(u[|FirstWord(u)|..])
  {
  }

  lemma CollapseFromSpace(rest: string)
    requires rest != [] && IsSpace(rest[0])
    ensures CollapseSpaces(rest) == [' '] + CollapseSpaces(TrimStart(rest))
  {
  }

  lemma JoinCons(w: string, ws: seq<string>)
    requires ws != []
    ensures JoinWords([w] + ws) == w + ([' '] + JoinWords(ws))
  {
    assert ([w] + ws)[0] == w && ([w] + ws)[1..] == ws;
  }

  /** On a text with no white space at either end, collapsing joins its words with single blanks. */
  lemma {:induction false} CollapseJoinsWords(u: string)
    requires u != [] && !IsSpace(u[0]) && !IsSpace(u[|u| - 1])
    ensures Words(u) != [] && CollapseSpaces(u) == JoinWords(Words(u))
    decreases |u|
  {
    var w := FirstWord(u);
    var rest := u[|w|..];
    assert u == w + rest;
    CollapseAfterWord(w, rest);
    WordsFromWord(u);
    if rest == [] {
      assert Words(u) == [w];
      assert CollapseSpaces(u) == w;
    } else {
      var v := TrimStart(rest);
      assert rest[|rest| - 1] == u[|u| - 1];
      TrimStartKeepsLast(rest);
      CollapseFromSpace(rest);
      WordsSkipSpaces(rest);
      CollapseJoinsWords(v);
      JoinCons(w, Words(v));
    }
  }

  /**
   * `s.trim().replace(/\s+/g, ' ')` is the words of `s` joined by single
   * blanks: each inner run of white space becomes exactly one blank, and
   * nothing else changes.
   */
  lemma CollapseTrimmed(s: string)
    ensures CollapseSpaces(Trim(s)) == JoinWords(Words(s))
  {
    WordsOfTrim(s);
    var t := Trim(s);
    if t != [] {
      CollapseJoinsWords(t);
    }
  }

  /**
   * `replace(/[,$\s]/g, '')` works character by character: it distributes
   * over concatenation, drops a ',', a '$' or a white-space character, and
   * keeps every other character.
   */
  lemma {:induction false} StripAmountPerCharacter(a: string, b: string, c: char)
    ensures StripAmountText(a + b) == StripAmountText(a) + StripAmountText(b)
    ensures StripAmountText([c]) == if c == ',' || c == '$' || IsSpace(c) then [] else [c]
  {
    if a == [] {
      assert a + b == b;
    } else {
      assert (a + b)[0] == a[0];
      assert (a + b)[1..] == a[1..] + b;
      StripAmountPerCharacter(a[1..], b, c);
    }
  }
}
