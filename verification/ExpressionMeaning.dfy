/** What the forms of a template expression mean, spelled out: the shapes of names, numerals
    and operators, and the value of each form in the values of its parts. */
module ExpressionMeaning {
  import opened Options
  import opened Text
  import opened Expressions
  import opened ExpressionPrinting

  // ---- The lexical shapes, spelled out -------------------------------------------------

  predicate Letter(c: char) { 'a' <= c <= 'z' || 'A' <= c <= 'Z' || c == '_' || c == '$' }

  predicate AllDigits(s: string) { s != "" && forall k :: 0 <= k < |s| ==> '0' <= s[k] <= '9' }

  lemma {:induction false} PartLenIff(s: string)
    ensures PartLen(s) == |s| <==> forall k :: 0 <= k < |s| ==> Letter(s[k]) || '0' <= s[k] <= '9'
  {
    if s != "" {
      PartLenIff(s[1..]);
      assert s == [s[0]] + s[1..];
    }
  }

  /** An identifier is a letter, underscore or dollar and then any of these and digits. */
  lemma IdentIff(s: string)
    ensures IsIdent(s) <==> s != "" && Letter(s[0]) && forall k :: 1 <= k < |s| ==> Letter(s[k]) || '0' <= s[k] <= '9'
  {
    if s != "" {
      PartLenIff(s[1..]);
      assert forall k :: 1 <= k < |s| ==> s[k] == s[1..][k - 1];
    }
  }

  lemma {:induction false} DigitLenIff(s: string)
    ensures DigitLen(s) == |s| && s != "" <==> AllDigits(s)
  {
    if |s| > 1 {
      DigitLenIff(s[1..]);
      assert s == [s[0]] + s[1..];
    }
  }

  /** How a numeral is put together: a sign or none, a whole part, and a fraction or none. */
  predicate IsNumeral(s: string, sign: string, whole: string, fraction: string) {
    && (sign == "" || sign == "-") && AllDigits(whole)
    && (fraction == "" || (fraction[0] == '.' && AllDigits(fraction[1..])))
    && s == sign + whole + fraction
  }

  lemma {:induction false} DigitLenStopsAt(whole: string, rest: string)
    requires AllDigits(whole) && (rest == "" || !IsDigit(rest[0]))
    ensures DigitLen(whole + rest) == |whole|
  {
    assert (whole + rest)[1..] == whole[1..] + rest;
    if |whole| > 1 {
      DigitLenStopsAt(whole[1..], rest);
    } else {
      assert whole[1..] + rest == rest;
    }
  }

  lemma NumberIff(s: string)
    ensures IsNumber(s) <==> exists sign, whole, fraction :: IsNumeral(s, sign, whole, fraction)
  {
    if IsNumber(s) {
      var sign, t := if s[0] == '-' then "-" else "", if s[0] == '-' then s[1..] else s;
      var n := DigitLen(t);
      NumberParts(s, sign, t, n);
    }
    if exists sign, whole, fraction :: IsNumeral(s, sign, whole, fraction) {
      var sign, whole, fraction :| IsNumeral(s, sign, whole, fraction);
      NumeralIsNumber(s, sign, whole, fraction);
    }
  }

  lemma NumberParts(s: string, sign: string, t: string, n: nat)
    requires (sign == "" || sign == "-") && s == sign + t && n == DigitLen(t) && n > 0
    requires n == |t| || (t[n] == '.' && |t| > n + 1 && DigitLen(t[n + 1..]) == |t| - n - 1)
    ensures IsNumeral(s, sign, t[..n], t[n..])
  {
    WholePart(t);
    if n < |t| {
      FractionPart(t, n);
    }
    Regrouped(sign, t, n);
  }

  lemma WholePart(t: string)
    requires DigitLen(t) > 0
    ensures AllDigits(t[..DigitLen(t)])
  {
    DigitPrefix(t);
  }

  lemma FractionPart(t: string, n: nat)
    requires n + 1 < |t| && DigitLen(t[n + 1..]) == |t| - n - 1
    ensures AllDigits(t[n..][1..])
  {
    DigitLenIff(t[n + 1..]);
    assert t[n..][1..] == t[n + 1..];
  }

  lemma Regrouped(sign: string, t: string, n: nat)
    requires n <= |t|
    ensures sign + t == sign + t[..n] + t[n..]
  {}

  lemma NumeralIsNumber(s: string, sign: string, whole: string, fraction: string)
    requires IsNumeral(s, sign, whole, fraction)
    ensures IsNumber(s)
  {
    var t := whole + fraction;
    assert s == sign + t;
    assert (if s[0] == '-' then s[1..] else s) == t;
    DigitLenStopsAt(whole, fraction);
    if fraction != "" {
      assert t[|whole|] == fraction[0] && t[|whole| + 1..] == fraction[1..];
      DigitLenIff(fraction[1..]);
    }
  }

  // ---- The equality scan, spelled out ---------------------------------------------------

  /** Brackets open at the end of the text. */
  function Depth(s: string): int {
    if s == "" then 0 else
    var c := s[|s| - 1];
    Depth(s[..|s| - 1]) + (if c == '(' || c == '[' then 1 else if c == ')' || c == ']' then -1 else 0)
  }

  /** An equality operator at k: outside all brackets, not the tail of another operator, and
      with something other than white space to its left. */
  predicate EqualityAt(s: string, k: int) {
    && 0 <= k && k + 1 < |s| && (s[k] == '=' || s[k] == '!') && s[k + 1] == '='
    && (k == 0 || (s[k - 1] != '=' && s[k - 1] != '!'))
    && (exists j :: 0 <= j < k && !IsSpace(s[j]))
    && Depth(s[..k]) == 0
  }

  /** The operator it is: strict with a third '=', negated when it begins with '!'. */
  predicate Reads(s: string, k: nat, op: Op)
    requires k < |s|
  {
    && ((op.StrictEq? || op.StrictNe?) <==> k + 2 < |s| && s[k + 2] == '=')
    && ((op.StrictNe? || op.LooseNe?) <==> s[k] == '!')
  }

  predicate FirstEquality(expr: string, from: nat, hit: Option<Hit>) {
    match hit
    case None => forall k :: from <= k < |expr| ==> !EqualityAt(expr, k)
    case Some(eq) =>
      && from <= eq.index && EqualityAt(expr, eq.index) && Reads(expr, eq.index, eq.op)
      && forall k :: from <= k < eq.index ==> !EqualityAt(expr, k)
  }

  lemma OperatorIff(before: string, s: string)
    requires s != ""
    ensures EqualityAt(before + s, |before|) <==> OperatorAt(before, s) && Depth(before) == 0
    ensures |s| > 1 && EqChar(s[0]) ==> Reads(before + s, |before|, OperatorOf(s))
  {
    var expr, k := before + s, |before|;
    assert expr[..k] == before && expr[k] == s[0];
    assert |s| > 1 ==> expr[k + 1] == s[1];
    assert |s| > 2 ==> expr[k + 2] == s[2];
    assert k > 0 ==> expr[k - 1] == before[k - 1];
    SolidIff(before, s);
  }

  lemma SolidIff(before: string, s: string)
    ensures (exists j :: 0 <= j < |before| && !IsSpace((before + s)[j])) <==> Trim(before) != ""
  {
    BlankIffTrimsAway(before);
    if Trim(before) != "" {
      var c :| c in before && !IsSpace(c);
      var j :| 0 <= j < |before| && before[j] == c;
      assert (before + s)[j] == c;
    }
  }

  lemma DepthNext(before: string, c: char)
    ensures Depth(before + [c]) == Depth(before) + (if Opens(c) then 1 else if Closes(c) then -1 else 0)
  {
    assert (before + [c])[..|before|] == before;
  }

  lemma FirstNext(expr: string, from: nat, hit: Option<Hit>)
    requires !EqualityAt(expr, from) && FirstEquality(expr, from + 1, hit)
    ensures FirstEquality(expr, from, hit)
  {}

  /** One character further: an operator here is the hit, and any other character is passed. */
  lemma ScanNext(before: string, s: string)
    requires s != ""
    ensures var here, depth := OperatorAt(before, s), Depth(before);
            TopLevel(before, s, depth)
            == if here && depth == 0 then Some(Hit(|before|, OperatorOf(s)))
               else TopLevel(before + [s[0]], s[1..], Depth(before + [s[0]]))
  {
    DepthNext(before, s[0]);
  }

  lemma {:induction false} ScanIsFirst(before: string, s: string)
    ensures FirstEquality(before + s, |before|, TopLevel(before, s, Depth(before)))
    decreases |s|
  {
    if s != "" {
      OperatorIff(before, s);
      ScanNext(before, s);
      if !EqualityAt(before + s, |before|) {
        assert (before + [s[0]]) + s[1..] == before + s;
        ScanIsFirst(before + [s[0]], s[1..]);
        FirstNext(before + s, |before|, TopLevel(before + [s[0]], s[1..], Depth(before + [s[0]])));
      }
    }
  }

  /** On any text whatever the scan finds the first such operator, and reads it right. */
  lemma ScanIff(expr: string)
    ensures FirstEquality(expr, 0, TopLevel("", expr, 0))
  {
    ScanIsFirst("", expr);
    assert "" + expr == expr;
  }

  // ---- Values --------------------------------------------------------------------------

  /** What each operator means, in the values its operands resolve to. */
  lemma OperatorsMean<V>(h: Host<V>, vals: V, l: Expr, r: Expr)
    ensures var lv, rv := Resolve(h, vals, Print(l)), Resolve(h, vals, Print(r));
            && (Valid(Equal(StrictEq, l, r), false) ==>
                  Resolve(h, vals, Print(l) + ("===" + Print(r))) == if h.strictEq(lv, rv) then h.yes else h.no)
            && (Valid(Equal(StrictNe, l, r), false) ==>
                  Resolve(h, vals, Print(l) + ("!==" + Print(r))) == if h.strictEq(lv, rv) then h.no else h.yes)
            && (Valid(Equal(LooseEq, l, r), false) ==>
                  Resolve(h, vals, Print(l) + ("==" + Print(r))) == if h.looseEq(lv, rv) then h.yes else h.no)
            && (Valid(Equal(LooseNe, l, r), false) ==>
                  Resolve(h, vals, Print(l) + ("!=" + Print(r))) == if h.looseEq(lv, rv) then h.no else h.yes)
  {
    forall op | Valid(Equal(op, l, r), false)
      ensures Resolve(h, vals, Print(l) + (OpText(op) + Print(r)))
              == if Holds(h, op, Resolve(h, vals, Print(l)), Resolve(h, vals, Print(r))) then h.yes else h.no
    {
      Agrees(h, vals, Equal(op, l, r));
      Agrees(h, vals, l);
      Agrees(h, vals, r);
    }
  }

  /** A text of white space only is undefined, and so is any that begins like nothing the
      resolver knows and holds no equality. */
  lemma NothingElseMeans<V>(h: Host<V>, vals: V, src: string)
    ensures Blank(src) ==> Resolve(h, vals, src) == h.undef
    ensures var expr := Trim(src);
            && expr != "" && !Letter(expr[0]) && !NumberChar(expr[0]) && expr[0] != '(' && expr[0] != '!' && expr[0] != '"' && expr[0] != '\''
            && (forall k :: 0 <= k < |expr| ==> !EqualityAt(expr, k))
            ==> Resolve(h, vals, src) == h.undef
  {
    var expr := Trim(src);
    BlankIffTrimsAway(src);
    ScanIff(expr);
    if expr != "" && !NumberChar(expr[0]) && IsNumber(expr) {
      NumberChars(expr);
    }
  }

  lemma WordsMean<V>(h: Host<V>, vals: V)
    ensures Resolve(h, vals, "true") == h.yes && Resolve(h, vals, "false") == h.no
    ensures Resolve(h, vals, "null") == h.nul && Resolve(h, vals, "undefined") == h.undef
  {
    WordMeans(h, vals, "true");
    WordMeans(h, vals, "false");
    WordMeans(h, vals, "null");
    WordMeans(h, vals, "undefined");
  }

  lemma WordMeans<V>(h: Host<V>, vals: V, w: string)
    requires IsKeyword(w)
    ensures Resolve(h, vals, w) == KeywordValue(h, w)
  {
    Agrees(h, vals, Word(w));
  }

  /** Either quote, around anything without brackets and operator characters. */
  lemma QuotesMean<V>(h: Host<V>, vals: V, q: char, body: string)
    requires q == '"' || q == '\''
    requires forall c :: c in body ==> c != '(' && c != ')' && c != '[' && c != ']' && c != '=' && c != '!'
    ensures Resolve(h, vals, [q] + (body + [q])) == h.str(body)
  {
    assert forall k :: 0 <= k < |body| - 1 ==> body[k] in body;
    Agrees(h, vals, Quoted(q, body));
  }

  lemma NegationMeans<V>(h: Host<V>, vals: V, b: Expr)
    requires Valid(Not(b), false)
    ensures Resolve(h, vals, "!" + Print(b)) == if h.truthy(Resolve(h, vals, Print(b))) then h.no else h.yes
  {
    Agrees(h, vals, Not(b));
    Agrees(h, vals, b);
  }

  /** Property access yields undefined on null and undefined. */
  lemma MemberMeans<V>(h: Host<V>, vals: V, b: Expr, name: string)
    requires Valid(b, false) && Valid(Member(b, name), false)
    ensures var v := Resolve(h, vals, Print(b));
            Resolve(h, vals, Print(b) + ("." + name)) == if h.nullish(v) then h.undef else h.get(v, h.str(name))
  {
    Agrees(h, vals, Member(b, name));
    Agrees(h, vals, b);
  }

  lemma IndexMeans<V>(h: Host<V>, vals: V, b: Expr, k: Expr)
    requires Valid(b, false) && Valid(Index(b, k), false)
    ensures var v, key := Resolve(h, vals, Print(b)), Resolve(h, vals, Print(k));
            Resolve(h, vals, Print(b) + ("[" + (Print(k) + "]"))) == if h.nullish(v) then h.undef else h.get(v, key)
  {
    Agrees(h, vals, Index(b, k));
    Agrees(h, vals, b);
    Agrees(h, vals, k);
  }

  /** Text that no path goes on with: not a dot or bracket, a dot without a name, or a
      bracket that is never closed. */
  predicate Breaks(rest: string) {
    && rest != "" && !IdentPart(rest[0])
    && (rest[0] == '.' ==> |rest| == 1 || !IdentPart(rest[1]))
    && (rest[0] == '[' ==> ']' !in rest)
  }

  /** A path that breaks off is undefined, whatever it had reached. */
  lemma BrokenPath<V>(h: Host<V>, vals: V, e: Expr, rest: string)
    requires IsPath(e) && Valid(e, true) && Breaks(rest)
    ensures ResolvePath(h, vals, Print(e) + rest) == h.undef
  {
    WalksPath(h, vals, e, rest);
    if rest[0] == '[' {
      NeverCloses(rest[1..], 1);
    }
  }

  lemma {:induction false} NeverCloses(s: string, depth: nat)
    requires depth > 0 && ']' !in s
    ensures CloseAt(s, depth) == |s|
  {
    if s != "" {
      NeverCloses(s[1..], if s[0] == '[' then depth + 1 else depth);
    }
  }
}
