/** Expression trees, their printed forms with any spacing and any redundant parentheses,
    and the agreement of the scanner-based resolver with direct evaluation. */
module ExpressionPrinting {
  import opened Options
  import opened Text
  import opened Expressions

  datatype Expr =
    | Word(word: string)
    | Num(text: string)
    | Quoted(quote: char, body: string)
    | Name(id: string)
    | Member(base: Expr, name: string)
    | Index(base: Expr, key: Expr)
    | Paren(inner: Expr)
    | Not(operand: Expr)
    | Equal(op: Op, left: Expr, right: Expr)
    | Padded(before: string, inner: Expr, after: string)

  function Print(e: Expr): string {
    match e
    case Word(w) => w
    case Num(t) => t
    case Quoted(q, b) => [q] + (b + [q])
    case Name(id) => id
    case Member(b, n) => Print(b) + ("." + n)
    case Index(b, k) => Print(b) + ("[" + (Print(k) + "]"))
    case Paren(i) => "(" + (Print(i) + ")")
    case Not(x) => "!" + Print(x)
    case Equal(op, l, r) => Print(l) + (OpText(op) + Print(r))
    case Padded(b, i, a) => b + (Print(i) + a)
  }

  function KeywordValue<V>(h: Host<V>, w: string): V {
    if w == "true" then h.yes else if w == "false" then h.no else if w == "null" then h.nul else h.undef
  }

  /** Direct evaluation, on the host's own operations. */
  function Eval<V>(h: Host<V>, vals: V, e: Expr): V {
    match e
    case Word(w) => KeywordValue(h, w)
    case Num(t) => h.num(t)
    case Quoted(_, b) => h.str(b)
    case Name(id) => Field(h, vals, h.str(id))
    case Member(b, n) => Field(h, Eval(h, vals, b), h.str(n))
    case Index(b, k) => Field(h, Eval(h, vals, b), Eval(h, vals, k))
    case Paren(i) => Eval(h, vals, i)
    case Not(x) => if h.truthy(Eval(h, vals, x)) then h.no else h.yes
    case Equal(op, l, r) => if Holds(h, op, Eval(h, vals, l), Eval(h, vals, r)) then h.yes else h.no
    case Padded(_, i, _) => Eval(h, vals, i)
  }

  function Field<V>(h: Host<V>, v: V, key: V): V { if h.nullish(v) then h.undef else h.get(v, key) }

  predicate Holds<V>(h: Host<V>, op: Op, l: V, r: V) {
    || (op.StrictEq? && h.strictEq(l, r)) || (op.StrictNe? && !h.strictEq(l, r))
    || (op.LooseEq? && h.looseEq(l, r)) || (op.LooseNe? && !h.looseEq(l, r))
  }

  // ---- Which trees a text can stand for ----------------------------------------------

  predicate NoBrackets(t: string) { forall c :: c in t ==> !Opens(c) && !Closes(c) }

  /** No '=' directly after '=' or '!'. */
  predicate NoPair(t: string) { forall k :: 0 <= k < |t| - 1 ==> !(EqChar(t[k]) && t[k + 1] == '=') }

  predicate IsIdent(s: string) { s != "" && IdentLen(s) == |s| }
  predicate IsMemberName(s: string) { IsIdent(s) || (s != "" && DigitLen(s) == |s|) }
  predicate IsPath(e: Expr) { e.Name? || e.Member? || e.Index? }

  /** The tree without the white space around it. */
  function Core(e: Expr): Expr { if e.Padded? then Core(e.inner) else e }

  predicate TightLeft(s: string) { s != "" && !IsSpace(s[0]) }
  predicate TightRight(s: string) { s != "" && !IsSpace(s[|s| - 1]) }

  /** A bare name is not a keyword (the head of a longer path may be); string bodies hold no
      bracket and no equality operator; the left operand of an equality and the operand of
      a negation are not bare equalities; white space around a whole operator expression
      belongs to the Padded node around it. */
  predicate Valid(e: Expr, asBase: bool) {
    match e
    case Word(w) => !asBase && IsKeyword(w)
    case Num(t) => !asBase && IsNumber(t)
    case Quoted(q, b) => !asBase && IsQuote(q) && NoBrackets(b) && NoPair(b)
    case Name(id) => IsIdent(id) && (asBase || !IsKeyword(id))
    case Member(b, n) => IsPath(b) && Valid(b, true) && IsMemberName(n)
    case Index(b, k) => IsPath(b) && Valid(b, true) && Valid(k, false)
    case Paren(i) => !asBase && Valid(i, false)
    case Not(x) => !asBase && Valid(x, false) && !Core(x).Equal? && TightRight(Print(x))
    case Equal(_, l, r) =>
      && !asBase && Valid(l, false) && Valid(r, false) && !Core(l).Equal?
      && TightLeft(Print(l)) && TightRight(Print(r))
    case Padded(b, i, a) => !asBase && Blank(b) && Blank(a) && Valid(i, false)
  }

  // ---- Characters of lexical shapes --------------------------------------------------

  lemma {:induction false} PartChars(s: string)
    requires PartLen(s) == |s|
    ensures forall c :: c in s ==> IdentPart(c)
  {
    if s != "" {
      PartChars(s[1..]);
      assert s == [s[0]] + s[1..];
    }
  }

  lemma IdentChars(s: string)
    requires IsIdent(s)
    ensures forall c :: c in s ==> IdentPart(c)
    ensures IdentStart(s[0])
  {
    PartChars(s[1..]);
    assert s == [s[0]] + s[1..];
  }

  lemma {:induction false} DigitChars(s: string)
    requires DigitLen(s) == |s|
    ensures forall c :: c in s ==> IsDigit(c)
  {
    if s != "" {
      DigitChars(s[1..]);
      assert s == [s[0]] + s[1..];
    }
  }

  lemma {:induction false} DigitPrefix(s: string)
    ensures forall k :: 0 <= k < DigitLen(s) ==> IsDigit(s[k])
  {
    if s != "" && IsDigit(s[0]) {
      DigitPrefix(s[1..]);
    }
  }

  predicate NumberChar(c: char) { IsDigit(c) || c == '-' || c == '.' }

  lemma NumberChars(s: string)
    requires IsNumber(s)
    ensures s != "" && (IsDigit(s[0]) || s[0] == '-')
    ensures forall k :: 0 <= k < |s| ==> NumberChar(s[k])
  {
    var o := if s[0] == '-' then 1 else 0;
    var t := s[o..];
    DigitPrefix(t);
    var n := DigitLen(t);
    if n < |t| {
      DigitPrefix(t[n + 1..]);
    }
    forall k | 0 <= k < |s|
      ensures NumberChar(s[k])
    {
      if k >= o {
        assert s[k] == t[k - o];
        if k - o > n {
          assert t[k - o] == t[n + 1..][k - o - n - 1];
        }
      }
    }
  }

  /** Letters, digits, '_', '$', '-' and '.': nothing the scanners look at. */
  predicate Plain(c: char) { IdentPart(c) || c == '-' || c == '.' }
  predicate PlainText(s: string) { forall k :: 0 <= k < |s| ==> Plain(s[k]) }

  lemma LeafIsPlain(e: Expr, asBase: bool)
    requires Valid(e, asBase) && (e.Word? || e.Num? || e.Name?)
    ensures PlainText(Print(e)) && Print(e) != ""
    ensures e.Name? ==> IdentStart(Print(e)[0])
  {
    match e {
      case Word(w) =>
      case Num(t) => NumberChars(t);
      case Name(id) => IdentChars(id);
    }
  }

  lemma MemberIsPlain(n: string)
    requires IsMemberName(n)
    ensures PlainText("." + n)
  {
    if IsIdent(n) {
      IdentChars(n);
    } else {
      DigitChars(n);
    }
    assert forall k :: 0 < k < |n| + 1 ==> ("." + n)[k] == n[k - 1] && n[k - 1] in n;
  }

  lemma MemberEnds(b: Expr, n: string)
    requires IsMemberName(n)
    ensures var s := Print(b) + ("." + n); Plain(s[|s| - 1])
  {
    var t := "." + n;
    MemberIsPlain(n);
    assert Plain(t[|t| - 1]);
    assert (Print(b) + t)[|Print(b) + t| - 1] == t[|t| - 1];
  }

  /** Nothing printed starts with '='; what starts with '(' is a parenthesised tree. */
  lemma {:induction false} LeftEdge(e: Expr, asBase: bool)
    requires Valid(e, asBase)
    ensures Print(e) != "" && Print(e)[0] != '='
    ensures IsPath(e) ==> IdentStart(Print(e)[0])
  {
    match e {
      case Num(t) => LeafIsPlain(e, asBase);
      case Name(id) => LeafIsPlain(e, asBase);
      case Member(b, n) => LeftEdge(b, true);
      case Index(b, k) => LeftEdge(b, true);
      case Equal(op, l, r) => LeftEdge(l, false);
      case Padded(b, i, a) =>
        LeftEdge(i, false);
        if b != "" { assert b[0] in b; }
      case _ =>
    }
  }

  lemma LastOf(a: string, b: string)
    requires b != ""
    ensures (a + b)[|a + b| - 1] == b[|b| - 1]
  {}

  lemma PaddedEnds(b: string, s: string, a: string)
    requires Blank(a) && s != "" && !EqChar(s[|s| - 1])
    ensures var t := b + (s + a); !EqChar(t[|t| - 1])
  {
    var t := b + (s + a);
    if a == "" {
      assert t[|t| - 1] == s[|s| - 1];
    } else {
      assert t[|t| - 1] == a[|a| - 1] && a[|a| - 1] in a;
    }
  }

  /** Nothing printed ends in a character an operator could begin with. */
  lemma {:induction false} RightEdge(e: Expr, asBase: bool)
    requires Valid(e, asBase)
    ensures Print(e) != "" && !EqChar(Print(e)[|Print(e)| - 1])
  {
    if e.Not? {
      RightEdge(e.operand, false);
      LastOf("!", Print(e.operand));
    } else if e.Equal? {
      RightEdge(e.right, false);
      LastOf(OpText(e.op), Print(e.right));
      LastOf(Print(e.left), OpText(e.op) + Print(e.right));
    } else if e.Padded? {
      RightEdge(e.inner, false);
      PaddedEnds(e.before, Print(e.inner), e.after);
    } else {
      TokenEnds(e, asBase);
    }
  }

  lemma TokenEnds(e: Expr, asBase: bool)
    requires Valid(e, asBase) && !e.Not? && !e.Equal? && !e.Padded?
    ensures Print(e) != "" && !EqChar(Print(e)[|Print(e)| - 1])
  {
    if e.Index? {
      LastOf("[", Print(e.key) + "]");
      LastOf(Print(e.base), "[" + (Print(e.key) + "]"));
    } else if e.Member? {
      MemberEnds(e.base, e.name);
    } else if !e.Paren? && !e.Quoted? {
      LeafIsPlain(e, asBase);
    }
  }

  /** Apart from the nodes that carry their own padding, print is tight on both sides. */
  lemma {:induction false} CoreIsTight(e: Expr, asBase: bool)
    requires Valid(e, asBase) && !e.Padded?
    ensures TightLeft(Print(e)) && TightRight(Print(e))
  {
    TightLeftCore(e, asBase);
    match e {
      case Num(t) => LeafIsPlain(e, asBase);
      case Name(id) => LeafIsPlain(e, asBase);
      case Member(b, n) =>
        MemberEnds(b, n);
      case _ =>
    }
  }

  lemma TightLeftCore(e: Expr, asBase: bool)
    requires Valid(e, asBase) && !e.Padded?
    ensures TightLeft(Print(e))
  {
    if IsPath(e) {
      LeftEdge(e, asBase);
    } else if e.Num? {
      LeafIsPlain(e, asBase);
    }
  }

  // ---- Trimming a printed tree -------------------------------------------------------

  lemma {:induction false} TrimStartSkips(b: string, s: string)
    requires Blank(b) && TightLeft(s)
    ensures TrimStart(b + s) == s
  {
    if b == "" {
      assert b + s == s;
    } else {
      assert b[0] in b;
      assert (b + s)[1..] == b[1..] + s;
      TrimStartSkips(b[1..], s);
    }
  }

  lemma {:induction false} TrimEndSkips(s: string, a: string)
    requires Blank(a) && TightRight(s)
    ensures TrimEnd(s + a) == s
  {
    if a == "" {
      assert s + a == s;
    } else {
      assert a[|a| - 1] in a;
      assert (s + a)[..|s + a| - 1] == s + a[..|a| - 1];
      TrimEndSkips(s, a[..|a| - 1]);
    }
  }

  lemma {:induction false} TrimPadding(e: Expr, b: string, a: string)
    requires Valid(e, false) && Blank(b) && Blank(a)
    ensures Valid(Core(e), false) && Trim(b + (Print(e) + a)) == Print(Core(e))
  {
    if e.Padded? {
      assert b + (Print(e) + a) == (b + e.before) + (Print(e.inner) + (e.after + a));
      TrimPadding(e.inner, b + e.before, e.after + a);
    } else {
      CoreIsTight(e, false);
      TrimStartSkips(b, Print(e) + a);
      TrimEndSkips(Print(e), a);
    }
  }

  lemma TrimPrint(e: Expr)
    requires Valid(e, false)
    ensures Valid(Core(e), false) && !Core(e).Padded? && Trim(Print(e)) == Print(Core(e)) && Print(Core(e)) != ""
  {
    TrimPadding(e, "", "");
    assert "" + (Print(e) + "") == Print(e);
    CoreNotPadded(e);
    CoreIsTight(Core(e), false);
  }

  lemma {:induction false} CoreNotPadded(e: Expr)
    ensures !Core(e).Padded?
  {
    if e.Padded? {
      CoreNotPadded(e.inner);
    }
  }

  // ---- Scanners skip what has no bracket ---------------------------------------------

  lemma {:induction false} CloseSkipsText(t: string, rest: string, d: nat)
    requires d > 0 && '[' !in t && ']' !in t
    ensures CloseAt(t + rest, d) == |t| + CloseAt(rest, d)
  {
    if t == "" {
      assert t + rest == rest;
    } else {
      assert t[0] in t;
      assert (t + rest)[1..] == t[1..] + rest;
      CloseSkipsText(t[1..], rest, d);
    }
  }

  lemma {:induction false} WrapsSkipsText(t: string, rest: string, d: int)
    requires '(' !in t && ')' !in t && rest != ""
    ensures Wraps(t + rest, d) == Wraps(rest, d)
  {
    if t == "" {
      assert t + rest == rest;
    } else {
      assert t[0] in t;
      assert (t + rest)[1..] == t[1..] + rest;
      WrapsSkipsText(t[1..], rest, d);
    }
  }

  lemma {:induction false} DeepSkipsText(before: string, t: string, rest: string, d: int)
    requires NoBrackets(t) && d != 0
    ensures TopLevel(before, t + rest, d) == TopLevel(before + t, rest, d)
    decreases |t|
  {
    if t == "" {
      assert t + rest == rest && before + t == before;
    } else {
      assert t[0] in t;
      assert (t + rest)[1..] == t[1..] + rest && before + [t[0]] + t[1..] == before + t;
      DeepSkipsText(before + [t[0]], t[1..], rest, d);
    }
  }

  lemma {:induction false} FlatSkipsText(before: string, t: string, rest: string)
    requires NoBrackets(t) && NoPair(t)
    requires t != "" && rest != "" && EqChar(t[|t| - 1]) ==> rest[0] != '='
    ensures TopLevel(before, t + rest, 0) == TopLevel(before + t, rest, 0)
    decreases |t|
  {
    if t == "" {
      assert t + rest == rest && before + t == before;
    } else {
      assert t[0] in t;
      assert (t + rest)[1..] == t[1..] + rest && before + [t[0]] + t[1..] == before + t;
      FlatSkipsText(before + [t[0]], t[1..], rest);
    }
  }

  lemma PlainHasNoBrackets(t: string)
    requires PlainText(t)
    ensures NoBrackets(t) && NoPair(t) && (t != "" ==> !EqChar(t[|t| - 1]))
  {}

  lemma BlankHasNoBrackets(t: string)
    requires Blank(t)
    ensures NoBrackets(t) && NoPair(t) && (t != "" ==> !EqChar(t[|t| - 1]))
  {
    assert forall k :: 0 <= k < |t| ==> t[k] in t;
  }

  // ---- Scanners skip whole printed trees ---------------------------------------------

  /** A printed tree is a row of bracket-free texts and bracketed smaller trees. */
  datatype Part = Text(text: string) | Group(open: char, inner: Expr, close: char)

  function Parts(e: Expr): seq<Part> {
    match e
    case Member(b, n) => Parts(b) + [Text("." + n)]
    case Index(b, k) => Parts(b) + [Group('[', k, ']')]
    case Paren(i) => [Group('(', i, ')')]
    case Not(x) => [Text("!")] + Parts(x)
    case Equal(op, l, r) => Parts(l) + ([Text(OpText(op))] + Parts(r))
    case Padded(b, i, a) => [Text(b)] + (Parts(i) + [Text(a)])
    case _ => [Text(Print(e))]
  }

  function ShowPart(p: Part): string {
    match p
    case Text(t) => t
    case Group(o, e, c) => [o] + (Print(e) + [c])
  }

  function Show(ps: seq<Part>): string {
    if ps == [] then "" else ShowPart(ps[0]) + Show(ps[1..])
  }

  lemma {:induction false} ShowConcat(a: seq<Part>, b: seq<Part>)
    ensures Show(a + b) == Show(a) + Show(b)
  {
    if a == [] {
      assert a + b == b;
    } else {
      assert (a + b)[1..] == a[1..] + b;
      ShowConcat(a[1..], b);
    }
  }

  lemma ShowOne(p: Part)
    ensures Show([p]) == ShowPart(p)
  {}

  lemma {:induction false} PrintIsShow(e: Expr)
    ensures Show(Parts(e)) == Print(e)
  {
    match e {
      case Member(b, n) =>
        PrintIsShow(b);
        ShowConcat(Parts(b), [Text("." + n)]);
        ShowOne(Text("." + n));
      case Index(b, k) =>
        PrintIsShow(b);
        ShowConcat(Parts(b), [Group('[', k, ']')]);
        ShowOne(Group('[', k, ']'));
      case Paren(i) => ShowOne(Group('(', i, ')'));
      case Not(x) =>
        PrintIsShow(x);
        ShowConcat([Text("!")], Parts(x));
        ShowOne(Text("!"));
      case Equal(op, l, r) =>
        PrintIsShow(l);
        PrintIsShow(r);
        ShowConcat(Parts(l), [Text(OpText(op))] + Parts(r));
        ShowConcat([Text(OpText(op))], Parts(r));
        ShowOne(Text(OpText(op)));
      case Padded(b, i, a) =>
        PrintIsShow(i);
        ShowConcat([Text(b)], Parts(i) + [Text(a)]);
        ShowConcat(Parts(i), [Text(a)]);
        ShowOne(Text(b));
        ShowOne(Text(a));
      case _ => ShowOne(Text(Print(e)));
    }
  }

  /** A part as it occurs in the print of a valid tree e. */
  ghost predicate PartOf(p: Part, e: Expr) {
    match p
    case Text(t) => NoBrackets(t)
    case Group(o, i, c) => Valid(i, false) && i < e && ((o == '[' && c == ']') || (o == '(' && c == ')'))
  }

  ghost predicate PartsOf(ps: seq<Part>, e: Expr) { forall p :: p in ps ==> PartOf(p, e) }

  lemma JoinOf(a: seq<Part>, b: seq<Part>, e: Expr)
    requires PartsOf(a, e) && PartsOf(b, e)
    ensures PartsOf(a + b, e)
  {}

  lemma LiftOf(ps: seq<Part>, d: Expr, e: Expr)
    requires PartsOf(ps, d) && d < e
    ensures PartsOf(ps, e)
  {}

  lemma LeafParts(e: Expr, asBase: bool)
    requires Valid(e, asBase) && (e.Word? || e.Num? || e.Name? || e.Quoted?)
    ensures Parts(e) == [Text(Print(e))] && NoBrackets(Print(e)) && Calm(Parts(e))
  {
    if e.Quoted? {
      QuotedHasNoPair(e.quote, e.body);
    } else {
      LeafIsPlain(e, asBase);
      PlainHasNoBrackets(Print(e));
    }
    CalmText(Print(e));
  }

  lemma {:induction false} PartsAreOf(e: Expr, asBase: bool)
    requires Valid(e, asBase)
    ensures PartsOf(Parts(e), e)
  {
    match e {
      case Member(b, n) =>
        PartsAreOf(b, true);
        LiftOf(Parts(b), b, e);
        MemberIsPlain(n);
        PlainHasNoBrackets("." + n);
        JoinOf(Parts(b), [Text("." + n)], e);
      case Index(b, k) =>
        PartsAreOf(b, true);
        LiftOf(Parts(b), b, e);
        JoinOf(Parts(b), [Group('[', k, ']')], e);
      case Paren(i) =>
      case Not(x) =>
        PartsAreOf(x, false);
        LiftOf(Parts(x), x, e);
        JoinOf([Text("!")], Parts(x), e);
      case Equal(op, l, r) =>
        PartsAreOf(l, false);
        PartsAreOf(r, false);
        LiftOf(Parts(l), l, e);
        LiftOf(Parts(r), r, e);
        JoinOf([Text(OpText(op))], Parts(r), e);
        JoinOf(Parts(l), [Text(OpText(op))] + Parts(r), e);
      case Padded(b, i, a) =>
        PartsAreOf(i, false);
        LiftOf(Parts(i), i, e);
        BlankHasNoBrackets(b);
        BlankHasNoBrackets(a);
        JoinOf(Parts(i), [Text(a)], e);
        JoinOf([Text(b)], Parts(i) + [Text(a)], e);
      case _ => LeafParts(e, asBase);
    }
  }

  lemma {:induction false} CloseSkips(e: Expr, asBase: bool, rest: string, d: nat)
    requires Valid(e, asBase) && d > 0
    ensures CloseAt(Print(e) + rest, d) == |Print(e)| + CloseAt(rest, d)
    decreases e, |Parts(e)| + 1
  {
    PartsAreOf(e, asBase);
    PrintIsShow(e);
    CloseSkipsParts(e, Parts(e), rest, d);
  }

  lemma {:induction false} CloseSkipsParts(e: Expr, ps: seq<Part>, rest: string, d: nat)
    requires PartsOf(ps, e) && d > 0
    ensures CloseAt(Show(ps) + rest, d) == |Show(ps)| + CloseAt(rest, d)
    decreases e, |ps|
  {
    if ps == [] {
      assert Show(ps) + rest == rest;
    } else {
      var tail := Show(ps[1..]) + rest;
      assert Show(ps) + rest == ShowPart(ps[0]) + tail;
      CloseSkipsParts(e, ps[1..], rest, d);
      assert ps[0] in ps;
      match ps[0] {
        case Text(t) => CloseSkipsText(t, tail, d);
        case Group(o, i, c) => CloseSkipsGroup(e, ps[0], tail, d);
      }
    }
  }

  lemma {:induction false} CloseSkipsGroup(e: Expr, p: Part, tail: string, d: nat)
    requires p.Group? && PartOf(p, e) && d > 0
    ensures CloseAt(ShowPart(p) + tail, d) == |ShowPart(p)| + CloseAt(tail, d)
    decreases e, 0
  {
    var behind := [p.close] + tail;
    var s := [p.open] + (Print(p.inner) + behind);
    assert ShowPart(p) + tail == s && s[1..] == Print(p.inner) + behind && behind[1..] == tail;
    CloseSkips(p.inner, false, behind, if p.open == '[' then d + 1 else d);
  }

  lemma {:induction false} WrapsSkips(e: Expr, asBase: bool, rest: string, d: int)
    requires Valid(e, asBase) && d > 0 && rest != ""
    ensures Wraps(Print(e) + rest, d) == Wraps(rest, d)
    decreases e, |Parts(e)| + 1
  {
    PartsAreOf(e, asBase);
    PrintIsShow(e);
    WrapsSkipsParts(e, Parts(e), rest, d);
  }

  lemma {:induction false} WrapsSkipsParts(e: Expr, ps: seq<Part>, rest: string, d: int)
    requires PartsOf(ps, e) && d > 0 && rest != ""
    ensures Wraps(Show(ps) + rest, d) == Wraps(rest, d)
    decreases e, |ps|
  {
    if ps == [] {
      assert Show(ps) + rest == rest;
    } else {
      var tail := Show(ps[1..]) + rest;
      assert Show(ps) + rest == ShowPart(ps[0]) + tail;
      WrapsSkipsParts(e, ps[1..], rest, d);
      assert ps[0] in ps;
      match ps[0] {
        case Text(t) => WrapsSkipsText(t, tail, d);
        case Group(o, i, c) => WrapsSkipsGroup(e, ps[0], tail, d);
      }
    }
  }

  lemma {:induction false} WrapsSkipsGroup(e: Expr, p: Part, tail: string, d: int)
    requires p.Group? && PartOf(p, e) && d > 0 && tail != ""
    ensures Wraps(ShowPart(p) + tail, d) == Wraps(tail, d)
    decreases e, 0
  {
    var behind := [p.close] + tail;
    var s := [p.open] + (Print(p.inner) + behind);
    assert ShowPart(p) + tail == s && s[1..] == Print(p.inner) + behind && behind[1..] == tail;
    WrapsSkips(p.inner, false, behind, if p.open == '(' then d + 1 else d);
  }

  /** Inside brackets the equality scanner sees nothing. */
  lemma {:induction false} DeepSkips(before: string, e: Expr, asBase: bool, rest: string, d: nat)
    requires Valid(e, asBase) && d > 0
    ensures TopLevel(before, Print(e) + rest, d) == TopLevel(before + Print(e), rest, d)
    decreases e, |Parts(e)| + 1
  {
    PartsAreOf(e, asBase);
    PrintIsShow(e);
    DeepSkipsParts(before, e, Parts(e), rest, d);
  }

  lemma {:induction false} DeepSkipsParts(before: string, e: Expr, ps: seq<Part>, rest: string, d: nat)
    requires PartsOf(ps, e) && d > 0
    ensures TopLevel(before, Show(ps) + rest, d) == TopLevel(before + Show(ps), rest, d)
    decreases e, |ps|
  {
    if ps == [] {
      assert Show(ps) + rest == rest && before + Show(ps) == before;
    } else {
      var tail := Show(ps[1..]) + rest;
      var done := before + ShowPart(ps[0]);
      assert Show(ps) + rest == ShowPart(ps[0]) + tail && done + Show(ps[1..]) == before + Show(ps);
      DeepSkipsParts(done, e, ps[1..], rest, d);
      assert ps[0] in ps;
      DeepSkipsPart(before, e, ps[0], tail, d);
    }
  }

  lemma {:induction false} DeepSkipsPart(before: string, e: Expr, p: Part, tail: string, d: nat)
    requires PartOf(p, e) && d > 0
    ensures TopLevel(before, ShowPart(p) + tail, d) == TopLevel(before + ShowPart(p), tail, d)
    decreases e, 0, 1
  {
    if p.Text? {
      DeepSkipsText(before, p.text, tail, d);
    } else {
      GroupSkipped(before, e, p, tail, d);
    }
  }

  /** A bracketed tree is skipped at any depth. */
  lemma {:induction false} GroupSkipped(before: string, e: Expr, p: Part, tail: string, d: nat)
    requires p.Group? && PartOf(p, e)
    ensures TopLevel(before, ShowPart(p) + tail, d) == TopLevel(before + ShowPart(p), tail, d)
    decreases e, 0, 0
  {
    var behind := [p.close] + tail;
    var s := [p.open] + (Print(p.inner) + behind);
    assert ShowPart(p) + tail == s && s[1..] == Print(p.inner) + behind && behind[1..] == tail;
    DeepSkips(before + [p.open], p.inner, false, behind, d + 1);
    assert before + [p.open] + Print(p.inner) + [p.close] == before + ShowPart(p);
  }

  /** No operator can begin in a text part or across its end. */
  predicate Calm(ps: seq<Part>) {
    ps != [] ==>
      && Calm(ps[1..])
      && (ps[0].Text? ==>
            && NoPair(ps[0].text)
            && (ps[0].text != "" && EqChar(ps[0].text[|ps[0].text| - 1]) ==> Show(ps[1..]) != "" && Show(ps[1..])[0] != '='))
  }

  lemma {:induction false} CalmConcat(a: seq<Part>, b: seq<Part>)
    requires Calm(a) && Calm(b)
    ensures Calm(a + b)
  {
    if a == [] {
      assert a + b == b;
    } else {
      assert (a + b)[0] == a[0] && (a + b)[1..] == a[1..] + b;
      CalmConcat(a[1..], b);
      ShowConcat(a[1..], b);
      var r := Show(a[1..]);
      assert Show((a + b)[1..]) == r + Show(b);
      assert r != "" ==> (r + Show(b))[0] == r[0];
    }
  }

  lemma CalmText(t: string)
    requires NoPair(t) && (t != "" ==> !EqChar(t[|t| - 1]))
    ensures Calm([Text(t)])
  {}

  lemma CalmGroup(p: Part)
    requires p.Group?
    ensures Calm([p])
  {}

  lemma {:induction false} PartsAreCalm(e: Expr, asBase: bool)
    requires Valid(e, asBase) && !Core(e).Equal?
    ensures Calm(Parts(e))
  {
    match e {
      case Member(b, n) =>
        PartsAreCalm(b, true);
        MemberIsPlain(n);
        PlainHasNoBrackets("." + n);
        CalmText("." + n);
        CalmConcat(Parts(b), [Text("." + n)]);
      case Index(b, k) =>
        PartsAreCalm(b, true);
        CalmGroup(Group('[', k, ']'));
        CalmConcat(Parts(b), [Group('[', k, ']')]);
      case Paren(i) => CalmGroup(Group('(', i, ')'));
      case Not(x) =>
        PartsAreCalm(x, false);
        LeftEdge(x, false);
        PrintIsShow(x);
        assert Parts(e)[1..] == Parts(x);
      case Padded(b, i, a) =>
        PartsAreCalm(i, false);
        BlankHasNoBrackets(b);
        BlankHasNoBrackets(a);
        CalmText(b);
        CalmText(a);
        CalmConcat(Parts(i), [Text(a)]);
        CalmConcat([Text(b)], Parts(i) + [Text(a)]);
      case _ => LeafParts(e, asBase);
    }
  }

  /** Outside brackets it sees nothing either, unless the tree itself is an equality. */
  lemma {:induction false} FlatSkips(before: string, e: Expr, asBase: bool, rest: string)
    requires Valid(e, asBase) && !Core(e).Equal?
    ensures TopLevel(before, Print(e) + rest, 0) == TopLevel(before + Print(e), rest, 0)
  {
    PartsAreOf(e, asBase);
    PartsAreCalm(e, asBase);
    PrintIsShow(e);
    FlatSkipsParts(before, e, Parts(e), rest);
  }

  lemma {:induction false} FlatSkipsParts(before: string, e: Expr, ps: seq<Part>, rest: string)
    requires PartsOf(ps, e) && Calm(ps)
    ensures TopLevel(before, Show(ps) + rest, 0) == TopLevel(before + Show(ps), rest, 0)
    decreases |ps|
  {
    if ps == [] {
      assert Show(ps) + rest == rest && before + Show(ps) == before;
    } else {
      FlatSkipsPart(before, e, ps, rest);
      FlatSkipsParts(before + ShowPart(ps[0]), e, ps[1..], rest);
      ShowHead(before, ps, rest);
    }
  }

  lemma ShowHead(before: string, ps: seq<Part>, rest: string)
    requires ps != []
    ensures Show(ps) + rest == ShowPart(ps[0]) + (Show(ps[1..]) + rest)
    ensures before + ShowPart(ps[0]) + Show(ps[1..]) == before + Show(ps)
  {
    Assoc(ShowPart(ps[0]), Show(ps[1..]), rest);
    Assoc(before, ShowPart(ps[0]), Show(ps[1..]));
  }

  lemma Assoc(a: string, b: string, c: string)
    ensures (a + b) + c == a + (b + c)
  {}

  lemma FlatSkipsPart(before: string, e: Expr, ps: seq<Part>, rest: string)
    requires ps != [] && PartsOf(ps, e) && Calm(ps)
    ensures var tail := Show(ps[1..]) + rest;
            TopLevel(before, ShowPart(ps[0]) + tail, 0) == TopLevel(before + ShowPart(ps[0]), tail, 0)
  {
    assert ps[0] in ps;
    if ps[0].Text? {
      FlatSkipsTextPart(before, e, ps, rest);
    } else {
      GroupSkipped(before, e, ps[0], Show(ps[1..]) + rest, 0);
    }
  }

  lemma FlatSkipsTextPart(before: string, e: Expr, ps: seq<Part>, rest: string)
    requires ps != [] && ps[0].Text? && PartOf(ps[0], e) && Calm(ps)
    ensures var tail := Show(ps[1..]) + rest;
            TopLevel(before, ps[0].text + tail, 0) == TopLevel(before + ps[0].text, tail, 0)
  {
    var next := Show(ps[1..]);
    assert next != "" ==> (next + rest)[0] == next[0];
    FlatSkipsText(before, ps[0].text, next + rest);
  }

  lemma QuotedHasNoPair(q: char, b: string)
    requires IsQuote(q) && NoPair(b)
    ensures NoPair([q] + (b + [q]))
  {}

  // ---- Paths -------------------------------------------------------------------------

  lemma {:induction false} PartLenStops(s: string, rest: string)
    requires PartLen(s) == |s| && (rest == "" || !IdentPart(rest[0]))
    ensures PartLen(s + rest) == |s|
  {
    if s == "" {
      assert s + rest == rest;
    } else {
      assert (s + rest)[1..] == s[1..] + rest;
      PartLenStops(s[1..], rest);
    }
  }

  lemma IdentLenStops(s: string, rest: string)
    requires IsIdent(s) && (rest == "" || !IdentPart(rest[0]))
    ensures IdentLen(s + rest) == |s|
  {
    assert (s + rest)[1..] == s[1..] + rest;
    PartLenStops(s[1..], rest);
  }

  lemma {:induction false} DigitLenStops(s: string, rest: string)
    requires DigitLen(s) == |s| && (rest == "" || !IsDigit(rest[0]))
    ensures DigitLen(s + rest) == |s|
  {
    if s == "" {
      assert s + rest == rest;
    } else {
      assert (s + rest)[1..] == s[1..] + rest;
      DigitLenStops(s[1..], rest);
    }
  }

  lemma MemberLenStops(n: string, rest: string)
    requires IsMemberName(n) && (rest == "" || !IdentPart(rest[0]))
    ensures MemberLen(n + rest) == |n|
  {
    if IsIdent(n) {
      IdentLenStops(n, rest);
    } else {
      DigitChars(n);
      assert n[0] in n;
      assert (n + rest)[0] == n[0];
      DigitLenStops(n, rest);
    }
  }

  predicate Continues(rest: string) { rest == "" || !IdentPart(rest[0]) }

  /** The path loop, run over a printed path, arrives behind it with the path's value. */
  lemma {:induction false} WalksPath<V>(h: Host<V>, vals: V, e: Expr, rest: string)
    requires IsPath(e) && Valid(e, true) && Continues(rest)
    ensures ResolvePath(h, vals, Print(e) + rest) == Walk(h, vals, rest, Eval(h, vals, e))
    decreases e, 0, 0
  {
    match e {
      case Name(id) =>
        IdentLenStops(id, rest);
        assert (id + rest)[..|id|] == id && (id + rest)[|id|..] == rest;
      case Member(b, n) =>
        var tail := "." + (n + rest);
        assert Print(e) + rest == Print(b) + tail;
        WalksPath(h, vals, b, tail);
        WalkMember(h, vals, n, rest, Eval(h, vals, b));
      case Index(b, k) =>
        var tail := "[" + (Print(k) + ("]" + rest));
        assert Print(e) + rest == Print(b) + tail;
        WalksPath(h, vals, b, tail);
        WalkIndex(h, vals, k, rest, Eval(h, vals, b));
        Agrees(h, vals, k);
    }
  }

  lemma WalkMember<V>(h: Host<V>, vals: V, n: string, rest: string, cur: V)
    requires IsMemberName(n) && Continues(rest)
    ensures Walk(h, vals, "." + (n + rest), cur) == Walk(h, vals, rest, h.Get(cur, h.str(n)))
  {
    MemberLenStops(n, rest);
    Sliced('.', n, rest);
  }

  lemma Sliced(c: char, n: string, rest: string)
    ensures var tail := [c] + (n + rest);
            tail[1..] == n + rest && tail[1..1 + |n|] == n && tail[1 + |n|..] == rest
  {}

  lemma WalkIndex<V>(h: Host<V>, vals: V, k: Expr, rest: string, cur: V)
    requires Valid(k, false)
    ensures Walk(h, vals, "[" + (Print(k) + ("]" + rest)), cur) == Walk(h, vals, rest, h.Get(cur, Resolve(h, vals, Print(k))))
  {
    var behind := "]" + rest;
    var tail := "[" + (Print(k) + behind);
    assert tail[1..] == Print(k) + behind;
    CloseSkips(k, false, behind, 1);
    var n := |Print(k)|;
    assert CloseAt(behind, 1) == 0;
    assert tail[1..1 + n] == Print(k);
    assert tail[n + 2..] == rest;
  }

  // ---- Agreement ---------------------------------------------------------------------

  /** An equality that begins with a parenthesis is not one parenthesised whole. */
  lemma {:induction false} NotWrapped(e: Expr, rest: string)
    requires Valid(e, false) && !Core(e).Equal? && rest != ""
    requires Print(e) != "" && Print(e)[0] == '('
    ensures !Wraps(Print(e) + rest, 0)
  {
    if e.Padded? {
      LeftEdge(e.inner, false);
      assert e.before == "" by {
        BlankStartsNoParen(e.before);
      }
      assert Print(e) == Print(e.inner) + e.after;
      assert Print(e) + rest == Print(e.inner) + (e.after + rest);
      NotWrapped(e.inner, e.after + rest);
    } else {
      OnlyParenStartsSo(e);
      var tail := ")" + rest;
      var s := "(" + (Print(e.inner) + tail);
      assert Print(e) + rest == s && s[1..] == Print(e.inner) + tail;
      WrapsSkips(e.inner, false, tail, 1);
    }
  }

  lemma BlankStartsNoParen(b: string)
    requires Blank(b)
    ensures b != "" ==> b[0] != '('
  {
    if b != "" {
      assert b[0] in b;
    }
  }

  lemma OnlyParenStartsSo(e: Expr)
    requires Valid(e, false) && !e.Padded? && !e.Equal? && Print(e) != "" && Print(e)[0] == '('
    ensures e.Paren?
  {}

  lemma WholeParen(i: Expr)
    requires Valid(i, false)
    ensures Wraps(Print(Paren(i)), 0)
  {
    var s := Print(Paren(i));
    assert s[1..] == Print(i) + ")";
    WrapsSkips(i, false, ")", 1);
  }

  lemma NoEquality(c: Expr)
    requires Valid(c, false) && !Core(c).Equal?
    ensures TopLevel("", Print(c), 0) == None
  {
    FlatSkips("", c, false, "");
    assert Print(c) + "" == Print(c) && "" + Print(c) == Print(c);
  }

  lemma EqualityFound(c: Expr)
    requires Valid(c, false) && c.Equal?
    ensures TopLevel("", Print(c), 0) == Some(Hit(|Print(c.left)|, c.op))
  {
    var l, rest := Print(c.left), OpText(c.op) + Print(c.right);
    RightEdge(c.left, false);
    LeftEdge(c.right, false);
    FlatSkips("", c.left, false, rest);
    assert "" + l == l;
    TrimPrint(c.left);
    OperatorRead(c.op, Print(c.right));
    HitHere(l, rest);
  }

  lemma HitHere(before: string, s: string)
    requires |s| > 1 && EqChar(s[0]) && s[1] == '='
    requires before != "" && !EqChar(before[|before| - 1]) && Trim(before) != ""
    ensures TopLevel(before, s, 0) == Some(Hit(|before|, OperatorOf(s)))
  {}

  lemma OperatorRead(op: Op, r: string)
    requires r != "" && r[0] != '='
    ensures var s := OpText(op) + r; |s| > 1 && EqChar(s[0]) && s[1] == '=' && OperatorOf(s) == op
  {}

  lemma EqualityNotWrapped(c: Expr)
    requires Valid(c, false) && c.Equal? && Print(c)[0] == '('
    ensures !Wraps(Print(c), 0)
  {
    LeftEdge(c.left, false);
    assert Print(c)[0] == Print(c.left)[0];
    NotWrapped(c.left, OpText(c.op) + Print(c.right));
  }

  lemma KeywordsAreLetters(s: string)
    requires IsKeyword(s)
    ensures forall k :: 0 <= k < |s| ==> 'a' <= s[k] <= 'z'
  {}

  lemma PathIsNoKeyword(c: Expr)
    requires Valid(c, false) && IsPath(c)
    ensures !IsKeyword(Print(c)) && !IsNumber(Print(c))
  {
    LeftEdge(c, false);
    var s := Print(c);
    if !c.Name? {
      var k := |Print(c.base)|;
      assert s[k] == '.' || s[k] == '[';
      if IsKeyword(s) {
        KeywordsAreLetters(s);
      }
    }
  }

  // The branch that Resolve takes on a text whose trimmed form is `expr`.

  lemma TakesParen<V>(h: Host<V>, vals: V, src: string, expr: string, inner: string)
    requires Trim(src) == expr && |expr| >= 2 && expr[0] == '(' && expr[|expr| - 1] == ')' && Wraps(expr, 0)
    requires inner == expr[1..|expr| - 1]
    ensures Resolve(h, vals, src) == Resolve(h, vals, inner)
  {}

  /** The first equality of the text is `eq`, with l before it and r after it. */
  predicate SplitsAt(expr: string, eq: Hit, l: string, r: string) {
    && TopLevel("", expr, 0) == Some(eq) && eq.index + |OpText(eq.op)| <= |expr|
    && expr[..eq.index] == l && expr[eq.index + |OpText(eq.op)|..] == r
  }

  lemma TakesEquality<V>(h: Host<V>, vals: V, src: string, expr: string, eq: Hit, l: string, r: string)
    requires Trim(src) == expr && expr != "" && (expr[0] == '(' ==> !Wraps(expr, 0))
    requires SplitsAt(expr, eq, l, r)
    ensures Resolve(h, vals, src) == Compare(h, eq.op, Resolve(h, vals, l), Resolve(h, vals, r))
  {}

  lemma TakesNot<V>(h: Host<V>, vals: V, src: string, expr: string)
    requires Trim(src) == expr && expr != "" && expr[0] == '!' && TopLevel("", expr, 0) == None
    ensures Resolve(h, vals, src) == h.Bool(!h.truthy(Resolve(h, vals, expr[1..])))
  {}

  lemma TakesLeaf<V>(h: Host<V>, vals: V, src: string, expr: string)
    requires Trim(src) == expr && expr != "" && expr[0] != '(' && expr[0] != '!' && TopLevel("", expr, 0) == None
    ensures Resolve(h, vals, src)
            == if IsKeyword(expr) then KeywordValue(h, expr)
               else if IsNumber(expr) then h.num(expr)
               else if |expr| >= 2 && IsQuote(expr[0]) && expr[|expr| - 1] == expr[0] then h.str(expr[1..|expr| - 1])
               else ResolvePath(h, vals, expr)
  {}

  /** Main theorem: resolving the printed tree, however it is spaced and parenthesised, is
      evaluating the tree. */
  lemma {:induction false} Agrees<V>(h: Host<V>, vals: V, e: Expr)
    requires Valid(e, false)
    ensures Resolve(h, vals, Print(e)) == Eval(h, vals, e)
    decreases e, 2
  {
    TrimPrint(e);
    CoreEval(h, vals, e);
    CoreAgrees(h, vals, Core(e), Print(e));
  }

  lemma {:induction false} CoreEval<V>(h: Host<V>, vals: V, e: Expr)
    ensures Eval(h, vals, e) == Eval(h, vals, Core(e))
    ensures e.Padded? ==> Core(e) < e
  {
    if e.Padded? {
      CoreEval(h, vals, e.inner);
    }
  }

  lemma {:induction false} CoreAgrees<V>(h: Host<V>, vals: V, c: Expr, src: string)
    requires Valid(c, false) && !c.Padded? && Trim(src) == Print(c)
    ensures Resolve(h, vals, src) == Eval(h, vals, c)
    decreases c, 1
  {
    if c.Paren? {
      Agrees(h, vals, c.inner);
      ParenAgrees(h, vals, c, src);
    } else if c.Equal? {
      Agrees(h, vals, c.left);
      Agrees(h, vals, c.right);
      EqualAgrees(h, vals, c, src);
    } else if c.Not? {
      Agrees(h, vals, c.operand);
      NotAgrees(h, vals, c, src);
    } else {
      LeafAgrees(h, vals, c, src);
    }
  }

  lemma ParenAgrees<V>(h: Host<V>, vals: V, c: Expr, src: string)
    requires Valid(c, false) && c.Paren? && Trim(src) == Print(c)
    requires Resolve(h, vals, Print(c.inner)) == Eval(h, vals, c.inner)
    ensures Resolve(h, vals, src) == Eval(h, vals, c)
  {
    var expr := Print(c);
    WholeParen(c.inner);
    assert expr[1..|expr| - 1] == Print(c.inner);
    TakesParen(h, vals, src, expr, Print(c.inner));
  }

  lemma EqualResolves<V>(h: Host<V>, vals: V, c: Expr, src: string)
    requires Valid(c, false) && c.Equal? && Trim(src) == Print(c)
    ensures Resolve(h, vals, src) == Compare(h, c.op, Resolve(h, vals, Print(c.left)), Resolve(h, vals, Print(c.right)))
  {
    EqualityBranch(c);
    TakesEquality(h, vals, src, Print(c), Hit(|Print(c.left)|, c.op), Print(c.left), Print(c.right));
  }

  lemma ComparesRight<V>(h: Host<V>, op: Op, l: V, r: V)
    ensures Compare(h, op, l, r) == if Holds(h, op, l, r) then h.yes else h.no
  {}

  lemma EqualAgrees<V>(h: Host<V>, vals: V, c: Expr, src: string)
    requires Valid(c, false) && c.Equal? && Trim(src) == Print(c)
    requires Resolve(h, vals, Print(c.left)) == Eval(h, vals, c.left)
    requires Resolve(h, vals, Print(c.right)) == Eval(h, vals, c.right)
    ensures Resolve(h, vals, src) == Eval(h, vals, c)
  {
    EqualResolves(h, vals, c, src);
    ComparesRight(h, c.op, Eval(h, vals, c.left), Eval(h, vals, c.right));
  }

  lemma NotAgrees<V>(h: Host<V>, vals: V, c: Expr, src: string)
    requires Valid(c, false) && c.Not? && Trim(src) == Print(c)
    requires Resolve(h, vals, Print(c.operand)) == Eval(h, vals, c.operand)
    ensures Resolve(h, vals, src) == Eval(h, vals, c)
  {
    NoEquality(c);
    LeftEdge(c, false);
    TakesNot(h, vals, src, Print(c));
    assert Print(c)[1..] == Print(c.operand);
  }

  lemma EqualityBranch(c: Expr)
    requires Valid(c, false) && c.Equal?
    ensures var expr := Print(c);
            && expr != "" && (expr[0] == '(' ==> !Wraps(expr, 0))
            && SplitsAt(expr, Hit(|Print(c.left)|, c.op), Print(c.left), Print(c.right))
  {
    LeftEdge(c, false);
    EqualityFound(c);
    if Print(c)[0] == '(' {
      EqualityNotWrapped(c);
    }
    SliceJoin(Print(c.left), OpText(c.op), Print(c.right));
  }

  lemma SliceJoin(a: string, b: string, c: string)
    ensures var s := a + (b + c); s[..|a|] == a && s[|a| + |b|..] == c
  {}

  lemma {:induction false} LeafAgrees<V>(h: Host<V>, vals: V, c: Expr, src: string)
    requires Valid(c, false) && (c.Word? || c.Num? || c.Quoted? || IsPath(c)) && Trim(src) == Print(c)
    ensures Resolve(h, vals, src) == Eval(h, vals, c)
    decreases c, 0, 1
  {
    if IsPath(c) {
      assert Print(c) + "" == Print(c);
      WalksPath(h, vals, c, "");
      PathAgrees(h, vals, c, src);
    } else {
      LiteralAgrees(h, vals, c, src);
    }
  }

  lemma PathAgrees<V>(h: Host<V>, vals: V, c: Expr, src: string)
    requires Valid(c, false) && IsPath(c) && Trim(src) == Print(c)
    requires ResolvePath(h, vals, Print(c)) == Eval(h, vals, c)
    ensures Resolve(h, vals, src) == Eval(h, vals, c)
  {
    NoEquality(c);
    LeftEdge(c, false);
    PathIsNoKeyword(c);
    TakesLeaf(h, vals, src, Print(c));
  }

  lemma LiteralAgrees<V>(h: Host<V>, vals: V, c: Expr, src: string)
    requires Valid(c, false) && (c.Word? || c.Num? || c.Quoted?) && Trim(src) == Print(c)
    ensures Resolve(h, vals, src) == Eval(h, vals, c)
  {
    NoEquality(c);
    LeftEdge(c, false);
    TakesLeaf(h, vals, src, Print(c));
    if c.Num? {
      NumberChars(c.text);
    } else if c.Quoted? {
      assert Print(c)[1..|Print(c)| - 1] == c.body;
    }
  }

  lemma QuotedIsTight(q: char, body: string)
    requires IsQuote(q)
    ensures var text := [q] + (body + [q]);
            Trim(text) == text && text[1..|text| - 1] == body && text[0] == q == text[|text| - 1]
            && !IsKeyword(text) && !IsNumber(text)
  {}

  /** A quoted text on its own evaluates to its body if and only if the scanner finds no
      equality operator in it; that is the whole of what quoting fails to protect. */
  lemma QuotedExact<V>(h: Host<V>, vals: V, q: char, body: string)
    requires IsQuote(q)
    requires h.str(body) != h.yes && h.str(body) != h.no
    ensures var text := [q] + (body + [q]);
            Resolve(h, vals, text) == h.str(body) <==> TopLevel("", text, 0) == None
  {
    var text := [q] + (body + [q]);
    QuotedIsTight(q, body);
    var hit := TopLevel("", text, 0);
    if hit == None {
      TakesLeaf(h, vals, text, text);
    } else {
      var eq := hit.value;
      TakesEquality(h, vals, text, text, eq, text[..eq.index], text[eq.index + |OpText(eq.op)|..]);
    }
  }

  /** Quoting does not hide an operator: this literal resolves as a comparison. */
  lemma QuotedOperatorLeaks()
    ensures TopLevel("", "'a" + ("==" + "b'"), 0) == Some(Hit(2, LooseEq))
  {
    FlatSkipsText("", "'a", "==" + "b'");
    assert "" + "'a" == "'a";
    assert TrimStart("'a") == "'a" && TrimEnd("'a") == "'a";
    OperatorRead(LooseEq, "b'");
    assert OperatorAt("'a", "==" + "b'");
  }
}
