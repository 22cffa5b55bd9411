/** The template expression evaluator of the console prototype runtime: a recursive
    resolver that finds its way by scanning the text for brackets and operators. */
module Expressions {
  import opened Options
  import opened Text

  /** The JavaScript values and operations that an expression is evaluated over. */
  datatype Host<!V> = Host(
    undef: V, nul: V, yes: V, no: V,
    num: string -> V,
    str: string -> V,
    nullish: V -> bool,
    truthy: V -> bool,
    get: (V, V) -> V,
    strictEq: (V, V) -> bool,
    looseEq: (V, V) -> bool)
  {
    function Bool(b: bool): V { if b then yes else no }

    /** Property access that yields undefined on null and undefined. */
    function Get(v: V, key: V): V { if nullish(v) then undef else get(v, key) }
  }

  datatype Op = StrictEq | StrictNe | LooseEq | LooseNe

  function OpText(op: Op): string {
    match op
    case StrictEq => "==="
    case StrictNe => "!=="
    case LooseEq => "=="
    case LooseNe => "!="
  }

  function Compare<V>(h: Host<V>, op: Op, l: V, r: V): V {
    match op
    case StrictEq => h.Bool(h.strictEq(l, r))
    case StrictNe => h.Bool(!h.strictEq(l, r))
    case LooseEq => h.Bool(h.looseEq(l, r))
    case LooseNe => h.Bool(!h.looseEq(l, r))
  }

  // ---- Lexical shapes ----------------------------------------------------------------

  predicate IdentStart(c: char) { 'A' <= c <= 'Z' || 'a' <= c <= 'z' || c == '_' || c == '$' }
  predicate IdentPart(c: char) { IdentStart(c) || IsDigit(c) }

  function PartLen(s: string): (n: nat)
    ensures n <= |s|
  {
    if s == "" || !IdentPart(s[0]) then 0 else 1 + PartLen(s[1..])
  }

  /** Length of the identifier at the start of the text, 0 when there is none. */
  function IdentLen(s: string): (n: nat)
    ensures n <= |s|
  {
    if s == "" || !IdentStart(s[0]) then 0 else 1 + PartLen(s[1..])
  }

  function DigitLen(s: string): (n: nat)
    ensures n <= |s|
  {
    if s == "" || !IsDigit(s[0]) then 0 else 1 + DigitLen(s[1..])
  }

  /** What may follow a dot: an identifier or a run of digits. */
  function MemberLen(s: string): (n: nat)
    ensures n <= |s|
  {
    if IdentLen(s) > 0 then IdentLen(s) else DigitLen(s)
  }

  /** An optional sign, digits, and optionally a dot and more digits. */
  predicate IsNumber(s: string) {
    var t := if s != "" && s[0] == '-' then s[1..] else s;
    var n := DigitLen(t);
    n > 0 && (n == |t| || (t[n] == '.' && |t| > n + 1 && DigitLen(t[n + 1..]) == |t| - n - 1))
  }

  predicate IsKeyword(s: string) { s == "true" || s == "false" || s == "null" || s == "undefined" }

  predicate IsQuote(c: char) { c == '"' || c == '\'' }

  // ---- The scanners ------------------------------------------------------------------

  /** From depth `depth`, no closing parenthesis but the last character ends the group. */
  predicate Wraps(s: string, depth: int) {
    if |s| <= 1 then true
    else if s[0] == '(' then Wraps(s[1..], depth + 1)
    else if s[0] == ')' then depth - 1 != 0 && Wraps(s[1..], depth - 1)
    else Wraps(s[1..], depth)
  }

  datatype Hit = Hit(index: nat, op: Op)

  predicate Opens(c: char) { c == '[' || c == '(' }
  predicate Closes(c: char) { c == ']' || c == ')' }
  predicate EqChar(c: char) { c == '=' || c == '!' }

  /** An equality operator starts here, after `before`. */
  predicate OperatorAt(before: string, s: string) {
    && |s| > 1 && EqChar(s[0]) && s[1] == '='
    && !(before != "" && EqChar(before[|before| - 1]))
    && Trim(before) != ""
  }

  function OperatorOf(s: string): Op
    requires |s| > 1 && EqChar(s[0])
  {
    if |s| > 2 && s[2] == '=' then (if s[0] == '=' then StrictEq else StrictNe)
    else (if s[0] == '=' then LooseEq else LooseNe)
  }

  /** First equality operator outside brackets in `s`, which follows `before`. */
  function TopLevel(before: string, s: string, depth: int): (hit: Option<Hit>)
    ensures hit.Some? ==> |before| <= hit.value.index
                          && hit.value.index + |OpText(hit.value.op)| <= |before| + |s|
    decreases |s|
  {
    if s == "" then None
    else if Opens(s[0]) then TopLevel(before + [s[0]], s[1..], depth + 1)
    else if Closes(s[0]) then TopLevel(before + [s[0]], s[1..], depth - 1)
    else if depth == 0 && OperatorAt(before, s) then Some(Hit(|before|, OperatorOf(s)))
    else TopLevel(before + [s[0]], s[1..], depth)
  }

  /** Offset of the bracket that closes the group, the length when there is none. */
  function CloseAt(s: string, depth: nat): (n: nat)
    requires depth > 0
    ensures n <= |s|
  {
    if s == "" then 0
    else if s[0] == '[' then 1 + CloseAt(s[1..], depth + 1)
    else if s[0] == ']' then (if depth == 1 then 0 else 1 + CloseAt(s[1..], depth - 1))
    else 1 + CloseAt(s[1..], depth)
  }

  // ---- The resolver ------------------------------------------------------------------

  /** Every recursive call is on a strictly shorter text, so any input is resolved. */
  function Resolve<V>(h: Host<V>, vals: V, src: string): V
    decreases |src|, 1
  {
    var expr := Trim(src);
    if expr == "" then h.undef
    else if expr[0] == '(' && expr[|expr| - 1] == ')' && Wraps(expr, 0) then
      Resolve(h, vals, expr[1..|expr| - 1])
    else
      match TopLevel("", expr, 0)
      case Some(eq) =>
        Compare(h, eq.op,
                Resolve(h, vals, expr[..eq.index]),
                Resolve(h, vals, expr[eq.index + |OpText(eq.op)|..]))
      case None =>
        if expr[0] == '!' then h.Bool(!h.truthy(Resolve(h, vals, expr[1..])))
        else if expr == "true" then h.yes
        else if expr == "false" then h.no
        else if expr == "null" then h.nul
        else if expr == "undefined" then h.undef
        else if IsNumber(expr) then h.num(expr)
        else if |expr| >= 2 && IsQuote(expr[0]) && expr[|expr| - 1] == expr[0] then h.str(expr[1..|expr| - 1])
        else ResolvePath(h, vals, expr)
  }

  function ResolvePath<V>(h: Host<V>, vals: V, expr: string): V
    decreases |expr|, 0
  {
    var n := IdentLen(expr);
    if n == 0 then h.undef else Walk(h, vals, expr[n..], h.Get(vals, h.str(expr[..n])))
  }

  function Walk<V>(h: Host<V>, vals: V, rest: string, cur: V): V
    decreases |rest|, 0
  {
    if rest == "" then cur
    else if rest[0] == '.' then
      var m := MemberLen(rest[1..]);
      if m == 0 then h.undef
      else Walk(h, vals, rest[1 + m..], h.Get(cur, h.str(rest[1..1 + m])))
    else if rest[0] == '[' then
      var n := CloseAt(rest[1..], 1);
      if n == |rest| - 1 then h.undef
      else Walk(h, vals, rest[n + 2..], h.Get(cur, Resolve(h, vals, rest[1..1 + n])))
    else h.undef
  }

  // ---- The loops as the runtime writes them ------------------------------------------

  method ParensWrapWhole(expr: string) returns (whole: bool)
    ensures whole == Wraps(expr, 0)
  {
    var depth, i := 0, 0;
    while i < |expr| - 1
      invariant 0 <= i && (|expr| > 0 ==> i <= |expr| - 1) && (expr == "" ==> i == 0)
      invariant Wraps(expr, 0) == Wraps(expr[i..], depth)
    {
      assert expr[i..][0] == expr[i] && expr[i..][1..] == expr[i + 1..];
      if expr[i] == '(' {
        depth := depth + 1;
      } else if expr[i] == ')' {
        depth := depth - 1;
        if depth == 0 {
          return false;
        }
      }
      i := i + 1;
    }
    return true;
  }

  method FindTopLevelEquality(expr: string) returns (hit: Option<Hit>)
    ensures hit == TopLevel("", expr, 0)
  {
    var depth, i := 0, 0;
    assert expr[..0] == "" && expr[0..] == expr;
    while i < |expr|
      invariant 0 <= i <= |expr|
      invariant TopLevel("", expr, 0) == TopLevel(expr[..i], expr[i..], depth)
    {
      var c := expr[i];
      assert expr[i..][0] == c && expr[i..][1..] == expr[i + 1..] && expr[..i] + [c] == expr[..i + 1];
      if c == '[' || c == '(' {
        depth := depth + 1;
      } else if c == ']' || c == ')' {
        depth := depth - 1;
      } else if depth == 0 && (c == '=' || c == '!') && i + 1 < |expr| && expr[i + 1] == '=' {
        assert i > 0 ==> expr[..i][|expr[..i]| - 1] == expr[i - 1];
        if !(i > 0 && (expr[i - 1] == '=' || expr[i - 1] == '!')) && Trim(expr[..i]) != "" {
          var triple := i + 2 < |expr| && expr[i + 2] == '=';
          return Some(Hit(i, if triple then (if c == '=' then StrictEq else StrictNe)
                             else (if c == '=' then LooseEq else LooseNe)));
        }
      }
      i := i + 1;
    }
    assert expr[i..] == "";
    return None;
  }

  /** The runtime keeps a position in the text; here `rest` is the text from there on. */
  method WalkPath<V>(h: Host<V>, vals: V, expr: string) returns (cur: V)
    ensures cur == ResolvePath(h, vals, expr)
  {
    var n := IdentLen(expr);
    if n == 0 {
      return h.undef;
    }
    var rest := expr[n..];
    cur := h.Get(vals, h.str(expr[..n]));
    while rest != ""
      invariant ResolvePath(h, vals, expr) == Walk(h, vals, rest, cur)
      decreases |rest|
    {
      if rest[0] == '.' {
        var m := MemberLen(rest[1..]);
        if m == 0 {
          return h.undef;
        }
        cur := h.Get(cur, h.str(rest[1..1 + m]));
        rest := rest[1 + m..];
      } else if rest[0] == '[' {
        var j := MatchingBracket(rest, 1);
        if j == |rest| {
          return h.undef;
        }
        cur := h.Get(cur, Resolve(h, vals, rest[1..j]));
        rest := rest[j + 1..];
      } else {
        return h.undef;
      }
    }
  }

  method MatchingBracket(expr: string, start: nat) returns (j: nat)
    requires start <= |expr|
    ensures j == start + CloseAt(expr[start..], 1)
  {
    var depth := 1;
    j := start;
    while j < |expr|
      invariant start <= j <= |expr| && depth > 0
      invariant start + CloseAt(expr[start..], 1) == j + CloseAt(expr[j..], depth)
    {
      assert expr[j..][0] == expr[j] && expr[j..][1..] == expr[j + 1..];
      if expr[j] == '[' {
        depth := depth + 1;
      } else if expr[j] == ']' {
        if depth == 1 {
          return;
        }
        depth := depth - 1;
      }
      j := j + 1;
    }
  }
}
