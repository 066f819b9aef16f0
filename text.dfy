/** The string operations of JavaScript that the core relies on:
    `String.prototype.trim`, `toLowerCase`, `includes`, `Array.prototype.join`. */
module Text {

  /** ECMAScript WhiteSpace and LineTerminator code points, the characters
      `trim` removes: TAB, LF, VT, FF, CR, SPACE, NBSP, the Unicode space
      separators (Zs), LS, PS and the byte-order mark. */
  predicate IsJsWhitespace(c: char) {
    || c == '\t' || c == '\n' || c == '\U{000B}' || c == '\U{000C}' || c == '\r'
    || c == ' ' || c == '\U{00A0}' || c == '\U{1680}'
    || ('\U{2000}' <= c <= '\U{200A}')
    || c == '\U{2028}' || c == '\U{2029}' || c == '\U{202F}' || c == '\U{205F}'
    || c == '\U{3000}' || c == '\U{FEFF}'
  }

  predicate AllWhitespace(s: string) {
    forall i :: 0 <= i < |s| ==> IsJsWhitespace(s[i])
  }

  /** Drops the leading whitespace: the result is a suffix of `s`, everything
      dropped is whitespace and the result does not start with whitespace. */
  function TrimStart(s: string): (r: string)
    ensures |r| <= |s| && r == s[|s| - |r|..]
    ensures forall i :: 0 <= i < |s| - |r| ==> IsJsWhitespace(s[i])
    ensures r == [] || !IsJsWhitespace(r[0])
  {
    if |s| > 0 && IsJsWhitespace(s[0]) then TrimStart(s[1..]) else s
  }

  /** Drops the trailing whitespace: the result is a prefix of `s`, everything
      dropped is whitespace and the result does not end with whitespace. */
  function TrimEnd(s: string): (r: string)
    ensures |r| <= |s| && r == s[..|r|]
    ensures forall i :: |r| <= i < |s| ==> IsJsWhitespace(s[i])
    ensures r == [] || !IsJsWhitespace(r[|r| - 1])
  {
    if |s| > 0 && IsJsWhitespace(s[|s| - 1]) then TrimEnd(s[..|s| - 1]) else s
  }

  /** `s.trim()`. */
  function Trim(s: string): string {
    TrimEnd(TrimStart(s))
  }

  /** The trimmed string is the slice of `s` that starts where the leading
      whitespace ends. */
  lemma TrimIsSlice(s: string)
    ensures var start := |s| - |TrimStart(s)|;
      start + |Trim(s)| <= |s| && Trim(s) == s[start..start + |Trim(s)|]
  {
    var t := TrimStart(s);
    var start := |s| - |t|;
    var r := TrimEnd(t);
    assert t == s[start..];
    assert r == t[..|r|];
  }

  /** Everything around that slice is whitespace. */
  lemma TrimDropsWhitespace(s: string)
    ensures var start := |s| - |TrimStart(s)|;
      && (forall i :: 0 <= i < start ==> IsJsWhitespace(s[i]))
      && (forall i :: start + |Trim(s)| <= i < |s| ==> IsJsWhitespace(s[i]))
  {
    var t := TrimStart(s);
    var start := |s| - |t|;
    var r := TrimEnd(t);
    assert t == s[start..];
    forall i | start + |r| <= i < |s| ensures IsJsWhitespace(s[i]) {
      assert |r| <= i - start < |t|;
      assert t[i - start] == s[i];
    }
  }

  /** The trimmed string is the slice of `s` between the leading and the
      trailing whitespace, and it neither starts nor ends with whitespace. */
  lemma TrimIsCore(s: string)
    ensures var start := |s| - |TrimStart(s)|;
      && start + |Trim(s)| <= |s|
      && Trim(s) == s[start..start + |Trim(s)|]
      && (forall i :: 0 <= i < start ==> IsJsWhitespace(s[i]))
      && (forall i :: start + |Trim(s)| <= i < |s| ==> IsJsWhitespace(s[i]))
      && (Trim(s) == [] || (!IsJsWhitespace(Trim(s)[0]) && !IsJsWhitespace(Trim(s)[|Trim(s)| - 1])))
  {
    TrimIsSlice(s);
    TrimDropsWhitespace(s);
  }

  /** A string that neither starts nor ends with whitespace trims to itself. */
  lemma TrimUntouched(s: string)
    requires s == [] || (!IsJsWhitespace(s[0]) && !IsJsWhitespace(s[|s| - 1]))
    ensures Trim(s) == s
  {
    assert TrimStart(s) == s;
  }

  /** Trimming twice is trimming once. */
  lemma TrimIdempotent(s: string)
    ensures Trim(Trim(s)) == Trim(s)
  {
    var r := Trim(s);
    TrimIsCore(s);
    assert TrimStart(r) == r;
    assert TrimEnd(r) == r;
  }

  /** A string trims to `""` exactly when it consists of whitespace only. */
  lemma TrimEmptyIff(s: string)
    ensures Trim(s) == [] <==> AllWhitespace(s)
  {
    TrimIsCore(s);
  }

  /** ASCII case folding of one character (`toLowerCase` restricted to ASCII). */
  function LowerChar(c: char): char {
    if 'A' <= c <= 'Z' then (c as int + 32) as char else c
  }

  /** `s.toLowerCase()`, for ASCII letters. */
  function ToLowerAscii(s: string): (r: string)
    ensures |r| == |s|
  {
    seq(|s|, i requires 0 <= i < |s| => LowerChar(s[i]))
  }

  lemma ToLowerAsciiIdempotent(s: string)
    ensures ToLowerAscii(ToLowerAscii(s)) == ToLowerAscii(s)
  {
  }

  /** `sub` occurs in `s` starting at index `i`. */
  predicate OccursAt(s: string, sub: string, i: int) {
    0 <= i && i + |sub| <= |s| && s[i..i + |sub|] == sub
  }

  predicate StartsWith(s: string, prefix: string) {
    |prefix| <= |s| && s[..|prefix|] == prefix
  }

  predicate EndsWith(s: string, suffix: string) {
    |suffix| <= |s| && s[|s| - |suffix|..] == suffix
  }

  /** `s.includes(sub)`, scanning from the left. */
  function Includes(s: string, sub: string): bool
    decreases |s|
  {
    if StartsWith(s, sub) then true
    else if |s| == 0 then false
    else Includes(s[1..], sub)
  }

  /** When the scan finds `sub`, it occurs somewhere in `s`. */
  lemma {:induction false} IncludesSound(s: string, sub: string)
    requires Includes(s, sub)
    ensures exists i :: OccursAt(s, sub, i)
    decreases |s|
  {
    if StartsWith(s, sub) {
      assert s[0..|sub|] == s[..|sub|];
      assert OccursAt(s, sub, 0);
    } else {
      IncludesSound(s[1..], sub);
      var j :| OccursAt(s[1..], sub, j);
      assert s[j + 1..j + 1 + |sub|] == s[1..][j..j + |sub|];
      assert OccursAt(s, sub, j + 1);
    }
  }

  /** Wherever `sub` occurs, the scan finds it. */
  lemma {:induction false} IncludesComplete(s: string, sub: string, i: int)
    requires OccursAt(s, sub, i)
    ensures Includes(s, sub)
    decreases i
  {
    if i == 0 {
      assert s[..|sub|] == s[0..|sub|];
    } else if !StartsWith(s, sub) {
      assert s[1..][i - 1..i - 1 + |sub|] == s[i..i + |sub|];
      IncludesComplete(s[1..], sub, i - 1);
    }
  }

  /** The scan finds `sub` exactly when `sub` occurs somewhere in `s`. */
  lemma IncludesIff(s: string, sub: string)
    ensures Includes(s, sub) <==> exists i :: OccursAt(s, sub, i)
  {
    if Includes(s, sub) {
      IncludesSound(s, sub);
    }
    if exists i :: OccursAt(s, sub, i) {
      var i :| OccursAt(s, sub, i);
      IncludesComplete(s, sub, i);
    }
  }

  /** A string includes itself in any longer string built around it. */
  lemma IncludesInfix(a: string, sub: string, b: string)
    ensures Includes(a + sub + b, sub)
  {
    var s := a + sub + b;
    assert s[|a|..|a| + |sub|] == sub;
    assert OccursAt(s, sub, |a|);
    IncludesIff(s, sub);
  }

  /** What occurs in a part occurs in the whole. */
  lemma IncludesTransitive(s: string, m: string, sub: string)
    requires Includes(s, m) && Includes(m, sub)
    ensures Includes(s, sub)
  {
    IncludesIff(s, m);
    IncludesIff(m, sub);
    var i :| OccursAt(s, m, i);
    var j :| OccursAt(m, sub, j);
    forall t | 0 <= t < |sub| ensures s[i + j + t] == sub[t] {
      assert sub[t] == m[j + t] == s[i..i + |m|][j + t];
    }
    assert s[i + j..i + j + |sub|] == sub;
    assert OccursAt(s, sub, i + j);
    IncludesIff(s, sub);
  }

  /** `parts.join(sep)`. */
  function Join(parts: seq<string>, sep: string): string
  {
    if |parts| == 0 then ""
    else if |parts| == 1 then parts[0]
    else parts[0] + sep + Join(parts[1..], sep)
  }

  /** Joining one more part adds the separator and that part at the end. */
  lemma {:induction false} JoinSnoc(parts: seq<string>, x: string, sep: string)
    requires |parts| > 0
    ensures Join(parts + [x], sep) == Join(parts, sep) + sep + x
  {
    if |parts| == 1 {
      assert parts + [x] == [parts[0], x];
      assert [parts[0], x][1..] == [x];
    } else {
      assert (parts + [x])[1..] == parts[1..] + [x];
      JoinSnoc(parts[1..], x, sep);
    }
  }

  /** Every part stands in the joined string, surrounded by what comes before
      and after it. */
  lemma {:induction false} JoinContainsPart(parts: seq<string>, sep: string, k: nat)
    requires k < |parts|
    ensures exists before, after :: Join(parts, sep) == before + parts[k] + after
  {
    if |parts| == 1 {
      assert Join(parts, sep) == "" + parts[0] + "";
    } else if k == 0 {
      assert Join(parts, sep) == "" + parts[0] + (sep + Join(parts[1..], sep));
    } else {
      JoinContainsPart(parts[1..], sep, k - 1);
      var before, after :| Join(parts[1..], sep) == before + parts[1..][k - 1] + after;
      assert Join(parts, sep) == (parts[0] + sep + before) + parts[k] + after;
    }
  }

  /** Each part appears in the joined string. */
  lemma JoinIncludesPart(parts: seq<string>, sep: string, k: nat)
    requires k < |parts|
    ensures Includes(Join(parts, sep), parts[k])
  {
    JoinContainsPart(parts, sep, k);
    var before, after :| Join(parts, sep) == before + parts[k] + after;
    IncludesInfix(before, parts[k], after);
  }
}
