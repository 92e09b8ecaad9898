/** String and path primitives shared by every module of the model.
    JavaScript strings are modelled as `string` (a `seq<char>`); Node's POSIX
    `path` functions are modelled on '/'-separated strings. */
module Strings {

  datatype Option<+T> = None | Some(value: T)

  datatype Result<+T, +E> = Ok(value: T) | Err(error: E)

  /** JavaScript truthiness of an optional string: `undefined`, `null` and `''` are falsy. */
  predicate Truthy(o: Option<string>) {
    o.Some? && o.value != ""
  }

  /** `a || b` on optional strings. */
  function OrElse(o: Option<string>, fallback: string): (r: string)
    ensures Truthy(o) ==> r == o.value
    ensures !Truthy(o) ==> r == fallback
  {
    if Truthy(o) then o.value else fallback
  }

  predicate IsPrefix(p: string, s: string) {
    |p| <= |s| && s[..|p|] == p
  }

  predicate IsSuffix(p: string, s: string) {
    |p| <= |s| && s[|s| - |p|..] == p
  }

  /** `s.indexOf(sub)`: the first position at which `sub` occurs in `s`. */
  function IndexOf(s: string, sub: string): (r: Option<nat>)
    ensures r.Some? ==> r.value + |sub| <= |s| && s[r.value..r.value + |sub|] == sub
    ensures r.Some? ==> forall j :: 0 <= j < r.value ==> !IsPrefix(sub, s[j..])
    ensures r.None? ==> forall j :: 0 <= j <= |s| ==> !IsPrefix(sub, s[j..])
    decreases |s|
  {
    if IsPrefix(sub, s) then Some(0)
    else if |s| == 0 then None
    else
      match IndexOf(s[1..], sub)
      case None =>
        NoEarlierOccurrence(s, sub, |s|);
        None
      case Some(k) =>
        NoEarlierOccurrence(s, sub, k);
        assert s[k + 1..k + 1 + |sub|] == s[1..][k..k + |sub|];
        Some(k + 1)
  }

  lemma NoEarlierOccurrence(s: string, sub: string, m: nat)
    requires 0 < |s| && m <= |s| && !IsPrefix(sub, s)
    requires forall j :: 0 <= j < m ==> !IsPrefix(sub, s[1..][j..])
    ensures forall j :: 0 <= j < m + 1 ==> !IsPrefix(sub, s[j..])
  {
    SuffixesOfTail(s);
  }

  lemma SuffixesOfTail(s: string)
    requires |s| > 0
    ensures forall j :: 1 <= j <= |s| ==> s[j..] == s[1..][j - 1..]
  {
    forall j | 1 <= j <= |s|
      ensures s[j..] == s[1..][j - 1..]
    {
    }
  }

  /** `s.includes(sub)`. */
  predicate Contains(s: string, sub: string) {
    IndexOf(s, sub).Some?
  }

  /** `s.replace(pat, rep)` with a string pattern: only the first occurrence is replaced. */
  function ReplaceFirst(s: string, pat: string, rep: string): (r: string)
    ensures !Contains(s, pat) ==> r == s
    ensures Contains(s, pat) ==> |r| == |s| - |pat| + |rep|
    ensures Contains(s, pat) ==>
      exists k :: 0 <= k && k + |pat| <= |s| && s[k..k + |pat|] == pat
                  && (forall j :: 0 <= j < k ==> !IsPrefix(pat, s[j..]))
                  && r == s[..k] + rep + s[k + |pat|..]
  {
    match IndexOf(s, pat)
    case None => s
    case Some(k) => s[..k] + rep + s[k + |pat|..]
  }

  lemma {:induction false} ContainsAt(s: string, sub: string, i: nat)
    requires i + |sub| <= |s| && s[i..i + |sub|] == sub
    ensures Contains(s, sub)
    ensures IndexOf(s, sub).value <= i
  {
    assert IsPrefix(sub, s[i..]);
  }

  lemma ContainsInConcat(a: string, sub: string, b: string)
    ensures Contains(a + sub + b, sub)
    ensures IndexOf(a + sub + b, sub).value <= |a|
  {
    var s := a + sub + b;
    assert s[|a|..|a| + |sub|] == sub;
    ContainsAt(s, sub, |a|);
  }

  /** An occurrence inside an occurrence is an occurrence. */
  lemma ContainsTrans(s: string, mid: string, sub: string)
    requires Contains(s, mid) && Contains(mid, sub)
    ensures Contains(s, sub)
  {
    var i, j := IndexOf(s, mid).value, IndexOf(mid, sub).value;
    OccurrenceInOccurrence(s, i, mid, j, sub);
    ContainsAt(s, sub, i + j);
  }

  lemma OccurrenceInOccurrence(s: string, i: nat, mid: string, j: nat, sub: string)
    requires i + |mid| <= |s| && s[i..i + |mid|] == mid
    requires j + |sub| <= |mid| && mid[j..j + |sub|] == sub
    ensures s[i + j..i + j + |sub|] == sub
  {
    forall k | 0 <= k < |sub|
      ensures s[i + j..i + j + |sub|][k] == sub[k]
    {
      calc {
        sub[k];
        mid[j..j + |sub|][k];
        s[i..i + |mid|][j + k];
        s[i + j + k];
      }
    }
  }

  /** Both halves of a concatenation occur in it. */
  lemma ContainsParts(x: string, y: string)
    ensures Contains(x + y, x) && Contains(x + y, y)
  {
    ContainsInConcat("", x, y);
    assert "" + x + y == x + y;
    ContainsInConcat(x, y, "");
    assert x + y + "" == x + y;
  }

  /** A pattern whose first character does not recur in it, appended to a text that does
      not contain it, first occurs where it was appended. */
  lemma FirstOccurrenceAtEnd(n: string, sub: string)
    requires |sub| > 0 && sub[0] !in sub[1..] && !Contains(n, sub)
    ensures IndexOf(n + sub, sub) == Some(|n|)
  {
    var s := n + sub;
    assert s[|n|..] == sub;
    forall j | 0 <= j < |n|
      ensures !IsPrefix(sub, s[j..])
    {
      if IsPrefix(sub, s[j..]) && j + |sub| <= |n| {
        assert n[j..j + |sub|] == s[j..][..|sub|];
        ContainsAt(n, sub, j);
      }
    }
    IndexOfExactly(s, sub, |n|);
  }

  /** The first occurrence is at `k` when `sub` starts at `k` and at no earlier position. */
  lemma IndexOfExactly(s: string, sub: string, k: nat)
    requires k <= |s| && IsPrefix(sub, s[k..])
    requires forall j :: 0 <= j < k ==> !IsPrefix(sub, s[j..])
    ensures IndexOf(s, sub) == Some(k)
  {
    assert s[k..k + |sub|] == s[k..][..|sub|];
    ContainsAt(s, sub, k);
    IndexOfIsPrefix(s, sub);
  }

  /** `sub` occurs nowhere in `s` when no suffix of `s` starts with it. */
  lemma NotContains(s: string, sub: string)
    requires forall j :: 0 <= j <= |s| ==> !IsPrefix(sub, s[j..])
    ensures !Contains(s, sub)
  {
    IndexOfIsPrefix(s, sub);
  }

  lemma IndexOfIsPrefix(s: string, sub: string)
    ensures IndexOf(s, sub).Some? ==> IsPrefix(sub, s[IndexOf(s, sub).value..])
  {
    var r := IndexOf(s, sub);
    if r.Some? {
      assert s[r.value..][..|sub|] == s[r.value..r.value + |sub|];
    }
  }

  /** A string that starts with `sub` has its first occurrence at 0. */
  lemma ReplaceFirstOfPrefix(sub: string, rest: string, rep: string)
    ensures ReplaceFirst(sub + rest, sub, rep) == rep + rest
  {
    var s := sub + rest;
    assert IsPrefix(sub, s);
    assert IndexOf(s, sub) == Some(0);
    assert s[..0] + rep + s[|sub|..] == rep + rest;
  }

  /** `s.split(c)` for a one-character separator. */
  function Split(s: string, c: char): (parts: seq<string>)
    ensures |parts| >= 1
    ensures forall i :: 0 <= i < |parts| ==> c !in parts[i]
  {
    if |s| == 0 then [""]
    else
      var rest := Split(s[1..], c);
      if s[0] == c then [""] + rest
      else [[s[0]] + rest[0]] + rest[1..]
  }

  /** `parts.join(sep)`. */
  function Join(parts: seq<string>, sep: string): string {
    if |parts| == 0 then ""
    else if |parts| == 1 then parts[0]
    else parts[0] + sep + Join(parts[1..], sep)
  }

  lemma {:induction false} JoinSplit(s: string, c: char)
    ensures Join(Split(s, c), [c]) == s
  {
    if |s| > 0 {
      JoinSplit(s[1..], c);
      var rest := Split(s[1..], c);
      if s[0] == c {
        assert Split(s, c) == [""] + rest;
        assert ([""] + rest)[1..] == rest;
        assert s == [c] + s[1..];
      } else {
        var parts := Split(s, c);
        assert parts == [[s[0]] + rest[0]] + rest[1..];
        if |rest| == 1 {
          assert parts == [[s[0]] + rest[0]];
        } else {
          assert parts[1..] == rest[1..];
          assert Join(rest, [c]) == rest[0] + [c] + Join(rest[1..], [c]);
        }
        assert s == [s[0]] + s[1..];
      }
    }
  }

  /** A join splits at any part boundary. */
  lemma {:induction false} JoinAt(parts: seq<string>, sep: string, k: nat)
    requires 0 < k < |parts|
    ensures Join(parts, sep) == Join(parts[..k], sep) + sep + Join(parts[k..], sep)
  {
    if k > 1 {
      var tail := parts[1..];
      JoinAt(tail, sep, k - 1);
      assert parts[..k][1..] == tail[..k - 1];
      assert tail[k - 1..] == parts[k..];
    }
  }

  lemma SuffixOfConcat(a: string, b: string)
    ensures IsSuffix(b, a + b)
  {
    assert (a + b)[|a + b| - |b|..] == b;
  }

  lemma SuffixOfSuffix(a: string, b: string, c: string)
    requires IsSuffix(a, b) && IsSuffix(b, c)
    ensures IsSuffix(a, c)
  {
    assert c[|c| - |a|..] == c[|c| - |b|..][|b| - |a|..];
  }

  lemma {:induction false} SplitNoSeparator(s: string, c: char)
    requires c !in s
    ensures Split(s, c) == [s]
  {
    if |s| > 0 {
      SplitNoSeparator(s[1..], c);
      assert [s[0]] + s[1..] == s;
    }
  }

  lemma {:induction false} SplitAroundSeparator(a: string, c: char, b: string)
    ensures Split(a + [c] + b, c) == Split(a, c) + Split(b, c)
  {
    var s := a + [c] + b;
    if |a| == 0 {
      assert s[1..] == b;
    } else {
      assert s[0] == a[0] && s[1..] == a[1..] + [c] + b;
      SplitAroundSeparator(a[1..], c, b);
      if a[0] != c {
        PrependToFirst(a[0], Split(a[1..], c), Split(b, c));
      }
    }
  }

  lemma PrependToFirst(x: char, ra: seq<string>, sb: seq<string>)
    requires |ra| >= 1
    ensures ([[x] + ra[0]] + ra[1..]) + sb == [[x] + (ra + sb)[0]] + (ra + sb)[1..]
  {
    assert (ra + sb)[1..] == ra[1..] + sb;
  }

  /** Splitting a join restores the parts when no part holds the separator. */
  lemma {:induction false} SplitJoin(parts: seq<string>, c: char)
    requires |parts| >= 1
    requires forall i :: 0 <= i < |parts| ==> c !in parts[i]
    ensures Split(Join(parts, [c]), c) == parts
  {
    if |parts| == 1 {
      SplitNoSeparator(parts[0], c);
    } else {
      SplitJoin(parts[1..], c);
      SplitNoSeparator(parts[0], c);
      assert Join(parts, [c]) == parts[0] + [c] + Join(parts[1..], [c]);
      SplitAroundSeparator(parts[0], c, Join(parts[1..], [c]));
      assert parts == [parts[0]] + parts[1..];
    }
  }

  function LowerChar(ch: char): char {
    if 'A' <= ch <= 'Z' then (ch as int + 32) as char else ch
  }

  /** `s.toLowerCase()` on the ASCII letters. */
  function ToLower(s: string): (r: string)
    ensures |r| == |s|
    ensures forall i :: 0 <= i < |s| ==> r[i] == LowerChar(s[i])
  {
    seq(|s|, i requires 0 <= i < |s| => LowerChar(s[i]))
  }

  lemma ToLowerConcat(a: string, b: string)
    ensures ToLower(a + b) == ToLower(a) + ToLower(b)
  {
    var l, r := ToLower(a + b), ToLower(a) + ToLower(b);
    assert |l| == |r|;
    forall i | 0 <= i < |l| ensures l[i] == r[i] {
      if i < |a| {
        assert (a + b)[i] == a[i];
      } else {
        assert (a + b)[i] == b[i - |a|];
      }
    }
  }

  lemma ToLowerIdempotent(s: string)
    ensures ToLower(ToLower(s)) == ToLower(s)
  {
  }

  /** Lower-casing leaves every non-letter where it was. */
  lemma ToLowerKeepsNonLetter(s: string, c: char)
    requires !('A' <= c <= 'Z') && !('a' <= c <= 'z')
    ensures c in ToLower(s) <==> c in s
  {
    var l := ToLower(s);
    if c in s {
      var i :| 0 <= i < |s| && s[i] == c;
      assert l[i] == c;
    }
    if c in l {
      var i :| 0 <= i < |l| && l[i] == c;
      assert s[i] == c;
    }
  }

  /** The characters `String.prototype.trim` removes: the white space and line terminators
      of ECMAScript, the byte-order mark included. */
  predicate IsJsWhitespace(ch: char) {
    ch == ' ' || ch == '\t' || ch == '\n' || ch == '\r' || ch == '\U{B}' || ch == '\U{C}'
    || ch == '\U{A0}' || ch == '\U{1680}' || '\U{2000}' <= ch <= '\U{200A}' || ch == '\U{2028}'
    || ch == '\U{2029}' || ch == '\U{202F}' || ch == '\U{205F}' || ch == '\U{3000}' || ch == '\U{FEFF}'
  }

  function TrimStart(s: string): (r: string)
    ensures IsSuffix(r, s)
    ensures r == "" || !IsJsWhitespace(r[0])
  {
    if |s| > 0 && IsJsWhitespace(s[0]) then
      var r := TrimStart(s[1..]);
      assert s[|s| - |r|..] == s[1..][|s| - 1 - |r|..];
      r
    else s
  }

  function TrimEnd(s: string): (r: string)
    ensures IsPrefix(r, s)
    ensures r == "" || !IsJsWhitespace(r[|r| - 1])
  {
    if |s| > 0 && IsJsWhitespace(s[|s| - 1]) then
      var r := TrimEnd(s[..|s| - 1]);
      assert s[..|r|] == s[..|s| - 1][..|r|];
      r
    else s
  }

  /** `s.trim()`. */
  function Trim(s: string): (r: string)
    ensures r == "" || (!IsJsWhitespace(r[0]) && !IsJsWhitespace(r[|r| - 1]))
    ensures |r| <= |s|
  {
    TrimEnd(TrimStart(s))
  }

  predicate AllWhitespace(ws: string) {
    forall i :: 0 <= i < |ws| ==> IsJsWhitespace(ws[i])
  }

  lemma {:induction false} TrimStartOfFramed(ws: string, x: string)
    requires AllWhitespace(ws) && x != "" && !IsJsWhitespace(x[0])
    ensures TrimStart(ws + x) == x
  {
    if ws != [] {
      assert (ws + x)[1..] == ws[1..] + x;
      TrimStartOfFramed(ws[1..], x);
    }
  }

  lemma {:induction false} TrimEndOfFramed(x: string, ws: string)
    requires AllWhitespace(ws) && x != "" && !IsJsWhitespace(x[|x| - 1])
    ensures TrimEnd(x + ws) == x
  {
    if ws != [] {
      assert (x + ws)[..|x + ws| - 1] == x + ws[..|ws| - 1];
      TrimEndOfFramed(x, ws[..|ws| - 1]);
    }
  }

  /** Trimming a text framed by whitespace gives back the text when the text itself
      neither starts nor ends with whitespace. */
  lemma TrimOfFramed(before: string, x: string, after: string)
    requires AllWhitespace(before) && AllWhitespace(after)
    requires x != "" && !IsJsWhitespace(x[0]) && !IsJsWhitespace(x[|x| - 1])
    ensures Trim(before + x + after) == x
  {
    assert before + x + after == before + (x + after);
    TrimStartOfFramed(before, x + after);
    TrimEndOfFramed(x, after);
  }

  /** A join starts with its first part and ends with its last. */
  lemma {:induction false} JoinEnds(parts: seq<string>, sep: string)
    requires |parts| > 0
    ensures IsPrefix(parts[0], Join(parts, sep))
    ensures IsSuffix(parts[|parts| - 1], Join(parts, sep))
  {
    if |parts| > 1 {
      JoinEnds(parts[1..], sep);
      SuffixOfSuffix(parts[|parts| - 1], Join(parts[1..], sep), parts[0] + sep + Join(parts[1..], sep)) by {
        SuffixOfConcat(parts[0] + sep, Join(parts[1..], sep));
      }
    }
  }

  /** `p` without the run of '/' it ends with. */
  function TrimTrailingSlashes(p: string): (r: string)
    ensures IsPrefix(r, p)
    ensures r == "" || r[|r| - 1] != '/'
  {
    if |p| > 0 && p[|p| - 1] == '/' then TrimTrailingSlashes(p[..|p| - 1]) else p
  }

  /** The characters of `t` after its last '/' (all of `t` when it has none). */
  function AfterLastSlash(t: string): string {
    if t == [] || t[|t| - 1] == '/' then []
    else AfterLastSlash(t[..|t| - 1]) + [t[|t| - 1]]
  }

  /** The last '/'-separated component of `p`, trailing slashes ignored. */
  function LastComponent(p: string): string {
    AfterLastSlash(TrimTrailingSlashes(p))
  }

  /** The suffix of the name `b` from its last '.' on; '' when `b` has no '.', or when its
      only candidate is a '.' at the very start. */
  function DotSuffix(b: string): string {
    if b == [] then []
    else if b[|b| - 1] == '.' then (if |b| == 1 then [] else ".")
    else
      var e := DotSuffix(b[..|b| - 1]);
      if e == [] then [] else e + [b[|b| - 1]]
  }

  /** Node's `path.extname` (POSIX): the last component from its last '.' to its end;
      '' when that component has no '.', when its last '.' is its first character, or
      when it is `..`. */
  function Extname(p: string): string {
    var b := LastComponent(p);
    if b == ".." then "" else DotSuffix(b)
  }

  /** After a directory prefix, the component is the whole plain name. */
  lemma {:induction false} AfterLastSlashOfFile(dir: string, name: string)
    requires dir == "" || dir[|dir| - 1] == '/'
    requires '/' !in name
    ensures AfterLastSlash(dir + name) == name
  {
    if name == [] {
      assert dir + name == dir;
    } else {
      var p := dir + name;
      var init := name[..|name| - 1];
      assert p[|p| - 1] == name[|name| - 1] != '/';
      assert p[..|p| - 1] == dir + init;
      AfterLastSlashOfFile(dir, init);
      assert init + [name[|name| - 1]] == name;
    }
  }

  /** The last component of `dir + name` is `name` when `name` is a non-empty plain name. */
  lemma LastComponentOfFile(dir: string, name: string)
    requires dir == "" || dir[|dir| - 1] == '/'
    requires name != "" && '/' !in name
    ensures LastComponent(dir + name) == name
  {
    var p := dir + name;
    assert p[|p| - 1] == name[|name| - 1];
    assert TrimTrailingSlashes(p) == p;
    AfterLastSlashOfFile(dir, name);
  }

  /** Behind a name ending in '.' (and not only '.'), a run without '.' is the extension. */
  lemma {:induction false} DotSuffixAfterDot(x: string, e: string)
    requires |x| >= 2 && x[|x| - 1] == '.'
    requires '.' !in e
    ensures DotSuffix(x + e) == "." + e
  {
    if e == [] {
      assert x + e == x;
    } else {
      var p := x + e;
      assert p[..|p| - 1] == x + e[..|e| - 1];
      DotSuffixAfterDot(x, e[..|e| - 1]);
      assert "." + e[..|e| - 1] + [e[|e| - 1]] == "." + e;
    }
  }

  /** A name whose only '.' is its first character has no extension. */
  lemma {:induction false} DotSuffixOfLeadingDot(e: string)
    requires '.' !in e
    ensures DotSuffix("." + e) == ""
  {
    if e != [] {
      var p := "." + e;
      assert p[..|p| - 1] == "." + e[..|e| - 1];
      DotSuffixOfLeadingDot(e[..|e| - 1]);
    }
  }

  /** A name without '.' has no extension. */
  lemma {:induction false} DotSuffixWithoutDot(b: string)
    requires '.' !in b
    ensures DotSuffix(b) == ""
  {
    if b != [] {
      DotSuffixWithoutDot(b[..|b| - 1]);
    }
  }

  /** A file name `stem.e` whose extension `e` has neither '.' nor '/' has extension `.e`,
      whatever directory it sits in. */
  lemma ExtnameOfFile(dir: string, stem: string, e: string)
    requires dir == "" || dir[|dir| - 1] == '/'
    requires stem != "" && '/' !in stem
    requires e != "" && '.' !in e && '/' !in e
    ensures Extname(dir + stem + "." + e) == "." + e
  {
    var name := stem + "." + e;
    assert dir + stem + "." + e == dir + name;
    assert '/' !in name;
    LastComponentOfFile(dir, name);
    assert name == (stem + ".") + e;
    DotSuffixAfterDot(stem + ".", e);
  }

  /** A dot-file `.e` has no extension: its only '.' is its first character. */
  lemma ExtnameOfDotFile(dir: string, e: string)
    requires dir == "" || dir[|dir| - 1] == '/'
    requires '.' !in e && '/' !in e
    ensures Extname(dir + "." + e) == ""
  {
    var name := "." + e;
    assert '/' !in name;
    assert dir + "." + e == dir + name;
    LastComponentOfFile(dir, name);
    DotSuffixOfLeadingDot(e);
  }

  /** A plain name without '.' has no extension. */
  lemma ExtnameOfPlainName(dir: string, name: string)
    requires dir == "" || dir[|dir| - 1] == '/'
    requires name != "" && '/' !in name && '.' !in name
    ensures Extname(dir + name) == ""
  {
    LastComponentOfFile(dir, name);
    DotSuffixWithoutDot(name);
  }

  /** Node's `path.join(dir, name)` for a directory without a trailing '/' and a plain name. */
  function PathJoin(dir: string, name: string): string {
    dir + "/" + name
  }

  /** Node's `path.basename(name, suffix)` for a directory entry, a name without '/'. */
  function BasenameWithout(name: string, suffix: string): (r: string)
    ensures IsPrefix(r, name)
    ensures IsSuffix(suffix, name) ==> r + suffix == name
    ensures !IsSuffix(suffix, name) ==> r == name
  {
    if name == suffix && suffix != "" then ""
    else if IsSuffix(suffix, name) then name[..|name| - |suffix|]
    else name
  }
}
