/** The handful of JavaScript string operations the site's logic relies on:
    `trim` and the regular-expression class `\s`, `toLowerCase`, `includes`,
    `length` (counted in UTF-16 code units), and `split`/`join` on line breaks. */
module Text {

  /** JavaScript's white space and line terminators: the characters `trim`
      removes and `\s` matches. */
  predicate IsSpace(c: char)
  {
    || c == ' ' || c == '\t' || c == '\n' || c == '\r'
    || c == '\U{000B}' || c == '\U{000C}' || c == '\U{00A0}' || c == '\U{1680}'
    || ('\U{2000}' <= c <= '\U{200A}')
    || c == '\U{2028}' || c == '\U{2029}' || c == '\U{202F}' || c == '\U{205F}'
    || c == '\U{3000}' || c == '\U{FEFF}'
  }

  /** Every character of s is white space (so `s.trim()` is falsy). */
  ghost predicate Blank(s: string)
  {
    forall k :: 0 <= k < |s| ==> IsSpace(s[k])
  }

  /** s without its longest prefix of characters satisfying p: a suffix of s. */
  function StripStart(s: string, p: char -> bool): (r: string)
    ensures |r| <= |s| && r == s[|s| - |r|..]
    ensures forall k :: 0 <= k < |s| - |r| ==> p(s[k])
    ensures r != [] ==> !p(r[0])
  {
    if s != [] && p(s[0]) then StripStart(s[1..], p) else s
  }

  /** s without its longest suffix of characters satisfying p: a prefix of s. */
  function StripEnd(s: string, p: char -> bool): (r: string)
    ensures |r| <= |s| && r == s[..|r|]
    ensures forall k :: |r| <= k < |s| ==> p(s[k])
    ensures r != [] ==> !p(r[|r| - 1])
  {
    if s != [] && p(s[|s| - 1]) then StripEnd(s[..|s| - 1], p) else s
  }

  /** `String.prototype.trim`. */
  function Trim(s: string): string
  {
    StripEnd(StripStart(s, IsSpace), IsSpace)
  }

  /** Stripping both ends keeps the slice between what was cut off, and
      everything cut off at the end satisfies p. */
  lemma StripSlice(s: string, p: char -> bool)
    ensures var t, a := StripEnd(StripStart(s, p), p), |s| - |StripStart(s, p)|;
      && a + |t| <= |s| && t == s[a..a + |t|]
      && (forall k :: a + |t| <= k < |s| ==> p(s[k]))
  {
    var u := StripStart(s, p);
    var t := StripEnd(u, p);
    var a := |s| - |u|;
    assert u == s[a..];
    assert t == u[..|t|];
    forall k | a + |t| <= k < |s| ensures p(s[k]) {
      assert s[k] == u[k - a];
    }
  }

  /** What stripping both ends leaves neither begins nor ends with a p character. */
  lemma StripEndsNot(s: string, p: char -> bool)
    ensures var t := StripEnd(StripStart(s, p), p); t != [] ==> !p(t[0]) && !p(t[|t| - 1])
  {
    var u := StripStart(s, p);
    var t := StripEnd(u, p);
    if t != [] {
      assert t[0] == u[0];
    }
  }

  /** The trimmed string is a slice of s, everything cut off is white space,
      and what remains neither begins nor ends with white space. */
  lemma TrimIsCore(s: string)
    ensures var t, a := Trim(s), |s| - |StripStart(s, IsSpace)|;
      && a + |t| <= |s| && t == s[a..a + |t|]
      && (forall k :: 0 <= k < a ==> IsSpace(s[k]))
      && (forall k :: a + |t| <= k < |s| ==> IsSpace(s[k]))
      && (t != [] ==> !IsSpace(t[0]) && !IsSpace(t[|t| - 1]))
  {
    StripSlice(s, IsSpace);
    StripEndsNot(s, IsSpace);
  }

  /** Trimming yields the empty string exactly when s is blank. */
  lemma TrimEmptyIff(s: string)
    ensures Trim(s) == [] <==> Blank(s)
  {
    TrimIsCore(s);
  }

  /** A string that neither begins nor ends with white space is its own trim. */
  lemma TrimOfTrimmed(s: string)
    requires s != [] ==> !IsSpace(s[0]) && !IsSpace(s[|s| - 1])
    ensures Trim(s) == s
  {
  }

  /** The number of UTF-16 code units of s, which is what JavaScript's
      `length` counts: characters outside the Basic Multilingual Plane take two. */
  function Utf16Length(s: string): (n: nat)
    ensures |s| <= n <= 2 * |s|
    ensures (forall k :: 0 <= k < |s| ==> s[k] as int <= 0xFFFF) ==> n == |s|
  {
    if s == [] then 0 else (if s[0] as int > 0xFFFF then 2 else 1) + Utf16Length(s[1..])
  }

  /** `toLowerCase` on one character, for the ASCII letters. */
  function LowerChar(c: char): char
  {
    if 'A' <= c <= 'Z' then (c as int + 32) as char else c
  }

  /** `String.prototype.toLowerCase`, character by character. */
  function ToLower(s: string): (r: string)
    ensures |r| == |s|
    ensures forall k :: 0 <= k < |s| ==> r[k] == LowerChar(s[k])
  {
    seq(|s|, k requires 0 <= k < |s| => LowerChar(s[k]))
  }

  /** Lowering twice is lowering once. */
  lemma ToLowerIdempotent(s: string)
    ensures ToLower(ToLower(s)) == ToLower(s)
  {
  }

  /** sub occurs in s starting at index i. */
  ghost predicate OccursAt(s: string, sub: string, i: nat)
  {
    i + |sub| <= |s| && s[i..i + |sub|] == sub
  }

  /** `String.prototype.includes`: a left-to-right scan for sub. */
  function Contains(s: string, sub: string): bool
    decreases |s|
  {
    if |sub| > |s| then false
    else if s[..|sub|] == sub then true
    else Contains(s[1..], sub)
  }

  /** The scan finds sub exactly when sub occurs somewhere in s. */
  lemma {:induction false} ContainsIffOccurs(s: string, sub: string)
    ensures Contains(s, sub) <==> exists i: nat :: OccursAt(s, sub, i)
    decreases |s|
  {
    if |sub| > |s| {
    } else if s[..|sub|] == sub {
      assert OccursAt(s, sub, 0);
    } else {
      ContainsIffOccurs(s[1..], sub);
      if Contains(s[1..], sub) {
        var i: nat :| OccursAt(s[1..], sub, i);
        assert s[i + 1..i + 1 + |sub|] == s[1..][i..i + |sub|];
        assert OccursAt(s, sub, i + 1);
      }
      if i: nat :| OccursAt(s, sub, i) {
        assert i != 0;
        assert s[1..][i - 1..i - 1 + |sub|] == s[i..i + |sub|];
        assert OccursAt(s[1..], sub, i - 1);
      }
    }
  }

  /** Every string includes the empty string. */
  lemma ContainsEmpty(s: string)
    ensures Contains(s, "")
  {
    ContainsIffOccurs(s, "");
    assert OccursAt(s, "", 0);
  }

  /** Whether a string contains the newline character. */
  predicate HasNewline(s: string)
  {
    '\n' in s
  }

  /** `s.indexOf(c)`, with |s| standing for "not found" (JavaScript's -1). */
  function IndexOf(s: string, c: char): (i: nat)
    ensures i <= |s|
    ensures i < |s| <==> c in s
    ensures i < |s| ==> s[i] == c
    ensures forall k :: 0 <= k < i ==> s[k] != c
  {
    if s == [] then 0 else if s[0] == c then 0 else 1 + IndexOf(s[1..], c)
  }

  /** `lines.join('\n')`. */
  function JoinLines(lines: seq<string>): string
  {
    if lines == [] then ""
    else if |lines| == 1 then lines[0]
    else lines[0] + "\n" + JoinLines(lines[1..])
  }

  /** `s.split('\n')`: the pieces between newlines; always at least one. */
  function SplitLines(s: string): (lines: seq<string>)
    ensures |lines| >= 1
    ensures forall k :: 0 <= k < |lines| ==> !HasNewline(lines[k])
    decreases |s|
  {
    var i := IndexOf(s, '\n');
    if i == |s| then [s] else [s[..i]] + SplitLines(s[i + 1..])
  }

  /** Joining a head line onto at least one more line puts a newline between them. */
  lemma JoinCons(head: string, tail: seq<string>)
    requires |tail| >= 1
    ensures JoinLines([head] + tail) == head + "\n" + JoinLines(tail)
  {
    assert ([head] + tail)[1..] == tail;
  }

  /** Splitting a non-empty list of newline-free lines after joining them
      gives the lines back. */
  lemma {:induction false} SplitJoin(lines: seq<string>)
    requires |lines| >= 1
    requires forall k :: 0 <= k < |lines| ==> !HasNewline(lines[k])
    ensures SplitLines(JoinLines(lines)) == lines
  {
    if |lines| > 1 {
      var head, tail := lines[0], lines[1..];
      assert lines == [head] + tail;
      JoinCons(head, tail);
      var rest := JoinLines(tail);
      var s := head + "\n" + rest;
      assert !HasNewline(head);
      NewlineAfter(head, rest);
      SplitJoin(tail);
    }
  }

  /** The first newline of `head + "\n" + rest` is the one after head, when
      head has none. */
  lemma NewlineAfter(head: string, rest: string)
    requires !HasNewline(head)
    ensures var s := head + "\n" + rest;
      IndexOf(s, '\n') == |head| && s[..|head|] == head && s[|head| + 1..] == rest
  {
    var s := head + "\n" + rest;
    forall k | 0 <= k < |head| ensures s[k] != '\n' {
      assert s[k] == head[k];
    }
    assert s[|head|] == '\n';
  }

  /** Joining one more line onto a non-empty list puts a newline before it. */
  lemma {:induction false} JoinSnoc(lines: seq<string>, last: string)
    requires |lines| >= 1
    ensures JoinLines(lines + [last]) == JoinLines(lines) + "\n" + last
    decreases |lines|
  {
    if |lines| == 1 {
      assert (lines + [last])[1..] == [last];
    } else {
      assert (lines + [last])[1..] == lines[1..] + [last];
      JoinSnoc(lines[1..], last);
    }
  }

  /** A character of the regular-expression class `\w`. */
  predicate WordChar(c: char)
  {
    ('a' <= c <= 'z') || ('A' <= c <= 'Z') || ('0' <= c <= '9') || c == '_'
  }

  /** sub occurs in s at index i as a whole word: neither neighbour of the
      occurrence is a word character. */
  ghost predicate WordAt(s: string, sub: string, i: nat)
  {
    && OccursAt(s, sub, i)
    && (i == 0 || !WordChar(s[i - 1]))
    && (i + |sub| == |s| || !WordChar(s[i + |sub|]))
  }

  /** A left-to-right scan for a whole-word occurrence of sub, from index i on. */
  function ContainsWordFrom(s: string, sub: string, i: nat): bool
    decreases |s| - i
  {
    if i + |sub| > |s| then false
    else if
      && s[i..i + |sub|] == sub
      && (i == 0 || !WordChar(s[i - 1]))
      && (i + |sub| == |s| || !WordChar(s[i + |sub|]))
    then true
    else ContainsWordFrom(s, sub, i + 1)
  }

  /** `new RegExp('\\b' + sub + '\\b').test(s)` for a sub that starts and
      ends with a word character. */
  function ContainsWord(s: string, sub: string): bool
  {
    ContainsWordFrom(s, sub, 0)
  }

  /** The scan from i finds sub exactly when sub occurs as a whole word at i or later. */
  lemma {:induction false} ContainsWordFromIff(s: string, sub: string, i: nat)
    ensures ContainsWordFrom(s, sub, i) <==> exists j: nat :: i <= j && WordAt(s, sub, j)
    decreases |s| - i
  {
    if i + |sub| > |s| {
    } else if WordAt(s, sub, i) {
    } else {
      ContainsWordFromIff(s, sub, i + 1);
      if j: nat :| i <= j && WordAt(s, sub, j) {
        assert j != i;
      }
    }
  }

  /** A whole-word occurrence is an occurrence. */
  lemma ContainsWordIsContains(s: string, sub: string)
    ensures ContainsWord(s, sub) <==> exists j: nat :: WordAt(s, sub, j)
    ensures ContainsWord(s, sub) ==> Contains(s, sub)
  {
    ContainsWordFromIff(s, sub, 0);
    ContainsIffOccurs(s, sub);
  }

  /** Text without upper-case letters is its own lower-cased form. */
  lemma ToLowerOfLower(s: string)
    requires forall k :: 0 <= k < |s| ==> !('A' <= s[k] <= 'Z')
    ensures ToLower(s) == s
  {
  }

  /** In two words separated by a space, the only whole-word occurrences
      are the first word, the second word and the whole text. */
  lemma WholeWordsOfPair(a: string, b: string, sub: string)
    requires |a| > 0 && |b| > 0
    requires forall k :: 0 <= k < |a| ==> WordChar(a[k])
    requires forall k :: 0 <= k < |b| ==> WordChar(b[k])
    requires ContainsWord(a + " " + b, sub)
    ensures sub == a || sub == b || sub == a + " " + b
  {
    var s := a + " " + b;
    ContainsWordIsContains(s, sub);
    var j: nat :| WordAt(s, sub, j);
    var e := j + |sub|;
    forall k | 0 <= k < |s| && k != |a| ensures WordChar(s[k]) {
      if k < |a| { assert s[k] == a[k]; } else { assert s[k] == b[k - |a| - 1]; }
    }
    assert j == 0 || j == |a| + 1;
    assert e == |a| || e == |s|;
    if j == 0 && e == |a| {
      assert sub == s[0..|a|] == a;
    } else if j == 0 {
      assert sub == s;
    } else {
      assert sub == s[|a| + 1..] == b;
    }
  }

  /** The decimal digits of n, as a template literal prints a number. */
  function Decimal(n: nat): (r: string)
    ensures |r| > 0
    ensures forall k :: 0 <= k < |r| ==> '0' <= r[k] <= '9'
    ensures n >= 10 ==> |r| >= 2
  {
    if n < 10 then [Digit(n)] else Decimal(n / 10) + [Digit(n % 10)]
  }

  function Digit(d: nat): char
    requires d < 10
  {
    ('0' as int + d) as char
  }

  /** Different numbers print differently. */
  lemma {:induction false} DecimalInjective(a: nat, b: nat)
    requires Decimal(a) == Decimal(b)
    ensures a == b
  {
    if a < 10 && b < 10 {
      assert Decimal(a)[0] == Decimal(b)[0];
    } else if a >= 10 && b >= 10 {
      var da, db := Decimal(a), Decimal(b);
      assert da[|da| - 1] == db[|db| - 1];
      assert da[..|da| - 1] == Decimal(a / 10);
      assert db[..|db| - 1] == Decimal(b / 10);
      DecimalInjective(a / 10, b / 10);
    }
  }
}
