/** Values shared by every module of the model: optional values, the outcome
    of a JavaScript computation that may `throw`, and the string operations of
    JavaScript that the core relies on (`trim`, `split(',')`, `split(/\s+/)`,
    `replace` of the first occurrence, `includes`). Strings are `seq<char>`. */
module Common {

  datatype Option<+T> = None | Some(value: T)

  /** What a JavaScript `throw` carries: an `Error` object with its message,
      or some other value. */
  datatype Fault = Error(message: string) | NonError

  /** The outcome of a computation that either returns a value or throws. */
  datatype Result<+T> = Ok(value: T) | Thrown(fault: Fault)

  /** A pair of numbers, `[number, number]` in the source. */
  type Pair = (real, real)

  /** The characters that `String.prototype.trim` removes and that `\s`
      matches: the WhiteSpace and LineTerminator code points of ECMAScript. */
  predicate IsWhitespace(c: char)
  {
    c == '\t' || c == '\n' || c == '\U{000B}' || c == '\U{000C}' || c == '\r' ||
    c == ' ' || c == '\U{00A0}' || c == '\U{1680}' ||
    ('\U{2000}' <= c <= '\U{200A}') ||
    c == '\U{2028}' || c == '\U{2029}' || c == '\U{202F}' || c == '\U{205F}' ||
    c == '\U{3000}' || c == '\U{FEFF}'
  }

  /** An ASCII decimal digit: `[0-9]` and `\d` in a JavaScript regular expression. */
  predicate IsDigit(c: char)
  {
    '0' <= c <= '9'
  }

  predicate AllWhitespace(s: string)
  {
    forall i :: 0 <= i < |s| ==> IsWhitespace(s[i])
  }

  predicate NoWhitespace(s: string)
  {
    forall i :: 0 <= i < |s| ==> !IsWhitespace(s[i])
  }

  predicate AllDigits(s: string)
  {
    forall i :: 0 <= i < |s| ==> IsDigit(s[i])
  }

  /** The length of the leading run of whitespace. */
  function LeadingWhitespace(s: string): (k: nat)
    ensures k <= |s|
    ensures forall i :: 0 <= i < k ==> IsWhitespace(s[i])
    ensures k < |s| ==> !IsWhitespace(s[k])
  {
    if s != [] && IsWhitespace(s[0]) then 1 + LeadingWhitespace(s[1..]) else 0
  }

  /** The index where the trailing run of whitespace begins. */
  function TrailingWhitespaceStart(s: string): (k: nat)
    ensures k <= |s|
    ensures forall i :: k <= i < |s| ==> IsWhitespace(s[i])
    ensures 0 < k ==> !IsWhitespace(s[k - 1])
  {
    if s != [] && IsWhitespace(s[|s| - 1]) then TrailingWhitespaceStart(s[..|s| - 1]) else |s|
  }

  /** `s.trimStart()`: drop the leading run of whitespace. */
  function TrimStart(s: string): (r: string)
    ensures r == [] || !IsWhitespace(r[0])
  {
    s[LeadingWhitespace(s)..]
  }

  /** `s.trimEnd()`: drop the trailing run of whitespace. */
  function TrimEnd(s: string): (r: string)
    ensures r == [] || !IsWhitespace(r[|r| - 1])
  {
    s[..TrailingWhitespaceStart(s)]
  }

  /** `s.trim()`. */
  function Trim(s: string): (r: string)
    ensures r == [] || (!IsWhitespace(r[0]) && !IsWhitespace(r[|r| - 1]))
  {
    TrimEnd(TrimStart(s))
  }

  /** `!s.trim()`: the string is empty or whitespace only. */
  predicate IsBlank(s: string)
  {
    Trim(s) == []
  }

  lemma {:induction false} TrimStartOfTrimmed(s: string)
    requires s == [] || !IsWhitespace(s[0])
    ensures TrimStart(s) == s
  {
  }

  lemma {:induction false} TrimEndOfTrimmed(s: string)
    requires s == [] || !IsWhitespace(s[|s| - 1])
    ensures TrimEnd(s) == s
  {
  }

  /** Trimming is idempotent. */
  lemma TrimIdempotent(s: string)
    ensures Trim(Trim(s)) == Trim(s)
  {
    var t := Trim(s);
    TrimStartOfTrimmed(t);
    TrimEndOfTrimmed(t);
  }

  /** A string is blank exactly when every character is whitespace. */
  lemma {:induction false} BlankIffAllWhitespace(s: string)
    ensures IsBlank(s) <==> AllWhitespace(s)
  {
    var a := TrimStart(s);
    if IsBlank(s) {
      assert a == [];
      assert s[..|s| - |a|] == s;
    }
  }

  /** Appending a whitespace character does not change the trimmed text. */
  lemma {:induction false} TrimEndWhitespace(s: string, c: char)
    requires IsWhitespace(c)
    ensures Trim(s + [c]) == Trim(s)
  {
    TrimStartAppend(s, c);
    if TrimStart(s) == [] {
      assert TrimStart(s + [c]) == [];
    } else {
      var t := TrimStart(s);
      assert TrimStart(s + [c]) == t + [c];
      assert (t + [c])[..|t + [c]| - 1] == t;
    }
  }

  /** Trimming the start of `s + [c]` trims the start of `s` first, unless
      `s` is all whitespace. */
  lemma {:induction false} TrimStartAppend(s: string, c: char)
    ensures TrimStart(s) == [] ==> TrimStart(s + [c]) == TrimStart([c])
    ensures TrimStart(s) != [] ==> TrimStart(s + [c]) == TrimStart(s) + [c]
    decreases |s|
  {
    if s == [] {
      assert s + [c] == [c];
    } else if IsWhitespace(s[0]) {
      assert (s + [c])[0] == s[0];
      assert (s + [c])[1..] == s[1..] + [c];
      assert TrimStart(s + [c]) == TrimStart(s[1..] + [c]);
      assert TrimStart(s) == TrimStart(s[1..]);
      TrimStartAppend(s[1..], c);
    } else {
      assert (s + [c])[0] == s[0];
      assert TrimStart(s + [c]) == s + [c];
      assert TrimStart(s) == s;
    }
  }

  /** `s.startsWith(p)`. */
  predicate StartsWith(s: string, p: string)
  {
    |p| <= |s| && s[..|p|] == p
  }

  /** `s.includes(p)`. */
  predicate Contains(s: string, p: string)
  {
    exists i | 0 <= i <= |s| :: OccursAt(s, p, i)
  }

  /** `p` occurs in `s` starting at index `i`. */
  predicate OccursAt(s: string, p: string, i: int)
  {
    0 <= i <= |s| - |p| && s[i..i + |p|] == p
  }

  /** `s.indexOf(c)`, except that a missing character gives `|s|` instead of -1. */
  function IndexOf(s: string, c: char): (k: nat)
    ensures k <= |s|
    ensures c !in s[..k]
    ensures k < |s| ==> s[k] == c
    ensures k == |s| <==> c !in s
  {
    if s == [] then 0
    else if s[0] == c then 0
    else
      var k := 1 + IndexOf(s[1..], c);
      assert s[..k] == [s[0]] + s[1..][..k - 1];
      k
  }

  /** `s.replace(from, to)` with a one-character pattern: only the first
      occurrence is replaced. */
  function ReplaceFirst(s: string, from: char, to: char): (r: string)
    ensures |r| == |s|
    ensures from !in s ==> r == s
    ensures from in s ==> r == s[..IndexOf(s, from)] + [to] + s[IndexOf(s, from) + 1..]
  {
    var k := IndexOf(s, from);
    if k == |s| then s else s[..k] + [to] + s[k + 1..]
  }

  /** Replacing back undoes a replacement whose new character did not occur
      in the text. */
  lemma ReplaceFirstUndone(s: string, a: char, b: char)
    requires b !in s
    ensures ReplaceFirst(ReplaceFirst(s, a, b), b, a) == s
  {
    if a in s {
      var k := IndexOf(s, a);
      var r := ReplaceFirst(s, a, b);
      assert r[..k] == s[..k];
      assert r[k] == b;
      assert IndexOf(r, b) == k;
      assert r[k + 1..] == s[k + 1..];
      assert s == s[..k] + [a] + s[k + 1..];
    }
  }

  /** `s.split(sep)` with a one-character separator: the pieces between the
      separators, in order, including empty ones; the empty string gives one
      empty piece. */
  function Split(s: string, sep: char): (parts: seq<string>)
    ensures |parts| >= 1
    ensures forall k :: 0 <= k < |parts| ==> sep !in parts[k]
  {
    if s == [] then [""]
    else
      var rest := Split(s[1..], sep);
      if s[0] == sep then [""] + rest
      else [[s[0]] + rest[0]] + rest[1..]
  }

  /** `parts.join(sep)`. */
  function Join(parts: seq<string>, sep: char): string
  {
    if parts == [] then ""
    else if |parts| == 1 then parts[0]
    else parts[0] + [sep] + Join(parts[1..], sep)
  }

  /** Splitting undoes joining when no piece holds the separator. */
  lemma {:induction false} SplitJoin(parts: seq<string>, sep: char)
    requires |parts| >= 1
    requires forall k :: 0 <= k < |parts| ==> sep !in parts[k]
    ensures Split(Join(parts, sep), sep) == parts
    decreases |parts|, |parts[0]|
  {
    if |parts| == 1 {
      SplitNoSeparator(parts[0], sep);
    } else if parts[0] == [] {
      var tail := Join(parts[1..], sep);
      assert Join(parts, sep) == [sep] + tail;
      assert ([sep] + tail)[1..] == tail;
      SplitJoin(parts[1..], sep);
    } else {
      var p := parts[0];
      var shorter := [p[1..]] + parts[1..];
      assert Join(parts, sep) == [p[0]] + Join(shorter, sep) by {
        assert Join(shorter, sep) == p[1..] + [sep] + Join(parts[1..], sep);
        assert p == [p[0]] + p[1..];
      }
      assert sep !in p[1..] by {
        assert forall x :: x in p[1..] ==> x in p;
      }
      assert shorter[1..] == parts[1..];
      SplitJoin(shorter, sep);
      var j := Join(shorter, sep);
      assert ([p[0]] + j)[1..] == j;
      assert p[0] != sep by { assert p[0] in p; }
      assert Split([p[0]] + j, sep) == [[p[0]] + Split(j, sep)[0]] + Split(j, sep)[1..];
      assert [p[0]] + p[1..] == p;
      assert [p] + parts[1..] == parts;
    }
  }

  /** A string without the separator splits into itself. */
  lemma {:induction false} SplitNoSeparator(s: string, sep: char)
    requires sep !in s
    ensures Split(s, sep) == [s]
    decreases |s|
  {
    if s != [] {
      assert sep !in s[1..] by {
        assert forall x :: x in s[1..] ==> x in s;
      }
      SplitNoSeparator(s[1..], sep);
      assert s[0] != sep by { assert s[0] in s; }
      assert Split(s, sep) == [[s[0]] + s[1..]];
      assert [s[0]] + s[1..] == s;
    }
  }

  /** `s.split(/\s+/)`: the pieces between maximal runs of whitespace. A
      leading (trailing) run gives an empty first (last) piece, and the empty
      string gives one empty piece, as in JavaScript. */
  function SplitWhitespace(s: string): (parts: seq<string>)
    ensures |parts| >= 1
    ensures forall k :: 0 <= k < |parts| ==> NoWhitespace(parts[k])
    decreases |s|
  {
    if s == [] then [""]
    else if IsWhitespace(s[0]) then [""] + SplitWhitespace(TrimStart(s))
    else
      var rest := SplitWhitespace(s[1..]);
      assert forall i :: 1 <= i < |[s[0]] + rest[0]| ==> ([s[0]] + rest[0])[i] == rest[0][i - 1];
      [[s[0]] + rest[0]] + rest[1..]
  }

  /** A nonempty string without whitespace is a single field. */
  lemma {:induction false} SplitWhitespaceSolid(s: string)
    requires s != [] && NoWhitespace(s)
    ensures SplitWhitespace(s) == [s]
    decreases |s|
  {
    if |s| == 1 {
      SplitWhitespaceCons(s[0], []);
      assert [s[0]] + [] == s;
    } else {
      SplitWhitespaceSolid(s[1..]);
      SplitWhitespaceCons(s[0], s[1..]);
      assert [s[0]] + s[1..] == s;
    }
  }

  /** A leading non-whitespace character joins the first field. */
  lemma {:induction false} SplitWhitespaceCons(c: char, t: string)
    requires !IsWhitespace(c)
    ensures SplitWhitespace([c] + t) ==
            [[c] + SplitWhitespace(t)[0]] + SplitWhitespace(t)[1..]
  {
    assert ([c] + t)[0] == c;
    assert ([c] + t)[1..] == t;
  }

  /** Two solid words separated by one whitespace run split into those two words. */
  lemma {:induction false} SplitWhitespaceTwo(a: string, gap: string, b: string)
    requires a != [] && NoWhitespace(a)
    requires gap != [] && AllWhitespace(gap)
    requires b != [] && NoWhitespace(b)
    ensures SplitWhitespace(a + gap + b) == [a, b]
    decreases |a|
  {
    var s := a + gap + b;
    assert s == [a[0]] + (a[1..] + gap + b);
    SplitWhitespaceCons(a[0], a[1..] + gap + b);
    if |a| == 1 {
      assert a[1..] + gap + b == gap + b;
      TrimStartPrefix(gap, b);
      SplitWhitespaceSolid(b);
      assert (gap + b)[0] == gap[0];
      assert SplitWhitespace(gap + b) == [""] + [b];
      assert [a[0]] + "" == a;
    } else {
      SplitWhitespaceTwo(a[1..], gap, b);
      assert [a[0]] + a[1..] == a;
    }
  }

  /** Leading whitespace is skipped whatever follows it. */
  lemma {:induction false} TrimStartSkips(ws: string, s: string)
    requires AllWhitespace(ws)
    ensures TrimStart(ws + s) == TrimStart(s)
    decreases |ws|
  {
    if ws == [] {
      assert ws + s == s;
    } else {
      assert (ws + s)[0] == ws[0];
      assert (ws + s)[1..] == ws[1..] + s;
      TrimStartSkips(ws[1..], s);
    }
  }

  /** Appending whitespace does not change the trimmed text. */
  lemma {:induction false} TrimAppendedWhitespace(s: string, ws: string)
    requires AllWhitespace(ws)
    ensures Trim(s + ws) == Trim(s)
    decreases |ws|
  {
    if ws == [] {
      assert s + ws == s;
    } else {
      var init := ws[..|ws| - 1];
      assert s + ws == (s + init) + [ws[|ws| - 1]];
      TrimEndWhitespace(s + init, ws[|ws| - 1]);
      TrimAppendedWhitespace(s, init);
    }
  }

  /** Whitespace around a text does not change the trimmed text. */
  lemma TrimSurrounded(pre: string, s: string, post: string)
    requires AllWhitespace(pre) && AllWhitespace(post)
    ensures Trim(pre + s + post) == Trim(s)
  {
    TrimAppendedWhitespace(pre + s, post);
    TrimStartSkips(pre, s);
  }

  /** Trimming the start of `ws + t` leaves `t` when `t` does not start with whitespace. */
  lemma {:induction false} TrimStartPrefix(ws: string, t: string)
    requires AllWhitespace(ws)
    requires t == [] || !IsWhitespace(t[0])
    ensures TrimStart(ws + t) == t
    decreases |ws|
  {
    if ws != [] {
      assert (ws + t)[1..] == ws[1..] + t;
      TrimStartPrefix(ws[1..], t);
    } else {
      assert ws + t == t;
    }
  }
}
