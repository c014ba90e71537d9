/** String operations the pages share, with the JavaScript behaviour they stand for:
    `toLowerCase` (ASCII letters only), `includes`, a global literal `replace`, `split`,
    `join`, `trim` and `length`. */
module Text {

  /** The UTF-16 code units of one character: two for a character beyond U+FFFF, which
      JavaScript stores as a surrogate pair. */
  function Utf16Units(c: char): nat
  {
    if c as int > 0xFFFF then 2 else 1
  }

  /** `length` of a JavaScript string: its number of UTF-16 code units. */
  function Utf16Length(s: string): (r: nat)
    ensures |s| <= r <= 2 * |s|
    ensures r == |s| <==> forall i :: 0 <= i < |s| ==> s[i] as int <= 0xFFFF
  {
    if s == [] then 0
    else
      var r := Utf16Units(s[0]) + Utf16Length(s[1..]);
      assert forall i :: 1 <= i < |s| ==> s[i] == s[1..][i - 1];
      r
  }

  /** A character beyond U+FFFF counts twice. */
  lemma EmojiCountsTwice()
    ensures Utf16Length("\U{1F4BC}") == 2
  {
  }

  /** `toLowerCase` on one character, restricted to the ASCII letters. */
  function LowerChar(c: char): char
  {
    if 'A' <= c <= 'Z' then (c as int + 32) as char else c
  }

  /** `toLowerCase` on a string. */
  function Lower(s: string): (r: string)
    ensures |r| == |s|
    ensures forall i :: 0 <= i < |s| ==> r[i] == LowerChar(s[i])
  {
    if s == [] then [] else [LowerChar(s[0])] + Lower(s[1..])
  }

  lemma {:induction false} LowerIdempotent(s: string)
    ensures Lower(Lower(s)) == Lower(s)
  {
    if s != [] {
      LowerIdempotent(s[1..]);
      assert Lower(s)[1..] == Lower(s[1..]);
    }
  }

  /** `k` is a prefix of `s`. */
  predicate IsPrefix(k: string, s: string)
  {
    |k| <= |s| && s[..|k|] == k
  }

  /** `k` occurs in `s` starting at index `i`. */
  predicate OccursAt(s: string, k: string, i: int)
  {
    0 <= i && i + |k| <= |s| && s[i..i + |k|] == k
  }

  /** `s.includes(k)`: scanning from the left, `k` is a prefix of some suffix of `s`. */
  predicate Contains(s: string, k: string)
    decreases |s|
  {
    IsPrefix(k, s) || (|s| > 0 && Contains(s[1..], k))
  }

  /** `includes` holds exactly when `k` occurs at some index. */
  lemma {:induction false} ContainsIff(s: string, k: string)
    ensures Contains(s, k) <==> exists i :: OccursAt(s, k, i)
  {
    if IsPrefix(k, s) {
      assert OccursAt(s, k, 0);
    } else if |s| == 0 {
      assert forall i :: !OccursAt(s, k, i);
    } else {
      ContainsIff(s[1..], k);
      if Contains(s[1..], k) {
        var i :| OccursAt(s[1..], k, i);
        assert s[1..][i..i + |k|] == s[i + 1..i + 1 + |k|];
        assert OccursAt(s, k, i + 1);
      } else {
        forall i | OccursAt(s, k, i) && i > 0 ensures OccursAt(s[1..], k, i - 1) {
          assert s[1..][i - 1..i - 1 + |k|] == s[i..i + |k|];
        }
        assert !OccursAt(s, k, 0);
      }
    }
  }

  /** Every string includes the empty string. */
  lemma EmptyIsContained(s: string)
    ensures Contains(s, "")
  {
    assert IsPrefix("", s);
  }

  /** A string longer than `s` never occurs in `s`. */
  lemma {:induction false} TooLongNotContained(s: string, k: string)
    requires |k| > |s|
    ensures !Contains(s, k)
  {
    if |s| > 0 {
      TooLongNotContained(s[1..], k);
    }
  }

  /** The number of non-overlapping occurrences of `k` found scanning from the left,
      as a global regular expression match or `split` counts them. */
  function CountOccurrences(s: string, k: string): nat
    requires |k| > 0
    decreases |s|
  {
    if |s| < |k| then 0
    else if IsPrefix(k, s) then 1 + CountOccurrences(s[|k|..], k)
    else CountOccurrences(s[1..], k)
  }

  lemma {:induction false} CountZeroIffAbsent(s: string, k: string)
    requires |k| > 0
    ensures CountOccurrences(s, k) == 0 <==> !Contains(s, k)
  {
    if |s| < |k| {
      TooLongNotContained(s, k);
    } else if !IsPrefix(k, s) {
      CountZeroIffAbsent(s[1..], k);
    }
  }

  /** `s.replace(new RegExp(escaped(k), 'g'), v)` for a key `k` matched literally: every
      non-overlapping occurrence, leftmost first, becomes `v`. */
  function ReplaceAll(s: string, k: string, v: string): string
    requires |k| > 0
    decreases |s|
  {
    if |s| < |k| then s
    else if IsPrefix(k, s) then v + ReplaceAll(s[|k|..], k, v)
    else [s[0]] + ReplaceAll(s[1..], k, v)
  }

  /** `parts.join(sep)`. */
  function Join(parts: seq<string>, sep: string): string
  {
    if |parts| == 0 then ""
    else if |parts| == 1 then parts[0]
    else parts[0] + sep + Join(parts[1..], sep)
  }

  /** Prepend one character to the first piece of a split. */
  function ConsFirst(c: char, pieces: seq<string>): seq<string>
    requires |pieces| > 0
  {
    [[c] + pieces[0]] + pieces[1..]
  }

  /** `s.split(k)` for a non-empty string separator: the text between the non-overlapping
      occurrences of `k`, leftmost first. */
  function Pieces(s: string, k: string): (r: seq<string>)
    requires |k| > 0
    ensures |r| > 0
    decreases |s|
  {
    if |s| < |k| then [s]
    else if IsPrefix(k, s) then [""] + Pieces(s[|k|..], k)
    else ConsFirst(s[0], Pieces(s[1..], k))
  }

  lemma JoinConsFirst(c: char, pieces: seq<string>, sep: string)
    requires |pieces| > 0
    ensures Join(ConsFirst(c, pieces), sep) == [c] + Join(pieces, sep)
  {
  }

  lemma JoinPrepend(pieces: seq<string>, sep: string)
    requires |pieces| > 0
    ensures Join([""] + pieces, sep) == sep + Join(pieces, sep)
  {
    assert ([""] + pieces)[1..] == pieces;
  }

  lemma {:induction false} PiecesReplace(s: string, k: string, v: string)
    requires |k| > 0
    ensures Join(Pieces(s, k), v) == ReplaceAll(s, k, v)
    decreases |s|
  {
    if |s| < |k| {
    } else if IsPrefix(k, s) {
      PiecesReplace(s[|k|..], k, v);
      JoinPrepend(Pieces(s[|k|..], k), v);
    } else {
      PiecesReplace(s[1..], k, v);
      JoinConsFirst(s[0], Pieces(s[1..], k), v);
    }
  }

  lemma {:induction false} PiecesCount(s: string, k: string)
    requires |k| > 0
    ensures |Pieces(s, k)| == CountOccurrences(s, k) + 1
    decreases |s|
  {
    if |s| < |k| {
    } else if IsPrefix(k, s) {
      PiecesCount(s[|k|..], k);
    } else {
      PiecesCount(s[1..], k);
    }
  }

  /** Replacing a key by itself changes nothing. */
  lemma {:induction false} ReplaceBySelf(s: string, k: string)
    requires |k| > 0
    ensures ReplaceAll(s, k, k) == s
    decreases |s|
  {
    if |s| < |k| {
    } else if IsPrefix(k, s) {
      ReplaceBySelf(s[|k|..], k);
      assert s == k + s[|k|..];
    } else {
      ReplaceBySelf(s[1..], k);
      assert s == [s[0]] + s[1..];
    }
  }

  /** Splitting on `k` and joining with `v` is the global replacement, and joining with
      `k` itself gives back the original text. */
  lemma PiecesJoin(s: string, k: string, v: string)
    requires |k| > 0
    ensures Join(Pieces(s, k), v) == ReplaceAll(s, k, v)
    ensures Join(Pieces(s, k), k) == s
    ensures |Pieces(s, k)| == CountOccurrences(s, k) + 1
  {
    PiecesReplace(s, k, v);
    PiecesReplace(s, k, k);
    ReplaceBySelf(s, k);
    PiecesCount(s, k);
  }

  /** The first piece of a split is a prefix of the text. */
  lemma FirstPieceIsPrefix(pieces: seq<string>, sep: string)
    requires |pieces| > 0
    ensures IsPrefix(pieces[0], Join(pieces, sep))
  {
    if |pieces| > 1 {
      assert Join(pieces, sep) == pieces[0] + (sep + Join(pieces[1..], sep));
    }
  }

  lemma PrefixOfPrefix(k: string, a: string, s: string)
    requires IsPrefix(k, a) && IsPrefix(a, s)
    ensures IsPrefix(k, s)
  {
    assert s[..|k|] == s[..|a|][..|k|];
  }

  /** A text that includes `k` but not at position 0 includes it in its tail. */
  lemma ContainsCons(c: char, p: string, k: string)
    requires Contains([c] + p, k) && !IsPrefix(k, [c] + p)
    ensures Contains(p, k)
  {
    assert ([c] + p)[1..] == p;
  }

  /** The first piece of a split is a prefix of the text. */
  lemma FirstPieceOfText(s: string, k: string)
    requires |k| > 0
    ensures IsPrefix(Pieces(s, k)[0], s)
  {
    PiecesReplace(s, k, k);
    ReplaceBySelf(s, k);
    FirstPieceIsPrefix(Pieces(s, k), k);
  }

  /** When the text does not start with `k`, its first piece gains the first character
      and still avoids `k`. */
  lemma FirstPieceAvoids(s: string, k: string)
    requires |k| > 0 && |s| >= |k| && !IsPrefix(k, s)
    requires !Contains(Pieces(s[1..], k)[0], k)
    ensures !Contains([s[0]] + Pieces(s[1..], k)[0], k)
  {
    var rest := Pieces(s[1..], k);
    var first := [s[0]] + rest[0];
    FirstPieceOfText(s[1..], k);
    assert IsPrefix(first, s) by {
      assert s == [s[0]] + s[1..];
      assert s[..|first|] == [s[0]] + s[1..][..|rest[0]|];
    }
    if IsPrefix(k, first) {
      PrefixOfPrefix(k, first, s);
      assert false;
    }
    if Contains(first, k) {
      ContainsCons(s[0], rest[0], k);
      assert false;
    }
  }

  /** No piece of a split contains the separator: every occurrence was cut out. */
  lemma {:induction false} PiecesAvoidSeparator(s: string, k: string)
    requires |k| > 0
    ensures forall i :: 0 <= i < |Pieces(s, k)| ==> !Contains(Pieces(s, k)[i], k)
    decreases |s|
  {
    var ps := Pieces(s, k);
    if |s| < |k| {
      TooLongNotContained(s, k);
    } else if IsPrefix(k, s) {
      PiecesAvoidSeparator(s[|k|..], k);
      assert !Contains("", k) by { TooLongNotContained("", k); }
      assert forall i :: 1 <= i < |ps| ==> ps[i] == Pieces(s[|k|..], k)[i - 1];
    } else {
      var rest := Pieces(s[1..], k);
      PiecesAvoidSeparator(s[1..], k);
      assert ps == [[s[0]] + rest[0]] + rest[1..];
      assert forall i :: 1 <= i < |ps| ==> ps[i] == rest[i];
      FirstPieceAvoids(s, k);
    }
  }

  /** A key that does not occur leaves the text unchanged. */
  lemma {:induction false} ReplaceAbsent(s: string, k: string, v: string)
    requires |k| > 0 && !Contains(s, k)
    ensures ReplaceAll(s, k, v) == s
    decreases |s|
  {
    if |s| >= |k| {
      ReplaceAbsent(s[1..], k, v);
      assert s == [s[0]] + s[1..];
    }
  }

  /** Each replaced occurrence changes the length by `|v| - |k|`; with `v == ""` every
      occurrence is deleted. */
  lemma {:induction false} ReplaceLength(s: string, k: string, v: string)
    requires |k| > 0
    ensures |ReplaceAll(s, k, v)| == |s| + CountOccurrences(s, k) * (|v| - |k|)
    decreases |s|
  {
    if |s| < |k| {
    } else if IsPrefix(k, s) {
      var t := s[|k|..];
      ReplaceLength(t, k, v);
      var n := CountOccurrences(t, k);
      var d := |v| - |k|;
      assert CountOccurrences(s, k) == n + 1;
      assert |ReplaceAll(s, k, v)| == |v| + |ReplaceAll(t, k, v)|;
      assert |s| == |k| + |t|;
      assert (n + 1) * d == n * d + d;
    } else {
      ReplaceLength(s[1..], k, v);
      assert CountOccurrences(s, k) == CountOccurrences(s[1..], k);
      assert |ReplaceAll(s, k, v)| == 1 + |ReplaceAll(s[1..], k, v)|;
    }
  }

  /** Splitting a text that holds no separator gives the text itself. */
  lemma {:induction false} PiecesWithoutSeparator(p: string, c: char)
    requires c !in p
    ensures Pieces(p, [c]) == [p]
    decreases |p|
  {
    if |p| > 0 {
      PiecesWithoutSeparator(p[1..], c);
      assert p[0] in p;
      assert !IsPrefix([c], p) by { assert p[..1][0] == p[0]; }
      assert p == [p[0]] + p[1..];
    }
  }

  /** Splitting `p + c + x` on `c`, when `p` holds no `c`, cuts off `p` first. */
  lemma {:induction false} PiecesAfterFirst(p: string, c: char, x: string)
    requires c !in p
    ensures Pieces(p + [c] + x, [c]) == [p] + Pieces(x, [c])
    decreases |p|
  {
    var s := p + [c] + x;
    if |p| == 0 {
      assert IsPrefix([c], s);
      assert s[1..] == x;
    } else {
      assert p[0] in p && s[0] == p[0];
      assert !IsPrefix([c], s) by { assert s[..1][0] == s[0]; }
      assert s[1..] == p[1..] + [c] + x;
      PiecesAfterFirst(p[1..], c, x);
      assert s[0] == p[0];
      assert [p[0]] + p[1..] == p;
    }
  }

  /** Joining with a one-character separator and splitting on it again gives back the
      parts, provided no part holds the separator. */
  lemma {:induction false} PiecesOfJoin(parts: seq<string>, c: char)
    requires |parts| > 0
    requires forall i :: 0 <= i < |parts| ==> c !in parts[i]
    ensures Pieces(Join(parts, [c]), [c]) == parts
  {
    if |parts| == 1 {
      PiecesWithoutSeparator(parts[0], c);
    } else {
      PiecesOfJoin(parts[1..], c);
      PiecesAfterFirst(parts[0], c, Join(parts[1..], [c]));
      assert parts == [parts[0]] + parts[1..];
    }
  }

  /** `k` occurs in `a + k + b`. */
  lemma ContainsMiddle(a: string, k: string, b: string)
    ensures Contains(a + k + b, k)
  {
    assert (a + k + b)[|a|..|a| + |k|] == k;
    assert OccursAt(a + k + b, k, |a|);
    ContainsIff(a + k + b, k);
  }

  /** What occurs in `b` occurs in every extension of `b` to the left. */
  lemma {:induction false} ContainsSuffix(a: string, b: string, k: string)
    requires Contains(b, k)
    ensures Contains(a + b, k)
  {
    if a == [] {
      assert a + b == b;
    } else {
      ContainsSuffix(a[1..], b, k);
      assert (a + b)[1..] == a[1..] + b;
    }
  }

  /** A text joined from at least two parts contains the separator. */
  lemma ContainsJoinSep(parts: seq<string>, sep: string)
    requires |parts| >= 2
    ensures Contains(Join(parts, sep), sep)
  {
    ContainsMiddle(parts[0], sep, Join(parts[1..], sep));
  }

  /** Replacing a key that occurs puts the value into the text. */
  lemma FillInsertsValue(s: string, k: string, v: string)
    requires |k| > 0 && Contains(s, k)
    ensures Contains(ReplaceAll(s, k, v), v)
  {
    PiecesJoin(s, k, v);
    CountZeroIffAbsent(s, k);
    ContainsJoinSep(Pieces(s, k), v);
  }

  /** A part after the first that begins with `w` puts `[c] + w` into the text joined
      with `c`. */
  lemma {:induction false} JoinPartPrefix(parts: seq<string>, c: char, i: nat, w: string)
    requires 1 <= i < |parts| && IsPrefix(w, parts[i])
    ensures Contains(Join(parts, [c]), [c] + w)
  {
    var rest := Join(parts[1..], [c]);
    assert Join(parts, [c]) == parts[0] + ([c] + rest);
    if i == 1 {
      FirstPieceIsPrefix(parts[1..], [c]);
      PrefixOfPrefix(w, parts[1], rest);
      var tail := rest[|w|..];
      assert rest == w + tail;
      assert Join(parts, [c]) == parts[0] + ([c] + w) + tail;
      ContainsMiddle(parts[0], [c] + w, tail);
    } else {
      JoinPartPrefix(parts[1..], c, i - 1, w);
      ContainsSuffix(parts[0] + [c], rest, [c] + w);
      assert parts[0] + [c] + rest == parts[0] + ([c] + rest);
    }
  }

  /** A key that begins with a character `t` lacks does not occur in `t + g` when it does
      not occur in `g`. */
  lemma {:induction false} NoKeyAfterFree(t: string, g: string, k: string)
    requires |k| > 0 && k[0] !in t && !Contains(g, k)
    ensures !Contains(t + g, k)
  {
    if t == [] {
      assert t + g == g;
    } else {
      assert t[0] in t;
      assert (t + g)[0] == t[0];
      assert (t + g)[1..] == t[1..] + g;
      NoKeyAfterFree(t[1..], g, k);
    }
  }

  /** A key made of `c` and a rest free of `c` does not start at a `c` whose following
      part `t` does not begin with that rest, when what follows `t` is empty or another
      `c`. */
  lemma NoKeyAtOpen(c: char, t: string, g: string, k: string)
    requires |k| > 0 && k[0] == c && c !in k[1..] && c !in t
    requires !IsPrefix(k[1..], t)
    requires g == [] || g[0] == c
    ensures !IsPrefix(k, [c] + t + g)
  {
    var s := [c] + t + g;
    if |k| - 1 <= |t| {
      assert s[1..|k|] == t[..|k| - 1];
      assert |k| <= |s| ==> s[..|k|][1..] == s[1..|k|];
    } else if |k| <= |s| {
      assert s[1 + |t|] == c;
      assert k[1..][|t|] == k[1 + |t|];
      assert k[1 + |t|] in k[1..];
      assert s[..|k|][1 + |t|] == s[1 + |t|];
    }
  }

  /** A key that starts with `c` and holds no other `c` occurs nowhere in a text joined
      with `c` from `c`-free parts when no part after the first begins with the rest of
      the key. */
  lemma {:induction false} NoKeyInJoin(parts: seq<string>, c: char, k: string)
    requires |parts| > 0 && |k| > 0 && k[0] == c && c !in k[1..]
    requires forall i :: 0 <= i < |parts| ==> c !in parts[i]
    requires forall i :: 1 <= i < |parts| ==> !IsPrefix(k[1..], parts[i])
    ensures !Contains(Join(parts, [c]), k)
  {
    if |parts| == 1 {
      TooLongNotContained("", k);
      NoKeyAfterFree(parts[0], "", k);
      assert parts[0] + "" == parts[0];
    } else {
      var rest := Join(parts[1..], [c]);
      NoKeyInJoin(parts[1..], c, k);
      var g := if |parts| == 2 then "" else [c] + Join(parts[2..], [c]);
      assert rest == parts[1] + g;
      NoKeyAtOpen(c, parts[1], g, k);
      assert ([c] + rest)[1..] == rest;
      assert [c] + rest == [c] + parts[1] + g;
      NoKeyAfterFree(parts[0], [c] + rest, k);
      assert Join(parts, [c]) == parts[0] + ([c] + rest);
    }
  }

  /** The chunks of a text written in pieces, concatenated. */
  function Concat(chunks: seq<string>): string
  {
    if chunks == [] then "" else chunks[0] + Concat(chunks[1..])
  }

  /** A text made of chunks none of which holds `c` does not hold `c`. */
  lemma {:induction false} ConcatAvoids(chunks: seq<string>, c: char)
    requires forall m, i :: 0 <= m < |chunks| && 0 <= i < |chunks[m]| ==> chunks[m][i] != c
    ensures c !in Concat(chunks)
  {
    if chunks != [] {
      ConcatAvoids(chunks[1..], c);
      assert forall m :: 0 <= m < |chunks| - 1 ==> chunks[1..][m] == chunks[m + 1];
      assert c !in chunks[0] by {
        forall i | 0 <= i < |chunks[0]| ensures chunks[0][i] != c {}
      }
    }
  }

  /** The first chunk begins the text. */
  lemma ConcatStartsWithFirst(chunks: seq<string>)
    requires |chunks| > 0
    ensures IsPrefix(chunks[0], Concat(chunks))
  {
    assert Concat(chunks)[..|chunks[0]|] == chunks[0];
  }

  /** A word that differs from the first chunk at some index of both does not begin the
      text. */
  lemma ConcatNotPrefix(w: string, chunks: seq<string>, i: nat)
    requires |chunks| > 0 && i < |w| && i < |chunks[0]| && w[i] != chunks[0][i]
    ensures !IsPrefix(w, Concat(chunks))
  {
    var s := Concat(chunks);
    ConcatStartsWithFirst(chunks);
    assert s[i] == chunks[0][i];
    assert |w| <= |s| ==> s[..|w|][i] == s[i];
  }

  /** A word that begins the first chunk begins the text. */
  lemma ConcatPrefix(w: string, chunks: seq<string>)
    requires |chunks| > 0 && IsPrefix(w, chunks[0])
    ensures IsPrefix(w, Concat(chunks))
  {
    ConcatStartsWithFirst(chunks);
    PrefixOfPrefix(w, chunks[0], Concat(chunks));
  }

  /** The whitespace `String.prototype.trim` removes: the ECMAScript WhiteSpace and
      LineTerminator characters. */
  predicate IsWhitespace(c: char)
  {
    c == ' ' || c == '\t' || c == '\n' || c == '\r' || c == '\U{000B}' || c == '\U{000C}' ||
    c == '\U{00A0}' || c == '\U{1680}' || ('\U{2000}' <= c <= '\U{200A}') ||
    c == '\U{2028}' || c == '\U{2029}' || c == '\U{202F}' || c == '\U{205F}' ||
    c == '\U{3000}' || c == '\U{FEFF}'
  }

  function TrimStart(s: string): (r: string)
    decreases |s|
  {
    if |s| > 0 && IsWhitespace(s[0]) then TrimStart(s[1..]) else s
  }

  function TrimEnd(s: string): (r: string)
    decreases |s|
  {
    if |s| > 0 && IsWhitespace(s[|s| - 1]) then TrimEnd(s[..|s| - 1]) else s
  }

  /** `s.trim()`. */
  function Trim(s: string): string
  {
    TrimEnd(TrimStart(s))
  }

  /** Neither end of `s` is whitespace. */
  predicate Trimmed(s: string)
  {
    |s| > 0 ==> !IsWhitespace(s[0]) && !IsWhitespace(s[|s| - 1])
  }

  /** `s` consists of whitespace only. */
  predicate AllWhitespace(s: string)
  {
    forall i :: 0 <= i < |s| ==> IsWhitespace(s[i])
  }

  /** The length of the leading run of whitespace. */
  function LeadingSpace(s: string): (n: nat)
    ensures n <= |s|
    decreases |s|
  {
    if |s| > 0 && IsWhitespace(s[0]) then 1 + LeadingSpace(s[1..]) else 0
  }

  /** The length of the trailing run of whitespace. */
  function TrailingSpace(s: string): (n: nat)
    ensures n <= |s|
    decreases |s|
  {
    if |s| > 0 && IsWhitespace(s[|s| - 1]) then 1 + TrailingSpace(s[..|s| - 1]) else 0
  }

  /** TrimStart drops exactly the leading run of whitespace. */
  lemma {:induction false} TrimStartShape(s: string)
    ensures TrimStart(s) == s[LeadingSpace(s)..]
    ensures AllWhitespace(s[..LeadingSpace(s)])
    ensures |TrimStart(s)| > 0 ==> !IsWhitespace(TrimStart(s)[0])
    decreases |s|
  {
    if |s| > 0 && IsWhitespace(s[0]) {
      var t := s[1..];
      TrimStartShape(t);
      var n := LeadingSpace(t);
      assert t[n..] == s[n + 1..];
      var pre := s[..n + 1];
      forall i | 0 <= i < |pre| ensures IsWhitespace(pre[i]) {
        if i > 0 {
          assert pre[i] == t[..n][i - 1];
        }
      }
    } else {
      assert s[0..] == s;
    }
  }

  /** TrimEnd drops exactly the trailing run of whitespace. */
  lemma {:induction false} TrimEndShape(s: string)
    ensures TrimEnd(s) == s[..|s| - TrailingSpace(s)]
    ensures AllWhitespace(s[|s| - TrailingSpace(s)..])
    ensures |TrimEnd(s)| > 0 ==> !IsWhitespace(TrimEnd(s)[|TrimEnd(s)| - 1])
    decreases |s|
  {
    if |s| > 0 && IsWhitespace(s[|s| - 1]) {
      var t := s[..|s| - 1];
      TrimEndShape(t);
      var n := |t| - TrailingSpace(t);
      assert t[..n] == s[..n];
      var post := s[n..];
      forall i | 0 <= i < |post| ensures IsWhitespace(post[i]) {
        if i < |t| - n {
          assert post[i] == t[n..][i];
        }
      }
    } else {
      assert s[..|s|] == s;
    }
  }

  /** `trim` gives the text between a leading and a trailing run of whitespace, and that
      text neither starts nor ends with whitespace. */
  lemma TrimSpec(s: string)
    ensures Trimmed(Trim(s))
    ensures exists i, j :: 0 <= i <= j <= |s| && Trim(s) == s[i..j] &&
                           AllWhitespace(s[..i]) && AllWhitespace(s[j..])
  {
    var a := TrimStart(s);
    TrimStartShape(s);
    TrimEndShape(a);
    var i := LeadingSpace(s);
    var n := |a| - TrailingSpace(a);
    assert a == s[i..];
    assert Trim(s) == a[..n] == s[i..i + n];
    assert a[n..] == s[i + n..];
    if |Trim(s)| > 0 {
      assert TrimEnd(a)[0] == a[0];
    }
    assert Trim(s) == s[i..i + n] && AllWhitespace(s[..i]) && AllWhitespace(s[i + n..]);
  }

  /** `s.trim()` is empty exactly when `s` is whitespace only. */
  lemma TrimEmptyIff(s: string)
    ensures Trim(s) == "" <==> AllWhitespace(s)
  {
    TrimSpec(s);
    var i, j :| 0 <= i <= j <= |s| && Trim(s) == s[i..j] && AllWhitespace(s[..i]) && AllWhitespace(s[j..]);
    if Trim(s) == "" {
      forall x | 0 <= x < |s| ensures IsWhitespace(s[x]) {
        if x < i { assert s[x] == s[..i][x]; } else { assert s[x] == s[j..][x - j]; }
      }
    } else {
      assert !IsWhitespace(s[i]);
    }
  }

  /** `trim` keeps every slice that starts at a non-whitespace character and ends at or
      before another one. */
  lemma {:induction false} TrimKeeps(s: string, p: nat, e: nat, q: nat)
    requires p < e <= q + 1 && q < |s|
    requires !IsWhitespace(s[p]) && !IsWhitespace(s[q])
    ensures Contains(Trim(s), s[p..e])
  {
    TrimSpec(s);
    var i, j :| 0 <= i <= j <= |s| && Trim(s) == s[i..j] &&
                AllWhitespace(s[..i]) && AllWhitespace(s[j..]);
    SliceOfSlice(s, i, j, p, e);
    assert OccursAt(s[i..j], s[p..e], p - i);
    ContainsIff(Trim(s), s[p..e]);
  }

  /** A part of a text that begins with a non-whitespace character and is followed, somewhere
      after it, by another non-whitespace character survives `trim`. */
  lemma {:induction false} ContainsAfterTrim(a: string, m: string, b: string, x: nat)
    requires |m| > 0 && !IsWhitespace(m[0])
    requires x < |b| && !IsWhitespace(b[x])
    ensures Contains(Trim(a + m + b), m)
  {
    var s := a + m + b;
    assert s[|a|..|a| + |m|] == m;
    assert s[|a|] == m[0];
    assert s[|a| + |m| + x] == b[x];
    TrimKeeps(s, |a|, |a| + |m|, |a| + |m| + x);
  }

  /** A slice of a slice is a slice of the whole. */
  lemma SliceOfSlice(s: string, i: nat, j: nat, p: nat, e: nat)
    requires i <= p <= e <= j <= |s|
    ensures s[i..j][p - i..e - i] == s[p..e]
  {
    assert forall t :: 0 <= t < e - p ==> s[i..j][p - i..e - i][t] == s[p..e][t];
  }

  /** A text that includes `k` in some slice includes `k`. */
  lemma {:induction false} ContainsWiden(s: string, k: string, i: nat, j: nat)
    requires i <= j <= |s| && Contains(s[i..j], k)
    ensures Contains(s, k)
  {
    ContainsIff(s[i..j], k);
    var n :| OccursAt(s[i..j], k, n);
    SliceOfSlice(s, i, j, i + n, i + n + |k|);
    assert OccursAt(s, k, i + n);
    ContainsIff(s, k);
  }

  /** `trim` never introduces a key the text did not include. */
  lemma TrimContains(s: string, k: string)
    ensures Contains(Trim(s), k) ==> Contains(s, k)
  {
    TrimSpec(s);
    var i, j :| 0 <= i <= j <= |s| && Trim(s) == s[i..j] &&
                AllWhitespace(s[..i]) && AllWhitespace(s[j..]);
    if Contains(Trim(s), k) {
      ContainsWiden(s, k, i, j);
    }
  }

  /** A part of a text that begins and ends with a non-whitespace character survives
      `trim`. */
  lemma ContainsInsideTrim(a: string, m: string, b: string)
    requires |m| > 0 && !IsWhitespace(m[0]) && !IsWhitespace(m[|m| - 1])
    ensures Contains(Trim(a + m + b), m)
  {
    var s := a + m + b;
    assert s[|a|..|a| + |m|] == m;
    assert s[|a|] == m[0] && s[|a| + |m| - 1] == m[|m| - 1];
    TrimKeeps(s, |a|, |a| + |m|, |a| + |m| - 1);
  }

  lemma {:induction false} TrimStartWhitespace(w: string)
    requires AllWhitespace(w)
    ensures TrimStart(w) == ""
  {
    if w != [] {
      TrimStartWhitespace(w[1..]);
    }
  }

  lemma {:induction false} TrimEndDropsWhitespace(s: string, w: string)
    requires AllWhitespace(w)
    ensures TrimEnd(s + w) == TrimEnd(s)
    decreases |w|
  {
    if w != [] {
      var v := w[..|w| - 1];
      assert (s + w)[|s + w| - 1] == w[|w| - 1];
      assert (s + w)[..|s + w| - 1] == s + v;
      assert AllWhitespace(v) by {
        forall i | 0 <= i < |v| ensures IsWhitespace(v[i]) {
          assert v[i] == w[i];
        }
      }
      TrimEndDropsWhitespace(s, v);
    } else {
      assert s + w == s;
    }
  }

  /** Whitespace appended to a text does not change its `trim`. */
  lemma {:induction false} TrimDropsWhitespaceTail(s: string, w: string)
    requires AllWhitespace(w)
    ensures Trim(s + w) == Trim(s)
    decreases |s|
  {
    if s == [] {
      assert s + w == w;
      TrimStartWhitespace(w);
    } else if IsWhitespace(s[0]) {
      assert (s + w)[1..] == s[1..] + w;
      TrimDropsWhitespaceTail(s[1..], w);
    } else {
      TrimEndDropsWhitespace(s, w);
    }
  }
}
