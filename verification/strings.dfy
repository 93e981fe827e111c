/**
 * The ECMAScript string operations the editors and previews rely on:
 * `split` by one character, `join`, `trim`, and the UTF-16 length that
 * `string.length` reports.
 */
module Strings {

  /** The characters ECMAScript's `String.prototype.trim` strips: WhiteSpace and LineTerminator. */
  predicate IsWhitespace(c: char) {
    || c == '\t' || c == '\n' || c == '\U{000B}' || c == '\U{000C}' || c == '\r' || c == ' '
    || c == '\U{00A0}' || c == '\U{1680}' || ('\U{2000}' <= c <= '\U{200A}')
    || c == '\U{2028}' || c == '\U{2029}' || c == '\U{202F}' || c == '\U{205F}'
    || c == '\U{3000}' || c == '\U{FEFF}'
  }

  /** No whitespace at either end. */
  predicate IsTrimmed(s: string) {
    |s| == 0 || (!IsWhitespace(s[0]) && !IsWhitespace(s[|s| - 1]))
  }

  /** `s.split(sep)` for a one-character separator: the sep-free pieces between separators. */
  function Split(s: string, sep: char): (r: seq<string>)
    ensures |r| >= 1
    ensures forall i :: 0 <= i < |r| ==> sep !in r[i]
  {
    if s == [] then [[]]
    else
      var rest := Split(s[1..], sep);
      if s[0] == sep then [[]] + rest
      else [[s[0]] + rest[0]] + rest[1..]
  }

  /** `xs.join(sep)`. */
  function Join(xs: seq<string>, sep: string): string {
    if |xs| == 0 then []
    else if |xs| == 1 then xs[0]
    else xs[0] + sep + Join(xs[1..], sep)
  }

  /** Joining the pieces of a split with the same separator gives back the original text. */
  lemma {:induction false} JoinSplit(s: string, sep: char)
    ensures Join(Split(s, sep), [sep]) == s
  {
    if s != [] {
      var rest := Split(s[1..], sep);
      JoinSplit(s[1..], sep);
      var r := Split(s, sep);
      if s[0] == sep {
        assert r == [[]] + rest;
        assert r[1..] == rest;
      } else {
        assert r == [[s[0]] + rest[0]] + rest[1..];
        if |rest| > 1 {
          assert r[1..] == rest[1..];
          assert Join(rest, [sep]) == rest[0] + [sep] + Join(rest[1..], [sep]);
        }
      }
    }
  }

  /** A separator-free text splits into itself alone. */
  lemma {:induction false} SplitNoSeparator(a: string, sep: char)
    requires sep !in a
    ensures Split(a, sep) == [a]
  {
    if a != [] {
      SplitNoSeparator(a[1..], sep);
      assert [a[0]] + a[1..] == a;
    }
  }

  /** Splitting at the first separator: the separator-free head becomes the first piece. */
  lemma {:induction false} SplitAtSeparator(a: string, sep: char, b: string)
    requires sep !in a
    ensures Split(a + [sep] + b, sep) == [a] + Split(b, sep)
  {
    var s := a + [sep] + b;
    if a == [] {
      assert s[1..] == b;
    } else {
      assert s[1..] == a[1..] + [sep] + b;
      SplitAtSeparator(a[1..], sep, b);
      assert [a[0]] + a[1..] == a;
    }
  }

  /** Splitting a join of separator-free pieces gives back the pieces (there must be at least one). */
  lemma {:induction false} SplitJoin(xs: seq<string>, sep: char)
    requires |xs| >= 1
    requires forall i :: 0 <= i < |xs| ==> sep !in xs[i]
    ensures Split(Join(xs, [sep]), sep) == xs
  {
    if |xs| == 1 {
      SplitNoSeparator(xs[0], sep);
    } else {
      SplitJoin(xs[1..], sep);
      SplitAtSeparator(xs[0], sep, Join(xs[1..], [sep]));
      assert [xs[0]] + xs[1..] == xs;
    }
  }

  /** `s.trimStart()`: drops the maximal whitespace prefix. */
  function TrimStart(s: string): (r: string)
    ensures |r| <= |s| && r == s[|s| - |r|..]
    ensures |r| > 0 ==> !IsWhitespace(r[0])
    ensures forall i :: 0 <= i < |s| - |r| ==> IsWhitespace(s[i])
  {
    if |s| > 0 && IsWhitespace(s[0]) then TrimStart(s[1..]) else s
  }

  /** `s.trimEnd()`: drops the maximal whitespace suffix. */
  function TrimEnd(s: string): (r: string)
    ensures |r| <= |s| && r == s[..|r|]
    ensures |r| > 0 ==> !IsWhitespace(r[|r| - 1])
    ensures forall i :: |r| <= i < |s| ==> IsWhitespace(s[i])
  {
    if |s| > 0 && IsWhitespace(s[|s| - 1]) then TrimEnd(s[..|s| - 1]) else s
  }

  /** `r` is `s` without its first `k` characters and some trailing ones, all of them whitespace. */
  predicate StripsTo(s: string, k: nat, r: string) {
    && k + |r| <= |s| && s[k..k + |r|] == r
    && (forall i :: 0 <= i < k ==> IsWhitespace(s[i]))
    && (forall i :: k + |r| <= i < |s| ==> IsWhitespace(s[i]))
  }

  /** `s.trim()`: whitespace removed from both ends and nowhere else. */
  function Trim(s: string): (r: string)
    ensures IsTrimmed(r)
    ensures exists k: nat :: StripsTo(s, k, r)
    ensures IsTrimmed(s) ==> r == s
    ensures forall c :: c in r ==> c in s
    ensures (exists i :: 0 <= i < |s| && !IsWhitespace(s[i])) <==> r != []
  {
    var t := TrimStart(s);
    var r := TrimEnd(t);
    assert forall c :: c in r ==> c in t;
    assert forall c :: c in t ==> c in s;
    TrimStrips(s, t, r);
    r
  }

  /** Trimming the start and then the end strips whitespace from the two ends only. */
  lemma TrimStrips(s: string, t: string, r: string)
    requires |t| <= |s| && t == s[|s| - |t|..] && forall i :: 0 <= i < |s| - |t| ==> IsWhitespace(s[i])
    requires |r| <= |t| && r == t[..|r|] && forall i :: |r| <= i < |t| ==> IsWhitespace(t[i])
    ensures StripsTo(s, |s| - |t|, r)
  {
    var k := |s| - |t|;
    assert s[k..k + |r|] == r;
    forall i | k + |r| <= i < |s|
      ensures IsWhitespace(s[i])
    {
      assert s[i] == t[i - k];
    }
  }

  /** No piece contains the separator. */
  predicate SepFree(xs: seq<string>, sep: char) {
    forall i :: 0 <= i < |xs| ==> sep !in xs[i]
  }

  /** Every piece that trims to something non-empty appears, trimmed, in `r`. */
  predicate KeepsNonBlank(parts: seq<string>, r: seq<string>) {
    forall i :: 0 <= i < |parts| && Trim(parts[i]) != [] ==> Trim(parts[i]) in r
  }

  /** Trimming the pieces of a list and dropping the empty ones: `.map(t => t.trim()).filter(t => t)`. */
  function TrimAndDropEmpty(parts: seq<string>, sep: char): (r: seq<string>)
    ensures |r| <= |parts|
    ensures CleanItems(r)
    ensures SepFree(parts, sep) ==> SepFree(r, sep)
  {
    if parts == [] then []
    else
      var t := Trim(parts[0]);
      var rest := TrimAndDropEmpty(parts[1..], sep);
      var r := if t == [] then rest else [t] + rest;
      TrimAndDropStep(parts, sep, rest, r);
      r
  }

  /** The facts `TrimAndDropEmpty` promises, carried from the tail's result to the whole list's. */
  lemma TrimAndDropStep(parts: seq<string>, sep: char, rest: seq<string>, r: seq<string>)
    requires parts != []
    requires |rest| <= |parts| - 1
    requires CleanItems(rest)
    requires SepFree(parts[1..], sep) ==> SepFree(rest, sep)
    requires r == if Trim(parts[0]) == [] then rest else [Trim(parts[0])] + rest
    ensures |r| <= |parts|
    ensures CleanItems(r)
    ensures SepFree(parts, sep) ==> SepFree(r, sep)
  {
    ConsClean(Trim(parts[0]), rest, r);
    if SepFree(parts, sep) {
      ConsSepFree(parts, sep, rest, r);
    }
  }

  /** Every item is non-empty and trimmed. */
  predicate CleanItems(xs: seq<string>) {
    forall i :: 0 <= i < |xs| ==> xs[i] != [] && IsTrimmed(xs[i])
  }

  lemma ConsClean(t: string, rest: seq<string>, r: seq<string>)
    requires IsTrimmed(t) && CleanItems(rest)
    requires r == if t == [] then rest else [t] + rest
    ensures CleanItems(r)
  {
    if t != [] {
      forall i | 0 < i < |r| ensures r[i] != [] && IsTrimmed(r[i]) {
        assert r[i] == rest[i - 1];
      }
    }
  }

  lemma ConsSepFree(parts: seq<string>, sep: char, rest: seq<string>, r: seq<string>)
    requires parts != [] && SepFree(parts, sep)
    requires SepFree(parts[1..], sep) ==> SepFree(rest, sep)
    requires r == if Trim(parts[0]) == [] then rest else [Trim(parts[0])] + rest
    ensures SepFree(r, sep)
  {
    assert forall i :: 0 <= i < |parts[1..]| ==> parts[1..][i] == parts[i + 1];
    assert SepFree(rest, sep);
    assert sep !in parts[0];
    if Trim(parts[0]) != [] {
      assert sep !in Trim(parts[0]);
      forall i | 0 < i < |r| ensures sep !in r[i] {
        assert r[i] == rest[i - 1];
      }
    }
  }

  /** No piece has anything but whitespace. */
  predicate AllBlank(parts: seq<string>) {
    forall i :: 0 <= i < |parts| ==> Trim(parts[i]) == []
  }

  /** The step of `TrimAndDropEmpty`: keeping the head's trim, if any, in front of the rest's items. */
  lemma KeepsNonBlankCons(parts: seq<string>, rest: seq<string>, r: seq<string>)
    requires parts != [] && KeepsNonBlank(parts[1..], rest)
    requires AllBlank(parts[1..]) ==> rest == []
    requires r == if Trim(parts[0]) == [] then rest else [Trim(parts[0])] + rest
    ensures KeepsNonBlank(parts, r)
    ensures AllBlank(parts) ==> r == []
  {
    forall i | 0 < i < |parts| && Trim(parts[i]) != []
      ensures Trim(parts[i]) in r
    {
      assert parts[i] == parts[1..][i - 1];
    }
    if AllBlank(parts) {
      assert forall i :: 0 <= i < |parts[1..]| ==> parts[1..][i] == parts[i + 1];
    }
  }

  /**
   * The comma-list input of the technologies and skills editors:
   * `value.split(',').map(t => t.trim()).filter(t => t)`.
   */
  function ParseCommaList(text: string): (r: seq<string>)
    ensures forall i :: 0 <= i < |r| ==> r[i] != [] && IsTrimmed(r[i]) && ',' !in r[i]
  {
    TrimAndDropEmpty(Split(text, ','), ',')
  }

  /** Trimming and dropping keeps the trim of every non-blank piece, and yields nothing when every piece is blank. */
  lemma {:induction false} TrimAndDropKeeps(parts: seq<string>, sep: char)
    ensures KeepsNonBlank(parts, TrimAndDropEmpty(parts, sep))
    ensures AllBlank(parts) ==> TrimAndDropEmpty(parts, sep) == []
  {
    if parts != [] {
      TrimAndDropKeeps(parts[1..], sep);
      KeepsNonBlankCons(parts, TrimAndDropEmpty(parts[1..], sep), TrimAndDropEmpty(parts, sep));
    }
  }

  /** Every non-blank piece between commas appears, trimmed, among the items; an all-blank text has none. */
  lemma ParseCommaListKeeps(text: string)
    ensures KeepsNonBlank(Split(text, ','), ParseCommaList(text))
    ensures AllBlank(Split(text, ',')) ==> ParseCommaList(text) == []
  {
    TrimAndDropKeeps(Split(text, ','), ',');
  }

  /** Trimming and dropping works piecewise, so the kept items stay in order. */
  lemma {:induction false} TrimAndDropConcat(a: seq<string>, b: seq<string>, sep: char)
    ensures TrimAndDropEmpty(a + b, sep) == TrimAndDropEmpty(a, sep) + TrimAndDropEmpty(b, sep)
  {
    if a != [] {
      assert (a + b)[0] == a[0];
      assert (a + b)[1..] == a[1..] + b;
      TrimAndDropConcat(a[1..], b, sep);
    } else {
      assert a + b == b;
    }
  }

  /** A separator splits the text into the pieces before it followed by the pieces after it. */
  lemma {:induction false} SplitConcat(a: string, sep: char, b: string)
    ensures Split(a + [sep] + b, sep) == Split(a, sep) + Split(b, sep)
  {
    if a == [] {
      assert a + [sep] + b == [sep] + b;
      assert ([sep] + b)[1..] == b;
    } else {
      var s := a + [sep] + b;
      assert s[0] == a[0];
      assert s[1..] == a[1..] + [sep] + b;
      SplitConcat(a[1..], sep, b);
    }
  }

  /** The comma-list parse works comma by comma: the items before a comma come first, then those after it. */
  lemma ParseCommaListPiecewise(a: string, b: string)
    ensures ParseCommaList(a + "," + b) == ParseCommaList(a) + ParseCommaList(b)
  {
    SplitConcat(a, ',', b);
    TrimAndDropConcat(Split(a, ','), Split(b, ','), ',');
  }

  /** A comma-free text that trims to a non-empty item parses to that item alone. */
  lemma ParseCommaListOne(text: string, t: string)
    requires ',' !in text
    requires text == " " + t + " " || text == " " + t
    requires t != [] && IsTrimmed(t)
    ensures ParseCommaList(text) == [t]
  {
    SplitNoSeparator(text, ',');
    TrimPadded(text, t);
  }

  /** One space on the left, and at most one on the right, around a trimmed non-empty item is what trimming removes. */
  lemma TrimPadded(s: string, t: string)
    requires s == " " + t + " " || s == " " + t
    requires t != [] && IsTrimmed(t)
    ensures Trim(s) == t
  {
    assert s[1..][..|t|] == t;
    assert TrimStart(s[1..]) == s[1..];
    assert TrimStart(s) == s[1..];
    if s == " " + t + " " {
      assert s[1..][..|s[1..]| - 1] == t;
      assert TrimEnd(t) == t;
    } else {
      assert s[1..] == t;
    }
  }

  /** The display form of a comma list: `items.join(', ')`. */
  function ShowCommaList(items: seq<string>): string {
    Join(items, ", ")
  }

  /** Items that survive a display/parse round trip: non-empty, trimmed, comma-free. */
  predicate IsCleanItem(t: string) {
    t != [] && IsTrimmed(t) && ',' !in t
  }

  /** Every item prefixed with `p`. */
  function Prefixed(ts: seq<string>, p: string): (r: seq<string>)
    ensures |r| == |ts| && forall i :: 0 <= i < |ts| ==> r[i] == p + ts[i]
  {
    seq(|ts|, i requires 0 <= i < |ts| => p + ts[i])
  }

  /** A leading space joins the first piece of a comma split. */
  lemma SplitAfterSpace(tail: string)
    ensures Split(" " + tail, ',') == [" " + Split(tail, ',')[0]] + Split(tail, ',')[1..]
  {
    assert (" " + tail)[1..] == tail;
  }

  /** A ", " join of two or more items is the first item, a comma, and a space-led rest. */
  lemma JoinCommaSpaceUnfold(ts: seq<string>)
    requires |ts| >= 2
    ensures Join(ts, ", ") == ts[0] + [','] + (" " + Join(ts[1..], ", "))
  {
  }

  /** A ", " join splits at the commas into the first item and the rest with a leading space. */
  lemma {:induction false} SplitCommaSpaceJoin(ts: seq<string>)
    requires |ts| >= 1
    requires forall i :: 0 <= i < |ts| ==> ',' !in ts[i]
    ensures Split(Join(ts, ", "), ',') == [ts[0]] + Prefixed(ts[1..], " ")
  {
    if |ts| == 1 {
      SplitNoSeparator(ts[0], ',');
    } else {
      var tail := Join(ts[1..], ", ");
      SplitCommaSpaceJoin(ts[1..]);
      JoinCommaSpaceUnfold(ts);
      SplitAtSeparator(ts[0], ',', " " + tail);
      SplitAfterSpace(tail);
      var st := Split(tail, ',');
      assert st == [ts[1]] + Prefixed(ts[2..], " ");
      calc {
        Split(" " + tail, ',');
        [" " + ts[1]] + Prefixed(ts[2..], " ");
        Prefixed(ts[1..], " ");
      }
    }
  }

  /** A space before a trimmed non-empty item is exactly what trimming removes. */
  lemma TrimLeadingSpace(t: string)
    requires t != [] && IsTrimmed(t)
    ensures Trim(" " + t) == t
  {
    var s := " " + t;
    assert s[1..] == t;
    assert TrimStart(s) == TrimStart(t);
  }

  /** When every piece trims to a non-empty item, trimming and dropping empties gives exactly those items. */
  lemma {:induction false} TrimEachPiece(ps: seq<string>, us: seq<string>, sep: char)
    requires |ps| == |us|
    requires forall i :: 0 <= i < |us| ==> Trim(ps[i]) == us[i] && us[i] != []
    ensures TrimAndDropEmpty(ps, sep) == us
  {
    if ps != [] {
      TrimEachPiece(ps[1..], us[1..], sep);
      assert [us[0]] + us[1..] == us;
    }
  }

  /** Displaying clean items with `join(', ')` and parsing the text back gives the same items. */
  lemma CommaListRoundTrip(ts: seq<string>)
    requires forall i :: 0 <= i < |ts| ==> IsCleanItem(ts[i])
    ensures ParseCommaList(ShowCommaList(ts)) == ts
  {
    if ts != [] {
      SplitCommaSpaceJoin(ts);
      var parts := [ts[0]] + Prefixed(ts[1..], " ");
      forall i | 0 <= i < |ts|
        ensures Trim(parts[i]) == ts[i]
      {
        if i > 0 {
          assert parts[i] == " " + ts[i];
          TrimLeadingSpace(ts[i]);
        }
      }
      TrimEachPiece(parts, ts, ',');
    }
  }

  /** Parsing the display of a parse changes nothing: the editor text settles after one edit. */
  lemma CommaListParseStable(text: string)
    ensures ParseCommaList(ShowCommaList(ParseCommaList(text))) == ParseCommaList(text)
  {
    CommaListRoundTrip(ParseCommaList(text));
  }

  /** A newline-separated list (achievements, highlights): `value.split('\n')`, no trim and no filter. */
  function SplitLines(text: string): (r: seq<string>)
    ensures |r| >= 1
    ensures forall i :: 0 <= i < |r| ==> '\n' !in r[i]
    ensures Join(r, "\n") == text
  {
    JoinSplit(text, '\n');
    Split(text, '\n')
  }

  /** The display form of a newline-separated list: `items.join('\n')`. */
  function JoinLines(items: seq<string>): string {
    Join(items, "\n")
  }

  /** A non-empty list of single-line items survives display and re-split unchanged. */
  lemma LinesRoundTrip(items: seq<string>)
    requires |items| >= 1
    requires forall i :: 0 <= i < |items| ==> '\n' !in items[i]
    ensures SplitLines(JoinLines(items)) == items
  {
    SplitJoin(items, '\n');
  }

  /** The empty list does not survive: its display is "" and "" splits into one empty line. */
  lemma LinesEmptyListBecomesOneBlank()
    ensures SplitLines(JoinLines([])) == [""]
  {
  }

  /** Blank lines are kept as empty items. */
  lemma LinesKeepBlanks()
    ensures SplitLines("a\n\nb") == ["a", "", "b"]
  {
    SplitAtSeparator("a", '\n', "\nb");
    SplitAtSeparator("", '\n', "b");
    SplitNoSeparator("b", '\n');
    assert "a\n\nb" == "a" + ['\n'] + "\nb";
    assert "\nb" == "" + ['\n'] + "b";
  }

  /** Code units in the UTF-16 encoding: what JavaScript's `string.length` counts. */
  function Utf16Length(s: string): (n: nat)
    ensures |s| <= n <= 2 * |s|
    ensures (forall i :: 0 <= i < |s| ==> s[i] as int < 0x1_0000) ==> n == |s|
    ensures |s| == 1 ==> n == Utf16Units(s[0])
  {
    if s == [] then 0
    else Utf16Units(s[0]) + Utf16Length(s[1..])
  }

  /** One code unit for a character of the Basic Multilingual Plane, a surrogate pair for any other. */
  function Utf16Units(c: char): (n: nat)
    ensures 1 <= n <= 2
    ensures n == 1 <==> c as int < 0x1_0000
  {
    if c as int < 0x1_0000 then 1 else 2
  }

  /** The count is additive, so with the one-character case it fixes the count of every text. */
  lemma {:induction false} Utf16LengthConcat(a: string, b: string)
    ensures Utf16Length(a + b) == Utf16Length(a) + Utf16Length(b)
  {
    if a == [] {
      assert a + b == b;
    } else {
      assert (a + b)[0] == a[0];
      assert (a + b)[1..] == a[1..] + b;
      Utf16LengthConcat(a[1..], b);
    }
  }
}
