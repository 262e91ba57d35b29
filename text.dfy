/** The string operations the handlers rely on: prefixes, `Array.join`,
    `String.split` on one character, character search, and the decimal
    rendering `Number.prototype.toString` gives an integer. */
module Text {
  import opened Common

  predicate StartsWith(s: string, prefix: string) {
    |prefix| <= |s| && s[..|prefix|] == prefix
  }

  /** `parts.join(sep)`; an empty array joins to "". */
  function Join(parts: seq<string>, sep: string): string
    decreases |parts|
  {
    if |parts| == 0 then ""
    else if |parts| == 1 then parts[0]
    else parts[0] + sep + Join(parts[1..], sep)
  }

  /** A join begins with its first part. */
  lemma JoinStartsWith(parts: seq<string>, sep: string)
    requires |parts| >= 1
    ensures StartsWith(Join(parts, sep), parts[0])
  {
    if |parts| > 1 {
      var s := Join(parts, sep);
      assert s == parts[0] + sep + Join(parts[1..], sep);
      assert s[..|parts[0]|] == parts[0];
    }
  }

  /** The first position of `c` in `s`. */
  function IndexOf(s: string, c: char): (r: Option<nat>)
    ensures r.Some? ==> r.value < |s| && s[r.value] == c
    ensures r.Some? ==> forall k :: 0 <= k < r.value ==> s[k] != c
    ensures r.None? ==> forall k :: 0 <= k < |s| ==> s[k] != c
  {
    if |s| == 0 then None
    else if s[0] == c then Some(0)
    else match IndexOf(s[1..], c)
      case None => None
      case Some(i) => Some(i + 1)
  }

  /** The last position of `c` in `s`. */
  function LastIndexOf(s: string, c: char): (r: Option<nat>)
    ensures r.Some? ==> r.value < |s| && s[r.value] == c
    ensures r.Some? ==> forall k :: r.value < k < |s| ==> s[k] != c
    ensures r.None? ==> forall k :: 0 <= k < |s| ==> s[k] != c
  {
    if |s| == 0 then None
    else if s[|s| - 1] == c then Some(|s| - 1)
    else LastIndexOf(s[..|s| - 1], c)
  }

  /** An occurrence at `a` means the first one is found, at or before `a`. */
  lemma IndexOfAtMost(s: string, c: char, a: nat)
    requires a < |s| && s[a] == c
    ensures IndexOf(s, c).Some? && IndexOf(s, c).value <= a
  {
  }

  /** An occurrence at `b` means the last one is found, at or after `b`. */
  lemma LastIndexOfAtLeast(s: string, c: char, b: nat)
    requires b < |s| && s[b] == c
    ensures LastIndexOf(s, c).Some? && b <= LastIndexOf(s, c).value
  {
  }

  /** `s.split(c)` for a one-character separator: "" splits to [""]. */
  function Split(s: string, c: char): (r: seq<string>)
    ensures |r| >= 1
    decreases |s|
  {
    match IndexOf(s, c)
    case None => [s]
    case Some(i) => [s[..i]] + Split(s[i + 1..], c)
  }

  lemma IndexOfAfterPart(p: string, c: char, rest: string)
    requires forall k :: 0 <= k < |p| ==> p[k] != c
    ensures IndexOf(p + [c] + rest, c) == Some(|p|)
  {
    var s := p + [c] + rest;
    assert s[|p|] == c;
    match IndexOf(s, c)
    case None =>
      assert false;
    case Some(i) =>
      if i < |p| {
        assert s[i] == p[i];
      }
      assert !(i > |p|);
  }

  /** Joining lines that hold no separator and splitting the result on it gives
      the lines back. */
  lemma {:induction false} SplitJoin(parts: seq<string>, c: char)
    requires |parts| >= 1
    requires forall j, k :: 0 <= j < |parts| && 0 <= k < |parts[j]| ==> parts[j][k] != c
    ensures Split(Join(parts, [c]), c) == parts
  {
    if |parts| == 1 {
      assert Join(parts, [c]) == parts[0];
      assert IndexOf(parts[0], c).None? by {
        assert forall k :: 0 <= k < |parts[0]| ==> parts[0][k] != c;
      }
    } else {
      var rest := Join(parts[1..], [c]);
      var s := parts[0] + [c] + rest;
      assert Join(parts, [c]) == s;
      IndexOfAfterPart(parts[0], c, rest);
      assert s[..|parts[0]|] == parts[0];
      assert s[|parts[0]| + 1..] == rest;
      SplitJoin(parts[1..], c);
      assert parts == [parts[0]] + parts[1..];
    }
  }

  /** Joining two non-empty lists is joining each and putting the separator
      between them. */
  lemma {:induction false} JoinAppend(a: seq<string>, b: seq<string>, sep: string)
    requires |a| >= 1 && |b| >= 1
    ensures Join(a + b, sep) == Join(a, sep) + sep + Join(b, sep)
    decreases |a|
  {
    if |a| == 1 {
      assert (a + b)[1..] == b;
    } else {
      assert (a + b)[1..] == a[1..] + b;
      JoinAppend(a[1..], b, sep);
    }
  }

  /** Groups of lines laid out one after another with an empty line between
      neighbouring groups. */
  function Blocks(groups: seq<seq<string>>): seq<string>
    decreases |groups|
  {
    if |groups| == 0 then []
    else if |groups| == 1 then groups[0]
    else groups[0] + [""] + Blocks(groups[1..])
  }

  /** Entries that are groups of lines joined by `c`, themselves joined by a
      doubled `c`, are the blocks of those lines joined by `c`. */
  lemma {:induction false} JoinBlocks(entries: seq<string>, groups: seq<seq<string>>, c: char)
    requires |entries| == |groups| >= 1
    requires forall i :: 0 <= i < |groups| ==> |groups[i]| >= 1 && entries[i] == Join(groups[i], [c])
    ensures Join(entries, [c, c]) == Join(Blocks(groups), [c])
    ensures |Blocks(groups)| >= 1
    decreases |groups|
  {
    if |groups| > 1 {
      JoinBlocks(entries[1..], groups[1..], c);
      var rest := Blocks(groups[1..]);
      JoinAppend([""], rest, [c]);
      JoinAppend(groups[0], [""] + rest, [c]);
      assert groups[0] + [""] + rest == groups[0] + ([""] + rest);
      assert Join([""], [c]) == "";
      assert Join(entries, [c, c]) == entries[0] + [c, c] + Join(entries[1..], [c, c]);
    }
  }

  /** Every line of the blocks is empty or a line of some group. */
  lemma {:induction false} BlocksLines(groups: seq<seq<string>>, k: nat)
    requires k < |Blocks(groups)|
    ensures Blocks(groups)[k] == "" ||
      exists i, j :: 0 <= i < |groups| && 0 <= j < |groups[i]| && Blocks(groups)[k] == groups[i][j]
    decreases |groups|
  {
    if |groups| == 1 {
      assert Blocks(groups)[k] == groups[0][k];
    } else if |groups| > 1 {
      var rest := Blocks(groups[1..]);
      if k < |groups[0]| {
        assert Blocks(groups)[k] == groups[0][k];
      } else if k > |groups[0]| {
        var m := k - |groups[0]| - 1;
        assert Blocks(groups)[k] == rest[m];
        BlocksLines(groups[1..], m);
        if rest[m] != "" {
          var i, j :| 0 <= i < |groups[1..]| && 0 <= j < |groups[1..][i]| && rest[m] == groups[1..][i][j];
          assert groups[i + 1][j] == rest[m];
        }
      }
    }
  }

  // ---- decimal integers --------------------------------------------------

  predicate IsDigit(c: char) {
    '0' <= c <= '9'
  }

  function DigitChar(d: nat): (c: char)
    requires d < 10
    ensures IsDigit(c)
  {
    (48 + d) as char
  }

  function DigitValue(c: char): nat
    requires IsDigit(c)
  {
    (c as int) - 48
  }

  predicate AllDigits(s: string) {
    forall k :: 0 <= k < |s| ==> IsDigit(s[k])
  }

  /** The decimal digits of `n`, most significant first, with no leading zero. */
  function NatText(n: nat): (s: string)
    ensures |s| >= 1 && AllDigits(s)
    decreases n
  {
    if n < 10 then [DigitChar(n)] else NatText(n / 10) + [DigitChar(n % 10)]
  }

  /** `String(i)` for an integer `i`. */
  function IntText(i: int): (s: string)
    ensures |s| >= 1
  {
    if i < 0 then "-" + NatText(-i) else NatText(i)
  }

  /** The value of a string of decimal digits. */
  function DigitsValue(s: string): nat
    requires AllDigits(s)
    decreases |s|
  {
    if |s| == 0 then 0 else 10 * DigitsValue(s[..|s| - 1]) + DigitValue(s[|s| - 1])
  }

  /** Reads back an optionally signed decimal integer. */
  function ParseInt(s: string): Option<int> {
    if |s| >= 2 && s[0] == '-' && AllDigits(s[1..]) then Some(-(DigitsValue(s[1..]) as int))
    else if |s| >= 1 && AllDigits(s) then Some(DigitsValue(s))
    else None
  }

  lemma {:induction false} NatTextValue(n: nat)
    ensures DigitsValue(NatText(n)) == n
    decreases n
  {
    if n >= 10 {
      var s := NatText(n);
      assert s[..|s| - 1] == NatText(n / 10);
      NatTextValue(n / 10);
    }
  }

  /** Reading the text of an integer gives the integer back. */
  lemma IntTextRoundTrip(i: int)
    ensures ParseInt(IntText(i)) == Some(i)
  {
    if i < 0 {
      var s := IntText(i);
      assert s[1..] == NatText(-i);
      NatTextValue(-i);
    } else {
      NatTextValue(i);
    }
  }

  /** Different integers have different texts. */
  lemma IntTextInjective(i: int, j: int)
    ensures IntText(i) == IntText(j) ==> i == j
  {
    IntTextRoundTrip(i);
    IntTextRoundTrip(j);
  }

  lemma NatTextInjective(m: nat, n: nat)
    ensures NatText(m) == NatText(n) ==> m == n
  {
    NatTextValue(m);
    NatTextValue(n);
  }
}
