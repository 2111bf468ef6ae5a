/**
 The few JavaScript string built-ins the page script relies on: the `\s`
 character class, `String.prototype.trim` and `String.prototype.repeat`,
 plus a notion of "these parts occur in this text, in this order" used to
 state what the outbound messages contain.
 */
module Text {

  /** The characters ECMAScript counts as WhiteSpace or LineTerminator: the
      set matched by `\s` in a regular expression and stripped by `trim`. */
  predicate IsWhitespace(c: char) {
    c == '\t' || c == '\n' || c == '\U{000B}' || c == '\U{000C}' || c == '\r' ||
    c == ' ' || c == '\U{00A0}' || c == '\U{1680}' ||
    ('\U{2000}' <= c <= '\U{200A}') ||
    c == '\U{2028}' || c == '\U{2029}' || c == '\U{202F}' || c == '\U{205F}' ||
    c == '\U{3000}' || c == '\U{FEFF}'
  }

  predicate AllWhitespace(s: string) {
    forall k :: 0 <= k < |s| ==> IsWhitespace(s[k])
  }

  predicate NoWhitespace(s: string) {
    forall k :: 0 <= k < |s| ==> !IsWhitespace(s[k])
  }

  /** The end of the whitespace run of `s` that starts at `i`: the first
      position at or after `i` that holds no whitespace, or `|s|`. */
  function SkipForward(s: string, i: nat): (n: nat)
    requires i <= |s|
    ensures i <= n <= |s|
    ensures forall k :: i <= k < n ==> IsWhitespace(s[k])
    ensures n < |s| ==> !IsWhitespace(s[n])
    decreases |s| - i
  {
    if i < |s| && IsWhitespace(s[i]) then SkipForward(s, i + 1) else i
  }

  /** The start of the whitespace run of `s` that ends at `j`, looking no
      further back than `lo`. */
  function SkipBackward(s: string, lo: nat, j: nat): (n: nat)
    requires lo <= j <= |s|
    ensures lo <= n <= j
    ensures forall k :: n <= k < j ==> IsWhitespace(s[k])
    ensures lo < n ==> !IsWhitespace(s[n - 1])
    decreases j
  {
    if lo < j && IsWhitespace(s[j - 1]) then SkipBackward(s, lo, j - 1) else j
  }

  /** `s.trim()`: the longest infix of `s` that neither starts nor ends with
      whitespace, obtained by removing a whitespace prefix and suffix. */
  function Trim(s: string): (r: string)
    ensures exists i :: 0 <= i <= |s| - |r| && r == s[i..i + |r|] &&
              AllWhitespace(s[..i]) && AllWhitespace(s[i + |r|..])
    ensures r != [] ==> !IsWhitespace(r[0]) && !IsWhitespace(r[|r| - 1])
    ensures r == [] <==> AllWhitespace(s)
  {
    var b := SkipForward(s, 0);
    var e := SkipBackward(s, b, |s|);
    assert s[b..e] == s[b..b + |s[b..e]|];
    assert AllWhitespace(s[..b]) && AllWhitespace(s[e..]);
    assert b < e ==> s[b..e][0] == s[b] && s[b..e][e - b - 1] == s[e - 1];
    s[b..e]
  }

  /** Trimming twice is trimming once. */
  lemma TrimIdempotent(s: string)
    ensures Trim(Trim(s)) == Trim(s)
  {
    TrimNoop(Trim(s));
  }

  /** Text that neither starts nor ends with whitespace is its own trim. */
  lemma TrimNoop(s: string)
    requires s != [] ==> !IsWhitespace(s[0]) && !IsWhitespace(s[|s| - 1])
    ensures Trim(s) == s
  {
    assert SkipForward(s, 0) == 0;
    if s != [] {
      assert SkipBackward(s, 0, |s|) == |s|;
    }
  }

  /** `c.repeat(n)` for a one-character string `c`. */
  function Repeat(c: char, n: nat): (r: string)
    ensures |r| == n
    ensures forall k :: 0 <= k < n ==> r[k] == c
  {
    if n == 0 then "" else [c] + Repeat(c, n - 1)
  }

  /** `part` occurs in `text` as a contiguous block starting at position `p`. */
  ghost predicate OccursAt(text: string, part: string, p: int) {
    0 <= p <= |text| - |part| && text[p..p + |part|] == part
  }

  /** `part` occurs in `text` as a contiguous block. */
  ghost predicate Contains(text: string, part: string) {
    exists p :: OccursAt(text, part, p)
  }

  /** Every element of `parts` occurs in `text` as a contiguous block, the
      blocks do not overlap and they appear in the order of `parts`. */
  ghost predicate InOrder(text: string, parts: seq<string>)
    decreases |parts|
  {
    parts == [] ||
    exists p :: OccursAt(text, parts[0], p) && InOrder(text[p + |parts[0]|..], parts[1..])
  }

  /** Putting `prefix + part` in front of a text that holds `parts` in order
      gives a text that holds `part` followed by `parts`. */
  lemma {:induction false} InOrderCons(prefix: string, part: string, rest: string, parts: seq<string>)
    requires InOrder(rest, parts)
    ensures InOrder(prefix + part + rest, [part] + parts)
  {
    var text := prefix + part + rest;
    var p := |prefix|;
    var all := [part] + parts;
    assert all[0] == part && all[1..] == parts;
    assert text[p..p + |part|] == part && text[p + |part|..] == rest;
    assert OccursAt(text, all[0], p) && InOrder(text[p + |all[0]|..], all[1..]);
  }

  /** A text holding parts in order contains each of them. */
  lemma {:induction false} InOrderContains(text: string, parts: seq<string>, k: nat)
    requires InOrder(text, parts) && k < |parts|
    ensures Contains(text, parts[k])
    decreases |parts|
  {
    var p :| OccursAt(text, parts[0], p) && InOrder(text[p + |parts[0]|..], parts[1..]);
    if k > 0 {
      var rest := text[p + |parts[0]|..];
      InOrderContains(rest, parts[1..], k - 1);
      var q :| OccursAt(rest, parts[k], q);
      var at := p + |parts[0]| + q;
      assert text[at..at + |parts[k]|] == rest[q..q + |parts[k]|];
      assert OccursAt(text, parts[k], at);
    } else {
      assert OccursAt(text, parts[0], p);
    }
  }

  /** A block of `text` is a block of anything `text` is put after. */
  lemma ContainsAfter(prefix: string, text: string, part: string)
    requires Contains(text, part)
    ensures Contains(prefix + text, part)
  {
    var p :| OccursAt(text, part, p);
    assert (prefix + text)[|prefix| + p..|prefix| + p + |part|] == text[p..p + |part|];
    assert OccursAt(prefix + text, part, |prefix| + p);
  }

  /** Every infix of a block of `text` is a block of `text`. */
  lemma ContainsInfix(text: string, part: string, i: nat, j: nat)
    requires Contains(text, part) && i <= j <= |part|
    ensures Contains(text, part[i..j])
  {
    var p :| OccursAt(text, part, p);
    forall q | 0 <= q < j - i
      ensures text[p + i..p + j][q] == part[i..j][q]
    {
      assert text[p + i..p + j][q] == text[p..p + |part|][i + q];
    }
    assert OccursAt(text, part[i..j], p + i);
  }

  /** A template literal `s0${e0}s1${e1}...sn`: its literal pieces
      `strings` interleaved with the text of its substitutions `values`. */
  function Fill(strings: seq<string>, values: seq<string>): string
    requires |strings| == |values| + 1
    decreases |values|
  {
    if values == [] then strings[0]
    else strings[0] + values[0] + Fill(strings[1..], values[1..])
  }

  /** A filled template holds its substituted values, verbatim and in order. */
  lemma {:induction false} FillInOrder(strings: seq<string>, values: seq<string>)
    requires |strings| == |values| + 1
    ensures InOrder(Fill(strings, values), values)
    decreases |values|
  {
    if values != [] {
      FillInOrder(strings[1..], values[1..]);
      InOrderCons(strings[0], values[0], Fill(strings[1..], values[1..]), values[1..]);
      assert [values[0]] + values[1..] == values;
    }
  }

  /** Filling the first `j` slots of a template gives a prefix of filling
      them all. */
  lemma {:induction false} FillPrefix(strings: seq<string>, values: seq<string>, j: nat)
    requires |strings| == |values| + 1 && j <= |values|
    ensures OccursAt(Fill(strings, values), Fill(strings[..j + 1], values[..j]), 0)
    decreases j
  {
    var whole := Fill(strings, values);
    var part := Fill(strings[..j + 1], values[..j]);
    if j == 0 {
      assert strings[..1] == [strings[0]] && values[..0] == [];
      if values != [] {
        assert whole == strings[0] + (values[0] + Fill(strings[1..], values[1..]));
      }
      assert whole[..|strings[0]|] == strings[0];
    } else {
      var rest := Fill(strings[1..], values[1..]);
      FillPrefix(strings[1..], values[1..], j - 1);
      var restPart := Fill(strings[1..][..j], values[1..][..j - 1]);
      assert strings[..j + 1][1..] == strings[1..][..j];
      assert values[..j][1..] == values[1..][..j - 1];
      assert part == strings[0] + values[0] + restPart;
      var head := strings[0] + values[0];
      assert whole == head + rest;
      assert rest[..|restPart|] == restPart;
      assert whole[..|head| + |restPart|] == head + rest[..|restPart|];
    }
  }

  /** Filling slots `k` to `m - 1` of a template, with the literal pieces
      around them, gives a block of filling them all. */
  lemma {:induction false} FillSpan(strings: seq<string>, values: seq<string>, k: nat, m: nat)
    requires |strings| == |values| + 1 && k <= m <= |values|
    ensures Contains(Fill(strings, values), Fill(strings[k..m + 1], values[k..m]))
    decreases k
  {
    if k == 0 {
      FillPrefix(strings, values, m);
      assert strings[0..m + 1] == strings[..m + 1] && values[0..m] == values[..m];
    } else {
      FillSpan(strings[1..], values[1..], k - 1, m - 1);
      assert strings[1..][k - 1..m] == strings[k..m + 1];
      assert values[1..][k - 1..m - 1] == values[k..m];
      ContainsAfter(strings[0] + values[0], Fill(strings[1..], values[1..]),
                    Fill(strings[k..m + 1], values[k..m]));
    }
  }

  /** A block `a + x + b` of `text`, cut down to the end of `a`, all of `x`
      and the start of `b`, is still a block of `text`. */
  lemma ContainsMiddle(text: string, a: string, x: string, b: string, i: nat, j: nat)
    requires Contains(text, a + x + b) && i <= |a| && j <= |b|
    ensures Contains(text, a[i..] + x + b[..j])
  {
    var whole := a + x + b;
    ContainsInfix(text, whole, i, |a| + |x| + j);
    assert whole[i..|a| + |x| + j] == a[i..] + x + b[..j];
  }

  /** Two neighbouring slots of a filled template, with the piece between
      them and the start of the piece after them, stand together in it. */
  lemma TwoSlots(t: seq<string>, v: seq<string>, k: nat, j: nat)
    requires |t| == |v| + 1 && k + 1 < |v| && j <= |t[k + 2]|
    ensures Contains(Fill(t, v), v[k] + t[k + 1] + v[k + 1] + t[k + 2][..j])
  {
    FillSpan(t, v, k, k + 2);
    var a, b, c := t[k], t[k + 1], t[k + 2];
    assert t[k..k + 3] == [a, b, c] && v[k..k + 2] == [v[k], v[k + 1]];
    assert Fill([b, c], [v[k + 1]]) == b + v[k + 1] + c;
    assert Fill(t[k..k + 3], v[k..k + 2]) == a + (v[k] + b + v[k + 1]) + c;
    ContainsMiddle(Fill(t, v), a, v[k] + b + v[k + 1], c, |a|, j);
    assert a[|a|..] + (v[k] + b + v[k + 1]) + c[..j] == v[k] + b + v[k + 1] + c[..j];
  }

  /** A filled template splits around any one of its slots. */
  lemma {:induction false} FillSplit(strings: seq<string>, values: seq<string>, k: nat)
    requires |strings| == |values| + 1 && k < |values|
    ensures Fill(strings, values) ==
            Fill(strings[..k + 1], values[..k]) + values[k] + Fill(strings[k + 1..], values[k + 1..])
    decreases k
  {
    if k == 0 {
      assert strings[..1] == [strings[0]] && values[..0] == [];
    } else {
      FillSplit(strings[1..], values[1..], k - 1);
      assert strings[..k + 1][1..] == strings[1..][..k];
      assert values[..k][1..] == values[1..][..k - 1];
      assert strings[1..][k..] == strings[k + 1..] && values[1..][k..] == values[k + 1..];
    }
  }

  /** A filled template ends with the template's last literal piece. */
  lemma {:induction false} FillEnd(strings: seq<string>, values: seq<string>)
    requires |strings| == |values| + 1
    ensures var f := Fill(strings, values);
            |strings[|values|]| <= |f| && f[|f| - |strings[|values|]|..] == strings[|values|]
    decreases |values|
  {
    if values != [] {
      FillEnd(strings[1..], values[1..]);
      var rest := Fill(strings[1..], values[1..]);
      var f := Fill(strings, values);
      assert f == (strings[0] + values[0]) + rest;
      assert strings[1..][|values[1..]|] == strings[|values|];
      assert f[|f| - |strings[|values|]|..] == rest[|rest| - |strings[|values|]|..];
    }
  }

  /** Filling an empty slot `k` with `x` instead inserts `x` into the text,
      between the last character of the piece before the slot and the first
      character of the piece after it. */
  lemma FillEmptySlot(strings: seq<string>, values: seq<string>, k: nat, x: string)
    requires |strings| == |values| + 1 && k < |values| && values[k] == ""
    requires strings[k] != "" && strings[k + 1] != ""
    ensures var blank := Fill(strings, values);
            exists p :: 0 < p < |blank| &&
              blank[p - 1] == strings[k][|strings[k]| - 1] && blank[p] == strings[k + 1][0] &&
              Fill(strings, values[k := x]) == blank[..p] + x + blank[p..]
  {
    var filled := values[k := x];
    FillSplit(strings, values, k);
    FillSplit(strings, filled, k);
    assert values[..k] == filled[..k] && values[k + 1..] == filled[k + 1..];
    var head := Fill(strings[..k + 1], values[..k]);
    var tail := Fill(strings[k + 1..], values[k + 1..]);
    var blank := Fill(strings, values);
    assert blank == head + tail;
    FillEnd(strings[..k + 1], values[..k]);
    assert strings[..k + 1][|values[..k]|] == strings[k];
    assert head[|head| - 1] == strings[k][|strings[k]| - 1];
    FillPrefix(strings[k + 1..], values[k + 1..], 0);
    assert strings[k + 1..][..1] == [strings[k + 1]] && values[k + 1..][..0] == [];
    assert tail[0] == strings[k + 1][0];
    var p := |head|;
    assert blank[..p] == head && blank[p..] == tail;
    assert blank[p - 1] == strings[k][|strings[k]| - 1] && blank[p] == strings[k + 1][0];
  }
}
