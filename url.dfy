/**
 * Positional URL interpolation, as `sendSync` does it: for each binding in
 * turn, one regular-expression replacement with a limit of one replaces the
 * leftmost remaining placeholder (an opening brace, a colon, a question mark
 * and a closing brace). The binding is read the way `preg_replace` reads a
 * replacement string, back-references included.
 */
module Url {
  import opened Wrappers

  /** The placeholder a URL template uses for one positional binding. */
  const Marker: string := ['{', ':', '?', '}']

  predicate MarkerAt(s: string, i: nat)
  {
    i + |Marker| <= |s| && s[i..i + |Marker|] == Marker
  }

  /** The position of the leftmost placeholder of s at or after `from`. */
  function FindFrom(s: string, from: nat): (r: Option<nat>)
    decreases |s| - from
    ensures r.Some? ==> from <= r.value && MarkerAt(s, r.value)
    ensures forall i :: from <= i && (r.None? || i < r.value) ==> !MarkerAt(s, i)
  {
    if from + |Marker| > |s| then None
    else if MarkerAt(s, from) then Some(from)
    else FindFrom(s, from + 1)
  }

  predicate IsDigit(c: char)
  {
    '0' <= c <= '9'
  }

  /**
   * A back-reference at the head of a replacement string, read as PCRE's
   * replacement scanner reads one: `\d`, `\dd`, `$d`, `$dd`, `${d}` or `${dd}`.
   * Gives the group number and the length of the reference.
   */
  function BackrefAt(rep: string): (r: Option<(nat, nat)>)
    ensures r.Some? ==> 2 <= r.value.1 <= |rep|
  {
    if |rep| < 2 || (rep[0] != '\\' && rep[0] != '$') then None
    else
      var brace := rep[0] == '$' && rep[1] == '{';
      var start := if brace then 2 else 1;
      if start >= |rep| || !IsDigit(rep[start]) then None
      else
        var first := rep[start] as int - '0' as int;
        var twoDigits := start + 1 < |rep| && IsDigit(rep[start + 1]);
        var group := if twoDigits then 10 * first + (rep[start + 1] as int - '0' as int) else first;
        var end := if twoDigits then start + 2 else start + 1;
        if !brace then Some((group, end))
        else if end < |rep| && rep[end] == '}' then Some((group, end + 1))
        else None
  }

  /**
   * The text that replaces one placeholder: the binding with its
   * back-references expanded. The pattern has no capture group, so group 0
   * (the placeholder itself) is the only one; a reference to any other group
   * expands to nothing. A backslash that is not a reference escapes a
   * following backslash or dollar sign.
   */
  function Expand(rep: string): (r: string)
    ensures '\\' !in rep && '$' !in rep ==> r == rep
    ensures BackrefAt(rep).Some? && BackrefAt(rep).value.0 == 0 ==> |r| >= |Marker| && r[..|Marker|] == Marker
    decreases |rep|
  {
    if rep == [] then []
    else if rep[0] != '\\' && rep[0] != '$' then
      assert rep == [rep[0]] + rep[1..];
      [rep[0]] + Expand(rep[1..])
    else match BackrefAt(rep)
      case Some((group, len)) => (if group == 0 then Marker else []) + Expand(rep[len..])
      case None =>
        if rep[0] == '\\' && |rep| >= 2 && (rep[1] == '\\' || rep[1] == '$')
        then [rep[1]] + Expand(rep[2..])
        else [rep[0]] + Expand(rep[1..])
  }

  /** One `preg_replace` with limit 1: the leftmost placeholder becomes the expanded binding. */
  function ReplaceFirst(s: string, binding: string): string
  {
    match FindFrom(s, 0)
    case None => s
    case Some(i) => s[..i] + Expand(binding) + s[i + |Marker|..]
  }

  /** The template after every binding, in order, has replaced the leftmost remaining placeholder. */
  function Interpolate(template: string, bindings: seq<string>): string
    decreases |bindings|
  {
    if bindings == [] then template
    else Interpolate(ReplaceFirst(template, bindings[0]), bindings[1..])
  }

  /** The loop of `sendSync` that reassigns the URL once per binding. */
  method Substitute(template: string, bindings: seq<string>) returns (url: string)
    ensures url == Interpolate(template, bindings)
  {
    url := template;
    for i := 0 to |bindings|
      invariant Interpolate(url, bindings[i..]) == Interpolate(template, bindings)
    {
      assert bindings[i..][1..] == bindings[i + 1..];
      url := ReplaceFirst(url, bindings[i]);
    }
  }

  // ---------------------------------------------------------------------------
  // An independent reference: cut the template at its placeholders and fill
  // the gaps with the bindings pairwise, left to right.

  /** The template cut at each placeholder, scanning left to right. */
  function Split(s: string): (segments: seq<string>)
    decreases |s|
    ensures |segments| >= 1
  {
    match FindFrom(s, 0)
    case None => [s]
    case Some(i) => [s[..i]] + Split(s[i + |Marker|..])
  }

  /** The segments glued back together with a placeholder between neighbours. */
  function Join(segments: seq<string>): string
    requires |segments| >= 1
    decreases |segments|
  {
    if |segments| == 1 then segments[0] else segments[0] + Marker + Join(segments[1..])
  }

  /** The number of placeholders a left-to-right scan finds. */
  function MarkerCount(s: string): nat
  {
    |Split(s)| - 1
  }

  /** The gaps between segments filled by the bindings in order; unfilled gaps keep their placeholder. */
  function Fill(segments: seq<string>, bindings: seq<string>): string
    requires |segments| >= 1
    decreases |bindings|
  {
    if |segments| == 1 || bindings == [] then Join(segments)
    else segments[0] + bindings[0] + Fill(segments[1..], bindings[1..])
  }

  /** No text that could start a placeholder. */
  predicate Plain(s: string)
  {
    '{' !in s
  }

  /** A template whose only braces are those of its placeholders. */
  predicate PlainTemplate(template: string)
  {
    forall k :: 0 <= k < |Split(template)| ==> Plain(Split(template)[k])
  }

  /** A binding that is inserted verbatim: no brace, no back-reference, no escape. */
  predicate Literal(binding: string)
  {
    '{' !in binding && '\\' !in binding && '$' !in binding
  }

  lemma {:induction false} SplitJoin(s: string)
    ensures Join(Split(s)) == s
    decreases |s|
  {
    match FindFrom(s, 0)
    case None =>
    case Some(i) =>
      var rest := s[i + |Marker|..];
      SplitJoin(rest);
      assert s[i..i + |Marker|] == Marker;
      calc {
        Join(Split(s));
        s[..i] + Marker + Join(Split(rest));
        s[..i] + s[i..i + |Marker|] + rest;
        { assert s == s[..i] + s[i..i + |Marker|] + rest; }
        s;
      }
  }

  lemma {:induction false} SplitSegmentsHaveNoMarker(s: string)
    ensures forall k, j :: 0 <= k < |Split(s)| ==> !MarkerAt(Split(s)[k], j)
    decreases |s|
  {
    match FindFrom(s, 0)
    case None =>
    case Some(i) =>
      var rest := s[i + |Marker|..];
      SplitSegmentsHaveNoMarker(rest);
      forall j: nat | MarkerAt(s[..i], j)
        ensures false
      {
        assert s[..i][j..j + |Marker|] == s[j..j + |Marker|];
        assert MarkerAt(s, j);
      }
      forall k, j | 0 <= k < |Split(s)|
        ensures !MarkerAt(Split(s)[k], j)
      {
        if k > 0 {
          assert Split(s)[k] == Split(rest)[k - 1];
        }
      }
  }

  lemma PlainHasNoMarker(s: string)
    requires Plain(s)
    ensures FindFrom(s, 0) == None
  {
    forall i: nat | i + |Marker| <= |s|
      ensures !MarkerAt(s, i)
    {
      assert s[i..i + |Marker|][0] == s[i];
    }
  }

  lemma PlainThenMarker(a: string, rest: string)
    requires Plain(a)
    ensures FindFrom(a + Marker + rest, 0) == Some(|a|)
  {
    var s := a + Marker + rest;
    assert s[|a|..|a| + |Marker|] == Marker;
    assert MarkerAt(s, |a|);
    forall i: nat | i < |a| && i + |Marker| <= |s|
      ensures !MarkerAt(s, i)
    {
      assert s[i..i + |Marker|][0] == s[i] == a[i];
    }
  }

  lemma SplitAt(s: string, i: nat)
    requires FindFrom(s, 0) == Some(i)
    ensures Split(s) == [s[..i]] + Split(s[i + |Marker|..])
  {
  }

  lemma {:induction false} SplitPlainJoin(a: string, segments: seq<string>)
    requires |segments| >= 1 && Plain(a)
    requires forall k :: 0 <= k < |segments| ==> Plain(segments[k])
    ensures Split(a + Join(segments)) == [a + segments[0]] + segments[1..]
    decreases |segments|, 1
  {
    var head := a + segments[0];
    assert Plain(head) by { assert Plain(segments[0]); }
    if |segments| == 1 {
      PlainHasNoMarker(head);
      assert a + Join(segments) == head;
      assert segments[1..] == [];
    } else {
      SplitPlainJoinStep(a, segments);
    }
  }

  /** The step of `SplitPlainJoin` for two or more segments: cut at the first placeholder, then recurse. */
  lemma {:induction false} SplitPlainJoinStep(a: string, segments: seq<string>)
    requires |segments| >= 2 && Plain(a)
    requires forall k :: 0 <= k < |segments| ==> Plain(segments[k])
    ensures Split(a + Join(segments)) == [a + segments[0]] + segments[1..]
    decreases |segments|, 0
  {
    var head := a + segments[0];
    assert Plain(head) by { assert Plain(segments[0]); }
    var rest := segments[1..];
    assert forall k :: 0 <= k < |rest| ==> Plain(rest[k]) by {
      forall k | 0 <= k < |rest| ensures Plain(rest[k]) { assert rest[k] == segments[k + 1]; }
    }
    var tail := Join(rest);
    var s := head + Marker + tail;
    assert a + Join(segments) == s;
    PlainThenMarker(head, tail);
    SplitAt(s, |head|);
    assert s[..|head|] == head;
    assert s[|head| + |Marker|..] == tail;
    SplitPlainJoin("", rest);
    assert "" + tail == tail;
    assert "" + rest[0] == rest[0];
    calc {
      Split(a + Join(segments));
      Split(s);
      [head] + Split(tail);
      [head] + ([rest[0]] + rest[1..]);
      { assert [rest[0]] + rest[1..] == rest; }
      [head] + rest;
    }
  }

  lemma {:induction false} InterpolatePlain(a: string, segments: seq<string>, bindings: seq<string>)
    requires |segments| >= 1 && Plain(a)
    requires forall k :: 0 <= k < |segments| ==> Plain(segments[k])
    requires forall k :: 0 <= k < |bindings| ==> Literal(bindings[k])
    ensures Interpolate(a + Join(segments), bindings) == a + Fill(segments, bindings)
    decreases |bindings|
  {
    if bindings == [] {
    } else if |segments| == 1 {
      PlainHasNoMarker(a + segments[0]);
      InterpolatePlain(a, segments, bindings[1..]);
    } else {
      var tail := Join(segments[1..]);
      var head := a + segments[0];
      assert a + Join(segments) == head + Marker + tail;
      PlainThenMarker(head, tail);
      var s := head + Marker + tail;
      assert s[..|head|] == head && s[|head| + |Marker|..] == tail;
      var a' := head + bindings[0];
      assert ReplaceFirst(a + Join(segments), bindings[0]) == a' + Join(segments[1..]);
      InterpolatePlain(a', segments[1..], bindings[1..]);
    }
  }

  /** With plain templates and literal bindings, interpolation is the pairwise fill of the placeholders. */
  lemma InterpolateFills(template: string, bindings: seq<string>)
    requires PlainTemplate(template)
    requires forall k :: 0 <= k < |bindings| ==> Literal(bindings[k])
    ensures Interpolate(template, bindings) == Fill(Split(template), bindings)
  {
    SplitJoin(template);
    InterpolatePlain("", Split(template), bindings);
    assert "" + Join(Split(template)) == template;
    assert "" + Fill(Split(template), bindings) == Fill(Split(template), bindings);
  }

  lemma {:induction false} FillCount(a: string, segments: seq<string>, bindings: seq<string>)
    requires |segments| >= 1 && Plain(a)
    requires forall k :: 0 <= k < |segments| ==> Plain(segments[k])
    requires forall k :: 0 <= k < |bindings| ==> Literal(bindings[k])
    ensures var n := |segments| - 1;
      MarkerCount(a + Fill(segments, bindings)) == n - (if |bindings| < n then |bindings| else n)
    decreases |bindings|
  {
    if |segments| == 1 || bindings == [] {
      SplitPlainJoin(a, segments);
    } else {
      var a' := a + segments[0] + bindings[0];
      assert a + Fill(segments, bindings) == a' + Fill(segments[1..], bindings[1..]);
      FillCount(a', segments[1..], bindings[1..]);
    }
  }

  /**
   * Exactly min(#placeholders, #bindings) placeholders are replaced: the
   * placeholders left over are the ones the bindings did not reach.
   */
  lemma InterpolateReplacesMin(template: string, bindings: seq<string>)
    requires PlainTemplate(template)
    requires forall k :: 0 <= k < |bindings| ==> Literal(bindings[k])
    ensures var n := MarkerCount(template);
      MarkerCount(Interpolate(template, bindings)) == n - (if |bindings| < n then |bindings| else n)
  {
    InterpolateFills(template, bindings);
    FillCount("", Split(template), bindings);
    assert "" + Fill(Split(template), bindings) == Fill(Split(template), bindings);
  }

  lemma {:induction false} FillIgnoresExcess(segments: seq<string>, bindings: seq<string>)
    requires |segments| >= 1 && |bindings| >= |segments| - 1
    ensures Fill(segments, bindings) == Fill(segments, bindings[..|segments| - 1])
    decreases |bindings|
  {
    if |segments| > 1 {
      var cut := bindings[..|segments| - 1];
      assert cut[0] == bindings[0] && cut[1..] == bindings[1..][..|segments| - 2];
      FillIgnoresExcess(segments[1..], bindings[1..]);
    }
  }

  /** Bindings beyond the number of placeholders are ignored. */
  lemma InterpolateIgnoresExcess(template: string, bindings: seq<string>)
    requires PlainTemplate(template)
    requires forall k :: 0 <= k < |bindings| ==> Literal(bindings[k])
    requires |bindings| >= MarkerCount(template)
    ensures Interpolate(template, bindings) == Interpolate(template, bindings[..MarkerCount(template)])
  {
    var segments := Split(template);
    var cut := bindings[..|segments| - 1];
    assert forall k :: 0 <= k < |cut| ==> Literal(cut[k]) by {
      forall k | 0 <= k < |cut| ensures Literal(cut[k]) {
        assert cut[k] == bindings[k];
      }
    }
    InterpolateFills(template, bindings);
    InterpolateFills(template, cut);
    FillIgnoresExcess(segments, bindings);
  }
}
