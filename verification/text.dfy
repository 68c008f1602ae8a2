/** Text utilities the generators and the compiler rely on: `itertools::join`,
    Rust's `char::is_whitespace`, and `String::retain(|c| !c.is_whitespace())`. */
module Text {

  /** `itertools::join(xs, sep)`: the elements separated by `sep`. */
  function Join(xs: seq<string>, sep: string): string
  {
    if |xs| == 0 then ""
    else if |xs| == 1 then xs[0]
    else xs[0] + sep + Join(xs[1..], sep)
  }

  /** Joining a non-empty list peels off its head followed by one separator. */
  lemma JoinCons(x: string, ys: seq<string>, sep: string)
    ensures |ys| == 0 ==> Join([x] + ys, sep) == x
    ensures |ys| > 0 ==> Join([x] + ys, sep) == x + sep + Join(ys, sep)
  {
    assert ([x] + ys)[1..] == ys;
  }

  /** With the empty separator, joining a list onto a head is plain concatenation. */
  lemma JoinConsNoSep(x: string, ys: seq<string>)
    ensures Join([x] + ys, "") == x + Join(ys, "")
  {
    JoinCons(x, ys, "");
    if |ys| > 0 {
      assert x + "" == x;
    }
  }

  /** Regrouping concatenations; stated once so that proofs can name the step. */
  lemma Assoc3(a: string, b: string, c: string)
    ensures a + (b + c) == a + b + c
  {
  }

  lemma Assoc4(a: string, b: string, c: string, d: string)
    ensures a + (b + c + d) == a + b + c + d
  {
  }

  /** One step of reading a separated list: an element `x` followed by the
      text of the remaining elements `xs` (each preceded by `sep`) and `rest`
      is the joined list followed by `rest`. */
  lemma JoinStep(x: string, xs: seq<string>, sep: string, rest: string, tail: string)
    requires |xs| == 0 ==> tail == rest
    requires |xs| > 0 ==> tail == sep + Join(xs, sep) + rest
    ensures x + tail == Join([x] + xs, sep) + rest
    ensures sep + x + tail == sep + Join([x] + xs, sep) + rest
  {
    JoinCons(x, xs, sep);
    var joined := Join([x] + xs, sep);
    if |xs| > 0 {
      Assoc4(x, sep, Join(xs, sep), rest);
    }
    Assoc3(sep, x, tail);
    Assoc3(sep, joined, rest);
  }

  /** `s` occurs somewhere inside `t`. */
  ghost predicate Contains(t: string, s: string)
  {
    exists pre, post :: t == pre + s + post
  }

  /** An occurrence survives extending the text on either side. */
  lemma ContainsWithin(pre: string, s: string, post: string)
    ensures Contains(pre + s + post, s) && Contains(pre + s, s) && Contains(s + post, s)
  {
    assert pre + s == pre + s + "";
    assert s + post == "" + s + post;
  }

  lemma ContainsExtend(t: string, s: string, u: string)
    requires Contains(t, s)
    ensures Contains(t + u, s)
  {
    var pre, post :| t == pre + s + post;
    assert t + u == pre + s + (post + u);
  }

  lemma ContainsPrepend(u: string, t: string, s: string)
    requires Contains(t, s)
    ensures Contains(u + t, s)
  {
    var pre, post :| t == pre + s + post;
    assert u + t == (u + pre) + s + post;
  }

  /** An occurrence inside a piece is an occurrence in any text built around it. */
  lemma ContainsInside(pre: string, t: string, post: string, s: string)
    requires Contains(t, s)
    ensures Contains(pre + t + post, s)
  {
    ContainsPrepend(pre, t, s);
    ContainsExtend(pre + t, s, post);
  }

  /** `f(x)` for every element, concatenated in order. */
  function ConcatMap<T>(xs: seq<T>, f: T -> string): string
  {
    if |xs| == 0 then "" else f(xs[0]) + ConcatMap(xs[1..], f)
  }

  lemma ConcatMapOne<T>(x: T, f: T -> string)
    ensures ConcatMap([], f) == ""
    ensures ConcatMap([x], f) == f(x)
  {
    assert [x][1..] == [];
  }

  lemma {:induction false} ConcatMapAppend<T>(a: seq<T>, b: seq<T>, f: T -> string)
    ensures ConcatMap(a + b, f) == ConcatMap(a, f) + ConcatMap(b, f)
    decreases |a|
  {
    if |a| == 0 {
      assert a + b == b;
    } else {
      assert (a + b)[0] == a[0];
      assert (a + b)[1..] == a[1..] + b;
      ConcatMapAppend(a[1..], b, f);
      Assoc3(f(a[0]), ConcatMap(a[1..], f), ConcatMap(b, f));
    }
  }

  ghost predicate StartsWith(t: string, p: string)
  {
    exists post :: t == p + post
  }

  /** A run of three pieces occurs wherever the three pieces stand together. */
  lemma ContainsRun(pre: string, a: string, b: string, c: string)
    ensures Contains(pre + a + b + c, a + b + c)
  {
    assert pre + a + b + c == pre + (a + b + c) + "";
  }

  lemma StartsWithExtend(t: string, p: string, u: string)
    requires StartsWith(t, p)
    ensures StartsWith(t + u, p)
  {
    var post :| t == p + post;
    assert t + u == p + (post + u);
  }

  /** Every element of a joined list occurs in the joined text. */
  lemma {:induction false} JoinContains(xs: seq<string>, sep: string, i: nat)
    requires i < |xs|
    ensures Contains(Join(xs, sep), xs[i])
    decreases |xs|
  {
    if |xs| == 1 {
      ContainsWithin("", xs[0], "");
      assert "" + xs[0] + "" == Join(xs, sep);
    } else if i == 0 {
      ContainsWithin("", xs[0], sep + Join(xs[1..], sep));
      Assoc3(xs[0], sep, Join(xs[1..], sep));
      assert "" + xs[0] == xs[0];
    } else {
      JoinContains(xs[1..], sep, i - 1);
      ContainsPrepend(xs[0] + sep, Join(xs[1..], sep), xs[i]);
    }
  }

  /** Rust's `char::is_whitespace`: the Unicode White_Space property. */
  predicate IsWhitespace(c: char)
  {
    var n := c as int;
    (0x09 <= n <= 0x0D) || n == 0x20 || n == 0x85 || n == 0xA0 || n == 0x1680
    || (0x2000 <= n <= 0x200A) || n == 0x2028 || n == 0x2029 || n == 0x202F
    || n == 0x205F || n == 0x3000
  }

  predicate NoWhitespace(s: string)
  {
    forall i :: 0 <= i < |s| ==> !IsWhitespace(s[i])
  }

  predicate AllWhitespace(s: string)
  {
    forall i :: 0 <= i < |s| ==> IsWhitespace(s[i])
  }

  lemma NoWhitespaceAppend(a: string, b: string)
    requires NoWhitespace(a) && NoWhitespace(b)
    ensures NoWhitespace(a + b)
  {
    assert forall i :: 0 <= i < |a + b| ==> (a + b)[i] == if i < |a| then a[i] else b[i - |a|];
  }

  /** Joining whitespace-free pieces with a whitespace-free separator gives
      whitespace-free text. */
  lemma {:induction false} JoinNoWhitespace(xs: seq<string>, sep: string)
    requires NoWhitespace(sep)
    requires forall i :: 0 <= i < |xs| ==> NoWhitespace(xs[i])
    ensures NoWhitespace(Join(xs, sep))
    decreases |xs|
  {
    if |xs| > 1 {
      JoinNoWhitespace(xs[1..], sep);
      NoWhitespaceAppend(xs[0], sep);
      NoWhitespaceAppend(xs[0] + sep, Join(xs[1..], sep));
    }
  }

  /** `s.retain(|c| !c.is_whitespace())`: every whitespace character removed,
      every other character kept in its order. */
  function StripWhitespace(s: string): (r: string)
    ensures |r| <= |s|
    ensures NoWhitespace(r)
    ensures NoWhitespace(s) ==> r == s
    ensures AllWhitespace(s) ==> r == ""
    ensures forall c :: !IsWhitespace(c) ==> multiset(r)[c] == multiset(s)[c]
  {
    if |s| == 0 then ""
    else
      assert s == [s[0]] + s[1..];
      if IsWhitespace(s[0]) then StripWhitespace(s[1..])
      else [s[0]] + StripWhitespace(s[1..])
  }

  /** Stripping works piecewise: the result for a concatenation is the
      concatenation of the results. */
  lemma {:induction false} StripAppend(a: string, b: string)
    ensures StripWhitespace(a + b) == StripWhitespace(a) + StripWhitespace(b)
    decreases |a|
  {
    if |a| == 0 {
      assert a + b == b;
    } else {
      assert (a + b)[0] == a[0];
      assert (a + b)[1..] == a[1..] + b;
      StripAppend(a[1..], b);
    }
  }

  /** Stripping an already stripped string changes nothing. */
  lemma StripIdempotent(s: string)
    ensures StripWhitespace(StripWhitespace(s)) == StripWhitespace(s)
  {
  }

  /** Inserting a run of whitespace anywhere does not change the stripped text. */
  lemma StripIgnoresInsertedWhitespace(a: string, w: string, b: string)
    requires AllWhitespace(w)
    ensures StripWhitespace(a + w + b) == StripWhitespace(a + b)
  {
    StripAppend(a + w, b);
    StripAppend(a, w);
    StripAppend(a, b);
  }
}
